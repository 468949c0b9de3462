/** crypto/algboss.c: the probe that reads a name, as its moving pointer does. */
module Algboss {
  import opened AlgName
  import opened Optional

  /** What the constructor of a template is given. */
  datatype Attr = Alg(name: string) | Number(num: nat)
  datatype Param = Param(tmpl: string, attrs: seq<Attr>)

  const WORD: nat := 0x1_0000_0000

  // ----- simple_strtol with base 0, on digits -----

  function DigitValue(c: char): (v: nat)
    requires IsDigit(c)
    ensures v < 10
  {
    c as int - '0' as int
  }

  /** The digits below `base` at the start of s, read on from `acc`, in 32 bits. */
  function Read(s: string, base: nat, acc: nat): nat
    requires AllDigits(s)
    decreases |s|
  {
    if s == "" || DigitValue(s[0]) >= base then acc
    else
      assert forall i :: 0 <= i < |s| - 1 ==> s[1..][i] == s[i + 1];
      Read(s[1..], base, (acc * base + DigitValue(s[0])) % WORD)
  }

  /** simple_guess_base, where no letter follows */
  function Base(s: string): nat { if s != "" && s[0] == '0' then 8 else 10 }

  function StrToL(s: string): nat
    requires AllDigits(s)
  {
    Read(s, Base(s), 0)
  }

  /** The number that decimal digits denote. */
  function Decimal(s: string): nat
    requires AllDigits(s)
    decreases |s|
  {
    if s == "" then 0
    else
      assert forall i :: 0 <= i < |s| - 1 ==> s[..|s| - 1][i] == s[i];
      Decimal(s[..|s| - 1]) * 10 + DigitValue(s[|s| - 1])
  }

  lemma {:induction false} ReadLast(s: string, acc: nat)
    requires AllDigits(s) && s != "" && AllDigits(s[..|s| - 1])
    ensures Read(s, 10, acc) == (Read(s[..|s| - 1], 10, acc) * 10 + DigitValue(s[|s| - 1])) % WORD
    decreases |s|
  {
    if |s| > 1 {
      assert forall i :: 0 <= i < |s| - 1 ==> s[1..][i] == s[i + 1];
      assert s[1..][..|s| - 2] == s[..|s| - 1][1..];
      ReadLast(s[1..], (acc * 10 + DigitValue(s[0])) % WORD);
    }
  }

  lemma {:induction false} ReadIsDecimal(s: string)
    requires AllDigits(s)
    ensures Read(s, 10, 0) == Decimal(s) % WORD
    decreases |s|
  {
    hide Read;
    if s == "" {
      NothingRead(10);
    } else {
      var t := s[..|s| - 1];
      assert forall i :: 0 <= i < |t| ==> t[i] == s[i];
      ReadIsDecimal(t);
      ReadLast(s, 0);
      Wrap(Decimal(t), DigitValue(s[|s| - 1]));
    }
  }

  lemma NothingRead(base: nat)
    ensures Read("", base, 0) == 0
  {}

  lemma Wrap(a: nat, d: nat)
    ensures ((a % WORD) * 10 + d) % WORD == (a * 10 + d) % WORD
  {
    var q := a / WORD;
    assert a * 10 + d == (a % WORD) * 10 + d + (q * 10) * WORD;
    Multiple((a % WORD) * 10 + d, q * 10);
  }

  lemma Multiple(x: nat, k: nat)
    ensures (x + k * WORD) % WORD == x % WORD
    decreases k
  {
    if k > 0 {
      Multiple(x, k - 1);
      assert x + k * WORD == x + (k - 1) * WORD + WORD;
    }
  }

  lemma DecimalSnoc(p: string, c: char)
    requires AllDigits(p) && IsDigit(c)
    ensures AllDigits(p + [c]) && Decimal(p + [c]) == Decimal(p) * 10 + DigitValue(c)
  {
    assert (p + [c])[..|p|] == p;
  }

  lemma {:induction false} DecimalGrows(p: string, t: string)
    requires AllDigits(p) && AllDigits(t)
    ensures AllDigits(p + t) && Decimal(p) <= Decimal(p + t)
    decreases |t|
  {
    hide Decimal;
    if t == "" {
      assert p + t == p;
    } else {
      assert forall i :: 0 <= i < |t| - 1 ==> t[1..][i] == t[i + 1];
      DecimalSnoc(p, t[0]);
      DecimalGrows(p + [t[0]], t[1..]);
      assert (p + [t[0]]) + t[1..] == p + t;
    }
  }

  lemma ReadStep(t: string, n: nat)
    requires AllDigits(t)
    ensures t == "" ==> Read(t, 8, n) == n
    ensures t != "" ==> AllDigits(t[1..])
    ensures t != "" ==> Read(t, 8, n) == if DigitValue(t[0]) >= 8 then n else Read(t[1..], 8, (n * 8 + DigitValue(t[0])) % WORD)
  {
    assert forall i :: 0 <= i < |t| - 1 ==> t[1..][i] == t[i + 1];
  }

  /** Read on as octal digits behind p, for which n has been read, a number that fits
      in 32 bits comes out no larger than it is, and smaller from 8 on. */
  lemma {:induction false} OctalBelow(p: string, t: string, n: nat)
    requires AllDigits(p) && AllDigits(t) && AllDigits(p + t) && n <= Decimal(p) && Decimal(p + t) < WORD
    ensures Read(t, 8, n) <= Decimal(p + t)
    ensures Read(t, 8, n) == Decimal(p + t) <==> n == Decimal(p) && (t == "" || Decimal(p + t) < 8)
    decreases |t|
  {
    hide Decimal, Read;
    ReadStep(t, n);
    if t == "" {
      assert p + t == p;
    } else {
      assert forall i :: 0 <= i < |t| - 1 ==> t[1..][i] == t[i + 1];
      var c := t[0];
      DecimalSnoc(p, c);
      DecimalGrows(p + [c], t[1..]);
      assert (p + [c]) + t[1..] == p + t;
      assert t[1..] == "" ==> p + [c] == p + t;
      if DigitValue(c) < 8 {
        OctalBelow(p + [c], t[1..], n * 8 + DigitValue(c));
      }
    }
  }

  /** A number that fits in 32 bits is read as the decimal number it is if and only if
      it has no leading zero or is less than 8; larger ones lose their upper bits. */
  lemma NumberRead(s: string)
    requires AllDigits(s) && s != ""
    ensures Decimal(s) < WORD ==> (StrToL(s) == Decimal(s) <==> s[0] != '0' || Decimal(s) < 8)
    ensures s[0] != '0' ==> StrToL(s) == Decimal(s) % WORD
  {
    ReadIsDecimal(s);
    if s[0] == '0' && Decimal(s) < WORD {
      assert "" + s == s;
      OctalBelow("", s, 0);
    }
  }

  /** Such a number: 010 is 8, and 08 is 0. */
  lemma LeadingZero()
    ensures StrToL("010") == 8 && Decimal("010") == 10 && StrToL("08") == 0 && Decimal("08") == 8
  {
    assert "010"[1..] == "10" && "10"[1..] == "0" && "0"[1..] == "" && "08"[1..] == "8";
    assert Read("0", 8, 1) == 8;
    assert Read("10", 8, 0) == 8;
    assert "010"[..2] == "01" && "01"[..1] == "0" && "0"[..0] == "" && "08"[..1] == "0";
    assert Decimal("0") == 0;
    assert Decimal("01") == 1;
  }

  // ----- arguments -----

  function AttrOf(text: string): Attr { if AllDigits(text) then Number(StrToL(text)) else Alg(text) }

  function AttrsOf(texts: seq<string>): (r: seq<Attr>)
    ensures |r| == |texts| && forall i :: 0 <= i < |texts| ==> r[i] == AttrOf(texts[i])
  {
    seq(|texts|, i requires 0 <= i < |texts| => AttrOf(texts[i]))
  }

  function Plus(o: Option<nat>, n: nat): Option<nat> { if o == None then None else Some(o.value + n) }

  function Before(texts: seq<string>, o: Option<seq<string>>): Option<seq<string>> {
    if o == None then None else Some(texts + o.value)
  }

  /** simple_strtol */
  method StrToLong(s: string) returns (n: nat)
    requires AllDigits(s)
    ensures n == StrToL(s)
  {
    var base := Base(s);
    n := 0;
    var i := 0;
    assert s[0..] == s;
    while i < |s|
      invariant i <= |s| && AllDigits(s[i..]) && StrToL(s) == Read(s[i..], base, n)
    {
      assert s[i..][1..] == s[i + 1..];
      if DigitValue(s[i]) >= base { return; }
      n := (n * base + DigitValue(s[i])) % WORD;
      i := i + 1;
    }
  }

  /** The loop over letters, digits, - and _: where it stops, and whether all were digits. */
  method SkipWord(name: string, begin: nat) returns (p: nat, notnum: bool)
    requires begin <= |name|
    ensures begin <= p <= |name| && WordLen(name[begin..]) == p - begin && notnum == !AllDigits(name[begin..p])
  {
    hide WordLen, IsAlnum;
    p, notnum := begin, false;
    while p < |name| && IsWord(name[p])
      invariant begin <= p <= |name| && AllWord(name[begin..p]) && notnum == !AllDigits(name[begin..p])
    {
      assert name[begin..p + 1] == name[begin..p] + [name[p]];
      assert forall i :: 0 <= i < p - begin ==> name[begin..p + 1][i] == name[begin..p][i];
      notnum := notnum || !IsDigit(name[p]);
      p := p + 1;
    }
    assert name[begin..][..p - begin] == name[begin..p];
    WordLenIs(name[begin..], p - begin);
  }

  /** The loop over a group, from its opening parenthesis to the closing one. */
  method SkipGroup(name: string, open: nat) returns (p: Option<nat>)
    requires open < |name|
    ensures p == Plus(GroupLen(name[open + 1..], 0), open + 1)
    ensures p.Some? ==> open < p.value <= |name|
  {
    hide GroupLen;
    var q, recursion: nat := open, 0;
    ghost var all := GroupLen(name[open + 1..], 0);
    while true
      invariant open <= q < |name| && Plus(all, open + 1) == Plus(GroupLen(name[q + 1..], recursion), q + 1)
      decreases |name| - q
    {
      q := q + 1;
      GroupStep(name[q..], recursion);
      if q == |name| { return None; }
      assert name[q..][1..] == name[q + 1..];
      if name[q] == '(' {
        recursion := recursion + 1;
      } else if name[q] == ')' {
        if recursion == 0 { return Some(q + 1); }
        recursion := recursion - 1;
      }
    }
  }

  lemma GroupStep(s: string, d: nat)
    ensures s == "" ==> GroupLen(s, d) == None
    ensures s != "" && s[0] == ')' && d == 0 ==> GroupLen(s, d) == Some(1)
    ensures s != "" && !(s[0] == ')' && d == 0) ==>
      GroupLen(s, d) == Plus(GroupLen(s[1..], if s[0] == '(' then d + 1 else if s[0] == ')' then d - 1 else d), 1)
  {}

  /** One argument from `begin` on, with its type; None when there is none to read. */
  method ReadArgument(name: string, begin: nat) returns (p: nat, attr: Option<Attr>)
    requires begin <= |name|
    ensures attr == None <==> ArgLen(name[begin..]) == None
    ensures attr.Some? ==> begin < p <= |name| && ArgLen(name[begin..]) == Some(p - begin) && attr.value == AttrOf(name[begin..p])
  {
    hide WordLen, GroupLen, ArgLen;
    ghost var left := name[begin..];
    ArgLenIs(left);
    ArgLenBound(left);
    var notnum: bool;
    p, notnum := SkipWord(name, begin);
    if p < |name| && name[p] == '(' {
      assert left[p - begin] == name[p] && left[p - begin + 1..] == name[p + 1..];
      var q := SkipGroup(name, p);
      if q == None { return p, None; }
      p, notnum := q.value, true;
      TextType(left, p - begin);
    }
    if p == begin { return p, None; }
    var text := name[begin..p];
    assert left[..p - begin] == text;
    if notnum {
      attr := Some(Alg(text));
    } else {
      var n := StrToLong(text);
      attr := Some(Number(n));
    }
  }

  /** cryptomgr_schedule_probe up to the start of its thread: the template and the typed
      arguments of a name that can be read, or nothing. */
  method ScheduleProbe(name: string) returns (r: Option<Param>)
    ensures Parse(name) == None ==> r == None
    ensures Parse(name).Some? ==> r == Some(Param(Parse(name).value.tmpl, AttrsOf(Parse(name).value.args)))
  {
    hide WordLen, Arguments, ArgLen, AttrOf;
    assert name[0..] == name;
    var p, word := SkipWord(name, 0);
    if p == 0 || p == |name| || name[p] != '(' { return None; }
    var tmpl := name[..p];
    ghost var all := Arguments(name[p + 1..], 0);
    var attrs: seq<Attr> := [];
    ghost var texts: seq<string> := [];
    BeforeNothing(all);
    while true
      invariant p < |name| && all == Before(texts, Arguments(name[p + 1..], |texts|)) && attrs == AttrsOf(texts)
      decreases |name| - p
    {
      var begin := p + 1;
      ghost var left := name[begin..];
      ArgumentsStep(left, |texts|);
      var attr;
      p, attr := ReadArgument(name, begin);
      if attr == None { return None; }
      assert left[..p - begin] == name[begin..p];
      attrs := attrs + [attr.value];
      if |attrs| >= CRYPTO_MAX_ATTRS || p == |name| { return None; }
      TailOfTail(name, begin, p);
      BeforeMore(texts, name[begin..p], Arguments(name[p + 1..], |texts| + 1));
      texts := texts + [name[begin..p]];
      assert attrs == AttrsOf(texts);
      if name[p] == ')' {
        assert all == Some(texts);
        return Some(Param(tmpl, attrs));
      }
      if name[p] != ',' { return None; }
    }
  }

  lemma TailOfTail(s: string, i: nat, p: nat)
    requires i <= p < |s|
    ensures s[i..][p - i] == s[p] && s[i..][p - i + 1..] == s[p + 1..]
  {}

  lemma BeforeNothing(o: Option<seq<string>>)
    ensures Before([], o) == o
  {
    if o.Some? { assert [] + o.value == o.value; }
  }

  lemma BeforeMore(texts: seq<string>, text: string, o: Option<seq<string>>)
    ensures Before(texts, Before([text], o)) == Before(texts + [text], o)
  {
    if o.Some? { assert texts + ([text] + o.value) == (texts + [text]) + o.value; }
  }

  lemma ArgumentsStep(s: string, i: nat)
    ensures var n := ArgLen(s);
      (n.Some? ==> 0 < n.value <= |s|) && Arguments(s, i) ==
        if n == None || i + 1 >= CRYPTO_MAX_ATTRS || n.value == |s| then None
        else if s[n.value] == ')' then Some([s[..n.value]])
        else if s[n.value] != ',' then None
        else Before([s[..n.value]], Arguments(s[n.value + 1..], i + 1))
  {
    hide ArgLen;
    ArgLenBound(s);
  }

  lemma ArgLenIs(s: string)
    ensures var w := WordLen(s);
      ArgLen(s) == if w < |s| && s[w] == '(' then Plus(GroupLen(s[w + 1..], 0), w + 1) else if w == 0 then None else Some(w)
  {
    hide WordLen, GroupLen;
  }

  /** An argument is a number exactly when it is all digits: a group is not. */
  lemma TextType(s: string, n: nat)
    requires ArgLen(s) == Some(n)
    ensures n <= |s|
    ensures var w := WordLen(s); w < |s| && s[w] == '(' ==> !AllDigits(s[..n])
  {
    hide WordLen, GroupLen;
    var w := WordLen(s);
    ArgLenBound(s);
    if w < |s| && s[w] == '(' {
      GroupLenBound(s[w + 1..], 0);
      assert s[..n][w] == '(';
    }
  }
}
