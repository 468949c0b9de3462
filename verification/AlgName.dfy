/** Names of algorithms: template(argument,...,argument), nested to any depth
    (crypto/algboss.c, crypto/algapi.c). */
module AlgName {
  import opened Optional

  const CRYPTO_MAX_ALG_NAME: nat := 64
  const CRYPTO_MAX_ATTRS: nat := 32

  // ----- characters (lib/ctype.c) -----

  predicate IsDigit(c: char) { '0' <= c <= '9' }

  predicate IsAlnum(c: char) {
    || IsDigit(c) || 'A' <= c <= 'Z' || 'a' <= c <= 'z'
    || (192 <= c as int <= 255 && c as int != 215 && c as int != 247)
  }

  predicate IsWord(c: char) { IsAlnum(c) || c == '-' || c == '_' }

  predicate AllWord(s: string) { forall i :: 0 <= i < |s| ==> IsWord(s[i]) }

  predicate AllDigits(s: string) { forall i :: 0 <= i < |s| ==> IsDigit(s[i]) }

  // ----- names and their printed form -----

  datatype Name = Plain(word: string) | Instance(tmpl: string, args: seq<Name>)

  ghost predicate WellFormed(n: Name) {
    match n
    case Plain(word) => word != "" && AllWord(word)
    case Instance(tmpl, args) => tmpl != "" && AllWord(tmpl) && args != [] && forall i :: 0 <= i < |args| ==> WellFormed(args[i])
  }

  function Join(parts: seq<string>): string {
    if parts == [] then "" else if |parts| == 1 then parts[0] else parts[0] + "," + Join(parts[1..])
  }

  function Text(tmpl: string, parts: seq<string>): string { tmpl + "(" + Join(parts) + ")" }

  function Printed(n: Name): string {
    match n
    case Plain(word) => word
    case Instance(tmpl, args) => Text(tmpl, PrintedAll(args))
  }

  function PrintedAll(args: seq<Name>): (r: seq<string>)
    ensures |r| == |args| && forall i :: 0 <= i < |args| ==> r[i] == Printed(args[i])
  {
    if args == [] then [] else [Printed(args[0])] + PrintedAll(args[1..])
  }

  // ----- what a name that is probed may look like -----

  /** Every parenthesis is closed, d of them having been opened before. */
  predicate BalancedFrom(s: string, d: nat) {
    if s == "" then d == 0
    else if s[0] == '(' then BalancedFrom(s[1..], d + 1)
    else if s[0] == ')' then d > 0 && BalancedFrom(s[1..], d - 1)
    else BalancedFrom(s[1..], d)
  }

  /** A word, or a word, possibly empty, and a group in parentheses: k letters in. */
  predicate ArgumentAt(a: string, k: nat) {
    && k <= |a| && AllWord(a[..k])
    && (|a| == k > 0 || (k + 2 <= |a| && a[k] == '(' && a[|a| - 1] == ')' && BalancedFrom(a[k + 1..|a| - 1], 0)))
  }

  ghost predicate Argument(a: string) { exists k: nat :: ArgumentAt(a, k) }

  // ----- the parser of cryptomgr_schedule_probe on what is left of the name -----

  function WordLen(s: string): (n: nat)
    ensures n <= |s| && AllWord(s[..n]) && (n < |s| ==> !IsWord(s[n]))
  {
    if s != "" && IsWord(s[0]) then
      assert forall m: nat {:trigger s[1..][..m]} :: m <= |s| - 1 ==> s[..m + 1] == [s[0]] + s[1..][..m];
      1 + WordLen(s[1..])
    else 0
  }

  /** Up to and with the parenthesis that closes the group; None at the end of the name. */
  function GroupLen(s: string, d: nat): Option<nat> {
    if s == "" then None
    else if s[0] == ')' && d == 0 then Some(1)
    else
      var r := GroupLen(s[1..], if s[0] == '(' then d + 1 else if s[0] == ')' then d - 1 else d);
      if r == None then None else Some(r.value + 1)
  }

  function ArgLen(s: string): Option<nat> {
    var w := WordLen(s);
    if w < |s| && s[w] == '(' then
      var g := GroupLen(s[w + 1..], 0);
      if g == None then None else Some(w + 1 + g.value)
    else if w == 0 then None
    else Some(w)
  }

  lemma GroupLenBound(s: string, d: nat)
    ensures GroupLen(s, d).Some? ==> 0 < GroupLen(s, d).value <= |s|
    decreases |s|
  {
    if s != "" && !(s[0] == ')' && d == 0) {
      GroupLenBound(s[1..], if s[0] == '(' then d + 1 else if s[0] == ')' then d - 1 else d);
    }
  }

  lemma ArgLenBound(s: string)
    ensures ArgLen(s).Some? ==> 0 < ArgLen(s).value <= |s|
  {
    var w := WordLen(s);
    if w < |s| { GroupLenBound(s[w + 1..], 0); }
  }

  /** The arguments that are left, i of them having been read. */
  function Arguments(s: string, i: nat): Option<seq<string>>
    decreases |s|
  {
    ArgLenBound(s);
    var n := ArgLen(s);
    if n == None || i + 1 >= CRYPTO_MAX_ATTRS || n.value == |s| then None
    else if s[n.value] == ')' then Some([s[..n.value]])
    else if s[n.value] != ',' then None
    else
      var rest := Arguments(s[n.value + 1..], i + 1);
      if rest == None then None else Some([s[..n.value]] + rest.value)
  }

  datatype Parsed = Parsed(tmpl: string, args: seq<string>)

  function Parse(s: string): Option<Parsed> {
    var w := WordLen(s);
    if w == 0 || w == |s| || s[w] != '(' then None
    else
      var args := Arguments(s[w + 1..], 0);
      if args == None then None else Some(Parsed(s[..w], args.value))
  }

  // ----- groups -----

  lemma {:induction false} GroupIsBalanced(s: string, d: nat)
    requires GroupLen(s, d).Some?
    ensures var n := GroupLen(s, d).value; 0 < n <= |s| && s[n - 1] == ')' && BalancedFrom(s[..n - 1], d)
    decreases |s|
  {
    GroupLenBound(s, d);
    var n := GroupLen(s, d).value;
    if !(s[0] == ')' && d == 0) {
      var e := if s[0] == '(' then d + 1 else if s[0] == ')' then d - 1 else d;
      GroupIsBalanced(s[1..], e);
      assert s[..n - 1][1..] == s[1..][..n - 2];
    }
  }

  lemma {:induction false} BalancedIsGroup(b: string, d: nat, rest: string)
    requires BalancedFrom(b, d)
    ensures GroupLen(b + ")" + rest, d) == Some(|b| + 1)
    decreases |b|
  {
    var s := b + ")" + rest;
    if b != "" {
      var e := if b[0] == '(' then d + 1 else if b[0] == ')' then d - 1 else d;
      BalancedIsGroup(b[1..], e, rest);
      assert s[1..] == b[1..] + ")" + rest;
    }
  }

  lemma {:induction false} WordLenIs(s: string, k: nat)
    requires k <= |s| && AllWord(s[..k]) && (k < |s| ==> !IsWord(s[k]))
    ensures WordLen(s) == k
  {
    if k > 0 {
      assert s[..k][0] == s[0];
      assert s[1..][..k - 1] == s[..k][1..];
      WordLenIs(s[1..], k - 1);
    }
  }

  // ----- arguments -----

  predicate Ends(s: string) { s != "" && (s[0] == ',' || s[0] == ')') }

  lemma ArgumentIsRead(a: string, rest: string)
    requires Argument(a) && Ends(rest)
    ensures ArgLen(a + rest) == Some(|a|)
  {
    hide BalancedFrom, GroupLen, WordLen, IsAlnum;
    var k: nat :| ArgumentAt(a, k);
    var s := a + rest;
    assert s[..k] == a[..k];
    assert s[k] == if k < |a| then a[k] else rest[0];
    NotWords();
    WordLenIs(s, k);
    if k < |a| {
      var b := a[k + 1..|a| - 1];
      BalancedIsGroup(b, 0, rest);
      assert s[k + 1..] == b + ")" + rest;
    }
  }

  lemma NotWords()
    ensures !IsWord('(') && !IsWord(')') && !IsWord(',')
  {}

  lemma ReadIsArgument(s: string)
    requires ArgLen(s).Some?
    ensures var n := ArgLen(s).value; 0 < n <= |s| && Argument(s[..n])
  {
    hide BalancedFrom, GroupLen, IsWord;
    ArgLenBound(s);
    var w, n := WordLen(s), ArgLen(s).value;
    var a := s[..n];
    assert a[..w] == s[..w];
    if w < |s| && s[w] == '(' {
      GroupIsBalanced(s[w + 1..], 0);
      assert a[w + 1..n - 1] == s[w + 1..][..n - w - 2];
      assert s[w + 1..][n - w - 2] == s[n - 1];
    }
    assert ArgumentAt(a, w);
  }

  ghost predicate Arguments1(args: seq<string>) { args != [] && forall i :: 0 <= i < |args| ==> Argument(args[i]) }

  lemma {:induction false} ArgumentsAreRead(args: seq<string>, rest: string, i: nat)
    requires Arguments1(args) && i + |args| < CRYPTO_MAX_ATTRS
    ensures Arguments(Join(args) + ")" + rest, i) == Some(args)
    decreases |args|
  {
    hide Argument, ArgLen;
    var s := Join(args) + ")" + rest;
    var tail := if |args| == 1 then ")" + rest else "," + (Join(args[1..]) + ")" + rest);
    assert s == args[0] + tail;
    ArgumentIsRead(args[0], tail);
    assert s[|args[0]|..] == tail && s[..|args[0]|] == args[0] && s[|args[0]|] == tail[0];
    if |args| > 1 {
      ArgumentsAreRead(args[1..], rest, i + 1);
      assert s[|args[0]| + 1..] == tail[1..] == Join(args[1..]) + ")" + rest;
      assert [args[0]] + args[1..] == args;
    } else {
      assert args == [args[0]];
    }
  }

  lemma {:induction false} ReadAreArguments(s: string, i: nat)
    requires Arguments(s, i).Some?
    ensures var args := Arguments(s, i).value;
      Arguments1(args) && i + |args| < CRYPTO_MAX_ATTRS && Join(args) + ")" <= s
    decreases |s|
  {
    hide Argument, ArgLen;
    ArgLenBound(s);
    ReadIsArgument(s);
    var n := ArgLen(s).value;
    var args := Arguments(s, i).value;
    assert s == s[..n] + [s[n]] + s[n + 1..];
    if s[n] == ',' {
      ReadAreArguments(s[n + 1..], i + 1);
      var more := Arguments(s[n + 1..], i + 1).value;
      assert args[1..] == more;
      assert Join(args) + ")" == s[..n] + "," + (Join(more) + ")");
    }
  }

  // ----- the whole name -----

  ghost predicate Probed(p: Parsed) { p.tmpl != "" && AllWord(p.tmpl) && Arguments1(p.args) && |p.args| < CRYPTO_MAX_ATTRS }

  lemma TemplateRead(tmpl: string, rest: string)
    requires AllWord(tmpl)
    ensures WordLen(tmpl + "(" + rest) == |tmpl|
  {
    hide WordLen, IsWord;
    NotWords();
    var s := tmpl + "(" + rest;
    assert s[..|tmpl|] == tmpl && s[|tmpl|] == '(';
    WordLenIs(s, |tmpl|);
  }

  /** The parser accepts a name exactly when it starts with the printed form of a
      template and of 1 to 31 arguments, and then it returns these: there is no other way
      to read the name, and what follows the last parenthesis is not looked at. */
  lemma ParseExact(s: string, p: Parsed)
    ensures Parse(s) == Some(p) <==> Probed(p) && Text(p.tmpl, p.args) <= s
  {
    hide Arguments, AllWord, Join, WordLen, Arguments1;
    if Parse(s) == Some(p) {
      var w := WordLen(s);
      ReadAreArguments(s[w + 1..], 0);
      assert s == s[..w] + "(" + s[w + 1..];
      assert Text(p.tmpl, p.args) == s[..w] + "(" + (Join(p.args) + ")");
    }
    if Probed(p) && Text(p.tmpl, p.args) <= s {
      var rest := s[|Text(p.tmpl, p.args)|..];
      var left := Join(p.args) + ")" + rest;
      assert s == p.tmpl + "(" + left;
      TemplateRead(p.tmpl, left);
      assert s[|p.tmpl| + 1..] == left && s[..|p.tmpl|] == p.tmpl && s[|p.tmpl|] == '(';
      ArgumentsAreRead(p.args, rest, 0);
    }
  }

  // ----- printed names -----

  lemma {:induction false} BalancedAround(a: string, b: string, d: nat)
    requires BalancedFrom(a, d)
    ensures forall e: nat :: BalancedFrom(b, e) ==> BalancedFrom(a + b, d + e)
    decreases |a|
  {
    if a == "" {
      assert a + b == b;
    } else {
      assert (a + b)[1..] == a[1..] + b;
      BalancedAround(a[1..], b, if a[0] == '(' then d + 1 else if a[0] == ')' then d - 1 else d);
    }
  }

  lemma {:induction false} WordIsBalanced(w: string)
    requires AllWord(w)
    ensures BalancedFrom(w, 0)
    decreases |w|
  {
    if w != "" {
      NotWords();
      assert forall i :: 0 <= i < |w[1..]| ==> w[1..][i] == w[i + 1];
      WordIsBalanced(w[1..]);
    }
  }

  lemma GroupedIsBalanced(b: string)
    requires BalancedFrom(b, 0)
    ensures BalancedFrom("(" + b + ")", 0)
  {
    CloseBalanced(b, 0);
    assert ("(" + b + ")")[1..] == b + ")";
  }

  lemma {:induction false} CloseBalanced(b: string, d: nat)
    requires BalancedFrom(b, d)
    ensures BalancedFrom(b + ")", d + 1)
    decreases |b|
  {
    if b == "" {
      assert b + ")" == ")";
    } else {
      assert (b + ")")[1..] == b[1..] + ")";
      CloseBalanced(b[1..], if b[0] == '(' then d + 1 else if b[0] == ')' then d - 1 else d);
    }
  }

  lemma {:induction false} JoinIsBalanced(parts: seq<string>)
    requires forall i :: 0 <= i < |parts| ==> BalancedFrom(parts[i], 0)
    ensures BalancedFrom(Join(parts), 0)
    decreases |parts|
  {
    if |parts| > 1 {
      JoinIsBalanced(parts[1..]);
      var t := "," + Join(parts[1..]);
      assert t[1..] == Join(parts[1..]);
      BalancedAround(parts[0], t, 0);
      assert BalancedFrom(t, 0);
      assert parts[0] + "," + Join(parts[1..]) == parts[0] + t;
      assert 0 + 0 == 0;
    }
  }

  lemma {:induction false} PrintedIsArgument(n: Name)
    requires WellFormed(n)
    ensures Argument(Printed(n)) && BalancedFrom(Printed(n), 0)
    decreases n
  {
    hide IsWord;
    match n
    case Plain(word) =>
      WordIsBalanced(word);
      assert word[..|word|] == word;
      assert ArgumentAt(word, |word|);
    case Instance(tmpl, args) =>
      forall i | 0 <= i < |args| ensures BalancedFrom(Printed(args[i]), 0) {
        PrintedIsArgument(args[i]);
      }
      var b := Join(PrintedAll(args));
      JoinIsBalanced(PrintedAll(args));
      GroupedIsBalanced(b);
      WordIsBalanced(tmpl);
      BalancedAround(tmpl, "(" + b + ")", 0);
      var a := Printed(n);
      assert a == tmpl + ("(" + b + ")");
      assert a[..|tmpl|] == tmpl && a[|tmpl| + 1..|a| - 1] == b;
      assert ArgumentAt(a, |tmpl|);
  }

  /** The parser undoes the printer: of every well-formed name it returns the template and
      the printed top-level arguments, however deep these are nested. */
  lemma ParsePrinted(n: Name)
    requires WellFormed(n) && n.Instance? && |n.args| < CRYPTO_MAX_ATTRS
    ensures Parse(Printed(n)) == Some(Parsed(n.tmpl, PrintedAll(n.args)))
  {
    hide AllWord, Argument, BalancedFrom, Text, Parse;
    forall i | 0 <= i < |n.args| ensures Argument(Printed(n.args[i])) {
      PrintedIsArgument(n.args[i]);
    }
    ParseExact(Printed(n), Parsed(n.tmpl, PrintedAll(n.args)));
  }

  lemma {:induction false} JoinLength(parts: seq<string>)
    requires Arguments1(parts)
    ensures |Join(parts)| >= 2 * |parts| - 1
    ensures forall i :: 0 <= i < |parts| ==> |parts[i]| <= |Join(parts)|
    decreases |parts|
  {
    hide Argument;
    ArgumentNotEmpty(parts[0]);
    if |parts| > 1 { JoinLength(parts[1..]); }
  }

  lemma ArgumentNotEmpty(a: string)
    requires Argument(a)
    ensures a != ""
  {}

  /** The limit on the number of arguments is never reached by a name that fits into
      cra_name, and every part of it fits into the buffer it is copied to. */
  lemma NamesFit(s: string, tmpl: string, args: seq<string>)
    requires |s| < CRYPTO_MAX_ALG_NAME && tmpl != "" && Arguments1(args) && Text(tmpl, args) <= s
    ensures |args| < CRYPTO_MAX_ATTRS - 1 && |tmpl| < CRYPTO_MAX_ALG_NAME
    ensures forall i :: 0 <= i < |args| ==> |args[i]| < CRYPTO_MAX_ALG_NAME
  {
    hide Arguments1, Join;
    JoinLength(args);
  }

  /** The name of an instance, or -ENAMETOOLONG (crypto_alloc_instance2, crypto_authenc_alloc). */
  function NameOf(tmpl: string, args: seq<string>): Option<string> {
    if |Text(tmpl, args)| >= CRYPTO_MAX_ALG_NAME then None else Some(Text(tmpl, args))
  }

  /** Whatever name an instance is given, the probe reads its template and arguments back. */
  lemma InstanceNameParses(n: Name)
    requires WellFormed(n) && n.Instance?
    ensures var s := NameOf(n.tmpl, PrintedAll(n.args));
      s.Some? ==> Parse(s.value) == Some(Parsed(n.tmpl, PrintedAll(n.args)))
  {
    hide AllWord, Argument, BalancedFrom, Parse, Text;
    var s := NameOf(n.tmpl, PrintedAll(n.args));
    if s.Some? {
      forall i | 0 <= i < |n.args| ensures Argument(PrintedAll(n.args)[i]) {
        PrintedIsArgument(n.args[i]);
      }
      NamesFit(s.value, n.tmpl, PrintedAll(n.args));
      ParsePrinted(n);
    }
  }

  /** A name that can be read is read the same with anything behind it. */
  lemma TrailingIgnored(s: string, junk: string)
    requires Parse(s).Some?
    ensures Parse(s + junk) == Parse(s)
  {
    hide Parse, Probed, Text;
    var p := Parse(s).value;
    ParseExact(s, p);
    ParseExact(s + junk, p);
  }
}
