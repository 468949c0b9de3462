/** Lists of requests, by number, from which one can be taken out (list_del, hlist_del). */
module IdList {
  /** list_del, for a list that holds x once */
  function Without(s: seq<nat>, x: nat): (r: seq<nat>)
    ensures forall y :: y in r ==> y in s
    ensures forall y :: y in s && y != x ==> y in r
  {
    if s == [] then []
    else if s[0] == x then s[1..]
    else
      assert s == [s[0]] + s[1..];
      [s[0]] + Without(s[1..], x)
  }

  lemma WithoutFirst(s: seq<nat>)
    requires s != []
    ensures Without(s, s[0]) == s[1..]
  {}

  lemma WithoutLater(s: seq<nat>, x: nat)
    requires s != [] && s[0] != x
    ensures Without(s, x) == [s[0]] + Without(s[1..], x)
  {}

  ghost predicate Distinct(s: seq<nat>) { forall i, j :: 0 <= i < j < |s| ==> s[i] != s[j] }

  lemma {:induction false} WithoutDistinct(s: seq<nat>, x: nat)
    requires Distinct(s)
    ensures Distinct(Without(s, x)) && x !in Without(s, x)
    decreases |s|
  {
    if s != [] {
      if s[0] == x {
        assert forall i :: 0 < i < |s| ==> s[i] != s[0];
      } else {
        WithoutDistinct(s[1..], x);
        assert s[0] !in s[1..];
        var w := Without(s[1..], x);
        assert forall i :: 0 <= i < |w| ==> w[i] in w;
      }
    }
  }

  /** Taking out element i leaves the others in their order. */
  lemma {:induction false} WithoutAt(s: seq<nat>, i: nat)
    requires i < |s| && Distinct(s)
    ensures Without(s, s[i]) == s[..i] + s[i + 1..]
    decreases i
  {
    hide Without;
    WithoutFirst(s);
    if i > 0 {
      assert s[1..][i - 1] == s[i] && s[0] != s[i];
      WithoutAt(s[1..], i - 1);
      WithoutLater(s, s[i]);
      assert s[..i] + s[i + 1..] == [s[0]] + (s[1..][..i - 1] + s[1..][i..]);
    }
  }
}
