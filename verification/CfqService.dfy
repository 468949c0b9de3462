/** The service tree of the fair queueing scheduler stays in order, and its cached first
    node is the first node. */
module CfqService {
  import opened Cfq
  import opened IdList
  import opened Optional
  import opened SortList

  /** The tree holds exactly the queues with the flag, but for `out`. */
  ghost predicate InService(queues: map<nat, Queue>, service: seq<nat>, out: Option<nat>) {
    Distinct(service) && forall q: nat :: q in service <==> q in queues && queues[q].onRr && out != Some(q)
  }

  /** No queue in the tree comes before one that stands ahead of it. */
  ghost predicate InOrder(queues: map<nat, Queue>, service: seq<nat>) {
    && (forall i: nat :: i < |service| ==> service[i] in queues)
    && forall i: nat, j: nat :: i < j < |service| ==>
         !Precedes(queues[service[j]].cls, queues[service[j]].key, queues[service[i]])
  }

  ghost predicate LeftOk(left: Option<nat>, service: seq<nat>) { left.Some? ==> service != [] && left.value == service[0] }

  ghost predicate ServiceBut(s: Data, out: Option<nat>) {
    && InService(s.queues, s.service, out) && InOrder(s.queues, s.service) && LeftOk(s.left, s.service)
    && s.busy == |s.service| + (if out.Some? then 1 else 0)
    && (s.active.Some? ==> s.active.value in s.queues)
  }

  /** Only what places q in the tree differs. */
  ghost predicate SameBut(s: Data, s': Data, q: nat) {
    && s'.queues.Keys == s.queues.Keys && q in s.queues && s'.queues[q] == s.queues[q].(key := s'.queues[q].key)
    && (forall p: nat :: p in s.queues && p != q ==> s'.queues[p] == s.queues[p])
    && s'.active == s.active && s'.busy == s.busy && s'.syncs == s.syncs && s'.metas == s.metas && s'.last == s.last && s'.now == s.now
    && s'.out == s.out
  }

  lemma {:induction false} PlaceIs(queues: map<nat, Queue>, service: seq<nat>, c: Class, k: int)
    requires forall i: nat :: i < |service| ==> service[i] in queues
    ensures var p := ServicePlace(queues, service, c, k);
      && (forall i: nat :: i < p ==> !Precedes(c, k, queues[service[i]]))
      && (p < |service| ==> Precedes(c, k, queues[service[p]]))
    decreases |service|
  {
    if service != [] && !Precedes(c, k, queues[service[0]]) {
      assert forall i: nat :: i < |service| - 1 ==> service[1..][i] == service[i + 1];
      PlaceIs(queues, service[1..], c, k);
    }
  }

  lemma {:induction false} PlaceFrame(queues: map<nat, Queue>, queues': map<nat, Queue>, service: seq<nat>, c: Class, k: int)
    requires forall i: nat :: i < |service| ==> service[i] in queues && service[i] in queues' && queues[service[i]] == queues'[service[i]]
    ensures ServicePlace(queues, service, c, k) == ServicePlace(queues', service, c, k)
    decreases |service|
  {
    if service != [] {
      assert forall i: nat :: i < |service| - 1 ==> service[1..][i] == service[i + 1];
      PlaceFrame(queues, queues', service[1..], c, k);
    }
  }

  lemma Follows(c: Class, k: int, p: Queue, r: Queue)
    requires Precedes(c, k, p) && !Precedes(r.cls, r.key, p)
    ensures Rank(c) < Rank(r.cls) || (c == r.cls && k < r.key)
  {}

  lemma EnterOrdered(queues: map<nat, Queue>, service: seq<nat>, q: nat, c: Class, k: int)
    requires InOrder(queues, service) && q in queues && q !in service && queues[q].cls == c
    ensures var i := ServicePlace(queues, service, c, k);
      InOrder(queues[q := queues[q].(key := k)], InsertAt(service, i, q))
  {
    var i := ServicePlace(queues, service, c, k);
    PlaceIs(queues, service, c, k);
    InsertedAt(service, i, q);
    var service', queues' := InsertAt(service, i, q), queues[q := queues[q].(key := k)];
    forall a: nat, b: nat | a < b < |service'|
      ensures !Precedes(queues'[service'[b]].cls, queues'[service'[b]].key, queues'[service'[a]])
    {
      if b == i {
        assert service'[a] == service[a];
      } else if a == i {
        assert service'[b] == service[b - 1];
        if b - 1 > i { assert !Precedes(queues[service[b - 1]].cls, queues[service[b - 1]].key, queues[service[i]]); }
        Follows(c, k, queues[service[i]], queues[service[b - 1]]);
      } else {
        var x, y: nat := if a < i then a else a - 1, if b < i then b else b - 1;
        assert service'[a] == service[x] && service'[b] == service[y];
      }
    }
  }

  lemma EnterListed(service: seq<nat>, i: nat, q: nat)
    requires Distinct(service) && q !in service && i <= |service|
    ensures Distinct(InsertAt(service, i, q)) && forall p: nat :: p in InsertAt(service, i, q) <==> p in service || p == q
  {
    InsertedAt(service, i, q);
    var t := InsertAt(service, i, q);
    assert t[i] == q;
    forall p: nat | p in service ensures p in t {
      var k: nat :| k < |service| && service[k] == p;
      assert t[if k < i then k else k + 1] == p;
    }
  }

  lemma EnterOk(s: Data, q: nat, key: int)
    requires q in s.queues && s.queues[q].onRr && ServiceBut(s, Some(q))
    ensures ServiceBut(Enter(s, q, key), None) && SameBut(s, Enter(s, q, key), q) && |Enter(s, q, key).service| == |s.service| + 1
  {
    hide InOrder, Distinct, InsertAt, ServicePlace;
    var i := ServicePlace(s.queues, s.service, s.queues[q].cls, key);
    EnterOrdered(s.queues, s.service, q, s.queues[q].cls, key);
    EnterListed(s.service, i, q);
    InsertedAt(s.service, i, q);
  }

  lemma SkipsOne(s: seq<nat>, i: nat)
    requires i < |s|
    ensures var t := s[..i] + s[i + 1..];
      |t| == |s| - 1 && forall k: nat :: k < |t| ==> t[k] == s[if k < i then k else k + 1]
  {}

  lemma OrderedSkips(queues: map<nat, Queue>, s: seq<nat>, t: seq<nat>, i: nat)
    requires InOrder(queues, s) && i < |s| && |t| == |s| - 1
    requires forall k: nat :: k < |t| ==> t[k] == s[if k < i then k else k + 1]
    ensures InOrder(queues, t)
  {
    hide Precedes;
  }

  lemma WithoutOrdered(queues: map<nat, Queue>, service: seq<nat>, q: nat)
    requires InOrder(queues, service) && Distinct(service) && q in service
    ensures InOrder(queues, Without(service, q)) && |Without(service, q)| == |service| - 1
    ensures service[0] != q ==> Without(service, q) != [] && Without(service, q)[0] == service[0]
  {
    hide Precedes, Without, Distinct;
    var i: nat :| i < |service| && service[i] == q;
    WithoutAt(service, i);
    SkipsOne(service, i);
    OrderedSkips(queues, service, Without(service, q), i);
  }

  lemma EraseOk(s: Data, q: nat)
    requires q in s.service && ServiceBut(s, None)
    ensures ServiceBut(Erase(s, q), Some(q)) && |Erase(s, q).service| == |s.service| - 1
  {
    hide InOrder, Distinct, Without;
    WithoutOrdered(s.queues, s.service, q);
    WithoutDistinct(s.service, q);
  }

  lemma FirstOk(s: Data)
    requires ServiceBut(s, None)
    ensures ServiceBut(First(s).0, None) && First(s).0 == s.(left := First(s).0.left)
    ensures First(s).1 == if s.service == [] then None else Some(s.service[0])
  {
    hide InService, InOrder;
  }

  /** cfq_service_tree_add leaves a queue that has the flag in the tree, in its place. */
  lemma ServiceAddOk(s: Data, q: nat, front: bool, offset: int)
    requires q in s.queues && s.queues[q].onRr && ServiceBut(s, if q in s.service then None else Some(q))
    ensures ServiceBut(ServiceAdd(s, q, front, offset), None) && SameBut(s, ServiceAdd(s, q, front, offset), q)
    ensures forall p: nat :: p in ServiceAdd(s, q, front, offset).service <==> p in s.service || p == q
  {
    hide InOrder, Distinct, Enter, Erase, ServiceKey, LeftOk;
    var s1 := if front && s.queues[q].cls != Idle then First(s).0 else s;
    LeftRefreshed(s, if q in s.service then None else Some(q));
    var key := ServiceKey(s, q, front, offset);
    if q in s1.service {
      if key != s1.queues[q].key {
        EraseOk(s1, q);
        EraseKeeps(s1, q);
        EnterOk(Erase(s1, q), q, key);
      }
    } else {
      EnterOk(s1, q, key);
    }
  }

  lemma EraseKeeps(s: Data, q: nat)
    ensures Erase(s, q) == s.(left := Erase(s, q).left, service := Erase(s, q).service)
  {}

  lemma LeftRefreshed(s: Data, out: Option<nat>)
    requires ServiceBut(s, out)
    ensures ServiceBut(First(s).0, out) && First(s).0 == s.(left := First(s).0.left)
  {
    hide InService, InOrder;
  }

  /** Real time before best effort before idle, and in a class by key. */
  predicate NoLater(p: Queue, q: Queue) {
    match p.cls
    case RealTime => q.cls == RealTime ==> p.key <= q.key
    case BestEffort => q.cls == Idle || (q.cls == BestEffort && p.key <= q.key)
    case Idle => q.cls == Idle && p.key <= q.key
  }

  /** The queue at the head of the tree comes after no other, by class and then by key. */
  lemma FirstIsLeast(s: Data, q: nat)
    requires ServiceBut(s, None) && q in s.queues && s.queues[q].onRr
    ensures First(s).1.Some? && First(s).1.value in s.queues
    ensures NoLater(s.queues[First(s).1.value], s.queues[q])
  {
    assert q in s.service;
    var i: nat :| i < |s.service| && s.service[i] == q;
    FirstOk(s);
    var z: nat := 0;
    if i > 0 { assert !Precedes(s.queues[s.service[i]].cls, s.queues[s.service[i]].key, s.queues[s.service[z]]); }
  }

  lemma ResortOk(s: Data, q: nat, offset: int)
    requires q in s.queues && ServiceBut(s, None)
    ensures ServiceBut(Resort(s, q, offset), None) && SameBut(s, Resort(s, q, offset), q)
    ensures forall p: nat :: p in Resort(s, q, offset).service <==> p in s.service
  {
    hide InOrder, Distinct, LeftOk, ServiceAdd;
    if s.queues[q].onRr { ServiceAddOk(s, q, false, offset); }
  }

  /** Queue q has become c, apart from its key, and no other queue has changed. */
  ghost predicate Becomes(s: Data, s': Data, q: nat, c: Queue) {
    && s'.queues.Keys == s.queues.Keys && q in s.queues && s'.queues[q] == c.(key := s'.queues[q].key)
    && (forall p: nat :: p in s.queues && p != q ==> s'.queues[p] == s.queues[p])
    && s'.active == s.active && s'.syncs == s.syncs && s'.metas == s.metas && s'.last == s.last && s'.now == s.now && s'.out == s.out
  }

  lemma FlagOrdered(queues: map<nat, Queue>, service: seq<nat>, q: nat, c: Queue)
    requires InOrder(queues, service) && q in queues && c.cls == queues[q].cls && c.key == queues[q].key
    ensures InOrder(queues[q := c], service)
  {}

  /** A change of q that keeps its class, key and flag keeps the tree as it is. */
  lemma QueueChanged(s: Data, q: nat, c: Queue)
    requires ServiceBut(s, None) && q in s.queues && c.cls == s.queues[q].cls && c.key == s.queues[q].key && c.onRr == s.queues[q].onRr
    ensures ServiceBut(With(s, q, c), None)
  {
    hide InOrder, Distinct, LeftOk;
    FlagOrdered(s.queues, s.service, q, c);
  }

  lemma AddRrOk(s: Data, q: nat, offset: int)
    requires q in s.queues && !s.queues[q].onRr && ServiceBut(s, None)
    ensures ServiceBut(AddRr(s, q, offset), None) && Becomes(s, AddRr(s, q, offset), q, s.queues[q].(onRr := true))
  {
    hide InOrder, Distinct, LeftOk, ServiceAdd;
    var s1 := With(s, q, s.queues[q].(onRr := true)).(busy := s.busy + 1);
    FlagOrdered(s.queues, s.service, q, s.queues[q].(onRr := true));
    ServiceAddOk(s1, q, false, offset);
  }

  lemma DelRrOk(s: Data, q: nat)
    requires q in s.queues && s.queues[q].onRr && ServiceBut(s, None)
    ensures ServiceBut(DelRr(s, q), None) && Becomes(s, DelRr(s, q), q, s.queues[q].(onRr := false))
    ensures |DelRr(s, q).service| == |s.service| - 1 && s.busy > 0
  {
    hide InOrder, Distinct, LeftOk, Without;
    EraseOk(s, q);
    EraseKeeps(s, q);
    FlagOrdered(s.queues, Erase(s, q).service, q, s.queues[q].(onRr := false));
    SomeListed(s.service, q);
  }

  lemma SomeListed(service: seq<nat>, q: nat)
    requires q in service
    ensures |service| > 0
  {}

  lemma PlaceFirst(queues: map<nat, Queue>, service: seq<nat>, c: Class, k: int)
    requires service != [] && service[0] in queues
    ensures ServicePlace(queues, service, c, k) == 0 <==> Precedes(c, k, queues[service[0]])
  {}

  lemma FirstRemains(service: seq<nat>, q: nat)
    requires service != [] && service[0] != q
    ensures Without(service, q) != [] && Without(service, q)[0] == service[0]
  {}

  /** A queue that preempts is put at the front of the service tree exactly if no queue of a
      better class is there. */
  lemma FrontIsFirst(s: Data, q: nat, offset: int)
    requires q in s.queues && s.queues[q].cls != Idle && s.service != [] && s.service[0] != q && s.service[0] in s.queues
    requires InOrder(s.queues, s.service) && (forall i: nat :: i < |s.service| ==> s.service[i] in s.queues)
    ensures var s' := ServiceAdd(s, q, true, offset); var first := s.queues[s.service[0]];
      s'.service != [] && (s'.service[0] == q <==> Rank(s.queues[q].cls) <= Rank(first.cls))
  {
    var first := s.queues[s.service[0]];
    var key := first.key - HZ;
    var s1 := First(s).0;
    FirstRemains(s.service, q);
    PlaceFirst(s.queues, s.service, s.queues[q].cls, key);
    PlaceFirst(s.queues, Without(s.service, q), s.queues[q].cls, key);
    if q in s.service && key == s.queues[q].key { BehindFirst(s, q); }
    hide Without, ServicePlace, InOrder;
  }

  lemma BehindFirst(s: Data, q: nat)
    requires InOrder(s.queues, s.service) && q in s.service && s.service != [] && s.service[0] != q
    requires forall i: nat :: i < |s.service| ==> s.service[i] in s.queues
    ensures !Precedes(s.queues[q].cls, s.queues[q].key, s.queues[s.service[0]])
  {
    var i :| 0 <= i < |s.service| && s.service[i] == q;
  }

  lemma {:induction false} PlaceLast(queues: map<nat, Queue>, service: seq<nat>, c: Class, k: int)
    requires forall i: nat :: i < |service| ==> service[i] in queues && !Precedes(c, k, queues[service[i]])
    ensures ServicePlace(queues, service, c, k) == |service|
    decreases |service|
  {
    hide Precedes;
    if service != [] { PlaceLast(queues, service[1..], c, k); }
  }

  /** A queue of the idle class is put behind all others, in front or not. */
  lemma IdleIsLast(s: Data, q: nat, front: bool, offset: int)
    requires q in s.queues && s.queues[q].cls == Idle && s.service != [] && s.service[|s.service| - 1] != q
    requires InOrder(s.queues, s.service) && Distinct(s.service)
    ensures var s' := ServiceAdd(s, q, front, offset); s'.service != [] && s'.service[|s'.service| - 1] == q
  {
    var key := KeyOf(s, s.service[|s.service| - 1]) + CFQ_IDLE_DELAY;
    IdleBehindAll(s, key);
    if q in s.service { IdleKey(s, q, key); }
    hide Without, InOrder, Precedes, Distinct, Enter;
    if q in s.service { EnterLast(Erase(s, q), q, key); } else { EnterLast(s, q, key); }
  }

  lemma EnterLast(s: Data, q: nat, key: int)
    requires q in s.queues && forall p: nat :: p in s.service ==> p in s.queues && !Precedes(s.queues[q].cls, key, s.queues[p])
    ensures var t := Enter(s, q, key).service; t != [] && t[|t| - 1] == q
  {
    hide ServicePlace, Precedes;
    PlaceLast(s.queues, s.service, s.queues[q].cls, key);
    InsertedAt(s.service, |s.service|, q);
  }

  lemma IdleBehindAll(s: Data, key: int)
    requires s.service != [] && InOrder(s.queues, s.service) && key > KeyOf(s, s.service[|s.service| - 1])
    ensures forall p: nat :: p in s.service ==> p in s.queues && !Precedes(Idle, key, s.queues[p])
  {
    var z := |s.service| - 1;
    forall p: nat | p in s.service ensures p in s.queues && !Precedes(Idle, key, s.queues[p]) {
      var i :| 0 <= i < |s.service| && s.service[i] == p;
      assert i < z ==> !Precedes(s.queues[s.service[z]].cls, s.queues[s.service[z]].key, s.queues[s.service[i]]);
    }
  }

  lemma IdleKey(s: Data, q: nat, key: int)
    requires q in s.service && q in s.queues && InOrder(s.queues, s.service) && s.queues[q].cls == Idle
    requires s.service[|s.service| - 1] != q && key > s.queues[s.service[|s.service| - 1]].key
    ensures s.queues[q].key != key
  {
    var i :| 0 <= i < |s.service| && s.service[i] == q;
    var z := |s.service| - 1;
    assert !Precedes(s.queues[s.service[z]].cls, s.queues[s.service[z]].key, s.queues[s.service[i]]);
  }
}
