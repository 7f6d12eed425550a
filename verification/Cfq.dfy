/**
 The bookkeeping of the CFQ I/O scheduler (cfq-iosched.c): each process queue's
 sorted requests and next request, the service tree of busy queues with its cached
 leftmost node, and the drain that empties them all.  Sectors and jiffies are
 unbounded; slices, idling, cooperators and the priority trees are left out.
 */
module Cfq {
  import opened Options

  datatype Rq = Rq(pos: nat, sectors: nat, sync: bool, meta: bool)

  datatype Tunables = Tunables(backMax: nat, backPenalty: nat)

  /** Where a queue belongs in the service tree. */
  datatype Key = Key(rt: bool, idle: bool, time: int)

  /** struct cfq_queue: sort_list, fifo (whose order plays no part here), next_rq,
      the on_rr flag and the tree key. */
  datatype Cfqq = Cfqq(sort: seq<Rq>, fifo: multiset<Rq>, next: Option<Rq>, onRr: bool, key: Key)

  /** struct cfq_data: `order` is the service tree from left to right. */
  datatype Cfqd = Cfqd(t: Tunables, last: nat, queues: map<nat, Cfqq>, order: seq<nat>, left: Option<nat>,
                       busy: nat, dispatched: seq<Rq>)

  // ----- choosing a request -------------------------------------------------

  function Wraps(t: Tunables, last: nat, s: nat): bool { s < last && s + t.backMax * 2 < last }

  function Distance(t: Tunables, last: nat, s: nat): nat { if s >= last then s - last else (last - s) * t.backPenalty }

  /** cfq_choose_req */
  function Choose(t: Tunables, last: nat, rq1: Option<Rq>, rq2: Option<Rq>): Option<Rq> {
    if rq1.None? || rq1 == rq2 then rq2
    else if rq2.None? then rq1
    else
      var a, b := rq1.value, rq2.value;
      var w1, w2 := Wraps(t, last, a.pos), Wraps(t, last, b.pos);
      var d1, d2 := Distance(t, last, a.pos), Distance(t, last, b.pos);
      if a.sync != b.sync then (if a.sync then rq1 else rq2)
      else if a.meta != b.meta then (if a.meta then rq1 else rq2)
      else if w1 && w2 then (if a.pos <= b.pos then rq1 else rq2)
      else if w2 then rq1
      else if w1 then rq2
      else if d1 < d2 then rq1
      else if d2 < d1 then rq2
      else if a.pos >= b.pos then rq1 else rq2
  }

  lemma ChooseOne(t: Tunables, last: nat, a: Option<Rq>, b: Option<Rq>)
    ensures Choose(t, last, a, b) == a || Choose(t, last, a, b) == b
    ensures Choose(t, last, a, b).None? <==> a.None? && b.None?
  {
  }

  predicate Prefers(t: Tunables, last: nat, a: Rq, b: Rq) { Choose(t, last, Some(a), Some(b)) == Some(a) }

  /** Sync before async, then metadata, then by distance from the head: a seek forward
      costs its length, a short seek back the penalty times that; requests too far
      behind come last, from the lowest on. */
  lemma PreferenceMeans(t: Tunables, last: nat, a: Rq, b: Rq)
    requires a.pos != b.pos
    ensures a.sync && !b.sync ==> Prefers(t, last, a, b) && !Prefers(t, last, b, a)
    ensures a.sync == b.sync && a.meta && !b.meta ==> Prefers(t, last, a, b) && !Prefers(t, last, b, a)
    ensures a.sync == b.sync && a.meta == b.meta ==>
              && (last <= a.pos && last <= b.pos ==> (Prefers(t, last, a, b) <==> a.pos < b.pos))
              && (last <= a.pos && b.pos < last ==>
                    (Prefers(t, last, a, b) <==> b.pos + t.backMax * 2 < last || a.pos - last <= (last - b.pos) * t.backPenalty))
              && (a.pos + t.backMax * 2 < last && b.pos + t.backMax * 2 < last ==> (Prefers(t, last, a, b) <==> a.pos < b.pos))
    ensures Prefers(t, last, a, b) <==> !Prefers(t, last, b, a)
  {
  }

  ghost predicate Sorted(l: seq<Rq>) { forall i, j :: 0 <= i < j < |l| ==> l[i].pos < l[j].pos }

  /** cfq_find_next_rq */
  function FindNext(t: Tunables, last: nat, l: seq<Rq>, i: nat): Option<Rq>
    requires i < |l|
  {
    var prev := if i > 0 then Some(l[i - 1]) else None;
    var next := if i + 1 < |l| then Some(l[i + 1]) else if i > 0 then Some(l[0]) else None;
    Choose(t, last, next, prev)
  }

  function RemoveAt<T>(l: seq<T>, i: nat): seq<T>
    requires i < |l|
  {
    l[..i] + l[i + 1..]
  }

  function InsertAt<T>(l: seq<T>, k: nat, x: T): seq<T>
    requires k <= |l|
  {
    l[..k] + [x] + l[k..]
  }

  /** The position of the first request not below `pos`. */
  function Place(l: seq<Rq>, pos: nat): (k: nat)
    ensures k <= |l|
    ensures forall j :: 0 <= j < k ==> l[j].pos < pos
    ensures k < |l| ==> pos <= l[k].pos
  {
    if l == [] || pos <= l[0].pos then 0 else 1 + Place(l[1..], pos)
  }

  /** The neighbour found is another request of the queue, if there is one. */
  lemma FindNextIs(t: Tunables, last: nat, l: seq<Rq>, i: nat)
    requires Sorted(l) && i < |l|
    ensures var n, m := FindNext(t, last, l, i), RemoveAt(l, i);
            (n.None? <==> m == []) && (n.Some? ==> n.value in m)
  {
    var m := RemoveAt(l, i);
    ChooseOne(t, last, if i + 1 < |l| then Some(l[i + 1]) else if i > 0 then Some(l[0]) else None, if i > 0 then Some(l[i - 1]) else None);
    if i + 1 < |l| {
      assert m[i] == l[i + 1];
    }
    if i > 0 {
      assert m[i - 1] == l[i - 1] && m[0] == l[0];
    }
  }

  // ----- the service tree ---------------------------------------------------

  function IndexOf(s: seq<nat>, id: nat): (k: nat)
    ensures k <= |s| && (k < |s| ==> s[k] == id) && (k == |s| ==> id !in s)
  {
    if s == [] then 0 else if s[0] == id then 0 else 1 + IndexOf(s[1..], id)
  }

  /** cfq_rb_erase, for a queue that may not be on the tree */
  function Erase(c: Cfqd, id: nat): Cfqd {
    var k := IndexOf(c.order, id);
    if k == |c.order| then c
    else c.(order := RemoveAt(c.order, k), left := if c.left == Some(id) then None else c.left)
  }

  /** cfq_service_tree_add, with the key computed and the place the descent ends at; a
      queue that keeps its key keeps its place. */
  function TreeAdd(c: Cfqd, id: nat, time: int, k: nat): Cfqd
    requires id in c.queues
  {
    var q := c.queues[id];
    if id in c.order && q.key.time == time then c
    else
      var e := Erase(c, id);
      var p := if k > |e.order| then |e.order| else k;
      e.(order := InsertAt(e.order, p, id), left := if p == 0 then Some(id) else e.left,
         queues := e.queues[id := q.(key := q.key.(time := time))])
  }

  /** cfq_rb_first */
  function First(c: Cfqd): Cfqd { if c.left.None? && c.order != [] then c.(left := Some(c.order[0])) else c }

  ghost predicate Distinct(s: seq<nat>) { forall i, j :: 0 <= i < j < |s| ==> s[i] != s[j] }

  /** The tree has the queues marked on_rr, each once, and they are counted; the
      cached leftmost node is the leftmost. */
  ghost predicate TreeOk(c: Cfqd) { TreeIn(c.queues, c.order, c.left, c.busy) }

  ghost predicate TreeIn(queues: map<nat, Cfqq>, order: seq<nat>, left: Option<nat>, busy: nat) {
    && Distinct(order) && busy == |order|
    && (forall id :: id in queues ==> (queues[id].onRr <==> id in order))
    && (forall i :: 0 <= i < |order| ==> order[i] in queues)
    && (left.Some? ==> order != [] && left.value == order[0])
  }

  lemma RemovedIs(s: seq<nat>, k: nat)
    requires Distinct(s) && k < |s|
    ensures Distinct(RemoveAt(s, k)) && s[k] !in RemoveAt(s, k)
    ensures forall x :: x != s[k] ==> (x in RemoveAt(s, k) <==> x in s)
  {
    var m := RemoveAt(s, k);
    forall x | x != s[k] && x in s
      ensures x in m
    {
      var i :| 0 <= i < |s| && s[i] == x;
      assert m[if i < k then i else i - 1] == x;
    }
  }

  lemma InsertedIs(s: seq<nat>, k: nat, id: nat)
    requires Distinct(s) && k <= |s| && id !in s
    ensures Distinct(InsertAt(s, k, id))
    ensures forall x :: x in InsertAt(s, k, id) <==> x == id || x in s
  {
    var m := InsertAt(s, k, id);
    assert m[k] == id;
    forall x | x in s
      ensures x in m
    {
      var i :| 0 <= i < |s| && s[i] == x;
      assert m[if i < k then i else i + 1] == x;
    }
  }

  /** The same while a queue is marked, and counted, but maybe not on the tree yet. */
  ghost predicate TreeMarked(c: Cfqd, id: nat) {
    && Distinct(c.order) && c.busy == |c.order| + (if id in c.order then 0 else 1)
    && id in c.queues && c.queues[id].onRr
    && (forall x :: x in c.queues && x != id ==> (c.queues[x].onRr <==> x in c.order))
    && (forall i :: 0 <= i < |c.order| ==> c.order[i] in c.queues)
    && (c.left.Some? ==> c.order != [] && c.left.value == c.order[0])
  }

  lemma EraseLeft(c: Cfqd, id: nat)
    requires Distinct(c.order) && (c.left.Some? ==> c.order != [] && c.left.value == c.order[0])
    ensures var e := Erase(c, id); Distinct(e.order) && (e.left.Some? ==> e.order != [] && e.left.value == e.order[0])
    ensures var e := Erase(c, id); id !in e.order && forall x :: x != id ==> (x in e.order <==> x in c.order)
    ensures |Erase(c, id).order| == |c.order| - if id in c.order then 1 else 0
  {
    var k := IndexOf(c.order, id);
    if k < |c.order| {
      RemovedIs(c.order, k);
    }
  }

  /** Wherever the descent ends, the cached node stays the leftmost: the new node
      becomes it exactly if the descent never went right. */
  lemma TreeAddKept(c: Cfqd, id: nat, time: int, k: nat)
    requires TreeMarked(c, id)
    ensures TreeOk(TreeAdd(c, id, time, k))
    ensures TreeAdd(c, id, time, k).queues.Keys == c.queues.Keys
  {
    if !(id in c.order && c.queues[id].key.time == time) {
      EraseLeft(c, id);
      var e := Erase(c, id);
      var p := if k > |e.order| then |e.order| else k;
      InsertedIs(e.order, p, id);
      var r := TreeAdd(c, id, time, k);
      forall x | x in r.queues
        ensures r.queues[x].onRr <==> x in r.order
      {
      }
      forall i | 0 <= i < |r.order|
        ensures r.order[i] in r.queues
      {
        assert r.order[i] == id || r.order[i] in c.order;
      }
    }
  }

  // ----- the descent --------------------------------------------------------

  /** The service tree itself; balancing keeps the order of its nodes. */
  datatype Tree = Leaf | Node(left: Tree, id: nat, right: Tree)

  function Inorder(t: Tree): seq<nat> { if t.Leaf? then [] else Inorder(t.left) + [t.id] + Inorder(t.right) }

  /** Real-time queues first and idle ones last, then by service time. */
  predicate GoesLeft(a: Key, b: Key) {
    if a.rt != b.rt then a.rt else if a.idle != b.idle then b.idle else a.time < b.time
  }

  predicate Keyed(t: Tree, queues: map<nat, Cfqq>) { t.Node? ==> t.id in queues && Keyed(t.left, queues) && Keyed(t.right, queues) }

  /** Where the descent of cfq_service_tree_add ends, and whether it went left only. */
  datatype Descent = Descent(place: nat, left: bool)

  function Descend(t: Tree, queues: map<nat, Cfqq>, key: Key): Descent
    requires Keyed(t, queues)
  {
    if t.Leaf? then Descent(0, true)
    else if GoesLeft(key, queues[t.id].key) then Descend(t.left, queues, key)
    else Descent(|Inorder(t.left)| + 1 + Descend(t.right, queues, key).place, false)
  }

  /** The new node is linked where the descent ends. */
  function Link(t: Tree, queues: map<nat, Cfqq>, key: Key, id: nat): Tree
    requires Keyed(t, queues)
  {
    if t.Leaf? then Node(Leaf, id, Leaf)
    else if GoesLeft(key, queues[t.id].key) then t.(left := Link(t.left, queues, key, id))
    else t.(right := Link(t.right, queues, key, id))
  }

  /** A descent that never goes right ends at the leftmost place, and no other does,
      even if keys have changed since and the tree is out of order. */
  lemma {:induction false} DescentPlace(t: Tree, queues: map<nat, Cfqq>, key: Key, id: nat)
    requires Keyed(t, queues)
    ensures var d := Descend(t, queues, key);
            d.place <= |Inorder(t)| && Inorder(Link(t, queues, key, id)) == InsertAt(Inorder(t), d.place, id)
            && (d.left <==> d.place == 0)
  {
    if t.Node? {
      var l, r := Inorder(t.left), Inorder(t.right);
      if GoesLeft(key, queues[t.id].key) {
        DescentPlace(t.left, queues, key, id);
        InsertAround(l, t.id, r, Descend(t.left, queues, key).place, id);
      } else {
        DescentPlace(t.right, queues, key, id);
        InsertBehind(l, t.id, r, Descend(t.right, queues, key).place, id);
      }
    }
  }

  lemma InsertAround(l: seq<nat>, x: nat, r: seq<nat>, k: nat, id: nat)
    requires k <= |l|
    ensures InsertAt(l, k, id) + [x] + r == InsertAt(l + [x] + r, k, id)
  {
  }

  lemma InsertBehind(l: seq<nat>, x: nat, r: seq<nat>, k: nat, id: nat)
    requires k <= |r|
    ensures l + [x] + InsertAt(r, k, id) == InsertAt(l + [x] + r, |l| + 1 + k, id)
  {
  }

  ghost predicate InServiceOrder(s: seq<nat>, queues: map<nat, Cfqq>) {
    && (forall i :: 0 <= i < |s| ==> s[i] in queues)
    && (forall i, j :: 0 <= i < j < |s| ==> !GoesLeft(queues[s[j]].key, queues[s[i]].key))
  }

  /** On a tree in service order the new queue goes behind all it does not precede
      and in front of all it precedes. */
  lemma {:induction false} DescentSorted(t: Tree, queues: map<nat, Cfqq>, key: Key)
    requires Keyed(t, queues) && InServiceOrder(Inorder(t), queues)
    ensures var k, s := Descend(t, queues, key).place, Inorder(t);
            k <= |s| && (forall i :: 0 <= i < k ==> !GoesLeft(key, queues[s[i]].key)) && (forall i :: k <= i < |s| ==> GoesLeft(key, queues[s[i]].key))
  {
    if t.Node? {
      var s, l, r := Inorder(t), Inorder(t.left), Inorder(t.right);
      assert forall i :: 0 <= i < |l| ==> s[i] == l[i];
      assert s[|l|] == t.id;
      assert forall i :: 0 <= i < |r| ==> s[|l| + 1 + i] == r[i];
      DescentPlace(t, queues, key, 0);
      if GoesLeft(key, queues[t.id].key) {
        DescentSorted(t.left, queues, key);
      } else {
        DescentSorted(t.right, queues, key);
      }
    }
  }

  /** Where the descent ends the tree stays in service order, so that the leftmost
      queue is the one to serve first. */
  lemma TreeAddSorted(c: Cfqd, id: nat, time: int, t: Tree)
    requires TreeMarked(c, id) && InServiceOrder(c.order, c.queues)
    requires Inorder(t) == Erase(c, id).order && Keyed(t, c.queues)
    ensures var key := c.queues[id].key.(time := time);
            var r := TreeAdd(c, id, time, Descend(t, c.queues, key).place);
            InServiceOrder(r.order, r.queues)
  {
    var key := c.queues[id].key.(time := time);
    if !(id in c.order && c.queues[id].key.time == time) {
      var e, k := Erase(c, id), Descend(t, c.queues, key).place;
      EraseLeft(c, id);
      ErasedSorted(c, id);
      DescentSorted(t, c.queues, key);
      InsertedInOrder(e.order, c.queues, k, id, c.queues[id].(key := key));
    }
  }

  lemma ErasedSorted(c: Cfqd, id: nat)
    requires InServiceOrder(c.order, c.queues)
    ensures InServiceOrder(Erase(c, id).order, c.queues)
  {
    var k, e := IndexOf(c.order, id), Erase(c, id);
    if k < |c.order| {
      assert forall i :: 0 <= i < |e.order| ==> e.order[i] == c.order[if i < k then i else i + 1];
    }
  }

  lemma InsertedInOrder(s: seq<nat>, queues: map<nat, Cfqq>, k: nat, id: nat, q: Cfqq)
    requires InServiceOrder(s, queues) && k <= |s| && id !in s
    requires forall i :: 0 <= i < k ==> !GoesLeft(q.key, queues[s[i]].key)
    requires forall i :: k <= i < |s| ==> GoesLeft(q.key, queues[s[i]].key)
    ensures InServiceOrder(InsertAt(s, k, id), queues[id := q])
  {
    var m, known := InsertAt(s, k, id), queues[id := q];
    assert forall i :: 0 <= i < |m| && i != k ==> m[i] == s[if i < k then i else i - 1] && m[i] != id;
    assert m[k] == id;
    forall i, j | 0 <= i < j < |m|
      ensures !GoesLeft(known[m[j]].key, known[m[i]].key)
    {
    }
  }

  // ----- queues and requests ------------------------------------------------

  /** cfq_del_cfqq_rr */
  function DelRr(c: Cfqd, id: nat): Cfqd
    requires id in c.queues && c.busy > 0
  {
    var e := Erase(c, id);
    e.(queues := e.queues[id := e.queues[id].(onRr := false)], busy := c.busy - 1)
  }

  /** cfq_add_cfqq_rr */
  function AddRr(c: Cfqd, id: nat, time: int, k: nat): Cfqd
    requires id in c.queues
  {
    TreeAdd(c.(queues := c.queues[id := c.queues[id].(onRr := true)], busy := c.busy + 1), id, time, k)
  }

  /** The queue's part of cfq_remove_request. */
  function Removed(c: Cfqd, q: Cfqq, i: nat): Cfqq
    requires i < |q.sort|
  {
    q.(sort := RemoveAt(q.sort, i), fifo := q.fifo - multiset{q.sort[i]},
       next := if q.next == Some(q.sort[i]) then FindNext(c.t, c.last, q.sort, i) else q.next)
  }

  /** cfq_remove_request: the queue leaves the tree with its last request. */
  function RemoveRequest(c: Cfqd, id: nat, i: nat): Cfqd
    requires id in c.queues && i < |c.queues[id].sort|
  {
    var q := Removed(c, c.queues[id], i);
    var c1 := c.(queues := c.queues[id := q]);
    if q.onRr && q.sort == [] && c.busy > 0 then DelRr(c1, id) else c1
  }

  /** cfq_dispatch_insert */
  function DispatchInsert(c: Cfqd, id: nat, i: nat): Cfqd
    requires id in c.queues && i < |c.queues[id].sort|
  {
    var q := c.queues[id];
    var c1 := c.(queues := c.queues[id := q.(next := FindNext(c.t, c.last, q.sort, i))]);
    var c2 := RemoveRequest(c1, id, i);
    c2.(dispatched := c.dispatched + [q.sort[i]])
  }

  predicate HasAlias(q: Cfqq, r: Rq) { var k := Place(q.sort, r.pos); k < |q.sort| && q.sort[k].pos == r.pos }

  /** cfq_add_rq_rb */
  function AddRb(c: Cfqd, id: nat, r: Rq, time: int, k: nat): Cfqd
    requires id in c.queues
  {
    var p := Place(c.queues[id].sort, r.pos);
    var c1 := if HasAlias(c.queues[id], r) then DispatchInsert(c, id, p) else c;
    LinkRq(c1, id, r, p, time, k)
  }

  /** What cfq_add_rq_rb does when there is no alias any more. */
  function LinkRq(c: Cfqd, id: nat, r: Rq, p: nat, time: int, k: nat): Cfqd
    requires id in c.queues
  {
    var q := c.queues[id];
    var c2 := c.(queues := c.queues[id := q.(sort := InsertAt(q.sort, if p > |q.sort| then |q.sort| else p, r))]);
    var c3 := if q.onRr then c2 else AddRr(c2, id, time, k);
    c3.(queues := c3.queues[id := c3.queues[id].(next := Choose(c.t, c.last, q.next, Some(r)))])
  }

  /** cfq_insert_request; the fifo is filled first here. */
  function AddRequest(c: Cfqd, id: nat, r: Rq, time: int, k: nat): Cfqd
    requires id in c.queues
  {
    var q := c.queues[id];
    AddRb(c.(queues := c.queues[id := q.(fifo := q.fifo + multiset{r})]), id, r, time, k)
  }

  /** cfq_reposition_rq_rb, after a front merge has moved the request to `pos`. */
  function Reposition(c: Cfqd, id: nat, i: nat, pos: nat, time: int, k: nat): Cfqd
    requires id in c.queues && i < |c.queues[id].sort|
  {
    var q := c.queues[id];
    var was, r := q.sort[i], q.sort[i].(pos := pos);
    var q1 := q.(sort := RemoveAt(q.sort, i), fifo := q.fifo - multiset{was} + multiset{r},
                 next := if q.next == Some(was) then Some(r) else q.next);
    AddRb(c.(queues := c.queues[id := q1]), id, r, time, k)
  }

  /** cfq_resort_rr_list */
  function Resort(c: Cfqd, id: nat, time: int, k: nat): Cfqd
    requires id in c.queues
  {
    if c.queues[id].onRr then TreeAdd(c, id, time, k) else c
  }

  // ----- what every operation keeps -----------------------------------------

  /** A queue between operations: fifo and sort list agree; it has a next request, and
      is busy, exactly when it has requests; the next request is one of them. */
  ghost predicate QueueOk(q: Cfqq) {
    && Sorted(q.sort) && multiset(q.sort) == q.fifo
    && (q.next.Some? <==> q.sort != []) && (q.next.Some? ==> q.next.value in q.sort)
    && (q.onRr <==> q.sort != [])
  }

  ghost predicate Inv(c: Cfqd) { TreeOk(c) && forall id :: id in c.queues ==> QueueOk(c.queues[id]) }

  /** Changing one queue, but not whether it is busy. */
  lemma TreeStays(c: Cfqd, id: nat, q: Cfqq)
    requires TreeOk(c) && id in c.queues && q.onRr == c.queues[id].onRr
    ensures TreeOk(c.(queues := c.queues[id := q]))
  {
  }

  lemma DelRrKept(c: Cfqd, id: nat)
    requires TreeOk(c) && id in c.queues && c.queues[id].onRr
    ensures c.busy > 0 && TreeOk(DelRr(c, id)) && DelRr(c, id).queues == c.queues[id := c.queues[id].(onRr := false)]
    ensures |DelRr(c, id).order| == |c.order| - 1
  {
    EraseLeft(c, id);
    assert c.order != [] by { assert id in c.order; }
    var r := DelRr(c, id);
    forall i | 0 <= i < |r.order|
      ensures r.order[i] in r.queues
    {
      assert r.order[i] in Erase(c, id).order && r.order[i] != id;
      assert r.order[i] in c.order;
    }
  }

  lemma AddRrKept(c: Cfqd, id: nat, time: int, k: nat)
    requires TreeOk(c) && id in c.queues && !c.queues[id].onRr
    ensures var r := AddRr(c, id, time, k);
            && TreeOk(r) && r.queues.Keys == c.queues.Keys
            && r.queues == c.queues[id := c.queues[id].(onRr := true, key := r.queues[id].key)]
  {
    var m := c.(queues := c.queues[id := c.queues[id].(onRr := true)], busy := c.busy + 1);
    assert TreeMarked(m, id);
    TreeAddKept(m, id, time, k);
  }

  lemma RemovedMultiset(l: seq<Rq>, i: nat)
    requires i < |l|
    ensures multiset(RemoveAt(l, i)) == multiset(l) - multiset{l[i]}
  {
    assert l == l[..i] + [l[i]] + l[i + 1..];
  }

  lemma RemovedSorted(l: seq<Rq>, i: nat)
    requires Sorted(l) && i < |l|
    ensures Sorted(RemoveAt(l, i))
    ensures forall r :: r in l && r != l[i] ==> r in RemoveAt(l, i)
  {
    var m := RemoveAt(l, i);
    forall r | r in l && r != l[i]
      ensures r in m
    {
      var j :| 0 <= j < |l| && l[j] == r;
      assert m[if j < i then j else j - 1] == r;
    }
  }

  /** The queue after a removal, but for its on_rr flag. */
  ghost predicate LeftOk(q: Cfqq) {
    && Sorted(q.sort) && multiset(q.sort) == q.fifo
    && (q.next.Some? <==> q.sort != []) && (q.next.Some? ==> q.next.value in q.sort)
  }

  lemma RemovedQueue(c: Cfqd, q: Cfqq, i: nat)
    requires LeftOk(q) && i < |q.sort|
    ensures LeftOk(Removed(c, q, i))
  {
    RemovedMultiset(q.sort, i);
    RemovedSorted(q.sort, i);
    FindNextIs(c.t, c.last, q.sort, i);
  }

  /** A queue off the tree when it is out of requests. */
  function Settled(q: Cfqq): Cfqq { if q.onRr && q.sort == [] then q.(onRr := false) else q }

  /** What becomes of the tree when a queue loses a request. */
  lemma RemoveTree(c: Cfqd, id: nat, i: nat)
    requires TreeOk(c) && id in c.queues && i < |c.queues[id].sort|
    ensures var r := RemoveRequest(c, id, i);
            TreeOk(r) && r.queues == c.queues[id := Settled(Removed(c, c.queues[id], i))]
            && r.dispatched == c.dispatched && r.t == c.t && r.last == c.last
            && r.order == (if r.queues[id].onRr == c.queues[id].onRr then c.order else Erase(c, id).order)
  {
    var q := Removed(c, c.queues[id], i);
    var c1 := c.(queues := c.queues[id := q]);
    TreeStays(c, id, q);
    if q.onRr && q.sort == [] {
      DelRrKept(c1, id);
    }
  }

  lemma RemoveKept(c: Cfqd, id: nat, i: nat)
    requires Inv(c) && id in c.queues && i < |c.queues[id].sort|
    ensures Inv(RemoveRequest(c, id, i))
  {
    RemoveTree(c, id, i);
    RemovedQueue(c, c.queues[id], i);
  }

  /** The request found next is not the one going. */
  lemma NextElsewhere(c: Cfqd, q: Cfqq, i: nat)
    requires Sorted(q.sort) && i < |q.sort|
    ensures FindNext(c.t, c.last, q.sort, i) != Some(q.sort[i])
  {
    FindNextIs(c.t, c.last, q.sort, i);
    var m := RemoveAt(q.sort, i);
    forall j | 0 <= j < |m|
      ensures m[j] != q.sort[i]
    {
    }
  }

  /** The queue's part of cfq_dispatch_insert. */
  function Dispatched(c: Cfqd, q: Cfqq, i: nat): Cfqq
    requires i < |q.sort|
  {
    Settled(Removed(c, q.(next := FindNext(c.t, c.last, q.sort, i)), i))
  }

  /** It is cfq_remove_request after next_rq has moved on. */
  lemma DispatchIs(c: Cfqd, id: nat, i: nat)
    requires id in c.queues && i < |c.queues[id].sort|
    ensures var q1 := c.queues[id].(next := FindNext(c.t, c.last, c.queues[id].sort, i));
            var r := RemoveRequest(c.(queues := c.queues[id := q1]), id, i);
            DispatchInsert(c, id, i) == r.(dispatched := c.dispatched + [c.queues[id].sort[i]])
  {
  }

  lemma DispatchTree(c: Cfqd, id: nat, i: nat)
    requires TreeOk(c) && id in c.queues && i < |c.queues[id].sort|
    ensures var r, q := DispatchInsert(c, id, i), c.queues[id];
            && TreeOk(r) && r.queues == c.queues[id := Dispatched(c, q, i)]
            && r.dispatched == c.dispatched + [q.sort[i]] && r.t == c.t && r.last == c.last
            && r.order == (if r.queues[id].onRr == q.onRr then c.order else Erase(c, id).order)
  {
    var q := c.queues[id];
    var q1 := q.(next := FindNext(c.t, c.last, q.sort, i));
    var c1 := c.(queues := c.queues[id := q1]);
    DispatchIs(c, id, i);
    TreeStays(c, id, q1);
    RemoveTree(c1, id, i);
    assert c1.queues[id := Dispatched(c, q, i)] == c.queues[id := Dispatched(c, q, i)];
    EraseSame(c, c1, id);
  }

  lemma EraseSame(c: Cfqd, d: Cfqd, id: nat)
    requires c.order == d.order
    ensures Erase(c, id).order == Erase(d, id).order
  {
  }

  /** Whatever next_rq was, and even if requests are missing from the sort list. */
  lemma DispatchedQueue(c: Cfqd, q: Cfqq, i: nat, missing: multiset<Rq>)
    requires i < |q.sort| && Sorted(q.sort) && multiset(q.sort) + missing == q.fifo
    ensures var r := Dispatched(c, q, i);
            && r.sort == RemoveAt(q.sort, i) && Sorted(r.sort) && multiset(r.sort) + missing == r.fifo
            && (r.next.Some? <==> r.sort != []) && (r.next.Some? ==> r.next.value in r.sort)
            && r.onRr == (q.onRr && r.sort != []) && r.key == q.key
  {
    RemovedMultiset(q.sort, i);
    RemovedSorted(q.sort, i);
    FindNextIs(c.t, c.last, q.sort, i);
    NextElsewhere(c, q, i);
  }

  lemma DispatchKept(c: Cfqd, id: nat, i: nat)
    requires Inv(c) && id in c.queues && i < |c.queues[id].sort|
    ensures Inv(DispatchInsert(c, id, i))
  {
    DispatchTree(c, id, i);
    DispatchedQueue(c, c.queues[id], i, multiset{});
  }

  /** A queue whose fifo holds `r` besides what its sort list holds, and whose next
      request may be `r`, which is to be inserted. */
  ghost predicate Loose(q: Cfqq, r: Rq) {
    && Sorted(q.sort) && multiset(q.sort) + multiset{r} == q.fifo
    && (q.next.Some? ==> q.next.value == r || q.next.value in q.sort)
  }

  lemma InsertedMultiset(l: seq<Rq>, k: nat, r: Rq)
    requires k <= |l|
    ensures multiset(InsertAt(l, k, r)) == multiset(l) + multiset{r}
    ensures r in InsertAt(l, k, r) && forall x :: x in l ==> x in InsertAt(l, k, r)
  {
    assert l == l[..k] + l[k..];
    assert multiset(InsertAt(l, k, r))[r] > 0;
    forall x | x in l
      ensures x in InsertAt(l, k, r)
    {
      assert multiset(l)[x] > 0;
    }
  }

  ghost predicate FitsAt(l: seq<Rq>, k: nat, r: Rq) {
    k <= |l| && (forall j :: 0 <= j < k ==> l[j].pos < r.pos) && (forall j :: k <= j < |l| ==> r.pos < l[j].pos)
  }

  lemma InsertedSorted(l: seq<Rq>, k: nat, r: Rq)
    requires Sorted(l) && FitsAt(l, k, r)
    ensures Sorted(InsertAt(l, k, r))
  {
  }

  lemma PlaceFits(l: seq<Rq>, k: nat, r: Rq)
    requires Sorted(l) && k == Place(l, r.pos) && (k < |l| ==> l[k].pos != r.pos)
    ensures FitsAt(l, k, r)
  {
  }

  lemma PlaceIs(l: seq<Rq>, k: nat, pos: nat)
    requires k <= |l| && (forall j :: 0 <= j < k ==> l[j].pos < pos) && (k < |l| ==> pos <= l[k].pos)
    ensures Place(l, pos) == k
  {
  }

  /** The queue with its new request linked in. */
  function Linked(c: Cfqd, q: Cfqq, r: Rq): Cfqq {
    q.(sort := InsertAt(q.sort, Place(q.sort, r.pos), r), next := Choose(c.t, c.last, q.next, Some(r)), onRr := true)
  }

  lemma LinkedQueue(c: Cfqd, q: Cfqq, r: Rq)
    requires Loose(q, r) && !HasAlias(q, r)
    ensures QueueOk(Linked(c, q, r))
  {
    PlaceFits(q.sort, Place(q.sort, r.pos), r);
    InsertedSorted(q.sort, Place(q.sort, r.pos), r);
    InsertedMultiset(q.sort, Place(q.sort, r.pos), r);
    ChooseOne(c.t, c.last, q.next, Some(r));
  }

  /** A queue on the tree gets the request and stays where it is. */
  lemma LinkBusy(c: Cfqd, id: nat, r: Rq, time: int, k: nat)
    requires id in c.queues && c.queues[id].onRr
    ensures LinkRq(c, id, r, Place(c.queues[id].sort, r.pos), time, k) == c.(queues := c.queues[id := Linked(c, c.queues[id], r)])
  {
  }

  /** A queue that was off the tree is put on it between getting the request and
      choosing its next one. */
  lemma LinkIdle(c: Cfqd, id: nat, r: Rq, time: int, k: nat)
    requires id in c.queues && !c.queues[id].onRr
    ensures var q, p := c.queues[id], Place(c.queues[id].sort, r.pos);
            var c2 := c.(queues := c.queues[id := q.(sort := InsertAt(q.sort, p, r))]);
            var c3 := AddRr(c2, id, time, k);
            LinkRq(c, id, r, p, time, k) ==
            c3.(queues := c3.queues[id := c3.queues[id].(next := Choose(c.t, c.last, q.next, Some(r)))])
  {
  }

  lemma AddRrRest(c: Cfqd, id: nat, time: int, k: nat)
    requires id in c.queues
    ensures var r := AddRr(c, id, time, k); r.dispatched == c.dispatched && r.t == c.t && r.last == c.last
  {
  }

  lemma LinkIdleTree(c: Cfqd, id: nat, r: Rq, time: int, k: nat)
    requires TreeOk(c) && id in c.queues && !c.queues[id].onRr
    ensures var x := LinkRq(c, id, r, Place(c.queues[id].sort, r.pos), time, k);
            && TreeOk(x) && id in x.queues && x.dispatched == c.dispatched
            && x.queues == c.queues[id := Linked(c, c.queues[id], r).(key := x.queues[id].key)]
  {
    var q := c.queues[id];
    var q2 := q.(sort := InsertAt(q.sort, Place(q.sort, r.pos), r));
    var c2 := c.(queues := c.queues[id := q2]);
    var c3 := AddRr(c2, id, time, k);
    LinkIdle(c, id, r, time, k);
    AddRrRest(c2, id, time, k);
    assert TreeOk(c3) && c3.queues == c2.queues[id := q2.(onRr := true, key := c3.queues[id].key)] by {
      TreeStays(c, id, q2);
      AddRrKept(c2, id, time, k);
    }
    TreeStays(c3, id, c3.queues[id].(next := Choose(c.t, c.last, q.next, Some(r))));
  }

  lemma LinkTree(c: Cfqd, id: nat, r: Rq, time: int, k: nat)
    requires TreeOk(c) && id in c.queues
    ensures var x := LinkRq(c, id, r, Place(c.queues[id].sort, r.pos), time, k);
            && TreeOk(x) && id in x.queues && x.dispatched == c.dispatched
            && x.queues == c.queues[id := Linked(c, c.queues[id], r).(key := x.queues[id].key)]
  {
    if c.queues[id].onRr {
      LinkBusy(c, id, r, time, k);
      TreeStays(c, id, Linked(c, c.queues[id], r));
    } else {
      LinkIdleTree(c, id, r, time, k);
    }
  }

  lemma LinkKept(c: Cfqd, id: nat, r: Rq, time: int, k: nat)
    requires TreeOk(c) && id in c.queues && Loose(c.queues[id], r) && !HasAlias(c.queues[id], r)
    requires forall x :: x in c.queues && x != id ==> QueueOk(c.queues[x])
    ensures Inv(LinkRq(c, id, r, Place(c.queues[id].sort, r.pos), time, k))
  {
    LinkTree(c, id, r, time, k);
    LinkedQueue(c, c.queues[id], r);
  }

  lemma AliasGone(l: seq<Rq>, k: nat, pos: nat)
    requires Sorted(l) && k == Place(l, pos) < |l| && l[k].pos == pos
    ensures Place(RemoveAt(l, k), pos) == k
    ensures k < |RemoveAt(l, k)| ==> RemoveAt(l, k)[k].pos != pos
  {
    var m := RemoveAt(l, k);
    assert forall j :: 0 <= j < k ==> m[j] == l[j];
    assert forall j :: k <= j < |m| ==> m[j] == l[j + 1];
    PlaceIs(m, k, pos);
  }

  lemma DispatchedLoose(c: Cfqd, q: Cfqq, r: Rq)
    requires Loose(q, r) && HasAlias(q, r)
    ensures var x := Dispatched(c, q, Place(q.sort, r.pos));
            Loose(x, r) && !HasAlias(x, r) && Place(x.sort, r.pos) == Place(q.sort, r.pos)
  {
    DispatchedQueue(c, q, Place(q.sort, r.pos), multiset{r});
    AliasGone(q.sort, Place(q.sort, r.pos), r.pos);
  }

  lemma AliasKept(c: Cfqd, id: nat, r: Rq)
    requires TreeOk(c) && id in c.queues && Loose(c.queues[id], r) && HasAlias(c.queues[id], r)
    requires forall x :: x in c.queues && x != id ==> QueueOk(c.queues[x])
    ensures var p := Place(c.queues[id].sort, r.pos); var d := DispatchInsert(c, id, p);
            && TreeOk(d) && id in d.queues && Loose(d.queues[id], r) && !HasAlias(d.queues[id], r)
            && Place(d.queues[id].sort, r.pos) == p
            && (forall x :: x in d.queues && x != id ==> QueueOk(d.queues[x]))
  {
    DispatchTree(c, id, Place(c.queues[id].sort, r.pos));
    DispatchedLoose(c, c.queues[id], r);
  }

  lemma AddRbKept(c: Cfqd, id: nat, r: Rq, time: int, k: nat)
    requires TreeOk(c) && id in c.queues && Loose(c.queues[id], r)
    requires forall x :: x in c.queues && x != id ==> QueueOk(c.queues[x])
    ensures Inv(AddRb(c, id, r, time, k))
  {
    if HasAlias(c.queues[id], r) {
      AliasKept(c, id, r);
      LinkKept(DispatchInsert(c, id, Place(c.queues[id].sort, r.pos)), id, r, time, k);
    } else {
      LinkKept(c, id, r, time, k);
    }
  }

  lemma AddRequestKept(c: Cfqd, id: nat, r: Rq, time: int, k: nat)
    requires Inv(c) && id in c.queues
    ensures Inv(AddRequest(c, id, r, time, k))
  {
    var q := c.queues[id];
    var q1 := q.(fifo := q.fifo + multiset{r});
    TreeStays(c, id, q1);
    AddRbKept(c.(queues := c.queues[id := q1]), id, r, time, k);
  }

  lemma RepositionKept(c: Cfqd, id: nat, i: nat, pos: nat, time: int, k: nat)
    requires Inv(c) && id in c.queues && i < |c.queues[id].sort|
    ensures Inv(Reposition(c, id, i, pos, time, k))
  {
    var q := c.queues[id];
    var was, r := q.sort[i], q.sort[i].(pos := pos);
    var q1 := q.(sort := RemoveAt(q.sort, i), fifo := q.fifo - multiset{was} + multiset{r},
                 next := if q.next == Some(was) then Some(r) else q.next);
    RemovedMultiset(q.sort, i);
    RemovedSorted(q.sort, i);
    TreeStays(c, id, q1);
    AddRbKept(c.(queues := c.queues[id := q1]), id, r, time, k);
  }

  lemma ResortKept(c: Cfqd, id: nat, time: int, k: nat)
    requires Inv(c) && id in c.queues
    ensures Inv(Resort(c, id, time, k))
  {
    if c.queues[id].onRr {
      TreeAddKept(c, id, time, k);
      ResortQueues(c, id, time, k);
    }
  }

  lemma ResortQueues(c: Cfqd, id: nat, time: int, k: nat)
    requires id in c.queues
    ensures var r := TreeAdd(c, id, time, k);
            r.queues == c.queues || r.queues == c.queues[id := c.queues[id].(key := c.queues[id].key.(time := time))]
  {
  }

  // ----- runs ---------------------------------------------------------------

  /** What happens to the scheduler: requests come, move after front merges, are
      merged away or dispatched; queues are sorted in again, change class, or are
      looked up first; the head moves.  `time` and `place` are where a queue is put
      if it is put on the tree. */
  datatype Event =
    | NewQueue(id: nat, rt: bool, idle: bool)
    | AddEvent(id: nat, rq: Rq, time: int, place: nat)
    | RepositionEvent(id: nat, i: nat, pos: nat, time: int, place: nat)
    | RemoveEvent(id: nat, i: nat)
    | DispatchEvent(id: nat, i: nat)
    | ResortEvent(id: nat, time: int, place: nat)
    | ClassEvent(id: nat, rt: bool, idle: bool)
    | FirstEvent
    | HeadEvent(last: nat)

  function Step(c: Cfqd, e: Event): Cfqd {
    match e
    case NewQueue(id, rt, idle) =>
      if id in c.queues then c else c.(queues := c.queues[id := Cfqq([], multiset{}, None, false, Key(rt, idle, 0))])
    case AddEvent(id, r, time, k) => if id in c.queues then AddRequest(c, id, r, time, k) else c
    case RepositionEvent(id, i, pos, time, k) =>
      if id in c.queues && i < |c.queues[id].sort| then Reposition(c, id, i, pos, time, k) else c
    case RemoveEvent(id, i) => if id in c.queues && i < |c.queues[id].sort| then RemoveRequest(c, id, i) else c
    case DispatchEvent(id, i) => if id in c.queues && i < |c.queues[id].sort| then DispatchInsert(c, id, i) else c
    case ResortEvent(id, time, k) => if id in c.queues then Resort(c, id, time, k) else c
    case ClassEvent(id, rt, idle) =>
      if id in c.queues then c.(queues := c.queues[id := c.queues[id].(key := Key(rt, idle, c.queues[id].key.time))]) else c
    case FirstEvent => First(c)
    case HeadEvent(last) => c.(last := last)
  }

  lemma StepKept(c: Cfqd, e: Event)
    requires Inv(c)
    ensures Inv(Step(c, e))
  {
    match e {
      case NewQueue(id, rt, idle) => NewQueueKept(c, id, rt, idle);
      case AddEvent(id, r, time, k) => if id in c.queues { AddRequestKept(c, id, r, time, k); }
      case RepositionEvent(id, i, pos, time, k) =>
        if id in c.queues && i < |c.queues[id].sort| { RepositionKept(c, id, i, pos, time, k); }
      case RemoveEvent(id, i) => if id in c.queues && i < |c.queues[id].sort| { RemoveKept(c, id, i); }
      case DispatchEvent(id, i) => if id in c.queues && i < |c.queues[id].sort| { DispatchKept(c, id, i); }
      case ResortEvent(id, time, k) => if id in c.queues { ResortKept(c, id, time, k); }
      case ClassEvent(id, rt, idle) => ClassKept(c, id, rt, idle);
      case FirstEvent => FirstKept(c);
      case HeadEvent(last) =>
    }
  }

  lemma ClassKept(c: Cfqd, id: nat, rt: bool, idle: bool)
    requires Inv(c)
    ensures Inv(Step(c, ClassEvent(id, rt, idle)))
  {
    if id in c.queues {
      TreeStays(c, id, c.queues[id].(key := Key(rt, idle, c.queues[id].key.time)));
    }
  }

  lemma NewQueueTree(c: Cfqd, id: nat, q: Cfqq)
    requires TreeOk(c) && id !in c.queues && !q.onRr
    ensures TreeOk(c.(queues := c.queues[id := q]))
  {
    assert id !in c.order;
  }

  lemma NewQueueKept(c: Cfqd, id: nat, rt: bool, idle: bool)
    requires Inv(c)
    ensures Inv(Step(c, NewQueue(id, rt, idle)))
  {
    if id !in c.queues {
      NewQueueTree(c, id, Cfqq([], multiset{}, None, false, Key(rt, idle, 0)));
    }
  }

  function Start(t: Tunables): Cfqd { Cfqd(t, 0, map[], [], None, 0, []) }

  function Run(t: Tunables, es: seq<Event>): Cfqd {
    if es == [] then Start(t) else Step(Run(t, es[..|es| - 1]), es[|es| - 1])
  }

  /** Always: a queue has a next request, and is busy and on the tree, exactly when it
      has requests; busy_queues counts those; the cached node is the leftmost. */
  lemma {:induction false} RunKept(t: Tunables, es: seq<Event>)
    ensures Inv(Run(t, es))
  {
    if es != [] {
      RunKept(t, es[..|es| - 1]);
      StepKept(Run(t, es[..|es| - 1]), es[|es| - 1]);
    }
  }

  // ----- the forced drain ---------------------------------------------------

  /** Where the next request of a queue is. */
  lemma NextAt(q: Cfqq)
    requires QueueOk(q) && q.next.Some?
    ensures var i := Place(q.sort, q.next.value.pos); i < |q.sort| && q.sort[i] == q.next.value
  {
    var i :| 0 <= i < |q.sort| && q.sort[i] == q.next.value;
    PlaceIs(q.sort, i, q.next.value.pos);
  }

  /** One turn of the loop that drains a queue. */
  lemma DrainStep(c: Cfqd, id: nat)
    requires Inv(c) && id in c.queues && c.queues[id].next.Some?
    ensures var q := c.queues[id]; var i := Place(q.sort, q.next.value.pos);
            i < |q.sort| &&
            var d := DispatchInsert(c, id, i);
            && Inv(d) && d.queues.Keys == c.queues.Keys && d.queues[id].sort == RemoveAt(q.sort, i)
            && (forall x :: x in c.queues && x != id ==> d.queues[x] == c.queues[x])
            && d.order == (if d.queues[id].onRr then c.order else Erase(c, id).order)
            && d.dispatched == c.dispatched + [q.sort[i]]
  {
    NextAt(c.queues[id]);
    DrainOne(c, id, Place(c.queues[id].sort, c.queues[id].next.value.pos));
  }

  lemma DrainOne(c: Cfqd, id: nat, i: nat)
    requires Inv(c) && id in c.queues && i < |c.queues[id].sort|
    ensures var d := DispatchInsert(c, id, i);
            && Inv(d) && d.queues.Keys == c.queues.Keys && d.queues[id].sort == RemoveAt(c.queues[id].sort, i)
            && (forall x :: x in c.queues && x != id ==> d.queues[x] == c.queues[x])
            && d.order == (if d.queues[id].onRr then c.order else Erase(c, id).order)
            && d.dispatched == c.dispatched + [c.queues[id].sort[i]]
  {
    assert Inv(DispatchInsert(c, id, i)) by {
      DispatchKept(c, id, i);
    }
    DispatchTree(c, id, i);
    DispatchedQueue(c, c.queues[id], i, multiset{});
  }

  /** __cfq_forced_dispatch_cfqq */
  ghost function DrainQueue(c: Cfqd, id: nat): Cfqd
    requires Inv(c) && id in c.queues
    decreases |c.queues[id].sort|
  {
    var q := c.queues[id];
    if q.next.None? then c
    else
      var i := Place(q.sort, q.next.value.pos);
      DrainStep(c, id);
      DrainQueue(DispatchInsert(c, id, i), id)
  }

  /** What dispatching did, for a request `r`: as many more on the dispatch queue. */
  function Count(l: seq<Rq>, r: Rq): nat { multiset(l)[r] }

  lemma CountAppend(l: seq<Rq>, x: Rq, r: Rq)
    ensures Count(l + [x], r) == Count(l, r) + if r == x then 1 else 0
  {
  }

  lemma CountRemove(l: seq<Rq>, i: nat, r: Rq)
    requires i < |l|
    ensures Count(l, r) == Count(RemoveAt(l, i), r) + if r == l[i] then 1 else 0
  {
    RemovedMultiset(l, i);
    assert l[i] in l;
  }

  /** The queue drained is empty, its requests have all been dispatched, and the other
      queues are untouched; one more is off the tree if it was on it. */
  ghost predicate Drained(c: Cfqd, d: Cfqd, id: nat) {
    && id in c.queues && d.queues.Keys == c.queues.Keys && d.queues[id].sort == []
    && (forall x :: x in c.queues && x != id ==> d.queues[x] == c.queues[x])
    && d.order == (if c.queues[id].onRr then Erase(c, id).order else c.order)
  }

  lemma {:induction false} DrainQueueIs(c: Cfqd, id: nat)
    requires Inv(c) && id in c.queues
    ensures Inv(DrainQueue(c, id)) && Drained(c, DrainQueue(c, id), id)
    decreases |c.queues[id].sort|
  {
    var q := c.queues[id];
    if q.next.Some? {
      DrainStep(c, id);
      var d := DispatchInsert(c, id, Place(q.sort, q.next.value.pos));
      DrainQueueIs(d, id);
      assert c.queues[id].onRr;
      assert d.queues[id].onRr ==> Erase(d, id).order == Erase(c, id).order;
    }
  }

  lemma {:induction false} DrainQueueAll(c: Cfqd, id: nat, r: Rq)
    requires Inv(c) && id in c.queues
    ensures Count(DrainQueue(c, id).dispatched, r) == Count(c.dispatched, r) + Count(c.queues[id].sort, r)
    decreases |c.queues[id].sort|
  {
    var q := c.queues[id];
    if q.next.Some? {
      var i := Place(q.sort, q.next.value.pos);
      DrainStep(c, id);
      DrainQueueAll(DispatchInsert(c, id, i), id, r);
      CountAppend(c.dispatched, q.sort[i], r);
      CountRemove(q.sort, i, r);
    }
  }

  /** cfq_forced_dispatch */
  ghost function Drain(c: Cfqd): Cfqd
    requires Inv(c)
    decreases |c.order|
  {
    if c.order == [] then c
    else
      var f := First(c);
      DrainQueueIs(f, f.left.value);
      Drain(DrainQueue(f, f.left.value))
  }

  /** The forced drain ends, with no queue busy, nothing left on any list, and the tree
      empty: its BUG_ONs cannot fire. */
  lemma {:induction false} DrainEmpties(c: Cfqd)
    requires Inv(c)
    ensures var d := Drain(c);
            && Inv(d) && d.order == [] && d.busy == 0 && d.queues.Keys == c.queues.Keys
            && forall id :: id in d.queues ==> d.queues[id].sort == [] && d.queues[id].fifo == multiset{}
    decreases |c.order|
  {
    if c.order != [] {
      var f := First(c);
      DrainQueueIs(f, f.left.value);
      DrainEmpties(DrainQueue(f, f.left.value));
    }
  }

  /** The requests of the queues on the tree. */
  function Pending(queues: map<nat, Cfqq>, ids: seq<nat>, r: Rq): nat
    requires forall i :: 0 <= i < |ids| ==> ids[i] in queues
  {
    if ids == [] then 0 else Count(queues[ids[0]].sort, r) + Pending(queues, ids[1..], r)
  }

  lemma {:induction false} PendingSame(a: map<nat, Cfqq>, b: map<nat, Cfqq>, ids: seq<nat>, r: Rq)
    requires forall i :: 0 <= i < |ids| ==> ids[i] in a && ids[i] in b && a[ids[i]] == b[ids[i]]
    ensures Pending(a, ids, r) == Pending(b, ids, r)
  {
    if ids != [] {
      PendingSame(a, b, ids[1..], r);
    }
  }

  /** Draining takes the first queue of the tree off it. */
  lemma DrainFirst(c: Cfqd)
    requires Inv(c) && c.order != []
    ensures First(c).left == Some(c.order[0]) && Inv(First(c)) && c.order[0] in c.queues
    ensures var d := DrainQueue(First(c), c.order[0]);
            && Inv(d) && d.order == c.order[1..] && d.queues.Keys == c.queues.Keys
            && forall x :: x in c.queues && x != c.order[0] ==> d.queues[x] == c.queues[x]
  {
    var f, id := First(c), c.order[0];
    assert Inv(f) by {
      FirstKept(c);
    }
    DrainQueueIs(f, id);
    assert f.queues[id].onRr;
    EraseFirst(f);
  }

  lemma EraseFirst(c: Cfqd)
    requires c.order != []
    ensures Erase(c, c.order[0]).order == c.order[1..]
  {
    assert IndexOf(c.order, c.order[0]) == 0;
  }

  lemma FirstKept(c: Cfqd)
    requires Inv(c)
    ensures Inv(First(c)) && First(First(c)) == First(c) && Drain(First(c)) == Drain(c)
    ensures First(c).left.None? <==> c.order == []
  {
  }

  /** One turn of the loop of cfq_forced_dispatch. */
  lemma DrainTurn(c: Cfqd)
    requires Inv(c) && c == First(c) && c.order != []
    ensures c.left == Some(c.order[0]) && c.left.value in c.queues
    ensures var d := DrainQueue(c, c.left.value);
            Inv(d) && Drain(First(d)) == Drain(c) && Inv(First(d)) && First(First(d)) == First(d) && |d.order| < |c.order|
            && (First(d).left.None? <==> d.order == []) && (d.left.Some? ==> d.order != [])
  {
    DrainFirst(c);
    FirstKept(DrainQueue(c, c.left.value));
  }

  /** It dispatches every request that was queued, as often as it was queued. */
  lemma {:induction false} DrainAll(c: Cfqd, r: Rq)
    requires Inv(c)
    ensures Count(Drain(c).dispatched, r) == Count(c.dispatched, r) + Pending(c.queues, c.order, r)
    decreases |c.order|
  {
    if c.order != [] {
      var f, id := First(c), c.order[0];
      DrainFirst(c);
      var d := DrainQueue(f, id);
      DrainQueueAll(f, id, r);
      DrainAll(d, r);
      PendingRest(c.queues, d.queues, c.order, r);
    }
  }

  lemma PendingRest(a: map<nat, Cfqq>, b: map<nat, Cfqq>, ids: seq<nat>, r: Rq)
    requires ids != [] && Distinct(ids) && a.Keys == b.Keys && forall i :: 0 <= i < |ids| ==> ids[i] in a
    requires forall x :: x in a && x != ids[0] ==> b[x] == a[x]
    ensures Pending(a, ids, r) == Count(a[ids[0]].sort, r) + Pending(b, ids[1..], r)
  {
    var rest := ids[1..];
    assert forall i :: 0 <= i < |rest| ==> rest[i] != ids[0] && rest[i] in a;
    PendingSame(a, b, rest, r);
  }

  // ----- the object ---------------------------------------------------------

  /** rb_insert_color and rb_erase: some tree with its nodes in the order given. */
  method Balanced(order: seq<nat>) returns (t: Tree)
    ensures Inorder(t) == order
  {
    t := Leaf;
    for i := 0 to |order|
      invariant Inorder(t) == order[..i]
    {
      t := Node(t, order[i], Leaf);
    }
    assert order[..|order|] == order;
  }

  lemma {:induction false} KeyedIs(t: Tree, queues: map<nat, Cfqq>)
    requires forall i :: 0 <= i < |Inorder(t)| ==> Inorder(t)[i] in queues
    ensures Keyed(t, queues)
  {
    if t.Node? {
      var s, l, r := Inorder(t), Inorder(t.left), Inorder(t.right);
      assert s[|l|] == t.id;
      assert forall i :: 0 <= i < |l| ==> l[i] == s[i];
      assert forall i :: 0 <= i < |r| ==> r[i] == s[|l| + 1 + i];
      KeyedIs(t.left, queues);
      KeyedIs(t.right, queues);
    }
  }

  lemma ErasedKeyed(c: Cfqd, id: nat, t: Tree)
    requires TreeMarked(c, id) && Inorder(t) == Erase(c, id).order
    ensures Keyed(t, c.queues)
  {
    EraseLeft(c, id);
    assert forall i :: 0 <= i < |Inorder(t)| ==> Inorder(t)[i] in c.order;
    KeyedIs(t, c.queues);
  }

  class CfqData {
    const t: Tunables
    var last: nat
    var queues: map<nat, Cfqq>
    var tree: Tree
    var left: Option<nat>
    var busy: nat
    var dispatched: seq<Rq>

    function View(): Cfqd
      reads this
    {
      Cfqd(t, last, queues, Inorder(tree), left, busy, dispatched)
    }

    /** cfq_init_queue */
    constructor (tunables: Tunables)
      ensures View() == Start(tunables) && Inv(View())
    {
      t, last, queues, tree, left, busy, dispatched := tunables, 0, map[], Leaf, None, 0, [];
    }

    /** cfq_find_alloc_queue */
    method FindAllocQueue(id: nat, rt: bool, idle: bool)
      requires Inv(View())
      modifies this`queues
      ensures View() == Step(old(View()), NewQueue(id, rt, idle)) && Inv(View())
    {
      NewQueueKept(View(), id, rt, idle);
      if id !in queues {
        queues := queues[id := Cfqq([], multiset{}, None, false, Key(rt, idle, 0))];
      }
    }

    /** cfq_rb_first */
    method RbFirst() returns (first: Option<nat>)
      requires left.Some? ==> Inorder(tree) != []
      modifies this`left
      ensures View() == First(old(View())) && first == left
      ensures first.None? <==> Inorder(tree) == []
    {
      if left.None? {
        left := Leftmost(tree);
      }
      first := left;
    }

    /** cfq_rb_erase */
    method RbErase(id: nat)
      modifies this`tree, this`left
      ensures View() == Erase(old(View()), id)
    {
      var k := IndexOf(Inorder(tree), id);
      if k < |Inorder(tree)| {
        if left == Some(id) {
          left := None;
        }
        tree := Balanced(RemoveAt(Inorder(tree), k));
      }
    }

    /** The descent of cfq_service_tree_add, and the cache it sets. */
    method TreeLink(id: nat, key: Key) returns (ghost k: nat)
      requires Keyed(tree, queues)
      modifies this`tree, this`left
      ensures k <= |old(Inorder(tree))|
      ensures View() == old(View()).(order := InsertAt(old(Inorder(tree)), k, id), left := if k == 0 then Some(id) else old(left))
    {
      var goneLeft := true;
      var p := tree;
      k := 0;
      while p.Node?
        invariant Keyed(p, queues)
        invariant Descend(tree, queues, key).place == k + Descend(p, queues, key).place
        invariant Descend(tree, queues, key).left == (goneLeft && Descend(p, queues, key).left)
        decreases p
      {
        if GoesLeft(key, queues[p.id].key) {
          p := p.left;
        } else {
          k := k + |Inorder(p.left)| + 1;
          goneLeft := false;
          p := p.right;
        }
      }
      DescentPlace(tree, queues, key, id);
      if goneLeft {
        left := Some(id);
      }
      tree := Balanced(Inorder(Link(tree, queues, key, id)));
    }

    /** cfq_service_tree_add, given the key it computes */
    method ServiceTreeAdd(id: nat, time: int) returns (ghost k: nat)
      requires TreeMarked(View(), id)
      modifies this`tree, this`left, this`queues
      ensures View() == TreeAdd(old(View()), id, time, k)
    {
      var key := queues[id].key.(time := time);
      if IndexOf(Inorder(tree), id) < |Inorder(tree)| {
        if queues[id].key.time == time {
          return 0;
        }
      }
      ghost var was := View();
      RbErase(id);
      ErasedKeyed(was, id, tree);
      k := TreeLink(id, key);
      queues := queues[id := queues[id].(key := key)];
    }

    /** cfq_del_cfqq_rr */
    method DelCfqqRr(id: nat)
      requires id in queues && busy > 0
      modifies this`tree, this`left, this`queues, this`busy
      ensures View() == DelRr(old(View()), id)
    {
      RbErase(id);
      queues := queues[id := queues[id].(onRr := false)];
      busy := busy - 1;
    }

    /** cfq_remove_request */
    method Remove(id: nat, i: nat)
      requires id in queues && i < |queues[id].sort|
      modifies this`tree, this`left, this`queues, this`busy
      ensures View() == RemoveRequest(old(View()), id, i)
    {
      var q := queues[id];
      if q.next == Some(q.sort[i]) {
        q := q.(next := FindNext(t, last, q.sort, i));
      }
      q := q.(sort := q.sort[..i] + q.sort[i + 1..], fifo := q.fifo - multiset{q.sort[i]});
      queues := queues[id := q];
      if q.onRr && q.sort == [] && busy > 0 {
        DelCfqqRr(id);
      }
    }

    /** cfq_dispatch_insert */
    method Dispatch(id: nat, i: nat)
      requires id in queues && i < |queues[id].sort|
      modifies this`tree, this`left, this`queues, this`busy, this`dispatched
      ensures View() == DispatchInsert(old(View()), id, i)
    {
      var q := queues[id];
      queues := queues[id := q.(next := FindNext(t, last, q.sort, i))];
      Remove(id, i);
      dispatched := dispatched + [q.sort[i]];
    }

    /** cfq_add_rq_rb; the loop over aliases runs once at most. */
    method AddRqRb(id: nat, r: Rq, time: int) returns (ghost k: nat)
      requires TreeOk(View()) && id in queues && Loose(queues[id], r)
      modifies this`tree, this`left, this`queues, this`busy, this`dispatched
      ensures View() == AddRb(old(View()), id, r, time, k)
    {
      ghost var was := View();
      var p := Place(queues[id].sort, r.pos);
      if HasAlias(queues[id], r) {
        DispatchTree(was, id, p);
        DispatchedLoose(was, queues[id], r);
      }
      while p < |queues[id].sort| && queues[id].sort[p].pos == r.pos
        invariant id in queues && TreeOk(View()) && p == Place(queues[id].sort, r.pos)
        invariant View() == was || (HasAlias(was.queues[id], r) && View() == DispatchInsert(was, id, p))
        decreases View() == was
      {
        Dispatch(id, p);
      }
      k := LinkRequest(id, r, p, time);
    }

    method LinkRequest(id: nat, r: Rq, p: nat, time: int) returns (ghost k: nat)
      requires TreeOk(View()) && id in queues && p <= |queues[id].sort|
      modifies this`tree, this`left, this`queues, this`busy
      ensures View() == LinkRq(old(View()), id, r, p, time, k)
    {
      var q := queues[id];
      queues := queues[id := q.(sort := q.sort[..p] + [r] + q.sort[p..])];
      k := 0;
      if !q.onRr {
        k := AddCfqqRr(id, time);
      }
      queues := queues[id := queues[id].(next := Choose(t, last, q.next, Some(r)))];
    }

    /** cfq_add_cfqq_rr */
    method AddCfqqRr(id: nat, time: int) returns (ghost k: nat)
      requires TreeOk(View()) && id in queues && !queues[id].onRr
      modifies this`tree, this`left, this`queues, this`busy
      ensures View() == AddRr(old(View()), id, time, k) && id in queues
    {
      queues := queues[id := queues[id].(onRr := true)];
      busy := busy + 1;
      k := ServiceTreeAdd(id, time);
    }

    /** __cfq_forced_dispatch_cfqq */
    method ForcedDispatchQueue(id: nat)
      requires Inv(View()) && id in queues
      modifies this`tree, this`left, this`queues, this`busy, this`dispatched
      ensures View() == DrainQueue(old(View()), id)
    {
      while queues[id].next.Some?
        invariant Inv(View()) && id in queues && DrainQueue(View(), id) == DrainQueue(old(View()), id)
        decreases |queues[id].sort|
      {
        DrainStep(View(), id);
        Dispatch(id, Place(queues[id].sort, queues[id].next.value.pos));
      }
    }

    /** cfq_forced_dispatch; its BUG_ON(busy_queues) is the second clause. */
    method ForcedDispatch()
      requires Inv(View())
      modifies this`tree, this`left, this`queues, this`busy, this`dispatched
      ensures View() == Drain(old(View()))
      ensures busy == 0
    {
      FirstKept(View());
      var first := RbFirst();
      while first.Some?
        invariant Inv(View()) && First(View()) == View() && first == left && (first.None? <==> Inorder(tree) == [])
        invariant Drain(View()) == Drain(old(View()))
        decreases |Inorder(tree)|
      {
        first := DispatchFirst();
      }
    }

    /** One turn of that loop, and the look at the next queue. */
    method DispatchFirst() returns (first: Option<nat>)
      requires Inv(View()) && First(View()) == View() && Inorder(tree) != []
      modifies this`tree, this`left, this`queues, this`busy, this`dispatched
      ensures Inv(View()) && First(View()) == View() && first == left && (first.None? <==> Inorder(tree) == [])
      ensures Drain(View()) == Drain(old(View())) && |Inorder(tree)| < |old(Inorder(tree))|
    {
      DrainTurn(View());
      ForcedDispatchQueue(left.value);
      first := RbFirst();
    }
  }

  function Leftmost(t: Tree): (r: Option<nat>)
    ensures r == if Inorder(t) == [] then None else Some(Inorder(t)[0])
  {
    if t.Leaf? then None else if t.left.Leaf? then Some(t.id) else Leftmost(t.left)
  }
}
