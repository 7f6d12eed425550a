/**
 The choice of the anticipatory I/O scheduler (as-iosched.c): which of two requests
 the head should go to next, and why looking at the two neighbours of a request is
 enough to find the best of all.  One data direction; the tree is a sequence sorted
 by sector; sectors are unbounded.
 */
module Anticipatory {
  import opened Options

  const MAXBACK: nat := 1024 * 1024
  const BACK_PENALTY: nat := 2

  datatype Rq = Rq(pos: nat, sectors: nat)

  function End(r: Rq): nat { r.pos + r.sectors }

  // ----- the comparator -----------------------------------------------------

  /** Behind the head and too far to seek back. */
  predicate Wraps(last: nat, s: nat) { s < last && s + MAXBACK < last }

  function Distance(last: nat, s: nat): nat {
    if s >= last then s - last else if s + MAXBACK >= last then (last - s) * BACK_PENALTY else 0
  }

  /** as_choose_req */
  function Choose(last: nat, rq1: Option<Rq>, rq2: Option<Rq>): Option<Rq> {
    if rq1.None? || rq1 == rq2 then rq2
    else if rq2.None? then rq1
    else
      var s1, s2 := rq1.value.pos, rq2.value.pos;
      var d1, d2 := Distance(last, s1), Distance(last, s2);
      if !Wraps(last, s1) && Wraps(last, s2) then rq1
      else if !Wraps(last, s2) && Wraps(last, s1) then rq2
      else if Wraps(last, s1) && Wraps(last, s2) then (if s1 <= s2 then rq1 else rq2)
      else if d1 < d2 then rq1
      else if d2 < d1 then rq2
      else if s1 >= s2 then rq1 else rq2
  }

  predicate Prefers(last: nat, a: Rq, b: Rq) { Choose(last, Some(a), Some(b)) == Some(a) }

  /** Of two requests at different sectors one is preferred, whichever comes first. */
  lemma PreferenceTotal(last: nat, a: Rq, b: Rq)
    requires a.pos != b.pos
    ensures Prefers(last, a, b) <==> !Prefers(last, b, a)
    ensures Choose(last, Some(a), Some(b)) == Choose(last, Some(b), Some(a))
  {
  }

  lemma PreferenceTransitive(last: nat, a: Rq, b: Rq, c: Rq)
    requires a.pos != b.pos && b.pos != c.pos && a.pos != c.pos
    requires Prefers(last, a, b) && Prefers(last, b, c)
    ensures Prefers(last, a, c)
  {
  }

  /** What the preference means: a seek forward costs its length and a short seek back
      twice that; the cheaper request wins, on a tie the one ahead; requests too far
      behind come last, from the lowest on. */
  lemma PreferenceMeans(last: nat, a: Rq, b: Rq)
    requires a.pos != b.pos
    ensures last <= a.pos && last <= b.pos ==> (Prefers(last, a, b) <==> a.pos < b.pos)
    ensures last <= a.pos && b.pos < last ==>
              (Prefers(last, a, b) <==> b.pos + MAXBACK < last || a.pos - last <= 2 * (last - b.pos))
    ensures a.pos < last && b.pos < last && (a.pos + MAXBACK >= last || b.pos + MAXBACK >= last) ==>
              (Prefers(last, a, b) <==> a.pos > b.pos)
    ensures a.pos + MAXBACK < last && b.pos + MAXBACK < last ==> (Prefers(last, a, b) <==> a.pos < b.pos)
  {
  }

  // ----- the probe ----------------------------------------------------------

  ghost predicate Sorted(l: seq<Rq>) { forall i, j :: 0 <= i < j < |l| ==> l[i].pos < l[j].pos }

  /** as_find_next_rq for the request at position i */
  function FindNext(last: nat, l: seq<Rq>, i: nat): Option<Rq>
    requires i < |l|
  {
    var prev := if i > 0 then Some(l[i - 1]) else None;
    var next := if i + 1 < |l| then Some(l[i + 1]) else if i > 0 then Some(l[0]) else None;
    Choose(last, next, prev)
  }

  /** The request is queued, not the one at i, and preferred over all others but that. */
  ghost predicate BestBut(last: nat, l: seq<Rq>, i: int, best: Option<Rq>) {
    && (best.None? <==> |l| == if 0 <= i < |l| then 1 else 0)
    && (best.Some? ==> exists k :: 0 <= k < |l| && k != i && l[k] == best.value)
    && (best.Some? ==> forall j :: 0 <= j < |l| && j != i && l[j] != best.value ==> Prefers(last, best.value, l[j]))
  }

  /** The head stands where request i is: what is above it is ahead of the head, and
      what is below is behind. */
  ghost predicate HeadAt(last: nat, l: seq<Rq>, i: nat)
    requires i < |l|
  {
    forall j :: 0 <= j < |l| && j != i ==> (l[j].pos >= last <==> j > i)
  }

  /** Everything is too far behind, and i is the first. */
  ghost predicate AllWrap(last: nat, l: seq<Rq>, i: nat)
    requires i < |l|
  {
    i == 0 && forall j :: 0 <= j < |l| ==> Wraps(last, l[j].pos)
  }

  /** Two neighbours are enough. */
  lemma ProbeBest(last: nat, l: seq<Rq>, i: nat)
    requires Sorted(l) && i < |l| && (HeadAt(last, l, i) || AllWrap(last, l, i))
    ensures BestBut(last, l, i, FindNext(last, l, i))
  {
    var best := FindNext(last, l, i);
    if |l| > 1 {
      var n := if i + 1 < |l| then i + 1 else 0;
      assert l[n].pos != l[i].pos && (i > 0 ==> l[i - 1].pos != l[i].pos);
      var k := if i > 0 && best == Some(l[i - 1]) then i - 1 else n;
      assert best == Some(l[k]) && k != i;
      forall j | 0 <= j < |l| && j != i && l[j] != l[k]
        ensures Prefers(last, l[k], l[j])
      {
        ProbeBeats(last, l, i, j);
      }
    }
  }

  /** One of the neighbours probed is preferred over request j, and the choice over both. */
  lemma ProbeBeats(last: nat, l: seq<Rq>, i: nat, j: nat)
    requires Sorted(l) && i < |l| && (HeadAt(last, l, i) || AllWrap(last, l, i)) && j < |l| && j != i
    requires FindNext(last, l, i).Some? && l[j] != FindNext(last, l, i).value
    ensures Prefers(last, FindNext(last, l, i).value, l[j])
  {
    var n := if i + 1 < |l| then i + 1 else 0;
    var best := FindNext(last, l, i).value;
    if i > 0 && j != i - 1 && j != n {
      if j < i - 1 {
        assert l[0].pos <= l[j].pos < l[i - 1].pos;
      } else {
        assert l[n].pos < l[j].pos;
      }
    } else if i > 0 && n != i - 1 {
      PreferenceTotal(last, l[n], l[i - 1]);
    }
  }

  ghost predicate Overlap(a: Rq, b: Rq) { a.pos < End(b) && b.pos < End(a) }

  /** When a request that overlaps no other is dispatched, the probe made with the
      head at its end finds the best of all others. */
  lemma DispatchBest(l: seq<Rq>, i: nat)
    requires Sorted(l) && i < |l| && forall j :: 0 <= j < |l| && j != i ==> !Overlap(l[i], l[j])
    ensures BestBut(End(l[i]), l, i, FindNext(End(l[i]), l, i))
  {
    ProbeBest(End(l[i]), l, i);
  }

  /** Overlaps allowed: the probe is right exactly when no request above i starts inside
      it, or one does, within the seek limit, and the one after it is more than twice as
      far ahead of the head as that one is behind.  If it is beyond the limit, all there
      is must be, and the lowest request must be a neighbour. */
  predicate Clear(l: seq<Rq>, i: nat)
    requires i < |l|
  {
    var last := End(l[i]);
    i + 1 < |l| && l[i + 1].pos < last ==>
      if Wraps(last, l[i + 1].pos) then i <= 1 && Wraps(last, l[|l| - 1].pos)
      else i + 2 < |l| ==> l[i + 2].pos > last + BACK_PENALTY * (last - l[i + 1].pos)
  }

  lemma DispatchBestExactlyWhen(l: seq<Rq>, i: nat)
    requires Sorted(l) && i < |l|
    ensures BestBut(End(l[i]), l, i, FindNext(End(l[i]), l, i)) <==> Clear(l, i)
  {
    if i + 1 == |l| || l[i + 1].pos >= End(l[i]) {
      ProbeBest(End(l[i]), l, i);
    } else if Wraps(End(l[i]), l[i + 1].pos) {
      FarOverlap(l, i);
    } else {
      OverlapBest(l, i);
    }
  }

  /** Dispatching a request of 100 sectors of which another starts in the middle leaves
      that one as the next, although one sector ahead of the head there is a third. */
  lemma OverlapMisses()
    ensures var l := [Rq(0, 100), Rq(50, 8), Rq(101, 8)];
            Sorted(l) && !Clear(l, 0) && !BestBut(100, l, 0, FindNext(100, l, 0)) && Prefers(100, l[2], l[1])
  {
    var l := [Rq(0, 100), Rq(50, 8), Rq(101, 8)];
    assert FindNext(100, l, 0) == Some(l[1]) && !Prefers(100, l[1], l[2]);
  }

  /** Dispatching one so long that all others are too far behind its end leaves the one
      below it as the next, although the lowest of all is preferred. */
  lemma FarOverlapMisses()
    ensures var l, last := [Rq(0, 1), Rq(10, 1), Rq(20, 2 * MAXBACK), Rq(30, 1)], 20 + 2 * MAXBACK;
            Sorted(l) && !Clear(l, 2) && !BestBut(last, l, 2, FindNext(last, l, 2)) && Prefers(last, l[0], l[1])
  {
    var l, last := [Rq(0, 1), Rq(10, 1), Rq(20, 2 * MAXBACK), Rq(30, 1)], 20 + 2 * MAXBACK;
    assert FindNext(last, l, 2) == Some(l[1]) && !Prefers(last, l[1], l[0]);
  }

  /** The request that starts inside is within the seek limit: the probe finds it. */
  lemma OverlapBest(l: seq<Rq>, i: nat)
    requires Sorted(l) && i + 1 < |l| && l[i + 1].pos < End(l[i]) && !Wraps(End(l[i]), l[i + 1].pos)
    ensures FindNext(End(l[i]), l, i) == Some(l[i + 1])
    ensures BestBut(End(l[i]), l, i, Some(l[i + 1])) <==> Clear(l, i)
  {
    var last := End(l[i]);
    if i > 0 {
      assert l[i - 1].pos < l[i].pos < l[i + 1].pos;
    }
    if i + 2 < |l| {
      if Clear(l, i) {
        forall j | 0 <= j < |l| && j != i && l[j] != l[i + 1]
          ensures Prefers(last, l[i + 1], l[j])
        {
          if j > i + 2 {
            assert l[i + 2].pos < l[j].pos;
          }
        }
      } else {
        assert !Prefers(last, l[i + 1], l[i + 2]);
      }
    }
  }

  /** It is beyond the limit, and so is all below: the probe finds the lower neighbour. */
  lemma FarOverlap(l: seq<Rq>, i: nat)
    requires Sorted(l) && i + 1 < |l| && Wraps(End(l[i]), l[i + 1].pos)
    ensures FindNext(End(l[i]), l, i) == Some(l[if i > 0 then i - 1 else 1])
    ensures BestBut(End(l[i]), l, i, FindNext(End(l[i]), l, i)) <==> Clear(l, i)
  {
    var last, k, n := End(l[i]), if i > 0 then i - 1 else 1, |l| - 1;
    assert i > 0 ==> l[i - 1].pos < l[i].pos < l[i + 1].pos;
    if !Wraps(last, l[n].pos) {
      assert l[n] != l[k] && n != i && !Prefers(last, l[k], l[n]);
    } else if i > 1 {
      assert l[0].pos < l[k].pos && !Prefers(last, l[k], l[0]);
    } else {
      forall j | 0 <= j < |l| && j != i && l[j] != l[k]
        ensures Prefers(last, l[k], l[j])
      {
        assert l[j].pos <= l[n].pos && l[k].pos < l[j].pos;
      }
    }
  }

  // ----- next_rq is the best, always ----------------------------------------

  /** sort_list, next_rq and last_sector of one direction. */
  datatype Dir = Dir(sort: seq<Rq>, next: Option<Rq>, last: nat)

  ghost predicate NextIsBest(d: Dir) { Sorted(d.sort) && BestBut(d.last, d.sort, -1, d.next) }

  function RemoveAt(l: seq<Rq>, i: nat): seq<Rq>
    requires i < |l|
  {
    l[..i] + l[i + 1..]
  }

  /** The position of the first request not below `pos`. */
  function Place(l: seq<Rq>, pos: nat): (k: nat)
    ensures k <= |l|
    ensures forall j :: 0 <= j < k ==> l[j].pos < pos
    ensures k < |l| ==> pos <= l[k].pos
  {
    if l == [] || pos <= l[0].pos then 0 else 1 + Place(l[1..], pos)
  }

  /** as_move_to_dispatch */
  function Dispatch(d: Dir, i: nat): Dir
    requires i < |d.sort|
  {
    var last := End(d.sort[i]);
    Dir(RemoveAt(d.sort, i), FindNext(last, d.sort, i), last)
  }

  /** as_remove_queued_request */
  function Remove(d: Dir, i: nat): Dir
    requires i < |d.sort|
  {
    d.(sort := RemoveAt(d.sort, i), next := if d.next == Some(d.sort[i]) then FindNext(d.last, d.sort, i) else d.next)
  }

  predicate HasAlias(d: Dir, r: Rq) { var k := Place(d.sort, r.pos); k < |d.sort| && d.sort[k].pos == r.pos }

  /** as_add_rq_rb, which dispatches an alias first, and as_update_rq */
  function Add(d: Dir, r: Rq): Dir {
    var k := Place(d.sort, r.pos);
    var e := if HasAlias(d, r) then Dispatch(d, k) else d;
    Dir(Inserted(e.sort, k, r), Choose(e.last, Some(r), e.next), e.last)
  }

  lemma RemoveBest(last: nat, l: seq<Rq>, i: nat, best: Option<Rq>)
    requires Sorted(l) && i < |l| && BestBut(last, l, i, best)
    ensures Sorted(RemoveAt(l, i)) && BestBut(last, RemoveAt(l, i), -1, best)
  {
    var m := RemoveAt(l, i);
    if best.Some? {
      var k :| 0 <= k < |l| && k != i && l[k] == best.value;
      assert m[if k < i then k else k - 1] == best.value;
    }
  }

  /** A best request stands next to the head, or everything wraps. */
  lemma BestStands(last: nat, l: seq<Rq>, i: nat)
    requires Sorted(l) && i < |l| && BestBut(last, l, -1, Some(l[i]))
    ensures HeadAt(last, l, i) || AllWrap(last, l, i)
  {
    forall j | 0 <= j < |l| && j != i
      ensures Prefers(last, l[i], l[j])
    {
      assert l[j].pos != l[i].pos;
    }
    if Wraps(last, l[i].pos) {
      assert forall k :: 0 < k < |l| ==> l[0].pos < l[k].pos;
      assert AllWrap(last, l, i);
    } else {
      forall j | 0 <= j < |l| && j != i
        ensures l[j].pos >= last <==> j > i
      {
        assert Prefers(last, l[i], l[j]);
      }
      assert HeadAt(last, l, i);
    }
  }

  lemma DispatchKept(d: Dir, i: nat)
    requires NextIsBest(d) && i < |d.sort| && Clear(d.sort, i)
    ensures NextIsBest(Dispatch(d, i))
  {
    DispatchBestExactlyWhen(d.sort, i);
    var last := End(d.sort[i]);
    RemoveBest(last, d.sort, i, FindNext(last, d.sort, i));
  }

  lemma RemoveKept(d: Dir, i: nat)
    requires NextIsBest(d) && i < |d.sort|
    ensures NextIsBest(Remove(d, i))
  {
    if d.next == Some(d.sort[i]) {
      BestStands(d.last, d.sort, i);
      ProbeBest(d.last, d.sort, i);
      RemoveBest(d.last, d.sort, i, FindNext(d.last, d.sort, i));
    } else {
      RemoveBest(d.last, d.sort, i, d.next);
    }
  }

  lemma StillBest(last: nat, r: Rq, best: Rq, x: Rq)
    requires r.pos != best.pos && x.pos != r.pos && (x == best || (x.pos != best.pos && Prefers(last, best, x)))
    ensures var c := Choose(last, Some(r), Some(best)); c.Some? && (x != c.value ==> Prefers(last, c.value, x))
  {
    PreferenceTotal(last, r, best);
    if x != best && Prefers(last, r, best) {
      PreferenceTransitive(last, r, best, x);
    }
  }

  ghost predicate Fits(l: seq<Rq>, k: nat, r: Rq) {
    k <= |l| && (forall j :: 0 <= j < k ==> l[j].pos < r.pos) && (forall j :: k <= j < |l| ==> r.pos < l[j].pos)
  }

  function Inserted(l: seq<Rq>, k: nat, r: Rq): seq<Rq>
    requires k <= |l|
  {
    l[..k] + [r] + l[k..]
  }

  lemma InsertedSorted(l: seq<Rq>, k: nat, r: Rq)
    requires Sorted(l) && Fits(l, k, r)
    ensures Sorted(Inserted(l, k, r))
  {
  }

  lemma InsertBeats(last: nat, l: seq<Rq>, k: nat, r: Rq, best: Rq, j: nat)
    requires Sorted(l) && Fits(l, k, r) && BestBut(last, l, -1, Some(best)) && j < |l|
    ensures var c := Choose(last, Some(r), Some(best)); c.Some? && (l[j] != c.value ==> Prefers(last, c.value, l[j]))
  {
    var b :| 0 <= b < |l| && l[b] == best;
    StillBest(last, r, best, l[j]);
  }

  /** The choice between the new request and the old best is queued. */
  lemma InsertHas(last: nat, l: seq<Rq>, k: nat, r: Rq, best: Rq)
    requires Fits(l, k, r) && exists b :: 0 <= b < |l| && l[b] == best
    ensures var m, c := Inserted(l, k, r), Choose(last, Some(r), Some(best));
            c.Some? && exists j :: 0 <= j < |m| && m[j] == c.value
  {
    var m := Inserted(l, k, r);
    var b :| 0 <= b < |l| && l[b] == best;
    assert m[if b < k then b else b + 1] == best && m[k] == r;
  }

  lemma InsertBest(last: nat, l: seq<Rq>, k: nat, r: Rq, best: Option<Rq>)
    requires Sorted(l) && BestBut(last, l, -1, best) && Fits(l, k, r)
    ensures Sorted(Inserted(l, k, r)) && BestBut(last, Inserted(l, k, r), -1, Choose(last, Some(r), best))
  {
    InsertedSorted(l, k, r);
    var m, c := Inserted(l, k, r), Choose(last, Some(r), best);
    assert m[k] == r;
    if best.Some? {
      InsertHas(last, l, k, r, best.value);
      forall j | 0 <= j < |m| && m[j] != c.value
        ensures Prefers(last, c.value, m[j])
      {
        if j != k {
          InsertBeats(last, l, k, r, best.value, if j < k then j else j - 1);
        } else {
          var b :| 0 <= b < |l| && l[b] == best.value;
          PreferenceTotal(last, r, best.value);
        }
      }
    }
  }

  lemma AddKept(d: Dir, r: Rq)
    requires NextIsBest(d)
    requires HasAlias(d, r) ==> var k := Place(d.sort, r.pos); Clear(d.sort, k)
    ensures NextIsBest(Add(d, r))
  {
    var k := Place(d.sort, r.pos);
    if HasAlias(d, r) {
      DispatchKept(d, k);
      InsertBest(Dispatch(d, k).last, Dispatch(d, k).sort, k, r, Dispatch(d, k).next);
    } else {
      InsertBest(d.last, d.sort, k, r, d.next);
    }
  }

  datatype Event = AddEvent(r: Rq) | DispatchEvent(i: nat) | RemoveEvent(i: nat)

  /** Requests that are dispatched overlap no others, or not badly. */
  predicate Allowed(d: Dir, e: Event) {
    match e
    case AddEvent(r) => HasAlias(d, r) ==> var k := Place(d.sort, r.pos); Clear(d.sort, k)
    case DispatchEvent(i) => i < |d.sort| && Clear(d.sort, i)
    case RemoveEvent(i) => i < |d.sort|
  }

  function Step(d: Dir, e: Event): Dir
    requires Allowed(d, e)
  {
    match e
    case AddEvent(r) => Add(d, r)
    case DispatchEvent(i) => Dispatch(d, i)
    case RemoveEvent(i) => Remove(d, i)
  }

  predicate RunOk(d: Dir, es: seq<Event>)
    decreases |es|
  {
    es == [] || (Allowed(d, es[0]) && RunOk(Step(d, es[0]), es[1..]))
  }

  function Run(d: Dir, es: seq<Event>): Dir
    requires RunOk(d, es)
    decreases |es|
  {
    if es == [] then d else Run(Step(d, es[0]), es[1..])
  }

  /** Whatever is added, dispatched and merged away, next_rq is preferred over every
      other request queued. */
  lemma {:induction false} RunKept(d: Dir, es: seq<Event>)
    requires NextIsBest(d) && RunOk(d, es)
    ensures NextIsBest(Run(d, es))
    decreases |es|
  {
    if es != [] {
      match es[0] {
        case AddEvent(r) => AddKept(d, r);
        case DispatchEvent(i) => DispatchKept(d, i);
        case RemoveEvent(i) => RemoveKept(d, i);
      }
      RunKept(Step(d, es[0]), es[1..]);
    }
  }

  // ----- the object ---------------------------------------------------------

  /** One direction of struct as_data */
  class AsQueue {
    var sort: seq<Rq>
    var next: Option<Rq>
    var last: nat
    var dispatched: seq<Rq>

    function View(): Dir
      reads this
    {
      Dir(sort, next, last)
    }

    constructor ()
      ensures View() == Dir([], None, 0) && NextIsBest(View()) && dispatched == []
    {
      sort, next, last, dispatched := [], None, 0, [];
    }

    /** as_move_to_dispatch */
    method MoveToDispatch(i: nat)
      requires i < |sort| && Sorted(sort)
      modifies this
      ensures View() == Dispatch(old(View()), i) && dispatched == old(dispatched) + [old(sort)[i]]
      ensures old(NextIsBest(View()) && Clear(sort, i)) ==> NextIsBest(View())
    {
      if NextIsBest(View()) && Clear(sort, i) {
        DispatchKept(View(), i);
      }
      var rq := sort[i];
      last := rq.pos + rq.sectors;
      next := FindNext(last, sort, i);
      RemoveQueued(i);
      dispatched := dispatched + [rq];
    }

    /** as_remove_queued_request */
    method RemoveQueued(i: nat)
      requires i < |sort|
      modifies this`sort, this`next
      ensures View() == Remove(old(View()), i)
      ensures old(NextIsBest(View())) ==> NextIsBest(View())
    {
      if NextIsBest(View()) {
        RemoveKept(View(), i);
      }
      if next == Some(sort[i]) {
        next := FindNext(last, sort, i);
      }
      sort := sort[..i] + sort[i + 1..];
    }

    /** as_add_request, as far as the tree and next_rq go; the loop over aliases runs
        once at most. */
    method AddRequest(r: Rq)
      requires Sorted(sort)
      modifies this
      ensures View() == Add(old(View()), r)
      ensures dispatched == old(dispatched) + if HasAlias(old(View()), r) then [old(sort)[Place(old(sort), r.pos)]] else []
      ensures old(NextIsBest(View()) && Allowed(View(), AddEvent(r))) ==> NextIsBest(View())
    {
      if NextIsBest(View()) && Allowed(View(), AddEvent(r)) {
        AddKept(View(), r);
      }
      var k := Place(sort, r.pos);
      while k < |sort| && sort[k].pos == r.pos
        invariant k == Place(old(sort), r.pos)
        invariant (View() == old(View()) && dispatched == old(dispatched))
                  || (HasAlias(old(View()), r) && View() == Dispatch(old(View()), k) && dispatched == old(dispatched) + [old(sort)[k]])
        decreases |sort|
      {
        MoveToDispatch(k);
      }
      sort := sort[..k] + [r] + sort[k..];
      next := Choose(last, Some(r), next);
    }
  }
}
