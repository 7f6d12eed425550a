/**
 The deadline I/O scheduler (deadline-iosched.c).  Each direction has its requests
 twice, sorted by sector and in arrival order; batches of reads or writes are taken
 from the sorted list, and reads may be preferred only so often.  Red-black trees
 are sorted sequences, and jiffies and sectors are unbounded.
 */
module Deadline {
  import opened Options

  /** A queued request: what the scheduler knows of it. */
  datatype Rq = Rq(id: nat, sector: nat, expire: int)

  /** sort_list, fifo_list and next_rq of one direction. */
  datatype Side = Side(sort: seq<Rq>, fifo: seq<Rq>, next: Option<Rq>)

  /** The tunables. */
  datatype Tunables = Tunables(readExpire: nat, writeExpire: nat, fifoBatch: nat, writesStarved: nat)

  datatype Queue = Queue(read: Side, write: Side, batching: nat, starved: nat, dispatched: seq<Rq>)

  // ----- lists --------------------------------------------------------------

  function Without(l: seq<Rq>, r: Rq): seq<Rq> {
    if l == [] then [] else if l[0] == r then l[1..] else [l[0]] + Without(l[1..], r)
  }

  function Replaced(l: seq<Rq>, r: Rq, r': Rq): seq<Rq> {
    if l == [] then [] else if l[0] == r then [r'] + l[1..] else [l[0]] + Replaced(l[1..], r, r')
  }

  function Insert(l: seq<Rq>, r: Rq): seq<Rq> {
    if l == [] || r.sector < l[0].sector then [r] + l else [l[0]] + Insert(l[1..], r)
  }

  /** elv_rb_find, and the alias elv_rb_add returns. */
  function At(l: seq<Rq>, sector: nat): Option<Rq> {
    if l == [] then None else if l[0].sector == sector then Some(l[0]) else At(l[1..], sector)
  }

  /** deadline_latter_request */
  function Latter(l: seq<Rq>, r: Rq): Option<Rq> {
    if l == [] then None
    else if l[0] == r then (if |l| > 1 then Some(l[1]) else None)
    else Latter(l[1..], r)
  }

  ghost predicate Sorted(l: seq<Rq>) { forall i, j :: 0 <= i < j < |l| ==> l[i].sector < l[j].sector }

  ghost predicate InOrder(l: seq<Rq>) { forall i, j :: 0 <= i < j < |l| ==> l[i].expire <= l[j].expire }

  ghost predicate Within(l: seq<Rq>, limit: int) { forall i :: 0 <= i < |l| ==> l[i].expire <= limit }

  ghost predicate Has(l: seq<Rq>, r: Rq) { multiset(l)[r] > 0 }

  // ----- the operations -----------------------------------------------------

  function Of(q: Queue, write: bool): Side { if write then q.write else q.read }

  function With(q: Queue, write: bool, s: Side): Queue { if write then q.(write := s) else q.(read := s) }

  /** deadline_remove_request */
  function RemoveRequest(s: Side, r: Rq): Side {
    Side(Without(s.sort, r), Without(s.fifo, r), if s.next == Some(r) then Latter(s.sort, r) else s.next)
  }

  /** deadline_move_request */
  function MoveRequest(q: Queue, write: bool, r: Rq): Queue {
    var s := Of(q, write);
    var cleared := q.(read := q.read.(next := None), write := q.write.(next := None));
    With(cleared, write, RemoveRequest(s.(next := Latter(s.sort, r)), r)).(dispatched := q.dispatched + [r])
  }

  /** deadline_add_rq_rb: a request at the same sector is dispatched first. */
  function AddRb(q: Queue, write: bool, r: Rq): Queue {
    var alias := At(Of(q, write).sort, r.sector);
    var m := if alias.Some? then MoveRequest(q, write, alias.value) else q;
    With(m, write, Of(m, write).(sort := Insert(Of(m, write).sort, r)))
  }

  function Expire(t: Tunables, write: bool): nat { if write then t.writeExpire else t.readExpire }

  /** deadline_add_request */
  function Add(t: Tunables, q: Queue, write: bool, id: nat, sector: nat, now: int): Queue {
    var r := Rq(id, sector, now + Expire(t, write));
    var m := AddRb(q, write, r);
    With(m, write, Of(m, write).(fifo := Of(m, write).fifo + [r]))
  }

  /** The request gets a new sector or expiry time where it is. */
  function Renamed(s: Side, r: Rq, r': Rq): Side {
    Side(s.sort, Replaced(s.fifo, r, r'), if s.next == Some(r) then Some(r') else s.next)
  }

  /** deadline_merged_request after a front merge, which has lowered the sector. */
  function FrontMerged(q: Queue, write: bool, r: Rq, sector: nat): Queue {
    var r' := r.(sector := sector);
    var s := Of(q, write);
    AddRb(With(q, write, Renamed(s, r, r').(sort := Without(s.sort, r))), write, r')
  }

  /** The request left takes over the earlier expiry time, and its place. */
  function TakenOver(s: Side, req: Rq, next: Rq): Side {
    var req' := req.(expire := next.expire);
    Side(Replaced(s.sort, req, req'), Replaced(Without(s.fifo, req), next, req') ,
         if s.next == Some(req) then Some(req') else s.next)
  }

  /** deadline_merged_requests: `next` goes away, and the request left takes its
      place in the fifo if `next` expires first. */
  function MergedRequests(q: Queue, write: bool, req: Rq, next: Rq): Queue {
    var s := Of(q, write);
    if next.expire < req.expire then
      var m := TakenOver(s, req, next);
      With(q, write, Side(Without(m.sort, next), m.fifo, if m.next == Some(next) then Latter(m.sort, next) else m.next))
    else With(q, write, RemoveRequest(s, next))
  }

  /** What deadline_dispatch_requests decides. */
  datatype Decision = Idle | Batch(write: bool, rq: Rq) | Find(write: bool, rq: Rq, starved: nat)

  /** dispatch_find_request */
  function FindRequest(s: Side, now: int): Rq
    requires s.fifo != []
  {
    if now > s.fifo[0].expire || s.next.None? then s.fifo[0] else s.next.value
  }

  function Decide(t: Tunables, q: Queue, now: int): Decision {
    var batch := if q.write.next.Some? then q.write.next else q.read.next;
    if batch.Some? && q.batching < t.fifoBatch then Batch(q.write.next.Some?, batch.value)
    else if q.read.fifo != [] then
      if q.write.fifo != [] then
        if q.starved >= t.writesStarved then Find(true, FindRequest(q.write, now), 0)
        else Find(false, FindRequest(q.read, now), q.starved + 1)
      else Find(false, FindRequest(q.read, now), q.starved)
    else if q.write.fifo != [] then Find(true, FindRequest(q.write, now), 0)
    else Idle
  }

  /** deadline_dispatch_requests */
  function Dispatch(t: Tunables, q: Queue, now: int): Queue {
    match Decide(t, q, now)
    case Idle => q
    case Batch(write, r) => MoveRequest(q.(batching := q.batching + 1), write, r)
    case Find(write, r, starved) => MoveRequest(q.(batching := 1, starved := starved), write, r)
  }

  // ----- what every operation keeps -----------------------------------------

  /** Both lists hold the same requests, the one by distinct sectors, the other by
      expiry times not beyond those given out; the next one is among them. */
  ghost predicate SideInv(s: Side, limit: int) {
    && Sorted(s.sort) && multiset(s.sort) == multiset(s.fifo)
    && InOrder(s.fifo) && Within(s.fifo, limit)
    && (s.next.Some? ==> Has(s.sort, s.next.value))
  }

  ghost predicate OneNext(q: Queue) { q.read.next.None? || q.write.next.None? }

  ghost predicate Inv(t: Tunables, q: Queue, now: int) {
    && SideInv(q.read, now + t.readExpire) && SideInv(q.write, now + t.writeExpire)
    && OneNext(q)
  }

  // ----- list lemmas --------------------------------------------------------

  lemma First(l: seq<Rq>)
    requires l != []
    ensures multiset(l) == multiset{l[0]} + multiset(l[1..])
  {
    assert l == [l[0]] + l[1..];
  }

  lemma HasAt(l: seq<Rq>, r: Rq) returns (i: nat)
    requires Has(l, r)
    ensures i < |l| && l[i] == r
  {
    assert r in l;
    i :| i < |l| && l[i] == r;
  }

  lemma {:induction false} WithoutIs(l: seq<Rq>, r: Rq)
    requires Has(l, r)
    ensures multiset(Without(l, r)) == multiset(l) - multiset{r}
  {
    First(l);
    if l[0] != r {
      WithoutIs(l[1..], r);
    }
  }

  lemma {:induction false} ReplacedIs(l: seq<Rq>, r: Rq, r': Rq)
    requires Has(l, r)
    ensures multiset(Replaced(l, r, r')) == multiset(l) - multiset{r} + multiset{r'}
  {
    First(l);
    if l[0] != r {
      ReplacedIs(l[1..], r, r');
    }
  }

  lemma {:induction false} InsertIs(l: seq<Rq>, r: Rq)
    ensures multiset(Insert(l, r)) == multiset(l) + multiset{r}
  {
    if l != [] && r.sector >= l[0].sector {
      First(l);
      InsertIs(l[1..], r);
    }
  }

  /** Where the elements kept come from. */
  lemma {:induction false} WithoutAt(l: seq<Rq>, r: Rq) returns (k: nat)
    ensures k <= |l| && Without(l, r) == l[..k] + (if k < |l| then l[k + 1..] else [])
    ensures k < |l| ==> l[k] == r
  {
    if l == [] {
      k := 0;
    } else if l[0] == r {
      k := 0;
    } else {
      var i := WithoutAt(l[1..], r);
      k := i + 1;
    }
  }

  lemma {:induction false} ReplacedAt(l: seq<Rq>, r: Rq, r': Rq) returns (k: nat)
    requires Has(l, r)
    ensures k < |l| && l[k] == r && Replaced(l, r, r') == l[k := r']
  {
    First(l);
    if l[0] == r {
      k := 0;
    } else {
      var i := ReplacedAt(l[1..], r, r');
      k := i + 1;
    }
  }

  lemma {:induction false} InsertAt(l: seq<Rq>, r: Rq) returns (k: nat)
    requires Sorted(l)
    ensures k <= |l| && Insert(l, r) == l[..k] + [r] + l[k..]
    ensures forall i :: 0 <= i < k ==> l[i].sector <= r.sector
    ensures forall i :: k <= i < |l| ==> r.sector < l[i].sector
  {
    if l == [] || r.sector < l[0].sector {
      k := 0;
    } else {
      var i := InsertAt(l[1..], r);
      k := i + 1;
    }
  }

  lemma WithoutSorted(l: seq<Rq>, r: Rq, limit: int)
    ensures Sorted(l) ==> Sorted(Without(l, r))
    ensures InOrder(l) ==> InOrder(Without(l, r))
    ensures Within(l, limit) ==> Within(Without(l, r), limit)
  {
    var k := WithoutAt(l, r);
  }

  lemma {:induction false} AtIs(l: seq<Rq>, sector: nat)
    ensures At(l, sector).Some? ==> Has(l, At(l, sector).value) && At(l, sector).value.sector == sector
    ensures At(l, sector).None? ==> forall i :: 0 <= i < |l| ==> l[i].sector != sector
  {
    if l != [] && l[0].sector != sector {
      First(l);
      AtIs(l[1..], sector);
    }
  }

  lemma InsertSorted(l: seq<Rq>, r: Rq)
    requires Sorted(l) && At(l, r.sector).None?
    ensures Sorted(Insert(l, r))
  {
    AtIs(l, r.sector);
    var k := InsertAt(l, r);
  }

  /** The next request in sector order. */
  lemma {:induction false} LatterIs(l: seq<Rq>, r: Rq)
    requires Sorted(l) && Has(l, r)
    ensures Latter(l, r).Some? ==> Has(l, Latter(l, r).value) && r.sector < Latter(l, r).value.sector
    ensures forall i :: 0 <= i < |l| && l[i].sector > r.sector ==>
              Latter(l, r).Some? && Latter(l, r).value.sector <= l[i].sector
  {
    First(l);
    if l[0] == r {
      if |l| > 1 {
        First(l[1..]);
      }
    } else {
      LatterIs(l[1..], r);
      var k := HasAt(l[1..], r);
    }
  }

  // ----- one direction ------------------------------------------------------

  lemma HasLeft(l: seq<Rq>, r: Rq, v: Rq)
    requires Has(l, r) && Has(l, v) && v != r
    ensures Has(Without(l, r), v)
  {
    WithoutIs(l, r);
  }

  lemma RemoveNext(s: Side, r: Rq, limit: int)
    requires SideInv(s, limit) && Has(s.sort, r)
    ensures var x := RemoveRequest(s, r); x.next.Some? ==> Has(x.sort, x.next.value)
  {
    LatterIs(s.sort, r);
    var x := RemoveRequest(s, r);
    if x.next.Some? {
      HasLeft(s.sort, r, x.next.value);
    }
  }

  lemma RemoveKept(s: Side, r: Rq, limit: int)
    requires SideInv(s, limit) && Has(s.sort, r)
    ensures SideInv(RemoveRequest(s, r), limit)
    ensures multiset(RemoveRequest(s, r).sort) == multiset(s.sort) - multiset{r}
  {
    RemoveNext(s, r, limit);
    WithoutIs(s.sort, r);
    WithoutIs(s.fifo, r);
    WithoutSorted(s.sort, r, limit);
    WithoutSorted(s.fifo, r, limit);
  }

  lemma MoveIs(q: Queue, write: bool, r: Rq)
    ensures var x, s := MoveRequest(q, write, r), Of(q, write);
            && Of(x, write) == RemoveRequest(s.(next := Latter(s.sort, r)), r)
            && Of(x, !write) == Of(q, !write).(next := None) && OneNext(x)
  {
  }

  lemma SidesKept(t: Tunables, q: Queue, write: bool, now: int)
    ensures Inv(t, q, now) <==>
            SideInv(Of(q, write), now + Expire(t, write)) && SideInv(Of(q, !write), now + Expire(t, !write)) && OneNext(q)
  {
  }

  lemma MoveSide(s: Side, r: Rq, limit: int)
    requires SideInv(s, limit) && Has(s.sort, r)
    ensures SideInv(RemoveRequest(s.(next := Latter(s.sort, r)), r), limit)
  {
    assert SideInv(s.(next := Latter(s.sort, r)), limit) by {
      LatterIs(s.sort, r);
    }
    RemoveKept(s.(next := Latter(s.sort, r)), r, limit);
  }

  lemma MoveKept(t: Tunables, q: Queue, write: bool, r: Rq, now: int)
    requires Inv(t, q, now) && Has(Of(q, write).sort, r)
    ensures Inv(t, MoveRequest(q, write, r), now)
  {
    SidesKept(t, q, write, now);
    MoveIs(q, write, r);
    MoveSide(Of(q, write), r, now + Expire(t, write));
    SidesKept(t, MoveRequest(q, write, r), write, now);
  }

  /** A side whose fifo holds `missing` besides what the sorted list holds, and whose
      next request may be `r`, which is to be inserted. */
  ghost predicate Loose(s: Side, limit: int, missing: multiset<Rq>, r: Rq) {
    && Sorted(s.sort) && multiset(s.sort) + missing == multiset(s.fifo)
    && InOrder(s.fifo) && Within(s.fifo, limit)
    && (s.next.Some? ==> s.next.value == r || Has(s.sort, s.next.value))
  }

  /** The side after the insertion, but for what is missing. */
  ghost predicate Inserted(s: Side, limit: int, missing: multiset<Rq>, r: Rq) {
    && Sorted(s.sort) && multiset(s.sort) + missing == multiset(s.fifo) + multiset{r}
    && InOrder(s.fifo) && Within(s.fifo, limit)
    && (s.next.Some? ==> Has(s.sort, s.next.value))
  }

  lemma InsertInto(s: Side, limit: int, missing: multiset<Rq>, r: Rq)
    requires Loose(s, limit, missing, r) && At(s.sort, r.sector).None?
    ensures Inserted(s.(sort := Insert(s.sort, r)), limit, missing, r)
  {
    InsertIs(s.sort, r);
    InsertSorted(s.sort, r);
  }

  /** The alias is taken out; no other request is at its sector. */
  lemma AliasOut(s: Side, limit: int, missing: multiset<Rq>, r: Rq, alias: Rq)
    requires Loose(s, limit, missing, r) && At(s.sort, r.sector) == Some(alias)
    ensures var x := RemoveRequest(s.(next := Latter(s.sort, alias)), alias);
            Loose(x, limit, missing, r) && At(x.sort, r.sector).None?
  {
    AtIs(s.sort, r.sector);
    var x := RemoveRequest(s.(next := Latter(s.sort, alias)), alias);
    LatterIs(s.sort, alias);
    WithoutIs(s.sort, alias);
    WithoutIs(s.fifo, alias);
    WithoutSorted(s.sort, alias, limit);
    WithoutSorted(s.fifo, alias, limit);
    if x.next.Some? {
      HasLeft(s.sort, alias, x.next.value);
    }
    AliasGone(s.sort, alias, r.sector);
  }

  lemma AliasGone(l: seq<Rq>, alias: Rq, sector: nat)
    requires Sorted(l) && Has(l, alias) && alias.sector == sector
    ensures At(Without(l, alias), sector).None?
  {
    var k := WithoutAt(l, alias);
    var i := HasAt(l, alias);
    WithoutIs(l, alias);
    AtIs(Without(l, alias), sector);
    assert k == |l| ==> Without(l, alias) == l;
  }

  lemma AddRbKept(q: Queue, write: bool, r: Rq, limit: int, limit': int, missing: multiset<Rq>)
    requires Loose(Of(q, write), limit, missing, r) && SideInv(Of(q, !write), limit') && OneNext(q)
    ensures var x := AddRb(q, write, r);
            Inserted(Of(x, write), limit, missing, r) && SideInv(Of(x, !write), limit') && OneNext(x)
  {
    var s := Of(q, write);
    var alias := At(s.sort, r.sector);
    if alias.Some? {
      AliasOut(s, limit, missing, r, alias.value);
      InsertInto(RemoveRequest(s.(next := Latter(s.sort, alias.value)), alias.value), limit, missing, r);
    } else {
      InsertInto(s, limit, missing, r);
    }
  }

  // ----- every operation ----------------------------------------------------

  lemma TimePasses(t: Tunables, q: Queue, before: int, now: int)
    requires Inv(t, q, before) && before <= now
    ensures Inv(t, q, now)
  {
  }

  lemma Appended(s: Side, limit: int, r: Rq)
    requires Inserted(s, limit, multiset{}, r) && r.expire == limit
    ensures SideInv(s.(fifo := s.fifo + [r]), limit)
  {
    assert multiset(s.fifo + [r]) == multiset(s.fifo) + multiset{r};
  }

  lemma Refilled(s: Side, limit: int, r: Rq)
    requires Inserted(s, limit, multiset{r}, r)
    ensures SideInv(s, limit)
  {
    assert multiset(s.sort) + multiset{r} - multiset{r} == multiset(s.sort);
    assert multiset(s.fifo) + multiset{r} - multiset{r} == multiset(s.fifo);
  }

  lemma Tight(s: Side, limit: int, r: Rq)
    requires SideInv(s, limit)
    ensures Loose(s, limit, multiset{}, r)
  {
  }

  lemma FifoOnly(q: Queue, write: bool, fifo: seq<Rq>)
    ensures var x := With(q, write, Of(q, write).(fifo := fifo));
            Of(x, write) == Of(q, write).(fifo := fifo) && Of(x, !write) == Of(q, !write) && OneNext(x) == OneNext(q)
  {
  }

  lemma AddSides(t: Tunables, q: Queue, write: bool, id: nat, sector: nat, now: int)
    requires Inv(t, q, now)
    ensures var x, r := AddRb(q, write, Rq(id, sector, now + Expire(t, write))), Rq(id, sector, now + Expire(t, write));
            && Inserted(Of(x, write), now + Expire(t, write), multiset{}, r)
            && SideInv(Of(x, !write), now + Expire(t, !write)) && OneNext(x)
  {
    var r := Rq(id, sector, now + Expire(t, write));
    SidesKept(t, q, write, now);
    Tight(Of(q, write), now + Expire(t, write), r);
    AddRbKept(q, write, r, now + Expire(t, write), now + Expire(t, !write), multiset{});
  }

  lemma AddIs(t: Tunables, q: Queue, write: bool, id: nat, sector: nat, now: int)
    ensures var r := Rq(id, sector, now + Expire(t, write));
            var m, x := AddRb(q, write, r), Add(t, q, write, id, sector, now);
            && Of(x, write) == Of(m, write).(fifo := Of(m, write).fifo + [r])
            && Of(x, !write) == Of(m, !write) && OneNext(x) == OneNext(m)
  {
    var r := Rq(id, sector, now + Expire(t, write));
    FifoOnly(AddRb(q, write, r), write, Of(AddRb(q, write, r), write).fifo + [r]);
  }

  lemma AddMine(t: Tunables, q: Queue, write: bool, id: nat, sector: nat, now: int)
    requires Inv(t, q, now)
    ensures SideInv(Of(Add(t, q, write, id, sector, now), write), now + Expire(t, write))
  {
    var r := Rq(id, sector, now + Expire(t, write));
    var side := Of(AddRb(q, write, r), write);
    assert SideInv(side.(fifo := side.fifo + [r]), now + Expire(t, write)) by {
      AddSides(t, q, write, id, sector, now);
      Appended(side, now + Expire(t, write), r);
    }
    AddIs(t, q, write, id, sector, now);
  }

  lemma AddOther(t: Tunables, q: Queue, write: bool, id: nat, sector: nat, now: int)
    requires Inv(t, q, now)
    ensures var x := Add(t, q, write, id, sector, now); SideInv(Of(x, !write), now + Expire(t, !write)) && OneNext(x)
  {
    AddSides(t, q, write, id, sector, now);
    AddIs(t, q, write, id, sector, now);
  }

  lemma AddKept(t: Tunables, q: Queue, write: bool, id: nat, sector: nat, now: int)
    requires Inv(t, q, now)
    ensures Inv(t, Add(t, q, write, id, sector, now), now)
  {
    AddMine(t, q, write, id, sector, now);
    AddOther(t, q, write, id, sector, now);
    SidesKept(t, Add(t, q, write, id, sector, now), write, now);
  }

  /** A request replaced by one that expires at the same time. */
  lemma ReplacedOrder(l: seq<Rq>, r: Rq, r': Rq, limit: int)
    requires InOrder(l) && Within(l, limit) && Has(l, r) && r'.expire == r.expire
    ensures InOrder(Replaced(l, r, r')) && Within(Replaced(l, r, r'), limit)
  {
    var k := ReplacedAt(l, r, r');
  }

  lemma RenamedLoose(s: Side, r: Rq, r': Rq, limit: int)
    requires SideInv(s, limit) && Has(s.sort, r) && r'.expire == r.expire
    ensures Loose(Renamed(s, r, r').(sort := Without(s.sort, r)), limit, multiset{r'}, r')
  {
    ReplacedOrder(s.fifo, r, r', limit);
    WithoutSorted(s.sort, r, limit);
    assert multiset(Without(s.sort, r)) + multiset{r'} == multiset(Replaced(s.fifo, r, r')) by {
      ReplacedIs(s.fifo, r, r');
      WithoutIs(s.sort, r);
    }
    if s.next.Some? && s.next.value != r {
      HasLeft(s.sort, r, s.next.value);
    }
  }

  lemma FrontMergedKept(t: Tunables, q: Queue, write: bool, r: Rq, sector: nat, now: int)
    requires Inv(t, q, now) && Has(Of(q, write).sort, r)
    ensures Inv(t, FrontMerged(q, write, r, sector), now)
  {
    var r' := r.(sector := sector);
    var s := Of(q, write);
    SidesKept(t, q, write, now);
    RenamedLoose(s, r, r', now + Expire(t, write));
    var x := With(q, write, Renamed(s, r, r').(sort := Without(s.sort, r)));
    AddRbKept(x, write, r', now + Expire(t, write), now + Expire(t, !write), multiset{r'});
    Refilled(Of(AddRb(x, write, r'), write), now + Expire(t, write), r');
    SidesKept(t, FrontMerged(q, write, r, sector), write, now);
  }

  lemma NextOfMerged(s: Side, req: Rq, next: Rq)
    requires s.next.None?
    ensures RemoveRequest(s, next).next.None? && TakenOver(s, req, next).next.None?
  {
  }

  lemma MergedRequestsKept(t: Tunables, q: Queue, write: bool, req: Rq, next: Rq, now: int)
    requires Inv(t, q, now) && Has(Of(q, write).sort, req) && Has(Of(q, write).sort, next) && req != next
    ensures Inv(t, MergedRequests(q, write, req, next), now)
  {
    var s := Of(q, write);
    SidesKept(t, q, write, now);
    if next.expire < req.expire {
      TakenOverKept(s, req, next, now + Expire(t, write));
    } else {
      RemoveKept(s, next, now + Expire(t, write));
    }
    if s.next.None? {
      NextOfMerged(s, req, next);
    }
    SidesKept(t, MergedRequests(q, write, req, next), write, now);
  }

  lemma TakenOverSort(s: Side, req: Rq, next: Rq, limit: int)
    requires SideInv(s, limit) && Has(s.sort, req) && Has(s.sort, next) && req != next
    ensures var x := TakenOver(s, req, next);
            && Sorted(x.sort) && Has(x.sort, next)
            && multiset(x.sort) == multiset(s.sort) - multiset{req} + multiset{req.(expire := next.expire)}
            && (x.next.Some? ==> Has(x.sort, x.next.value))
  {
    var req' := req.(expire := next.expire);
    var k := ReplacedAt(s.sort, req, req');
    ReplacedIs(s.sort, req, req');
  }

  lemma TakenOverFifo(s: Side, req: Rq, next: Rq, limit: int)
    requires SideInv(s, limit) && Has(s.sort, req) && Has(s.sort, next) && req != next
    ensures var x := TakenOver(s, req, next);
            && InOrder(x.fifo) && Within(x.fifo, limit)
            && multiset(x.fifo) == multiset(s.fifo) - multiset{req} - multiset{next} + multiset{req.(expire := next.expire)}
  {
    var l, req' := Without(s.fifo, req), req.(expire := next.expire);
    HasLeft(s.fifo, req, next);
    assert InOrder(l) && Within(l, limit) by {
      WithoutSorted(s.fifo, req, limit);
    }
    ReplacedOrder(l, next, req', limit);
    WithoutIs(s.fifo, req);
    ReplacedIs(l, next, req');
  }

  lemma TakenOverNext(s: Side, req: Rq, next: Rq, limit: int)
    requires SideInv(s, limit) && Has(s.sort, req) && Has(s.sort, next) && req != next
    ensures var x := TakenOver(s, req, next);
            var n := if x.next == Some(next) then Latter(x.sort, next) else x.next;
            n.Some? ==> Has(Without(x.sort, next), n.value)
  {
    var x := TakenOver(s, req, next);
    TakenOverSort(s, req, next, limit);
    LatterIs(x.sort, next);
    var n := if x.next == Some(next) then Latter(x.sort, next) else x.next;
    if n.Some? {
      HasLeft(x.sort, next, n.value);
    }
  }

  lemma TakenOverKept(s: Side, req: Rq, next: Rq, limit: int)
    requires SideInv(s, limit) && Has(s.sort, req) && Has(s.sort, next) && req != next
    ensures var x := TakenOver(s, req, next);
            SideInv(Side(Without(x.sort, next), x.fifo, if x.next == Some(next) then Latter(x.sort, next) else x.next), limit)
  {
    var x := TakenOver(s, req, next);
    TakenOverSort(s, req, next, limit);
    TakenOverFifo(s, req, next, limit);
    TakenOverNext(s, req, next, limit);
    WithoutIs(x.sort, next);
    WithoutSorted(x.sort, next, limit);
    Exchange(multiset(s.sort), req, next, req.(expire := next.expire));
  }

  lemma Exchange(m: multiset<Rq>, a: Rq, b: Rq, c: Rq)
    requires m[b] > 0 && a != b
    ensures m - multiset{a} + multiset{c} - multiset{b} == m - multiset{a} - multiset{b} + multiset{c}
  {
  }

  /** The request found is queued; none of the BUG_ONs on an empty tree can fire. */
  lemma DecisionQueued(t: Tunables, q: Queue, now: int)
    requires Inv(t, q, now)
    ensures var d := Decide(t, q, now); !d.Idle? ==> Has(Of(q, d.write).sort, d.rq)
    ensures Decide(t, q, now).Idle? <==> q.read.sort == [] && q.write.sort == []
  {
    BothEmpty(q.read, now + t.readExpire);
    BothEmpty(q.write, now + t.writeExpire);
  }

  lemma BothEmpty(s: Side, limit: int)
    requires SideInv(s, limit)
    ensures s.fifo == [] <==> s.sort == []
    ensures s.fifo != [] ==> Has(s.sort, s.fifo[0])
  {
    assert |multiset(s.fifo)| == |s.fifo| && |multiset(s.sort)| == |s.sort|;
  }

  lemma DispatchKept(t: Tunables, q: Queue, now: int)
    requires Inv(t, q, now)
    ensures Inv(t, Dispatch(t, q, now), now)
  {
    DecisionQueued(t, q, now);
    match Decide(t, q, now) {
      case Idle =>
      case Batch(write, r) => MoveKept(t, q.(batching := q.batching + 1), write, r, now);
      case Find(write, r, starved) => MoveKept(t, q.(batching := 1, starved := starved), write, r, now);
    }
  }

  /** The head of a fifo expires first. */
  lemma HeadFirst(t: Tunables, q: Queue, now: int, write: bool, r: Rq)
    requires Inv(t, q, now) && Has(Of(q, write).sort, r)
    ensures Of(q, write).fifo != [] && Of(q, write).fifo[0].expire <= r.expire
  {
    var i := HasAt(Of(q, write).fifo, r);
  }

  /** What is chosen: while a batch may go on, the next request in sector order; else
      writes if there are no reads or they have been passed over often enough, and in
      the direction chosen the earliest to expire if it is overdue or there is no next. */
  lemma DecisionMeans(t: Tunables, q: Queue, now: int)
    requires Inv(t, q, now)
    ensures var d, batching := Decide(t, q, now), q.batching < t.fifoBatch && (q.write.next.Some? || q.read.next.Some?);
            && (d.Batch? <==> batching)
            && (d.Batch? ==> Of(q, d.write).next == Some(d.rq))
            && (d.Find? ==>
                  && (d.write <==> q.write.sort != [] && (q.read.sort == [] || q.starved >= t.writesStarved))
                  && Found(Of(q, d.write), now, d.rq)
                  && d.starved == (if d.write then 0 else if q.write.sort == [] then q.starved else q.starved + 1))
  {
    BothEmpty(q.read, now + t.readExpire);
    BothEmpty(q.write, now + t.writeExpire);
    if q.read.fifo != [] {
      FindMeans(q.read, now, now + t.readExpire);
    }
    if q.write.fifo != [] {
      FindMeans(q.write, now, now + t.writeExpire);
    }
  }

  /** The request a direction offers: one that expires first if it is overdue, or if
      there is no next one; else the next one. */
  ghost predicate Found(s: Side, now: int, rq: Rq) {
    && (s.next.Some? && (forall r :: Has(s.sort, r) ==> r.expire >= now) ==> Some(rq) == s.next)
    && (s.next.None? || (exists r :: Has(s.sort, r) && r.expire < now) ==> forall r :: Has(s.sort, r) ==> rq.expire <= r.expire)
  }

  lemma FindMeans(s: Side, now: int, limit: int)
    requires SideInv(s, limit) && s.fifo != []
    ensures Found(s, now, FindRequest(s, now))
  {
    BothEmpty(s, limit);
    forall r | Has(s.sort, r)
      ensures s.fifo[0].expire <= r.expire
    {
      var i := HasAt(s.fifo, r);
    }
  }

  /** After a dispatch the next request of that direction is the one with the lowest
      sector above, and none is next in the other direction. */
  lemma MoveNext(t: Tunables, q: Queue, write: bool, r: Rq, now: int)
    requires Inv(t, q, now) && Has(Of(q, write).sort, r)
    ensures var x := MoveRequest(q, write, r);
            && Of(x, !write).next == None && x.dispatched == q.dispatched + [r]
            && NextAbove(Of(q, write).sort, r, Of(x, write).next)
  {
    MoveIs(q, write, r);
    AboveIs(Of(q, write).sort, r);
    NextStays(Of(q, write), r);
  }

  /** The request with the lowest sector above, if there is one above. */
  ghost predicate NextAbove(l: seq<Rq>, r: Rq, n: Option<Rq>) {
    && (n.Some? ==> Has(l, n.value) && r.sector < n.value.sector)
    && (forall v :: Has(l, v) && v.sector > r.sector ==> n.Some? && n.value.sector <= v.sector)
  }

  lemma AboveIs(l: seq<Rq>, r: Rq)
    requires Sorted(l) && Has(l, r)
    ensures NextAbove(l, r, Latter(l, r))
  {
    LatterIs(l, r);
    forall v | Has(l, v) && v.sector > r.sector
      ensures Latter(l, r).Some? && Latter(l, r).value.sector <= v.sector
    {
      var i := HasAt(l, v);
    }
  }

  lemma NextStays(s: Side, r: Rq)
    requires Sorted(s.sort) && Has(s.sort, r)
    ensures RemoveRequest(s.(next := Latter(s.sort, r)), r).next == Latter(s.sort, r)
  {
    LatterIs(s.sort, r);
  }

  // ----- runs ---------------------------------------------------------------

  /** What happens to the scheduler; a dispatch is told the time. */
  datatype Event = AddEvent(write: bool, id: nat, sector: nat, now: int)
                 | FrontMerge(write: bool, rq: Rq, sector: nat)
                 | MergeRequests(write: bool, req: Rq, next: Rq)
                 | DispatchEvent(now: int)

  /** The requests an event speaks of are queued. */
  ghost predicate Allowed(q: Queue, e: Event) {
    match e
    case FrontMerge(write, r, _) => Has(Of(q, write).sort, r)
    case MergeRequests(write, req, next) => Has(Of(q, write).sort, req) && Has(Of(q, write).sort, next) && req != next
    case _ => true
  }

  function Time(e: Event, before: int): int { if e.AddEvent? || e.DispatchEvent? then e.now else before }

  function Step(t: Tunables, q: Queue, e: Event): Queue {
    match e
    case AddEvent(write, id, sector, now) => Add(t, q, write, id, sector, now)
    case FrontMerge(write, r, sector) => FrontMerged(q, write, r, sector)
    case MergeRequests(write, req, next) => MergedRequests(q, write, req, next)
    case DispatchEvent(now) => Dispatch(t, q, now)
  }

  lemma StepKept(t: Tunables, q: Queue, e: Event, before: int)
    requires Inv(t, q, before) && Allowed(q, e) && before <= Time(e, before)
    ensures Inv(t, Step(t, q, e), Time(e, before))
  {
    TimePasses(t, q, before, Time(e, before));
    match e {
      case AddEvent(write, id, sector, now) => AddKept(t, q, write, id, sector, now);
      case FrontMerge(write, r, sector) => FrontMergedKept(t, q, write, r, sector, before);
      case MergeRequests(write, req, next) => MergedRequestsKept(t, q, write, req, next, before);
      case DispatchEvent(now) => DispatchKept(t, q, now);
    }
  }

  function Bit(b: bool): nat { if b then 1 else 0 }

  /** How many requests of a list have this name. */
  function Times(l: seq<Rq>, x: nat): nat { if l == [] then 0 else Bit(l[0].id == x) + Times(l[1..], x) }

  /** How many are queued or dispatched. */
  function Held(q: Queue, x: nat): nat { Times(q.read.sort, x) + Times(q.write.sort, x) + Times(q.dispatched, x) }

  lemma {:induction false} WithoutTimes(l: seq<Rq>, r: Rq, x: nat)
    requires Has(l, r)
    ensures Times(l, x) == Times(Without(l, r), x) + Bit(r.id == x)
  {
    First(l);
    if l[0] != r {
      WithoutTimes(l[1..], r, x);
    }
  }

  lemma {:induction false} ReplacedTimes(l: seq<Rq>, r: Rq, r': Rq, x: nat)
    requires r'.id == r.id
    ensures Times(Replaced(l, r, r'), x) == Times(l, x)
  {
    if l != [] && l[0] != r {
      ReplacedTimes(l[1..], r, r', x);
    }
  }

  lemma {:induction false} InsertTimes(l: seq<Rq>, r: Rq, x: nat)
    ensures Times(Insert(l, r), x) == Times(l, x) + Bit(r.id == x)
  {
    if l != [] && r.sector >= l[0].sector {
      InsertTimes(l[1..], r, x);
    } else {
      assert ([r] + l)[1..] == l;
    }
  }

  lemma {:induction false} SnocTimes(l: seq<Rq>, r: Rq, x: nat)
    ensures Times(l + [r], x) == Times(l, x) + Bit(r.id == x)
  {
    if l == [] {
      assert l + [r] == [r] && [r][1..] == [];
    } else {
      assert (l + [r])[1..] == l[1..] + [r];
      SnocTimes(l[1..], r, x);
    }
  }

  lemma MoveHeld(q: Queue, write: bool, r: Rq, x: nat)
    requires Has(Of(q, write).sort, r)
    ensures Held(MoveRequest(q, write, r), x) == Held(q, x)
  {
    WithoutTimes(Of(q, write).sort, r, x);
    SnocTimes(q.dispatched, r, x);
  }

  lemma AddRbHeld(q: Queue, write: bool, r: Rq, x: nat)
    ensures Held(AddRb(q, write, r), x) == Held(q, x) + Bit(r.id == x)
    ensures q.dispatched <= AddRb(q, write, r).dispatched
  {
    var alias := At(Of(q, write).sort, r.sector);
    if alias.Some? {
      AtIs(Of(q, write).sort, r.sector);
      MoveHeld(q, write, alias.value, x);
    }
    InsertTimes(Of(if alias.Some? then MoveRequest(q, write, alias.value) else q, write).sort, r, x);
  }

  lemma MergedHeld(q: Queue, write: bool, req: Rq, next: Rq, limit: int, x: nat)
    requires SideInv(Of(q, write), limit) && Has(Of(q, write).sort, req) && Has(Of(q, write).sort, next) && req != next
    ensures Held(q, x) == Held(MergedRequests(q, write, req, next), x) + Bit(next.id == x)
    ensures MergedRequests(q, write, req, next).dispatched == q.dispatched
  {
    var s := Of(q, write);
    if next.expire < req.expire {
      TakenOverSort(s, req, next, limit);
      ReplacedTimes(s.sort, req, req.(expire := next.expire), x);
      WithoutTimes(TakenOver(s, req, next).sort, next, x);
    } else {
      WithoutTimes(s.sort, next, x);
    }
  }

  /** What an event brings, and what it takes away. */
  function Added(e: Event, x: nat): nat { Bit(e.AddEvent? && e.id == x) }
  function Gone(e: Event, x: nat): nat { Bit(e.MergeRequests? && e.next.id == x) }

  /** No request is lost, doubled or exchanged for another: only those added come in and
      only those merged away go, and what has been dispatched stays so, in order. */
  lemma StepHeld(t: Tunables, q: Queue, e: Event, before: int, x: nat)
    requires Inv(t, q, before) && Allowed(q, e) && before <= Time(e, before)
    ensures Held(Step(t, q, e), x) + Gone(e, x) == Held(q, x) + Added(e, x)
    ensures q.dispatched <= Step(t, q, e).dispatched
  {
    match e {
      case AddEvent(write, id, sector, now) => AddHeld(t, q, write, id, sector, now, x);
      case FrontMerge(write, r, sector) => FrontMergedHeld(q, write, r, sector, x);
      case MergeRequests(write, req, next) => MergedHeldAt(t, q, write, req, next, before, x);
      case DispatchEvent(now) => DispatchHeldAt(t, q, before, now, x);
    }
  }

  lemma MergedHeldAt(t: Tunables, q: Queue, write: bool, req: Rq, next: Rq, now: int, x: nat)
    requires Inv(t, q, now) && Has(Of(q, write).sort, req) && Has(Of(q, write).sort, next) && req != next
    ensures Held(q, x) == Held(MergedRequests(q, write, req, next), x) + Bit(next.id == x)
    ensures MergedRequests(q, write, req, next).dispatched == q.dispatched
  {
    MergedHeld(q, write, req, next, now + Expire(t, write), x);
  }

  lemma DispatchHeldAt(t: Tunables, q: Queue, before: int, now: int, x: nat)
    requires Inv(t, q, before) && before <= now
    ensures Held(Dispatch(t, q, now), x) == Held(q, x) && q.dispatched <= Dispatch(t, q, now).dispatched
  {
    TimePasses(t, q, before, now);
    DispatchHeld(t, q, now, x);
  }

  lemma AddHeld(t: Tunables, q: Queue, write: bool, id: nat, sector: nat, now: int, x: nat)
    ensures Held(Add(t, q, write, id, sector, now), x) == Held(q, x) + Bit(id == x)
    ensures q.dispatched <= Add(t, q, write, id, sector, now).dispatched
  {
    AddRbHeld(q, write, Rq(id, sector, now + Expire(t, write)), x);
  }

  lemma FrontMergedHeld(q: Queue, write: bool, r: Rq, sector: nat, x: nat)
    requires Has(Of(q, write).sort, r)
    ensures Held(FrontMerged(q, write, r, sector), x) == Held(q, x)
    ensures q.dispatched <= FrontMerged(q, write, r, sector).dispatched
  {
    var s, r' := Of(q, write), r.(sector := sector);
    WithoutTimes(s.sort, r, x);
    AddRbHeld(With(q, write, Renamed(s, r, r').(sort := Without(s.sort, r))), write, r', x);
  }

  lemma DispatchHeld(t: Tunables, q: Queue, now: int, x: nat)
    requires Inv(t, q, now)
    ensures Held(Dispatch(t, q, now), x) == Held(q, x) && q.dispatched <= Dispatch(t, q, now).dispatched
  {
    DecisionQueued(t, q, now);
    match Decide(t, q, now) {
      case Idle =>
      case Batch(write, r) => MoveHeld(q.(batching := q.batching + 1), write, r, x);
      case Find(write, r, starved) => MoveHeld(q.(batching := 1, starved := starved), write, r, x);
    }
  }

  /** The queue after each event, the first being the start. */
  ghost predicate Runs(t: Tunables, qs: seq<Queue>, es: seq<Event>, start: int) {
    |qs| == |es| + 1 && forall i :: 0 <= i < |es| ==> StepsAt(t, qs, es, start, i)
  }

  ghost predicate StepsAt(t: Tunables, qs: seq<Queue>, es: seq<Event>, start: int, i: nat)
    requires |qs| == |es| + 1 && i < |es|
  {
    Allowed(qs[i], es[i]) && qs[i + 1] == Step(t, qs[i], es[i]) && TimeAt(es, i, start) <= TimeAt(es, i + 1, start)
  }

  /** The time told last. */
  function TimeAt(es: seq<Event>, i: nat, start: int): int
    requires i <= |es|
  {
    if i == 0 then start else Time(es[i - 1], TimeAt(es, i - 1, start))
  }

  /** Twin lists, distinct sectors, a queued next request and a fifo by expiry, always. */
  lemma {:induction false} RunKept(t: Tunables, qs: seq<Queue>, es: seq<Event>, start: int, n: nat)
    requires Runs(t, qs, es, start) && n <= |es| && Inv(t, qs[0], start)
    ensures Inv(t, qs[n], TimeAt(es, n, start))
  {
    if n > 0 {
      RunKept(t, qs, es, start, n - 1);
      assert StepsAt(t, qs, es, start, n - 1);
      StepKept(t, qs[n - 1], es[n - 1], TimeAt(es, n - 1, start));
    }
  }

  function AllAdded(es: seq<Event>, n: nat, x: nat): nat
    requires n <= |es|
  {
    if n == 0 then 0 else AllAdded(es, n - 1, x) + Added(es[n - 1], x)
  }

  function AllGone(es: seq<Event>, n: nat, x: nat): nat
    requires n <= |es|
  {
    if n == 0 then 0 else AllGone(es, n - 1, x) + Gone(es[n - 1], x)
  }

  /** Over every run: what was there or came in is queued or dispatched, except what was
      merged away, each as often; and nothing dispatched comes back. */
  lemma {:induction false} RunHeld(t: Tunables, qs: seq<Queue>, es: seq<Event>, start: int, n: nat, x: nat)
    requires Runs(t, qs, es, start) && n <= |es| && Inv(t, qs[0], start)
    ensures Held(qs[n], x) + AllGone(es, n, x) == Held(qs[0], x) + AllAdded(es, n, x)
    ensures qs[0].dispatched <= qs[n].dispatched
  {
    if n > 0 {
      RunHeld(t, qs, es, start, n - 1, x);
      RunKept(t, qs, es, start, n - 1);
      assert StepsAt(t, qs, es, start, n - 1);
      StepHeld(t, qs[n - 1], es[n - 1], TimeAt(es, n - 1, start), x);
    }
  }

  // ----- reads starve writes only so long -----------------------------------

  function Positive(x: int): nat { if x < 0 then 0 else x }

  /** How many more reads may be dispatched while a write waits. */
  function Patience(t: Tunables, q: Queue): nat {
    Positive(t.fifoBatch - q.batching) + Positive(t.writesStarved - q.starved) * (if t.fifoBatch == 0 then 1 else t.fifoBatch)
  }

  /** A call that takes a read although a write is queued. */
  predicate ReadOverWrite(t: Tunables, q: Queue, e: Event) {
    e.DispatchEvent? && q.write.fifo != [] && var d := Decide(t, q, e.now); !d.Idle? && !d.write
  }

  lemma MoveCounters(q: Queue, write: bool, r: Rq)
    ensures var m := MoveRequest(q, write, r); m.batching == q.batching && m.starved == q.starved
  {
  }

  lemma RoundsLeft(n: nat, b: nat)
    requires n > 0
    ensures n * b == (n - 1) * b + b
  {
  }

  lemma PatienceFalls(t: Tunables, q: Queue, e: Event)
    requires ReadOverWrite(t, q, e)
    ensures Patience(t, Step(t, q, e)) < Patience(t, q)
  {
    var b := if t.fifoBatch == 0 then 1 else t.fifoBatch;
    match Decide(t, q, e.now) {
      case Idle =>
      case Batch(write, r) => MoveCounters(q.(batching := q.batching + 1), write, r);
      case Find(write, r, starved) =>
        MoveCounters(q.(batching := 1, starved := starved), write, r);
        RoundsLeft(t.writesStarved - q.starved, b);
    }
  }

  /** Adding and merging leave the counters alone, whatever is dispatched for them. */
  lemma PatienceStays(t: Tunables, q: Queue, e: Event)
    requires !e.DispatchEvent?
    ensures Patience(t, Step(t, q, e)) == Patience(t, q)
  {
  }

  /** How many reads deadline_dispatch_requests takes in a run. */
  function Reads(t: Tunables, qs: seq<Queue>, es: seq<Event>, n: nat): nat
    requires n <= |es| < |qs|
  {
    if n == 0 then 0
    else Reads(t, qs, es, n - 1) + if es[n - 1].DispatchEvent? then 1 else 0
  }

  /** Every call of the run takes a read although a write is queued. */
  ghost predicate Unbroken(t: Tunables, qs: seq<Queue>, es: seq<Event>) {
    |qs| > |es| && forall i :: 0 <= i < |es| && es[i].DispatchEvent? ==> ReadOverWrite(t, qs[i], es[i])
  }

  lemma {:induction false} PatienceSpent(t: Tunables, qs: seq<Queue>, es: seq<Event>, start: int, n: nat)
    requires Runs(t, qs, es, start) && Unbroken(t, qs, es) && n <= |es|
    ensures Reads(t, qs, es, n) + Patience(t, qs[n]) <= Patience(t, qs[0])
  {
    if n > 0 {
      PatienceSpent(t, qs, es, start, n - 1);
      assert StepsAt(t, qs, es, start, n - 1);
      if es[n - 1].DispatchEvent? {
        PatienceFalls(t, qs[n - 1], es[n - 1]);
      } else {
        PatienceStays(t, qs[n - 1], es[n - 1]);
      }
    }
  }

  /** While a write stays queued an unbroken run of reads is no longer than
      writes_starved * max(1, fifo_batch) + fifo_batch, whatever is added or merged. */
  lemma ReadsBounded(t: Tunables, qs: seq<Queue>, es: seq<Event>, start: int)
    requires Runs(t, qs, es, start) && Unbroken(t, qs, es)
    ensures Reads(t, qs, es, |es|) <= t.writesStarved * (if t.fifoBatch == 0 then 1 else t.fifoBatch) + t.fifoBatch
  {
    PatienceSpent(t, qs, es, start, |es|);
    Bounded(Positive(t.writesStarved - qs[0].starved), t.writesStarved, if t.fifoBatch == 0 then 1 else t.fifoBatch);
  }

  lemma Bounded(a: nat, n: nat, b: nat)
    requires a <= n
    ensures a * b <= n * b
  {
  }

  // ----- the object ---------------------------------------------------------

  /** struct deadline_data */
  class DeadlineData {
    const t: Tunables
    var read: Side
    var write: Side
    var batching: nat
    var starved: nat
    var dispatched: seq<Rq>    // what elv_dispatch_add_tail was given

    function View(): Queue
      reads this
    {
      Queue(read, write, batching, starved, dispatched)
    }

    constructor (t: Tunables)
      ensures View() == Queue(Side([], [], None), Side([], [], None), 0, 0, []) && this.t == t
    {
      this.t := t;
      read, write, batching, starved, dispatched := Side([], [], None), Side([], [], None), 0, 0, [];
    }

    method Put(dir: bool, s: Side)
      modifies this`read, this`write
      ensures View() == With(old(View()), dir, s)
    {
      if dir {
        write := s;
      } else {
        read := s;
      }
    }

    /** deadline_move_request */
    method Move(dir: bool, r: Rq)
      modifies this`read, this`write, this`dispatched
      ensures View() == MoveRequest(old(View()), dir, r)
    {
      var s := if dir then write else read;
      read := read.(next := None);
      write := write.(next := None);
      Put(dir, RemoveRequest(s.(next := Latter(s.sort, r)), r));
      dispatched := dispatched + [r];
    }

    /** deadline_add_rq_rb; the loop runs once at most. */
    method AddRqRb(dir: bool, r: Rq)
      requires Sorted(Of(View(), dir).sort)
      modifies this`read, this`write, this`dispatched
      ensures View() == AddRb(old(View()), dir, r)
    {
      var s := if dir then write else read;
      var alias := At(s.sort, r.sector);
      if alias.Some? {
        AliasOnly(s.sort, r.sector);
      }
      while alias.Some?
        invariant s == Of(View(), dir)
        invariant alias.Some? ==> View() == old(View()) && alias == At(Of(old(View()), dir).sort, r.sector)
        invariant alias.Some? ==> At(Without(Of(old(View()), dir).sort, alias.value), r.sector).None?
        invariant alias.None? ==> AddRb(old(View()), dir, r) == With(View(), dir, Of(View(), dir).(sort := Insert(Of(View(), dir).sort, r)))
        decreases alias.Some?
      {
        Move(dir, alias.value);
        s := if dir then write else read;
        alias := At(s.sort, r.sector);
      }
      Put(dir, s.(sort := Insert(s.sort, r)));
    }

    /** deadline_add_request */
    method AddRequest(dir: bool, id: nat, sector: nat, now: int)
      requires Inv(t, View(), now)
      modifies this`read, this`write, this`dispatched
      ensures View() == Add(t, old(View()), dir, id, sector, now) && Inv(t, View(), now)
    {
      AddKept(t, View(), dir, id, sector, now);
      var r := Rq(id, sector, now + if dir then t.writeExpire else t.readExpire);
      AddRqRb(dir, r);
      var s := if dir then write else read;
      Put(dir, s.(fifo := s.fifo + [r]));
    }

    /** deadline_merged_request after a front merge */
    method MergedRequest(dir: bool, r: Rq, sector: nat, ghost now: int)
      requires Inv(t, View(), now) && Has(Of(View(), dir).sort, r)
      modifies this`read, this`write, this`dispatched
      ensures View() == FrontMerged(old(View()), dir, r, sector) && Inv(t, View(), now)
    {
      FrontMergedKept(t, View(), dir, r, sector, now);
      var s := if dir then write else read;
      var r' := r.(sector := sector);
      WithoutSorted(s.sort, r, 0);
      Put(dir, Side(Without(s.sort, r), Replaced(s.fifo, r, r'), if s.next == Some(r) then Some(r') else s.next));
      AddRqRb(dir, r');
    }

    /** deadline_merged_requests */
    method MergeNext(dir: bool, req: Rq, next: Rq, ghost now: int)
      requires Inv(t, View(), now) && Has(Of(View(), dir).sort, req) && Has(Of(View(), dir).sort, next) && req != next
      modifies this`read, this`write
      ensures View() == MergedRequests(old(View()), dir, req, next) && Inv(t, View(), now)
    {
      MergedRequestsKept(t, View(), dir, req, next, now);
      var s := if dir then write else read;
      if next.expire < req.expire {
        var req' := req.(expire := next.expire);
        s := Side(Replaced(s.sort, req, req'), Replaced(Without(s.fifo, req), next, req'),
                  if s.next == Some(req) then Some(req') else s.next);
        var n := if s.next == Some(next) then Latter(s.sort, next) else s.next;
        Put(dir, Side(Without(s.sort, next), s.fifo, n));
      } else {
        Put(dir, RemoveRequest(s, next));
      }
    }

    /** The part of deadline_dispatch_requests up to dispatch_request: what is chosen, the
        counters being set. */
    method Select(now: int) returns (d: Decision)
      modifies this`batching, this`starved
      ensures d == Decide(t, old(View()), now)
      ensures read == old(read) && write == old(write) && dispatched == old(dispatched)
      ensures batching == (if d.Find? then 0 else old(batching)) && starved == (if d.Find? then d.starved else old(starved))
    {
      var rq := if write.next.Some? then write.next else read.next;
      if rq.Some? && batching < t.fifoBatch {
        return Batch(write.next.Some?, rq.value);
      }
      var dir := false;
      if read.fifo != [] {
        if write.fifo != [] {
          if starved >= t.writesStarved {
            dir, starved := true, 0;
          } else {
            starved := starved + 1;
          }
        }
      } else if write.fifo != [] {
        dir, starved := true, 0;
      } else {
        return Idle;
      }
      var s := if dir then write else read;
      d := Find(dir, if now > s.fifo[0].expire || s.next.None? then s.fifo[0] else s.next.value, starved);
      batching := 0;
    }

    /** deadline_dispatch_requests; the result says whether a request was moved. */
    method DispatchRequests(now: int) returns (moved: bool)
      requires Inv(t, View(), now)
      modifies this
      ensures View() == Dispatch(t, old(View()), now) && Inv(t, View(), now)
      ensures moved <==> !Decide(t, old(View()), now).Idle?
    {
      DispatchKept(t, View(), now);
      var d := Select(now);
      moved := !d.Idle?;
      if moved {
        batching := batching + 1;
        Move(d.write, d.rq);
      }
    }
  }

  lemma AliasOnly(l: seq<Rq>, sector: nat)
    requires Sorted(l) && At(l, sector).Some?
    ensures At(Without(l, At(l, sector).value), sector).None?
  {
    AtIs(l, sector);
    AliasGone(l, At(l, sector).value, sector);
  }
}
