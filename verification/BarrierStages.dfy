/**
 What every run keeps, whatever the mode and whatever the callers insert: each
 request is in exactly one place, each stage of a sequence is completed once,
 the original barrier is ended once and with the first error reported.
 */
module BarrierStages {
  import opened BarrierModel

  function Bit(b: bool): nat { if b then 1 else 0 }

  /** The request is the barrier whose sequence is running. */
  predicate Held(s: State, x: nat) { s.ordseq != IDLE && x == s.orig }

  /** In how many places a request is: queued, with the driver, with the
      elevator, ended, or held as the running barrier. */
  ghost function Count(s: State, x: nat): nat {
    CountIn(s.queue, s.flight, s.sorted, s.ended.Keys, s.ordseq != IDLE, s.orig, x)
  }

  ghost function CountIn(q: seq<Item>, flight: set<Item>, sorted: set<nat>, ended: set<nat>,
                         running: bool, orig: nat, x: nat): nat {
    multiset(q)[Norm(x)] + Bit(Norm(x) in flight) + Bit(x in sorted) + Bit(x in ended) + Bit(running && x == orig)
  }

  /** Every request that has arrived is in exactly one place. */
  ghost predicate Places(s: State) {
    forall x: nat :: Count(s, x) == Bit(x < |s.reqs|)
  }

  ghost function ProxyCount(s: State, it: Item): nat {
    multiset(s.queue)[it] + Bit(it in s.flight)
  }

  /** A proxy exists, once, exactly while its stage is required and not completed. */
  ghost predicate Proxies(s: State, o: OrdSeq) {
    && ProxyCount(s, Pre) == Bit(s.ordseq != IDLE && s.ordered.doPre && !o.pre)
    && ProxyCount(s, Bar) == Bit(s.ordseq != IDLE && s.ordered.doBar && !o.bar)
    && ProxyCount(s, Post) == Bit(s.ordseq != IDLE && s.ordered.doPost && !o.post)
  }

  /** What the stage machine needs of a mode blk_queue_ordered accepts. */
  predicate ModeOk(m: Mode) {
    m == NONE || (m.byDrain != m.byTag && m.doBar)
  }

  /** Stages that are not required count as completed from the start. */
  predicate StageBits(s: State, o: OrdSeq) {
    && o.started
    && (!s.ordered.doPre ==> o.pre)
    && (!s.ordered.doBar ==> o.bar)
    && (!s.ordered.doPost ==> o.post)
    && (!s.ordered.byDrain ==> o.drain)
    && (s.ordered.byDrain <==> !s.ordered.byTag)
    && s.orig < |s.reqs|
    && s.ordered == Masked(s.mode, s.reqs[s.orig].sectors == 0)
  }

  /** The first error that is not zero, or zero. */
  function FirstError(errs: seq<int>): int {
    if errs == [] then 0 else if errs[0] != 0 then errs[0] else FirstError(errs[1..])
  }

  lemma {:induction false} FirstErrorSnoc(errs: seq<int>, e: int)
    ensures FirstError(errs + [e]) == Record(FirstError(errs), e)
  {
    if errs == [] {
      assert errs + [e] == [e];
      assert FirstError([e][1..]) == 0;
    } else {
      assert (errs + [e])[1..] == errs[1..] + [e];
      FirstErrorSnoc(errs[1..], e);
    }
  }

  /** 1 << ffz(w): the lowest bit of the word that is not set. */
  function LowestZero(w: bv8): bv8 { (w + 1) & !w }

  /** On the stored word, blk_ordered_cur_seq is the shift the code computes. */
  lemma CurSeqOnWord(o: OrdSeq)
    ensures o != IDLE <==> o.Word() != 0
    ensures o != IDLE ==>
              LowestZero(o.Word()) == match CurSeq(o) { case 1 => 0x01 case 2 => 0x02 case 4 => 0x04 case 8 => 0x08 case 16 => 0x10 case _ => 0x20 }
  {
    match o {
      case OrdSeq(a, b, c, d, e) =>
        if a { if b { if c { if d { } } } }
    }
  }

  ghost function CountedFlight(s: State): set<Item> {
    set it | it in s.flight && Accounted(s, it)
  }

  ghost predicate Counts(s: State) {
    && s.flight <= s.started
    && s.inFlight == |CountedFlight(s)|
         + (if s.ordseq != IDLE && Norm(s.orig) in s.started && Accounted(s, Norm(s.orig)) then 1 else 0)
  }

  /** The done-histories speak only of barriers whose sequence has begun. */
  ghost predicate Histories(s: State, o: OrdSeq) {
    && (forall x :: x in s.preDone || x in s.barDone || x in s.postDone ==> x in s.ended || Held(s, x))
    && (s.ordseq != IDLE ==>
          && (s.orig in s.preDone <==> s.ordered.doPre && o.pre)
          && (s.orig in s.barDone <==> s.ordered.doBar && o.bar)
          && (s.orig in s.postDone <==> s.ordered.doPost && o.post))
  }

  /** No proxy is with the driver before the drain stage is over. */
  ghost predicate DrainFirst(s: State) {
    forall it :: it in s.flight && !it.Norm? ==> s.ordseq.drain
  }

  ghost predicate StageInv(s: State) {
    && DrainFirst(s)
    && ModeOk(s.mode)
    && Places(s)
    && Proxies(s, s.ordseq)
    && (s.ordseq != IDLE ==> StageBits(s, s.ordseq) && CurSeq(s.ordseq) != STAGE_DONE)
    && Counts(s)
    && Histories(s, s.ordseq)
    && s.orderr == FirstError(s.reported)
    && !s.bug
  }

  lemma InitStage(m: Mode)
    requires ValidMode(m)
    ensures StageInv(Init(m))
  {
    assert CountedFlight(Init(m)) == {};
  }

  // ----- counting -----------------------------------------------------------

  lemma CountAdded(s: State, t: State, it: Item)
    requires it !in s.flight && t.flight == s.flight + {it} && t.reqs == s.reqs
    ensures |CountedFlight(t)| == |CountedFlight(s)| + (if Accounted(s, it) then 1 else 0)
  {
    if Accounted(s, it) {
      assert CountedFlight(t) == CountedFlight(s) + {it};
    } else {
      assert CountedFlight(t) == CountedFlight(s);
    }
  }

  lemma CountRemoved(s: State, t: State, it: Item)
    requires it in s.flight && t.flight == s.flight - {it} && t.reqs == s.reqs
    ensures |CountedFlight(t)| == |CountedFlight(s)| - (if Accounted(s, it) then 1 else 0)
  {
    CountAdded(t, s, it);
    assert t.flight + {it} == s.flight;
  }

  /** What is in flight has arrived, so later arrivals do not change its flags. */
  lemma InFlightArrived(s: State, x: nat)
    requires Places(s) && Norm(x) in s.flight
    ensures x < |s.reqs|
  {
    assert Count(s, x) >= 1;
  }

  lemma CountKept(s: State, t: State)
    requires t.flight == s.flight && s.reqs <= t.reqs && Places(s)
    ensures CountedFlight(t) == CountedFlight(s)
  {
    forall it | it in s.flight
      ensures Accounted(t, it) == Accounted(s, it)
    {
      if it.Norm? { InFlightArrived(s, it.id); }
    }
  }

  lemma PlacesKept(s: State, t: State)
    requires Places(s)
    requires |t.reqs| == |s.reqs|
    requires forall x: nat :: Count(t, x) == Count(s, x)
    ensures Places(t)
  {
    forall x: nat
      ensures Count(t, x) == Bit(x < |t.reqs|)
    {
      assert Count(s, x) == Bit(x < |s.reqs|);
    }
  }

  // ----- completing a stage -------------------------------------------------

  /** Everything but the stage that is being completed is in order. */
  ghost predicate Completing(s: State, mask: OrdSeq) {
    && ModeOk(s.mode)
    && s.ordseq != IDLE
    && !s.ordseq.Overlaps(mask)
    && DrainFirst(s)
    && Places(s)
    && Proxies(s, s.ordseq.Or(mask))
    && StageBits(s, s.ordseq.Or(mask))
    && Counts(s)
    && Histories(s, s.ordseq.Or(mask))
    && s.orderr == FirstError(s.reported)
    && !s.bug
  }

  lemma CompleteSeqStage(s: State, mask: OrdSeq, err: int)
    requires Completing(s, mask)
    ensures StageInv(CompleteSeq(s, mask, err))
  {
    if CurSeq(s.ordseq.Or(mask)) == STAGE_DONE {
      SequenceOver(s, mask, err);
    } else {
      SequenceGoesOn(s, mask, err);
    }
  }

  lemma SequenceGoesOn(s: State, mask: OrdSeq, err: int)
    requires Completing(s, mask)
    requires CurSeq(s.ordseq.Or(mask)) != STAGE_DONE
    ensures StageInv(CompleteSeq(s, mask, err))
  {
    var t := CompleteSeq(s, mask, err);
    FirstErrorSnoc(s.reported, err);
    CountKept(s, t);
    assert forall x: nat :: Count(t, x) == Count(s, x);
    PlacesKept(s, t);
  }

  lemma SequenceOver(s: State, mask: OrdSeq, err: int)
    requires Completing(s, mask)
    requires CurSeq(s.ordseq.Or(mask)) == STAGE_DONE
    ensures StageInv(CompleteSeq(s, mask, err))
  {
    var t := CompleteSeq(s, mask, err);
    assert Count(s, s.orig) == 1;
    assert forall x: nat :: Count(t, x) == Count(s, x);
    PlacesKept(s, t);
    FirstErrorSnoc(s.reported, err);
    CountKept(s, t);
  }

  // ----- one lemma per operation --------------------------------------------

  lemma InsertBag(q: seq<Item>, at: nat, y: Item)
    requires at <= |q|
    ensures multiset(InsertAt(q, at, y)) == multiset(q) + multiset{y}
  {
    assert q == q[..at] + q[at..];
  }

  lemma HeadBag(q: seq<Item>)
    requires |q| > 0
    ensures multiset(q) == multiset{q[0]} + multiset(q[1..])
  {
    assert q == [q[0]] + q[1..];
  }

  lemma DispatchPlaces(s: State, c: Choice)
    requires c.id in s.sorted && c.at <= |s.queue|
    ensures var t := ElvDispatch(s, c);
            && (forall x: nat :: Count(t, x) == Count(s, x))
            && (forall it: Item :: !it.Norm? ==> ProxyCount(t, it) == ProxyCount(s, it))
  {
    InsertBag(s.queue, c.at, Norm(c.id));
  }

  lemma DispatchStage(s: State, c: Choice)
    requires StageInv(s) && MayDispatch(s, c)
    ensures StageInv(ElvDispatch(s, c))
  {
    DispatchPlaces(s, c);
    CountKept(s, ElvDispatch(s, c));
  }

  lemma {:induction false} DrainPlaces(s: State, plan: seq<Choice>)
    requires MayDrain(s, plan)
    ensures var t := Drain(s, plan);
            && t == s.(sorted := {}, queue := t.queue)
            && (forall x: nat :: Count(t, x) == Count(s, x))
            && (forall it: Item :: !it.Norm? ==> ProxyCount(t, it) == ProxyCount(s, it))
    decreases plan
  {
    if plan != [] {
      DispatchPlaces(s, plan[0]);
      DrainPlaces(ElvDispatch(s, plan[0]), plan[1..]);
    }
  }

  lemma QueuedMoves(s: State, t: State, at: nat, y: nat)
    requires at <= |s.queue| && t.queue == InsertAt(s.queue, at, Norm(y))
    requires t.flight == s.flight && t.sorted == s.sorted && t.ended == s.ended
    requires t.ordseq == s.ordseq && t.orig == s.orig
    ensures forall x: nat :: Count(t, x) == Count(s, x) + Bit(x == y)
    ensures forall it: Item :: !it.Norm? ==> ProxyCount(t, it) == ProxyCount(s, it)
  {
    InsertBag(s.queue, at, Norm(y));
  }

  /** The newly arrived request is put in one place; nothing else moves. */
  lemma AddMoves(s: State, r: Req, where: Where, plan: seq<Choice>)
    requires Enabled(s, Add(r, where, plan)) && Count(s, |s.reqs|) == 0
    ensures var t := AddRequest(s, r, where, plan);
            && (forall x: nat :: Count(t, x) == Count(s, x) + Bit(x == |s.reqs|))
            && (forall it: Item :: !it.Norm? ==> ProxyCount(t, it) == ProxyCount(s, it))
  {
    var y := |s.reqs|;
    var s1 := Arrive(s, r);
    var t := AddRequest(s, r, where, plan);
    assert forall x: nat :: Count(s1, x) == Count(s, x);
    match Placement(r, where) {
      case Front =>
        assert t.queue == InsertAt(s1.queue, 0, Norm(y));
        QueuedMoves(s1, t, 0, y);
      case Back =>
        BackMoves(s1, t, plan, y);
      case Sort =>
    }
  }

  lemma BackMoves(s1: State, t: State, plan: seq<Choice>, y: nat)
    requires MayDrain(s1, plan)
    requires var s2 := Drain(s1, plan); t == s2.(soft := s2.soft + {Norm(y)}, queue := s2.queue + [Norm(y)])
    ensures forall x: nat :: Count(t, x) == Count(s1, x) + Bit(x == y)
    ensures forall it: Item :: !it.Norm? ==> ProxyCount(t, it) == ProxyCount(s1, it)
  {
    DrainPlaces(s1, plan);
    var s2 := Drain(s1, plan);
    assert t.queue == InsertAt(s2.queue, |s2.queue|, Norm(y));
    QueuedMoves(s2, t, |s2.queue|, y);
  }

  lemma AddFrame(s: State, r: Req, where: Where, plan: seq<Choice>)
    requires Enabled(s, Add(r, where, plan))
    ensures var t := AddRequest(s, r, where, plan);
            t == s.(reqs := s.reqs + [r.(color := s.ordcolor)], ordcolor := t.ordcolor,
                    sorted := t.sorted, queue := t.queue, soft := t.soft)
  {
    if Placement(r, where) == Back { DrainPlaces(Arrive(s, r), plan); }
  }

  lemma AddPlaces(s: State, t: State)
    requires Places(s) && |t.reqs| == |s.reqs| + 1
    requires forall x: nat :: Count(t, x) == Count(s, x) + Bit(x == |s.reqs|)
    ensures Places(t)
  {
    forall x: nat
      ensures Count(t, x) == Bit(x < |t.reqs|)
    {
      assert Count(s, x) == Bit(x < |s.reqs|);
    }
  }

  lemma AddStage(s: State, r: Req, where: Where, plan: seq<Choice>)
    requires StageInv(s) && Enabled(s, Add(r, where, plan))
    ensures StageInv(AddRequest(s, r, where, plan))
  {
    assert Count(s, |s.reqs|) == 0;
    AddMoves(s, r, where, plan);
    AddFrame(s, r, where, plan);
    AddPlaces(s, AddRequest(s, r, where, plan));
    CountKept(s, AddRequest(s, r, where, plan));
  }

  lemma NotInFlight(s: State)
    requires StageInv(s) && |s.queue| > 0
    ensures s.queue[0] !in s.flight
  {
    var it := s.queue[0];
    HeadBag(s.queue);
    if it.Norm? { assert Count(s, it.id) <= 1; } else { assert ProxyCount(s, it) <= 1; }
  }

  lemma DequeuePlaces(s: State)
    requires Places(s) && |s.queue| > 0 && s.queue[0] !in s.flight
    ensures var t := Dequeue(s);
            && Places(t)
            && (forall p: Item :: !p.Norm? ==> ProxyCount(t, p) == ProxyCount(s, p))
  {
    var t := Dequeue(s);
    HeadBag(s.queue);
    assert forall x: nat :: Count(t, x) == Count(s, x);
    PlacesKept(s, t);
  }

  lemma DequeueStage(s: State)
    requires StageInv(s) && |s.queue| > 0 && s.queue[0] in s.started
    requires s.queue[0].Norm? || s.ordseq.drain
    ensures StageInv(Dequeue(s))
  {
    NotInFlight(s);
    DequeuePlaces(s);
    CountAdded(s, Dequeue(s), s.queue[0]);
  }

  lemma OnlyRequestsWhenIdle(s: State)
    requires StageInv(s) && s.ordseq == IDLE
    ensures forall it :: it in s.queue || it in s.flight ==> it.Norm?
  {
    assert ProxyCount(s, Pre) == ProxyCount(s, Bar) == ProxyCount(s, Post) == 0;
  }

  lemma ProxyBag(m: Mode)
    ensures multiset(ProxyList(m)) == multiset{}[Pre := Bit(m.doPre)][Bar := Bit(m.doBar)][Post := Bit(m.doPost)]
  {
    assert multiset(If(m.doPre, Pre)) == multiset{}[Pre := Bit(m.doPre)];
    assert multiset(If(m.doBar, Bar)) == multiset{}[Bar := Bit(m.doBar)];
    assert multiset(If(m.doPost, Post)) == multiset{}[Post := Bit(m.doPost)];
  }

  /** The state start_ordered has built before it completes the skipped stages. */
  function Begun(s: State): State
    requires |s.queue| > 0 && s.queue[0].Norm? && s.queue[0].id < |s.reqs|
  {
    var b := s.queue[0].id;
    var m := Masked(s.mode, s.reqs[b].sectors == 0);
    Account(s, Norm(b)).(
      orderr := 0, reported := [], ordered := m, ordseq := s.ordseq.(started := true), orig := b,
      queue := ProxyList(m) + s.queue[1..],
      started := s.started - {Pre, Bar, Post},
      soft := s.soft + {Pre, Bar, Post})
  }

  function Skipped(s: State): OrdSeq {
    OrdSeq(false, !(s.ordered.byDrain && s.inFlight != 0), !s.ordered.doPre, !s.ordered.doBar, !s.ordered.doPost)
  }

  lemma BegunPlaces(s: State)
    requires StageInv(s) && s.ordseq == IDLE
    requires |s.queue| > 0 && s.queue[0].Norm? && s.queue[0].id < |s.reqs|
    ensures Places(Begun(s))
  {
    var t := Begun(s);
    HeadBag(s.queue);
    ProxyBag(t.ordered);
    assert forall x: nat :: Count(t, x) == Count(s, x);
    PlacesKept(s, t);
  }

  lemma BegunProxies(s: State)
    requires StageInv(s) && s.ordseq == IDLE && s.mode != NONE
    requires |s.queue| > 0 && s.queue[0].Norm? && s.queue[0].id < |s.reqs|
    ensures Proxies(Begun(s), Skipped(Begun(s)))
  {
    HeadBag(s.queue);
    ProxyBag(Begun(s).ordered);
    OnlyRequestsWhenIdle(s);
    assert Pre !in s.queue && Bar !in s.queue && Post !in s.queue;
  }

  lemma BegunCounts(s: State)
    requires StageInv(s) && s.ordseq == IDLE
    requires |s.queue| > 0 && s.queue[0].Norm? && s.queue[0].id < |s.reqs|
    ensures Counts(Begun(s))
  {
    OnlyRequestsWhenIdle(s);
    CountKept(s, Begun(s));
  }

  lemma BegunCompleting(s: State)
    requires StageInv(s) && s.ordseq == IDLE && s.mode != NONE
    requires |s.queue| > 0 && s.queue[0].Norm? && s.queue[0].id < |s.reqs|
    ensures Completing(Begun(s), Skipped(Begun(s)))
  {
    BegunPlaces(s);
    BegunProxies(s);
    BegunCounts(s);
    OnlyRequestsWhenIdle(s);
    var t := Begun(s);
    HeadBag(s.queue);
    assert Count(s, t.orig) == 1;
    assert StageBits(t, t.ordseq.Or(Skipped(t)));
    assert Histories(t, t.ordseq.Or(Skipped(t)));
  }

  lemma StartedIs(s: State)
    requires s.ordseq == IDLE && |s.queue| > 0 && s.queue[0].Norm? && s.queue[0].id < |s.reqs|
    ensures StartOrdered(s) == CompleteSeq(Begun(s), Skipped(Begun(s)), 0)
    ensures StartOrdered(s).ordseq == IDLE ==> StartOrdered(s).queue == s.queue[1..]
  {
    if StartOrdered(s).ordseq == IDLE {
      assert ProxyList(Begun(s).ordered) == [];
    }
  }

  lemma StartedBarrier(s: State)
    requires StageInv(s) && s.ordseq == IDLE && s.mode != NONE
    requires |s.queue| > 0 && s.queue[0].Norm? && s.queue[0].id < |s.reqs|
    ensures StageInv(StartOrdered(s))
    ensures StartOrdered(s) == CompleteSeq(Begun(s), Skipped(Begun(s)), 0)
    ensures StartOrdered(s).ordseq == IDLE ==> StartOrdered(s).queue == s.queue[1..]
  {
    StartedIs(s);
    BegunCompleting(s);
    CompleteSeqStage(Begun(s), Skipped(Begun(s)), 0);
  }

  lemma Unsupported(s: State)
    requires StageInv(s) && s.ordseq == IDLE && s.mode == NONE
    requires |s.queue| > 0 && s.queue[0].Norm?
    ensures StageInv(EndRequest(s.(queue := s.queue[1..], started := s.started - {s.queue[0]}), s.queue[0].id, -EOPNOTSUPP))
  {
    var y := s.queue[0].id;
    var t := EndRequest(s.(queue := s.queue[1..], started := s.started - {s.queue[0]}), y, -EOPNOTSUPP);
    HeadBag(s.queue);
    assert Count(s, y) == 1;
    CountKept(s, t);
    assert forall x: nat :: Count(t, x) == Count(s, x);
    PlacesKept(s, t);
  }

  lemma InProgress(s: State)
    requires StageInv(s) && |s.queue| > 0 && s.ordseq != IDLE
    ensures var (t, v) := DoOrdered(s);
            && StageInv(t) && t == s.(warn := t.warn)
            && !v.Gone?
            && (v.Ready? ==> v.it == s.queue[0] && (v.it.Norm? || s.ordseq.drain))
  {
    var it := s.queue[0];
    var (t, v) := DoOrdered(s);
    CountKept(s, t);
    assert t == s.(warn := t.warn);
    assert forall x: nat :: Count(t, x) == Count(s, x);
    PlacesKept(s, t);
  }

  /** What blk_do_ordered returns is the head of the queue; when it returns
      false the queue has become shorter. */
  lemma DoOrderedStage(s: State)
    requires StageInv(s) && |s.queue| > 0
    ensures var (t, v) := DoOrdered(s);
            && StageInv(t)
            && (v.Ready? ==> |t.queue| > 0 && v.it == t.queue[0] && (v.it.Norm? || t.ordseq.drain))
            && (v.Gone? ==> t.queue == s.queue[1..])
  {
    var it := s.queue[0];
    if s.ordseq != IDLE {
      InProgress(s);
    } else {
      OnlyRequestsWhenIdle(s);
      assert it in s.queue;
      if ItemBarrier(s, it) {
        if s.mode != NONE {
          StartedBarrier(s);
        } else {
          Unsupported(s);
        }
      }
    }
  }

  lemma MarkStarted(s: State, it: Item)
    requires StageInv(s) && it in s.queue
    ensures StageInv(s.(started := s.started + {it}))
  {
    var t := s.(started := s.started + {it});
    CountKept(s, t);
    assert forall x: nat :: Count(t, x) == Count(s, x);
    PlacesKept(s, t);
    if s.ordseq != IDLE { assert Count(s, s.orig) == 1; }
  }

  lemma LookStage(s: State, take: bool)
    requires StageInv(s) && |s.queue| > 0
    ensures StageInv(LookAt(s, take))
  {
    DoOrderedStage(s);
    var (t, v) := DoOrdered(s);
    if v.Ready? {
      MarkStarted(t, v.it);
      if take { DequeueStage(t.(started := t.started + {v.it})); }
    }
  }

  /** The place elv_insert uses for a requeued request, sequence or not. */
  function PlaceOf(s: State, it: Item): (p: nat)
    ensures p <= |s.queue|
    ensures s.ordseq != IDLE ==>
              (forall i :: 0 <= i < p ==> ReqSeq(s, s.queue[i]) < ReqSeq(s, it))
              && (p < |s.queue| ==> ReqSeq(s, it) <= ReqSeq(s, s.queue[p]))
  {
    var s1 := Unaccount(s, it).(flight := s.flight - {it}, soft := s.soft + {it});
    var p := if s.ordseq == IDLE then 0 else RequeuePlace(s1, ReqSeq(s1, it), 0);
    assert forall k :: ReqSeq(s1, k) == ReqSeq(s, k);
    p
  }

  lemma RequeueIs(s: State, it: Item)
    ensures RequeueItem(s, it) ==
            Unaccount(s, it).(flight := s.flight - {it}, soft := s.soft + {it},
                              queue := InsertAt(s.queue, PlaceOf(s, it), it))
  {
  }

  /** What left the driver is back in the queue, once. */
  lemma RequeuePlaces(s: State, t: State, it: Item, p: nat)
    requires it in s.flight && p <= |s.queue|
    requires t.flight == s.flight - {it} && t.queue == InsertAt(s.queue, p, it)
    requires t.sorted == s.sorted && t.ended == s.ended && t.ordseq == s.ordseq && t.orig == s.orig
    ensures forall x: nat :: Count(t, x) == Count(s, x)
    ensures forall k: Item :: !k.Norm? ==> ProxyCount(t, k) == ProxyCount(s, k)
  {
    InsertBag(s.queue, p, it);
  }

  lemma RequeueCounts(s: State, t: State, it: Item)
    requires StageInv(s) && it in s.flight
    requires t == Unaccount(s, it).(flight := s.flight - {it}, soft := t.soft, queue := t.queue)
    ensures Counts(t)
  {
    CountRemoved(s, t, it);
    if it.Norm? { assert Count(s, it.id) == 1; }
  }

  lemma RequeueStage(s: State, it: Item)
    requires StageInv(s) && it in s.flight
    ensures StageInv(RequeueItem(s, it))
  {
    var t := RequeueItem(s, it);
    RequeueIs(s, it);
    RequeuePlaces(s, t, it, PlaceOf(s, it));
    PlacesKept(s, t);
    RequeueCounts(s, t, it);
  }

  lemma ReleasedFacts(s: State, it: Item)
    requires StageInv(s) && it in s.flight
    ensures var t := Released(s, it);
            && t.inFlight == |CountedFlight(t)|
                 + (if s.ordseq != IDLE && Norm(s.orig) in s.started && Accounted(s, Norm(s.orig)) then 1 else 0)
            && t.flight <= t.started
  {
    CountRemoved(s, Released(s, it), it);
  }

  lemma DrainCheckStage(s: State)
    requires StageInv(s)
    ensures StageInv(DrainCheck(s))
  {
    if s.ordseq != IDLE && CurSeq(s.ordseq) == STAGE_DRAIN {
      assert Completing(s, IDLE.(drain := true));
      CompleteSeqStage(s, IDLE.(drain := true), 0);
    }
  }

  function StageOf(it: Item): OrdSeq
    requires !it.Norm?
  {
    IDLE.(pre := it == Pre, bar := it == Bar, post := it == Post)
  }

  /** The state a proxy's end_io hands to blk_ordered_complete_seq. */
  function ProxyEnded(s: State, it: Item): State {
    Released(s, it).(preDone := if it == Pre then s.preDone + {s.orig} else s.preDone,
                     barDone := if it == Bar then s.barDone + {s.orig} else s.barDone,
                     postDone := if it == Post then s.postDone + {s.orig} else s.postDone)
  }

  lemma ProxyEndedIs(s: State, it: Item, err: int)
    requires StageInv(s) && it in s.flight && !it.Norm?
    ensures CompleteItem(s, it, err) == CompleteSeq(ProxyEnded(s, it), StageOf(it), err)
  {
    assert ProxyCount(s, it) >= 1;
    assert s.ordseq.drain;
    assert DrainCheck(Released(s, it)) == Released(s, it);
  }

  lemma ProxyCompleting(s: State, it: Item)
    requires StageInv(s) && it in s.flight && !it.Norm?
    ensures Completing(ProxyEnded(s, it), StageOf(it))
  {
    var t := ProxyEnded(s, it);
    ReleasedFacts(s, it);
    assert ProxyCount(s, it) >= 1;
    assert forall x: nat :: Count(t, x) == Count(s, x);
    PlacesKept(s, t);
    assert CountedFlight(t) == CountedFlight(Released(s, it));
    assert Histories(t, t.ordseq.Or(StageOf(it)));
  }

  lemma ProxyCompleteStage(s: State, it: Item, err: int)
    requires StageInv(s) && it in s.flight && !it.Norm?
    ensures StageInv(CompleteItem(s, it, err))
  {
    ProxyEndedIs(s, it, err);
    ProxyCompleting(s, it);
    CompleteSeqStage(ProxyEnded(s, it), StageOf(it), err);
  }

  lemma NormEndedStage(s: State, x: nat, err: int)
    requires StageInv(s) && Norm(x) in s.flight
    ensures StageInv(EndRequest(Released(s, Norm(x)), x, err))
  {
    var s1 := Released(s, Norm(x));
    var s2 := EndRequest(s1, x, err);
    ReleasedFacts(s, Norm(x));
    assert Count(s, x) == 1;
    assert forall y: nat :: Count(s2, y) == Count(s, y);
    PlacesKept(s, s2);
    assert CountedFlight(s2) == CountedFlight(s1);
  }

  lemma CompleteStage(s: State, it: Item, err: int)
    requires StageInv(s) && it in s.flight
    ensures StageInv(CompleteItem(s, it, err))
  {
    if it.Norm? {
      NormEndedStage(s, it.id, err);
      DrainCheckStage(EndRequest(Released(s, it), it.id, err));
    } else {
      ProxyCompleteStage(s, it, err);
    }
  }

  lemma PartialBarStage(s: State, err: int)
    requires StageInv(s) && Enabled(s, PartialBar(err))
    ensures StageInv(Apply(s, PartialBar(err)))
  {
    var t := Apply(s, PartialBar(err));
    FirstErrorSnoc(s.reported, err);
    CountKept(s, t);
    assert forall x: nat :: Count(t, x) == Count(s, x);
    PlacesKept(s, t);
  }

  lemma ApplyStage(s: State, e: Event)
    requires StageInv(s) && Enabled(s, e)
    ensures StageInv(Apply(s, e))
  {
    match e {
      case Add(r, where, plan) => AddStage(s, r, where, plan);
      case Dispatch(c) => DispatchStage(s, c);
      case Look(take) => LookStage(s, take);
      case Requeue(it) => RequeueStage(s, it);
      case PartialBar(err) => PartialBarStage(s, err);
      case Complete(it, err) => CompleteStage(s, it, err);
    }
  }

  /** The stage invariant holds after every run. */
  lemma {:induction false} RunStage(s: State, es: seq<Event>)
    requires StageInv(s) && Runs(s, es)
    ensures StageInv(Run(s, es))
    decreases es
  {
    if es != [] {
      ApplyStage(s, es[0]);
      RunStage(Apply(s, es[0]), es[1..]);
    }
  }

  lemma {:induction false} RunSplit(s: State, a: seq<Event>, b: seq<Event>)
    requires Runs(s, a) && Runs(Run(s, a), b)
    ensures Runs(s, a + b) && Run(s, a + b) == Run(Run(s, a), b)
    decreases a
  {
    if a == [] {
      assert a + b == b;
    } else {
      assert (a + b)[1..] == a[1..] + b;
      RunSplit(Apply(s, a[0]), a[1..], b);
    }
  }

  lemma RunOne(s: State, es: seq<Event>, e: Event)
    requires Runs(s, es) && Enabled(Run(s, es), e)
    ensures Runs(s, es + [e]) && Run(s, es + [e]) == Apply(Run(s, es), e)
  {
    var t := Run(s, es);
    var one := [e];
    assert one[1..] == [];
    assert Run(t, one) == Run(Apply(t, one[0]), one[1..]);
    RunSplit(s, es, [e]);
  }
}
