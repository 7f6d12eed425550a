/**
 Progress of a draining queue: a running sequence is never left with nothing in
 flight and a head that must wait; and the bookkeeping of ends and errors.
 */
module BarrierProgress {
  import opened BarrierModel
  import opened BarrierStages
  import opened BarrierOrder
  import opened BarrierSteps

  /** All discards are fs requests, or none is.  Those made from a bio by
      init_request_from_bio are. */
  predicate Uniform(e: Event, discardsAreFs: bool) {
    e.Add? && e.r.discard ==> e.r.fs == discardsAreFs
  }

  /** A queue that may drain for a barrier without any command needs that of its callers. */
  predicate Fair(m: Mode, e: Event, discardsAreFs: bool) {
    m == DRAIN_PLAIN ==> Uniform(e, discardsAreFs)
  }

  ghost predicate Discards(s: State, discardsAreFs: bool) {
    s.mode == DRAIN_PLAIN ==>
      && (forall x :: 0 <= x < |s.reqs| && s.reqs[x].discard ==> s.reqs[x].fs == discardsAreFs)
      && (forall x :: x in s.sorted ==> Fs(s, x) || Discard(s, x))
      && (forall k :: 0 <= k < |s.queue| && s.queue[k].Norm? && s.queue[k] !in s.soft
            ==> Fs(s, s.queue[k].id) || Discard(s, s.queue[k].id))
  }

  /** Elsewhere a command of the sequence is queued while the queue drains, and nothing
      is dispatched in front of it. */
  ghost predicate CommandWaits(s: State) {
    s.mode != DRAIN_PLAIN && s.ordseq != IDLE && !s.ordseq.drain ==> exists k :: 0 <= k < |s.queue| && !s.queue[k].Norm?
  }

  /** No flush is over before the queue has drained. */
  predicate FlushWaits(s: State) {
    s.ordseq != IDLE && !s.ordseq.drain && s.ordered.doPre ==> !s.ordseq.pre
  }

  lemma CommandQueued(s: State)
    requires StageInv(s) && DrainMode(s.mode) && FlushWaits(s)
    ensures CommandWaits(s)
  {
    if s.mode != DRAIN_PLAIN && s.ordseq != IDLE && !s.ordseq.drain {
      assert ProxyCount(s, Pre) == 1;
      assert Pre in s.queue;
    }
  }

  lemma LookFlush(s: State, take: bool)
    requires StageInv(s) && FlushWaits(s) && |s.queue| > 0
    ensures FlushWaits(LookAt(s, take))
  {
    var t := DoOrdered(s).0;
    if s.ordseq == IDLE {
      OnlyRequestsWhenIdle(s);
      assert s.queue[0] in s.queue;
      if ItemBarrier(s, s.queue[0]) { StartedIs(s); }
    } else {
      InProgress(s);
    }
    assert FlushWaits(t);
    assert LookAt(s, take).ordseq == t.ordseq && LookAt(s, take).ordered == t.ordered;
  }

  lemma CompleteFlush(s: State, it: Item, err: int)
    requires StageInv(s) && FlushWaits(s) && it in s.flight
    ensures FlushWaits(CompleteItem(s, it, err))
  {
    if it.Norm? {
      var u := EndRequest(Released(s, it), it.id, err);
      assert DrainCheck(u) == u || DrainCheck(u) == CompleteSeq(u, IDLE.(drain := true), 0);
    } else {
      ProxyEndedIs(s, it, err);
      ProxyRuns(s, it);
    }
  }

  lemma ApplyFlush(s: State, e: Event)
    requires StageInv(s) && Enabled(s, e) && FlushWaits(s)
    ensures FlushWaits(Apply(s, e))
  {
    match e {
      case Add(r, where, plan) => AddFrame(s, r, where, plan);
      case Dispatch(_) =>
      case Look(take) => LookFlush(s, take);
      case Requeue(_) =>
      case PartialBar(_) =>
      case Complete(it, err) => CompleteFlush(s, it, err);
    }
  }

  lemma DispatchCommand(s: State, c: Choice)
    requires CommandWaits(s) && MayDispatch(s, c)
    ensures CommandWaits(ElvDispatch(s, c))
  {
    var t := ElvDispatch(s, c);
    InsertIndex(s.queue, c.at, Norm(c.id));
    if k :| 0 <= k < |s.queue| && !s.queue[k].Norm? {
      assert t.queue[if k < c.at then k else k + 1] == s.queue[k];
    }
  }

  /** During the drain stage something is in flight, or the head may go. */
  ghost predicate Moving(s: State) {
    s.ordseq != IDLE && !s.ordseq.drain ==>
      s.flight != {} || (|s.queue| > 0 && ReqSeq(s, s.queue[0]) == STAGE_DRAIN)
  }

  ghost predicate Live(s: State, d: bool) {
    StageInv(s) && OrderInv(s) && Discards(s, d) && FlushWaits(s) && Moving(s)
  }

  lemma DispatchDiscards(s: State, c: Choice, d: bool)
    requires Discards(s, d) && MayDispatch(s, c)
    ensures Discards(ElvDispatch(s, c), d)
  {
    InsertIndex(s.queue, c.at, Norm(c.id));
    var t := ElvDispatch(s, c);
    forall k | s.mode == DRAIN_PLAIN && 0 <= k < |t.queue| && t.queue[k].Norm? && t.queue[k] !in t.soft
      ensures Fs(t, t.queue[k].id) || Discard(t, t.queue[k].id)
    {
      if k != c.at {
        var k' := if k < c.at then k else k - 1;
        assert t.queue[k] == s.queue[k'];
      }
    }
  }

  lemma DispatchMoving(s: State, c: Choice, d: bool)
    requires Places(s) && OrderInv(s) && Discards(s, d) && CommandWaits(s) && Moving(s) && MayDispatch(s, c)
    ensures Moving(ElvDispatch(s, c))
  {
    var t := ElvDispatch(s, c);
    InsertIndex(s.queue, c.at, Norm(c.id));
    if s.ordseq != IDLE && !s.ordseq.drain && s.flight == {} && c.at == 0 {
      assert forall k :: 0 <= k < |s.queue| ==> !Stops(s, s.queue[k]);
      HeadIsSpecial(s);
    }
  }

  /** An unflagged head that is allowed to go during the drain is a discard the
      scheduler dispatched. */
  lemma HeadIsSpecial(s: State)
    requires Places(s) && OrderInv(s) && s.ordseq != IDLE && |s.queue| > 0
    requires !Stops(s, s.queue[0]) && ReqSeq(s, s.queue[0]) == STAGE_DRAIN
    ensures !Fs(s, s.queue[0].id)
  {
    if Fs(s, s.queue[0].id) {
      NotHeld(s, 0);
      if s.orig < s.queue[0].id { LaterColor(s, 0); }
    }
  }

  lemma {:induction false} DrainMoving(s: State, plan: seq<Choice>, d: bool)
    requires Places(s) && OrderInv(s) && Discards(s, d) && CommandWaits(s) && Moving(s) && MayDrain(s, plan)
    ensures Discards(Drain(s, plan), d) && Moving(Drain(s, plan))
    decreases plan
  {
    if plan != [] {
      var t := ElvDispatch(s, plan[0]);
      DispatchPlaces(s, plan[0]);
      PlacesKept(s, t);
      DispatchOrder(s, plan[0]);
      DispatchDiscards(s, plan[0], d);
      DispatchMoving(s, plan[0], d);
      DispatchCommand(s, plan[0]);
      DrainMoving(t, plan[1..], d);
    }
  }

  /** One more request at the tail, at the head, or with the elevator. */
  lemma PlacedMoving(s: State, t: State, d: bool)
    requires Places(s) && Discards(s, d) && Moving(s) && OneMore(s, t)
    requires s.mode == DRAIN_PLAIN && Discard(t, |s.reqs|) ==> Fs(t, |s.reqs|) == d
    requires
      || (t.queue == s.queue + [Norm(|s.reqs|)] && t.sorted == s.sorted && Norm(|s.reqs|) in t.soft)
      || (t.queue == [Norm(|s.reqs|)] + s.queue && t.sorted == s.sorted && Norm(|s.reqs|) in t.soft && !Fs(t, |s.reqs|))
      || (t.queue == s.queue && t.sorted == s.sorted + {|s.reqs|} && (Fs(t, |s.reqs|) || Discard(t, |s.reqs|)))
    ensures Discards(t, d) && Moving(t)
  {
    ArrivedBefore(s);
    assert forall k :: 0 <= k < |s.queue| ==> s.queue[k] in s.queue;
    assert forall k :: s.ordseq != IDLE && 0 <= k < |s.queue| && s.queue[k].Norm? ==> ReqSeq(t, s.queue[k]) == ReqSeq(s, s.queue[k]);
  }

  lemma AddMoving(s: State, r: Req, where: Where, plan: seq<Choice>, d: bool)
    requires Live(s, d) && Enabled(s, Add(r, where, plan))
    requires WellBehaved(Add(r, where, plan)) && Fair(s.mode, Add(r, where, plan), d)
    ensures Discards(AddRequest(s, r, where, plan), d) && Moving(AddRequest(s, r, where, plan))
  {
    var t := AddRequest(s, r, where, plan);
    if Placement(r, where) == Back {
      DrainCommutes(s, r, plan);
      DrainOrder(s, plan);
      DrainPlaces(s, plan);
      CommandQueued(s);
      DrainMoving(s, plan, d);
      PlacedMoving(Drain(s, plan), t, d);
    } else {
      PlacedMoving(s, t, d);
    }
  }

  lemma StartMoving(s: State)
    requires StageInv(s) && OrderInv(s) && s.ordseq == IDLE
    requires |s.queue| > 0 && FsItem(s, s.queue[0]) && HardItem(s, s.queue[0])
    ensures Moving(StartOrdered(s))
  {
    StartedBarrier(s);
    assert Begun(s).inFlight == s.inFlight;
    if s.inFlight != 0 { assert CountedFlight(s) != {}; }
  }

  lemma StackedDiscards(s: State, t: State, n: nat, d: bool)
    requires Discards(s, d) && |s.queue| > 0 && Stacked(s, t, n)
    requires t.reqs == s.reqs && t.sorted == s.sorted && s.soft <= t.soft && t.mode == s.mode
    ensures Discards(t, d)
  {
    forall k | s.mode == DRAIN_PLAIN && 0 <= k < |t.queue| && t.queue[k].Norm? && t.queue[k] !in t.soft
      ensures Fs(t, t.queue[k].id) || Discard(t, t.queue[k].id)
    {
      assert t.queue[k] == s.queue[k - n + 1];
    }
  }

  lemma StartDiscards(s: State, d: bool)
    requires Discards(s, d) && |s.queue| > 0 && s.queue[0].Norm? && s.queue[0].id < |s.reqs|
    ensures Discards(StartOrdered(s), d)
  {
    var t := StartOrdered(s);
    var b := Begun(s);
    BegunStacked(s);
    assert t == CompleteSeq(b, Skipped(b), 0);
    assert t.queue == b.queue && t.orig == b.orig;
    assert Stacked(s, t, |ProxyList(b.ordered)|);
    StackedDiscards(s, t, |ProxyList(b.ordered)|, d);
  }

  lemma LookMoving(s: State, take: bool, d: bool)
    requires Live(s, d) && |s.queue| > 0
    ensures Discards(LookAt(s, take), d) && Moving(LookAt(s, take))
  {
    DoOrderedStage(s);
    DoOrderedMoving(s, d);
    var (t, v) := DoOrdered(s);
    if v.Ready? { TakenMoving(t, d); }
  }

  lemma DoOrderedMoving(s: State, d: bool)
    requires Live(s, d) && |s.queue| > 0
    ensures Discards(DoOrdered(s).0, d) && Moving(DoOrdered(s).0)
  {
    if s.ordseq == IDLE {
      OnlyRequestsWhenIdle(s);
      assert s.queue[0] in s.queue;
      if ItemBarrier(s, s.queue[0]) {
        StartMoving(s);
        StartDiscards(s, d);
        assert DoOrdered(s).0 == StartOrdered(s);
      }
    } else {
      InProgress(s);
      WarnMoving(s, DoOrdered(s).0, d);
    }
  }

  lemma WarnMoving(s: State, t: State, d: bool)
    requires Discards(s, d) && Moving(s) && t == s.(warn := t.warn)
    ensures Discards(t, d) && Moving(t)
  {
  }

  lemma TakenMoving(s: State, d: bool)
    requires Discards(s, d) && Moving(s) && |s.queue| > 0
    ensures var t := s.(started := s.started + {s.queue[0]});
            Discards(t, d) && Moving(t) && Discards(Dequeue(t), d) && Moving(Dequeue(t))
  {
    var t := s.(started := s.started + {s.queue[0]});
    assert s.queue[0] in Dequeue(t).flight;
  }

  lemma RequeueDiscards(s: State, it: Item, d: bool)
    requires Discards(s, d)
    ensures Discards(RequeueItem(s, it), d)
  {
    var t := RequeueItem(s, it);
    RequeueIs(s, it);
    var p := PlaceOf(s, it);
    InsertIndex(s.queue, p, it);
    forall k | s.mode == DRAIN_PLAIN && 0 <= k < |t.queue| && t.queue[k].Norm? && t.queue[k] !in t.soft
      ensures Fs(t, t.queue[k].id) || Discard(t, t.queue[k].id)
    {
      var k' := if k < p then k else k - 1;
      assert t.queue[k] == s.queue[k'];
    }
  }

  lemma DrainStageRequest(s: State, it: Item)
    requires StageInv(s) && OrderInv(s) && it in s.flight && s.ordseq != IDLE && !s.ordseq.drain
    ensures it.Norm? && PlaceOf(s, it) == 0 && ReqSeq(s, it) == STAGE_DRAIN
  {
    assert it.Norm?;
    NormPlace(s, it, PlaceOf(s, it));
    if Fs(s, it.id) {
      assert Count(s, it.id) == 1;
      EarlierColor(s, it.id);
    }
  }

  lemma RequeueMoving(s: State, it: Item)
    requires StageInv(s) && OrderInv(s) && it in s.flight
    ensures Moving(RequeueItem(s, it))
  {
    if s.ordseq != IDLE && !s.ordseq.drain {
      RequeueIs(s, it);
      DrainStageRequest(s, it);
    }
  }

  lemma CompleteSeqDiscards(s: State, mask: OrdSeq, err: int, d: bool)
    requires Discards(s, d)
    ensures Discards(CompleteSeq(s, mask, err), d)
    ensures s.ordseq.drain ==> Moving(CompleteSeq(s, mask, err))
  {
  }

  lemma ProxyCompleteMoving(s: State, it: Item, err: int, d: bool)
    requires StageInv(s) && Discards(s, d) && it in s.flight && !it.Norm?
    ensures Discards(CompleteItem(s, it, err), d) && Moving(CompleteItem(s, it, err))
  {
    ProxyEndedIs(s, it, err);
    ProxyRuns(s, it);
    CompleteSeqDiscards(ProxyEnded(s, it), StageOf(it), err, d);
  }

  lemma NormCompleteMoving(s: State, x: nat, err: int, d: bool)
    requires Live(s, d) && Norm(x) in s.flight
    ensures Discards(CompleteItem(s, Norm(x), err), d) && Moving(CompleteItem(s, Norm(x), err))
  {
    var t := EndRequest(Released(s, Norm(x)), x, err);
    NormEndedStage(s, x, err);
    LeftFinished(s, Norm(x), t);
    CheckedMoving(t);
    CompleteSeqDiscards(t, IDLE.(drain := true), 0, d);
  }

  /** The drain check leaves no stall: it is skipped only when something is in
      flight or the head may go. */
  lemma CheckedMoving(s: State)
    requires StageInv(s) && Running(s, s.ordseq)
    ensures Moving(DrainCheck(s))
  {
    if s.ordseq != IDLE && !s.ordseq.drain && s.flight == {} {
      assert CountedFlight(s) == {};
      assert s.inFlight == 0 && CurSeq(s.ordseq) == STAGE_DRAIN;
      if |s.queue| > 0 { assert STAGE_DRAIN <= ReqSeq(s, s.queue[0]); }
    }
  }

  lemma ApplyMoving(s: State, e: Event, d: bool)
    requires Live(s, d) && Enabled(s, e) && WellBehaved(e) && Fair(s.mode, e, d)
    ensures Discards(Apply(s, e), d) && Moving(Apply(s, e))
  {
    CommandQueued(s);
    match e {
      case Add(r, where, plan) => AddMoving(s, r, where, plan, d);
      case Dispatch(c) =>
        DispatchDiscards(s, c, d);
        DispatchMoving(s, c, d);
      case Look(take) => LookMoving(s, take, d);
      case Requeue(it) =>
        RequeueDiscards(s, it, d);
        RequeueMoving(s, it);
      case PartialBar(err) =>
      case Complete(it, err) =>
        if it.Norm? { NormCompleteMoving(s, it.id, err, d); } else { ProxyCompleteMoving(s, it, err, d); }
    }
  }

  lemma ApplyLive(s: State, e: Event, d: bool)
    requires Live(s, d) && Enabled(s, e) && WellBehaved(e) && Fair(s.mode, e, d)
    ensures Live(Apply(s, e), d)
  {
    ApplyStage(s, e);
    ApplyOrder(s, e);
    ApplyFlush(s, e);
    ApplyMoving(s, e, d);
  }

  lemma LookMode(s: State, take: bool)
    requires |s.queue| > 0
    ensures LookAt(s, take).mode == s.mode
  {
    assert DoOrdered(s).0.mode == s.mode;
  }

  lemma CompleteMode(s: State, it: Item, err: int)
    ensures CompleteItem(s, it, err).mode == s.mode
  {
    assert forall u: State :: DrainCheck(u).mode == u.mode;
  }

  lemma ModeStays(s: State, e: Event)
    requires Enabled(s, e)
    ensures Apply(s, e).mode == s.mode
  {
    match e {
      case Add(r, where, plan) => AddFrame(s, r, where, plan);
      case Dispatch(_) =>
      case Look(take) => LookMode(s, take);
      case Requeue(_) =>
      case PartialBar(_) =>
      case Complete(it, err) => CompleteMode(s, it, err);
    }
  }

  lemma {:induction false} RunLive(s: State, es: seq<Event>, d: bool)
    requires Live(s, d) && Runs(s, es)
    requires forall e :: e in es ==> WellBehaved(e) && Fair(s.mode, e, d)
    ensures Live(Run(s, es), d)
    decreases es
  {
    if es != [] {
      assert es[0] in es && forall e :: e in es[1..] ==> e in es;
      ApplyLive(s, es[0], d);
      ModeStays(s, es[0]);
      RunLive(Apply(s, es[0]), es[1..], d);
    }
  }

  /** The command of the current stage, when the drain is over. */
  lemma CurrentCommand(s: State) returns (k: nat)
    requires StageInv(s) && OrderInv(s) && s.ordseq != IDLE && s.ordseq.drain && s.flight == {}
    ensures k < |s.queue| && !s.queue[k].Norm? && ReqSeq(s, s.queue[k]) == CurSeq(s.ordseq)
  {
    var it := if !s.ordseq.pre then Pre else if !s.ordseq.bar then Bar else Post;
    assert ProxyCount(s, it) == 1;
    assert it in s.queue;
    k :| 0 <= k < |s.queue| && s.queue[k] == it;
  }

  lemma HeadGoes(s: State, k: nat)
    requires StageInv(s) && OrderInv(s) && s.ordseq != IDLE && s.ordseq.drain
    requires k < |s.queue| && !s.queue[k].Norm? && ReqSeq(s, s.queue[k]) == CurSeq(s.ordseq)
    ensures DoOrdered(s).1.Ready?
  {
    if Placed(s, s.queue[0]) {
      assert k > 0 ==> Rank(s, s.queue[0]) <= Rank(s, s.queue[k]);
      if s.queue[0].Norm? { NotHeld(s, 0); }
    }
  }

  /** A sequence is running, nothing is in flight, and the head must wait. */
  predicate Stalled(s: State) {
    s.ordseq != IDLE && s.flight == {} && !(|s.queue| > 0 && DoOrdered(s).1.Ready?)
  }

  /** A running sequence never stalls: with nothing in flight, the next look at
      the queue hands out a request. */
  lemma NoStall(m: Mode, es: seq<Event>, discardsAreFs: bool)
    requires DrainMode(m) && Runs(Init(m), es)
    requires forall e :: e in es ==> WellBehaved(e) && Fair(m, e, discardsAreFs)
    ensures !Stalled(Run(Init(m), es))
  {
    InitStage(m);
    InitOrder(m);
    RunLive(Init(m), es, discardsAreFs);
    var s := Run(Init(m), es);
    if s.ordseq != IDLE && s.flight == {} {
      if s.ordseq.drain {
        var k := CurrentCommand(s);
        HeadGoes(s, k);
      } else {
        assert CurSeq(s.ordseq) == STAGE_DRAIN;
      }
    }
  }

  // ----- ends and errors ----------------------------------------------------

  /** Ends are final, and the running barrier, if it ends, ends with `err`. */
  predicate EndsKept(s: State, t: State, err: int) {
    && (forall x :: x in s.ended ==> x in t.ended && t.ended[x] == s.ended[x])
    && (s.ordseq != IDLE && s.orig in t.ended && s.orig !in s.ended ==> t.ordseq == IDLE && t.ended[s.orig] == err)
  }

  lemma CompleteSeqEnds(s: State, mask: OrdSeq, err: int)
    requires s.orig !in s.ended
    ensures EndsKept(s, CompleteSeq(s, mask, err), CompleteSeq(s, mask, err).orderr)
    ensures CompleteSeq(s, mask, err).orig == s.orig
  {
  }

  lemma StartEnds(s: State)
    requires |s.queue| > 0 && s.queue[0].Norm? && s.queue[0].id < |s.reqs| && s.queue[0].id !in s.ended
    ensures forall x :: x in s.ended ==> x in StartOrdered(s).ended && StartOrdered(s).ended[x] == s.ended[x]
  {
    var b := Begun(s);
    assert StartOrdered(s) == CompleteSeq(b, Skipped(b), 0);
    CompleteSeqEnds(b, Skipped(b), 0);
  }

  lemma HeadNotEnded(s: State)
    requires StageInv(s) && |s.queue| > 0 && s.ordseq == IDLE
    ensures s.queue[0].Norm? && s.queue[0].id < |s.reqs| && s.queue[0].id !in s.ended
  {
    OnlyRequestsWhenIdle(s);
    assert s.queue[0] in s.queue;
    assert Count(s, s.queue[0].id) == 1;
  }

  lemma LookEnds(s: State, take: bool)
    requires StageInv(s) && |s.queue| > 0
    ensures forall x :: x in s.ended ==> x in LookAt(s, take).ended && LookAt(s, take).ended[x] == s.ended[x]
    ensures s.ordseq != IDLE ==> LookAt(s, take).ended == s.ended
  {
    if s.ordseq == IDLE {
      HeadNotEnded(s);
      StartEnds(s);
    }
    assert LookAt(s, take).ended == DoOrdered(s).0.ended;
  }

  lemma NormEnds(s: State, x: nat, err: int)
    requires StageInv(s) && Norm(x) in s.flight
    ensures var t := CompleteItem(s, Norm(x), err); EndsKept(s, t, t.orderr)
  {
    assert Count(s, x) == 1;
    var u := EndRequest(Released(s, Norm(x)), x, err);
    if s.ordseq != IDLE {
      assert Count(s, s.orig) == 1;
      CompleteSeqEnds(u, IDLE.(drain := true), 0);
    }
    assert DrainCheck(u) == u || DrainCheck(u) == CompleteSeq(u, IDLE.(drain := true), 0);
  }

  lemma ProxyEnds(s: State, it: Item, err: int)
    requires StageInv(s) && it in s.flight && !it.Norm?
    ensures var t := CompleteItem(s, it, err); EndsKept(s, t, t.orderr)
  {
    ProxyEndedIs(s, it, err);
    ProxyRuns(s, it);
    assert Count(s, s.orig) == 1;
    CompleteSeqEnds(ProxyEnded(s, it), StageOf(it), err);
  }

  /** An end is final, and a barrier whose sequence finishes ends with the first
      error its commands reported. */
  lemma EndedOnce(s: State, e: Event)
    requires StageInv(s) && Enabled(s, e)
    ensures var t := Apply(s, e);
            && (forall x :: x in s.ended ==> x in t.ended && t.ended[x] == s.ended[x])
            && (s.ordseq != IDLE && s.orig in t.ended ==>
                  t.ordseq == IDLE && t.ended[s.orig] == FirstError(t.reported))
  {
    ApplyStage(s, e);
    var t := Apply(s, e);
    if s.ordseq != IDLE { assert Count(s, s.orig) == 1; }
    match e {
      case Add(r, where, plan) => AddFrame(s, r, where, plan);
      case Dispatch(_) =>
      case Look(take) => LookEnds(s, take);
      case Requeue(_) =>
      case PartialBar(_) =>
      case Complete(it, err) => if it.Norm? { NormEnds(s, it.id, err); } else { ProxyEnds(s, it, err); }
    }
    assert EndsKept(s, t, t.orderr);
  }
}
