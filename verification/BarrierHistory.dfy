/**
 What a whole run does to a request: it ends once, with the first error that was
 reported for it; and a sequence that is running ends after a bounded number of
 completions.
 */
module BarrierHistory {
  import opened BarrierModel
  import opened BarrierStages
  import opened BarrierOrder
  import opened BarrierSteps
  import opened BarrierProgress

  // ----- the errors reported for a request ----------------------------------

  /** The errors an event reports for request `x`: its own end, the end of a command
      of the sequence it is the barrier of, a part of that sequence's data, or the
      refusal of a barrier the queue cannot order. */
  function Told(s: State, e: Event, x: nat): seq<int> {
    match e
    case Complete(it, err) => if it == Norm(x) || (!it.Norm? && x == s.orig) then [err] else []
    case PartialBar(err) => if x == s.orig then [err] else []
    case Look(_) => if s.mode == NONE && s.queue != [] && s.queue[0] == Norm(x) && Barrier(s, x) then [-EOPNOTSUPP] else []
    case Add(_, _, _) => []
    case Dispatch(_) => []
    case Requeue(_) => []
  }

  /** All the errors a run reports for request `x`, in order. */
  ghost function Reports(s: State, es: seq<Event>, x: nat): seq<int>
    requires Runs(s, es)
    decreases es
  {
    if es == [] then [] else Told(s, es[0], x) + Reports(Apply(s, es[0]), es[1..], x)
  }

  /** `h` is what has been reported for `x` so far. */
  predicate Heard(s: State, x: nat, h: seq<int>) {
    && (x in s.ended ==> s.ended[x] == FirstError(h))
    && (x !in s.ended && !Held(s, x) ==> h == [])
    && (Held(s, x) ==> s.orderr == FirstError(h))
  }

  lemma HeardOne(err: int)
    ensures FirstError([err]) == err
  {
    assert [err][1..] == [];
  }

  /** A stage of the sequence of `s.orig` completes. */
  lemma HeardStage(s: State, mask: OrdSeq, err: int, x: nat, h: seq<int>)
    requires s.ordseq != IDLE && s.ordseq.started && s.orig !in s.ended && Heard(s, x, h)
    ensures Heard(CompleteSeq(s, mask, err), x, if x == s.orig then h + [err] else h)
  {
    FirstErrorSnoc(h, err);
  }

  lemma DrainHeard(s: State, x: nat, h: seq<int>)
    requires StageInv(s) && Heard(s, x, h)
    ensures Heard(DrainCheck(s), x, h)
  {
    if DrainCheck(s) != s {
      assert Count(s, s.orig) == 1;
      HeardStage(s, IDLE.(drain := true), 0, x, h);
      FirstErrorSnoc(h, 0);
    }
  }

  lemma NormHeard(s: State, y: nat, err: int, x: nat, h: seq<int>)
    requires StageInv(s) && Norm(y) in s.flight && Heard(s, x, h)
    ensures Heard(CompleteItem(s, Norm(y), err), x, if x == y then h + [err] else h)
  {
    assert Count(s, y) == 1;
    var t := EndRequest(Released(s, Norm(y)), y, err);
    NormEndedStage(s, y, err);
    HeardOne(err);
    if x == y { assert h == [] && h + [err] == [err]; }
    DrainHeard(t, x, if x == y then h + [err] else h);
  }

  lemma ProxyHeard(s: State, it: Item, err: int, x: nat, h: seq<int>)
    requires StageInv(s) && it in s.flight && !it.Norm? && Heard(s, x, h)
    ensures Heard(CompleteItem(s, it, err), x, if x == s.orig then h + [err] else h)
  {
    ProxyEndedIs(s, it, err);
    ProxyRuns(s, it);
    assert Count(s, s.orig) == 1;
    HeardStage(ProxyEnded(s, it), StageOf(it), err, x, h);
  }

  /** A sequence begins with nothing reported. */
  lemma StartHeard(s: State, x: nat, h: seq<int>)
    requires StageInv(s) && s.ordseq == IDLE && s.mode != NONE && Heard(s, x, h)
    requires |s.queue| > 0 && s.queue[0].Norm? && s.queue[0].id < |s.reqs|
    ensures Heard(StartOrdered(s), x, h)
  {
    var b := Begun(s);
    StartedIs(s);
    HeadBag(s.queue);
    assert Count(s, s.queue[0].id) == 1;
    assert Heard(b, x, h);
    HeardStage(b, Skipped(b), 0, x, h);
    FirstErrorSnoc(h, 0);
  }

  lemma RefusedHeard(s: State, x: nat, h: seq<int>)
    requires StageInv(s) && s.ordseq == IDLE && Heard(s, x, h)
    requires |s.queue| > 0 && s.queue[0].Norm?
    ensures var y := s.queue[0].id;
            Heard(EndRequest(s.(queue := s.queue[1..], started := s.started - {s.queue[0]}), y, -EOPNOTSUPP), x,
                  if x == y then h + [-EOPNOTSUPP] else h)
  {
    HeadBag(s.queue);
    assert Count(s, s.queue[0].id) == 1;
    HeardOne(-EOPNOTSUPP);
    if x == s.queue[0].id { assert h + [-EOPNOTSUPP] == [-EOPNOTSUPP]; }
  }

  lemma DoOrderedHeard(s: State, take: bool, x: nat, h: seq<int>)
    requires StageInv(s) && |s.queue| > 0 && Heard(s, x, h)
    ensures Heard(DoOrdered(s).0, x, h + Told(s, Look(take), x))
  {
    assert h + [] == h;
    if s.ordseq != IDLE {
      InProgress(s);
      assert s.mode != NONE;
    } else {
      OnlyRequestsWhenIdle(s);
      assert s.queue[0] in s.queue;
      if ItemBarrier(s, s.queue[0]) {
        if s.mode != NONE { StartHeard(s, x, h); } else { RefusedHeard(s, x, h); }
      }
    }
  }

  lemma LookHeard(s: State, take: bool, x: nat, h: seq<int>)
    requires StageInv(s) && |s.queue| > 0 && Heard(s, x, h)
    ensures Heard(LookAt(s, take), x, h + Told(s, Look(take), x))
  {
    DoOrderedHeard(s, take, x, h);
    var t := DoOrdered(s).0;
    var u := LookAt(s, take);
    assert u.ended == t.ended && u.ordseq == t.ordseq && u.orig == t.orig && u.orderr == t.orderr;
  }

  lemma ApplyHeard(s: State, e: Event, x: nat, h: seq<int>)
    requires StageInv(s) && Enabled(s, e) && Heard(s, x, h)
    ensures Heard(Apply(s, e), x, h + Told(s, e, x))
  {
    assert h + [] == h;
    match e {
      case Add(r, where, plan) => AddFrame(s, r, where, plan);
      case Dispatch(_) =>
      case Look(take) => LookHeard(s, take, x, h);
      case Requeue(_) =>
      case PartialBar(err) =>
        ProxyRuns(s, Bar);
        assert Count(s, s.orig) == 1;
        FirstErrorSnoc(h, err);
      case Complete(it, err) =>
        if it.Norm? { NormHeard(s, it.id, err, x, h); } else {
          ProxyRuns(s, it);
          ProxyHeard(s, it, err, x, h);
        }
    }
  }

  lemma {:induction false} RunHeard(s: State, es: seq<Event>, x: nat, h: seq<int>)
    requires StageInv(s) && Runs(s, es) && Heard(s, x, h)
    ensures Heard(Run(s, es), x, h + Reports(s, es, x))
    decreases es
  {
    if es == [] {
      assert h + [] == h;
    } else {
      var told := Told(s, es[0], x);
      ApplyStage(s, es[0]);
      ApplyHeard(s, es[0], x, h);
      RunHeard(Apply(s, es[0]), es[1..], x, h + told);
      Joined(h, told, Reports(Apply(s, es[0]), es[1..], x));
    }
  }

  lemma Joined(a: seq<int>, b: seq<int>, c: seq<int>)
    ensures a + b + c == a + (b + c)
  {
  }

  /** After any run, in any mode and whatever the callers did, every request that has
      ended has ended with the first error reported for it; for a request that has
      not, and is not the running barrier, nothing has been reported. */
  lemma EndsWithFirstError(m: Mode, es: seq<Event>, x: nat)
    requires ValidMode(m) && Runs(Init(m), es)
    ensures var s := Run(Init(m), es);
            && (x in s.ended ==> s.ended[x] == FirstError(Reports(Init(m), es, x)))
            && (x !in s.ended && !Held(s, x) ==> Reports(Init(m), es, x) == [])
  {
    InitStage(m);
    RunHeard(Init(m), es, x, []);
    assert [] + Reports(Init(m), es, x) == Reports(Init(m), es, x);
  }

  // ----- a running sequence ends --------------------------------------------

  /** The fs requests queued before the running barrier that have not ended. */
  ghost function Earlier(s: State): set<nat> {
    set x: nat | x < s.orig && Fs(s, x) && x !in s.ended
  }

  function Unset(o: OrdSeq): nat { Bit(!o.drain) + Bit(!o.pre) + Bit(!o.bar) + Bit(!o.post) }

  /** What the running sequence still waits for. */
  ghost function Remaining(s: State): nat {
    Unset(s.ordseq) + |Earlier(s)|
  }

  /** The completion of an fs request or of a command of a sequence. */
  predicate Useful(s: State, e: Event) {
    e.Complete? && (!e.it.Norm? || Fs(s, e.it.id))
  }

  ghost function UsefulCount(s: State, es: seq<Event>): nat
    requires Runs(s, es)
    decreases es
  {
    if es == [] then 0 else Bit(Useful(s, es[0])) + UsefulCount(Apply(s, es[0]), es[1..])
  }

  predicate Reaches(o: OrdSeq, p: OrdSeq) {
    (o.started ==> p.started) && (o.drain ==> p.drain) && (o.pre ==> p.pre) && (o.bar ==> p.bar) && (o.post ==> p.post)
  }

  /** From `s` the sequence has gone on in `t`, or it is over and its barrier has ended. */
  ghost predicate GoesOn(s: State, t: State) {
    && t.orig == s.orig && s.reqs <= t.reqs && s.ended.Keys <= t.ended.Keys
    && (if t.ordseq == IDLE then s.orig in t.ended else Reaches(s.ordseq, t.ordseq))
  }

  lemma StageGoesOn(s: State, mask: OrdSeq, err: int)
    requires s.ordseq.started
    ensures GoesOn(s, CompleteSeq(s, mask, err))
    ensures CompleteSeq(s, mask, err).ordseq != IDLE ==> Reaches(mask, CompleteSeq(s, mask, err).ordseq)
  {
  }

  lemma NormGoesOn(s: State, x: nat, err: int)
    requires StageInv(s) && Norm(x) in s.flight && s.ordseq != IDLE
    ensures GoesOn(s, CompleteItem(s, Norm(x), err)) && x in CompleteItem(s, Norm(x), err).ended
  {
    var u := EndRequest(Released(s, Norm(x)), x, err);
    StageGoesOn(u, IDLE.(drain := true), 0);
    assert DrainCheck(u) == u || DrainCheck(u) == CompleteSeq(u, IDLE.(drain := true), 0);
  }

  lemma ProxyGoesOn(s: State, it: Item, err: int)
    requires StageInv(s) && it in s.flight && !it.Norm? && s.ordseq != IDLE
    ensures var t := CompleteItem(s, it, err);
            GoesOn(s, t) && (t.ordseq != IDLE ==> Reaches(StageOf(it), t.ordseq))
  {
    ProxyEndedIs(s, it, err);
    StageGoesOn(ProxyEnded(s, it), StageOf(it), err);
  }

  lemma StepGoesOn(s: State, e: Event)
    requires StageInv(s) && Enabled(s, e) && s.ordseq != IDLE
    ensures GoesOn(s, Apply(s, e))
  {
    match e {
      case Add(r, where, plan) => AddFrame(s, r, where, plan);
      case Dispatch(_) =>
      case Look(take) =>
        InProgress(s);
        var t := LookAt(s, take);
        assert t.ordseq == s.ordseq && t.orig == s.orig && t.ended == s.ended && t.reqs == s.reqs;
      case Requeue(_) =>
      case PartialBar(_) =>
      case Complete(it, err) => if it.Norm? { NormGoesOn(s, it.id, err); } else { ProxyGoesOn(s, it, err); }
    }
  }

  lemma FewerEarlier(s: State, t: State)
    requires s.orig < |s.reqs| && GoesOn(s, t)
    ensures Earlier(t) <= Earlier(s) && |Earlier(t)| <= |Earlier(s)|
    ensures forall x :: x in Earlier(s) && x in t.ended ==> |Earlier(t)| < |Earlier(s)|
  {
    assert Earlier(t) <= Earlier(s);
    Subset(Earlier(t), Earlier(s));
    forall x | x in Earlier(s) && x in t.ended
      ensures |Earlier(t)| < |Earlier(s)|
    {
      Subset(Earlier(t), Earlier(s) - {x});
    }
  }

  lemma {:induction false} Subset(a: set<nat>, b: set<nat>)
    requires a <= b
    ensures |a| <= |b|
    decreases |a|
  {
    if x :| x in a { Subset(a - {x}, b - {x}); }
  }

  /** While a sequence runs, nothing adds to what it waits for, and every useful
      completion takes something away. */
  lemma StepRemaining(s: State, e: Event)
    requires StageInv(s) && OrderInv(s) && Enabled(s, e) && s.ordseq != IDLE
    requires Apply(s, e).ordseq != IDLE
    ensures Remaining(Apply(s, e)) + Bit(Useful(s, e)) <= Remaining(s)
  {
    var t := Apply(s, e);
    StepGoesOn(s, e);
    FewerEarlier(s, t);
    if Useful(s, e) {
      if e.it.Norm? {
        NormGoesOn(s, e.it.id, e.err);
        assert Count(s, e.it.id) == 1;
        assert e.it.id in Earlier(s);
      } else {
        ProxyGoesOn(s, e.it, e.err);
        assert ProxyCount(s, e.it) >= 1;
      }
    }
  }

  /** An end is final. */
  lemma {:induction false} EndedStays(s: State, es: seq<Event>, x: nat)
    requires StageInv(s) && Runs(s, es) && x in s.ended
    ensures x in Run(s, es).ended && Run(s, es).ended[x] == s.ended[x]
    decreases es
  {
    if es != [] {
      ApplyStage(s, es[0]);
      EndedOnce(s, es[0]);
      EndedStays(Apply(s, es[0]), es[1..], x);
    }
  }

  lemma {:induction false} RunRemaining(s: State, es: seq<Event>)
    requires StageInv(s) && OrderInv(s) && Runs(s, es) && s.ordseq != IDLE
    requires forall e :: e in es ==> WellBehaved(e)
    ensures s.orig in Run(s, es).ended || UsefulCount(s, es) < Remaining(s)
    decreases es
  {
    if es != [] {
      var t := Apply(s, es[0]);
      assert es[0] in es && forall e :: e in es[1..] ==> e in es;
      ApplyStage(s, es[0]);
      ApplyOrder(s, es[0]);
      StepGoesOn(s, es[0]);
      if t.ordseq == IDLE {
        EndedStays(t, es[1..], s.orig);
      } else {
        StepRemaining(s, es[0]);
        RunRemaining(t, es[1..]);
      }
    }
  }

  /** Every sequence ends: once as many fs requests and commands have completed as it
      was waiting for, its barrier has ended. */
  lemma SequenceEnds(m: Mode, es: seq<Event>, more: seq<Event>)
    requires DrainMode(m) && Runs(Init(m), es) && Runs(Run(Init(m), es), more)
    requires forall e :: e in es || e in more ==> WellBehaved(e)
    requires Run(Init(m), es).ordseq != IDLE
    requires UsefulCount(Run(Init(m), es), more) >= Remaining(Run(Init(m), es))
    ensures Run(Init(m), es).orig in Run(Run(Init(m), es), more).ended
  {
    InitStage(m);
    InitOrder(m);
    RunOrder(Init(m), es);
    RunRemaining(Run(Init(m), es), more);
  }
}
