/**
 What a caller may rely on.  The statements mention requests, arrival numbers
 and histories only, never the stage bits or the color the code works with.
 */
module BarrierTheorems {
  import opened BarrierModel
  import opened BarrierStages
  import opened BarrierOrder
  import opened BarrierSteps

  /** What is with the driver is there rightly: a request only when every barrier
      queued before it has ended, a barrier's own command only when every fs
      request queued before the barrier has ended and its earlier commands are
      done. */
  ghost predicate MayBeOut(s: State, it: Item) {
    match it
    case Norm(x) => Fs(s, x) ==> !Barrier(s, x) && forall b: nat :: b < x && Barrier(s, b) ==> b in s.ended
    case Pre => Closed(s, s.orig)
    case Bar => Closed(s, s.orig) && (s.mode.doPre ==> s.orig in s.preDone)
    case Post => Closed(s, s.orig) && s.orig in s.barDone
  }

  /** The promise of an ordered queue. */
  ghost predicate Safe(s: State) {
    && (forall it :: it in s.flight ==> MayBeOut(s, it))
    && (forall b :: b in s.ended && Barrier(s, b) ==> Closed(s, b) && Performed(s, b))
  }

  lemma RequestOut(s: State, x: nat)
    requires StageInv(s) && OrderInv(s) && Norm(x) in s.flight
    ensures MayBeOut(s, Norm(x))
  {
    if Fs(s, x) {
      forall b: nat | b < x && Barrier(s, b)
        ensures b in s.ended
      {
        if b !in s.ended && !Held(s, b) { BarrierIs(s, b); }
      }
    }
  }

  lemma ProxyOut(s: State, it: Item)
    requires StageInv(s) && OrderInv(s) && it in s.flight && !it.Norm?
    ensures MayBeOut(s, it)
  {
    ProxyRuns(s, it);
    assert ReqSeq(s, it) == CurSeq(s.ordseq);
    assert ProxyCount(s, it) >= 1;
  }

  lemma InvariantIsSafe(s: State)
    requires StageInv(s) && OrderInv(s)
    ensures Safe(s)
  {
    forall it | it in s.flight
      ensures MayBeOut(s, it)
    {
      if it.Norm? { RequestOut(s, it.id); } else { ProxyOut(s, it); }
    }
  }

  /** Over every well-behaved run on a draining queue the promise holds. */
  lemma OrderingHolds(m: Mode, es: seq<Event>)
    requires DrainMode(m) && Runs(Init(m), es)
    requires forall e :: e in es ==> WellBehaved(e)
    ensures Safe(Run(Init(m), es))
    ensures !Run(Init(m), es).warn
  {
    InitStage(m);
    InitOrder(m);
    RunOrder(Init(m), es);
    InvariantIsSafe(Run(Init(m), es));
  }

  // ----- exactly when it holds ----------------------------------------------

  /** What the submitters of a queue may do beyond good behaviour: mark a
      request that is not fs as a hard barrier, or front-insert an fs request. */
  datatype Callers = Callers(specialBarriers: bool, fsAtFront: bool)

  predicate Allowed(c: Callers, e: Event) {
    e.Add? ==> (c.specialBarriers || (e.r.hard ==> e.r.fs)) && (c.fsAtFront || (e.where == Front ==> !e.r.fs))
  }

  function Plain(fs: bool, hard: bool, sectors: nat): Req {
    Req(fs, false, hard, false, false, true, 0, sectors, false)
  }

  /** A special request marked as barrier flips the color, and a request queued
      after the running barrier looks like one queued before it. */
  function ColorRun(m: Mode): seq<Event> {
    [Add(Plain(true, true, if m.doPre then 0 else 8), Back, []), Look(true),
     Add(Plain(false, true, 0), Back, []), Look(true),
     Add(Plain(true, false, 8), Back, []), Look(true)]
  }

  function FrontRun(): seq<Event> {
    [Add(Plain(true, true, 8), Back, []), Add(Plain(true, false, 8), Front, []), Look(true)]
  }

  lemma FrontRunUnsafe(m: Mode)
    requires DrainMode(m)
    ensures Runs(Init(m), FrontRun()) && !Safe(Run(Init(m), FrontRun()))
  {
    var es := FrontRun();
    var s0 := Init(m);
    var s1 := Apply(s0, es[0]);
    assert s1.queue == [Norm(0)];
    var s2 := Apply(s1, es[1]);
    assert s2.queue == [Norm(1), Norm(0)];
    var s3 := Apply(s2, es[2]);
    assert es[1..][0] == es[1] && es[1..][1..][0] == es[2] && es[1..][1..][1..] == [];
    assert Norm(1) in s3.flight && !MayBeOut(s3, Norm(1)) by {
      assert Barrier(s3, 0) && 0 !in s3.ended;
    }
  }

  lemma TwoSteps(s: State, es: seq<Event>)
    requires |es| == 2 && Enabled(s, es[0]) && Enabled(Apply(s, es[0]), es[1])
    ensures Runs(s, es) && Run(s, es) == Apply(Apply(s, es[0]), es[1])
  {
    var s1 := Apply(s, es[0]);
    var rest := es[1..];
    assert rest[0] == es[1] && rest[1..] == [];
    assert Run(s1, rest) == Run(Apply(s1, rest[0]), rest[1..]);
    assert Run(s, es) == Run(s1, rest);
  }

  /** The barrier of ColorRun has arrived. */
  ghost function Arrived(m: Mode): State {
    Init(m).(reqs := [ColorRun(m)[0].r], ordcolor := true, queue := [Norm(0)], soft := {Norm(0)})
  }

  lemma FirstAdd(m: Mode)
    ensures Enabled(Init(m), ColorRun(m)[0]) && Apply(Init(m), ColorRun(m)[0]) == Arrived(m)
  {
  }

  lemma FirstLook(m: Mode)
    requires DrainMode(m)
    ensures var s := LookAt(Arrived(m), true); Alone(m, s, true) && |s.reqs| == 1
  {
    var s := Arrived(m);
    var it := if m.doPre then Pre else Bar;
    var t := StartOrdered(s);
    var b := Begun(s);
    assert b.queue == ProxyList(b.ordered) == [it];
    assert t == b.(ordseq := t.ordseq, reported := t.reported, bug := t.bug) && t.ordseq.started && t.ordseq.drain;
    assert DoOrdered(s) == (t, Ready(it));
  }

  lemma ColorRunStart(m: Mode)
    requires DrainMode(m)
    ensures Enabled(Init(m), ColorRun(m)[0]) && Enabled(Apply(Init(m), ColorRun(m)[0]), ColorRun(m)[1])
    ensures var s := Apply(Apply(Init(m), ColorRun(m)[0]), ColorRun(m)[1]);
            Alone(m, s, true) && |s.reqs| == 1
  {
    FirstAdd(m);
    FirstLook(m);
  }

  /** The barrier of ColorRun runs, the queue is empty, the color is `color`. */
  ghost predicate Alone(m: Mode, s: State, color: bool) {
    && s.ordseq.started && s.orig == 0 && s.ended == map[] && s.sorted == {} && s.queue == []
    && s.ordered.byDrain && !s.ordered.byTag && s.ordcolor == color && s.mode == m
    && |s.reqs| > 0 && s.reqs[0] == ColorRun(m)[0].r
  }

  /** A request back-inserted into the empty queue and not blocked is issued. */
  lemma AddAndTake(m: Mode, s: State, color: bool, r: Req)
    requires Alone(m, s, color)
    requires !r.fs || !color
    ensures var a := Add(r, Back, []);
            && Enabled(s, a)
            && var s1 := Apply(s, a);
            && Enabled(s1, Look(true))
            && var s2 := Apply(s1, Look(true));
            && Alone(m, s2, color != r.hard) && Norm(|s.reqs|) in s2.flight
            && s2.reqs == s.reqs + [r.(color := color)]
  {
    var s1 := Apply(s, Add(r, Back, []));
    assert s1 == s.(reqs := s.reqs + [r.(color := color)], ordcolor := color != r.hard,
                    queue := [Norm(|s.reqs|)], soft := s.soft + {Norm(|s.reqs|)});
    TakeOnly(s1, Norm(|s.reqs|));
  }

  lemma TakeOnly(s: State, it: Item)
    requires s.ordseq.started && !s.ordered.byTag && s.queue == [it] && it.Norm?
    requires ReqSeq(s, it) == STAGE_DRAIN
    ensures var t := LookAt(s, true);
            t == s.(queue := [], flight := t.flight, inFlight := t.inFlight, started := t.started, warn := t.warn)
            && it in t.flight
  {
  }

  lemma ColorRunEnd(m: Mode, s: State)
    requires Alone(m, s, true) && |s.reqs| == 1
    ensures Runs(s, ColorRun(m)[2..]) && !Safe(Run(s, ColorRun(m)[2..]))
  {
    var es := ColorRun(m)[2..];
    AddAndTake(m, s, true, Plain(false, true, 0));
    var s2 := Apply(Apply(s, es[0]), es[1]);
    AddAndTake(m, s2, false, Plain(true, false, 8));
    var s4 := Apply(Apply(s2, es[2]), es[3]);
    assert !Safe(s4) by { TooEarly(m, s4); }
    TwoSteps(s, es[..2]);
    TwoSteps(s2, es[2..]);
    RunSplit(s, es[..2], es[2..]);
    assert es == es[..2] + es[2..];
  }

  lemma TooEarly(m: Mode, s: State)
    requires Alone(m, s, false) && |s.reqs| == 3 && s.reqs[2].fs && Norm(2) in s.flight
    ensures !Safe(s)
  {
    assert Barrier(s, 0) && 0 !in s.ended;
    assert !MayBeOut(s, Norm(2));
  }

  lemma ColorRunUnsafe(m: Mode)
    requires DrainMode(m)
    ensures Runs(Init(m), ColorRun(m)) && !Safe(Run(Init(m), ColorRun(m)))
  {
    var es := ColorRun(m);
    ColorRunStart(m);
    TwoSteps(Init(m), es[..2]);
    var s := Run(Init(m), es[..2]);
    ColorRunEnd(m, s);
    RunSplit(Init(m), es[..2], es[2..]);
    assert es == es[..2] + es[2..];
  }

  /** The ordering promise holds over all runs the callers can produce exactly
      when no caller marks a special request as a hard barrier and none inserts
      an fs request at the front. */
  lemma OrderingExactlyWhen(m: Mode, c: Callers)
    requires DrainMode(m)
    ensures (forall es :: Runs(Init(m), es) && (forall e :: e in es ==> Allowed(c, e)) ==> Safe(Run(Init(m), es)))
            <==> !c.specialBarriers && !c.fsAtFront
  {
    if !c.specialBarriers && !c.fsAtFront {
      forall es | Runs(Init(m), es) && (forall e :: e in es ==> Allowed(c, e))
        ensures Safe(Run(Init(m), es))
      {
        OrderingHolds(m, es);
      }
    } else if c.specialBarriers {
      ColorRunUnsafe(m);
      assert forall e :: e in ColorRun(m) ==> Allowed(c, e);
    } else {
      FrontRunUnsafe(m);
      assert forall e :: e in FrontRun() ==> Allowed(c, e);
    }
  }
}
