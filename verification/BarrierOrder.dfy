/**
 The ordering promise of a queue that orders barriers by draining: nothing
 queued after a barrier reaches the driver before the barrier has ended, and the
 barrier's own commands reach it only after everything queued before.

 The code recognises "queued before" by a single color bit; the invariant below
 shows when that bit is good enough.
 */
module BarrierOrder {
  import opened BarrierModel
  import opened BarrierStages

  /** Every fs request queued before `b` has ended. */
  ghost predicate Closed(s: State, b: nat) {
    ClosedIn(s.reqs, s.ended.Keys, b)
  }

  ghost predicate ClosedIn(reqs: seq<Req>, ended: set<nat>, b: nat) {
    forall x: nat :: x < b && x < |reqs| && reqs[x].fs ==> x in ended
  }

  /** The barrier's own commands have run: flushes the mode asks for, and the
      data, unless the barrier is empty. */
  predicate Performed(s: State, b: nat) {
    b < |s.reqs| &&
    var m := Masked(s.mode, s.reqs[b].sectors == 0);
    (m.doPre ==> b in s.preDone) && (m.doBar ==> b in s.barDone) && (m.doPost ==> b in s.postDone)
  }

  // ----- colors -------------------------------------------------------------

  /** The color a request gets when it is number `n`. */
  ghost function ColorAt(reqs: seq<Req>, n: nat): bool
    requires n <= |reqs|
  {
    if n == 0 then false else ColorAt(reqs, n - 1) != reqs[n - 1].hard
  }

  lemma {:induction false} ColorPrefix(reqs: seq<Req>, r: Req, n: nat)
    requires n <= |reqs|
    ensures ColorAt(reqs + [r], n) == ColorAt(reqs, n)
  {
    if n > 0 { ColorPrefix(reqs, r, n - 1); }
  }

  lemma {:induction false} ColorSpan(reqs: seq<Req>, a: nat, b: nat)
    requires a <= b <= |reqs|
    requires forall i :: a <= i < b ==> !reqs[i].hard
    ensures ColorAt(reqs, a) == ColorAt(reqs, b)
    decreases b - a
  {
    if a < b { ColorSpan(reqs, a, b - 1); }
  }

  ghost predicate Colors(s: State) {
    ColorsIn(s.reqs, s.ordcolor)
  }

  ghost predicate ColorsIn(reqs: seq<Req>, next: bool) {
    && (forall x :: 0 <= x < |reqs| ==> reqs[x].color == ColorAt(reqs, x))
    && next == ColorAt(reqs, |reqs|)
    && (forall x :: 0 <= x < |reqs| && reqs[x].hard ==> reqs[x].fs)
  }

  // ----- the invariant ------------------------------------------------------

  /** Barriers are never with the elevator or, themselves, with the driver. */
  ghost predicate BarriersWait(s: State) {
    && (forall x :: x in s.sorted ==> !Hard(s, x))
    && (forall x: nat :: Norm(x) in s.flight ==> !Hard(s, x))
  }

  predicate HardIn(reqs: seq<Req>, it: Item) { it.Norm? && it.id < |reqs| && reqs[it.id].hard }
  predicate FsIn(reqs: seq<Req>, it: Item) { it.Norm? && it.id < |reqs| && reqs[it.id].fs }
  predicate HardItem(s: State, it: Item) { HardIn(s.reqs, it) }
  predicate FsItem(s: State, it: Item) { FsIn(s.reqs, it) }

  /** In the dispatch queue no fs request and barrier have changed places. */
  ghost predicate InArrivalOrder(s: State) {
    ArrivalOrdered(s.reqs, s.queue)
  }

  ghost predicate ArrivalOrdered(reqs: seq<Req>, q: seq<Item>) {
    forall i, j :: 0 <= i < j < |q| && FsIn(reqs, q[i]) && FsIn(reqs, q[j]) && (HardIn(reqs, q[i]) || HardIn(reqs, q[j]))
                   ==> q[i].id < q[j].id
  }

  /** A queued barrier has everything later behind it. */
  ghost predicate BehindBarriers(s: State) {
    forall k :: 0 <= k < |s.queue| && HardItem(s, s.queue[k]) ==>
      && s.queue[k] !in s.started
      && (s.ordseq != IDLE ==> s.orig < s.queue[k].id)
      && (forall x :: x in s.sorted ==> s.queue[k].id < x)
      && (forall x: nat :: Norm(x) in s.flight && Fs(s, x) ==> x < s.queue[k].id)
  }

  ghost predicate Finished(s: State) {
    forall b :: b in s.ended && Barrier(s, b) ==> Closed(s, b) && Performed(s, b)
  }

  /** While a sequence runs, what is outstanding is on the right side of it. */
  ghost predicate Running(s: State, o: OrdSeq) {
    s.ordseq != IDLE ==>
      && Barrier(s, s.orig) && Norm(s.orig) !in s.started && s.ordered.byDrain
      && (forall x :: x in s.sorted ==> s.orig < x)
      && (forall x: nat :: Norm(x) in s.flight && Fs(s, x) ==> x < s.orig)
      && (o.drain ==> Closed(s, s.orig))
      && (forall it :: it in s.flight && !it.Norm? ==> ReqSeq(s, it) == CurSeq(o))
  }

  predicate PlacedIn(reqs: seq<Req>, it: Item) { !it.Norm? || FsIn(reqs, it) }
  predicate Placed(s: State, it: Item) { PlacedIn(s.reqs, it) }

  /** The stage an item truly belongs to, told by arrival and not by color. */
  function RankFrom(orig: nat, it: Item): int {
    match it
    case Pre => STAGE_PRE
    case Bar => STAGE_BAR
    case Post => STAGE_POST
    case Norm(x) => if x < orig then STAGE_DRAIN else STAGE_DONE
  }
  function Rank(s: State, it: Item): int { RankFrom(s.orig, it) }

  ghost predicate Ranked(s: State) {
    s.ordseq != IDLE ==> RankOrdered(s.reqs, s.orig, s.queue) && EarlierFlagged(s.reqs, s.orig, s.queue, s.soft)
  }

  ghost predicate RankOrdered(reqs: seq<Req>, orig: nat, q: seq<Item>) {
    forall i, j :: 0 <= i < j < |q| && PlacedIn(reqs, q[i]) && PlacedIn(reqs, q[j])
      ==> RankFrom(orig, q[i]) <= RankFrom(orig, q[j])
  }

  ghost predicate EarlierFlagged(reqs: seq<Req>, orig: nat, q: seq<Item>, soft: set<Item>) {
    forall i :: 0 <= i < |q| && FsIn(reqs, q[i]) && q[i].id < orig ==> q[i] in soft
  }

  /** REQ_STARTED is a flag of requests that exist. */
  ghost predicate StartedArrived(s: State) {
    forall x: nat :: Norm(x) in s.started ==> x < |s.reqs|
  }

  ghost predicate OrderInv(s: State) {
    && DrainMode(s.mode) && StartedArrived(s)
    && Colors(s) && BarriersWait(s) && InArrivalOrder(s) && BehindBarriers(s)
    && Finished(s) && Running(s, s.ordseq) && Ranked(s)
    && !s.warn
  }

  lemma InitOrder(m: Mode)
    requires DrainMode(m)
    ensures OrderInv(Init(m))
  {
  }

  /** What the code relies on: only fs requests carry REQ_HARDBARRIER, and no fs
      request is inserted at the front. */
  predicate WellBehaved(e: Event) {
    e.Add? ==> (e.r.hard ==> e.r.fs) && (e.where == Front ==> !e.r.fs)
  }

  // ----- color and arrival order --------------------------------------------

  lemma WhereIs(s: State, x: nat)
    requires Places(s) && x < |s.reqs| && x !in s.ended && x !in s.sorted && Norm(x) !in s.flight && !Held(s, x)
    ensures exists k :: 0 <= k < |s.queue| && s.queue[k] == Norm(x)
  {
    assert Count(s, x) == 1;
    assert Norm(x) in s.queue;
  }

  /** A barrier that has not ended is queued, or is the one being run. */
  lemma BarrierIs(s: State, b: nat)
    requires Places(s) && BarriersWait(s) && Barrier(s, b) && b !in s.ended && !Held(s, b)
    ensures Norm(b) in s.queue
    ensures exists k :: 0 <= k < |s.queue| && s.queue[k] == Norm(b)
  {
    WhereIs(s, b);
  }

  lemma NoBarrierBefore(s: State, x: nat, b: nat)
    requires Places(s) && Colors(s) && BarriersWait(s) && BehindBarriers(s) && Finished(s)
    requires s.ordseq != IDLE && s.orig < |s.reqs|
    requires Fs(s, x) && x !in s.ended && x <= b < s.orig
    ensures !s.reqs[b].hard
  {
    if s.reqs[b].hard && b !in s.ended {
      BarrierIs(s, b);
    }
  }

  /** A barrier queued at or behind `k` arrived no earlier than an fs request at `k`. */
  lemma BehindIsLater(s: State, k: nat, b: nat)
    requires InArrivalOrder(s) && Barrier(s, b) && Norm(b) in s.queue
    requires k < |s.queue| && FsItem(s, s.queue[k])
    requires forall i :: 0 <= i < k ==> !HardItem(s, s.queue[i])
    ensures s.queue[k].id <= b
  {
    var j :| 0 <= j < |s.queue| && s.queue[j] == Norm(b);
    assert HardItem(s, s.queue[j]) && FsItem(s, s.queue[j]);
  }

  /** The running barrier has not ended, so no later one has. */
  lemma LaterNotEnded(s: State, b: nat)
    requires Places(s) && Finished(s) && s.ordseq != IDLE && Fs(s, s.orig) && s.orig < b && Barrier(s, b)
    ensures b !in s.ended
  {
    assert Count(s, s.orig) == 1;
    assert s.orig !in s.ended;
  }

  lemma NoBarrierAfter(s: State, k: nat, b: nat)
    requires Places(s) && Colors(s) && BarriersWait(s) && InArrivalOrder(s) && Finished(s)
    requires s.ordseq != IDLE && Barrier(s, s.orig)
    requires k < |s.queue| && FsItem(s, s.queue[k]) && s.orig < b < s.queue[k].id
    requires forall i :: 0 <= i < k ==> !HardItem(s, s.queue[i])
    ensures !s.reqs[b].hard
  {
    if s.reqs[b].hard {
      LaterNotEnded(s, b);
      BarrierIs(s, b);
      BehindIsLater(s, k, b);
    }
  }

  /** While the sequence runs, an outstanding earlier request has the barrier's color. */
  lemma EarlierColor(s: State, x: nat)
    requires Places(s) && Colors(s) && BarriersWait(s) && BehindBarriers(s) && Finished(s)
    requires s.ordseq != IDLE && Barrier(s, s.orig)
    requires Fs(s, x) && x < s.orig && x !in s.ended
    ensures ReqSeq(s, Norm(x)) == STAGE_DRAIN
  {
    forall b | x <= b < s.orig
      ensures !s.reqs[b].hard
    {
      NoBarrierBefore(s, x, b);
    }
    ColorSpan(s.reqs, x, s.orig);
  }

  lemma ColorsDiffer(s: State, x: nat)
    requires Colors(s) && s.orig < x && Fs(s, x) && s.reqs[s.orig].hard
    requires forall b: nat :: s.orig < b < x ==> !s.reqs[b].hard
    ensures ReqSeq(s, Norm(x)) == STAGE_DONE
  {
    ColorSpan(s.reqs, s.orig + 1, x);
    assert ColorAt(s.reqs, s.orig + 1) != ColorAt(s.reqs, s.orig);
  }

  /** ... and the first later one has the other color. */
  lemma LaterColor(s: State, k: nat)
    requires Places(s) && Colors(s) && BarriersWait(s) && InArrivalOrder(s) && Finished(s)
    requires s.ordseq != IDLE && Barrier(s, s.orig)
    requires k < |s.queue| && FsItem(s, s.queue[k]) && s.orig < s.queue[k].id
    requires forall i :: 0 <= i < k ==> !HardItem(s, s.queue[i])
    ensures ReqSeq(s, s.queue[k]) == STAGE_DONE
  {
    var x := s.queue[k].id;
    forall b: nat | s.orig < b < x
      ensures !s.reqs[b].hard
    {
      NoBarrierAfter(s, k, b);
    }
    ColorsDiffer(s, x);
  }

  /** Whatever follows a later request, the walk of a requeue meets a blocked one first. */
  lemma {:induction false} LaterBlocks(s: State, k: nat) returns (i: nat)
    requires Places(s) && Colors(s) && BarriersWait(s) && InArrivalOrder(s) && BehindBarriers(s) && Finished(s)
    requires s.ordseq != IDLE && Barrier(s, s.orig)
    requires k < |s.queue| && FsItem(s, s.queue[k]) && s.orig < s.queue[k].id
    ensures i <= k && ReqSeq(s, s.queue[i]) == STAGE_DONE
    decreases k
  {
    if j :| 0 <= j < k && HardItem(s, s.queue[j]) {
      assert FsItem(s, s.queue[j]);
      i := LaterBlocks(s, j);
    } else {
      LaterColor(s, k);
      i := k;
    }
  }
}
