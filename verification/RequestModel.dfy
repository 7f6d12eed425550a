/**
 Requests and their bio chains (blk-core.c, blk-merge.c): building a request from
 a bio, merging a bio at either end, merging two requests, completing bytes from
 the front, and the failfast bits kept along the way.  Bios carry data; discards
 are not part of this model.
 */
module RequestModel {
  import opened Segments

  /** REQ_FAILFAST_MASK holds three bits. */
  datatype FailFast = Dev | Transport | Driver

  function FailFastMask(): set<FailFast> { {Dev, Transport, Driver} }

  const SECTOR: nat := 512
  const EIO: int := 5

  /** struct bio: `vecs` are the bio_vecs from bi_idx on; `counted` is
      BIO_SEG_VALID, and segs, front and back are bi_phys_segments,
      bi_seg_front_size and bi_seg_back_size. */
  datatype Bio = Bio(id: nat, sector: nat, size: nat, vecs: seq<Vec>,
                     counted: bool, segs: nat, front: nat, back: nat,
                     ff: set<FailFast>, ahead: bool, barrier: bool, uptodate: bool,
                     write: bool, disk: nat)

  /** struct request: `bios` is the chain from bio to biotail; `noMerge` stands for
      REQ_NOMERGE and the barrier flags. */
  datatype Request = Request(bios: seq<Bio>, sector: nat, dataLen: nat, segs: nat,
                             ff: set<FailFast>, mixed: bool, write: bool, disk: nat,
                             special: bool, noMerge: bool, started: bool)

  function Vecs(bios: seq<Bio>): seq<Vec> {
    if bios == [] then [] else Vecs(bios[..|bios| - 1]) + bios[|bios| - 1].vecs
  }

  function Max(a: nat, b: nat): nat { if a > b then a else b }

  // ----- counting one bio ---------------------------------------------------

  /** blk_recount_segments */
  function Recounted(q: Limits, b: Bio): Bio {
    var r := RecountOf(Greedy(q, true, b.vecs));
    b.(counted := true, segs := r.segs, front := Max(b.front, r.first), back := Max(b.back, r.last))
  }

  function Counted(q: Limits, b: Bio): Bio { if b.counted then b else Recounted(q, b) }

  // ----- a new request ------------------------------------------------------

  /** init_request_from_bio and blk_rq_bio_prep */
  function FromBio(q: Limits, bio: Bio): Request {
    var b := Counted(q, bio);
    Request([b], b.sector, b.size, b.segs, if b.ahead then FailFastMask() else b.ff, false,
            b.write, b.disk, false, b.barrier, false)
  }

  // ----- merging a bio ------------------------------------------------------

  predicate Mergeable(rq: Request) { !rq.noMerge && !rq.started }

  /** elv_rq_merge_ok */
  predicate MergeOk(rq: Request, bio: Bio) {
    Mergeable(rq) && bio.write == rq.write && rq.disk == bio.disk && !rq.special
  }

  /** The sector conditions under which elv_merge proposes a merge. */
  predicate Adjacent(rq: Request, bio: Bio, back: bool) {
    if back then rq.sector + rq.dataLen / SECTOR == bio.sector
    else rq.sector == bio.sector + bio.size / SECTOR
  }

  datatype Attempt = Attempt(ok: bool, rq: Request, bio: Bio)

  /** The bio the new one is going to be next to is counted. */
  function CountEnd(q: Limits, bios: seq<Bio>, back: bool): seq<Bio>
    requires bios != []
  {
    var i := if back then |bios| - 1 else 0;
    bios[i := Counted(q, bios[i])]
  }

  predicate TooMany(q: Limits, segs: nat) { segs > q.maxHwSegments || segs > q.maxPhysSegments }

  /** ll_back_merge_fn, ll_front_merge_fn and ll_new_hw_segment */
  function TryMerge(q: Limits, rq: Request, bio: Bio, back: bool): Attempt
    requires rq.bios != []
  {
    if rq.dataLen / SECTOR + bio.size / SECTOR > q.maxSectors then Attempt(false, rq.(noMerge := true), bio)
    else
      var bios, b := CountEnd(q, rq.bios, back), Counted(q, bio);
      if TooMany(q, rq.segs + b.segs) then Attempt(false, rq.(bios := bios, noMerge := true), b)
      else Attempt(true, rq.(bios := bios, segs := rq.segs + b.segs), b)
  }

  function Spread(bios: seq<Bio>, ff: set<FailFast>): (r: seq<Bio>)
    ensures |r| == |bios| && forall i :: 0 <= i < |bios| ==> r[i] == bios[i].(ff := bios[i].ff + ff)
  {
    if bios == [] then [] else Spread(bios[..|bios| - 1], ff) + [bios[|bios| - 1].(ff := bios[|bios| - 1].ff + ff)]
  }

  /** blk_rq_set_mixed_merge */
  function SetMixed(rq: Request): Request {
    if rq.mixed then rq else rq.(bios := Spread(rq.bios, rq.ff), mixed := true)
  }

  /** The two merge cases of __make_request. */
  function Joined(rq: Request, b: Bio, back: bool): Request {
    var m := if rq.ff != b.ff then SetMixed(rq) else rq;
    if back then m.(bios := m.bios + [b], dataLen := m.dataLen + b.size)
    else m.(bios := [b] + m.bios, ff := b.ff, sector := b.sector, dataLen := m.dataLen + b.size)
  }

  // ----- merging two requests -----------------------------------------------

  datatype Pair = Pair(ok: bool, req: Request, next: Request)

  /** blk_phys_contig_segment */
  predicate Contiguous(q: Limits, a: Bio, b: Bio)
    requires a.vecs != [] && b.vecs != []
  {
    a.back + b.front <= q.maxSegmentSize && Joinable(q, a.vecs[|a.vecs| - 1], b.vecs[0])
  }

  /** What the callers of the merge functions rely on: data, and so a segment. */
  predicate HasData(rq: Request) {
    rq.bios != [] && rq.segs > 0 && forall i :: 0 <= i < |rq.bios| ==> rq.bios[i].vecs != []
  }

  function SetFront(bios: seq<Bio>, size: nat): seq<Bio>
    requires bios != []
  {
    bios[0 := bios[0].(front := size)]
  }

  function SetBack(bios: seq<Bio>, size: nat): seq<Bio>
    requires bios != []
  {
    bios[|bios| - 1 := bios[|bios| - 1].(back := size)]
  }

  /** With one segment only, the first and the last one are the joined one. */
  function FrontBios(bios: seq<Bio>, segs: nat, size: nat): seq<Bio>
    requires bios != []
  {
    if segs == 1 then SetFront(bios, size) else bios
  }

  function BackBios(bios: seq<Bio>, segs: nat, size: nat): seq<Bio>
    requires bios != []
  {
    if segs == 1 then SetBack(bios, size) else bios
  }

  /** The end of ll_merge_requests_fn: the limits on segments. */
  function Settle(q: Limits, req: Request, next: Request, total: nat): Pair {
    if TooMany(q, total) then Pair(false, req, next) else Pair(true, req.(segs := total), next)
  }

  /** ll_merge_requests_fn: the sizes are raised before the limits are looked at. */
  function TryMergeRequests(q: Limits, req: Request, next: Request): Pair
    requires HasData(req) && HasData(next)
  {
    var a, b := req.bios[|req.bios| - 1], next.bios[0];
    if req.special || next.special then Pair(false, req, next)
    else if req.dataLen / SECTOR + next.dataLen / SECTOR > q.maxSectors then Pair(false, req, next)
    else if Contiguous(q, a, b) then
      var size := a.back + b.front;
      Settle(q, req.(bios := FrontBios(req.bios, req.segs, size)), next.(bios := BackBios(next.bios, next.segs, size)),
             req.segs + next.segs - 1)
    else Settle(q, req, next, req.segs + next.segs)
  }

  /** attempt_merge; a merged `next` is left without bios. */
  function AttemptMerge(q: Limits, req: Request, next: Request): Pair
    requires HasData(req) && HasData(next)
  {
    if !Mergeable(req) || !Mergeable(next) || req.sector + req.dataLen / SECTOR != next.sector
       || req.write != next.write || req.disk != next.disk || next.special
    then Pair(false, req, next)
    else
      var p := TryMergeRequests(q, req, next);
      if !p.ok then p
      else
        var mix := req.mixed || next.mixed || req.ff != next.ff;
        var r := if mix then SetMixed(p.req) else p.req;
        var n := if mix then SetMixed(p.next) else p.next;
        Pair(true, r.(bios := r.bios + n.bios, dataLen := r.dataLen + n.dataLen), n.(bios := []))
  }
}
