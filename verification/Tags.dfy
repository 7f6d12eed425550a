/**
 Command tags (blk-tag.c): a bitmap of busy tags, an index from tag to request and a
 list of busy requests, kept in step while requests start and end and while the
 depth is changed under way.
 */
module Tags {
  import opened Options

  /** struct blk_queue_tag, with rq->tag of the requests that have one (REQ_QUEUED) and
      tag_busy_list of the one queue that uses it.  The length of both tables is
      real_max_depth. */
  datatype Tags = Tags(bits: seq<bool>, index: seq<Option<nat>>, maxDepth: nat, tag: map<nat, nat>, busy: seq<nat>)

  // ----- the operations -----------------------------------------------------

  /** find_first_zero_bit */
  function FirstZero(bits: seq<bool>, i: nat, limit: nat): (r: nat)
    requires i <= limit <= |bits|
    ensures i <= r <= limit && (r < limit ==> !bits[r]) && forall j :: i <= j < r ==> bits[j]
    decreases limit - i
  {
    if i == limit || !bits[i] then i else FirstZero(bits, i + 1, limit)
  }

  /** How far blk_queue_start_tag looks: the last two tags are kept for sync requests. */
  function Limit(depth: nat, sync: bool): nat {
    if sync || depth <= 1 then depth else if depth == 2 then 1 else depth - 2
  }

  datatype Started = Started(ok: bool, tags: Tags)

  /** blk_queue_start_tag; `async` is the number of async requests in flight. */
  function Start(t: Tags, r: nat, sync: bool, async: nat): Started
    requires t.maxDepth <= |t.bits| == |t.index|
  {
    var limit := Limit(t.maxDepth, sync);
    if !sync && t.maxDepth > 1 && async > limit then Started(false, t)
    else
      var tag := FirstZero(t.bits, 0, limit);
      if tag >= limit then Started(false, t)
      else Started(true, t.(bits := t.bits[tag := true], index := t.index[tag := Some(r)], tag := t.tag[r := tag],
                            busy := [r] + t.busy))
  }

  function Without(l: seq<nat>, r: nat): seq<nat> {
    if l == [] then [] else if l[0] == r then l[1..] else [l[0]] + Without(l[1..], r)
  }

  /** blk_queue_end_tag */
  function End(t: Tags, r: nat): Tags
    requires r in t.tag && |t.bits| == |t.index|
  {
    var tag := t.tag[r];
    if tag >= |t.bits| then t
    else t.(bits := t.bits[tag := false], index := t.index[tag := None], tag := t.tag - {r}, busy := Without(t.busy, r))
  }

  function Max(a: nat, b: nat): nat { if a > b then a else b }

  /** The depth init_tag_map settles on. */
  function Clamped(depth: nat, nrRequests: nat): nat { if depth > nrRequests * 2 then nrRequests * 2 else depth }

  /** What a copy of one table over another leaves, or the place behind the target it
      writes to. */
  datatype Copied<T> = Fits(table: seq<T>) | Outside(at: nat)

  /** memcpy from the k-th element on. */
  function Copy<T>(from: seq<T>, to: seq<T>, k: nat): Copied<T>
    requires k <= |from|
    decreases |from| - k
  {
    if k == |from| then Fits(to) else if k >= |to| then Outside(k) else Copy(from, to[k := from[k]], k + 1)
  }

  const BITS_PER_LONG: nat := 64

  /** The bits of a map come in words. */
  function Aligned(depth: nat): nat { (depth + BITS_PER_LONG - 1) / BITS_PER_LONG * BITS_PER_LONG }

  function Padded(bits: seq<bool>): seq<bool> { bits + Zeros(Aligned(|bits|) - |bits|) }

  function Zeros(n: int): (r: seq<bool>)
    ensures |r| == if n < 0 then 0 else n
    ensures forall i :: 0 <= i < |r| ==> !r[i]
  {
    if n < 0 then [] else seq(n, i requires 0 <= i < n => false)
  }

  function Nulls(n: nat): (r: seq<Option<nat>>)
    ensures |r| == n && forall i :: 0 <= i < n ==> r[i] == None
  {
    seq(n, i requires 0 <= i < n => None)
  }

  datatype Resized = Done(tags: Tags) | Busy | Overrun(at: nat)

  /** blk_queue_resize_tags: new, empty tables are made and the old ones copied, the
      index by pointers and the map by words. */
  function Resize(t: Tags, depth: nat, nrRequests: nat, shared: bool): Resized {
    if depth <= |t.bits| then Done(t.(maxDepth := depth))
    else if shared then Busy
    else
      var d := Clamped(depth, nrRequests);
      var index := Copy(t.index, Nulls(d), 0);
      var words := Copy(Padded(t.bits), Zeros(Aligned(d)), 0);
      if index.Outside? then Overrun(index.at)
      else if words.Outside? then Overrun(words.at)
      else Done(t.(bits := words.table[..if d <= |words.table| then d else |words.table|], index := index.table, maxDepth := d))
  }

  /** blk_queue_find_tag */
  function Find(t: Tags, tag: nat): Option<nat> { if tag < |t.index| then t.index[tag] else None }

  // ----- the correspondence -------------------------------------------------

  predicate NoDup(l: seq<nat>) { l == [] || (l[0] !in l[1..] && NoDup(l[1..])) }

  /** Set bits, filled slots and tagged requests correspond one to one. */
  ghost predicate MapInv(bits: seq<bool>, index: seq<Option<nat>>, tag: map<nat, nat>) {
    && |bits| == |index|
    && (forall i :: 0 <= i < |bits| ==> (bits[i] <==> index[i].Some?))
    && (forall i :: 0 <= i < |index| && index[i].Some? ==> index[i].value in tag && tag[index[i].value] == i)
    && (forall r :: r in tag ==> tag[r] < |index| && index[tag[r]] == Some(r))
  }

  /** The busy list has the tagged requests, each once. */
  ghost predicate ListInv(busy: seq<nat>, tag: map<nat, nat>) { NoDup(busy) && forall r :: r in tag <==> r in busy }

  ghost predicate Inv(t: Tags) { MapInv(t.bits, t.index, t.tag) && ListInv(t.busy, t.tag) && t.maxDepth <= |t.bits| }

  lemma {:induction false} WithoutIs(l: seq<nat>, r: nat)
    requires NoDup(l)
    ensures NoDup(Without(l, r)) && forall x :: x in Without(l, r) <==> x in l && x != r
  {
    if l != [] {
      assert l == [l[0]] + l[1..];
      WithoutIs(l[1..], r);
    }
  }

  lemma StartKept(t: Tags, r: nat, sync: bool, async: nat)
    requires Inv(t) && r !in t.tag
    ensures Inv(Start(t, r, sync, async).tags)
  {
    var s := Start(t, r, sync, async);
    if s.ok {
      assert s.tags.busy[1..] == t.busy;
      assert forall x :: x in s.tags.busy <==> x == r || x in t.busy;
    }
  }

  /** It takes the lowest free tag; it fails exactly when no tag below the limit is
      free or too many async requests are in flight. */
  lemma StartIs(t: Tags, r: nat, sync: bool, async: nat)
    requires Inv(t) && r !in t.tag
    ensures var s, limit := Start(t, r, sync, async), Limit(t.maxDepth, sync);
            && (s.ok <==> (sync || t.maxDepth <= 1 || async <= limit) && exists i :: 0 <= i < limit && !t.bits[i])
            && (s.ok ==> var tag := s.tags.tag[r];
                  tag < limit && !t.bits[tag] && (forall i :: 0 <= i < tag ==> t.bits[i]) && Find(s.tags, tag) == Some(r))
            && (!s.ok ==> s.tags == t)
  {
    var limit := Limit(t.maxDepth, sync);
    var f := FirstZero(t.bits, 0, limit);
    if f < limit {
      assert !t.bits[f];
    }
  }

  /** Async requests leave two tags alone, if there are more than two. */
  lemma AsyncReserve(t: Tags, r: nat, async: nat)
    requires Inv(t) && r !in t.tag && t.maxDepth > 2 && Start(t, r, false, async).ok
    ensures Start(t, r, false, async).tags.tag[r] + 2 < t.maxDepth
  {
    StartIs(t, r, false, async);
  }

  lemma EndKept(t: Tags, r: nat)
    requires Inv(t) && r in t.tag
    ensures Inv(End(t, r)) && End(t, r).tag == t.tag - {r} && End(t, r).busy == Without(t.busy, r)
    ensures |End(t, r).bits| == |t.bits| && End(t, r).maxDepth == t.maxDepth
  {
    WithoutIs(t.busy, r);
    EndMap(t, r);
  }

  lemma EndMap(t: Tags, r: nat)
    requires Inv(t) && r in t.tag
    ensures MapInv(End(t, r).bits, End(t, r).index, t.tag - {r})
  {
    assert t.index[t.tag[r]] == Some(r);
  }

  /** A copy stays inside exactly if the target is no shorter; else the first element
      written outside is the one right behind the target. */
  lemma {:induction false} CopyIs<T>(from: seq<T>, to: seq<T>, k: nat)
    requires k <= |from| && k <= |to| && to[..k] == from[..k]
    ensures Copy(from, to, k) == if |from| <= |to| then Fits(from + to[|from|..]) else Outside(|to|)
    decreases |from| - k
  {
    if k == |from| {
      assert to == from + to[|from|..];
    } else if k < |to| {
      var next := to[k := from[k]];
      assert next[..k + 1] == to[..k] + [from[k]] && from[..k + 1] == from[..k] + [from[k]];
      assert |from| <= |to| ==> next[|from|..] == to[|from|..];
      CopyIs(from, next, k + 1);
    }
  }

  lemma AlignedIs(a: nat, b: nat)
    ensures a <= Aligned(a)
    ensures a <= b ==> Aligned(a) <= Aligned(b)
  {
    assert Aligned(a) == (a + BITS_PER_LONG - 1) - (a + BITS_PER_LONG - 1) % BITS_PER_LONG;
  }

  /** What growing makes of the tables when both copies stay inside. */
  lemma Grown(t: Tags, depth: nat, nrRequests: nat)
    requires Inv(t) && depth > |t.bits| && |t.bits| <= Clamped(depth, nrRequests)
    ensures var d := Clamped(depth, nrRequests);
            Resize(t, depth, nrRequests, false) ==
            Done(t.(bits := t.bits + Zeros(d - |t.bits|), index := t.index + Nulls(d - |t.index|), maxDepth := d))
  {
    var d, n := Clamped(depth, nrRequests), |t.bits|;
    CopyIs(t.index, Nulls(d), 0);
    assert Nulls(d)[n..] == Nulls(d - n);
    AlignedIs(n, d);
    AlignedIs(d, d);
    CopyIs(Padded(t.bits), Zeros(Aligned(d)), 0);
    var words := Padded(t.bits) + Zeros(Aligned(d))[Aligned(n)..];
    assert words[..d] == t.bits + Zeros(d - n);
  }

  lemma ResizeKept(t: Tags, depth: nat, nrRequests: nat, shared: bool)
    requires Inv(t)
    ensures var z := Resize(t, depth, nrRequests, shared);
            z.Done? ==> Inv(z.tags) && z.tags.tag == t.tag && z.tags.busy == t.busy && z.tags.maxDepth <= depth
  {
    if depth > |t.bits| && !shared {
      CopyIs(t.index, Nulls(Clamped(depth, nrRequests)), 0);
      if |t.bits| <= Clamped(depth, nrRequests) {
        Grown(t, depth, nrRequests);
      }
    }
  }

  /** Growing copies inside the new tables, and keeps all there is, exactly when the
      depth is not clamped below the old one; otherwise the entry right behind the new
      index is written. */
  lemma GrowExactlyWhen(t: Tags, depth: nat, nrRequests: nat)
    requires Inv(t) && depth > |t.bits|
    ensures var z := Resize(t, depth, nrRequests, false);
            && (z.Done? && Inv(z.tags) && z.tags.tag == t.tag && z.tags.busy == t.busy <==> nrRequests * 2 >= |t.bits|)
            && (nrRequests * 2 < |t.bits| ==> z == Overrun(Clamped(depth, nrRequests)) && Clamped(depth, nrRequests) < |t.index|)
  {
    CopyIs(t.index, Nulls(Clamped(depth, nrRequests)), 0);
    ResizeKept(t, depth, nrRequests, false);
    if nrRequests * 2 >= |t.bits| {
      Grown(t, depth, nrRequests);
    }
  }

  /** Whatever is made of tables that short, a request in flight under a tag behind
      them is not found any more. */
  lemma ClampedLoses(t: Tags, z: Tags, r: nat)
    requires Inv(t) && r in t.tag && z.tag == t.tag && |z.index| <= t.tag[r]
    ensures !Inv(z) && Find(z, t.tag[r]) == None
  {
  }

  /** An empty map for 64 tags, grown to 65 on a queue for 16 requests, is clamped to 32
      entries, and the 33rd is written. */
  lemma GrowOverruns()
    ensures var t := Tags(Zeros(64), Nulls(64), 64, map[], []);
            Inv(t) && Resize(t, 65, 16, false) == Overrun(32)
  {
    var t := Tags(Zeros(64), Nulls(64), 64, map[], []);
    assert Inv(t);
    GrowExactlyWhen(t, 65, 16);
  }

  /** A request in flight is found under its own tag, and nothing else is found. */
  lemma FindIs(t: Tags, tag: nat, r: nat)
    requires Inv(t)
    ensures Find(t, tag) == Some(r) <==> r in t.tag && t.tag[r] == tag
  {
  }

  // ----- invalidation -------------------------------------------------------

  /** blk_queue_invalidate_tags: the busy requests end, from the head of the list. */
  ghost function Invalidate(t: Tags): Tags
    requires Inv(t)
    decreases |t.busy|
  {
    if t.busy == [] then t
    else
      assert t.busy[0] in t.busy;
      EndKept(t, t.busy[0]);
      Invalidate(End(t, t.busy[0]))
  }

  lemma InvalidateStep(t: Tags)
    requires Inv(t) && t.busy != []
    ensures t.busy[0] in t.tag && Inv(End(t, t.busy[0])) && End(t, t.busy[0]).busy == t.busy[1..]
    ensures Invalidate(End(t, t.busy[0])) == Invalidate(t)
  {
    assert t.busy[0] in t.busy;
    EndKept(t, t.busy[0]);
  }

  /** It frees every tag. */
  lemma {:induction false} InvalidateFrees(t: Tags)
    requires Inv(t)
    ensures var z := Invalidate(t);
            && Inv(z) && z.tag == map[] && z.busy == [] && |z.bits| == |t.bits| && z.maxDepth == t.maxDepth
            && (forall i :: 0 <= i < |z.bits| ==> !z.bits[i] && z.index[i] == None)
    decreases |t.busy|
  {
    if t.busy == [] {
      assert forall r :: r !in t.tag;
      assert t.tag == map[];
    } else {
      assert t.busy[0] in t.busy;
      EndKept(t, t.busy[0]);
      InvalidateFrees(End(t, t.busy[0]));
    }
  }

  // ----- runs ---------------------------------------------------------------

  datatype Event = StartEvent(r: nat, sync: bool, async: nat) | EndEvent(r: nat)
                 | ResizeEvent(depth: nat, nrRequests: nat, shared: bool) | InvalidateEvent

  /** A tagged request is not started again, an untagged one does not end, and the
      tables are not made smaller than they are. */
  predicate Allowed(t: Tags, e: Event) {
    match e
    case StartEvent(r, _, _) => r !in t.tag
    case EndEvent(r) => r in t.tag
    case ResizeEvent(depth, nrRequests, shared) => depth <= |t.bits| || shared || nrRequests * 2 >= |t.bits|
    case InvalidateEvent => true
  }

  ghost function Step(t: Tags, e: Event): Tags
    requires Inv(t) && Allowed(t, e)
  {
    match e
    case StartEvent(r, sync, async) => Start(t, r, sync, async).tags
    case EndEvent(r) => End(t, r)
    case ResizeEvent(depth, nrRequests, shared) =>
      var z := Resize(t, depth, nrRequests, shared); if z.Done? then z.tags else t
    case InvalidateEvent => Invalidate(t)
  }

  lemma StepKept(t: Tags, e: Event)
    requires Inv(t) && Allowed(t, e)
    ensures Inv(Step(t, e))
  {
    match e {
      case StartEvent(r, sync, async) => StartKept(t, r, sync, async);
      case EndEvent(r) => EndKept(t, r);
      case ResizeEvent(depth, nrRequests, shared) => ResizeKept(t, depth, nrRequests, shared);
      case InvalidateEvent => InvalidateFrees(t);
    }
  }

  ghost predicate RunOk(t: Tags, es: seq<Event>)
    requires Inv(t)
    decreases |es|
  {
    es == [] || (Allowed(t, es[0]) && (StepKept(t, es[0]); RunOk(Step(t, es[0]), es[1..])))
  }

  ghost function Run(t: Tags, es: seq<Event>): Tags
    requires Inv(t) && RunOk(t, es)
    decreases |es|
  {
    if es == [] then t else StepKept(t, es[0]); Run(Step(t, es[0]), es[1..])
  }

  /** After any run a request in flight is found under its own tag and under no other. */
  lemma {:induction false} RunKept(t: Tags, es: seq<Event>, tag: nat, r: nat)
    requires Inv(t) && RunOk(t, es)
    ensures Inv(Run(t, es)) && (Find(Run(t, es), tag) == Some(r) <==> r in Run(t, es).tag && Run(t, es).tag[r] == tag)
    decreases |es|
  {
    if es == [] {
      FindIs(t, tag, r);
    } else {
      StepKept(t, es[0]);
      RunKept(Step(t, es[0]), es[1..], tag, r);
    }
  }

  // ----- the object ---------------------------------------------------------

  lemma Regroup(a: seq<nat>, r: nat, b: seq<nat>, c: seq<nat>)
    requires [r] + b == c
    ensures a + [r] + b == a + c
  {
  }

  class TagMap {
    var bits: array<bool>
    var index: array<Option<nat>>
    var maxDepth: nat
    var tag: map<nat, nat>
    var busy: seq<nat>

    ghost function View(): Tags
      reads this, bits, index
    {
      Tags(bits[..], index[..], maxDepth, tag, busy)
    }

    ghost predicate Valid()
      reads this, bits, index
    {
      Inv(View())
    }

    /** init_tag_map for a new map */
    constructor (depth: nat, nrRequests: nat)
      ensures Valid() && fresh(bits) && fresh(index)
      ensures bits.Length == maxDepth == Clamped(depth, nrRequests) && tag == map[] && busy == []
    {
      var d := if depth > nrRequests * 2 then nrRequests * 2 else depth;
      bits := new bool[d](_ => false);
      index := new Option<nat>[d](_ => None);
      maxDepth, tag, busy := d, map[], [];
    }

    /** find_first_zero_bit */
    method FindFirstZero(limit: nat) returns (i: nat)
      requires limit <= bits.Length
      ensures i == FirstZero(bits[..], 0, limit)
    {
      i := 0;
      while i < limit && bits[i]
        invariant 0 <= i <= limit
        invariant FirstZero(bits[..], 0, limit) == FirstZero(bits[..], i, limit)
        decreases limit - i
      {
        i := i + 1;
      }
    }

    /** How many of the tags the request may choose from. */
    method ChooseDepth(sync: bool) returns (depth: nat)
      ensures depth == Limit(maxDepth, sync)
    {
      depth := maxDepth;
      if !sync && depth > 1 {
        depth := depth - 2;
        if depth == 0 {
          depth := 1;
        }
      }
    }

    /** The free tag `i` is given to the request. */
    method Take(r: nat, i: nat)
      requires i < bits.Length == index.Length && r !in tag
      modifies `tag, `busy, bits, index
      ensures View() == old(View()).(bits := old(bits[..])[i := true], index := old(index[..])[i := Some(r)],
                                     tag := old(tag)[r := i], busy := [r] + old(busy))
    {
      bits[i] := true;
      index[i] := Some(r);
      tag := tag[r := i];
      busy := [r] + busy;
    }

    /** blk_queue_start_tag; the result is whether a tag was found. */
    method StartTag(r: nat, sync: bool, async: nat) returns (ok: bool)
      requires Valid() && r !in tag
      modifies this, bits, index
      ensures Valid() && bits == old(bits) && index == old(index)
      ensures Started(ok, View()) == Start(old(View()), r, sync, async)
    {
      StartKept(View(), r, sync, async);
      var depth := ChooseDepth(sync);
      if !sync && maxDepth > 1 && async > depth {
        return false;
      }
      var i := FindFirstZero(depth);
      if i >= depth {
        return false;
      }
      Take(r, i);
      ok := true;
    }

    /** blk_queue_end_tag */
    method EndTag(r: nat)
      requires Valid() && r in tag
      modifies this, bits, index
      ensures Valid() && bits == old(bits) && index == old(index)
      ensures View() == End(old(View()), r)
    {
      EndKept(View(), r);
      var i := tag[r];
      if i >= bits.Length {
        return;
      }
      busy := Without(busy, r);
      tag := tag - {r};
      index[i] := None;
      bits[i] := false;
    }

    /** blk_queue_resize_tags; `outside` is the entry behind the new index that the copy
        writes to, after which nothing is promised. */
    method ResizeTags(depth: nat, nrRequests: nat, shared: bool) returns (ok: bool, outside: Option<nat>)
      requires Valid()
      modifies this
      ensures outside.Some? <==> Resize(old(View()), depth, nrRequests, shared).Overrun?
      ensures outside.Some? ==> Resize(old(View()), depth, nrRequests, shared) == Overrun(outside.value)
      ensures outside.None? ==> Valid() && (bits == old(bits) || fresh(bits)) && (index == old(index) || fresh(index))
      ensures ok <==> Resize(old(View()), depth, nrRequests, shared).Done?
      ensures outside.None? ==> View() == if ok then Resize(old(View()), depth, nrRequests, shared).tags else old(View())
    {
      if depth <= bits.Length {
        maxDepth := depth;
        return true, None;
      }
      if shared {
        return false, None;
      }
      ResizeKept(View(), depth, nrRequests, shared);
      GrowExactlyWhen(View(), depth, nrRequests);
      var d := if depth > nrRequests * 2 then nrRequests * 2 else depth;
      if d >= bits.Length {
        Grown(View(), depth, nrRequests);
      }
      outside := Grow(d);
      ok := outside.None?;
    }

    /** The new tables start with a copy of the old ones, element by element. */
    method Grow(d: nat) returns (outside: Option<nat>)
      requires index.Length == bits.Length
      modifies this
      ensures outside == if d < old(bits.Length) then Some(d) else None
      ensures outside.None? ==>
                && fresh(bits) && fresh(index)
                && bits[..] == old(bits[..]) + Zeros(d - old(bits.Length))
                && index[..] == old(index[..]) + Nulls(d - old(bits.Length))
                && maxDepth == d && tag == old(tag) && busy == old(busy)
    {
      var newBits := new bool[d](_ => false);
      var newIndex := new Option<nat>[d](_ => None);
      var k := 0;
      while k < index.Length
        invariant 0 <= k <= index.Length && k <= d
        invariant bits == old(bits) && index == old(index) && tag == old(tag) && busy == old(busy)
        invariant forall i :: 0 <= i < d ==> newBits[i] == (i < k && bits[i])
        invariant forall i :: 0 <= i < d ==> newIndex[i] == if i < k then index[i] else None
        decreases index.Length - k
      {
        if k >= d {
          return Some(k);
        }
        newIndex[k] := index[k];
        newBits[k] := bits[k];
        k := k + 1;
      }
      bits, index, maxDepth := newBits, newIndex, d;
      outside := None;
    }

    /** blk_queue_invalidate_tags; `requeued` is what is given back to the elevator. */
    method InvalidateTags() returns (requeued: seq<nat>)
      requires Valid()
      modifies this, bits, index
      ensures Valid() && View() == Invalidate(old(View())) && requeued == old(busy)
      ensures bits == old(bits) && index == old(index)
    {
      requeued := [];
      ghost var result, all := Invalidate(View()), busy;
      while busy != []
        invariant Valid() && bits == old(bits) && index == old(index)
        invariant Invalidate(View()) == result && requeued + busy == all
        decreases |busy|
      {
        ghost var left := busy;
        var r := EndFirst();
        Regroup(requeued, r, busy, left);
        requeued := requeued + [r];
      }
    }

    /** blk_requeue_request for the first busy request */
    method EndFirst() returns (r: nat)
      requires Valid() && busy != []
      modifies this, bits, index
      ensures Valid() && bits == old(bits) && index == old(index)
      ensures [r] + busy == old(busy) && Invalidate(View()) == Invalidate(old(View()))
    {
      InvalidateStep(View());
      r := busy[0];
      EndTag(r);
    }

    /** blk_queue_find_tag */
    method FindTag(i: nat) returns (r: Option<nat>)
      requires Valid()
      ensures r == Find(View(), i)
      ensures forall x :: r == Some(x) <==> x in tag && tag[x] == i
    {
      r := None;
      if i < index.Length {
        r := index[i];
      }
      forall x
        ensures r == Some(x) <==> x in tag && tag[x] == i
      {
        FindIs(View(), i, x);
      }
    }
  }
}
