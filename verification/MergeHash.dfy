/**
 The hash in which elevator.c looks for a request that ends where a bio begins.
 Requests are hashed by the sector behind their last one, and stay in the bucket of
 that sector through merges; the search drops requests it finds unmergeable.
 */
module MergeHash {
  import opened Options

  datatype Rq = Rq(pos: nat, sectors: nat, mergeable: bool)

  /** rq_hash_key */
  function Key(r: Rq): nat { r.pos + r.sectors }

  /** The buckets, with any hash function; `sorted` are the requests the elevator has. */
  datatype Hash = Hash(bucket: nat -> nat, lists: seq<seq<nat>>, rqs: map<nat, Rq>, sorted: set<nat>)

  // ----- the operations -----------------------------------------------------

  /** The hash function gives a bucket there is. */
  ghost predicate InRange(h: Hash) { forall k: nat :: h.bucket(k) < |h.lists| }

  function Without(l: seq<nat>, id: nat): seq<nat> {
    if l == [] then [] else if l[0] == id then l[1..] else [l[0]] + Without(l[1..], id)
  }

  /** __elv_rqhash_del: off whatever list it is on */
  function Del(lists: seq<seq<nat>>, id: nat): seq<seq<nat>> { seq(|lists|, b requires 0 <= b < |lists| => Without(lists[b], id)) }

  /** elv_rqhash_add */
  function Add(h: Hash, id: nat): Hash
    requires id in h.rqs && h.bucket(Key(h.rqs[id])) < |h.lists|
  {
    var b := h.bucket(Key(h.rqs[id]));
    h.(lists := h.lists[b := [id] + h.lists[b]])
  }

  /** ELEVATOR_INSERT_SORT */
  function Insert(h: Hash, id: nat, r: Rq): Hash
    requires InRange(h)
  {
    var h1 := h.(rqs := h.rqs[id := r], sorted := h.sorted + {id});
    if r.mergeable then Add(h1, id) else h1
  }

  /** elv_rqhash_reposition, after the request has changed to `r` */
  function Reposition(h: Hash, id: nat, r: Rq): Hash
    requires InRange(h) && id in h.rqs
  {
    Add(h.(rqs := h.rqs[id := r], lists := Del(h.lists, id)), id)
  }

  /** elv_merged_request for a back merge */
  function BackMerged(h: Hash, id: nat, sectors: nat): Hash
    requires InRange(h) && id in h.rqs
  {
    Reposition(h, id, h.rqs[id].(sectors := h.rqs[id].sectors + sectors))
  }

  /** A front merge: the sector is lowered and the length grows as much. */
  function FrontMerged(h: Hash, id: nat, sectors: nat): Hash
    requires id in h.rqs && sectors <= h.rqs[id].pos
  {
    h.(rqs := h.rqs[id := h.rqs[id].(pos := h.rqs[id].pos - sectors, sectors := h.rqs[id].sectors + sectors)])
  }

  /** elv_dispatch_sort and elv_dispatch_add_tail */
  function Dispatch(h: Hash, id: nat): Hash { h.(lists := Del(h.lists, id), sorted := h.sorted - {id}) }

  /** elv_merge_requests: the request has grown by `next`, which goes away. */
  function MergedRequests(h: Hash, id: nat, next: nat): Hash
    requires InRange(h) && id in h.rqs && next in h.rqs && id != next
  {
    Dispatch(Reposition(h, id, h.rqs[id].(sectors := h.rqs[id].sectors + h.rqs[next].sectors)), next)
  }

  /** REQ_NOMERGE is set, or the request is started. */
  function Forbid(h: Hash, id: nat): Hash
    requires id in h.rqs
  {
    h.(rqs := h.rqs[id := h.rqs[id].(mergeable := false)])
  }

  /** The loop of elv_rqhash_find: what is left of the list, and what was found. */
  datatype Walk = Walk(kept: seq<nat>, found: Option<nat>)

  function Search(rqs: map<nat, Rq>, l: seq<nat>, offset: nat): Walk
    requires forall i :: 0 <= i < |l| ==> l[i] in rqs
  {
    if l == [] then Walk([], None)
    else if !rqs[l[0]].mergeable then Search(rqs, l[1..], offset)
    else if Key(rqs[l[0]]) == offset then Walk(l, Some(l[0]))
    else var w := Search(rqs, l[1..], offset); Walk([l[0]] + w.kept, w.found)
  }

  // ----- what they keep -----------------------------------------------------

  predicate NoDup(l: seq<nat>) { l == [] || (l[0] !in l[1..] && NoDup(l[1..])) }

  /** A bucket holds known requests with its own keys, each once. */
  ghost predicate BucketOk(bucket: nat -> nat, l: seq<nat>, b: nat, rqs: map<nat, Rq>) {
    NoDup(l) && forall id :: id in l ==> id in rqs && bucket(Key(rqs[id])) == b
  }

  ghost predicate HashOk(h: Hash) {
    && InRange(h)
    && (forall b :: 0 <= b < |h.lists| ==> BucketOk(h.bucket, h.lists[b], b, h.rqs))
  }

  predicate Hashed(h: Hash, id: nat) {
    id in h.rqs && var b := h.bucket(Key(h.rqs[id])); b < |h.lists| && id in h.lists[b]
  }

  /** Every mergeable request the elevator has is hashed. */
  ghost predicate Complete(h: Hash) {
    forall id :: id in h.sorted ==> id in h.rqs && (h.rqs[id].mergeable ==> Hashed(h, id))
  }

  /** Only requests the elevator has are hashed. */
  ghost predicate Confined(h: Hash) { forall id :: Hashed(h, id) ==> id in h.sorted }

  ghost predicate Inv(h: Hash) { HashOk(h) && Complete(h) && Confined(h) }

  lemma {:induction false} WithoutIs(l: seq<nat>, id: nat)
    requires NoDup(l)
    ensures NoDup(Without(l, id)) && forall x :: x in Without(l, id) <==> x in l && x != id
  {
    if l != [] {
      assert l == [l[0]] + l[1..];
      WithoutIs(l[1..], id);
    }
  }

  /** The search finds a mergeable request with the key asked for if the list has one;
      it drops unmergeable ones only. */
  lemma {:induction false} SearchIs(rqs: map<nat, Rq>, l: seq<nat>, offset: nat)
    requires NoDup(l) && forall i :: 0 <= i < |l| ==> l[i] in rqs
    ensures var w := Search(rqs, l, offset);
            && (w.found.Some? ==> w.found.value in l && rqs[w.found.value].mergeable && Key(rqs[w.found.value]) == offset)
            && (w.found.None? ==> forall x :: x in l && rqs[x].mergeable ==> Key(rqs[x]) != offset)
            && NoDup(w.kept) && (forall x :: x in w.kept ==> x in l) && (forall x :: x in l && rqs[x].mergeable ==> x in w.kept)
  {
    if l != [] {
      assert l == [l[0]] + l[1..];
      SearchIs(rqs, l[1..], offset);
    }
  }

  /** elv_rqhash_find */
  function Find(h: Hash, offset: nat): (Hash, Option<nat>)
    requires HashOk(h)
  {
    var b := h.bucket(offset);
    assert BucketOk(h.bucket, h.lists[b], b, h.rqs);
    var w := Search(h.rqs, h.lists[b], offset);
    (h.(lists := h.lists[b := w.kept]), w.found)
  }

  /** A request is found exactly when the elevator has a mergeable one ending at the
      offset, wherever it is; and the search changes nothing that matters. */
  lemma FindIs(h: Hash, offset: nat)
    requires Inv(h)
    ensures var (h', r) := Find(h, offset);
            && (r.Some? <==> exists id :: id in h.sorted && h.rqs[id].mergeable && Key(h.rqs[id]) == offset)
            && (r.Some? ==> r.value in h.sorted && h.rqs[r.value].mergeable && Key(h.rqs[r.value]) == offset)
            && Inv(h') && h'.rqs == h.rqs && h'.sorted == h.sorted
  {
    var b := h.bucket(offset);
    assert BucketOk(h.bucket, h.lists[b], b, h.rqs);
    SearchIs(h.rqs, h.lists[b], offset);
    var (h', r) := Find(h, offset);
    if r.Some? {
      assert Hashed(h, r.value);
    }
    forall id | id in h.sorted && h.rqs[id].mergeable
      ensures Hashed(h', id) && (Key(h.rqs[id]) == offset ==> id in h.lists[b])
    {
      assert Hashed(h, id);
    }
    forall id | Hashed(h', id)
      ensures id in h.sorted
    {
      assert Hashed(h, id);
    }
  }

  lemma DelOk(h: Hash, id: nat)
    requires HashOk(h)
    ensures HashOk(h.(lists := Del(h.lists, id)))
    ensures forall x :: Hashed(h.(lists := Del(h.lists, id)), x) <==> Hashed(h, x) && x != id
    ensures forall b :: 0 <= b < |h.lists| ==> id !in Del(h.lists, id)[b]
  {
    var d := Del(h.lists, id);
    forall b | 0 <= b < |h.lists|
      ensures BucketOk(h.bucket, d[b], b, h.rqs) && forall x :: x in d[b] <==> x in h.lists[b] && x != id
    {
      assert BucketOk(h.bucket, h.lists[b], b, h.rqs);
      WithoutIs(h.lists[b], id);
    }
  }

  /** A request on no list may be given a new position and length. */
  lemma RenewOk(h: Hash, id: nat, r: Rq)
    requires HashOk(h) && forall b :: 0 <= b < |h.lists| ==> id !in h.lists[b]
    ensures HashOk(h.(rqs := h.rqs[id := r]))
    ensures forall x :: x != id ==> (Hashed(h.(rqs := h.rqs[id := r]), x) <==> Hashed(h, x))
    ensures !Hashed(h.(rqs := h.rqs[id := r]), id)
  {
    var rqs := h.rqs[id := r];
    forall b | 0 <= b < |h.lists|
      ensures BucketOk(h.bucket, h.lists[b], b, rqs)
    {
      assert BucketOk(h.bucket, h.lists[b], b, h.rqs);
    }
  }

  lemma AddOk(h: Hash, id: nat)
    requires HashOk(h) && id in h.rqs && !Hashed(h, id)
    ensures HashOk(Add(h, id)) && forall x :: Hashed(Add(h, id), x) <==> Hashed(h, x) || x == id
  {
    var k := h.bucket(Key(h.rqs[id]));
    var h' := Add(h, id);
    assert h'.lists[k] == [id] + h.lists[k] && h'.lists[k][0] == id && h'.lists[k][1..] == h.lists[k];
    assert BucketOk(h.bucket, h.lists[k], k, h.rqs);
    assert forall x :: x in h'.lists[k] <==> x == id || x in h.lists[k];
    forall b | 0 <= b < |h'.lists|
      ensures BucketOk(h.bucket, h'.lists[b], b, h.rqs)
    {
      assert BucketOk(h.bucket, h.lists[b], b, h.rqs);
    }
  }

  /** A request the elevator does not have is on no list. */
  lemma Unhashed(h: Hash, id: nat)
    requires Inv(h) && id !in h.sorted
    ensures forall b :: 0 <= b < |h.lists| ==> id !in h.lists[b]
  {
    forall b | 0 <= b < |h.lists|
      ensures id !in h.lists[b]
    {
      assert BucketOk(h.bucket, h.lists[b], b, h.rqs);
      assert !Hashed(h, id);
    }
  }

  lemma InsertKept(h: Hash, id: nat, r: Rq)
    requires Inv(h) && id !in h.sorted
    ensures Inv(Insert(h, id, r))
  {
    Unhashed(h, id);
    RenewOk(h, id, r);
    var h1 := h.(rqs := h.rqs[id := r]);
    if r.mergeable {
      AddOk(h1, id);
      assert forall x :: Hashed(Insert(h, id, r), x) <==> Hashed(Add(h1, id), x);
    }
    assert forall x :: Hashed(h1.(sorted := h.sorted + {id}), x) <==> Hashed(h1, x);
  }

  lemma RepositionKept(h: Hash, id: nat, r: Rq)
    requires Inv(h) && id in h.sorted
    ensures Inv(Reposition(h, id, r))
  {
    var d := h.(lists := Del(h.lists, id));
    DelOk(h, id);
    RenewOk(d, id, r);
    AddOk(d.(rqs := d.rqs[id := r]), id);
  }

  lemma DropKept(h: Hash, id: nat)
    requires Inv(h)
    ensures Inv(Dispatch(h, id))
  {
    var d := h.(lists := Del(h.lists, id));
    DelOk(h, id);
    assert forall x :: Hashed(Dispatch(h, id), x) <==> Hashed(d, x);
  }

  /** A front merge leaves the sector behind the request where it is. */
  lemma FrontMergedKept(h: Hash, id: nat, sectors: nat)
    requires Inv(h) && id in h.rqs && sectors <= h.rqs[id].pos
    ensures Inv(FrontMerged(h, id, sectors))
  {
    SameKeys(h, FrontMerged(h, id, sectors), id, h.rqs[id].(pos := h.rqs[id].pos - sectors, sectors := h.rqs[id].sectors + sectors));
  }

  lemma ForbidKept(h: Hash, id: nat)
    requires Inv(h) && id in h.rqs
    ensures Inv(Forbid(h, id))
  {
    SameKeys(h, Forbid(h, id), id, h.rqs[id].(mergeable := false));
  }

  lemma SameKeys(h: Hash, h': Hash, id: nat, r: Rq)
    requires Inv(h) && id in h.rqs && Key(r) == Key(h.rqs[id]) && (r.mergeable ==> h.rqs[id].mergeable)
    requires h' == h.(rqs := h.rqs[id := r])
    ensures Inv(h')
  {
    assert forall x :: Hashed(h', x) <==> Hashed(h, x);
    forall b | 0 <= b < |h.lists|
      ensures BucketOk(h.bucket, h.lists[b], b, h'.rqs)
    {
      assert BucketOk(h.bucket, h.lists[b], b, h.rqs);
    }
  }

  // ----- runs ---------------------------------------------------------------

  datatype Event = InsertEvent(id: nat, rq: Rq) | BackMerge(id: nat, sectors: nat) | FrontMerge(id: nat, sectors: nat)
                 | MergeRequests(id: nat, next: nat) | DispatchEvent(id: nat) | ForbidEvent(id: nat) | FindEvent(offset: nat)

  /** Requests are inserted once at a time; merges are of requests the elevator has. */
  predicate Allowed(h: Hash, e: Event) {
    match e
    case InsertEvent(id, _) => id !in h.sorted
    case BackMerge(id, _) => id in h.sorted
    case FrontMerge(id, n) => id in h.sorted && (id in h.rqs ==> n <= h.rqs[id].pos)
    case MergeRequests(id, next) => id in h.sorted && next in h.sorted && id != next
    case ForbidEvent(id) => id in h.sorted
    case _ => true
  }

  function Step(h: Hash, e: Event): Hash
    requires Inv(h) && Allowed(h, e)
  {
    match e
    case InsertEvent(id, r) => Insert(h, id, r)
    case BackMerge(id, n) => BackMerged(h, id, n)
    case FrontMerge(id, n) => FrontMerged(h, id, n)
    case MergeRequests(id, next) => MergedRequests(h, id, next)
    case DispatchEvent(id) => Dispatch(h, id)
    case ForbidEvent(id) => Forbid(h, id)
    case FindEvent(offset) => Find(h, offset).0
  }

  lemma StepKept(h: Hash, e: Event)
    requires Inv(h) && Allowed(h, e)
    ensures Inv(Step(h, e))
  {
    match e {
      case InsertEvent(id, r) => InsertKept(h, id, r);
      case BackMerge(id, n) => BackMergedKept(h, id, n);
      case FrontMerge(id, n) => FrontMergedKept(h, id, n);
      case MergeRequests(id, next) => MergedRequestsKept(h, id, next);
      case DispatchEvent(id) => DropKept(h, id);
      case ForbidEvent(id) => ForbidKept(h, id);
      case FindEvent(offset) => FindIs(h, offset);
    }
  }

  lemma MergedRequestsKept(h: Hash, id: nat, next: nat)
    requires Inv(h) && id in h.sorted && next in h.sorted && id != next
    ensures Inv(MergedRequests(h, id, next))
  {
    var r := h.rqs[id].(sectors := h.rqs[id].sectors + h.rqs[next].sectors);
    MergedIs(h, id, next);
    GrownKept(h, id, r);
    DroppedKept(Reposition(h, id, r), next, MergedRequests(h, id, next));
  }

  lemma MergedIs(h: Hash, id: nat, next: nat)
    requires InRange(h) && id in h.rqs && next in h.rqs && id != next
    ensures var r := h.rqs[id].(sectors := h.rqs[id].sectors + h.rqs[next].sectors);
            MergedRequests(h, id, next) == Dispatch(Reposition(h, id, r), next)
  {
  }

  lemma BackIs(h: Hash, id: nat, sectors: nat, r: Rq)
    requires InRange(h) && id in h.rqs && r == h.rqs[id]
    ensures BackMerged(h, id, sectors) == Reposition(h, id, r.(sectors := r.sectors + sectors))
  {
  }

  lemma BackMergedKept(h: Hash, id: nat, sectors: nat)
    requires Inv(h) && id in h.sorted
    ensures id in h.rqs && Inv(BackMerged(h, id, sectors))
  {
    RepositionKept(h, id, h.rqs[id].(sectors := h.rqs[id].sectors + sectors));
  }

  lemma DroppedKept(h: Hash, id: nat, h': Hash)
    requires Inv(h) && h' == Dispatch(h, id)
    ensures Inv(h')
  {
    DropKept(h, id);
  }

  lemma GrownKept(h: Hash, id: nat, r: Rq)
    requires Inv(h) && id in h.sorted
    ensures id in h.rqs && HashOk(h) && Inv(Reposition(h, id, r)) && Reposition(h, id, r).sorted == h.sorted
  {
    RepositionKept(h, id, r);
  }

  ghost predicate RunOk(h: Hash, es: seq<Event>)
    requires Inv(h)
    decreases |es|
  {
    es == [] || (Allowed(h, es[0]) && (StepKept(h, es[0]); RunOk(Step(h, es[0]), es[1..])))
  }

  ghost function Run(h: Hash, es: seq<Event>): Hash
    requires Inv(h) && RunOk(h, es)
    decreases |es|
  {
    if es == [] then h else StepKept(h, es[0]); Run(Step(h, es[0]), es[1..])
  }

  /** After any run every hashed request is in the bucket of its end, and every
      mergeable one is hashed; so FindIs applies. */
  lemma {:induction false} RunKept(h: Hash, es: seq<Event>)
    requires Inv(h) && RunOk(h, es)
    ensures Inv(Run(h, es))
    decreases |es|
  {
    if es != [] {
      StepKept(h, es[0]);
      RunKept(Step(h, es[0]), es[1..]);
    }
  }

  // ----- the object ---------------------------------------------------------

  function Empty(n: nat): seq<seq<nat>> { seq(n, i => []) }

  /** The hash of struct elevator_queue, and what of the requests it depends on. */
  class ElevatorHash {
    const bucket: nat -> nat
    var lists: seq<seq<nat>>
    var rqs: map<nat, Rq>
    var sorted: set<nat>

    function View(): Hash
      reads this
    {
      Hash(bucket, lists, rqs, sorted)
    }

    /** elevator_alloc: empty buckets, as many as the hash function needs. */
    constructor (hash: nat -> nat, entries: nat)
      requires forall k: nat :: hash(k) < entries
      ensures View() == Hash(hash, Empty(entries), map[], {}) && Inv(View())
    {
      bucket, lists, rqs, sorted := hash, Empty(entries), map[], {};
    }

    /** elv_rqhash_add */
    method HashAdd(id: nat)
      requires id in rqs && bucket(Key(rqs[id])) < |lists|
      modifies this`lists
      ensures View() == Add(old(View()), id)
    {
      var b := bucket(Key(rqs[id]));
      lists := lists[b := [id] + lists[b]];
    }

    /** __elv_rqhash_del */
    method HashDel(id: nat)
      modifies this`lists
      ensures View() == old(View()).(lists := Del(old(lists), id))
    {
      lists := Del(lists, id);
    }

    /** ELEVATOR_INSERT_SORT of elv_insert */
    method InsertSorted(id: nat, r: Rq)
      requires Inv(View()) && id !in sorted
      modifies this`lists, this`rqs, this`sorted
      ensures View() == Insert(old(View()), id, r) && Inv(View())
    {
      InsertKept(View(), id, r);
      rqs, sorted := rqs[id := r], sorted + {id};
      if r.mergeable {
        HashAdd(id);
      }
    }

    method Renew(id: nat, r: Rq)
      modifies this`rqs
      ensures View() == old(View()).(rqs := old(rqs)[id := r])
    {
      rqs := rqs[id := r];
    }

    /** elv_rqhash_reposition of a request that has become `r` */
    method HashReposition(id: nat, r: Rq)
      requires Inv(View()) && id in sorted
      modifies this`lists, this`rqs
      ensures View() == Reposition(old(View()), id, r) && Inv(View())
    {
      RepositionKept(View(), id, r);
      Renew(id, r);
      HashDel(id);
      HashAdd(id);
    }

    /** elv_merged_request, the bio having `sectors` sectors */
    method MergedRequest(id: nat, sectors: nat, back: bool)
      requires Inv(View()) && id in sorted && (!back ==> sectors <= rqs[id].pos)
      modifies this`lists, this`rqs
      ensures View() == (if back then BackMerged(old(View()), id, sectors) else FrontMerged(old(View()), id, sectors))
      ensures Inv(View())
    {
      if back {
        Grow(id, sectors);
      } else {
        FrontMergedKept(View(), id, sectors);
        Lower(id, sectors);
      }
    }

    /** A back merge: the request moves to the bucket of its new end. */
    method Grow(id: nat, sectors: nat)
      requires Inv(View()) && id in sorted
      modifies this`lists, this`rqs
      ensures View() == BackMerged(old(View()), id, sectors) && Inv(View())
    {
      BackIs(View(), id, sectors, rqs[id]);
      HashReposition(id, rqs[id].(sectors := rqs[id].sectors + sectors));
    }

    /** A front merge, which the hash does not hear of. */
    method Lower(id: nat, sectors: nat)
      requires id in rqs && sectors <= rqs[id].pos
      modifies this`rqs
      ensures View() == FrontMerged(old(View()), id, sectors)
    {
      rqs := rqs[id := rqs[id].(pos := rqs[id].pos - sectors, sectors := rqs[id].sectors + sectors)];
    }

    /** elv_rqhash_find */
    method HashFind(offset: nat) returns (found: Option<nat>)
      requires Inv(View())
      modifies this`lists
      ensures (View(), found) == Find(old(View()), offset)
      ensures Inv(View()) && rqs == old(rqs) && sorted == old(sorted)
      ensures found.Some? <==> exists id :: id in sorted && rqs[id].mergeable && Key(rqs[id]) == offset
    {
      FindIs(View(), offset);
      var b := bucket(offset);
      assert BucketOk(bucket, lists[b], b, rqs);
      var w := SearchList(rqs, lists[b], offset);
      lists := lists[b := w.kept];
      found := w.found;
    }
  }

  method SearchList(rqs: map<nat, Rq>, l: seq<nat>, offset: nat) returns (w: Walk)
    requires forall i :: 0 <= i < |l| ==> l[i] in rqs
    ensures w == Search(rqs, l, offset)
  {
    var kept, rest := [], l;
    while rest != []
      invariant forall i :: 0 <= i < |rest| ==> rest[i] in rqs
      invariant Search(rqs, l, offset) == Walk(kept + Search(rqs, rest, offset).kept, Search(rqs, rest, offset).found)
      decreases |rest|
    {
      var r := rqs[rest[0]];
      if r.mergeable {
        if Key(r) == offset {
          return Walk(kept + rest, Some(rest[0]));
        }
        assert kept + ([rest[0]] + Search(rqs, rest[1..], offset).kept) == kept + [rest[0]] + Search(rqs, rest[1..], offset).kept;
        kept := kept + [rest[0]];
      }
      rest := rest[1..];
    }
    assert kept + [] == kept;
    w := Walk(kept, None);
  }
}
