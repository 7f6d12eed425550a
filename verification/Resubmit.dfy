/**
 generic_make_request (blk-core.c): a driver's make_request_fn may submit further
 bios while it handles one.  They are threaded onto a per-task list through their
 own bi_next pointers and handled one after the other, so that the calls never nest.
 */
module Resubmit {

  /** A bio, and the bios its make_request_fn submits, in order. */
  datatype Tree = Tree(id: nat, children: seq<Tree>)

  // ----- breadth-first order ------------------------------------------------

  function Size(q: seq<Tree>): nat { if q == [] then 0 else 1 + Size(q[0].children) + Size(q[1..]) }

  lemma {:induction false} SizeSplit(a: seq<Tree>, b: seq<Tree>)
    ensures Size(a + b) == Size(a) + Size(b)
  {
    if a == [] {
      assert a + b == b;
    } else {
      assert (a + b)[1..] == a[1..] + b;
      SizeSplit(a[1..], b);
    }
  }

  /** The order of a queue to whose end the children of its head are added. */
  function Queued(q: seq<Tree>): seq<nat>
    decreases Size(q)
  {
    if q == [] then []
    else
      SizeSplit(q[1..], q[0].children);
      [q[0].id] + Queued(q[1..] + q[0].children)
  }

  function Ids(q: seq<Tree>): seq<nat> { if q == [] then [] else [q[0].id] + Ids(q[1..]) }

  /** The next level down. */
  function Below(q: seq<Tree>): seq<Tree> { if q == [] then [] else q[0].children + Below(q[1..]) }

  lemma {:induction false} BelowSize(q: seq<Tree>)
    ensures Size(Below(q)) + |q| == Size(q)
  {
    if q != [] {
      BelowSize(q[1..]);
      SizeSplit(q[0].children, Below(q[1..]));
    }
  }

  /** All bios, level by level. */
  function Levels(q: seq<Tree>): seq<nat>
    decreases Size(q)
  {
    if q == [] then [] else BelowSize(q); Ids(q) + Levels(Below(q))
  }

  /** Part of a level, followed by what is already there of the next one. */
  lemma {:induction false} QueuedLevel(a: seq<Tree>, b: seq<Tree>)
    ensures Queued(a + b) == Ids(a) + Queued(b + Below(a))
    decreases |a|
  {
    if a == [] {
      assert a + b == b && b + [] == b;
    } else {
      HeadMoved(a, b, a[0].children);
      QueuedLevel(a[1..], b + a[0].children);
      ThreeParts(b, a[0].children, Below(a[1..]));
    }
  }

  lemma HeadMoved<T>(a: seq<T>, b: seq<T>, c: seq<T>)
    requires a != []
    ensures (a + b)[0] == a[0] && (a + b)[1..] + c == a[1..] + (b + c)
  {
  }

  lemma ThreeParts<T>(a: seq<T>, b: seq<T>, c: seq<T>)
    ensures a + b + c == a + (b + c)
  {
  }

  /** The queue order is breadth-first order. */
  lemma {:induction false} QueuedIsLevels(q: seq<Tree>)
    ensures Queued(q) == Levels(q)
    decreases Size(q)
  {
    if q != [] {
      BelowSize(q);
      QueuedLevel(q, []);
      assert q + [] == q && [] + Below(q) == Below(q);
      QueuedIsLevels(Below(q));
    }
  }

  // ----- every bio once -----------------------------------------------------

  /** How often a bio occurs in a forest. */
  function Times(q: seq<Tree>, id: nat): nat {
    if q == [] then 0 else (if q[0].id == id then 1 else 0) + Times(q[0].children, id) + Times(q[1..], id)
  }

  lemma {:induction false} TimesSplit(a: seq<Tree>, b: seq<Tree>, id: nat)
    ensures Times(a + b, id) == Times(a, id) + Times(b, id)
  {
    if a == [] {
      assert a + b == b;
    } else {
      assert (a + b)[1..] == a[1..] + b;
      TimesSplit(a[1..], b, id);
    }
  }

  lemma {:induction false} QueuedTimes(q: seq<Tree>, id: nat)
    ensures multiset(Queued(q))[id] == Times(q, id)
    decreases Size(q)
  {
    if q != [] {
      var next := q[1..] + q[0].children;
      SizeSplit(q[1..], q[0].children);
      QueuedTimes(next, id);
      TimesSplit(q[1..], q[0].children, id);
    }
  }

  // ----- the list through the bios ------------------------------------------

  datatype Link = Nil | To(bio: Tree)

  /** current->bio_tail: null, &current->bio_list, or &bio->bi_next. */
  datatype Tail = Inactive | AtHead | AtBio(id: nat)

  predicate LinkedAt(next: map<nat, Link>, l: seq<Tree>, i: nat)
    requires i < |l|
  {
    l[i].id in next && next[l[i].id] == if i + 1 < |l| then To(l[i + 1]) else Nil
  }

  /** The bi_next pointers along a list. */
  ghost predicate Linked(next: map<nat, Link>, l: seq<Tree>) { forall i :: 0 <= i < |l| ==> LinkedAt(next, l, i) }

  /** The pointers make up the list `l`, and the tail is where the next bio goes. */
  ghost predicate Threaded(head: Link, next: map<nat, Link>, tail: Tail, l: seq<Tree>) {
    && head == (if l == [] then Nil else To(l[0]))
    && Linked(next, l)
    && tail == (if l == [] then AtHead else AtBio(l[|l| - 1].id))
  }

  /** No bio occurs twice. */
  ghost predicate Once(q: seq<Tree>) { forall id :: Times(q, id) <= 1 }

  lemma {:induction false} TimesAt(q: seq<Tree>, i: nat)
    requires i < |q|
    ensures Times(q, q[i].id) >= 1
  {
    if i > 0 {
      TimesAt(q[1..], i - 1);
    }
  }

  lemma OnceApart(q: seq<Tree>, i: nat, j: nat)
    requires Once(q) && i < j < |q|
    ensures q[i].id != q[j].id
  {
    assert q == q[..j] + q[j..];
    TimesSplit(q[..j], q[j..], q[i].id);
    TimesAt(q[..j], i);
    TimesAt(q[j..], 0);
  }

  lemma OnceHead(q: seq<Tree>)
    requires Once(q) && q != []
    ensures Once(q[1..] + q[0].children)
  {
    forall id
      ensures Times(q[1..] + q[0].children, id) <= 1
    {
      TimesSplit(q[1..], q[0].children, id);
      assert Times(q, id) <= 1;
    }
  }

  lemma OncePrefix(a: seq<Tree>, b: seq<Tree>)
    requires Once(a + b)
    ensures Once(a)
  {
    forall id
      ensures Times(a, id) <= 1
    {
      TimesSplit(a, b, id);
      assert Times(a + b, id) <= 1;
    }
  }

  lemma ThreadedMore(head: Link, next: map<nat, Link>, tail: Tail, l: seq<Tree>, bio: Tree)
    requires Threaded(head, next, tail, l) && Once(l + [bio])
    ensures var n := next[bio.id := Nil];
            Threaded(if l == [] then To(bio) else head, if l == [] then n else n[l[|l| - 1].id := To(bio)], AtBio(bio.id), l + [bio])
  {
    var m := l + [bio];
    forall i, j | 0 <= i < j < |m|
      ensures m[i].id != m[j].id
    {
      OnceApart(m, i, j);
    }
    var n := next[bio.id := Nil];
    var n' := if l == [] then n else n[l[|l| - 1].id := To(bio)];
    forall i | 0 <= i < |m|
      ensures LinkedAt(n', m, i)
    {
      if i < |l| {
        assert LinkedAt(next, l, i) && m[i] == l[i] && m[i].id != m[|l|].id;
        if i + 1 < |l| {
          assert m[i + 1] == l[i + 1] && m[i].id != m[|l| - 1].id;
        } else {
          assert m[i + 1] == bio;
        }
      } else if l != [] {
        assert m[|l| - 1].id != m[|l|].id;
      }
    }
  }

  class Task {
    var head: Link              // current->bio_list
    var tail: Tail              // current->bio_tail
    var next: map<nat, Link>    // bi_next of the bios
    var handled: seq<nat>       // what __generic_make_request was called with
    var inside: bool            // whether it is running

    constructor ()
      ensures tail == Inactive && handled == [] && !inside && next == map[]
    {
      head, tail, next, handled, inside := Nil, Inactive, map[], [], false;
    }

    /** generic_make_request while a make_request is active: the bio joins the list. */
    method Append(bio: Tree, ghost l: seq<Tree>)
      requires Threaded(head, next, tail, l) && Once(l + [bio])
      modifies this`head, this`tail, this`next
      ensures Threaded(head, next, tail, l + [bio])
    {
      ThreadedMore(head, next, tail, l, bio);
      next := next[bio.id := Nil];
      match tail {
        case Inactive =>
        case AtHead => head := To(bio);
        case AtBio(id) => next := next[id := To(bio)];
      }
      tail := AtBio(bio.id);
    }

    /** __generic_make_request: the driver handles the bio and submits its children. */
    method Handle(bio: Tree, ghost l: seq<Tree>)
      requires Threaded(head, next, tail, l) && Once(l + bio.children) && !inside
      modifies this
      ensures Threaded(head, next, tail, l + bio.children) && !inside
      ensures handled == old(handled) + [bio.id]
      decreases 1
    {
      inside := true;
      handled := handled + [bio.id];
      assert l + bio.children[..0] == l;
      for i := 0 to |bio.children|
        invariant Threaded(head, next, tail, l + bio.children[..i]) && inside && handled == old(handled) + [bio.id]
      {
        ghost var so := l + bio.children[..i];
        assert so + [bio.children[i]] == l + bio.children[..i + 1];
        assert l + bio.children == so + [bio.children[i]] + bio.children[i + 1..];
        OncePrefix(so + [bio.children[i]], bio.children[i + 1..]);
        GenericMakeRequest(bio.children[i], so);
      }
      assert bio.children[..|bio.children|] == bio.children;
      inside := false;
    }

    /** generic_make_request; `l` is the list while one is active. */
    method GenericMakeRequest(bio: Tree, ghost l: seq<Tree>)
      requires tail != Inactive ==> Threaded(head, next, tail, l) && Once(l + [bio])
      requires tail == Inactive ==> Once([bio]) && !inside
      modifies this
      ensures old(tail) != Inactive ==>
                Threaded(head, next, tail, l + [bio]) && handled == old(handled) && inside == old(inside)
      ensures old(tail) == Inactive ==>
                tail == Inactive && head == Nil && !inside && handled == old(handled) + Levels([bio])
      decreases if tail == Inactive then 2 else 0
    {
      if tail != Inactive {
        Append(bio, l);
        return;
      }
      next := next[bio.id := Nil];
      QueuedIsLevels([bio]);
      Run(bio);
    }

    /** The loop of generic_make_request. */
    method Run(first: Tree)
      requires tail == Inactive && Once([first]) && !inside && first.id in next && next[first.id] == Nil
      modifies this
      ensures tail == Inactive && head == Nil && !inside && handled == old(handled) + Queued([first])
      decreases 2, 0
    {
      var bio := first;
      ghost var l := [first];
      var more := true;
      while more
        invariant !more ==> l == [] && head == Nil
        invariant more ==> l != [] && bio == l[0] && Linked(next, l) && (|l| > 1 ==> tail == AtBio(l[|l| - 1].id))
        invariant Once(l) && !inside && handled + Queued(l) == old(handled) + Queued([first])
        decreases Size(l), more
      {
        SizeSplit(l[1..], bio.children);
        OnceHead(l);
        ghost var before := handled;
        Detach(bio, l);
        Handle(bio, l[1..]);
        l := l[1..] + bio.children;
        assert before + ([bio.id] + Queued(l)) == before + [bio.id] + Queued(l);
        more := head.To?;
        if more {
          bio := head.bio;
        }
      }
      tail := Inactive;
    }

    /** The bio is taken off the list, or was never on it. */
    method Detach(bio: Tree, ghost l: seq<Tree>)
      requires l != [] && bio == l[0] && Linked(next, l) && Once(l) && (|l| > 1 ==> tail == AtBio(l[|l| - 1].id))
      modifies this`head, this`tail, this`next
      ensures Threaded(head, next, tail, l[1..])
    {
      forall j | 0 < j < |l|
        ensures l[j].id != bio.id
      {
        OnceApart(l, 0, j);
      }
      assert LinkedAt(next, l, 0);
      DetachLinked(next, l);
      head := next[bio.id];
      if next[bio.id] == Nil {
        tail := AtHead;
      } else {
        next := next[bio.id := Nil];
      }
    }
  }

  lemma DetachLinked(next: map<nat, Link>, l: seq<Tree>)
    requires l != [] && Linked(next, l) && forall j :: 0 < j < |l| ==> l[j].id != l[0].id
    ensures Linked(next, l[1..]) && Linked(next[l[0].id := Nil], l[1..])
  {
    var rest, n := l[1..], next[l[0].id := Nil];
    forall i | 0 <= i < |rest|
      ensures LinkedAt(next, rest, i)
    {
      assert LinkedAt(next, l, i + 1) && rest[i] == l[i + 1];
      assert i + 1 < |rest| ==> rest[i + 1] == l[i + 2];
    }
    forall i | 0 <= i < |rest|
      ensures LinkedAt(n, rest, i)
    {
      assert LinkedAt(next, rest, i) && rest[i] == l[i + 1];
    }
  }
}
