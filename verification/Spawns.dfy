/**
 Removing an algorithm takes with it every instance built on it (algapi.c).  The
 users of the algorithm, their users and so on are found depth first, by moving
 spawns from list to list; nothing is allocated and nothing is marked on the way.
 Only removal without a replacement algorithm is part of this model.
 */
module Spawns {

  type Alg = nat
  type Spawn = nat

  /** The cra_users lists, and the instance each spawn belongs to. */
  datatype Graph = Graph(users: map<Alg, seq<Spawn>>, inst: map<Spawn, Alg>)

  /** spawn->alg: none once the spawn has lost its algorithm. */
  datatype Owner = None | Some(alg: Alg)

  ghost predicate Distinct<T>(s: seq<T>) { forall i, j :: 0 <= i < j < |s| ==> s[i] != s[j] }

  /** Spawns on the list of an algorithm are owned by it, and on it once. */
  ghost predicate ListOk(owner: map<Spawn, Owner>, l: seq<Spawn>, a: Alg) {
    Distinct(l) && forall i :: 0 <= i < |l| ==> l[i] in owner && owner[l[i]] == Some(a)
  }

  /** The spawns an algorithm owns are those on its list, and every instance has a list. */
  ghost predicate Linked(g: Graph, owner: map<Spawn, Owner>) {
    && owner.Keys == g.inst.Keys
    && (forall s :: s in g.inst ==> g.inst[s] in g.users)
    && (forall a :: a in g.users ==> ListOk(owner, g.users[a], a))
    && (forall s :: s in owner && owner[s].Some? ==> On(g, owner[s].alg, s))
  }

  // ----- what is to be found ------------------------------------------------

  predicate On(g: Graph, a: Alg, s: Spawn) { a in g.users && s in g.users[a] }

  /** A chain of spawns: the first uses `alg`, each other the instance of the one before. */
  ghost predicate Chain(g: Graph, alg: Alg, p: seq<Spawn>) {
    && |p| > 0 && p[|p| - 1] in g.inst
    && if |p| == 1 then On(g, alg, p[0])
       else var q := p[..|p| - 1]; Chain(g, alg, q) && On(g, g.inst[q[|q| - 1]], p[|p| - 1])
  }

  /** The spawn depends on `alg`, directly or not. */
  ghost predicate Depends(g: Graph, alg: Alg, s: Spawn) { exists p :: Chain(g, alg, p) && p[|p| - 1] == s }

  /** The algorithm is that of an instance built on `alg`, directly or not. */
  ghost predicate BuiltOn(g: Graph, alg: Alg, a: Alg) { exists s :: s in g.inst && Depends(g, alg, s) && g.inst[s] == a }

  lemma DirectUser(g: Graph, alg: Alg, s: Spawn)
    requires On(g, alg, s) && s in g.inst
    ensures Depends(g, alg, s)
  {
    assert Chain(g, alg, [s]) && [s][|[s]| - 1] == s;
  }

  lemma NextUser(g: Graph, alg: Alg, s: Spawn, t: Spawn)
    requires Depends(g, alg, s) && s in g.inst && On(g, g.inst[s], t) && t in g.inst
    ensures Depends(g, alg, t)
  {
    var p :| Chain(g, alg, p) && p[|p| - 1] == s;
    var r := p + [t];
    assert r[..|r| - 1] == p;
    assert Chain(g, alg, r) && r[|r| - 1] == t;
  }

  /** A set with the direct users and closed under users has all dependent spawns. */
  lemma {:induction false} ClosedChain(g: Graph, alg: Alg, found: set<Spawn>, p: seq<Spawn>)
    requires Chain(g, alg, p)
    requires forall s :: On(g, alg, s) ==> s in found
    requires forall s, t :: s in found && s in g.inst && On(g, g.inst[s], t) ==> t in found
    ensures p[|p| - 1] in found
  {
    if |p| > 1 {
      ClosedChain(g, alg, found, p[..|p| - 1]);
    }
  }

  // ----- the search ---------------------------------------------------------

  /** The lists while spawns are being moved. */
  datatype Search = Search(users: map<Alg, seq<Spawn>>, owner: map<Spawn, Owner>,
                           top: seq<Spawn>, stack: seq<Spawn>, secondary: seq<Spawn>)

  /** The list `spawns` points to: the users of the instance the stack's first spawn
      belongs to, or the list of direct users when the stack is empty. */
  function Current(g: Graph, x: Search): seq<Spawn> {
    if x.stack == [] then x.top
    else if x.stack[0] in g.inst && g.inst[x.stack[0]] in x.users then x.users[g.inst[x.stack[0]]] else []
  }

  /** Taken off its list. */
  predicate Moved(owner: map<Spawn, Owner>, x: Search, s: Spawn) {
    s in owner && s in x.owner && owner[s].Some? && x.owner[s].None?
  }

  ghost predicate ListsOk(g: Graph, alg: Alg, x: Search) {
    && x.users.Keys == g.users.Keys && x.owner.Keys == g.inst.Keys && alg in x.users
    && (forall a :: a in x.users ==> ListOk(x.owner, x.users[a], a))
    && ListOk(x.owner, x.top, alg) && x.users[alg] == []
  }

  /** A spawn that is still owned is still on its list; direct users are on `top`. */
  ghost predicate Covered(alg: Alg, x: Search) {
    forall s :: s in x.owner && x.owner[s].Some? ==>
      var a := x.owner[s].alg;
      if a == alg then s in x.top else a in x.users && s in x.users[a]
  }

  /** Only dependent spawns are moved, and none of the algorithm's own instance. */
  ghost predicate Found(g: Graph, owner: map<Spawn, Owner>, alg: Alg, x: Search) {
    forall s :: Moved(owner, x, s) ==> s in g.inst && Depends(g, alg, s) && g.inst[s] != alg
  }

  /** The moved ones are on the stack or done with, each once. */
  ghost predicate Stacked(owner: map<Spawn, Owner>, x: Search) {
    && Distinct(x.stack + x.secondary)
    && (forall i :: 0 <= i < |x.stack + x.secondary| ==> Moved(owner, x, (x.stack + x.secondary)[i]))
    && (forall s :: Moved(owner, x, s) ==> s in x.stack + x.secondary)
  }

  /** The instances of spawns done with have no users any more. */
  ghost predicate Emptied(g: Graph, x: Search) {
    forall i :: 0 <= i < |x.secondary| ==> Unused(g, x, x.secondary[i])
  }

  predicate Unused(g: Graph, x: Search, s: Spawn) {
    s in g.inst && g.inst[s] in x.users && x.users[g.inst[s]] == []
  }

  /** Owners change to none only, and only lists of instances found shrink. */
  ghost predicate Shrunk(g: Graph, owner: map<Spawn, Owner>, alg: Alg, x: Search) {
    && (forall s :: s in x.owner ==> s in owner && (x.owner[s] == owner[s] || x.owner[s] == None))
    && (forall a :: a in x.users && a in g.users && a != alg && x.users[a] != g.users[a] ==> BuiltOn(g, alg, a))
  }

  ghost predicate SearchInv(g: Graph, owner: map<Spawn, Owner>, alg: Alg, x: Search) {
    && Linked(g, owner) && ListsOk(g, alg, x) && Covered(alg, x) && Found(g, owner, alg, x)
    && Stacked(owner, x) && Emptied(g, x) && Shrunk(g, owner, alg, x)
  }

  // ----- one spawn is moved to the stack ------------------------------------

  /** The first spawn of the current list goes to the stack and loses its algorithm. */
  function Push(g: Graph, x: Search): Search
    requires Current(g, x) != []
  {
    var s := Current(g, x)[0];
    var y := x.(stack := [s] + x.stack, owner := x.owner[s := None]);
    if x.stack == [] then y.(top := x.top[1..])
    else y.(users := x.users[g.inst[x.stack[0]] := x.users[g.inst[x.stack[0]]][1..]])
  }

  /** crypto_more_spawns, without a replacement: the first spawn of the stack is done. */
  function Shift(x: Search): Search
    requires x.stack != []
  {
    x.(stack := x.stack[1..], secondary := [x.stack[0]] + x.secondary)
  }

  /** Whose list the current one is. */
  function CurrentOwner(g: Graph, alg: Alg, x: Search): Alg {
    if x.stack == [] || x.stack[0] !in g.inst then alg else g.inst[x.stack[0]]
  }

  lemma CurrentIs(g: Graph, owner: map<Spawn, Owner>, alg: Alg, x: Search)
    requires SearchInv(g, owner, alg, x) && Current(g, x) != []
    ensures var s := Current(g, x)[0];
            && s in x.owner && s in g.inst && x.owner[s] == owner[s] == Some(CurrentOwner(g, alg, x))
            && On(g, CurrentOwner(g, alg, x), s) && Depends(g, alg, s)
    ensures x.stack != [] ==> x.stack[0] in g.inst && Depends(g, alg, x.stack[0]) && g.inst[x.stack[0]] != alg
                              && g.inst[x.stack[0]] in x.users
  {
    var s := Current(g, x)[0];
    if x.stack == [] {
      DirectUser(g, alg, s);
    } else {
      var t := x.stack[0];
      assert (x.stack + x.secondary)[0] == t;
      assert Moved(owner, x, t);
      assert ListOk(x.owner, x.users[g.inst[t]], g.inst[t]);
      NextUser(g, alg, t, s);
    }
  }

  /** Other lists do not notice that a spawn loses its algorithm. */
  lemma ListStays(owner: map<Spawn, Owner>, l: seq<Spawn>, a: Alg, s: Spawn)
    requires ListOk(owner, l, a) && s in owner && (owner[s] != Some(a) || (l != [] && s == l[0]))
    ensures owner[s] != Some(a) ==> ListOk(owner[s := None], l, a)
    ensures l != [] && s == l[0] ==> ListOk(owner[s := None], l[1..], a)
  {
  }

  lemma PushLists(g: Graph, owner: map<Spawn, Owner>, alg: Alg, x: Search)
    requires SearchInv(g, owner, alg, x) && Current(g, x) != []
    ensures ListsOk(g, alg, Push(g, x))
  {
    CurrentIs(g, owner, alg, x);
    var s, y, c := Current(g, x)[0], Push(g, x), CurrentOwner(g, alg, x);
    ListStays(x.owner, Current(g, x), c, s);
    if c != alg {
      ListStays(x.owner, x.top, alg, s);
    }
    forall a | a in y.users
      ensures ListOk(y.owner, y.users[a], a)
    {
      if a != c {
        ListStays(x.owner, x.users[a], a, s);
      }
    }
  }

  lemma PushCovered(g: Graph, owner: map<Spawn, Owner>, alg: Alg, x: Search)
    requires SearchInv(g, owner, alg, x) && Current(g, x) != []
    ensures Covered(alg, Push(g, x))
  {
    CurrentIs(g, owner, alg, x);
    var l := Current(g, x);
    assert l == [l[0]] + l[1..];
  }

  lemma PushFound(g: Graph, owner: map<Spawn, Owner>, alg: Alg, x: Search)
    requires SearchInv(g, owner, alg, x) && Current(g, x) != []
    requires Current(g, x)[0] in g.inst ==> g.inst[Current(g, x)[0]] != alg
    ensures Found(g, owner, alg, Push(g, x))
  {
    CurrentIs(g, owner, alg, x);
  }

  lemma PushStacked(g: Graph, owner: map<Spawn, Owner>, alg: Alg, x: Search)
    requires SearchInv(g, owner, alg, x) && Current(g, x) != []
    ensures Stacked(owner, Push(g, x))
  {
    CurrentIs(g, owner, alg, x);
    StackedCons(owner, x, Push(g, x), Current(g, x)[0]);
  }

  lemma StackedCons(owner: map<Spawn, Owner>, x: Search, y: Search, s: Spawn)
    requires Stacked(owner, x) && s in owner && s in x.owner && owner[s].Some? && x.owner[s].Some?
    requires y.owner == x.owner[s := None] && y.stack == [s] + x.stack && y.secondary == x.secondary
    ensures Stacked(owner, y)
  {
    var l, k := x.stack + x.secondary, y.stack + y.secondary;
    assert k == [s] + l;
    forall i | 0 <= i < |l|
      ensures l[i] != s && Moved(owner, y, l[i])
    {
      assert Moved(owner, x, l[i]);
    }
    assert forall t :: Moved(owner, y, t) && t != s ==> Moved(owner, x, t);
  }

  lemma PushShrunk(g: Graph, owner: map<Spawn, Owner>, alg: Alg, x: Search)
    requires SearchInv(g, owner, alg, x) && Current(g, x) != []
    ensures Emptied(g, Push(g, x)) && Shrunk(g, owner, alg, Push(g, x))
  {
    CurrentIs(g, owner, alg, x);
    var y := Push(g, x);
    forall i | 0 <= i < |y.secondary|
      ensures Unused(g, y, y.secondary[i])
    {
      assert Unused(g, x, x.secondary[i]);
    }
  }

  lemma PushKept(g: Graph, owner: map<Spawn, Owner>, alg: Alg, x: Search)
    requires SearchInv(g, owner, alg, x) && Current(g, x) != []
    requires Current(g, x)[0] in g.inst ==> g.inst[Current(g, x)[0]] != alg
    ensures SearchInv(g, owner, alg, Push(g, x))
  {
    PushLists(g, owner, alg, x);
    PushCovered(g, owner, alg, x);
    PushFound(g, owner, alg, x);
    PushStacked(g, owner, alg, x);
    PushShrunk(g, owner, alg, x);
  }

  lemma ShiftKept(g: Graph, owner: map<Spawn, Owner>, alg: Alg, x: Search)
    requires SearchInv(g, owner, alg, x) && x.stack != [] && Current(g, x) == []
    ensures SearchInv(g, owner, alg, Shift(x))
  {
    var s, y := x.stack[0], Shift(x);
    var l := x.stack + x.secondary;
    assert l[0] == s && Moved(owner, x, s);
    assert Unused(g, x, s);
    ShiftStacked(owner, x);
    forall i | 0 <= i < |y.secondary|
      ensures Unused(g, y, y.secondary[i])
    {
      if i > 0 {
        assert Unused(g, x, x.secondary[i - 1]);
      }
    }
  }

  lemma ShiftStacked(owner: map<Spawn, Owner>, x: Search)
    requires Stacked(owner, x) && x.stack != []
    ensures Stacked(owner, Shift(x))
  {
    var y := Shift(x);
    var l, k, n := x.stack + x.secondary, y.stack + y.secondary, |x.stack| - 1;
    assert |k| == |l|;
    assert forall i :: 0 <= i < n ==> k[i] == l[i + 1];
    assert k[n] == l[0];
    assert forall i :: n < i < |k| ==> k[i] == l[i];
    forall s | Moved(owner, y, s)
      ensures s in k
    {
      assert Moved(owner, x, s);
      var i :| 0 <= i < |l| && l[i] == s;
      assert k[if i == 0 then n else if i <= n then i - 1 else i] == s;
    }
  }

  // ----- beginning and end --------------------------------------------------

  function Reverse<T>(s: seq<T>): (r: seq<T>)
    ensures |r| == |s| && forall i :: 0 <= i < |s| ==> r[i] == s[|s| - 1 - i]
  {
    if s == [] then [] else Reverse(s[1..]) + [s[0]]
  }

  /** The direct users are moved to `top` first, which turns their order around. */
  function Start(g: Graph, owner: map<Spawn, Owner>, alg: Alg): Search
    requires alg in g.users
  {
    Search(g.users[alg := []], owner, Reverse(g.users[alg]), [], [])
  }

  lemma ReverseOk(owner: map<Spawn, Owner>, l: seq<Spawn>, a: Alg)
    requires ListOk(owner, l, a)
    ensures ListOk(owner, Reverse(l), a) && forall s :: s in l ==> s in Reverse(l)
  {
    var r, n := Reverse(l), |l|;
    forall i, j | 0 <= i < j < n
      ensures r[i] != r[j]
    {
      assert l[n - 1 - i] != l[n - 1 - j];
    }
    forall s | s in l
      ensures s in r
    {
      var i :| 0 <= i < n && l[i] == s;
      assert r[n - 1 - i] == s;
    }
  }

  lemma StartKept(g: Graph, owner: map<Spawn, Owner>, alg: Alg)
    requires Linked(g, owner) && alg in g.users
    ensures SearchInv(g, owner, alg, Start(g, owner, alg))
  {
    ReverseOk(owner, g.users[alg], alg);
    var x := Start(g, owner, alg);
    assert x.stack + x.secondary == [];
    forall s | s in x.owner && x.owner[s].Some?
      ensures var a := x.owner[s].alg; if a == alg then s in x.top else a in x.users && s in x.users[a]
    {
      assert On(g, owner[s].alg, s);
    }
  }

  lemma FinishedFound(g: Graph, owner: map<Spawn, Owner>, alg: Alg, x: Search, s: Spawn)
    requires SearchInv(g, owner, alg, x) && x.stack == [] && x.top == [] && s in g.inst && Depends(g, alg, s)
    ensures Moved(owner, x, s)
  {
    var found := set t | t in owner && Moved(owner, x, t);
    forall t | On(g, alg, t)
      ensures t in found
    {
      FinishedDirect(g, owner, alg, x, t);
    }
    forall u, t | u in found && u in g.inst && On(g, g.inst[u], t)
      ensures t in found
    {
      FinishedClosed(g, owner, alg, x, u, t);
    }
    var p :| Chain(g, alg, p) && p[|p| - 1] == s;
    ClosedChain(g, alg, found, p);
  }

  lemma FinishedDirect(g: Graph, owner: map<Spawn, Owner>, alg: Alg, x: Search, t: Spawn)
    requires SearchInv(g, owner, alg, x) && x.top == [] && On(g, alg, t)
    ensures t in owner && Moved(owner, x, t)
  {
    assert ListOk(owner, g.users[alg], alg);
  }

  lemma FinishedClosed(g: Graph, owner: map<Spawn, Owner>, alg: Alg, x: Search, u: Spawn, t: Spawn)
    requires SearchInv(g, owner, alg, x) && x.stack == [] && Moved(owner, x, u) && u in g.inst && On(g, g.inst[u], t)
    ensures Moved(owner, x, t)
  {
    assert ListOk(owner, g.users[g.inst[u]], g.inst[u]);
    assert x.stack + x.secondary == x.secondary;
    var i :| 0 <= i < |x.secondary| && x.secondary[i] == u;
    assert Unused(g, x, u);
  }

  /** Dependent spawns have lost their algorithms; the algorithm itself and the
      instances built on it have lost all users; nothing else has changed. */
  ghost predicate Cut(g: Graph, owner: map<Spawn, Owner>, alg: Alg, users': map<Alg, seq<Spawn>>, owner': map<Spawn, Owner>) {
    && owner'.Keys == owner.Keys
    && (forall s :: s in owner ==> owner'[s] == if Depends(g, alg, s) then None else owner[s])
    && users'.Keys == g.users.Keys
    && (forall a :: a in g.users ==> users'[a] == if a == alg || BuiltOn(g, alg, a) then [] else g.users[a])
  }

  /** The spawns found are exactly the dependent ones, each once. */
  ghost predicate Result(g: Graph, owner: map<Spawn, Owner>, alg: Alg, x: Search) {
    && Cut(g, owner, alg, x.users, x.owner)
    && Distinct(x.secondary)
    && (forall s :: s in x.secondary <==> s in g.inst && Depends(g, alg, s))
  }

  lemma Finished(g: Graph, owner: map<Spawn, Owner>, alg: Alg, x: Search)
    requires SearchInv(g, owner, alg, x) && x.stack == [] && x.top == []
    ensures Result(g, owner, alg, x) && !BuiltOn(g, alg, alg)
  {
    assert x.stack + x.secondary == x.secondary;
    forall s | s in g.inst && Depends(g, alg, s)
      ensures Moved(owner, x, s)
    {
      FinishedFound(g, owner, alg, x, s);
    }
    forall s | s in x.secondary
      ensures s in g.inst && Depends(g, alg, s)
    {
      assert Moved(owner, x, s);
    }
    forall a | a in g.users && a != alg && BuiltOn(g, alg, a)
      ensures x.users[a] == []
    {
      var s :| s in g.inst && Depends(g, alg, s) && g.inst[s] == a;
      assert Moved(owner, x, s);
      var i :| 0 <= i < |x.secondary| && x.secondary[i] == s;
      assert Unused(g, x, s);
    }
  }

  /** The spawns that still have an algorithm. */
  function Owned(x: Search): set<Spawn> { set s | s in x.owner && x.owner[s].Some? }

  lemma PushOwned(g: Graph, owner: map<Spawn, Owner>, alg: Alg, x: Search)
    requires SearchInv(g, owner, alg, x) && Current(g, x) != []
    ensures Owned(Push(g, x)) < Owned(x)
  {
    CurrentIs(g, owner, alg, x);
    var s := Current(g, x)[0];
    assert s in Owned(x) && s !in Owned(Push(g, x));
  }

  // ----- the code -----------------------------------------------------------

  /** The inner loop: down from instance to user until an instance has none. */
  method Descend(g: Graph, ghost owner: map<Spawn, Owner>, alg: Alg, x0: Search) returns (bug: bool, x: Search)
    requires SearchInv(g, owner, alg, x0)
    ensures bug ==> BuiltOn(g, alg, alg)
    ensures !bug ==> SearchInv(g, owner, alg, x) && Current(g, x) == [] && (x == x0 || Owned(x) < Owned(x0))
  {
    x := x0;
    while Current(g, x) != []
      invariant SearchInv(g, owner, alg, x)
      invariant x == x0 || Owned(x) < Owned(x0)
      decreases Owned(x)
    {
      CurrentIs(g, owner, alg, x);
      var spawn := Current(g, x)[0];
      if g.inst[spawn] == alg {
        return true, x;
      }
      PushKept(g, owner, alg, x);
      PushOwned(g, owner, alg, x);
      x := Push(g, x);
    }
    bug := false;
  }

  /** One turn of the outer loop: down to an instance without users, then on to the next. */
  method Turn(g: Graph, owner: map<Spawn, Owner>, alg: Alg, x0: Search) returns (bug: bool, going: bool, x: Search)
    requires SearchInv(g, owner, alg, x0)
    ensures bug ==> BuiltOn(g, alg, alg)
    ensures !bug ==> SearchInv(g, owner, alg, x)
    ensures !bug ==> Owned(x) < Owned(x0) || (Owned(x) == Owned(x0) && |x.stack| <= |x0.stack| - if going then 1 else 0)
    ensures !bug && !going ==> x.stack == [] && x.top == []
  {
    bug, x := Descend(g, owner, alg, x0);
    going := !bug && x.stack != [];
    if going {
      ShiftKept(g, owner, alg, x);
      x := Shift(x);
    }
  }

  /** The first part of crypto_remove_spawns, up to the lists being empty.  `bug` is
      its BUG_ON: the algorithm is built on itself. */
  method Collect(g: Graph, owner: map<Spawn, Owner>, alg: Alg) returns (bug: bool, x: Search)
    requires Linked(g, owner) && alg in g.users
    ensures bug <==> BuiltOn(g, alg, alg)
    ensures !bug ==> Result(g, owner, alg, x)
  {
    x := MoveDirect(g, owner, alg);
    StartKept(g, owner, alg);
    var going := true;
    while going
      invariant SearchInv(g, owner, alg, x)
      invariant !going ==> x.stack == [] && x.top == []
      decreases Owned(x), |x.stack|, going
    {
      bug, going, x := Turn(g, owner, alg, x);
      if bug {
        return;
      }
    }
    Finished(g, owner, alg, x);
    bug := false;
  }

  method MoveDirect(g: Graph, owner: map<Spawn, Owner>, alg: Alg) returns (x: Search)
    requires alg in g.users
    ensures x == Start(g, owner, alg)
  {
    x := Search(g.users, owner, [], [], []);
    var l := g.users[alg];
    while l != []
      invariant x == Search(g.users[alg := l], owner, x.top, [], []) && Reverse(g.users[alg]) == Reverse(l) + x.top
      decreases |l|
    {
      x := x.(top := [l[0]] + x.top, users := x.users[alg := l[1..]]);
      l := l[1..];
    }
  }

  // ----- the instances found are taken down ---------------------------------

  function Instances(inst: map<Spawn, Alg>, l: seq<Spawn>): set<Alg> { set s | s in l && s in inst :: inst[s] }

  lemma InstancesAppend(inst: map<Spawn, Alg>, l: seq<Spawn>, s: Spawn)
    requires s in inst
    ensures Instances(inst, l + [s]) == Instances(inst, l) + {inst[s]}
  {
    var more := Instances(inst, l + [s]);
    assert s in l + [s];
    assert inst[s] in more;
    forall a | a in Instances(inst, l)
      ensures a in more
    {
      var t :| t in l && t in inst && inst[t] == a;
      assert t in l + [s];
    }
  }

  /** Flags and lists a removal changes: CRYPTO_ALG_DEAD, the instances on the list of
      their template, crypto_alg_list, and the caller's list of what to destroy. */
  datatype Lists = Lists(dead: set<Alg>, hashed: set<Alg>, registered: set<Alg>, removed: seq<Alg>)

  /** crypto_remove_spawn; `held` are the instances whose template can be held. */
  function TakeDown(l: Lists, a: Alg, held: set<Alg>): Lists {
    if a in l.dead then l
    else if a !in l.hashed || a !in held then l.(dead := l.dead + {a})
    else Lists(l.dead + {a}, l.hashed - {a}, l.registered - {a}, [a] + l.removed)
  }

  function TakeDownAll(l: Lists, inst: map<Spawn, Alg>, spawns: seq<Spawn>, held: set<Alg>): Lists
    requires forall i :: 0 <= i < |spawns| ==> spawns[i] in inst
  {
    if spawns == [] then l
    else TakeDown(TakeDownAll(l, inst, spawns[..|spawns| - 1], held), inst[spawns[|spawns| - 1]], held)
  }

  /** The instances are dead; those newly dead, still on their template's list and
      with a template to hold are listed for removal, once each, and unregistered. */
  ghost predicate TakenDown(l: Lists, l': Lists, insts: set<Alg>, held: set<Alg>) {
    var gone, n := (insts - l.dead) * l.hashed * held, |l'.removed| - |l.removed|;
    && l' == Lists(l.dead + insts, l.hashed - gone, l.registered - gone, l'.removed)
    && n >= 0 && l'.removed[n..] == l.removed && Distinct(l'.removed[..n])
    && forall a :: a in l'.removed[..n] <==> a in gone
  }

  lemma TakenListed(l: Lists, m: Lists, insts: set<Alg>, held: set<Alg>, a: Alg)
    requires TakenDown(l, m, insts, held) && a !in m.dead && a in m.hashed && a in held
    ensures TakenDown(l, Lists(m.dead + {a}, m.hashed - {a}, m.registered - {a}, [a] + m.removed), insts + {a}, held)
  {
    var gone, n := (insts - l.dead) * l.hashed * held, |m.removed| - |l.removed|;
    assert (insts + {a} - l.dead) * l.hashed * held == gone + {a};
    var r := [a] + m.removed;
    assert r[..n + 1] == [a] + m.removed[..n];
    assert r[n + 1..] == m.removed[n..];
  }

  lemma TakenOne(l: Lists, m: Lists, insts: set<Alg>, held: set<Alg>, a: Alg)
    requires TakenDown(l, m, insts, held)
    ensures TakenDown(l, TakeDown(m, a, held), insts + {a}, held)
  {
    if a in m.dead {
      assert insts + {a} - l.dead == insts - l.dead;
      assert m.dead == l.dead + (insts + {a});
    } else if a in m.hashed && a in held {
      TakenListed(l, m, insts, held, a);
    } else {
      assert (insts + {a} - l.dead) * l.hashed * held == (insts - l.dead) * l.hashed * held;
    }
  }

  lemma {:induction false} AllTaken(l: Lists, inst: map<Spawn, Alg>, spawns: seq<Spawn>, held: set<Alg>)
    requires forall i :: 0 <= i < |spawns| ==> spawns[i] in inst
    ensures TakenDown(l, TakeDownAll(l, inst, spawns, held), Instances(inst, spawns), held)
  {
    if spawns == [] {
      assert Instances(inst, []) == {};
    } else {
      var n := |spawns| - 1;
      AllTaken(l, inst, spawns[..n], held);
      TakenOne(l, TakeDownAll(l, inst, spawns[..n], held), Instances(inst, spawns[..n]), held, inst[spawns[n]]);
      InstancesAppend(inst, spawns[..n], spawns[n]);
      assert spawns == spawns[..n] + [spawns[n]];
    }
  }

  /** The algorithms of the instances built on `alg`. */
  ghost function AllBuiltOn(g: Graph, alg: Alg): set<Alg> { set s | s in g.inst && Depends(g, alg, s) :: g.inst[s] }

  lemma FoundInstances(g: Graph, owner: map<Spawn, Owner>, alg: Alg, x: Search)
    requires Result(g, owner, alg, x)
    ensures Instances(g.inst, x.secondary) == AllBuiltOn(g, alg)
    ensures forall a :: a in AllBuiltOn(g, alg) <==> BuiltOn(g, alg, a)
  {
    forall a | a in AllBuiltOn(g, alg)
      ensures a in Instances(g.inst, x.secondary)
    {
      var s :| s in g.inst && Depends(g, alg, s) && g.inst[s] == a;
      assert s in x.secondary;
    }
  }

  /** The lists are as well linked as before, so that the next removal can begin. */
  lemma StillLinked(g: Graph, owner: map<Spawn, Owner>, alg: Alg, x: Search)
    requires Linked(g, owner) && Result(g, owner, alg, x)
    ensures Linked(Graph(x.users, g.inst), x.owner)
  {
    var h := Graph(x.users, g.inst);
    forall a | a in h.users
      ensures ListOk(x.owner, h.users[a], a)
    {
      ListLeft(g, owner, alg, x, a);
    }
    forall s | s in x.owner && x.owner[s].Some?
      ensures On(h, x.owner[s].alg, s)
    {
      OwnedLeft(g, owner, alg, x, s);
    }
  }

  lemma ListLeft(g: Graph, owner: map<Spawn, Owner>, alg: Alg, x: Search, a: Alg)
    requires Linked(g, owner) && Result(g, owner, alg, x) && a in x.users
    ensures ListOk(x.owner, x.users[a], a)
  {
    var l := x.users[a];
    assert ListOk(owner, g.users[a], a);
    forall i | 0 <= i < |l|
      ensures l[i] in x.owner && x.owner[l[i]] == Some(a)
    {
      assert On(g, a, l[i]);
      if Depends(g, alg, l[i]) {
        LastUser(g, owner, alg, l[i], a);
      }
    }
  }

  lemma OwnedLeft(g: Graph, owner: map<Spawn, Owner>, alg: Alg, x: Search, s: Spawn)
    requires Linked(g, owner) && Result(g, owner, alg, x) && s in x.owner && x.owner[s].Some?
    ensures On(Graph(x.users, g.inst), x.owner[s].alg, s)
  {
    var a := owner[s].alg;
    assert On(g, a, s);
    if a == alg {
      DirectUser(g, alg, s);
    } else if BuiltOn(g, alg, a) {
      var t :| t in g.inst && Depends(g, alg, t) && g.inst[t] == a;
      NextUser(g, alg, t, s);
    }
  }

  /** A dependent spawn uses the algorithm itself or an instance built on it. */
  lemma LastUser(g: Graph, owner: map<Spawn, Owner>, alg: Alg, s: Spawn, a: Alg)
    requires Linked(g, owner) && Depends(g, alg, s) && On(g, a, s)
    ensures a == alg || BuiltOn(g, alg, a)
  {
    var p :| Chain(g, alg, p) && p[|p| - 1] == s;
    var n := |p| - 1;
    assert ListOk(owner, g.users[a], a);
    if n == 0 {
      assert ListOk(owner, g.users[alg], alg);
    } else {
      var r := p[..|p| - 1];
      var t := r[|r| - 1];
      assert Chain(g, alg, r) && On(g, g.inst[t], s);
      assert ListOk(owner, g.users[g.inst[t]], g.inst[t]);
    }
  }

  // ----- the object ---------------------------------------------------------

  // ----- no algorithm is ever built on itself --------------------------------

  /** The spawn graph and the lists of algapi.c. */
  datatype Reg = Reg(g: Graph, owner: map<Spawn, Owner>, l: Lists)

  const EMPTY := Reg(Graph(map[], map[]), map[], Lists({}, {}, {}, []))

  /** An algorithm or instance comes into being; it is registered, unless its name is
      taken; an instance gets a spawn on an algorithm; an algorithm is removed. */
  datatype Event = NewAlg(a: Alg) | Register(a: Alg, isInstance: bool, taken: bool) | InitSpawn(s: Spawn, alg: Alg, a: Alg)
                 | Remove(alg: Alg, held: set<Alg>)

  /** An instance gets its spawns before it is registered, so while nothing uses it. */
  predicate Allowed(r: Reg, e: Event) {
    match e
    case NewAlg(a) => a !in r.g.users
    case Register(a, _, _) => a in r.g.users && r.g.users[a] == []
    case InitSpawn(s, alg, a) => s !in r.g.inst && alg in r.g.users && a in r.g.users && r.g.users[a] == [] && a != alg
    case Remove(alg, _) => alg in r.g.users
  }

  /** crypto_init_spawn */
  function Spawned(r: Reg, s: Spawn, alg: Alg, a: Alg): Reg
    requires alg in r.g.users
  {
    if alg in r.l.dead then r
    else Reg(Graph(r.g.users[alg := [s] + r.g.users[alg]], r.g.inst[s := a]), r.owner[s := Some(alg)], r.l)
  }

  /** __crypto_register_alg, and the list crypto_register_instance puts an instance on */
  function Registered(r: Reg, a: Alg, isInstance: bool, taken: bool): Reg {
    if a in r.l.dead || a in r.l.registered || taken then r
    else r.(l := r.l.(registered := r.l.registered + {a}, hashed := r.l.hashed + if isInstance then {a} else {}))
  }

  /** crypto_remove_alg, as the method below does it. */
  ghost predicate Removed(r: Reg, alg: Alg, held: set<Alg>, t: Reg) {
    if alg !in r.l.registered then t == r
    else
      && Cut(r.g, r.owner, alg, t.g.users, t.owner) && t.g.inst == r.g.inst && Linked(t.g, t.owner)
      && TakenDown(r.l.(dead := r.l.dead + {alg}, registered := r.l.registered - {alg}), t.l, AllBuiltOn(r.g, alg), held)
  }

  ghost predicate Stepped(r: Reg, e: Event, t: Reg)
    requires Allowed(r, e)
  {
    match e
    case NewAlg(a) => t == r.(g := r.g.(users := r.g.users[a := []]))
    case Register(a, isInstance, taken) => t == Registered(r, a, isInstance, taken)
    case InitSpawn(s, alg, a) => t == Spawned(r, s, alg, a)
    case Remove(alg, held) => Removed(r, alg, held, t)
  }

  /** The instance of a spawn ranks above the algorithm it is on. */
  ghost predicate Layered(g: Graph, rank: map<Alg, nat>) {
    && g.users.Keys <= rank.Keys
    && (forall a, s :: On(g, a, s) && s in g.inst && g.inst[s] in rank ==> rank[a] < rank[g.inst[s]])
  }

  ghost predicate RegInv(r: Reg, rank: map<Alg, nat>) { Linked(r.g, r.owner) && Layered(r.g, rank) }

  lemma {:induction false} ChainRises(g: Graph, owner: map<Spawn, Owner>, rank: map<Alg, nat>, alg: Alg, p: seq<Spawn>)
    requires Linked(g, owner) && Layered(g, rank) && Chain(g, alg, p)
    ensures alg in rank && g.inst[p[|p| - 1]] in rank && rank[alg] < rank[g.inst[p[|p| - 1]]]
  {
    var s := p[|p| - 1];
    if |p| > 1 {
      var q := p[..|p| - 1];
      ChainRises(g, owner, rank, alg, q);
      assert On(g, g.inst[q[|q| - 1]], s);
    } else {
      assert On(g, alg, s);
    }
  }

  lemma LayeredGrounded(r: Reg, rank: map<Alg, nat>, alg: Alg)
    requires RegInv(r, rank)
    ensures !BuiltOn(r.g, alg, alg)
  {
    if BuiltOn(r.g, alg, alg) {
      var s :| s in r.g.inst && Depends(r.g, alg, s) && r.g.inst[s] == alg;
      var p :| Chain(r.g, alg, p) && p[|p| - 1] == s;
      ChainRises(r.g, r.owner, rank, alg, p);
    }
  }

  /** Where the ranks are after an event. */
  function Reranked(r: Reg, rank: map<Alg, nat>, e: Event): map<Alg, nat> {
    if e.NewAlg? then rank[e.a := 0]
    else if e.InitSpawn? && e.a in rank && e.alg in rank && rank[e.a] <= rank[e.alg] then rank[e.a := rank[e.alg] + 1]
    else rank
  }

  lemma NewAlgKept(r: Reg, rank: map<Alg, nat>, a: Alg)
    requires RegInv(r, rank) && a !in r.g.users
    ensures RegInv(r.(g := r.g.(users := r.g.users[a := []])), rank[a := 0])
  {
    var g := r.g.(users := r.g.users[a := []]);
    assert forall b, s :: On(g, b, s) <==> On(r.g, b, s);
    assert forall b :: b in r.g.users ==> g.users[b] == r.g.users[b];
  }

  lemma SpawnedLinked(r: Reg, s: Spawn, alg: Alg, a: Alg)
    requires Linked(r.g, r.owner) && s !in r.g.inst && alg in r.g.users && a in r.g.users
    ensures Linked(Spawned(r, s, alg, a).g, Spawned(r, s, alg, a).owner)
  {
    var t := Spawned(r, s, alg, a);
    if alg !in r.l.dead {
      forall b | b in t.g.users
        ensures ListOk(t.owner, t.g.users[b], b)
      {
        assert ListOk(r.owner, r.g.users[b], b);
      }
      forall x | x in t.owner && t.owner[x].Some?
        ensures On(t.g, t.owner[x].alg, x)
      {
        assert x != s ==> On(r.g, r.owner[x].alg, x);
        assert x == s ==> t.g.users[alg][0] == s;
      }
    }
  }

  lemma SpawnedLayered(r: Reg, rank: map<Alg, nat>, s: Spawn, alg: Alg, a: Alg)
    requires RegInv(r, rank) && Allowed(r, InitSpawn(s, alg, a))
    ensures Layered(Spawned(r, s, alg, a).g, Reranked(r, rank, InitSpawn(s, alg, a)))
  {
    var t, rank' := Spawned(r, s, alg, a), Reranked(r, rank, InitSpawn(s, alg, a));
    forall b | b in r.g.users
      ensures s !in r.g.users[b]
    {
      assert ListOk(r.owner, r.g.users[b], b);
    }
    forall b, x | On(t.g, b, x) && x in t.g.inst && t.g.inst[x] in rank'
      ensures rank'[b] < rank'[t.g.inst[x]]
    {
      if x != s || t == r {
        assert On(r.g, b, x) && r.g.inst[x] in r.g.users;
      }
    }
  }

  lemma RemovedLayered(r: Reg, rank: map<Alg, nat>, alg: Alg, held: set<Alg>, t: Reg)
    requires RegInv(r, rank) && Removed(r, alg, held, t)
    ensures RegInv(t, rank)
  {
    assert forall b, x :: On(t.g, b, x) ==> On(r.g, b, x);
  }

  lemma StepKept(r: Reg, rank: map<Alg, nat>, e: Event, t: Reg)
    requires RegInv(r, rank) && Allowed(r, e) && Stepped(r, e, t)
    ensures RegInv(t, Reranked(r, rank, e))
  {
    match e {
      case NewAlg(a) => NewAlgKept(r, rank, a);
      case Register(_, _, _) =>
      case InitSpawn(s, alg, a) =>
        SpawnedLinked(r, s, alg, a);
        SpawnedLayered(r, rank, s, alg, a);
      case Remove(alg, held) => RemovedLayered(r, rank, alg, held, t);
    }
  }

  /** The states of a run, the first being empty. */
  ghost predicate Runs(rs: seq<Reg>, es: seq<Event>) {
    && |rs| == |es| + 1 && rs[0] == EMPTY
    && forall i :: 0 <= i < |es| ==> StepsAt(rs, es, i)
  }

  ghost predicate StepsAt(rs: seq<Reg>, es: seq<Event>, i: nat)
    requires |rs| == |es| + 1 && i < |es|
  {
    Allowed(rs[i], es[i]) && Stepped(rs[i], es[i], rs[i + 1])
  }

  lemma {:induction false} RunLayered(rs: seq<Reg>, es: seq<Event>, n: nat) returns (rank: map<Alg, nat>)
    requires Runs(rs, es) && n <= |es|
    ensures RegInv(rs[n], rank)
  {
    if n == 0 {
      rank := map[];
    } else {
      var before := RunLayered(rs, es, n - 1);
      assert StepsAt(rs, es, n - 1);
      StepKept(rs[n - 1], before, es[n - 1], rs[n]);
      rank := Reranked(rs[n - 1], before, es[n - 1]);
    }
  }

  /** After any run the lists and owners are linked, and no algorithm is built on
      itself, so the BUG_ON of crypto_remove_spawns cannot fire. */
  lemma RunGrounded(rs: seq<Reg>, es: seq<Event>, n: nat)
    requires Runs(rs, es) && n <= |es|
    ensures Linked(rs[n].g, rs[n].owner) && forall alg :: !BuiltOn(rs[n].g, alg, alg)
  {
    var rank := RunLayered(rs, es, n);
    forall alg
      ensures !BuiltOn(rs[n].g, alg, alg)
    {
      LayeredGrounded(rs[n], rank, alg);
    }
  }

  class Registry {
    var users: map<Alg, seq<Spawn>>
    var inst: map<Spawn, Alg>
    var owner: map<Spawn, Owner>
    var dead: set<Alg>
    var hashed: set<Alg>
    var registered: set<Alg>
    var removed: seq<Alg>

    ghost function Links(): Graph
      reads this
    {
      Graph(users, inst)
    }

    function View(): Lists
      reads this
    {
      Lists(dead, hashed, registered, removed)
    }

    ghost predicate Valid()
      reads this
    {
      Linked(Links(), owner)
    }

    ghost function State(): Reg
      reads this
    {
      Reg(Links(), owner, View())
    }

    constructor ()
      ensures Valid() && State() == EMPTY
    {
      users, inst, owner := map[], map[], map[];
      dead, hashed, registered, removed := {}, {}, {}, [];
    }

    /** An algorithm or instance, not yet registered. */
    method NewAlgorithm(a: Alg)
      requires Valid() && a !in users
      modifies this`users
      ensures Valid() && Stepped(old(State()), NewAlg(a), State())
    {
      assert forall b :: b in users ==> ListOk(owner, users[b], b);
      assert forall s :: s in owner && owner[s].Some? ==> On(Links(), owner[s].alg, s);
      users := users[a := []];
    }

    /** __crypto_register_alg and crypto_register_instance; `ok` is whether it is new. */
    method RegisterAlgorithm(a: Alg, isInstance: bool, taken: bool) returns (ok: bool)
      requires Valid() && a in users && users[a] == []
      modifies this`registered, this`hashed
      ensures Valid() && Stepped(old(State()), Register(a, isInstance, taken), State())
      ensures ok <==> a !in dead && a !in old(registered) && !taken
    {
      ok := a !in dead && a !in registered && !taken;
      if ok {
        registered := registered + {a};
        if isInstance {
          hashed := hashed + {a};
        }
      }
    }

    /** crypto_init_spawn; `ok` is whether the algorithm may still be used. */
    method AddSpawn(s: Spawn, alg: Alg, a: Alg) returns (ok: bool)
      requires Valid() && Allowed(State(), InitSpawn(s, alg, a))
      modifies this`users, this`inst, this`owner
      ensures Valid() && Stepped(old(State()), InitSpawn(s, alg, a), State())
      ensures ok <==> alg !in dead
    {
      SpawnedLinked(State(), s, alg, a);
      ok := alg !in dead;
      if ok {
        users, inst, owner := users[alg := [s] + users[alg]], inst[s := a], owner[s := Some(alg)];
      }
    }

    /** crypto_remove_spawn; its BUG_ON asks for what is required here. */
    method RemoveSpawn(spawn: Spawn, held: set<Alg>)
      requires spawn in inst && inst[spawn] in users && users[inst[spawn]] == []
      modifies this`dead, this`hashed, this`registered, this`removed
      ensures View() == TakeDown(old(View()), inst[spawn], held)
    {
      var a := inst[spawn];
      if a in dead {
        return;
      }
      dead := dead + {a};
      if a !in hashed {
        return;
      }
      if a !in held {
        return;
      }
      registered := registered - {a};
      removed := [a] + removed;
      hashed := hashed - {a};
    }

    /** The second part of crypto_remove_spawns. */
    method RemoveFound(secondary: seq<Spawn>, held: set<Alg>)
      requires forall i :: 0 <= i < |secondary| ==>
                 secondary[i] in inst && inst[secondary[i]] in users && users[inst[secondary[i]]] == []
      modifies this`dead, this`hashed, this`registered, this`removed
      ensures View() == TakeDownAll(old(View()), inst, secondary, held)
    {
      for i := 0 to |secondary|
        invariant View() == TakeDownAll(old(View()), inst, secondary[..i], held)
      {
        assert secondary[..i + 1][..i] == secondary[..i];
        RemoveSpawn(secondary[i], held);
      }
      assert secondary[..|secondary|] == secondary;
    }

    /** crypto_remove_spawns with nalg == NULL: it hits its BUG_ON exactly when the
        algorithm is built on itself; else exactly the instances built on it die. */
    method RemoveSpawns(alg: Alg, held: set<Alg>) returns (bug: bool)
      requires Valid() && alg in users
      modifies this
      ensures bug <==> BuiltOn(old(Links()), alg, alg)
      ensures bug ==> View() == old(View())
      ensures !bug ==> Valid() && TakenDown(old(View()), View(), AllBuiltOn(old(Links()), alg), held)
      ensures !bug ==> Cut(old(Links()), old(owner), alg, users, owner)
      ensures inst == old(inst)
    {
      var x;
      bug, x := Collect(Graph(users, inst), owner, alg);
      if !bug {
        SearchUsed(Links(), owner, alg, x, View(), held);
        TakeOut(x, held);
      }
    }

    /** What follows the search: spawns lost their algorithms, lists their spawns. */
    method TakeOut(x: Search, held: set<Alg>)
      requires forall i :: 0 <= i < |x.secondary| ==> x.secondary[i] in inst && Unused(Links(), x, x.secondary[i])
      modifies this
      ensures users == x.users && owner == x.owner && inst == old(inst)
      ensures View() == TakeDownAll(old(View()), inst, x.secondary, held)
    {
      users, owner := x.users, x.owner;
      RemoveFound(x.secondary, held);
    }

    /** crypto_remove_alg; `err` stands for -ENOENT. */
    method RemoveAlg(alg: Alg, held: set<Alg>) returns (err: bool, bug: bool)
      requires Valid() && alg in users
      modifies this
      ensures err <==> alg !in old(registered)
      ensures err ==> View() == old(View()) && Links() == old(Links()) && owner == old(owner) && !bug
      ensures !err ==> (bug <==> BuiltOn(old(Links()), alg, alg))
      ensures !err && !bug ==>
                && Valid() && Cut(old(Links()), old(owner), alg, users, owner) && inst == old(inst)
                && TakenDown(old(View()).(dead := old(dead) + {alg}, registered := old(registered) - {alg}), View(),
                             AllBuiltOn(old(Links()), alg), held)
      ensures !bug ==> Stepped(old(State()), Remove(alg, held), State())
    {
      if alg !in registered {
        return true, false;
      }
      dead := dead + {alg};
      registered := registered - {alg};
      bug := RemoveSpawns(alg, held);
      err := false;
    }
  }

  /** What the search's result is used for. */
  lemma SearchUsed(g: Graph, owner: map<Spawn, Owner>, alg: Alg, x: Search, l: Lists, held: set<Alg>)
    requires Linked(g, owner) && Result(g, owner, alg, x)
    ensures Linked(Graph(x.users, g.inst), x.owner)
    ensures forall i :: 0 <= i < |x.secondary| ==> x.secondary[i] in g.inst && Unused(g, x, x.secondary[i])
    ensures TakenDown(l, TakeDownAll(l, g.inst, x.secondary, held), AllBuiltOn(g, alg), held)
  {
    StillLinked(g, owner, alg, x);
    forall i | 0 <= i < |x.secondary|
      ensures Unused(g, x, x.secondary[i])
    {
      var s := x.secondary[i];
      assert Depends(g, alg, s);
      assert BuiltOn(g, alg, g.inst[s]);
    }
    FoundInstances(g, owner, alg, x);
    AllTaken(l, g.inst, x.secondary, held);
  }
}
