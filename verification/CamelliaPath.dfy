/**
 The data path of section 2.3 of RFC 3713 and the rewritten one of camellia.c,
 for 6n rounds (n is 3 for 128-bit keys, 4 for longer ones), and the proof that
 the key table of camellia_setup_tail makes them equal.

 The argument uses only a few identities of the word operations, so it is made
 for any operations that satisfy them; CamelliaWords supplies the real ones.
 */
module CamelliaPath {

  /** The operations the data paths are built from. */
  datatype Cipher<!W> = Cipher(
    xor: (W, W) -> W,
    zero: W,
    f: W -> W,              // CAMELLIA_F on the sum of input and subkey
    fl: (W, W) -> W,        // the two halves of CAMELLIA_FLS
    flInv: (W, W) -> W,
    mask: (W, W) -> W,      // a mask on one side of an FL layer, seen from the other
    roundSm: (W, W, W) -> W, // CAMELLIA_ROUNDSM(x, k, y): the new y
    halfPInv: W -> W)       // the inverse of the last half of the P function

  /** Marks the triples for which the laws below are to be used. */
  ghost predicate Use<W>(a: W, b: W, c: W) { true }

  ghost predicate XorLaw<W>(o: Cipher<W>, a: W, b: W, c: W) {
    && o.xor(o.xor(a, b), c) == o.xor(a, o.xor(b, c))
    && o.xor(a, b) == o.xor(b, a)
    && o.xor(a, a) == o.zero
    && o.xor(a, o.zero) == a
  }

  ghost predicate LayerLaw<W>(o: Cipher<W>, x: W, m: W, k: W) {
    && o.flInv(o.xor(x, m), k) == o.xor(o.flInv(x, k), o.mask(m, k))
    && o.fl(o.xor(x, o.mask(m, k)), k) == o.xor(o.fl(x, k), m)
    && o.flInv(o.fl(x, k), k) == x && o.fl(o.flInv(x, k), k) == x
  }

  ghost predicate RoundLaw<W>(o: Cipher<W>, x: W, k: W, y: W) {
    && o.roundSm(x, o.halfPInv(k), y) == o.xor(o.xor(y, o.f(x)), k)
    && o.roundSm(x, k, o.roundSm(x, k, y)) == y
  }

  ghost predicate Lawful<W(!new)>(o: Cipher<W>) {
    forall a, b, c {:trigger Use(a, b, c)} :: XorLaw(o, a, b, c) && LayerLaw(o, a, b, c) && RoundLaw(o, a, b, c)
  }

  // ----- the group laws, as they are used -----------------------------------

  lemma Cancel<W(!new)>(o: Cipher<W>, a: W, p: W, k: W)
    requires Lawful(o)
    ensures o.xor(o.xor(a, p), o.xor(k, p)) == o.xor(a, k)
    ensures o.xor(o.xor(a, p), o.xor(p, k)) == o.xor(a, k)
    ensures o.xor(o.xor(a, p), p) == a
  {
    assert Use(a, p, p);
    assert Use(p, k, p);
    assert Use(p, p, k);
    assert Use(k, p, k);
    assert Use(a, p, o.xor(k, p));
    assert Use(a, p, o.xor(p, k));
    assert Use(o.zero, k, k);
    assert Use(k, o.zero, k);
  }

  lemma Slide<W(!new)>(o: Cipher<W>, b: W, q: W, z: W)
    requires Lawful(o)
    ensures o.xor(o.xor(b, q), z) == o.xor(o.xor(b, z), q)
  {
    assert Use(b, q, z);
    assert Use(b, z, q);
    assert Use(q, z, q);
  }

  lemma WithZero<W(!new)>(o: Cipher<W>, a: W)
    requires Lawful(o)
    ensures o.xor(o.zero, a) == a && o.xor(a, o.zero) == a
  {
    assert Use(a, o.zero, a);
  }

  lemma Assoc<W(!new)>(o: Cipher<W>, a: W, b: W, c: W)
    requires Lawful(o)
    ensures o.xor(o.xor(a, b), c) == o.xor(a, o.xor(b, c))
  {
    assert Use(a, b, c);
  }

  lemma MoveMask<W(!new)>(o: Cipher<W>, b: W, m: W, z: W, next: W)
    requires Lawful(o)
    ensures o.xor(o.xor(o.xor(b, m), z), o.xor(m, next)) == o.xor(o.xor(b, z), next)
  {
    Slide(o, b, m, z);
    Cancel(o, o.xor(b, z), m, next);
  }

  // ----- the plain data path ------------------------------------------------

  /** The two halves of a block. */
  datatype Block<W> = Block(d1: W, d2: W)

  /** A pair of subkeys, used for an odd and the following even round, or for an
      FL layer (FL on the first half, its inverse on the second). */
  datatype Step<W> = Rounds(odd: W, even: W) | Layer(fl: W, flInv: W)

  /** The subkeys of a key: the steps between the four whitening keys. */
  datatype Schedule<W> = Schedule(kw1: W, kw2: W, steps: seq<Step<W>>, kw3: W, kw4: W)

  function Do<W>(o: Cipher<W>, k: Step<W>, b: Block<W>): Block<W> {
    match k
    case Rounds(odd, even) =>
      var d2 := o.xor(b.d2, o.f(o.xor(b.d1, odd)));
      Block(o.xor(b.d1, o.f(o.xor(d2, even))), d2)
    case Layer(fl, flInv) => Block(o.fl(b.d1, fl), o.flInv(b.d2, flInv))
  }

  /** The first n steps. */
  function Path<W>(o: Cipher<W>, ks: seq<Step<W>>, n: nat, b: Block<W>): Block<W>
    requires n <= |ks|
  {
    if n == 0 then b else Do(o, ks[n - 1], Path(o, ks, n - 1, b))
  }

  /** The ciphertext is the second half followed by the first. */
  function PlainEncrypt<W>(o: Cipher<W>, s: Schedule<W>, b: Block<W>): Block<W> {
    var c := Path(o, s.steps, |s.steps|, Block(o.xor(b.d1, s.kw1), o.xor(b.d2, s.kw2)));
    Block(o.xor(c.d2, s.kw3), o.xor(c.d1, s.kw4))
  }

  // ----- the rewritten data path --------------------------------------------

  function DoSm<W>(o: Cipher<W>, k: Step<W>, b: Block<W>): Block<W> {
    match k
    case Rounds(odd, even) =>
      var d2 := o.roundSm(b.d1, odd, b.d2);
      Block(o.roundSm(d2, even, b.d1), d2)
    case Layer(fl, flInv) => Block(o.fl(b.d1, fl), o.flInv(b.d2, flInv))
  }

  function PathSm<W>(o: Cipher<W>, ks: seq<Step<W>>, n: nat, b: Block<W>): Block<W>
    requires n <= |ks|
  {
    if n == 0 then b else DoSm(o, ks[n - 1], PathSm(o, ks, n - 1, b))
  }

  /** camellia_do_encrypt on a table whose kw2 and kw4 are unused; the halves are
      left for the caller to swap. */
  function FastEncrypt<W>(o: Cipher<W>, s: Schedule<W>, b: Block<W>): Block<W> {
    var c := PathSm(o, s.steps, |s.steps|, b.(d1 := o.xor(b.d1, s.kw1)));
    c.(d2 := o.xor(c.d2, s.kw3))
  }

  function Swap<W>(b: Block<W>): Block<W> { Block(b.d2, b.d1) }

  /** The same pair of subkeys with their roles exchanged. */
  function Exchanged<W>(k: Step<W>): Step<W> {
    match k
    case Rounds(odd, even) => Rounds(even, odd)
    case Layer(fl, flInv) => Layer(flInv, fl)
  }

  /** The first n steps, last first, each exchanged. */
  function PathBack<W>(o: Cipher<W>, ks: seq<Step<W>>, n: nat, b: Block<W>): Block<W>
    requires n <= |ks|
  {
    if n == 0 then b else PathBack(o, ks, n - 1, DoSm(o, Exchanged(ks[n - 1]), b))
  }

  /** camellia_do_decrypt */
  function FastDecrypt<W>(o: Cipher<W>, s: Schedule<W>, b: Block<W>): Block<W> {
    var c := PathBack(o, s.steps, |s.steps|, b.(d1 := o.xor(b.d1, s.kw3)));
    c.(d2 := o.xor(c.d2, s.kw1))
  }

  // ----- the rewritten key table --------------------------------------------

  /** kw2 as step i sees it: it has passed every FL layer before. */
  function Kw2<W>(o: Cipher<W>, s: Schedule<W>, i: nat): W
    requires i <= |s.steps|
  {
    if i == 0 then s.kw2
    else if s.steps[i - 1].Layer? then o.mask(Kw2(o, s, i - 1), s.steps[i - 1].flInv)
    else Kw2(o, s, i - 1)
  }

  /** kw4 as step i sees it: every FL layer from there on has been undone. */
  function Kw4<W>(o: Cipher<W>, s: Schedule<W>, i: nat): W
    requires i <= |s.steps|
    decreases |s.steps| - i
  {
    if i == |s.steps| then s.kw4
    else if s.steps[i].Layer? then o.mask(Kw4(o, s, i + 1), s.steps[i].fl)
    else Kw4(o, s, i + 1)
  }

  /** Step i after kw2 and kw4 are absorbed. */
  function Absorbed<W>(o: Cipher<W>, s: Schedule<W>, i: nat): Step<W>
    requires i < |s.steps|
  {
    match s.steps[i]
    case Rounds(odd, even) => Rounds(o.xor(odd, Kw4(o, s, i)), o.xor(even, Kw2(o, s, i)))
    case Layer(_, _) => s.steps[i]
  }

  /** kw1 and kw3 after the absorption. */
  function Kw1<W>(o: Cipher<W>, s: Schedule<W>): W { o.xor(s.kw1, Kw4(o, s, 0)) }
  function Kw3<W>(o: Cipher<W>, s: Schedule<W>): W { o.xor(s.kw3, Kw2(o, s, |s.steps|)) }

  /** The mask on the second half in front of step i: the even key used last. */
  function Before<W>(o: Cipher<W>, s: Schedule<W>, i: nat): W
    requires i <= |s.steps|
  {
    if i == 0 then o.zero
    else match Absorbed(o, s, i - 1)
         case Rounds(_, even) => even
         case Layer(_, flInv) => o.mask(Before(o, s, i - 1), flInv)
  }

  /** The mask on the first half in front of step i: the odd key needed next. */
  function Next<W>(o: Cipher<W>, s: Schedule<W>, i: nat): W
    requires i <= |s.steps|
    decreases |s.steps| - i
  {
    if i == |s.steps| then o.zero
    else match Absorbed(o, s, i)
         case Rounds(odd, _) => odd
         case Layer(fl, _) => o.mask(Next(o, s, i + 1), fl)
  }

  /** Step i of the table: the key XOR moved behind F, so that a round takes the
      mask it finds on its target to the key needed there next, and the inverse
      of half of P applied. */
  function Entry<W>(o: Cipher<W>, s: Schedule<W>, i: nat): Step<W>
    requires i < |s.steps|
  {
    match Absorbed(o, s, i)
    case Rounds(odd, even) =>
      Rounds(o.halfPInv(o.xor(Before(o, s, i), even)), o.halfPInv(o.xor(odd, Next(o, s, i + 1))))
    case Layer(_, _) => s.steps[i]
  }

  /** The table is what camellia_setup_tail makes of the subkeys. */
  ghost predicate IsTable<W>(o: Cipher<W>, key: Schedule<W>, s: Schedule<W>) {
    var n := |s.steps|;
    && |key.steps| == n
    && key.kw1 == o.xor(Kw1(o, s), Next(o, s, 0))
    && key.kw3 == o.xor(Kw3(o, s), Before(o, s, n))
    && forall i :: 0 <= i < n ==> key.steps[i] == Entry(o, s, i)
  }

  // ----- first step: absorbing kw2 and kw4 ----------------------------------

  function Masked<W>(o: Cipher<W>, b: Block<W>, p: W, q: W): Block<W> { Block(o.xor(b.d1, p), o.xor(b.d2, q)) }

  lemma RoundsMasked<W(!new)>(o: Cipher<W>, odd: W, even: W, b: Block<W>, p: W, q: W)
    requires Lawful(o)
    ensures Do(o, Rounds(o.xor(odd, p), o.xor(even, q)), Masked(o, b, p, q)) == Masked(o, Do(o, Rounds(odd, even), b), p, q)
  {
    Cancel(o, b.d1, p, odd);
    var z := o.f(o.xor(b.d1, odd));
    Slide(o, b.d2, q, z);
    var d2 := o.xor(b.d2, z);
    Cancel(o, d2, q, even);
    Slide(o, b.d1, p, o.f(o.xor(d2, even)));
  }

  /** Masks pass an FL layer, changing as Kw4 and Kw2 do. */
  lemma LayerMasked<W(!new)>(o: Cipher<W>, fl: W, flInv: W, b: Block<W>, p: W, q: W)
    requires Lawful(o)
    ensures Do(o, Layer(fl, flInv), Masked(o, b, o.mask(p, fl), q)) == Masked(o, Do(o, Layer(fl, flInv), b), p, o.mask(q, flInv))
  {
    assert Use(b.d1, p, fl);
    assert Use(b.d2, q, flInv);
  }

  /** The path run on the absorbed keys. */
  function AbsorbedPath<W>(o: Cipher<W>, s: Schedule<W>, n: nat, b: Block<W>): Block<W>
    requires n <= |s.steps|
  {
    if n == 0 then b else Do(o, Absorbed(o, s, n - 1), AbsorbedPath(o, s, n - 1, b))
  }

  lemma StepMasked<W(!new)>(o: Cipher<W>, s: Schedule<W>, i: nat, b: Block<W>)
    requires Lawful(o) && i < |s.steps|
    ensures Do(o, Absorbed(o, s, i), Masked(o, b, Kw4(o, s, i), Kw2(o, s, i)))
            == Masked(o, Do(o, s.steps[i], b), Kw4(o, s, i + 1), Kw2(o, s, i + 1))
  {
    match s.steps[i] {
      case Rounds(odd, even) => RoundsMasked(o, odd, even, b, Kw4(o, s, i), Kw2(o, s, i));
      case Layer(fl, flInv) => LayerMasked(o, fl, flInv, b, Kw4(o, s, i + 1), Kw2(o, s, i));
    }
  }

  /** Running the absorbed keys keeps the halves masked by what is left of kw4 and kw2. */
  lemma {:induction false} PathMasked<W(!new)>(o: Cipher<W>, s: Schedule<W>, n: nat, b: Block<W>)
    requires Lawful(o) && n <= |s.steps|
    ensures AbsorbedPath(o, s, n, Masked(o, b, Kw4(o, s, 0), Kw2(o, s, 0)))
            == Masked(o, Path(o, s.steps, n, b), Kw4(o, s, n), Kw2(o, s, n))
  {
    if n > 0 {
      PathMasked(o, s, n - 1, b);
      var c := Path(o, s.steps, n - 1, b);
      StepMasked(o, s, n - 1, c);
      assert Path(o, s.steps, n, b) == Do(o, s.steps[n - 1], c);
    }
  }

  // ----- second step: the key XOR behind F ----------------------------------

  /** Two rewritten rounds: the halves carry the keys they need next as masks. */
  lemma RoundsMoved<W(!new)>(o: Cipher<W>, odd: W, even: W, b: Block<W>, m: W, next: W)
    requires Lawful(o)
    ensures DoSm(o, Rounds(o.halfPInv(o.xor(m, even)), o.halfPInv(o.xor(odd, next))), Masked(o, b, odd, m))
            == Masked(o, Do(o, Rounds(odd, even), b), next, even)
  {
    var z := o.f(o.xor(b.d1, odd));
    var d2 := o.xor(b.d2, z);
    assert Use(o.xor(b.d1, odd), o.xor(m, even), o.xor(b.d2, m));
    MoveMask(o, b.d2, m, z, even);
    assert Use(o.xor(d2, even), o.xor(odd, next), o.xor(b.d1, odd));
    MoveMask(o, b.d1, odd, o.f(o.xor(d2, even)), next);
  }

  lemma StepMoved<W(!new)>(o: Cipher<W>, s: Schedule<W>, i: nat, b: Block<W>)
    requires Lawful(o) && i < |s.steps|
    ensures DoSm(o, Entry(o, s, i), Masked(o, b, Next(o, s, i), Before(o, s, i)))
            == Masked(o, Do(o, Absorbed(o, s, i), b), Next(o, s, i + 1), Before(o, s, i + 1))
  {
    match Absorbed(o, s, i) {
      case Rounds(odd, even) => RoundsMoved(o, odd, even, b, Before(o, s, i), Next(o, s, i + 1));
      case Layer(fl, flInv) => LayerMasked(o, fl, flInv, b, Next(o, s, i + 1), Before(o, s, i));
    }
  }

  lemma TableStepMoved<W(!new)>(o: Cipher<W>, s: Schedule<W>, key: Schedule<W>, i: nat, b: Block<W>)
    requires Lawful(o) && i < |s.steps| && IsTable(o, key, s)
    ensures DoSm(o, key.steps[i], Masked(o, b, Next(o, s, i), Before(o, s, i)))
            == Masked(o, Do(o, Absorbed(o, s, i), b), Next(o, s, i + 1), Before(o, s, i + 1))
  {
    StepMoved(o, s, i, b);
  }

  lemma {:induction false} PathMoved<W(!new)>(o: Cipher<W>, s: Schedule<W>, key: Schedule<W>, n: nat, b: Block<W>)
    requires Lawful(o) && n <= |s.steps| && IsTable(o, key, s)
    ensures PathSm(o, key.steps, n, Masked(o, b, Next(o, s, 0), Before(o, s, 0)))
            == Masked(o, AbsorbedPath(o, s, n, b), Next(o, s, n), Before(o, s, n))
  {
    if n > 0 {
      PathMoved(o, s, key, n - 1, b);
      TableStepMoved(o, s, key, n - 1, AbsorbedPath(o, s, n - 1, b));
    }
  }

  // ----- the theorem --------------------------------------------------------

  /** For every subkey sequence and all tables, the fast path on the rewritten
      table is the plain cipher. */
  lemma FastIsPlain<W(!new)>(o: Cipher<W>, s: Schedule<W>, key: Schedule<W>, b: Block<W>)
    requires Lawful(o) && IsTable(o, key, s)
    ensures Swap(FastEncrypt(o, key, b)) == PlainEncrypt(o, s, b)
  {
    var n := |s.steps|;
    var start := Block(o.xor(b.d1, s.kw1), o.xor(b.d2, s.kw2));
    var mid := Block(o.xor(b.d1, Kw1(o, s)), b.d2);
    assert mid == Masked(o, start, Kw4(o, s, 0), Kw2(o, s, 0)) by {
      Assoc(o, b.d1, s.kw1, Kw4(o, s, 0));
      Cancel(o, b.d2, s.kw2, s.kw2);
    }
    assert b.(d1 := o.xor(b.d1, key.kw1)) == Masked(o, mid, Next(o, s, 0), Before(o, s, 0)) by {
      Assoc(o, b.d1, Kw1(o, s), Next(o, s, 0));
      WithZero(o, b.d2);
    }
    PathMasked(o, s, n, start);
    PathMoved(o, s, key, n, mid);
    var g, h := Path(o, s.steps, n, start), AbsorbedPath(o, s, n, mid);
    WithZero(o, h.d1);
    Cancel(o, h.d2, Before(o, s, n), Kw3(o, s));
    Cancel(o, g.d2, Kw2(o, s, n), s.kw3);
  }

  // ----- decryption ---------------------------------------------------------

  lemma StepUndone<W(!new)>(o: Cipher<W>, k: Step<W>, b: Block<W>)
    requires Lawful(o)
    ensures DoSm(o, Exchanged(k), Swap(DoSm(o, k, b))) == Swap(b)
  {
    match k {
      case Rounds(odd, even) =>
        assert Use(o.roundSm(b.d1, odd, b.d2), even, b.d1);
        assert Use(b.d1, odd, b.d2);
      case Layer(fl, flInv) =>
        assert Use(b.d1, fl, fl);
        assert Use(b.d2, flInv, flInv);
    }
  }

  lemma {:induction false} PathUndone<W(!new)>(o: Cipher<W>, ks: seq<Step<W>>, n: nat, b: Block<W>)
    requires Lawful(o) && n <= |ks|
    ensures PathBack(o, ks, n, Swap(PathSm(o, ks, n, b))) == Swap(b)
  {
    if n > 0 {
      StepUndone(o, ks[n - 1], PathSm(o, ks, n - 1, b));
      PathUndone(o, ks, n - 1, b);
    }
  }

  /** Whatever the table, decryption undoes encryption (the caller swaps the
      halves after each). */
  lemma DecryptUndoes<W(!new)>(o: Cipher<W>, s: Schedule<W>, b: Block<W>)
    requires Lawful(o)
    ensures Swap(FastDecrypt(o, s, Swap(FastEncrypt(o, s, b)))) == b
  {
    var start := b.(d1 := o.xor(b.d1, s.kw1));
    var c := PathSm(o, s.steps, |s.steps|, start);
    Cancel(o, c.d2, s.kw3, s.kw3);
    PathUndone(o, s.steps, |s.steps|, start);
    Cancel(o, b.d1, s.kw1, s.kw1);
  }
}
