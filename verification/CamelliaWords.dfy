/**
 The 32-bit word operations of camellia.c and the identities its key-table
 rewriting rests on.  A word is its 32 bits, most significant first: the cipher
 uses no arithmetic, only bitwise operations, rotations and byte lookups.  The
 S-boxes combined with the P function (camellia_sp1110 and its three siblings)
 are arbitrary tables.
 */
module CamelliaWords {

  type Bits = s: seq<bool> | |s| == 32 witness seq(32, _ => false)

  function Xor32(a: Bits, b: Bits): Bits { seq(32, i requires 0 <= i < 32 => a[i] != b[i]) }
  function And32(a: Bits, b: Bits): Bits { seq(32, i requires 0 <= i < 32 => a[i] && b[i]) }
  function Or32(a: Bits, b: Bits): Bits { seq(32, i requires 0 <= i < 32 => a[i] || b[i]) }
  function Not32(a: Bits): Bits { seq(32, i requires 0 <= i < 32 => !a[i]) }

  /** rol32(x, 1), rol32(x, 8) and ror32(x, 8) */
  function Rol1(x: Bits): Bits { x[1..] + x[..1] }
  function Rol8(x: Bits): Bits { x[8..] + x[..8] }
  function Ror8(x: Bits): Bits { x[24..] + x[..24] }

  /** The L and R words of a half block or of a subkey. */
  datatype Word = Word(l: Bits, r: Bits)

  function Xor(a: Word, b: Word): Word { Word(Xor32(a.l, b.l), Xor32(a.r, b.r)) }

  function Zero32(): Bits { seq(32, _ => false) }
  function Zero(): Word { Word(Zero32(), Zero32()) }

  /** Each table maps a byte to a word. */
  datatype Tables = Tables(sp1110: seq<bool> -> Bits, sp0222: seq<bool> -> Bits,
                           sp3033: seq<bool> -> Bits, sp4404: seq<bool> -> Bits)

  /** The table lookups for the left word, and for the right word. */
  function SubstL(t: Tables, xl: Bits): Bits {
    Xor32(Xor32(t.sp1110(xl[..8]), t.sp0222(xl[8..16])), Xor32(t.sp3033(xl[16..24]), t.sp4404(xl[24..])))
  }
  function SubstR(t: Tables, xr: Bits): Bits {
    Xor32(Xor32(t.sp1110(xr[24..]), t.sp0222(xr[..8])), Xor32(t.sp3033(xr[8..16]), t.sp4404(xr[16..24])))
  }

  /** CAMELLIA_F on the sum of input and subkey. */
  function F(t: Tables, i: Word): Word {
    var yr := SubstL(t, i.l);
    var yl := Xor32(SubstR(t, i.r), yr);
    Word(yl, Xor32(Ror8(yr), yl))
  }

  /** CAMELLIA_ROUNDSM: the new value of y. */
  function RoundSm(t: Tables, x: Word, k: Word, y: Word): Word {
    var il := Xor32(SubstL(t, x.l), k.l);
    var ir := Xor32(SubstR(t, x.r), Xor32(il, k.r));
    Word(Xor32(y.l, ir), Xor32(y.r, Xor32(Ror8(il), ir)))
  }

  /** The two halves of CAMELLIA_FLS. */
  function FL(x: Word, k: Word): Word {
    var r := Xor32(x.r, Rol1(And32(k.l, x.l)));
    Word(Xor32(x.l, Or32(k.r, r)), r)
  }

  function FLInv(x: Word, k: Word): Word {
    var l := Xor32(x.l, Or32(k.r, x.r));
    Word(l, Xor32(x.r, Rol1(And32(k.l, l))))
  }

  /** "modified for FL" and "modified for FLinv" in camellia_setup_tail. */
  function Mask(m: Word, k: Word): Word {
    var l := Xor32(m.l, And32(m.r, Not32(k.r)));
    Word(l, Xor32(m.r, Rol1(And32(l, k.l))))
  }

  /** "apply the inverse of the last half of P-function" */
  function HalfPInv(k: Word): Word {
    var dw := Rol8(Xor32(k.l, k.r));
    Word(dw, Xor32(k.l, dw))
  }

  // ----- identities ---------------------------------------------------------

  lemma XorLaws(a: Word, b: Word, c: Word)
    ensures Xor(Xor(a, b), c) == Xor(a, Xor(b, c))
    ensures Xor(a, b) == Xor(b, a)
    ensures Xor(a, a) == Zero()
    ensures Xor(a, Zero()) == a
  {
  }

  /** A mask in front of the inverse FL layer comes out as Mask. */
  lemma FLInvMask(x: Word, m: Word, k: Word)
    ensures FLInv(Xor(x, m), k) == Xor(FLInv(x, k), Mask(m, k))
  {
    assert FLInv(Xor(x, m), k).l == Xor(FLInv(x, k), Mask(m, k)).l;
  }

  /** A mask behind the FL layer is Mask in front of it. */
  lemma FLMask(x: Word, m: Word, k: Word)
    ensures FL(Xor(x, Mask(m, k)), k) == Xor(FL(x, k), m)
  {
    assert FL(Xor(x, Mask(m, k)), k).r == Xor(FL(x, k), m).r;
  }

  lemma FLInverse(x: Word, k: Word)
    ensures FLInv(FL(x, k), k) == x && FL(FLInv(x, k), k) == x
  {
    assert FLInv(FL(x, k), k).l == x.l;
    assert FL(FLInv(x, k), k).r == x.r;
  }

  /** A round of the rewritten cipher is F, then its key. */
  lemma RoundSmIs(t: Tables, x: Word, k: Word, y: Word)
    ensures RoundSm(t, x, HalfPInv(k), y) == Xor(Xor(y, F(t, x)), k)
  {
    var sl, sr := SubstL(t, x.l), SubstR(t, x.r);
    assert Ror8(Xor32(sl, HalfPInv(k).l)) == Xor32(Ror8(sl), Xor32(k.l, k.r));
  }

  lemma RoundSmUndo(t: Tables, x: Word, k: Word, y: Word)
    ensures RoundSm(t, x, k, RoundSm(t, x, k, y)) == y
  {
  }
}
