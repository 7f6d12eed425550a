/**
 The operations of camellia.c as an instance of those CamelliaPath argues about,
 for arbitrary S-box tables.
 */
module CamelliaCipher {
  import opened CamelliaWords
  import opened CamelliaPath

  /** The word operations, for given tables. */
  function Camellia(t: Tables): Cipher<Word> {
    Cipher(Xor, Zero(), i => F(t, i), FL, FLInv, Mask, (x, k, y) => RoundSm(t, x, k, y), HalfPInv)
  }

  lemma CamelliaXor(t: Tables, a: Word, b: Word, c: Word)
    ensures XorLaw(Camellia(t), a, b, c)
  {
    XorLaws(a, b, c);
  }

  lemma CamelliaLayer(t: Tables, x: Word, m: Word, k: Word)
    ensures LayerLaw(Camellia(t), x, m, k)
  {
    FLInvMask(x, m, k);
    FLMask(x, m, k);
    FLInverse(x, k);
  }

  lemma CamelliaRound(t: Tables, x: Word, k: Word, y: Word)
    ensures RoundLaw(Camellia(t), x, k, y)
  {
    RoundSmIs(t, x, k, y);
    RoundSmUndo(t, x, k, y);
  }

  lemma CamelliaLawful(t: Tables)
    ensures Lawful(Camellia(t))
  {
    forall a, b, c
      ensures XorLaw(Camellia(t), a, b, c) && LayerLaw(Camellia(t), a, b, c) && RoundLaw(Camellia(t), a, b, c)
    {
      CamelliaXor(t, a, b, c);
      CamelliaLayer(t, a, b, c);
      CamelliaRound(t, a, b, c);
    }
  }
}
