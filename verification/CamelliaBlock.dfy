/**
 camellia_do_encrypt and camellia_do_decrypt on a block held in an array of two
 halves, run on a table made by camellia_setup_tail.
 */
module CamelliaBlock {
  import opened CamelliaWords
  import opened CamelliaPath
  import opened CamelliaTable
  import opened CamelliaCipher

  ghost function BlockOf<W>(io: array<W>): Block<W>
    requires io.Length == 2
    reads io
  {
    Block(io[0], io[1])
  }

  /** The round keys of pair c of group j. */
  function Pair<W>(key: seq<W>, j: nat, c: nat): Step<W>
    requires c < 3 && 8 * j + 8 <= |key|
  {
    Rounds(key[8 * j + 2 * c + 2], key[8 * j + 2 * c + 3])
  }

  lemma PairIs<W>(key: seq<W>, g: nat, j: nat, c: nat)
    requires j < g && c < 3 && 8 * g + 1 < |key|
    ensures ScheduleOf(key, g).steps[4 * j + c] == Pair(key, j, c)
  {
    assert StepAt(key, 4 * j + c) == Pair(key, j, c);
  }

  // ----- six rounds ---------------------------------------------------------

  function Three<W>(o: Cipher<W>, p: Step<W>, q: Step<W>, r: Step<W>, b: Block<W>): Block<W> {
    DoSm(o, r, DoSm(o, q, DoSm(o, p, b)))
  }

  method TwoRounds<W>(o: Cipher<W>, k1: W, k2: W, io: array<W>)
    requires io.Length == 2
    modifies io
    ensures BlockOf(io) == DoSm(o, Rounds(k1, k2), old(BlockOf(io)))
  {
    io[1] := o.roundSm(io[0], k1, io[1]);
    io[0] := o.roundSm(io[1], k2, io[0]);
  }

  /** The six CAMELLIA_ROUNDSM of a ROUNDS macro. */
  method SixRounds<W>(o: Cipher<W>, k1: W, k2: W, k3: W, k4: W, k5: W, k6: W, io: array<W>)
    requires io.Length == 2
    modifies io
    ensures BlockOf(io) == Three(o, Rounds(k1, k2), Rounds(k3, k4), Rounds(k5, k6), old(BlockOf(io)))
  {
    TwoRounds(o, k1, k2, io);
    TwoRounds(o, k3, k4, io);
    TwoRounds(o, k5, k6, io);
  }

  // ----- encryption ---------------------------------------------------------

  /** The block after the first n steps of the fast path. */
  function After<W>(o: Cipher<W>, key: seq<W>, g: nat, n: nat, start: Block<W>): Block<W>
    requires g >= 1 && 8 * g + 1 < |key| && n < 4 * g
  {
    PathSm(o, ScheduleOf(key, g).steps, n, start)
  }

  lemma AfterThree<W>(o: Cipher<W>, key: seq<W>, g: nat, j: nat, start: Block<W>)
    requires j < g && 8 * g + 1 < |key|
    ensures After(o, key, g, 4 * j + 3, start) ==
            Three(o, Pair(key, j, 0), Pair(key, j, 1), Pair(key, j, 2), After(o, key, g, 4 * j, start))
  {
    PairIs(key, g, j, 0);
    PairIs(key, g, j, 1);
    PairIs(key, g, j, 2);
    PathThree(o, ScheduleOf(key, g).steps, 4 * j, 4 * j + 3, Pair(key, j, 0), Pair(key, j, 1), Pair(key, j, 2), start);
  }

  lemma PathThree<W>(o: Cipher<W>, ks: seq<Step<W>>, n: nat, m: nat, p: Step<W>, q: Step<W>, r: Step<W>, start: Block<W>)
    requires m == n + 3 <= |ks| && ks[n] == p && ks[n + 1] == q && ks[n + 2] == r
    ensures PathSm(o, ks, m, start) == Three(o, p, q, r, PathSm(o, ks, n, start))
  {
    assert PathSm(o, ks, n + 2, start) == DoSm(o, q, PathSm(o, ks, n + 1, start));
  }

  /** ROUNDS(8j) of camellia_do_encrypt: steps 4j to 4j+2. */
  method ForwardRounds<W>(o: Cipher<W>, subkey: array<W>, io: array<W>, j: nat, ghost g: nat, ghost start: Block<W>)
    requires subkey != io && io.Length == 2 && j < g && 8 * g + 1 < subkey.Length
    requires BlockOf(io) == After(o, subkey[..], g, 4 * j, start)
    modifies io
    ensures BlockOf(io) == After(o, subkey[..], g, 4 * j + 3, start)
  {
    AfterThree(o, subkey[..], g, j, start);
    var i := 8 * j;
    SixRounds(o, subkey[i + 2], subkey[i + 3], subkey[i + 4], subkey[i + 5], subkey[i + 6], subkey[i + 7], io);
  }

  /** FLS(8j) of camellia_do_encrypt: step 4j-1. */
  method ForwardLayer<W>(o: Cipher<W>, subkey: array<W>, io: array<W>, j: nat, ghost g: nat, ghost start: Block<W>)
    requires subkey != io && io.Length == 2 && 0 < j < g && 8 * g + 1 < subkey.Length
    requires BlockOf(io) == After(o, subkey[..], g, 4 * j - 1, start)
    modifies io
    ensures BlockOf(io) == After(o, subkey[..], g, 4 * j, start)
  {
    ghost var key := subkey[..];
    io[0] := o.fl(io[0], subkey[8 * j]);
    io[1] := o.flInv(io[1], subkey[8 * j + 1]);
    assert ScheduleOf(key, g).steps[4 * j - 1] == Layer(key[8 * j], key[8 * j + 1]);
  }

  /** An FL layer and the six rounds behind it. */
  method ForwardGroup<W>(o: Cipher<W>, subkey: array<W>, io: array<W>, j: nat, ghost g: nat, ghost start: Block<W>)
    requires subkey != io && io.Length == 2 && 0 < j < g && 8 * g + 1 < subkey.Length
    requires BlockOf(io) == After(o, subkey[..], g, 4 * j - 1, start)
    modifies io
    ensures BlockOf(io) == After(o, subkey[..], g, 4 * j + 3, start)
  {
    ForwardLayer(o, subkey, io, j, g, start);
    ForwardRounds(o, subkey, io, j, g, start);
  }

  /** The first three groups, which keys of every length have. */
  method ForwardThree<W>(o: Cipher<W>, subkey: array<W>, io: array<W>, ghost g: nat)
    requires subkey != io && io.Length == 2 && 3 <= g && 8 * g + 1 < subkey.Length
    modifies io
    ensures BlockOf(io) == After(o, subkey[..], g, 11, old(BlockOf(io)))
  {
    ghost var start := BlockOf(io);
    ForwardRounds(o, subkey, io, 0, g, start);
    ForwardGroup(o, subkey, io, 1, g, start);
    ForwardGroup(o, subkey, io, 2, g, start);
  }

  method ForwardAll<W>(o: Cipher<W>, subkey: array<W>, io: array<W>, max: nat)
    requires subkey != io && io.Length == 2 && (max == 24 || max == 32) && max + 1 < subkey.Length
    modifies io
    ensures BlockOf(io) == After(o, subkey[..], max / 8, max / 2 - 1, old(BlockOf(io)))
  {
    ghost var start := BlockOf(io);
    if max == 32 {
      ForwardThree(o, subkey, io, 4);
      ForwardGroup(o, subkey, io, 3, 4, start);
    } else {
      ForwardThree(o, subkey, io, 3);
    }
  }

  lemma WhitenedForward<W>(o: Cipher<W>, key: seq<W>, max: nat, b: Block<W>)
    requires (max == 24 || max == 32) && max + 1 < |key|
    ensures var c := After(o, key, max / 8, max / 2 - 1, Block(o.xor(b.d1, key[0]), b.d2));
            FastEncrypt(o, ScheduleOf(key, max / 8), b) == Block(c.d1, o.xor(c.d2, key[max]))
  {
  }

  /** camellia_do_encrypt */
  method DoEncrypt<W>(o: Cipher<W>, subkey: array<W>, io: array<W>, max: nat)
    requires subkey != io && io.Length == 2 && (max == 24 || max == 32) && max + 1 < subkey.Length
    modifies io
    ensures BlockOf(io) == FastEncrypt(o, ScheduleOf(subkey[..], max / 8), old(BlockOf(io)))
  {
    WhitenedForward(o, subkey[..], max, BlockOf(io));
    io[0] := o.xor(io[0], subkey[0]);
    ForwardAll(o, subkey, io, max);
    io[1] := o.xor(io[1], subkey[max]);
  }

  // ----- decryption ---------------------------------------------------------

  /** What the first n steps, run backwards, will make of a block. */
  function Rest<W>(o: Cipher<W>, key: seq<W>, g: nat, n: nat, b: Block<W>): Block<W>
    requires g >= 1 && 8 * g + 1 < |key| && n < 4 * g
  {
    PathBack(o, ScheduleOf(key, g).steps, n, b)
  }

  lemma BackThree<W>(o: Cipher<W>, ks: seq<Step<W>>, n: nat, m: nat, p: Step<W>, q: Step<W>, r: Step<W>, b: Block<W>)
    requires m == n + 3 <= |ks| && ks[n] == p && ks[n + 1] == q && ks[n + 2] == r
    ensures PathBack(o, ks, m, b) == PathBack(o, ks, n, Three(o, Exchanged(r), Exchanged(q), Exchanged(p), b))
  {
    var b2 := DoSm(o, Exchanged(r), b);
    assert PathBack(o, ks, n + 2, b2) == PathBack(o, ks, n + 1, DoSm(o, Exchanged(q), b2));
  }

  lemma RestThree<W>(o: Cipher<W>, key: seq<W>, g: nat, j: nat, b: Block<W>)
    requires j < g && 8 * g + 1 < |key|
    ensures Rest(o, key, g, 4 * j + 3, b) ==
            Rest(o, key, g, 4 * j,
                 Three(o, Exchanged(Pair(key, j, 2)), Exchanged(Pair(key, j, 1)), Exchanged(Pair(key, j, 0)), b))
  {
    PairIs(key, g, j, 0);
    PairIs(key, g, j, 1);
    PairIs(key, g, j, 2);
    BackThree(o, ScheduleOf(key, g).steps, 4 * j, 4 * j + 3, Pair(key, j, 0), Pair(key, j, 1), Pair(key, j, 2), b);
  }

  /** ROUNDS(8j) of camellia_do_decrypt. */
  method BackwardRounds<W>(o: Cipher<W>, subkey: array<W>, io: array<W>, j: nat, ghost g: nat)
    requires subkey != io && io.Length == 2 && j < g && 8 * g + 1 < subkey.Length
    modifies io
    ensures Rest(o, subkey[..], g, 4 * j, BlockOf(io)) == Rest(o, subkey[..], g, 4 * j + 3, old(BlockOf(io)))
  {
    RestThree(o, subkey[..], g, j, BlockOf(io));
    var i := 8 * j;
    SixRounds(o, subkey[i + 7], subkey[i + 6], subkey[i + 5], subkey[i + 4], subkey[i + 3], subkey[i + 2], io);
  }

  /** FLS(8j) of camellia_do_decrypt. */
  method BackwardLayer<W>(o: Cipher<W>, subkey: array<W>, io: array<W>, j: nat, ghost g: nat)
    requires subkey != io && io.Length == 2 && 0 < j < g && 8 * g + 1 < subkey.Length
    modifies io
    ensures Rest(o, subkey[..], g, 4 * j - 1, BlockOf(io)) == Rest(o, subkey[..], g, 4 * j, old(BlockOf(io)))
  {
    ghost var key := subkey[..];
    io[0] := o.fl(io[0], subkey[8 * j + 1]);
    io[1] := o.flInv(io[1], subkey[8 * j]);
    assert ScheduleOf(key, g).steps[4 * j - 1] == Layer(key[8 * j], key[8 * j + 1]);
  }

  method BackwardGroup<W>(o: Cipher<W>, subkey: array<W>, io: array<W>, j: nat, ghost g: nat)
    requires subkey != io && io.Length == 2 && 0 < j < g && 8 * g + 1 < subkey.Length
    modifies io
    ensures Rest(o, subkey[..], g, 4 * j - 1, BlockOf(io)) == Rest(o, subkey[..], g, 4 * j + 3, old(BlockOf(io)))
  {
    BackwardRounds(o, subkey, io, j, g);
    BackwardLayer(o, subkey, io, j, g);
  }

  /** The first three groups, which keys of every length have. */
  method BackwardThree<W>(o: Cipher<W>, subkey: array<W>, io: array<W>, ghost g: nat)
    requires subkey != io && io.Length == 2 && 3 <= g && 8 * g + 1 < subkey.Length
    modifies io
    ensures BlockOf(io) == Rest(o, subkey[..], g, 11, old(BlockOf(io)))
  {
    BackwardGroup(o, subkey, io, 2, g);
    BackwardGroup(o, subkey, io, 1, g);
    BackwardRounds(o, subkey, io, 0, g);
  }

  /** All groups. */
  method BackwardAll<W>(o: Cipher<W>, subkey: array<W>, io: array<W>, max: nat)
    requires subkey != io && io.Length == 2 && (max == 24 || max == 32) && max + 1 < subkey.Length
    modifies io
    ensures BlockOf(io) == Rest(o, subkey[..], max / 8, max / 2 - 1, old(BlockOf(io)))
  {
    if max == 32 {
      BackwardGroup(o, subkey, io, 3, 4);
      BackwardThree(o, subkey, io, 4);
    } else {
      BackwardThree(o, subkey, io, 3);
    }
  }

  lemma WhitenedBackward<W>(o: Cipher<W>, key: seq<W>, max: nat, b: Block<W>)
    requires (max == 24 || max == 32) && max + 1 < |key|
    ensures var c := Rest(o, key, max / 8, max / 2 - 1, Block(o.xor(b.d1, key[max]), b.d2));
            FastDecrypt(o, ScheduleOf(key, max / 8), b) == Block(c.d1, o.xor(c.d2, key[0]))
  {
  }

  /** camellia_do_decrypt */
  method DoDecrypt<W>(o: Cipher<W>, subkey: array<W>, io: array<W>, max: nat)
    requires subkey != io && io.Length == 2 && (max == 24 || max == 32) && max + 1 < subkey.Length
    modifies io
    ensures BlockOf(io) == FastDecrypt(o, ScheduleOf(subkey[..], max / 8), old(BlockOf(io)))
  {
    WhitenedBackward(o, subkey[..], max, BlockOf(io));
    io[0] := o.xor(io[0], subkey[max]);
    BackwardAll(o, subkey, io, max);
    io[1] := o.xor(io[1], subkey[0]);
  }

  // ----- the cipher ---------------------------------------------------------

  /** Setting up a key, encrypting and storing the halves exchanged is the cipher
      of RFC 3713, for arbitrary subkeys and tables. */
  method EncryptWithKey(t: Tables, subkey: array<Word>, sub: array<Word>, io: array<Word>, max: nat) returns (out: Block<Word>)
    requires subkey != sub && subkey != io && sub != io && io.Length == 2
    requires (max == 24 || max == 32) && sub.Length == max + 2 && max + 1 < subkey.Length
    modifies subkey, sub, io
    ensures out == PlainEncrypt(Camellia(t), ScheduleOf(old(sub[..]), max / 8), old(BlockOf(io)))
  {
    CamelliaLawful(t);
    var o := Camellia(t);
    ghost var s, b := ScheduleOf(sub[..], max / 8), BlockOf(io);
    SetupTail(o, subkey, sub, max);
    ghost var key := ScheduleOf(subkey[..], max / 8);
    DoEncrypt(o, subkey, io, max);
    FastIsPlain(o, s, key, b);
    out := Block(io[1], io[0]);
  }

  /** camellia_decrypt inverts camellia_encrypt on every key table. */
  method RoundTrip(t: Tables, subkey: array<Word>, io: array<Word>, max: nat)
    requires subkey != io && io.Length == 2 && (max == 24 || max == 32) && max + 1 < subkey.Length
    modifies io
    ensures BlockOf(io) == old(BlockOf(io))
  {
    CamelliaLawful(t);
    var o := Camellia(t);
    ghost var b, key := BlockOf(io), ScheduleOf(subkey[..], max / 8);
    DoEncrypt(o, subkey, io, max);
    io[0], io[1] := io[1], io[0];
    DoDecrypt(o, subkey, io, max);
    io[0], io[1] := io[1], io[0];
    DecryptUndoes(o, key, b);
  }
}
