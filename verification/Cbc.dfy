/**
 Cipher block chaining (cbc.c): four loops, for encryption and decryption into
 another buffer and in place, the in-place decryption running backwards.  The block
 cipher is any pair of functions on blocks, and exclusive-or any operation of which
 no more is asked than that it undoes itself or, for one loop, that it commutes.
 */
module Cbc {

  datatype Mode<!B> = Mode(size: nat, xor: (B, B) -> B, enc: seq<B> -> seq<B>, dec: seq<B> -> seq<B>)

  /** Blocks go to blocks. */
  ghost predicate Valid<B(!new)>(m: Mode<B>) {
    && m.size > 0
    && (forall x {:trigger m.enc(x)} :: |x| == m.size ==> |m.enc(x)| == m.size)
    && (forall x {:trigger m.dec(x)} :: |x| == m.size ==> |m.dec(x)| == m.size)
  }

  /** The cipher can be undone, and so can exclusive-or. */
  ghost predicate Invertible<B(!new)>(m: Mode<B>) {
    && Valid(m)
    && (forall x {:trigger m.enc(x)} :: |x| == m.size ==> m.dec(m.enc(x)) == x)
    && (forall a, b {:trigger m.xor(a, b)} :: m.xor(m.xor(a, b), b) == a)
  }

  function Xor<B>(m: Mode<B>, a: seq<B>, b: seq<B>): (r: seq<B>)
    requires |a| == |b|
    ensures |r| == |a|
  {
    seq(|a|, i requires 0 <= i < |a| => m.xor(a[i], b[i]))
  }

  /** The order of its operands does not matter, as the first loop takes for granted. */
  ghost predicate Commutes<B(!new)>(m: Mode<B>) { forall a, b {:trigger m.xor(a, b)} :: m.xor(a, b) == m.xor(b, a) }

  lemma XorSwapped<B(!new)>(m: Mode<B>, a: seq<B>, b: seq<B>)
    requires Commutes(m) && |a| == |b|
    ensures Xor(m, a, b) == Xor(m, b, a)
  {
  }

  // ----- chaining -----------------------------------------------------------

  /** The ciphertext of the whole blocks of s. */
  ghost function Enc<B(!new)>(m: Mode<B>, iv: seq<B>, s: seq<B>): (r: seq<B>)
    requires Valid(m) && |iv| == m.size
    ensures |r| <= |s| < |r| + m.size
    decreases |s|
  {
    if |s| < m.size then [] else var c := m.enc(Xor(m, s[..m.size], iv)); c + Enc(m, c, s[m.size..])
  }

  /** The iv left for what follows. */
  ghost function EncIv<B(!new)>(m: Mode<B>, iv: seq<B>, s: seq<B>): (r: seq<B>)
    requires Valid(m) && |iv| == m.size
    ensures |r| == m.size
    decreases |s|
  {
    if |s| < m.size then iv else EncIv(m, m.enc(Xor(m, s[..m.size], iv)), s[m.size..])
  }

  ghost function Dec<B(!new)>(m: Mode<B>, iv: seq<B>, s: seq<B>): (r: seq<B>)
    requires Valid(m) && |iv| == m.size
    ensures |r| <= |s| < |r| + m.size
    decreases |s|
  {
    if |s| < m.size then [] else Xor(m, m.dec(s[..m.size]), iv) + Dec(m, s[..m.size], s[m.size..])
  }

  ghost function DecIv<B(!new)>(m: Mode<B>, iv: seq<B>, s: seq<B>): (r: seq<B>)
    requires Valid(m) && |iv| == m.size
    ensures |r| == m.size
    decreases |s|
  {
    if |s| < m.size then iv else DecIv(m, s[..m.size], s[m.size..])
  }

  /** Some number of whole blocks. */
  ghost predicate Whole<B(!new)>(m: Mode<B>, s: seq<B>)
    requires m.size > 0
    decreases |s|
  {
    s == [] || (|s| >= m.size && Whole(m, s[m.size..]))
  }

  // ----- the equations of section 6.2 of NIST SP 800-38A --------------------

  ghost function Blocks<B(!new)>(m: Mode<B>, s: seq<B>): seq<seq<B>>
    requires m.size > 0
    decreases |s|
  {
    if |s| < m.size then [] else [s[..m.size]] + Blocks(m, s[m.size..])
  }

  lemma BlocksCons<B(!new)>(m: Mode<B>, a: seq<B>, s: seq<B>)
    requires m.size > 0 && |a| == m.size
    ensures Blocks(m, a + s) == [a] + Blocks(m, s)
  {
    assert (a + s)[..m.size] == a && (a + s)[m.size..] == s;
  }

  /** Each block is combined with the ciphertext block before it, then enciphered. */
  ghost predicate Chained<B(!new)>(m: Mode<B>, iv: seq<B>, plain: seq<seq<B>>, cipher: seq<seq<B>>)
    requires Valid(m) && |iv| == m.size
  {
    && |plain| == |cipher|
    && (forall j :: 0 <= j < |plain| ==> |plain[j]| == m.size && |cipher[j]| == m.size)
    && (forall j :: 0 <= j < |plain| ==> cipher[j] == m.enc(Xor(m, plain[j], if j == 0 then iv else cipher[j - 1])))
  }

  lemma {:induction false} EncChains<B(!new)>(m: Mode<B>, iv: seq<B>, s: seq<B>)
    requires Valid(m) && |iv| == m.size
    ensures Chained(m, iv, Blocks(m, s), Blocks(m, Enc(m, iv, s)))
    decreases |s|
  {
    if |s| >= m.size {
      var c, rest := m.enc(Xor(m, s[..m.size], iv)), s[m.size..];
      EncChains(m, c, rest);
      BlocksCons(m, c, Enc(m, c, rest));
    }
  }

  /** Each ciphertext block is deciphered, then combined with the one before it. */
  ghost predicate Unchained<B(!new)>(m: Mode<B>, iv: seq<B>, cipher: seq<seq<B>>, plain: seq<seq<B>>)
    requires Valid(m) && |iv| == m.size
  {
    && |plain| == |cipher|
    && (forall j :: 0 <= j < |plain| ==> |plain[j]| == m.size && |cipher[j]| == m.size)
    && (forall j :: 0 <= j < |plain| ==> plain[j] == Xor(m, m.dec(cipher[j]), if j == 0 then iv else cipher[j - 1]))
  }

  lemma {:induction false} DecUnchains<B(!new)>(m: Mode<B>, iv: seq<B>, s: seq<B>)
    requires Valid(m) && |iv| == m.size
    ensures Unchained(m, iv, Blocks(m, s), Blocks(m, Dec(m, iv, s)))
    decreases |s|
  {
    if |s| >= m.size {
      var c, rest := s[..m.size], s[m.size..];
      DecUnchains(m, c, rest);
      BlocksCons(m, Xor(m, m.dec(c), iv), Dec(m, c, rest));
    }
  }

  // ----- decryption undoes encryption ---------------------------------------

  lemma XorUndone<B(!new)>(m: Mode<B>, a: seq<B>, b: seq<B>)
    requires Invertible(m) && |a| == |b|
    ensures Xor(m, Xor(m, a, b), b) == a
  {
  }

  lemma {:induction false} DecEnc<B(!new)>(m: Mode<B>, iv: seq<B>, s: seq<B>)
    requires Invertible(m) && |iv| == m.size
    ensures Dec(m, iv, Enc(m, iv, s)) == s[..|Enc(m, iv, s)|]
    ensures DecIv(m, iv, Enc(m, iv, s)) == EncIv(m, iv, s)
    decreases |s|
  {
    if |s| >= m.size {
      var p, rest := s[..m.size], s[m.size..];
      var c := m.enc(Xor(m, p, iv));
      DecEnc(m, c, rest);
      XorUndone(m, p, iv);
      var e := c + Enc(m, c, rest);
      assert e[..m.size] == c && e[m.size..] == Enc(m, c, rest);
      assert p + rest[..|Enc(m, c, rest)|] == s[..|e|];
    }
  }

  // ----- chunks -------------------------------------------------------------

  lemma Assoc<B>(a: seq<B>, b: seq<B>, c: seq<B>)
    ensures a + (b + c) == a + b + c
  {
  }

  /** Chunks of whole blocks, with the iv carried over, are one message. */
  lemma {:induction false} EncChunks<B(!new)>(m: Mode<B>, iv: seq<B>, a: seq<B>, b: seq<B>)
    requires Valid(m) && |iv| == m.size && Whole(m, a)
    ensures Enc(m, iv, a + b) == Enc(m, iv, a) + Enc(m, EncIv(m, iv, a), b)
    ensures EncIv(m, iv, a + b) == EncIv(m, EncIv(m, iv, a), b)
    decreases |a|
  {
    if a == [] {
      assert a + b == b;
    } else {
      var p, rest := a[..m.size], a[m.size..];
      var c := m.enc(Xor(m, p, iv));
      assert a == p + rest;
      Assoc(p, rest, b);
      EncChunks(m, c, rest, b);
      EncCons(m, iv, p, rest);
      EncCons(m, iv, p, rest + b);
      Assoc(c, Enc(m, c, rest), Enc(m, EncIv(m, c, rest), b));
    }
  }

  lemma DecCons<B(!new)>(m: Mode<B>, iv: seq<B>, c: seq<B>, s: seq<B>)
    requires Valid(m) && |iv| == m.size && |c| == m.size
    ensures Dec(m, iv, c + s) == Xor(m, m.dec(c), iv) + Dec(m, c, s)
    ensures DecIv(m, iv, c + s) == DecIv(m, c, s)
  {
    assert (c + s)[..m.size] == c && (c + s)[m.size..] == s;
  }

  lemma EncCons<B(!new)>(m: Mode<B>, iv: seq<B>, p: seq<B>, s: seq<B>)
    requires Valid(m) && |iv| == m.size && |p| == m.size
    ensures var c := m.enc(Xor(m, p, iv)); Enc(m, iv, p + s) == c + Enc(m, c, s) && EncIv(m, iv, p + s) == EncIv(m, c, s)
  {
    assert (p + s)[..m.size] == p && (p + s)[m.size..] == s;
  }

  lemma {:induction false} DecChunks<B(!new)>(m: Mode<B>, iv: seq<B>, a: seq<B>, b: seq<B>)
    requires Valid(m) && |iv| == m.size && Whole(m, a)
    ensures Dec(m, iv, a + b) == Dec(m, iv, a) + Dec(m, DecIv(m, iv, a), b)
    ensures DecIv(m, iv, a + b) == DecIv(m, DecIv(m, iv, a), b)
    decreases |a|
  {
    if a == [] {
      assert a + b == b;
    } else {
      var c, rest := a[..m.size], a[m.size..];
      assert a == c + rest;
      Assoc(c, rest, b);
      DecChunks(m, c, rest, b);
      DecCons(m, iv, c, rest);
      DecCons(m, iv, c, rest + b);
      Assoc(Xor(m, m.dec(c), iv), Dec(m, c, rest), Dec(m, DecIv(m, c, rest), b));
    }
  }

  // ----- the loops ----------------------------------------------------------

  /** The block of an array at an offset. */
  function At<B>(a: array<B>, off: nat, n: nat): (r: seq<B>)
    requires off + n <= a.Length
    reads a
    ensures |r| == n
  {
    a[off..off + n]
  }

  /** memcpy of one block into an array */
  method Put<B>(a: array<B>, off: nat, block: seq<B>)
    requires off + |block| <= a.Length
    modifies a
    ensures a[..] == old(a[..off]) + block + old(a[off + |block|..])
  {
    for i := 0 to |block|
      invariant a[..] == old(a[..off]) + block[..i] + old(a[off + i..])
    {
      a[off + i] := block[i];
    }
  }

  /** What is done, and what is to be done, make the whole. */
  ghost predicate EncSoFar<B(!new)>(m: Mode<B>, iv0: seq<B>, s: seq<B>, done: seq<B>, iv: seq<B>)
    requires Valid(m) && |iv0| == m.size
  {
    && |done| <= |s| && |iv| == m.size
    && Enc(m, iv0, s) == done + Enc(m, iv, s[|done|..]) && EncIv(m, iv0, s) == EncIv(m, iv, s[|done|..])
  }

  lemma EncStep<B(!new)>(m: Mode<B>, iv0: seq<B>, s: seq<B>, off: nat, done: seq<B>, iv: seq<B>)
    requires Valid(m) && |iv0| == m.size && EncSoFar(m, iv0, s, done, iv) && off == |done| && off + m.size <= |s|
    ensures var c := m.enc(Xor(m, s[off..off + m.size], iv)); EncSoFar(m, iv0, s, done + c, c)
  {
    var p, rest := s[off..off + m.size], s[off + m.size..];
    assert s[off..] == p + rest;
    EncOn(m, iv0, s, done, iv, p, m.enc(Xor(m, p, iv)), rest);
  }

  lemma EncOn<B(!new)>(m: Mode<B>, iv0: seq<B>, s: seq<B>, done: seq<B>, iv: seq<B>, p: seq<B>, c: seq<B>, rest: seq<B>)
    requires Valid(m) && |iv0| == m.size && EncSoFar(m, iv0, s, done, iv)
    requires |c| == |p| == m.size && s[|done|..] == p + rest && c == m.enc(Xor(m, p, iv))
    ensures EncSoFar(m, iv0, s, done + c, c)
  {
    EncCons(m, iv, p, rest);
    Assoc(done, c, Enc(m, c, rest));
    RestIs(s, done, p, rest, c);
  }

  lemma EncDone<B(!new)>(m: Mode<B>, iv0: seq<B>, s: seq<B>, done: seq<B>, iv: seq<B>)
    requires Valid(m) && |iv0| == m.size && EncSoFar(m, iv0, s, done, iv) && |s| - |done| < m.size
    ensures done == Enc(m, iv0, s) && iv == EncIv(m, iv0, s)
  {
    assert done + [] == done;
  }

  ghost predicate DecSoFar<B(!new)>(m: Mode<B>, iv0: seq<B>, s: seq<B>, done: seq<B>, iv: seq<B>)
    requires Valid(m) && |iv0| == m.size
  {
    && |done| <= |s| && |iv| == m.size
    && Dec(m, iv0, s) == done + Dec(m, iv, s[|done|..]) && DecIv(m, iv0, s) == DecIv(m, iv, s[|done|..])
  }

  lemma DecStep<B(!new)>(m: Mode<B>, iv0: seq<B>, s: seq<B>, off: nat, done: seq<B>, iv: seq<B>)
    requires Valid(m) && |iv0| == m.size && DecSoFar(m, iv0, s, done, iv) && off == |done| && off + m.size <= |s|
    ensures var c := s[off..off + m.size]; DecSoFar(m, iv0, s, done + Xor(m, m.dec(c), iv), c)
  {
    var c, rest := s[off..off + m.size], s[off + m.size..];
    assert s[off..] == c + rest;
    DecOn(m, iv0, s, done, iv, c, Xor(m, m.dec(c), iv), rest);
  }

  lemma DecOn<B(!new)>(m: Mode<B>, iv0: seq<B>, s: seq<B>, done: seq<B>, iv: seq<B>, c: seq<B>, p: seq<B>, rest: seq<B>)
    requires Valid(m) && |iv0| == m.size && DecSoFar(m, iv0, s, done, iv)
    requires |c| == |p| == m.size && s[|done|..] == c + rest && p == Xor(m, m.dec(c), iv)
    ensures DecSoFar(m, iv0, s, done + p, c)
  {
    DecCons(m, iv, c, rest);
    Assoc(done, p, Dec(m, c, rest));
    RestIs(s, done, c, rest, p);
  }

  lemma RestIs<B>(s: seq<B>, done: seq<B>, block: seq<B>, rest: seq<B>, out: seq<B>)
    requires |done| <= |s| && s[|done|..] == block + rest && |block| == |out|
    ensures |done + out| <= |s| && s[|done + out|..] == rest
  {
    assert s[|done|..][|block|..] == rest;
  }

  lemma DecDone<B(!new)>(m: Mode<B>, iv0: seq<B>, s: seq<B>, done: seq<B>, iv: seq<B>)
    requires Valid(m) && |iv0| == m.size && DecSoFar(m, iv0, s, done, iv) && |s| - |done| < m.size
    ensures done == Dec(m, iv0, s) && iv == DecIv(m, iv0, s)
  {
    assert done + [] == done;
  }

  /** A buffer whose first `off` bytes are `done` and whose others are as they were. */
  ghost predicate Written<B>(now: seq<B>, was: seq<B>, done: seq<B>) {
    |now| == |was| && |done| <= |was| && now == done + was[|done|..]
  }

  lemma WrittenMore<B>(now: seq<B>, next: seq<B>, was: seq<B>, done: seq<B>, block: seq<B>)
    requires Written(now, was, done) && |done| + |block| <= |was|
    requires next == now[..|done|] + block + now[|done| + |block|..]
    ensures Written(next, was, done + block)
  {
    assert now[..|done|] == done;
    assert now[|done| + |block|..] == was[|done| + |block|..];
  }

  /** The next block is put behind those done. */
  method PutNext<B>(a: array<B>, off: nat, block: seq<B>, ghost was: seq<B>, ghost done: seq<B>) returns (ghost more: seq<B>)
    requires off + |block| <= a.Length && Written(a[..], was, done) && |done| == off
    modifies a
    ensures more == done + block && Written(a[..], was, more)
  {
    ghost var now := a[..];
    Put(a, off, block);
    assert a[..] == now[..off] + block + now[off + |block|..];
    WrittenMore(now, a[..], was, done, block);
    more := done + block;
  }

  /** memcpy of a block over the iv */
  method SetIv<B>(iv: array<B>, block: seq<B>)
    requires |block| == iv.Length
    modifies iv
    ensures iv[..] == block
  {
    Put(iv, 0, block);
    assert iv[..] == [] + block + [];
  }

  /** crypto_cbc_encrypt_segment */
  method EncryptSegment<B(!new)>(m: Mode<B>, src: array<B>, dst: array<B>, iv: array<B>, n: nat) returns (left: nat)
    requires Valid(m) && Commutes(m) && src != dst && src != iv && dst != iv
    requires m.size <= n <= src.Length && n <= dst.Length && iv.Length == m.size
    modifies dst, iv
    ensures Written(dst[..], old(dst[..]), Enc(m, old(iv[..]), src[..n]))
    ensures iv[..] == EncIv(m, old(iv[..]), src[..n])
    ensures left == n - |Enc(m, old(iv[..]), src[..n])| < m.size
  {
    ghost var iv0, s, was, done := iv[..], src[..n], dst[..], [];
    var off := 0;
    left := n;
    while left >= m.size
      invariant off + left == n && off == |done| && EncSoFar(m, iv0, s, done, iv[..]) && Written(dst[..], was, done)
      decreases left
    {
      done := EncryptBlock(m, src, off, dst, iv, iv0, s, was, done);
      off := off + m.size;
      left := left - m.size;
    }
    EncDone(m, iv0, s, done, iv[..]);
  }

  /** One turn of that loop: the iv takes up the plaintext, and is enciphered. */
  method EncryptBlock<B(!new)>(m: Mode<B>, src: array<B>, off: nat, dst: array<B>, iv: array<B>,
                               ghost iv0: seq<B>, ghost s: seq<B>, ghost was: seq<B>, ghost done: seq<B>)
      returns (ghost more: seq<B>)
    requires Valid(m) && Commutes(m) && src != dst && src != iv && dst != iv && iv.Length == m.size == |iv0|
    requires off + m.size <= |s| <= src.Length && |s| <= dst.Length && s == src[..|s|]
    requires off == |done| && EncSoFar(m, iv0, s, done, iv[..]) && Written(dst[..], was, done)
    modifies dst, iv
    ensures |more| == off + m.size && EncSoFar(m, iv0, s, more, iv[..]) && Written(dst[..], was, more)
  {
    EncStep(m, iv0, s, off, done, iv[..]);
    assert s[off..off + m.size] == At(src, off, m.size);
    XorSwapped(m, iv[..], At(src, off, m.size));
    SetIv(iv, Xor(m, iv[..], At(src, off, m.size)));
    var block := m.enc(iv[..]);
    more := PutNext(dst, off, block, was, done);
    SetIv(iv, block);
  }

  /** crypto_cbc_encrypt_inplace */
  method EncryptInPlace<B(!new)>(m: Mode<B>, src: array<B>, iv: array<B>, n: nat) returns (left: nat)
    requires Valid(m) && src != iv && m.size <= n <= src.Length && iv.Length == m.size
    modifies src, iv
    ensures Written(src[..], old(src[..]), Enc(m, old(iv[..]), old(src[..n])))
    ensures iv[..] == EncIv(m, old(iv[..]), old(src[..n]))
    ensures left == n - |Enc(m, old(iv[..]), old(src[..n]))| < m.size
  {
    ghost var iv0, s, was, done := iv[..], src[..n], src[..], [];
    var off := 0;
    var last := iv[..];
    left := n;
    while left >= m.size
      invariant off + left == n && off == |done| && EncSoFar(m, iv0, s, done, last) && Written(src[..], was, done)
      decreases left
    {
      last, done := InPlaceBlock(m, src, off, last, iv0, s, was, done);
      off := off + m.size;
      left := left - m.size;
    }
    EncDone(m, iv0, s, done, last);
    SetIv(iv, last);
  }

  /** One turn of crypto_cbc_encrypt_inplace; the block is still as it was. */
  method InPlaceBlock<B(!new)>(m: Mode<B>, src: array<B>, off: nat, last: seq<B>,
                               ghost iv0: seq<B>, ghost s: seq<B>, ghost was: seq<B>, ghost done: seq<B>)
      returns (block: seq<B>, ghost more: seq<B>)
    requires Valid(m) && |iv0| == m.size && off + m.size <= |s| <= |was| && s == was[..|s|]
    requires off == |done| && EncSoFar(m, iv0, s, done, last) && Written(src[..], was, done)
    modifies src
    ensures |more| == off + m.size && EncSoFar(m, iv0, s, more, block) && Written(src[..], was, more)
  {
    EncStep(m, iv0, s, off, done, last);
    assert At(src, off, m.size) == s[off..off + m.size] by {
      Untouched(src[..], was, done, s, m.size);
      assert At(src, off, m.size) == src[..][off..off + m.size];
    }
    block := m.enc(Xor(m, At(src, off, m.size), last));
    more := PutNext(src, off, block, was, done);
  }

  /** The next block is still as it was. */
  lemma Untouched<B>(now: seq<B>, was: seq<B>, done: seq<B>, s: seq<B>, size: nat)
    requires Written(now, was, done) && |s| <= |was| && s == was[..|s|] && |done| + size <= |s|
    ensures now[|done|..|done| + size] == s[|done|..|done| + size]
  {
    assert now == done + was[|done|..];
  }

  /** crypto_cbc_decrypt_segment */
  method DecryptSegment<B(!new)>(m: Mode<B>, src: array<B>, dst: array<B>, iv: array<B>, n: nat) returns (left: nat)
    requires Valid(m) && src != dst && src != iv && dst != iv
    requires m.size <= n <= src.Length && n <= dst.Length && iv.Length == m.size
    modifies dst, iv
    ensures Written(dst[..], old(dst[..]), Dec(m, old(iv[..]), src[..n]))
    ensures iv[..] == DecIv(m, old(iv[..]), src[..n])
    ensures left == n - |Dec(m, old(iv[..]), src[..n])| < m.size
  {
    ghost var iv0, s, was, done := iv[..], src[..n], dst[..], [];
    var off := 0;
    var last := iv[..];
    left := n;
    while left >= m.size
      invariant off + left == n && off == |done| && DecSoFar(m, iv0, s, done, last) && Written(dst[..], was, done)
      decreases left
    {
      last, done := DecryptBlock(m, src, off, dst, last, iv0, s, was, done);
      off := off + m.size;
      left := left - m.size;
    }
    DecDone(m, iv0, s, done, last);
    SetIv(iv, last);
  }

  /** One turn of that loop; the ciphertext block is the next iv. */
  method DecryptBlock<B(!new)>(m: Mode<B>, src: array<B>, off: nat, dst: array<B>, last: seq<B>,
                               ghost iv0: seq<B>, ghost s: seq<B>, ghost was: seq<B>, ghost done: seq<B>)
      returns (next: seq<B>, ghost more: seq<B>)
    requires Valid(m) && src != dst && |iv0| == m.size
    requires off + m.size <= |s| <= src.Length && |s| <= dst.Length && s == src[..|s|]
    requires off == |done| && DecSoFar(m, iv0, s, done, last) && Written(dst[..], was, done)
    modifies dst
    ensures |more| == off + m.size && DecSoFar(m, iv0, s, more, next) && Written(dst[..], was, more)
  {
    DecStep(m, iv0, s, off, done, last);
    assert s[off..off + m.size] == At(src, off, m.size);
    next := At(src, off, m.size);
    more := PutNext(dst, off, Xor(m, m.dec(next), last), was, done);
  }

  // ----- decryption in place, backwards -------------------------------------

  /** The offset is that of a block. */
  predicate Aligned(off: nat, size: nat)
    requires size > 0
    decreases off
  {
    off == 0 || (off >= size && Aligned(off - size, size))
  }

  lemma {:induction false} WholeIs<B(!new)>(m: Mode<B>, s: seq<B>)
    requires m.size > 0 && Aligned(|s|, m.size)
    ensures Whole(m, s)
    decreases |s|
  {
    if s != [] {
      WholeIs(m, s[m.size..]);
    }
  }

  /** The iv left by a decryption is the last ciphertext block. */
  lemma {:induction false} LastBlock<B(!new)>(m: Mode<B>, iv: seq<B>, w: seq<B>)
    requires Valid(m) && |iv| == m.size && Whole(m, w) && w != []
    ensures |w| >= m.size && DecIv(m, iv, w) == w[|w| - m.size..]
    decreases |w|
  {
    var c, rest := w[..m.size], w[m.size..];
    if rest != [] {
      LastBlock(m, c, rest);
    } else {
      assert w == c;
    }
  }

  /** Bytes behind the last whole block do not matter. */
  lemma Remainder<B(!new)>(m: Mode<B>, iv: seq<B>, w: seq<B>, r: seq<B>)
    requires Valid(m) && |iv| == m.size && Whole(m, w) && |r| < m.size
    ensures Dec(m, iv, w + r) == Dec(m, iv, w) && DecIv(m, iv, w + r) == DecIv(m, iv, w)
  {
    DecChunks(m, iv, w, r);
    assert Dec(m, iv, w) + [] == Dec(m, iv, w);
  }

  /** The blocks up to the one at `off` are as they were, those behind are done. */
  ghost predicate Back<B(!new)>(m: Mode<B>, now: seq<B>, w: seq<B>, tail: seq<B>, off: nat)
    requires Valid(m) && off + m.size <= |w|
  {
    now == w[..off] + w[off..off + m.size] + Dec(m, w[off..off + m.size], w[off + m.size..]) + tail
  }

  lemma BackStep<B(!new)>(m: Mode<B>, w: seq<B>, tail: seq<B>, off: nat)
    requires Valid(m) && m.size <= off && off + m.size <= |w|
    ensures var c, d := w[off..off + m.size], w[off - m.size..off];
            Back(m, w[..off] + Xor(m, m.dec(c), d) + (Dec(m, c, w[off + m.size..]) + tail), w, tail, off - m.size)
  {
    var c, d, rest := w[off..off + m.size], w[off - m.size..off], w[off + m.size..];
    assert w[off..] == c + rest;
    DecCons(m, d, c, rest);
    assert w[..off] == w[..off - m.size] + d;
    assert w[off - m.size..off - m.size + m.size] == d && w[off - m.size + m.size..] == w[off..];
    var p := Xor(m, m.dec(c), d);
    assert w[..off] + p + (Dec(m, c, rest) + tail) == w[..off] + (p + Dec(m, c, rest)) + tail;
  }

  lemma BackEnd<B(!new)>(m: Mode<B>, w: seq<B>, tail: seq<B>, iv: seq<B>)
    requires Valid(m) && |iv| == m.size && m.size <= |w|
    ensures var c := w[..m.size];
            Xor(m, m.dec(c), iv) + Dec(m, c, w[m.size..]) + tail == Dec(m, iv, w) + tail
  {
    assert w == w[..m.size] + w[m.size..];
    DecCons(m, iv, w[..m.size], w[m.size..]);
  }

  /** A block in the middle of an array is deciphered and combined. */
  method Replace<B(!new)>(m: Mode<B>, a: array<B>, off: nat, with: seq<B>, ghost pre: seq<B>, ghost post: seq<B>)
    requires Valid(m) && off == |pre| && off + m.size <= a.Length && |with| == m.size
    requires a[..] == pre + At(a, off, m.size) + post
    modifies a
    ensures a[..] == pre + Xor(m, m.dec(old(At(a, off, m.size))), with) + post
  {
    ghost var now := a[..];
    var block := m.dec(At(a, off, m.size));
    Put(a, off, block);
    Put(a, off, Xor(m, block, with));
    assert now[..off] == pre && now[off + m.size..] == post;
  }

  /** One turn: the block at `off` is combined with the one in front of it. */
  method BackBlock<B(!new)>(m: Mode<B>, src: array<B>, off: nat, ghost w: seq<B>, ghost tail: seq<B>)
    requires Valid(m) && m.size <= off && off + m.size <= |w| && Back(m, src[..], w, tail, off)
    modifies src
    ensures off + m.size <= src.Length && Back(m, src[..], w, tail, off - m.size)
  {
    ghost var now := src[..];
    BackShape(m, now, w, tail, off);
    assert At(src, off, m.size) == now[off..off + m.size] == w[off..off + m.size];
    assert At(src, off - m.size, m.size) == now[off - m.size..off] == w[off - m.size..off];
    BackStep(m, w, tail, off);
    Replace(m, src, off, At(src, off - m.size, m.size), w[..off], Dec(m, w[off..off + m.size], w[off + m.size..]) + tail);
  }

  lemma BackShape<B(!new)>(m: Mode<B>, now: seq<B>, w: seq<B>, tail: seq<B>, off: nat)
    requires Valid(m) && off + m.size <= |w| && Back(m, now, w, tail, off)
    ensures off + m.size <= |now| && now[off..off + m.size] == w[off..off + m.size]
    ensures off >= m.size ==> now[off - m.size..off] == w[off - m.size..off]
    ensures now == w[..off] + now[off..off + m.size] + (Dec(m, w[off..off + m.size], w[off + m.size..]) + tail)
  {
  }

  lemma BackStart<B(!new)>(m: Mode<B>, was: seq<B>, off: nat)
    requires Valid(m) && off + m.size <= |was|
    ensures Back(m, was, was[..off + m.size], was[off + m.size..], off)
  {
    var w := was[..off + m.size];
    assert w[off + m.size..] == [];
    assert was == w[..off] + w[off..off + m.size] + [] + was[off + m.size..];
  }

  lemma {:induction false} WholeLength<B(!new)>(m: Mode<B>, iv: seq<B>, w: seq<B>)
    requires Valid(m) && |iv| == m.size && Whole(m, w)
    ensures |Dec(m, iv, w)| == |w|
    decreases |w|
  {
    if w != [] {
      WholeLength(m, w[..m.size], w[m.size..]);
    }
  }

  lemma BackDone<B(!new)>(m: Mode<B>, was: seq<B>, now: seq<B>, n: nat, w: seq<B>, iv: seq<B>)
    requires Valid(m) && |iv| == m.size && Whole(m, w) && m.size <= |w| <= n <= |was| && n - |w| < m.size && w == was[..|w|]
    requires now == Xor(m, m.dec(w[..m.size]), iv) + (Dec(m, w[..m.size], w[m.size..]) + was[|w|..])
    ensures Written(now, was, Dec(m, iv, was[..n])) && |Dec(m, iv, was[..n])| == |w|
    ensures DecIv(m, iv, was[..n]) == w[|w| - m.size..]
  {
    BackEnd(m, w, was[|w|..], iv);
    Assoc(Xor(m, m.dec(w[..m.size]), iv), Dec(m, w[..m.size], w[m.size..]), was[|w|..]);
    assert was[..n] == w + was[|w|..n];
    Remainder(m, iv, w, was[|w|..n]);
    LastBlock(m, iv, w);
    WholeLength(m, iv, w);
  }

  /** The loop of crypto_cbc_decrypt_inplace; only the iv is left to be combined. */
  method BackLoop<B(!new)>(m: Mode<B>, src: array<B>, start: nat, n: nat, ghost w: seq<B>, ghost tail: seq<B>)
      returns (off: nat, left: nat)
    requires Valid(m) && Aligned(start, m.size) && start + m.size <= n < start + 2 * m.size && start + m.size <= |w|
    requires Back(m, src[..], w, tail, start)
    modifies src
    ensures off == 0 && left == n - start < 2 * m.size && Back(m, src[..], w, tail, 0)
  {
    off, left := start, n;
    while left - m.size >= m.size
      invariant Aligned(off, m.size) && left - off == n - start && off + m.size <= |w|
      invariant Back(m, src[..], w, tail, off)
      decreases left
    {
      BackBlock(m, src, off, w, tail);
      off := off - m.size;
      left := left - m.size;
    }
  }

  /** The first block, at last, is combined with the iv. */
  method BackFirst<B(!new)>(m: Mode<B>, src: array<B>, iv: array<B>, ghost w: seq<B>, ghost tail: seq<B>)
    requires Valid(m) && src != iv && iv.Length == m.size && m.size <= |w| && Back(m, src[..], w, tail, 0)
    modifies src
    ensures src[..] == Xor(m, m.dec(w[..m.size]), iv[..]) + (Dec(m, w[..m.size], w[m.size..]) + tail)
  {
    BackShape(m, src[..], w, tail, 0);
    assert w[..0] == [];
    Replace(m, src, 0, iv[..], [], Dec(m, w[0..m.size], w[m.size..]) + tail);
  }

  /** crypto_cbc_decrypt_inplace */
  method DecryptInPlace<B(!new)>(m: Mode<B>, src: array<B>, iv: array<B>, n: nat) returns (left: nat)
    requires Valid(m) && src != iv && m.size <= n <= src.Length && iv.Length == m.size
    modifies src, iv
    ensures Written(src[..], old(src[..]), Dec(m, old(iv[..]), old(src[..n])))
    ensures iv[..] == DecIv(m, old(iv[..]), old(src[..n]))
    ensures left == n - |Dec(m, old(iv[..]), old(src[..n]))| < m.size
  {
    ghost var was, iv0 := src[..], iv[..];
    LastPlace(n, m.size);
    var start := n - n % m.size - m.size;
    var last := At(src, start, m.size);
    left := BackAll(m, src, iv, start, n);
    LastDone(m, was, src[..], n, start, iv0);
    SetIv(iv, last);
  }

  lemma LastDone<B(!new)>(m: Mode<B>, was: seq<B>, now: seq<B>, n: nat, start: nat, iv: seq<B>)
    requires Valid(m) && |iv| == m.size && Aligned(start, m.size)
    requires start + m.size <= n <= |was| && n < start + 2 * m.size
    requires var w := was[..start + m.size];
             now == Xor(m, m.dec(w[..m.size]), iv) + (Dec(m, w[..m.size], w[m.size..]) + was[start + m.size..])
    ensures Written(now, was, Dec(m, iv, was[..n])) && |Dec(m, iv, was[..n])| == start + m.size
    ensures DecIv(m, iv, was[..n]) == was[start..start + m.size]
  {
    var w := was[..start + m.size];
    WholeIs(m, w);
    BackDone(m, was, now, n, w, iv);
    assert w[start..] == was[start..start + m.size];
  }

  method BackAll<B(!new)>(m: Mode<B>, src: array<B>, iv: array<B>, start: nat, n: nat) returns (left: nat)
    requires Valid(m) && src != iv && iv.Length == m.size && Aligned(start, m.size)
    requires start + m.size <= n < start + 2 * m.size && n <= src.Length
    modifies src
    ensures var w, tail := old(src[..start + m.size]), old(src[start + m.size..]);
            src[..] == Xor(m, m.dec(w[..m.size]), iv[..]) + (Dec(m, w[..m.size], w[m.size..]) + tail)
    ensures left == n - start - m.size
  {
    ghost var w, tail := src[..start + m.size], src[start + m.size..];
    BackStart(m, src[..], start);
    var off;
    off, left := BackLoop(m, src, start, n, w, tail);
    BackFirst(m, src, iv, w, tail);
    left := left - m.size;
  }

  /** The last whole block of n bytes begins at the offset of a block. */
  lemma LastPlace(n: nat, size: nat)
    requires 0 < size <= n
    ensures n % size < size && n - n % size - size >= 0 && Aligned(n - n % size - size, size)
  {
    assert n == (n / size) * size + n % size && n / size > 0;
    assert (n / size - 1) * size == n - n % size - size;
    BlockOffset(n / size - 1, size);
  }

  lemma {:induction false} BlockOffset(k: nat, size: nat)
    requires size > 0
    ensures k * size >= 0 && Aligned(k * size, size)
  {
    if k > 0 {
      assert k * size == (k - 1) * size + size;
      BlockOffset(k - 1, size);
    }
  }
}
