/**
 camellia_setup_tail, camellia_do_encrypt and camellia_do_decrypt as they run:
 the subkeys are rewritten in place, group after group, and the block is
 transformed in place.  subL/subR, subkey and io are arrays of L/R pairs.
 */
module CamelliaTable {
  import opened CamelliaPath

  // ----- flat key arrays and schedules --------------------------------------

  /** Subkeys 2i+2 and 2i+3 belong to step i; every fourth step is an FL layer. */
  function StepAt<W>(sub: seq<W>, i: nat): Step<W>
    requires 2 * i + 3 < |sub|
  {
    if i % 4 == 3 then Layer(sub[2 * i + 2], sub[2 * i + 3]) else Rounds(sub[2 * i + 2], sub[2 * i + 3])
  }

  function StepsOf<W>(sub: seq<W>, n: nat): (r: seq<Step<W>>)
    requires 2 * n + 1 < |sub|
    ensures |r| == n && forall i :: 0 <= i < n ==> r[i] == StepAt(sub, i)
  {
    if n == 0 then [] else StepsOf(sub, n - 1) + [StepAt(sub, n - 1)]
  }

  /** A key of g groups: kw1 .. kw4 are subkeys 0, 1, 8g and 8g+1; in a finished
      table only the first and third are in use. */
  function ScheduleOf<W>(sub: seq<W>, g: nat): (s: Schedule<W>)
    requires g >= 1 && 8 * g + 1 < |sub|
    ensures |s.steps| == 4 * g - 1 && forall i :: 0 <= i < 4 * g - 1 ==> s.steps[i] == StepAt(sub, i)
  {
    Schedule(sub[0], sub[1], StepsOf(sub, 4 * g - 1), sub[8 * g], sub[8 * g + 1])
  }

  // ----- absorbing kw2 ------------------------------------------------------

  /** kw2 as group j of six rounds sees it. */
  function GroupKw2<W>(o: Cipher<W>, sub: seq<W>, j: nat): W
    requires 8 * j + 1 < |sub|
  {
    if j == 0 then sub[1] else o.mask(GroupKw2(o, sub, j - 1), sub[8 * j + 1])
  }

  /** Group j of `u` is group j of `s` with a mask on the odd-numbered subkeys. */
  predicate OddMasked<W(==)>(o: Cipher<W>, s: seq<W>, u: seq<W>, j: nat, k: W)
    requires 8 * j + 8 <= |s| && 8 * j + 8 <= |u|
  {
    var i := 8 * j;
    && u[i + 3] == o.xor(s[i + 3], k) && u[i + 5] == o.xor(s[i + 5], k) && u[i + 7] == o.xor(s[i + 7], k)
    && u[i] == s[i] && u[i + 2] == s[i + 2] && u[i + 4] == s[i + 4] && u[i + 6] == s[i + 6]
    && (j > 0 ==> u[i + 1] == s[i + 1])
  }

  /** The first j groups have absorbed kw2, and the rest is as it was. */
  ghost predicate Kw2Upto<W>(o: Cipher<W>, s: seq<W>, u: seq<W>, j: nat)
    requires 8 * j <= |s|
  {
    && |u| == |s|
    && (forall k :: 0 <= k < j ==> OddMasked(o, s, u, k, GroupKw2(o, s, k)))
    && (forall i :: 8 * j <= i < |s| && i != 1 ==> u[i] == s[i])
  }

  /** Three rounds of group j take up the mask held in sub[1]. */
  method MaskOdd<W(==)>(o: Cipher<W>, sub: array<W>, j: nat, ghost s: seq<W>)
    requires 8 * j + 8 <= sub.Length == |s| && Kw2Upto(o, s, sub[..], j) && sub[1] == GroupKw2(o, s, j)
    modifies sub
    ensures Kw2Upto(o, s, sub[..], j + 1) && sub[1] == old(sub[1])
  {
    ghost var u := sub[..];
    var i := 8 * j;
    sub[i + 3] := o.xor(sub[i + 3], sub[1]);
    sub[i + 5] := o.xor(sub[i + 5], sub[1]);
    sub[i + 7] := o.xor(sub[i + 7], sub[1]);
    assert sub[..] == u[i + 3 := o.xor(u[i + 3], u[1])][i + 5 := o.xor(u[i + 5], u[1])][i + 7 := o.xor(u[i + 7], u[1])];
    GroupMasked(o, s, u, sub[..], j);
  }

  lemma GroupMasked<W>(o: Cipher<W>, s: seq<W>, u: seq<W>, v: seq<W>, j: nat)
    requires 8 * j + 8 <= |s| && Kw2Upto(o, s, u, j) && u[1] == GroupKw2(o, s, j)
    requires var i := 8 * j; v == u[i + 3 := o.xor(u[i + 3], u[1])][i + 5 := o.xor(u[i + 5], u[1])][i + 7 := o.xor(u[i + 7], u[1])]
    ensures Kw2Upto(o, s, v, j + 1)
  {
    assert OddMasked(o, s, v, j, GroupKw2(o, s, j));
    forall k | 0 <= k < j
      ensures OddMasked(o, s, v, k, GroupKw2(o, s, k))
    {
      assert OddMasked(o, s, u, k, GroupKw2(o, s, k));
      assert forall i :: 0 <= i < 8 * j ==> v[i] == u[i];
    }
  }

  /** sub[1] is carried over the FL layer in front of group j ("modified for FLinv"). */
  method CarryKw2<W(==)>(o: Cipher<W>, sub: array<W>, j: nat, ghost s: seq<W>)
    requires 1 <= j && 8 * j + 8 <= sub.Length == |s| && Kw2Upto(o, s, sub[..], j) && sub[1] == GroupKw2(o, s, j - 1)
    modifies sub
    ensures Kw2Upto(o, s, sub[..], j) && sub[1] == GroupKw2(o, s, j)
  {
    ghost var u := sub[..];
    sub[1] := o.mask(sub[1], sub[8 * j + 1]);
    assert sub[..] == u[1 := o.mask(u[1], u[8 * j + 1])];
    forall k | 0 <= k < j
      ensures OddMasked(o, s, sub[..], k, GroupKw2(o, s, k))
    {
      assert OddMasked(o, s, u, k, GroupKw2(o, s, k));
    }
  }

  method AbsorbKw2<W(==)>(o: Cipher<W>, sub: array<W>, max: nat)
    requires max == 24 || max == 32
    requires sub.Length == max + 2
    modifies sub
    ensures forall j :: 0 <= j < max / 8 ==> OddMasked(o, old(sub[..]), sub[..], j, GroupKw2(o, old(sub[..]), j))
    ensures sub[max] == o.xor(old(sub[max]), GroupKw2(o, old(sub[..]), max / 8 - 1)) && sub[max + 1] == old(sub[max + 1])
  {
    ghost var s := sub[..];
    MaskOdd(o, sub, 0, s);
    CarryKw2(o, sub, 1, s);
    MaskOdd(o, sub, 1, s);
    CarryKw2(o, sub, 2, s);
    MaskOdd(o, sub, 2, s);
    if max == 32 {
      CarryKw2(o, sub, 3, s);
      MaskOdd(o, sub, 3, s);
    }
    AbsorbLast(o, sub, max, s);
  }

  /** What is left of kw2 goes into the last whitening key. */
  method AbsorbLast<W(==)>(o: Cipher<W>, sub: array<W>, max: nat, ghost s: seq<W>)
    requires max >= 8 && max % 8 == 0 && sub.Length == |s| == max + 2
    requires Kw2Upto(o, s, sub[..], max / 8) && sub[1] == GroupKw2(o, s, max / 8 - 1)
    modifies sub
    ensures forall j :: 0 <= j < max / 8 ==> OddMasked(o, s, sub[..], j, GroupKw2(o, s, j))
    ensures sub[max] == o.xor(s[max], GroupKw2(o, s, max / 8 - 1)) && sub[max + 1] == s[max + 1]
  {
    ghost var u := sub[..];
    sub[max] := o.xor(sub[max], sub[1]);
    forall j | 0 <= j < max / 8
      ensures OddMasked(o, s, sub[..], j, GroupKw2(o, s, j))
    {
      assert OddMasked(o, s, u, j, GroupKw2(o, s, j));
      assert forall i :: 0 <= i < max ==> sub[..][i] == u[i];
    }
  }

  // ----- absorbing kw4 ------------------------------------------------------

  /** kw4 as group j sees it. */
  function GroupKw4<W>(o: Cipher<W>, sub: seq<W>, max: nat, j: nat): W
    requires max + 1 < |sub| && 8 * j + 8 <= max && max % 8 == 0
    decreases max - 8 * j
  {
    if 8 * j + 8 == max then sub[max + 1] else o.mask(GroupKw4(o, sub, max, j + 1), sub[8 * j + 8])
  }

  /** Group j of `u` is group j of `s` with a mask on the even-numbered subkeys. */
  predicate EvenMasked<W(==)>(o: Cipher<W>, s: seq<W>, u: seq<W>, j: nat, k: W)
    requires 8 * j + 8 <= |s| && 8 * j + 8 <= |u|
  {
    var i := 8 * j;
    && u[i + 2] == o.xor(s[i + 2], k) && u[i + 4] == o.xor(s[i + 4], k) && u[i + 6] == o.xor(s[i + 6], k)
    && u[i + 1] == s[i + 1] && u[i + 3] == s[i + 3] && u[i + 5] == s[i + 5] && u[i + 7] == s[i + 7]
    && (j > 0 ==> u[i] == s[i])
  }

  /** The groups from j on have absorbed kw4, and the rest is as it was. */
  ghost predicate Kw4From<W>(o: Cipher<W>, s: seq<W>, u: seq<W>, max: nat, j: nat)
    requires max + 1 < |s| && 8 * j <= max && max % 8 == 0
  {
    && |u| == |s|
    && (forall k :: j <= k < max / 8 ==> EvenMasked(o, s, u, k, GroupKw4(o, s, max, k)))
    && (forall i :: 0 <= i < |s| && (i < 8 * j + 2 || max <= i) ==> u[i] == s[i])
  }

  lemma GroupMaskedEven<W>(o: Cipher<W>, s: seq<W>, u: seq<W>, v: seq<W>, max: nat, j: nat)
    requires max + 1 < |s| && 8 * j + 8 <= max && max % 8 == 0 && Kw4From(o, s, u, max, j + 1)
    requires var i, k := 8 * j, GroupKw4(o, s, max, j);
             v == u[i + 6 := o.xor(u[i + 6], k)][i + 4 := o.xor(u[i + 4], k)][i + 2 := o.xor(u[i + 2], k)]
    ensures Kw4From(o, s, v, max, j)
  {
    assert EvenMasked(o, s, v, j, GroupKw4(o, s, max, j));
    forall k | j < k < max / 8
      ensures EvenMasked(o, s, v, k, GroupKw4(o, s, max, k))
    {
      assert EvenMasked(o, s, u, k, GroupKw4(o, s, max, k));
      assert forall i :: 8 * j + 8 <= i < |s| ==> v[i] == u[i];
    }
  }

  /** Three rounds of group j take up kw4. */
  method MaskEven<W(==)>(o: Cipher<W>, sub: array<W>, max: nat, j: nat, kw4: W, ghost s: seq<W>)
    requires max + 1 < sub.Length == |s| && 8 * j + 8 <= max && max % 8 == 0
    requires Kw4From(o, s, sub[..], max, j + 1) && kw4 == GroupKw4(o, s, max, j)
    modifies sub
    ensures Kw4From(o, s, sub[..], max, j)
  {
    ghost var u := sub[..];
    var i := 8 * j;
    sub[i + 6] := o.xor(sub[i + 6], kw4);
    sub[i + 4] := o.xor(sub[i + 4], kw4);
    sub[i + 2] := o.xor(sub[i + 2], kw4);
    assert sub[..] == u[i + 6 := o.xor(u[i + 6], kw4)][i + 4 := o.xor(u[i + 4], kw4)][i + 2 := o.xor(u[i + 2], kw4)];
    GroupMaskedEven(o, s, u, sub[..], max, j);
  }

  method AbsorbKw4<W(==)>(o: Cipher<W>, sub: array<W>, max: nat)
    requires max == 24 || max == 32
    requires sub.Length == max + 2
    modifies sub
    ensures forall j :: 0 <= j < max / 8 ==> EvenMasked(o, old(sub[..]), sub[..], j, GroupKw4(o, old(sub[..]), max, j))
    ensures sub[0] == o.xor(old(sub[0]), GroupKw4(o, old(sub[..]), max, 0)) && sub[max] == old(sub[max])
  {
    ghost var s := sub[..];
    var kw4 := sub[max + 1];
    if max == 32 {
      MaskEven(o, sub, max, 3, kw4, s);
      kw4 := o.mask(kw4, sub[24]);
    }
    MaskEven(o, sub, max, 2, kw4, s);
    kw4 := o.mask(kw4, sub[16]);
    MaskEven(o, sub, max, 1, kw4, s);
    kw4 := o.mask(kw4, sub[8]);
    MaskEven(o, sub, max, 0, kw4, s);
    ghost var u := sub[..];
    sub[0] := o.xor(sub[0], kw4);
    forall j | 0 <= j < max / 8
      ensures EvenMasked(o, s, sub[..], j, GroupKw4(o, s, max, j))
    {
      assert EvenMasked(o, s, u, j, GroupKw4(o, s, max, j));
      assert forall i :: 0 < i < |s| ==> sub[..][i] == u[i];
    }
  }

  // ----- the key XOR behind F -----------------------------------------------

  /** Group j of the table, before half of P is undone. */
  predicate GroupMoved<W(==)>(o: Cipher<W>, u: seq<W>, key: seq<W>, max: nat, j: nat)
    requires max % 8 == 0 && 8 * j + 8 <= max && max + 1 < |u| && max < |key|
  {
    var i := 8 * j;
    && key[i + 2] == (if j == 0 then u[3] else o.xor(o.mask(u[i - 1], u[i + 1]), u[i + 3]))
    && key[i + 3] == o.xor(u[i + 2], u[i + 4]) && key[i + 4] == o.xor(u[i + 3], u[i + 5])
    && key[i + 5] == o.xor(u[i + 4], u[i + 6]) && key[i + 6] == o.xor(u[i + 5], u[i + 7])
    && key[i + 7] == (if i + 8 == max then u[i + 6] else o.xor(u[i + 6], o.mask(u[i + 10], u[i + 8])))
    && (j > 0 ==> key[i] == u[i] && key[i + 1] == u[i + 1])
  }

  /** The first entries of group j: the keys of its FL layer, and round 1. */
  method MoveHead<W(==)>(o: Cipher<W>, subkey: array<W>, sub: array<W>, j: nat)
    requires subkey != sub && 8 * j + 8 <= sub.Length && 8 * j + 8 <= subkey.Length
    modifies subkey
    ensures subkey[8 * j + 2] == (if j == 0 then sub[3] else o.xor(o.mask(sub[8 * j - 1], sub[8 * j + 1]), sub[8 * j + 3]))
    ensures j > 0 ==> subkey[8 * j] == sub[8 * j] && subkey[8 * j + 1] == sub[8 * j + 1]
    ensures forall i :: 0 <= i < subkey.Length && i != 8 * j + 2 && (j == 0 || (i != 8 * j && i != 8 * j + 1)) ==>
              subkey[i] == old(subkey[i])
  {
    var i := 8 * j;
    if j == 0 {
      subkey[2] := sub[3];
    } else {
      subkey[i] := sub[i];
      subkey[i + 1] := sub[i + 1];
      var t := o.mask(sub[i - 1], sub[i + 1]);
      subkey[i + 2] := o.xor(t, sub[i + 3]);
    }
  }

  /** Rounds 2 to 6 of group j. */
  method MoveTail<W(==)>(o: Cipher<W>, subkey: array<W>, sub: array<W>, max: nat, j: nat)
    requires subkey != sub && max % 8 == 0 && 8 * j + 8 <= max && sub.Length == max + 2 && max < subkey.Length
    modifies subkey
    ensures var i, u := 8 * j, sub[..];
            && subkey[i + 3] == o.xor(u[i + 2], u[i + 4]) && subkey[i + 4] == o.xor(u[i + 3], u[i + 5])
            && subkey[i + 5] == o.xor(u[i + 4], u[i + 6]) && subkey[i + 6] == o.xor(u[i + 5], u[i + 7])
            && subkey[i + 7] == (if i + 8 == max then u[i + 6] else o.xor(u[i + 6], o.mask(u[i + 10], u[i + 8])))
    ensures forall i :: 0 <= i < subkey.Length && !(8 * j + 3 <= i < 8 * j + 8) ==> subkey[i] == old(subkey[i])
  {
    var i := 8 * j;
    subkey[i + 3] := o.xor(sub[i + 2], sub[i + 4]);
    subkey[i + 4] := o.xor(sub[i + 3], sub[i + 5]);
    subkey[i + 5] := o.xor(sub[i + 4], sub[i + 6]);
    subkey[i + 6] := o.xor(sub[i + 5], sub[i + 7]);
    var t := sub[i + 6];
    if i + 8 != max {
      t := o.xor(sub[i + 6], o.mask(sub[i + 10], sub[i + 8]));
    }
    subkey[i + 7] := t;
  }

  ghost predicate MovedUpto<W>(o: Cipher<W>, u: seq<W>, key: seq<W>, max: nat, j: nat)
    requires max % 8 == 0 && 8 * j <= max && max + 1 < |u| && max < |key|
  {
    forall k :: 0 <= k < j ==> GroupMoved(o, u, key, max, k)
  }

  lemma MovedUptoKept<W>(o: Cipher<W>, u: seq<W>, key: seq<W>, key': seq<W>, max: nat, j: nat)
    requires max % 8 == 0 && 8 * j <= max && max + 1 < |u| && max < |key| == |key'| && MovedUpto(o, u, key, max, j)
    requires forall i :: 1 < i < 8 * j ==> key'[i] == key[i]
    ensures MovedUpto(o, u, key', max, j)
  {
    forall k | 0 <= k < j
      ensures GroupMoved(o, u, key', max, k)
    {
      assert GroupMoved(o, u, key, max, k);
    }
  }

  method MoveGroup<W(==)>(o: Cipher<W>, subkey: array<W>, sub: array<W>, max: nat, j: nat)
    requires subkey != sub && max % 8 == 0 && 8 * j + 8 <= max && sub.Length == max + 2 && max < subkey.Length
    requires MovedUpto(o, sub[..], subkey[..], max, j)
    modifies subkey
    ensures MovedUpto(o, sub[..], subkey[..], max, j + 1) && subkey[0] == old(subkey[0])
  {
    ghost var u, key := sub[..], subkey[..];
    MoveHead(o, subkey, sub, j);
    MoveTail(o, subkey, sub, max, j);
    assert sub[..] == u;
    MovedUptoKept(o, u, key, subkey[..], max, j);
    assert GroupMoved(o, u, subkey[..], max, j);
  }

  method MoveKeys<W(==)>(o: Cipher<W>, subkey: array<W>, sub: array<W>, max: nat)
    requires max == 24 || max == 32
    requires subkey != sub && sub.Length == max + 2 && max < subkey.Length
    modifies subkey
    ensures MovedUpto(o, sub[..], subkey[..], max, max / 8)
    ensures subkey[0] == o.xor(sub[0], sub[2]) && subkey[max] == o.xor(sub[max], sub[max - 1])
  {
    subkey[0] := o.xor(sub[0], sub[2]);
    MoveGroup(o, subkey, sub, max, 0);
    MoveGroup(o, subkey, sub, max, 1);
    MoveGroup(o, subkey, sub, max, 2);
    if max == 32 {
      MoveGroup(o, subkey, sub, max, 3);
    }
    ghost var key := subkey[..];
    subkey[max] := o.xor(sub[max], sub[max - 1]);
    MovedUptoKept(o, sub[..], key, subkey[..], max, max / 8);
  }

  // ----- undoing half of P --------------------------------------------------

  /** The round entries of group j, half of P undone. */
  predicate GroupInverted<W(==)>(o: Cipher<W>, key: seq<W>, key': seq<W>, j: nat)
    requires 8 * j + 8 <= |key| && 8 * j + 8 <= |key'|
  {
    var i := 8 * j;
    && key'[i] == key[i] && key'[i + 1] == key[i + 1]
    && key'[i + 2] == o.halfPInv(key[i + 2]) && key'[i + 3] == o.halfPInv(key[i + 3])
    && key'[i + 4] == o.halfPInv(key[i + 4]) && key'[i + 5] == o.halfPInv(key[i + 5])
    && key'[i + 6] == o.halfPInv(key[i + 6]) && key'[i + 7] == o.halfPInv(key[i + 7])
  }

  ghost predicate InvertedUpto<W>(o: Cipher<W>, key: seq<W>, key': seq<W>, j: nat) {
    && |key'| == |key| && 8 * j <= |key|
    && (forall k :: 0 <= k < j ==> GroupInverted(o, key, key', k))
    && (forall i :: 8 * j <= i < |key| ==> key'[i] == key[i])
  }

  /** "apply the inverse of the last half of P-function" */
  method InvertHalfP<W(==)>(o: Cipher<W>, subkey: array<W>, max: nat)
    requires max % 8 == 0 && 8 <= max < subkey.Length
    modifies subkey
    ensures InvertedUpto(o, old(subkey[..]), subkey[..], max / 8)
  {
    ghost var key := subkey[..];
    var i := 2;
    while i < max
      invariant i % 8 == 2 && 2 <= i <= max + 2
      invariant InvertedUpto(o, key, subkey[..], i / 8)
    {
      InvertSix(o, subkey, i, key);
      i := i + 8;
    }
  }

  method InvertSix<W(==)>(o: Cipher<W>, subkey: array<W>, i: nat, ghost key: seq<W>)
    requires i % 8 == 2 && i + 6 <= subkey.Length && InvertedUpto(o, key, subkey[..], i / 8)
    modifies subkey
    ensures InvertedUpto(o, key, subkey[..], i / 8 + 1)
  {
    ghost var before := subkey[..];
    subkey[i] := o.halfPInv(subkey[i]);
    subkey[i + 1] := o.halfPInv(subkey[i + 1]);
    subkey[i + 2] := o.halfPInv(subkey[i + 2]);
    subkey[i + 3] := o.halfPInv(subkey[i + 3]);
    subkey[i + 4] := o.halfPInv(subkey[i + 4]);
    subkey[i + 5] := o.halfPInv(subkey[i + 5]);
    ghost var j := i / 8;
    assert i == 8 * j + 2;
    assert GroupInverted(o, key, subkey[..], j);
    OneMoreInverted(o, key, before, subkey[..], j);
  }

  lemma OneMoreInverted<W>(o: Cipher<W>, key: seq<W>, before: seq<W>, now: seq<W>, j: nat)
    requires InvertedUpto(o, key, before, j) && |now| == |before| && 8 * j + 8 <= |now| && GroupInverted(o, key, now, j)
    requires forall i :: 0 <= i < |now| && (i < 8 * j + 2 || 8 * j + 8 <= i) ==> now[i] == before[i]
    ensures InvertedUpto(o, key, now, j + 1)
  {
    forall k | 0 <= k < j
      ensures GroupInverted(o, key, now, k)
    {
      assert GroupInverted(o, key, before, k);
    }
  }

  // ----- the table is the one the proof needs -------------------------------

  /** Step 4j+c is in group j; c == 3 is the FL layer behind it. */
  lemma {:induction false} Kw2Is<W>(o: Cipher<W>, s: seq<W>, g: nat, j: nat, c: nat)
    requires g >= 1 && |s| == 8 * g + 2 && c < 4 && j < g
    ensures Kw2(o, ScheduleOf(s, g), 4 * j + c) == GroupKw2(o, s, j)
    decreases j, c
  {
    if c > 0 {
      Kw2Is(o, s, g, j, c - 1);
      assert StepAt(s, 4 * j + c - 1).Rounds?;
    } else if j > 0 {
      Kw2Is(o, s, g, j - 1, 3);
      assert StepAt(s, 4 * j - 1) == Layer(s[8 * j], s[8 * j + 1]);
    }
  }

  lemma {:induction false} Kw4Is<W>(o: Cipher<W>, s: seq<W>, g: nat, j: nat, c: nat)
    requires g >= 1 && |s| == 8 * g + 2 && c < 4 && j < g
    ensures Kw4(o, ScheduleOf(s, g), 4 * j + c) == GroupKw4(o, s, 8 * g, j)
    decreases g - j, 4 - c
  {
    if c < 3 {
      Kw4Is(o, s, g, j, c + 1);
      assert StepAt(s, 4 * j + c).Rounds?;
    } else if j + 1 < g {
      Kw4Is(o, s, g, j + 1, 0);
      assert StepAt(s, 4 * j + 3) == Layer(s[8 * j + 8], s[8 * j + 9]);
    }
  }

  lemma {:induction false} Kw4Same<W>(o: Cipher<W>, s: seq<W>, u: seq<W>, g: nat, j: nat)
    requires g >= 1 && |s| == |u| == 8 * g + 2 && j < g
    requires u[8 * g + 1] == s[8 * g + 1] && forall k :: 1 <= k < g ==> u[8 * k] == s[8 * k]
    ensures GroupKw4(o, s, 8 * g, j) == GroupKw4(o, u, 8 * g, j)
    decreases g - j
  {
    if j + 1 < g {
      Kw4Same(o, s, u, g, j + 1);
      assert u[8 * (j + 1)] == s[8 * (j + 1)];
    }
  }

  /** Group j of `u` is group j of `s` with kw2 and kw4 absorbed. */
  ghost predicate GroupAbsorbed<W>(o: Cipher<W>, s: seq<W>, u: seq<W>, g: nat, j: nat)
    requires |s| == |u| == 8 * g + 2 && j < g
  {
    var i, p, q := 8 * j, GroupKw4(o, s, 8 * g, j), GroupKw2(o, s, j);
    && u[i + 2] == o.xor(s[i + 2], p) && u[i + 4] == o.xor(s[i + 4], p) && u[i + 6] == o.xor(s[i + 6], p)
    && u[i + 3] == o.xor(s[i + 3], q) && u[i + 5] == o.xor(s[i + 5], q) && u[i + 7] == o.xor(s[i + 7], q)
    && (j > 0 ==> u[i] == s[i] && u[i + 1] == s[i + 1])
  }

  ghost predicate AllAbsorbed<W>(o: Cipher<W>, s: seq<W>, u: seq<W>, g: nat) {
    && g >= 1 && |s| == |u| == 8 * g + 2
    && (forall j :: 0 <= j < g ==> GroupAbsorbed(o, s, u, g, j))
    && u[0] == o.xor(s[0], GroupKw4(o, s, 8 * g, 0))
    && u[8 * g] == o.xor(s[8 * g], GroupKw2(o, s, g - 1))
  }

  lemma AbsorbedRounds<W>(o: Cipher<W>, s: seq<W>, u: seq<W>, g: nat, j: nat, c: nat)
    requires AllAbsorbed(o, s, u, g) && c < 3 && j < g
    ensures Absorbed(o, ScheduleOf(s, g), 4 * j + c) == Rounds(u[8 * j + 2 * c + 2], u[8 * j + 2 * c + 3])
  {
    Kw2Is(o, s, g, j, c);
    Kw4Is(o, s, g, j, c);
    RoundsAt(s, g, j, c);
    GroupAt(o, s, u, g, j, c);
    AbsorbedIs(o, ScheduleOf(s, g), 4 * j + c, s[8 * j + 2 * c + 2], s[8 * j + 2 * c + 3]);
  }

  lemma AbsorbedIs<W>(o: Cipher<W>, S: Schedule<W>, n: nat, a: W, b: W)
    requires n < |S.steps| && S.steps[n] == Rounds(a, b)
    ensures Absorbed(o, S, n) == Rounds(o.xor(a, Kw4(o, S, n)), o.xor(b, Kw2(o, S, n)))
  {
  }

  lemma GroupAt<W>(o: Cipher<W>, s: seq<W>, u: seq<W>, g: nat, j: nat, c: nat)
    requires AllAbsorbed(o, s, u, g) && c < 3 && j < g
    ensures u[8 * j + 2 * c + 2] == o.xor(s[8 * j + 2 * c + 2], GroupKw4(o, s, 8 * g, j))
    ensures u[8 * j + 2 * c + 3] == o.xor(s[8 * j + 2 * c + 3], GroupKw2(o, s, j))
  {
    assert GroupAbsorbed(o, s, u, g, j);
  }

  lemma RoundsAt<W>(s: seq<W>, g: nat, j: nat, c: nat)
    requires j < g && |s| == 8 * g + 2 && c < 3
    ensures ScheduleOf(s, g).steps[4 * j + c] == Rounds(s[8 * j + 2 * c + 2], s[8 * j + 2 * c + 3])
  {
    assert StepAt(s, 4 * j + c).Rounds?;
  }

  lemma AbsorbedLayer<W>(o: Cipher<W>, s: seq<W>, u: seq<W>, g: nat, j: nat)
    requires AllAbsorbed(o, s, u, g) && j + 1 < g
    ensures Absorbed(o, ScheduleOf(s, g), 4 * j + 3) == Layer(u[8 * j + 8], u[8 * j + 9]) == StepAt(s, 4 * j + 3)
  {
    assert GroupAbsorbed(o, s, u, g, j + 1);
  }

  /** The masks in front of round pair c of group j, read off the absorbed subkeys. */
  function BeforeIn<W>(o: Cipher<W>, u: seq<W>, g: nat, j: nat, c: nat): W
    requires |u| == 8 * g + 2 && j < g && c <= 3
  {
    if c > 0 then u[8 * j + 2 * c + 1] else if j > 0 then o.mask(u[8 * j - 1], u[8 * j + 1]) else o.zero
  }

  function NextIn<W>(o: Cipher<W>, u: seq<W>, g: nat, j: nat, c: nat): W
    requires |u| == 8 * g + 2 && j < g && c <= 3
  {
    if c < 3 then u[8 * j + 2 * c + 2] else if j + 1 < g then o.mask(u[8 * j + 10], u[8 * j + 8]) else o.zero
  }

  lemma BeforeIs<W>(o: Cipher<W>, s: seq<W>, u: seq<W>, g: nat, j: nat, c: nat)
    requires AllAbsorbed(o, s, u, g) && c <= 3 && j < g
    ensures Before(o, ScheduleOf(s, g), 4 * j + c) == BeforeIn(o, u, g, j, c)
  {
    if c > 0 {
      AbsorbedRounds(o, s, u, g, j, c - 1);
    } else if j > 0 {
      AbsorbedLayer(o, s, u, g, j - 1);
      AbsorbedRounds(o, s, u, g, j - 1, 2);
    }
  }

  lemma NextIs<W>(o: Cipher<W>, s: seq<W>, u: seq<W>, g: nat, j: nat, c: nat)
    requires AllAbsorbed(o, s, u, g) && c <= 3 && j < g
    ensures Next(o, ScheduleOf(s, g), 4 * j + c) == NextIn(o, u, g, j, c)
  {
    if c < 3 {
      AbsorbedRounds(o, s, u, g, j, c);
    } else if j + 1 < g {
      AbsorbedLayer(o, s, u, g, j);
      AbsorbedRounds(o, s, u, g, j + 1, 0);
    }
  }

  /** Round pair c of group j of the table, by the masks around it. */
  lemma EntryRounds<W>(o: Cipher<W>, s: seq<W>, u: seq<W>, g: nat, j: nat, c: nat)
    requires AllAbsorbed(o, s, u, g) && j < g && c < 3
    ensures Entry(o, ScheduleOf(s, g), 4 * j + c) ==
            Rounds(o.halfPInv(o.xor(BeforeIn(o, u, g, j, c), u[8 * j + 2 * c + 3])),
                   o.halfPInv(o.xor(u[8 * j + 2 * c + 2], NextIn(o, u, g, j, c + 1))))
  {
    AbsorbedRounds(o, s, u, g, j, c);
    BeforeIs(o, s, u, g, j, c);
    NextIs(o, s, u, g, j, c + 1);
  }

  lemma MovedRounds<W(!new)>(o: Cipher<W>, u: seq<W>, key: seq<W>, g: nat, j: nat, c: nat)
    requires Lawful(o) && |u| == 8 * g + 2 && 8 * g < |key| && j < g && c < 3 && GroupMoved(o, u, key, 8 * g, j)
    ensures key[8 * j + 2 * c + 2] == o.xor(BeforeIn(o, u, g, j, c), u[8 * j + 2 * c + 3])
    ensures key[8 * j + 2 * c + 3] == o.xor(u[8 * j + 2 * c + 2], NextIn(o, u, g, j, c + 1))
  {
    WithZero(o, u[3]);
    WithZero(o, u[8 * j + 6]);
    if c == 0 {
    } else if c == 1 {
    } else {
      assert c == 2;
    }
  }

  lemma InvertedRounds<W>(o: Cipher<W>, key: seq<W>, key': seq<W>, j: nat, c: nat)
    requires 8 * j + 8 <= |key| == |key'| && c < 3 && GroupInverted(o, key, key', j)
    ensures StepAt(key', 4 * j + c) == Rounds(o.halfPInv(key[8 * j + 2 * c + 2]), o.halfPInv(key[8 * j + 2 * c + 3]))
  {
    if c == 0 {
    } else if c == 1 {
    } else {
      assert c == 2;
    }
  }

  lemma EntryAt<W(!new)>(o: Cipher<W>, s: seq<W>, u: seq<W>, key: seq<W>, key': seq<W>, g: nat, j: nat, c: nat)
    requires Lawful(o) && AllAbsorbed(o, s, u, g) && 8 * g + 1 < |key| && MovedUpto(o, u, key, 8 * g, g)
    requires InvertedUpto(o, key, key', g) && j < g && c < 3
    ensures StepAt(key', 4 * j + c) == Entry(o, ScheduleOf(s, g), 4 * j + c)
  {
    MovedRounds(o, u, key, g, j, c);
    InvertedRounds(o, key, key', j, c);
    EntryRounds(o, s, u, g, j, c);
  }

  lemma LayerAt<W(!new)>(o: Cipher<W>, s: seq<W>, u: seq<W>, key: seq<W>, key': seq<W>, g: nat, j: nat)
    requires AllAbsorbed(o, s, u, g) && 8 * g + 1 < |key| && MovedUpto(o, u, key, 8 * g, g)
    requires InvertedUpto(o, key, key', g) && j + 1 < g
    ensures StepAt(key', 4 * j + 3) == Entry(o, ScheduleOf(s, g), 4 * j + 3)
  {
    AbsorbedLayer(o, s, u, g, j);
    LayerEntry(o, u, key, key', g, j + 1);
  }

  lemma EntryIs<W(!new)>(o: Cipher<W>, s: seq<W>, u: seq<W>, key: seq<W>, key': seq<W>, g: nat, i: nat)
    requires Lawful(o) && AllAbsorbed(o, s, u, g) && 8 * g + 1 < |key| && MovedUpto(o, u, key, 8 * g, g)
    requires InvertedUpto(o, key, key', g) && i < 4 * g - 1
    ensures StepAt(key', i) == Entry(o, ScheduleOf(s, g), i)
  {
    var j, c := i / 4, i % 4;
    if c == 3 {
      LayerAt(o, s, u, key, key', g, j);
    } else {
      EntryAt(o, s, u, key, key', g, j, c);
    }
  }

  lemma LayerEntry<W>(o: Cipher<W>, u: seq<W>, key: seq<W>, key': seq<W>, g: nat, j: nat)
    requires |u| == 8 * g + 2 && 8 * g + 1 < |key| && MovedUpto(o, u, key, 8 * g, g) && InvertedUpto(o, key, key', g)
    requires 0 < j < g
    ensures key'[8 * j] == u[8 * j] && key'[8 * j + 1] == u[8 * j + 1]
  {
    assert GroupMoved(o, u, key, 8 * g, j) && GroupInverted(o, key, key', j);
  }

  lemma TableReady<W(!new)>(o: Cipher<W>, s: seq<W>, u: seq<W>, key: seq<W>, key': seq<W>, g: nat)
    requires Lawful(o) && AllAbsorbed(o, s, u, g) && 8 * g + 1 < |key| && MovedUpto(o, u, key, 8 * g, g)
    requires key[0] == o.xor(u[0], u[2]) && key[8 * g] == o.xor(u[8 * g], u[8 * g - 1])
    requires InvertedUpto(o, key, key', g)
    ensures IsTable(o, ScheduleOf(key', g), ScheduleOf(s, g))
  {
    forall i | 0 <= i < 4 * g - 1
      ensures StepAt(key', i) == Entry(o, ScheduleOf(s, g), i)
    {
      EntryIs(o, s, u, key, key', g, i);
    }
    assert GroupInverted(o, key, key', 0);
    WhiteningReady(o, s, u, g);
  }

  lemma WhiteningReady<W>(o: Cipher<W>, s: seq<W>, u: seq<W>, g: nat)
    requires AllAbsorbed(o, s, u, g)
    ensures var S := ScheduleOf(s, g);
            && Kw1(o, S) == u[0] && Next(o, S, 0) == u[2]
            && Kw3(o, S) == u[8 * g] && Before(o, S, 4 * g - 1) == u[8 * g - 1]
  {
    Kw4Is(o, s, g, 0, 0);
    Kw2Is(o, s, g, g - 1, 3);
    NextIs(o, s, u, g, 0, 0);
    BeforeIs(o, s, u, g, g - 1, 3);
  }

  lemma BothAbsorbed<W>(o: Cipher<W>, s: seq<W>, u1: seq<W>, u: seq<W>, g: nat)
    requires g >= 1 && |s| == |u1| == |u| == 8 * g + 2
    requires forall j :: 0 <= j < g ==> OddMasked(o, s, u1, j, GroupKw2(o, s, j))
    requires u1[8 * g] == o.xor(s[8 * g], GroupKw2(o, s, g - 1)) && u1[8 * g + 1] == s[8 * g + 1]
    requires forall j :: 0 <= j < g ==> EvenMasked(o, u1, u, j, GroupKw4(o, u1, 8 * g, j))
    requires u[0] == o.xor(u1[0], GroupKw4(o, u1, 8 * g, 0)) && u[8 * g] == u1[8 * g]
    ensures AllAbsorbed(o, s, u, g)
  {
    forall k | 1 <= k < g
      ensures u1[8 * k] == s[8 * k]
    {
      assert OddMasked(o, s, u1, k, GroupKw2(o, s, k));
    }
    assert OddMasked(o, s, u1, 0, GroupKw2(o, s, 0));
    Kw4Same(o, s, u1, g, 0);
    forall j | 0 <= j < g
      ensures GroupAbsorbed(o, s, u, g, j)
    {
      Kw4Same(o, s, u1, g, j);
      assert OddMasked(o, s, u1, j, GroupKw2(o, s, j));
      assert EvenMasked(o, u1, u, j, GroupKw4(o, u1, 8 * g, j));
    }
  }

  lemma BothMasked<W>(o: Cipher<W>, s: seq<W>, u1: seq<W>, u: seq<W>, max: nat)
    requires max >= 8 && max % 8 == 0 && |s| == |u1| == |u| == max + 2
    requires forall j :: 0 <= j < max / 8 ==> OddMasked(o, s, u1, j, GroupKw2(o, s, j))
    requires u1[max] == o.xor(s[max], GroupKw2(o, s, max / 8 - 1)) && u1[max + 1] == s[max + 1]
    requires forall j :: 0 <= j < max / 8 ==> EvenMasked(o, u1, u, j, GroupKw4(o, u1, max, j))
    requires u[0] == o.xor(u1[0], GroupKw4(o, u1, max, 0)) && u[max] == u1[max]
    ensures AllAbsorbed(o, s, u, max / 8)
  {
    var g := max / 8;
    assert 8 * g == max;
    forall j | 0 <= j < g
      ensures EvenMasked(o, u1, u, j, GroupKw4(o, u1, 8 * g, j))
    {
    }
    BothAbsorbed(o, s, u1, u, g);
  }

  method AbsorbWhitening<W(==)>(o: Cipher<W>, sub: array<W>, max: nat)
    requires (max == 24 || max == 32) && sub.Length == max + 2
    modifies sub
    ensures AllAbsorbed(o, old(sub[..]), sub[..], max / 8)
  {
    ghost var s := sub[..];
    AbsorbKw2(o, sub, max);
    ghost var u1 := sub[..];
    AbsorbKw4(o, sub, max);
    BothMasked(o, s, u1, sub[..], max);
  }

  /** camellia_setup_tail for 8g == max, that is 24 or 32. */
  method SetupTail<W(!new, ==)>(o: Cipher<W>, subkey: array<W>, sub: array<W>, max: nat)
    requires Lawful(o) && (max == 24 || max == 32)
    requires subkey != sub && sub.Length == max + 2 && max + 1 < subkey.Length
    modifies subkey, sub
    ensures IsTable(o, ScheduleOf(subkey[..], max / 8), ScheduleOf(old(sub[..]), max / 8))
  {
    ghost var s := sub[..];
    AbsorbWhitening(o, sub, max);
    ghost var u := sub[..];
    MoveKeys(o, subkey, sub, max);
    ghost var key := subkey[..];
    InvertHalfP(o, subkey, max);
    TableReady(o, s, u, key, subkey[..], max / 8);
  }
}
