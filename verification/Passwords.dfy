/** Generation of exchange passwords and the obfuscation under which they are stored. */
module Passwords {
  import opened Wrappers
  import opened Bytes
  import opened Text

  const CRNT_PSSWD_LEN := 8
  const RUNE_ERROR := 0xFFFD

  // ---- iterating over the runes of a byte string ----

  predicate Continues(s: seq<byte>, i: nat, lo: byte, hi: byte) {
    i < |s| && lo <= s[i] <= hi
  }

  /** The first rune of a string and its width; an invalid byte is a replacement rune of width one. */
  function DecodeRune(s: seq<byte>): (r: (nat, nat))
    requires s != []
    ensures 1 <= r.1 <= |s|
    ensures s[0] < 0x80 ==> r == (s[0] as nat, 1)
    ensures 0x80 <= s[0] < 0xC2 ==> r == (RUNE_ERROR, 1)
  {
    var b: nat := s[0];
    if b < 0x80 then (b, 1)
    else if 0xC2 <= b <= 0xDF && Continues(s, 1, 0x80, 0xBF) then ((b - 0xC0) * 0x40 + Low(s, 1), 2)
    else if 0xE0 <= b <= 0xEF && Continues(s, 1, if b == 0xE0 then 0xA0 else 0x80, if b == 0xED then 0x9F else 0xBF)
            && Continues(s, 2, 0x80, 0xBF)
    then ((b - 0xE0) * 0x1000 + Low(s, 1) * 0x40 + Low(s, 2), 3)
    else if 0xF0 <= b <= 0xF4 && Continues(s, 1, if b == 0xF0 then 0x90 else 0x80, if b == 0xF4 then 0x8F else 0xBF)
            && Continues(s, 2, 0x80, 0xBF) && Continues(s, 3, 0x80, 0xBF)
    then ((b - 0xF0) * 0x40000 + Low(s, 1) * 0x1000 + Low(s, 2) * 0x40 + Low(s, 3), 4)
    else (RUNE_ERROR, 1)
  }

  /** The six bits a continuation byte carries. */
  function Low(s: seq<byte>, i: nat): nat
    requires i < |s|
  {
    s[i] % 0x40
  }

  /** The runes that UTF-8 can encode. */
  predicate ScalarValue(r: nat) {
    r < 0xD800 || 0xE000 <= r < 0x11_0000
  }

  /** The UTF-8 form of a rune. */
  function EncodeRune(r: nat): (s: seq<byte>)
    requires ScalarValue(r)
    ensures 1 <= |s| <= 4
  {
    if r < 0x80 then [r]
    else if r < 0x800 then [0xC0 + r / 0x40, 0x80 + r % 0x40]
    else if r < 0x1_0000 then [0xE0 + r / 0x1000, 0x80 + r / 0x40 % 0x40, 0x80 + r % 0x40]
    else [0xF0 + r / 0x4_0000, 0x80 + r / 0x1000 % 0x40, 0x80 + r / 0x40 % 0x40, 0x80 + r % 0x40]
  }

  lemma TwoByteRune(r: nat, rest: seq<byte>)
    requires 0x80 <= r < 0x800
    ensures DecodeRune(EncodeRune(r) + rest) == (r, 2)
  {
    var s := EncodeRune(r) + rest;
    assert s[0] == 0xC0 + r / 0x40 && s[1] == 0x80 + r % 0x40;
  }

  lemma ThreeByteParts(r: nat)
    requires 0x800 <= r < 0x1_0000 && ScalarValue(r)
    ensures var hi, mid := r / 0x1000, r / 0x40 % 0x40;
            && hi * 0x1000 + mid * 0x40 + r % 0x40 == r && hi < 0x10
            && (hi == 0 ==> mid >= 0x20) && (hi == 0xD ==> mid < 0x20)
  {
    assert r / 0x1000 == r / 0x40 / 0x40;
  }

  lemma ThreeByteRune(r: nat, rest: seq<byte>)
    requires 0x800 <= r < 0x1_0000 && ScalarValue(r)
    ensures DecodeRune(EncodeRune(r) + rest) == (r, 3)
  {
    var s := EncodeRune(r) + rest;
    ThreeByteParts(r);
    var hi, mid, lo := r / 0x1000, r / 0x40 % 0x40, r % 0x40;
    assert s[0] == 0xE0 + hi && s[1] == 0x80 + mid && s[2] == 0x80 + lo;
    assert Low(s, 1) == mid && Low(s, 2) == lo;
  }

  lemma FourByteParts(r: nat)
    requires 0x1_0000 <= r < 0x11_0000
    ensures var top, hi, mid := r / 0x4_0000, r / 0x1000 % 0x40, r / 0x40 % 0x40;
            && top * 0x4_0000 + hi * 0x1000 + mid * 0x40 + r % 0x40 == r && top < 5
            && (top == 0 ==> hi >= 0x10) && (top == 4 ==> hi < 0x10)
  {
    assert r / 0x1000 == r / 0x40 / 0x40 && r / 0x4_0000 == r / 0x40 / 0x40 / 0x40;
  }

  lemma FourByteRune(r: nat, rest: seq<byte>)
    requires 0x1_0000 <= r < 0x11_0000
    ensures DecodeRune(EncodeRune(r) + rest) == (r, 4)
  {
    var s := EncodeRune(r) + rest;
    FourByteParts(r);
    var top, hi, mid, lo := r / 0x4_0000, r / 0x1000 % 0x40, r / 0x40 % 0x40, r % 0x40;
    assert s[0] == 0xF0 + top && s[1] == 0x80 + hi && s[2] == 0x80 + mid && s[3] == 0x80 + lo;
    assert Low(s, 1) == hi && Low(s, 2) == mid && Low(s, 3) == lo;
  }

  lemma DecodeEncodedRune(r: nat, rest: seq<byte>)
    requires ScalarValue(r)
    ensures DecodeRune(EncodeRune(r) + rest) == (r, |EncodeRune(r)|)
  {
    if r >= 0x1_0000 {
      FourByteRune(r, rest);
    } else if r >= 0x800 {
      ThreeByteRune(r, rest);
    } else if r >= 0x80 {
      TwoByteRune(r, rest);
    }
  }

  lemma ThreeByteForm(h: nat, l1: nat, l2: nat)
    requires h < 0x10 && l1 < 0x40 && l2 < 0x40 && (h == 0 ==> l1 >= 0x20) && (h == 0xD ==> l1 < 0x20)
    ensures var r := h * 0x1000 + l1 * 0x40 + l2;
            ScalarValue(r) && EncodeRune(r) == [0xE0 + h, 0x80 + l1, 0x80 + l2]
  {
    var r := h * 0x1000 + l1 * 0x40 + l2;
    assert r / 0x40 == h * 0x40 + l1;
    assert r / 0x1000 == h && r / 0x40 % 0x40 == l1 && r % 0x40 == l2;
  }

  lemma FourByteForm(t: nat, l1: nat, l2: nat, l3: nat)
    requires t < 5 && l1 < 0x40 && l2 < 0x40 && l3 < 0x40 && (t == 0 ==> l1 >= 0x10) && (t == 4 ==> l1 < 0x10)
    ensures var r := t * 0x4_0000 + l1 * 0x1000 + l2 * 0x40 + l3;
            ScalarValue(r) && EncodeRune(r) == [0xF0 + t, 0x80 + l1, 0x80 + l2, 0x80 + l3]
  {
    var r := t * 0x4_0000 + l1 * 0x1000 + l2 * 0x40 + l3;
    assert r / 0x40 == t * 0x1000 + l1 * 0x40 + l2;
    assert r / 0x1000 == t * 0x40 + l1;
    assert r / 0x4_0000 == t && r / 0x1000 % 0x40 == l1 && r / 0x40 % 0x40 == l2 && r % 0x40 == l3;
  }

  lemma ThreeBytesEncode(s: seq<byte>)
    requires s != [] && DecodeRune(s).1 == 3
    ensures ScalarValue(DecodeRune(s).0) && s[..3] == EncodeRune(DecodeRune(s).0)
  {
    hide EncodeRune, ScalarValue;
    var h: nat, l1, l2 := s[0] - 0xE0, Low(s, 1), Low(s, 2);
    assert s[1] == 0x80 + l1 && s[2] == 0x80 + l2 && DecodeRune(s).0 == h * 0x1000 + l1 * 0x40 + l2;
    ThreeByteForm(h, l1, l2);
    hide Low, DecodeRune;
    assert s[..3] == [s[0], s[1], s[2]];
  }

  lemma FourBytesEncode(s: seq<byte>)
    requires s != [] && DecodeRune(s).1 == 4
    ensures ScalarValue(DecodeRune(s).0) && s[..4] == EncodeRune(DecodeRune(s).0)
  {
    hide EncodeRune, ScalarValue;
    var t: nat, l1, l2, l3 := s[0] - 0xF0, Low(s, 1), Low(s, 2), Low(s, 3);
    assert s[1] == 0x80 + l1 && s[2] == 0x80 + l2 && s[3] == 0x80 + l3;
    assert DecodeRune(s).0 == t * 0x4_0000 + l1 * 0x1000 + l2 * 0x40 + l3;
    FourByteForm(t, l1, l2, l3);
    hide Low, DecodeRune;
    assert s[..4] == [s[0], s[1], s[2], s[3]];
  }

  /** A rune of more than one byte stands for its own UTF-8 form. */
  lemma DecodedRuneEncodes(s: seq<byte>)
    requires s != [] && DecodeRune(s).1 > 1
    ensures var (r, width) := DecodeRune(s); ScalarValue(r) && s[..width] == EncodeRune(r)
  {
    var (r, width) := DecodeRune(s);
    if width == 2 {
      assert s[..2] == [s[0], s[1]];
    } else if width == 3 {
      ThreeBytesEncode(s);
    } else {
      FourBytesEncode(s);
    }
  }

  function Shift(i: nat): nat {
    if i % 2 == 0 then 2 else 1
  }

  /** The low byte of every rune shifted by two at even and by one at odd byte positions. */
  function Shifted(s: seq<byte>, i: nat, up: bool): (r: seq<byte>)
    ensures |r| <= |s|
    decreases |s|
  {
    if s == [] then []
    else
      var (rune, width) := DecodeRune(s);
      var c: int := rune % 256 + (if up then Shift(i) as int else -(Shift(i) as int));
      [c % 256] + Shifted(s[width..], i + width, up)
  }

  lemma LowByteShifted(r: nat, d: int)
    ensures (r % 256 + d) % 256 == (r + d) % 256
  {
  }

  lemma ShiftedStep(s: seq<byte>, i: nat, up: bool)
    requires s != []
    ensures var (rune, width) := DecodeRune(s);
            var shift := if i % 2 == 0 then 2 else 1;
            Shifted(s, i, up) == [(rune + if up then shift else -shift) % 256] + Shifted(s[width..], i + width, up)
  {
    var (rune, width) := DecodeRune(s);
    LowByteShifted(rune, if up then Shift(i) as int else -(Shift(i) as int));
    hide DecodeRune;
  }

  /** A rune is shifted as its low byte, by two at an even and by one at an odd byte position. */
  lemma RuneShifted(r: nat, rest: seq<byte>, i: nat, up: bool)
    requires ScalarValue(r)
    ensures var shift := if i % 2 == 0 then 2 else 1;
            Shifted(EncodeRune(r) + rest, i, up)
            == [(r + if up then shift else -shift) % 256] + Shifted(rest, i + |EncodeRune(r)|, up)
  {
    hide DecodeRune, EncodeRune, Shifted;
    DecodeEncodedRune(r, rest);
    ShiftedStep(EncodeRune(r) + rest, i, up);
    assert (EncodeRune(r) + rest)[|EncodeRune(r)|..] == rest;
  }

  ghost predicate StartsWithRune(s: seq<byte>) {
    exists r: nat :: ScalarValue(r) && EncodeRune(r) <= s
  }

  lemma RuneOrBroken(s: seq<byte>)
    requires s != []
    ensures StartsWithRune(s) || DecodeRune(s) == (RUNE_ERROR, 1)
  {
    if s[0] < 0x80 {
      assert EncodeRune(s[0]) <= s;
    } else if DecodeRune(s).1 > 1 {
      DecodedRuneEncodes(s);
      assert EncodeRune(DecodeRune(s).0) <= s;
    }
  }

  /** A byte at which no rune starts is shifted as the low byte of the replacement rune. */
  lemma BrokenByteShifted(s: seq<byte>, i: nat, up: bool)
    requires s != [] && !StartsWithRune(s)
    ensures var shift: int := if i % 2 == 0 then 2 else 1;
            Shifted(s, i, up) == [if up then 253 + shift else 253 - shift] + Shifted(s[1..], i + 1, up)
  {
    hide DecodeRune, Shifted, StartsWithRune;
    RuneOrBroken(s);
    ShiftedStep(s, i, up);
  }

  lemma ShiftRune(s: seq<byte>, i: nat, up: bool, before: seq<byte>)
    requires i < |s|
    ensures var (c, width) := DecodeRune(s[i..]);
            before + Shifted(s[i..], i, up)
            == before + [(c % 256 + (if up then Shift(i) as int else -(Shift(i) as int))) % 256]
               + Shifted(s[i + width..], i + width, up)
  {
    hide DecodeRune;
    var (c, width) := DecodeRune(s[i..]);
    assert s[i..][width..] == s[i + width..];
  }

  method Fnencrypt(input: seq<byte>) returns (encrypted: seq<byte>)
    ensures encrypted == Shifted(input, 0, true)
  {
    hide DecodeRune, Shifted;
    encrypted := [];
    var i := 0;
    while i < |input|
      invariant i <= |input|
      invariant Shifted(input, 0, true) == encrypted + Shifted(input[i..], i, true)
    {
      var (c, width) := DecodeRune(input[i..]);
      var before := encrypted;
      if i % 2 == 0 {
        encrypted := encrypted + [(c % 256 + 2) % 256];
      } else {
        encrypted := encrypted + [(c % 256 + 1) % 256];
      }
      ShiftRune(input, i, true, before);
      i := i + width;
    }
  }

  method Fndecrypt(encrypted: seq<byte>) returns (decrypted: seq<byte>)
    ensures decrypted == Shifted(encrypted, 0, false)
  {
    hide DecodeRune, Shifted;
    decrypted := [];
    var i := 0;
    while i < |encrypted|
      invariant i <= |encrypted|
      invariant Shifted(encrypted, 0, false) == decrypted + Shifted(encrypted[i..], i, false)
    {
      var (c, width) := DecodeRune(encrypted[i..]);
      var before := decrypted;
      if i % 2 == 0 {
        decrypted := decrypted + [(c % 256 - 2) % 256];
      } else {
        decrypted := decrypted + [(c % 256 - 1) % 256];
      }
      ShiftRune(encrypted, i, false, before);
      i := i + width;
    }
  }

  predicate Ascii(s: seq<byte>) {
    forall i :: 0 <= i < |s| ==> s[i] < 0x80
  }

  /** No character leaves ASCII when it is shifted from position `i` on. */
  predicate Storable(s: seq<byte>, i: nat) {
    forall k :: 0 <= k < |s| ==> s[k] + Shift(i + k) < 0x80
  }

  lemma {:induction false} EncryptedAt(s: seq<byte>, i: nat, k: nat)
    requires Ascii(s) && k <= |s|
    ensures |Shifted(s, i, true)| == |s|
    ensures k < |s| ==> Shifted(s, i, true)[k] == s[k] + Shift(i + k)
  {
    hide Shifted, DecodeRune, Shift;
    if s != [] {
      var c, cs := s[0], s[1..];
      EncryptedAt(cs, i + 1, if k == 0 then 0 else k - 1);
      EncryptFirst(c, cs, i);
      assert s == [c] + cs;
    } else {
      assert Shifted(s, i, true) == [];
    }
  }

  lemma EncryptFirst(c: byte, cs: seq<byte>, i: nat)
    requires c < 0x80
    ensures Shifted([c] + cs, i, true) == [c + Shift(i)] + Shifted(cs, i + 1, true)
  {
    ShiftFirst(c, cs, i, true);
    hide Shifted, DecodeRune;
  }

  lemma EncryptedText(s: seq<byte>, i: nat)
    requires Ascii(s)
    ensures |Shifted(s, i, true)| == |s|
    ensures forall k :: 0 <= k < |s| ==> Shifted(s, i, true)[k] == s[k] + Shift(i + k)
  {
    hide Shifted, Shift;
    EncryptedAt(s, i, |s|);
    forall k | 0 <= k < |s|
      ensures Shifted(s, i, true)[k] == s[k] + Shift(i + k)
    {
      EncryptedAt(s, i, k);
    }
  }

  lemma {:induction false} DecryptFrom(s: seq<byte>, i: nat)
    requires Ascii(s)
    ensures Shifted(Shifted(s, i, true), i, false) == s <==> Storable(s, i)
  {
    if s != [] {
      DecryptFrom(s[1..], i + 1);
      StorableFirst(s, i);
      DecryptFirst(s[0], s[1..], i);
      assert s == [s[0]] + s[1..];
      hide Shifted, Storable, DecodeRune, Ascii;
    }
  }

  lemma DecryptFirst(c: byte, cs: seq<byte>, i: nat)
    requires c < 0x80
    ensures Shifted(Shifted([c] + cs, i, true), i, false) == [c] + cs
       <==> c + Shift(i) < 0x80 && Shifted(Shifted(cs, i + 1, true), i + 1, false) == cs
  {
    hide Shifted, DecodeRune;
    var e, rest := c + Shift(i), Shifted(cs, i + 1, true);
    ShiftFirst(c, cs, i, true);
    ShiftFirst(e, rest, i, false);
    SameSeq(if e < 0x80 then c else RUNE_ERROR % 256 - Shift(i), Shifted(rest, i + 1, false), c, cs);
  }

  lemma SameSeq(x: byte, xs: seq<byte>, y: byte, ys: seq<byte>)
    ensures [x] + xs == [y] + ys <==> x == y && xs == ys
  {
    assert ([x] + xs)[0] == x && ([x] + xs)[1..] == xs && ([y] + ys)[0] == y && ([y] + ys)[1..] == ys;
  }

  /** A leading ASCII character, or one that a shift has just carried out of ASCII, is one rune. */
  lemma ShiftFirst(c: byte, rest: seq<byte>, i: nat, up: bool)
    requires c < 0x82
    ensures Shifted([c] + rest, i, up)
         == [((if c < 0x80 then c as int else RUNE_ERROR) + (if up then Shift(i) as int else -(Shift(i) as int))) % 256]
            + Shifted(rest, i + 1, up)
  {
    hide DecodeRune;
    assert ([c] + rest)[1..] == rest;
  }

  lemma StorableFirst(s: seq<byte>, i: nat)
    requires s != []
    ensures Storable(s, i) <==> s[0] + Shift(i) < 0x80 && Storable(s[1..], i + 1)
  {
    forall k | 0 < k < |s|
      ensures s[k] == s[1..][k - 1] && Shift(i + k) == Shift(i + 1 + (k - 1))
    {
    }
    if s[0] + Shift(i) < 0x80 && Storable(s[1..], i + 1) {
      forall k | 0 <= k < |s|
        ensures s[k] + Shift(i + k) < 0x80
      {
        assert k > 0 ==> s[1..][k - 1] + Shift(i + 1 + (k - 1)) < 0x80;
      }
    }
    if Storable(s, i) {
      forall k | 0 <= k < |s[1..]|
        ensures s[1..][k] + Shift(i + 1 + k) < 0x80
      {
        assert s[k + 1] + Shift(i + (k + 1)) < 0x80;
      }
    }
  }

  /** The codes that survive a shift inside ASCII: up to 125 at even and up to 126 at odd positions. */
  lemma StorableCodes(s: seq<byte>)
    ensures Storable(s, 0) <==> forall k :: 0 <= k < |s| ==> s[k] <= if k % 2 == 0 then 125 else 126
  {
  }

  /** Decryption undoes encryption of an ASCII text exactly when no shift leaves ASCII. */
  lemma DecryptEncrypt(s: seq<byte>)
    requires Ascii(s)
    ensures Shifted(Shifted(s, 0, true), 0, false) == s
       <==> forall k :: 0 <= k < |s| ==> s[k] <= if k % 2 == 0 then 125 else 126
  {
    DecryptFrom(s, 0);
    StorableCodes(s);
    hide Shifted, DecodeRune, Storable;
  }

  // ---- generation ----

  predicate IsUpper(c: byte) { 65 <= c <= 90 }
  predicate IsLower(c: byte) { 97 <= c <= 121 }  // the alphabet stops at `y`
  predicate IsNumber(c: byte) { 49 <= c <= 57 }
  predicate IsSpecial(c: byte) { c in [64, 47, 35, 36, 37, 38, 42] }

  const LETTERS: seq<byte> := seq(26, i requires 0 <= i < 26 => 65 + i)
  const LOWER_LETTERS: seq<byte> := seq(25, i requires 0 <= i < 25 => 97 + i)
  const NUMBERS: seq<byte> := seq(9, i requires 0 <= i < 9 => 49 + i)
  const SPECIAL_CHARS: seq<byte> := [64, 47, 35, 36, 37, 38, 42]

  /** A source of random numbers; drawing from it may fail. */
  class Randomness {
    var draws: seq<nat>

    constructor (draws: seq<nat>) {
      this.draws := draws;
    }

    method Int(max: nat) returns (n: Option<nat>)
      requires max > 0
      modifies this
      ensures n.Some? ==> n.value < max && |draws| < |old(draws)|
      ensures n.None? ==> old(draws) == []
      ensures |draws| <= |old(draws)|
    {
      if draws == [] {
        return None;
      }
      n := Some(draws[0] % max);
      draws := draws[1..];
    }
  }

  method FnrandomVal(rand: Randomness, charSet: seq<byte>) returns (c: Option<byte>)
    requires charSet != []
    modifies rand
    ensures c.Some? ==> c.value in charSet && |rand.draws| < |old(rand.draws)|
    ensures |rand.draws| <= |old(rand.draws)|
  {
    var n := rand.Int(|charSet|);
    if n.None? {
      return None;
    }
    return Some(charSet[n.value]);
  }

  lemma SwapKeepsBytes(s: seq<byte>, i: nat, j: nat)
    requires i < |s| && j < |s|
    ensures multiset(s[i := s[j]][j := s[i]]) == multiset(s)
  {
  }

  /** Swaps every position with a random earlier one, in place. */
  method ShuffleInPlace(rand: Randomness, r: array<byte>) returns (ok: bool)
    modifies rand, r
    ensures multiset(r[..]) == multiset(old(r[..]))
    ensures |rand.draws| <= |old(rand.draws)|
  {
    var i := r.Length - 1;
    while i > 0
      invariant i < r.Length
      invariant multiset(r[..]) == multiset(old(r[..]))
      invariant |rand.draws| <= |old(rand.draws)|
    {
      var j := rand.Int(i + 1);
      if j.None? {
        return false;
      }
      ghost var before := r[..];
      r[i], r[j.value] := r[j.value], r[i];
      SwapKeepsBytes(before, i, j.value);
      assert r[..] == before[i := before[j.value]][j.value := before[i]];
      i := i - 1;
    }
    return true;
  }

  method FnshuffleString(rand: Randomness, s: seq<byte>) returns (r: Option<seq<byte>>)
    modifies rand
    ensures r.Some? ==> |r.value| == |s| && multiset(r.value) == multiset(s)
    ensures |rand.draws| <= |old(rand.draws)|
  {
    var runes := new byte[|s|](i requires 0 <= i < |s| => s[i]);
    assert runes[..] == s;
    var ok := ShuffleInPlace(rand, runes);
    if !ok {
      return None;
    }
    return Some(runes[..]);
  }

  /** Three capitals, a lower-case letter, a special character and two digits. */
  predicate Drawn(s: seq<byte>) {
    && |s| == 7 && IsUpper(s[0]) && IsUpper(s[1]) && IsUpper(s[2])
    && IsLower(s[3]) && IsSpecial(s[4]) && IsNumber(s[5]) && IsNumber(s[6])
  }

  /** The characters of a drawn password, in any order. */
  ghost predicate Composed(p: seq<byte>) {
    exists s: seq<byte> :: Drawn(s) && |p| == |s| && multiset(p) == multiset(s)
  }

  method FngenerateNewPassword(rand: Randomness, oldPassword: seq<byte>) returns (r: Option<seq<byte>>)
    modifies rand
    ensures r.Some? ==> |r.value| == CRNT_PSSWD_LEN - 1 && Composed(r.value) && r.value != oldPassword
    decreases |rand.draws|
  {
    var password := DrawPassword(rand);
    if password.None? {
      return None;
    }
    r := FnshuffleString(rand, password.value);
    if r.None? {
      return;
    }
    if r.value == oldPassword {
      r := FngenerateNewPassword(rand, oldPassword);
    }
  }

  /** The characters in the order in which they are drawn. */
  method DrawPassword(rand: Randomness) returns (r: Option<seq<byte>>)
    modifies rand
    ensures r.Some? ==> Drawn(r.value) && |rand.draws| < |old(rand.draws)|
  {
    var password := [];
    var passwordLength := CRNT_PSSWD_LEN - 3;
    for i := 0 to passwordLength - 2
      invariant |password| == i && |rand.draws| <= |old(rand.draws)|
      invariant forall k :: 0 <= k < i ==> IsUpper(password[k])
    {
      var drawn := FnrandomVal(rand, LETTERS);
      if drawn.None? {
        return None;
      }
      password := password + [drawn.value];
    }
    var lower := FnrandomVal(rand, LOWER_LETTERS);
    if lower.None? {
      return None;
    }
    var special := FnrandomVal(rand, SPECIAL_CHARS);
    if special.None? {
      return None;
    }
    password := password + [lower.value, special.value];
    ghost var text := password;
    for i := 0 to 2
      invariant |password| == 5 + i && password[..5] == text && |rand.draws| < |old(rand.draws)|
      invariant forall k :: 5 <= k < 5 + i ==> IsNumber(password[k])
    {
      var drawn := FnrandomVal(rand, NUMBERS);
      if drawn.None? {
        return None;
      }
      password := password + [drawn.value];
    }
    assert password[3] == text[3] && password[4] == text[4];
    return Some(password);
  }

  lemma ComposedCharacters(p: seq<byte>)
    requires Composed(p)
    ensures |p| == 7 && forall i :: 0 <= i < |p| ==> 35 <= p[i] <= 121
  {
    var s: seq<byte> :| Drawn(s) && |p| == |s| && multiset(p) == multiset(s);
    forall i | 0 <= i < |p|
      ensures 35 <= p[i] <= 121
    {
      assert p[i] in multiset(p);
      assert p[i] in s;
    }
  }

  /** A generated password survives being stored encrypted, read back trimmed and decrypted. */
  lemma GeneratedPasswordSurvivesStorage(p: seq<byte>)
    requires Composed(p)
    ensures Shifted(TrimSpace(Shifted(p, 0, true)), 0, false) == p
  {
    hide Composed, Shifted, DecodeRune;
    ComposedCharacters(p);
    EncryptedText(p, 0);
    DecryptEncrypt(p);
    hide Shift;
    assert Trimmed(Shifted(p, 0, true));
  }
}
