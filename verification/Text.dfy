/** The Go string operations the service applies, on byte strings of ASCII text. */
module Text {
  import opened Wrappers
  import opened Bytes

  const NUL: byte := 0
  const SPACE: byte := 32
  const ZERO: byte := 48
  const STAR: byte := 42

  function Repeat(b: byte, n: nat): (s: seq<byte>)
    ensures |s| == n
    ensures forall i :: 0 <= i < n ==> s[i] == b
  {
    seq(n, _ => b)
  }

  /** `copy(dest, src)`: overwrites a prefix of `dest`, whose length never changes. */
  function Copy(dest: seq<byte>, src: seq<byte>): (r: seq<byte>)
    ensures |r| == |dest|
    ensures forall i :: 0 <= i < |dest| ==> r[i] == if i < |src| then src[i] else dest[i]
  {
    var n := if |src| < |dest| then |src| else |dest|;
    src[..n] + dest[n..]
  }

  /** The same in place, from position `from` on, for a source that fits. */
  method CopyBytes(dest: array<byte>, from: nat, src: seq<byte>)
    requires from + |src| <= dest.Length
    modifies dest
    ensures dest[..] == old(dest[..from]) + src + old(dest[from + |src|..])
  {
    for i := 0 to |src|
      invariant dest[..] == old(dest[..from]) + src[..i] + old(dest[from + i..])
    {
      dest[from + i] := src[i];
    }
  }

  lemma CopyFits(dest: seq<byte>, src: seq<byte>)
    requires |src| <= |dest|
    ensures Copy(dest, src) == src + dest[|src|..]
  {
    assert src[..|src|] == src;
  }

  lemma CopyWhole(dest: seq<byte>, src: seq<byte>)
    requires |src| == |dest|
    ensures Copy(dest, src) == src
  {
  }

  predicate IsSpace(b: byte) {
    9 <= b <= 13 || b == SPACE
  }

  function TrimLeft(s: seq<byte>): (r: seq<byte>)
    ensures |r| <= |s|
    ensures r != [] ==> !IsSpace(r[0])
    ensures s != [] && !IsSpace(s[0]) ==> r == s
  {
    if s != [] && IsSpace(s[0]) then TrimLeft(s[1..]) else s
  }

  lemma {:induction false} TrimLeftIsSuffix(s: seq<byte>)
    ensures var r := TrimLeft(s); r == s[|s| - |r|..] && forall i :: 0 <= i < |s| - |r| ==> IsSpace(s[i])
  {
    if s != [] && IsSpace(s[0]) {
      TrimLeftIsSuffix(s[1..]);
      assert forall i :: 0 < i < |s| ==> s[i] == s[1..][i - 1];
    }
  }

  function TrimRight(s: seq<byte>): (r: seq<byte>)
    ensures |r| <= |s|
    ensures r != [] ==> r[0] == s[0] && !IsSpace(r[|r| - 1])
    ensures s != [] && !IsSpace(s[|s| - 1]) ==> r == s
  {
    if s != [] && IsSpace(s[|s| - 1]) then TrimRight(s[..|s| - 1]) else s
  }

  lemma {:induction false} TrimRightIsPrefix(s: seq<byte>)
    ensures var r := TrimRight(s); r == s[..|r|] && forall i :: |r| <= i < |s| ==> IsSpace(s[i])
  {
    if s != [] && IsSpace(s[|s| - 1]) {
      TrimRightIsPrefix(s[..|s| - 1]);
    }
  }

  /** `strings.TrimSpace`. NUL is not white space. */
  function TrimSpace(s: seq<byte>): (r: seq<byte>)
    ensures |r| <= |s|
    ensures Trimmed(r)
    ensures Trimmed(s) ==> r == s
  {
    TrimRight(TrimLeft(s))
  }

  predicate Trimmed(s: seq<byte>) {
    s != [] ==> !IsSpace(s[0]) && !IsSpace(s[|s| - 1])
  }

  /** White space is cut off at both ends and nothing else is. */
  lemma TrimSpaceCuts(s: seq<byte>) returns (lo: nat, hi: nat)
    ensures lo <= hi <= |s| && TrimSpace(s) == s[lo..hi]
    ensures forall i :: 0 <= i < lo || hi <= i < |s| ==> s[i] in {9, 10, 11, 12, 13, 32}
    ensures lo < hi ==> s[lo] !in {9, 10, 11, 12, 13, 32} && s[hi - 1] !in {9, 10, 11, 12, 13, 32}
  {
    var t := TrimLeft(s);
    TrimLeftIsSuffix(s);
    TrimRightIsPrefix(t);
    hide TrimLeft, TrimRight;
    lo := |s| - |t|;
    hi := lo + |TrimRight(t)|;
    assert forall i :: lo <= i < |s| ==> s[i] == t[i - lo];
  }

  function UpperByte(b: byte): (r: byte)
    ensures IsSpace(r) <==> IsSpace(b)
    ensures r == NUL <==> b == NUL
  {
    if 97 <= b <= 122 then b - 32 else b
  }

  /** `strings.ToUpper` on ASCII text. */
  function ToUpper(s: seq<byte>): (r: seq<byte>)
    ensures |r| == |s|
    ensures forall i :: 0 <= i < |s| ==> r[i] == UpperByte(s[i])
  {
    seq(|s|, i requires 0 <= i < |s| => UpperByte(s[i]))
  }

  predicate IsDigit(b: byte) {
    48 <= b <= 57
  }

  function Digits(s: seq<byte>): Option<nat> {
    if s == [] then Some(0)
    else if !IsDigit(s[|s| - 1]) then None
    else
      match Digits(s[..|s| - 1])
      case None => None
      case Some(v) => Some(10 * v + (s[|s| - 1] - 48))
  }

  /** Exactly the texts that consist of digits have a value. */
  lemma {:induction false} DigitsExactly(s: seq<byte>)
    ensures Digits(s).Some? <==> forall i :: 0 <= i < |s| ==> IsDigit(s[i])
  {
    if s != [] {
      DigitsExactly(s[..|s| - 1]);
    }
  }

  /** `strconv.Atoi`: an optional sign, at least one digit, a value that fits 64 bits. */
  function Atoi(s: seq<byte>): (r: Option<int64>)
    ensures r.Some? ==> s != [] && IsDigit(s[|s| - 1])
  {
    var signed := s != [] && (s[0] == 43 || s[0] == 45);
    var digits := if signed then s[1..] else s;
    if digits == [] then None
    else
      match Digits(digits)
      case None => None
      case Some(v) =>
        var x: int := if signed && s[0] == 45 then -(v as int) else v;
        if -0x8000_0000_0000_0000 <= x < 0x8000_0000_0000_0000 then Some(x) else None
  }

  /** The decimal digits of a number. */
  function Decimal(n: nat): (s: seq<byte>)
    ensures s != [] && forall i :: 0 <= i < |s| ==> 48 <= s[i] <= 57
  {
    if n < 10 then [48 + n] else Decimal(n / 10) + [48 + n % 10]
  }

  lemma {:induction false} DigitsOfDecimal(zeros: nat, n: nat)
    ensures Digits(Repeat(ZERO, zeros) + Decimal(n)) == Some(n)
  {
    var s := Repeat(ZERO, zeros) + Decimal(n);
    if n >= 10 {
      DigitsOfDecimal(zeros, n / 10);
      assert s[..|s| - 1] == Repeat(ZERO, zeros) + Decimal(n / 10);
    } else {
      assert s[..|s| - 1] == Repeat(ZERO, zeros);
      DigitsOfZeros(zeros);
    }
  }

  lemma {:induction false} DigitsOfZeros(zeros: nat)
    ensures Digits(Repeat(ZERO, zeros)) == Some(0)
  {
    if zeros > 0 {
      DigitsOfZeros(zeros - 1);
      assert Repeat(ZERO, zeros)[..zeros - 1] == Repeat(ZERO, zeros - 1);
    }
  }

  lemma DecimalStep(v: nat, d: byte)
    requires 48 <= d <= 57
    ensures Decimal(10 * v + (d - 48)) == if v == 0 then [d] else Decimal(v) + [d]
  {
  }

  lemma DigitsStep(front: seq<byte>, last: byte)
    requires Digits(front + [last]).Some?
    ensures 48 <= last <= 57 && Digits(front).Some?
    ensures Digits(front + [last]).value == 10 * Digits(front).value + (last - 48)
  {
    assert (front + [last])[..|front|] == front;
  }

  /** Every text of digits is a number written in decimal, perhaps behind zeros. */
  lemma {:induction false} DigitsAreDecimal(s: seq<byte>) returns (zeros: nat)
    requires s != [] && Digits(s).Some?
    ensures s == Repeat(ZERO, zeros) + Decimal(Digits(s).value)
  {
    var front, last := s[..|s| - 1], s[|s| - 1];
    assert s == front + [last];
    DigitsStep(front, last);
    zeros := 0;
    if front == [] {
      DecimalStep(0, last);
    } else {
      zeros := DigitsAreDecimal(front);
      var v := Digits(front).value;
      DecimalStep(v, last);
      if v == 0 {
        zeros := zeros + 1;
        ZeroBefore(zeros, last);
      }
    }
    hide Digits, Decimal;
  }

  lemma ZeroBefore(zeros: nat, last: byte)
    requires zeros > 0
    ensures Repeat(ZERO, zeros - 1) + Decimal(0) + [last] == Repeat(ZERO, zeros) + [last]
  {
    assert Repeat(ZERO, zeros - 1) + [ZERO] == Repeat(ZERO, zeros);
  }

  /** No sign, plus or minus. */
  predicate Sign(sign: seq<byte>) {
    sign == [] || sign == [43] || sign == [45]
  }

  lemma AtoiOfDigits(sign: seq<byte>, digits: seq<byte>)
    requires Sign(sign) && digits != [] && Digits(digits).Some? && IsDigit(digits[0])
    ensures var v: int := if sign == [45] then -(Digits(digits).value as int) else Digits(digits).value;
            Atoi(sign + digits)
            == if -0x8000_0000_0000_0000 <= v < 0x8000_0000_0000_0000 then Some(v) else None
  {
    var s := sign + digits;
    assert sign != [] ==> s[0] == sign[0] && s[1..] == digits;
    assert sign == [] ==> s == digits;
    hide Digits;
  }

  /** Numbers of 64 bits are read from their decimal digits behind any zeros and an optional sign. */
  lemma AtoiReadsDecimal(sign: seq<byte>, zeros: nat, n: nat)
    requires Sign(sign)
    ensures var v: int := if sign == [45] then -(n as int) else n;
            Atoi(sign + (Repeat(ZERO, zeros) + Decimal(n)))
            == if -0x8000_0000_0000_0000 <= v < 0x8000_0000_0000_0000 then Some(v) else None
  {
    var digits := Repeat(ZERO, zeros) + Decimal(n);
    DigitsOfDecimal(zeros, n);
    DigitsExactly(digits);
    hide Digits, Decimal, Atoi;
    AtoiOfDigits(sign, digits);
  }

  /** Nothing else is a number. */
  lemma AtoiReadsOnlyDecimal(s: seq<byte>) returns (sign: seq<byte>, zeros: nat, n: nat)
    requires Atoi(s).Some?
    ensures Sign(sign) && s == sign + (Repeat(ZERO, zeros) + Decimal(n))
    ensures Atoi(s).value == if sign == [45] then -(n as int) else n
  {
    hide Digits, Decimal;
    var signed := s[0] == 43 || s[0] == 45;
    sign := if signed then s[..1] else [];
    var digits := if signed then s[1..] else s;
    zeros := DigitsAreDecimal(digits);
    n := Digits(digits).value;
    assert s == sign + digits;
  }

  /** A fixed-size byte array holding a string, cut or NUL-padded. */
  function Pad(s: seq<byte>, n: nat): (r: seq<byte>)
    ensures |r| == n
    ensures forall i :: 0 <= i < n ==> r[i] == if i < |s| then s[i] else NUL
  {
    Copy(Repeat(NUL, n), s)
  }
}
