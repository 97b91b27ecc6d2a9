/**
 Join codes: the 5-bit packing loop of GenerateCode and the canonicalising
 NormalizeCode (internal/swarm/codes.go).
 */
module JoinCode {

  type Byte = x: int | 0 <= x < 256

  const CROCKFORD: string := "0123456789ABCDEFGHJKMNPQRSTVWXYZ"

  /** The i-th Crockford symbol: the digits, then the letters without I, L, O and U. */
  function Symbol(i: nat): char
    requires i < 32
  {
    if i < 10 then ('0' as int + i) as char
    else if i < 18 then ('A' as int + (i - 10)) as char
    else if i < 20 then ('J' as int + (i - 18)) as char
    else if i < 22 then ('M' as int + (i - 20)) as char
    else if i < 27 then ('P' as int + (i - 22)) as char
    else ('V' as int + (i - 27)) as char
  }

  lemma {:induction false} SymbolIsCrockford(i: nat)
    requires i < 32
    ensures |CROCKFORD| == 32 && CROCKFORD[i] == Symbol(i)
  {
    if i < 8 { SymbolsUpTo8(i); } else if i < 16 { SymbolsUpTo16(i); } else if i < 24 { SymbolsUpTo24(i); } else { SymbolsUpTo32(i); }
  }

  lemma {:induction false} SymbolsUpTo8(i: nat)
    requires i < 8
    ensures CROCKFORD[i] == Symbol(i)
  {
    if i == 0 {} else if i == 1 {} else if i == 2 {} else if i == 3 {} else if i == 4 {} else if i == 5 {} else if i == 6 {}
  }

  lemma {:induction false} SymbolsUpTo16(i: nat)
    requires 8 <= i < 16
    ensures CROCKFORD[i] == Symbol(i)
  {
    if i == 8 {} else if i == 9 {} else if i == 10 {} else if i == 11 {} else if i == 12 {} else if i == 13 {} else if i == 14 {}
  }

  lemma {:induction false} SymbolsUpTo24(i: nat)
    requires 16 <= i < 24
    ensures CROCKFORD[i] == Symbol(i)
  {
    if i == 16 {} else if i == 17 {} else if i == 18 {} else if i == 19 {} else if i == 20 {} else if i == 21 {} else if i == 22 {}
  }

  lemma {:induction false} SymbolsUpTo32(i: nat)
    requires 24 <= i < 32
    ensures CROCKFORD[i] == Symbol(i)
  {
    if i == 24 {} else if i == 25 {} else if i == 26 {} else if i == 27 {} else if i == 28 {} else if i == 29 {} else if i == 30 {}
  }

  // ---------------------------------------------------------------------
  // Powers of two and big-endian byte values
  // ---------------------------------------------------------------------

  function Pow2(n: nat): (p: nat)
    ensures p > 0
  {
    if n == 0 then 1 else 2 * Pow2(n - 1)
  }

  /** The number a byte string denotes, most significant byte first. */
  function Value(b: seq<Byte>): nat {
    if b == [] then 0 else Value(b[..|b| - 1]) * 256 + b[|b| - 1]
  }

  /** The n-byte big-endian form of the low 8n bits of v. */
  function Bytes(v: nat, n: nat): seq<Byte> {
    if n == 0 then [] else Bytes(v / 256, n - 1) + [v % 256]
  }

  lemma {:induction false} Pow2Plus8(n: nat)
    ensures Pow2(n + 8) == 256 * Pow2(n)
  {
    assert Pow2(n + 8) == 2 * Pow2(n + 7) && Pow2(n + 7) == 2 * Pow2(n + 6) && Pow2(n + 6) == 2 * Pow2(n + 5);
    Pow2Plus5(n);
  }

  lemma {:induction false} Pow2Plus5(n: nat)
    ensures Pow2(n + 5) == 32 * Pow2(n)
  {
    assert Pow2(n + 5) == 2 * Pow2(n + 4) && Pow2(n + 4) == 2 * Pow2(n + 3) && Pow2(n + 3) == 2 * Pow2(n + 2);
    assert Pow2(n + 2) == 2 * Pow2(n + 1) && Pow2(n + 1) == 2 * Pow2(n);
  }

  /** A shift accumulator over k bytes never needs more than 8k bits. */
  lemma {:induction false} ValueBound(b: seq<Byte>)
    ensures Value(b) < Pow2(8 * |b|)
  {
    if b == [] {
    } else {
      ValueBound(b[..|b| - 1]);
      Pow2Plus8(8 * (|b| - 1));
    }
  }

  lemma {:induction false} ValueOfBytes(v: nat, n: nat)
    requires v < Pow2(8 * n)
    ensures |Bytes(v, n)| == n && Value(Bytes(v, n)) == v
  {
    if n == 0 {
    } else {
      Pow2Plus8(8 * (n - 1));
      ValueOfBytes(v / 256, n - 1);
      var s := Bytes(v, n);
      assert s[..|s| - 1] == Bytes(v / 256, n - 1);
    }
  }

  lemma {:induction false} BytesOfValue(b: seq<Byte>)
    ensures Bytes(Value(b), |b|) == b
  {
    if b == [] {
    } else {
      BytesOfValue(b[..|b| - 1]);
      assert b == b[..|b| - 1] + [b[|b| - 1]];
      assert Value(b) / 256 == Value(b[..|b| - 1]) && Value(b) % 256 == b[|b| - 1];
    }
  }

  // ---------------------------------------------------------------------
  // Base-32 symbols
  // ---------------------------------------------------------------------

  /** The n low base-32 digits of t as Crockford symbols, most significant first. */
  function Symbols(t: nat, n: nat): (s: string)
    ensures |s| == n
  {
    if n == 0 then "" else Symbols(t / 32, n - 1) + [Symbol(t % 32)]
  }

  function Format(s: string): string
    requires |s| == 10
  {
    s[0..4] + "-" + s[4..8] + "-" + s[8..10]
  }

  lemma {:induction false} SymbolsInjective(t: nat, u: nat, n: nat)
    requires t < Pow2(5 * n) && u < Pow2(5 * n)
    requires Symbols(t, n) == Symbols(u, n)
    ensures t == u
  {
    if n == 0 {
    } else {
      Pow2Plus5(5 * (n - 1));
      var s, r := Symbols(t, n), Symbols(u, n);
      assert s[..n - 1] == Symbols(t / 32, n - 1) && r[..n - 1] == Symbols(u / 32, n - 1);
      assert s[n - 1] == Symbol(t % 32) && r[n - 1] == Symbol(u % 32);
      SymbolsInjective(t / 32, u / 32, n - 1);
      assert t % 32 == u % 32;
    }
  }

  ghost predicate IsSymbol(c: char) { exists i | 0 <= i < 32 :: Symbol(i) == c }

  /** Every string of n alphabet symbols is the digit string of some number below 32^n. */
  lemma {:induction false} SymbolsSurjective(s: string) returns (t: nat)
    requires forall c | c in s :: IsSymbol(c)
    ensures t < Pow2(5 * |s|) && Symbols(t, |s|) == s
  {
    if s == "" {
      t := 0;
    } else {
      var n := |s|;
      var hi := SymbolsSurjective(s[..n - 1]);
      assert s[n - 1] in s;
      var i :| 0 <= i < 32 && Symbol(i) == s[n - 1];
      t := 32 * hi + i;
      Pow2Plus5(5 * (n - 1));
      assert t / 32 == hi && t % 32 == i;
      assert s == s[..n - 1] + [s[n - 1]];
    }
  }

  // ---------------------------------------------------------------------
  // GenerateCode
  // ---------------------------------------------------------------------

  /** Go's a >> n on a non-negative int. */
  function Shr(a: nat, n: nat): nat {
    if n == 0 then a else Shr(a / 2, n - 1)
  }

  lemma {:induction false} ShrSucc(a: nat, n: nat)
    ensures Shr(a, n + 1) == Shr(a, n) / 2
  {
    if n > 0 {
      ShrSucc(a / 2, n - 1);
    }
  }

  lemma {:induction false} ShrPlus5(a: nat, n: nat)
    ensures Shr(a, n + 5) == Shr(a, n) / 32
  {
    ShrSucc(a, n); ShrSucc(a, n + 1); ShrSucc(a, n + 2); ShrSucc(a, n + 3); ShrSucc(a, n + 4);
  }

  /** One symbol is peeled off the top of an accumulator holding bits + 5 unread bits. */
  lemma {:induction false} Peel(acc: nat, bits: nat, n: nat, sb: string)
    requires sb == Symbols(Shr(acc, bits + 5), n)
    ensures sb + [Symbol(Shr(acc, bits) % 32)] == Symbols(Shr(acc, bits), n + 1)
  {
    ShrPlus5(acc, bits);
  }

  /** Appending a byte to the accumulator leaves the already readable high bits alone. */
  lemma {:induction false} Absorb(acc: nat, x: Byte, bits: nat)
    ensures Shr(acc * 256 + x, bits + 8) == Shr(acc, bits)
  {
    var a := acc * 256 + x;
    assert Shr(a, bits + 8) == Shr(a / 2, bits + 7) == Shr(a / 4, bits + 6) == Shr(a / 8, bits + 5) == Shr(a / 16, bits + 4);
    assert Shr(a / 16, bits + 4) == Shr(a / 32, bits + 3) == Shr(a / 64, bits + 2) == Shr(a / 128, bits + 1) == Shr(a / 256, bits);
  }

  lemma {:induction false} ShrBySix(a: nat)
    ensures Shr(a, 6) == a / 64
  {
    assert Shr(a, 6) == Shr(a / 2, 5) == Shr(a / 4, 4) == Shr(a / 8, 3) == Shr(a / 16, 2) == Shr(a / 32, 1) == Shr(a / 64, 0);
  }

  const ACC_LIMIT := 0x100_0000_0000_0000 // 2^56

  lemma {:induction false} Pow2Constants()
    ensures Pow2(56) == ACC_LIMIT && Pow2(50) == ACC_LIMIT / 64 && Pow2(6) == 64
  {
    Pow2Plus8(0); Pow2Plus8(8); Pow2Plus8(16); Pow2Plus8(24); Pow2Plus8(32); Pow2Plus8(40); Pow2Plus8(48);
    Pow2Plus5(1);
    assert Pow2(1) == 2;
    assert Pow2(56) == 2 * Pow2(55) && Pow2(50) == 2 * Pow2(49);
    Pow2Plus5(50);
  }

  lemma {:induction false} Pow2Mono(m: nat, n: nat)
    requires m <= n
    ensures Pow2(m) <= Pow2(n)
    decreases n - m
  {
    if m < n {
      Pow2Mono(m + 1, n);
    }
  }

  lemma {:induction false} FitsInt(b: seq<Byte>)
    requires |b| <= 7
    ensures Value(b) < ACC_LIMIT
  {
    ValueBound(b);
    Pow2Mono(8 * |b|, 56);
    Pow2Constants();
  }

  lemma {:induction false} ReadByte(b: seq<Byte>, i: nat, acc: nat, bits: nat, sb: string)
    requires i < |b| <= 7 && acc == Value(b[..i]) && sb == Symbols(Shr(acc, bits), |sb|)
    ensures acc * 256 + b[i] == Value(b[..i + 1]) < ACC_LIMIT
    ensures sb == Symbols(Shr(acc * 256 + b[i], bits + 8), |sb|)
  {
    assert b[..i + 1][..i] == b[..i];
    FitsInt(b[..i + 1]);
    Absorb(acc, b[i], bits);
  }

  lemma {:induction false} NextSymbol(acc: nat, bits: nat, sb: string)
    requires sb == Symbols(Shr(acc, bits + 5), |sb|)
    ensures var x := Shr(acc, bits) % 32;
            x < |CROCKFORD| && sb + [CROCKFORD[x]] == Symbols(Shr(acc, bits), |sb| + 1)
  {
    Peel(acc, bits, |sb|, sb);
    SymbolIsCrockford(Shr(acc, bits) % 32);
  }

  /**
   GenerateCode on the 7 random bytes. The result consists of the base-32
   digits of the top 50 of the 56 input bits; the accumulator never
   reaches 2^56, so a 64-bit int holds it.
   */
  method GenerateCode(b: seq<Byte>) returns (code: string)
    requires |b| == 7
    ensures code == Format(Symbols(Value(b) / 64, 10))
  {
    var sb := "";
    var bits := 0;
    var acc := 0;
    var i := 0;
    while i < |b|
      invariant 0 <= i <= |b| && 0 <= bits < 5 && |sb| < 10
      invariant 5 * |sb| + bits == 8 * i
      invariant acc == Value(b[..i])
      invariant sb == Symbols(Shr(acc, bits), |sb|)
    {
      ReadByte(b, i, acc, bits, sb);
      acc := acc * 256 + b[i];
      bits := bits + 8;
      i := i + 1;
      assert acc < ACC_LIMIT;
      while bits >= 5
        invariant 0 <= bits && |sb| < 10
        invariant 5 * |sb| + bits == 8 * i
        invariant sb == Symbols(Shr(acc, bits), |sb|)
      {
        bits := bits - 5;
        NextSymbol(acc, bits, sb);
        sb := sb + [CROCKFORD[Shr(acc, bits) % 32]];
        if |sb| == 10 { break; }
      }
      if |sb| == 10 { break; }
    }
    assert |sb| == 10 && i == 7 && bits == 6;
    assert b[..7] == b;
    ShrBySix(acc);
    var s := sb[..10];
    assert s == sb;
    code := s[0..4] + "-" + s[4..8] + "-" + s[8..10];
  }

  /** The code GenerateCode returns for seven bytes. */
  function CodeOf(b: seq<Byte>): string
    requires |b| == 7
  {
    Format(Symbols(Value(b) / 64, 10))
  }

  // A displayed code read back

  predicate DigitIs(c: char, i: nat) { i < 32 && "0123456789ABCDEFGHJKMNPQRSTVWXYZ"[i] == c }

  ghost predicate IsDigit(c: char) { exists i: nat :: DigitIs(c, i) }

  ghost function DigitOf(c: char): nat {
    if IsDigit(c) then var i: nat :| DigitIs(c, i); i else 0
  }

  /** The number that digits in base 32 denote, the most significant first. */
  ghost function ReadDigits(s: string): nat {
    if s == "" then 0 else 32 * ReadDigits(s[..|s| - 1]) + DigitOf(s[|s| - 1])
  }

  lemma {:induction false} SymbolsDiffer(i: nat, j: nat)
    requires i < 32 && j < 32 && Symbol(i) == Symbol(j)
    ensures i == j
  {
  }

  lemma {:induction false} DigitOfSymbol(i: nat)
    requires i < 32
    ensures IsDigit(Symbol(i)) && DigitOf(Symbol(i)) == i
  {
    SymbolIsCrockford(i);
    assert DigitIs(Symbol(i), i);
    var j := DigitOf(Symbol(i));
    SymbolIsCrockford(j);
    SymbolsDiffer(i, j);
  }

  lemma {:induction false} SymbolsRead(t: nat, n: nat)
    requires t < Pow2(5 * n)
    ensures ReadDigits(Symbols(t, n)) == t
  {
    if n > 0 {
      var hi, d := t / 32, t % 32;
      Pow2Plus5(5 * (n - 1));
      SymbolsRead(hi, n - 1);
      DigitOfSymbol(d);
      ReadSnoc(Symbols(hi, n - 1), Symbol(d));
    }
  }

  lemma {:induction false} ReadSnoc(s: string, c: char)
    ensures ReadDigits(s + [c]) == 32 * ReadDigits(s) + DigitOf(c)
  {
    assert (s + [c])[..|s|] == s;
  }

  lemma {:induction false} SymbolsAreDigits(t: nat, n: nat)
    ensures forall c | c in Symbols(t, n) :: IsDigit(c)
  {
    if n > 0 {
      SymbolsAreDigits(t / 32, n - 1);
      DigitOfSymbol(t % 32);
    }
  }

  /** Seven bytes, the first the most significant. */
  function Drawn(b: seq<Byte>): int
    requires |b| == 7
  {
    b[0] as int * 0x1_0000_0000_0000 + b[1] as int * 0x100_0000_0000 + b[2] as int * 0x1_0000_0000 + b[3] as int * 0x100_0000
    + b[4] as int * 0x1_0000 + b[5] as int * 0x100 + b[6] as int
  }

  lemma {:induction false} DrawnIsValue(b: seq<Byte>)
    requires |b| == 7
    ensures Value(b) == Drawn(b)
  {
    assert b[..7] == b && b[..0] == [];
    ValueStep(b, 0);
    ValueStep(b, 1);
    ValueStep(b, 2);
    ValueStep(b, 3);
    ValueStep(b, 4);
    ValueStep(b, 5);
    ValueStep(b, 6);
  }

  lemma {:induction false} ValueStep(b: seq<Byte>, i: nat)
    requires i < |b|
    ensures Value(b[..i + 1]) == Value(b[..i]) * 256 + b[i]
  {
    assert b[..i + 1][..i] == b[..i];
  }

  lemma {:induction false} Undashed(s: string)
    requires |s| == 10
    ensures var c := Format(s);
            && |c| == 12 && c[4] == '-' && c[9] == '-' && c[0..4] + c[5..9] + c[10..12] == s
  {
    var c := Format(s);
    assert |c| == 12;
    assert c[0..4] == s[0..4];
    assert c[5..9] == s[4..8];
    assert c[10..12] == s[8..10];
    assert s[0..4] + s[4..8] + s[8..10] == s;
  }

  /** The code shows, as four, four and two digits between dashes, the top 50 of the 56 bits drawn. */
  lemma {:induction false} CodeReadsBack(b: seq<Byte>)
    requires |b| == 7
    ensures var c := CodeOf(b);
            && |c| == 12 && c[4] == '-' && c[9] == '-'
            && ReadDigits(c[0..4] + c[5..9] + c[10..12]) == Drawn(b) / 64
            && forall d | d in c[0..4] + c[5..9] + c[10..12] :: IsDigit(d)
  {
    var t := Value(b) / 64;
    TopBits(b);
    SymbolsRead(t, 10);
    SymbolsAreDigits(t, 10);
    DrawnIsValue(b);
    Undashed(Symbols(t, 10));
  }

  lemma {:induction false} FormatInjective(s: string, r: string)
    requires |s| == 10 && |r| == 10 && Format(s) == Format(r)
    ensures s == r
  {
    var f, g := Format(s), Format(r);
    forall i | 0 <= i < 10 ensures s[i] == r[i] {
      var k := if i < 4 then i else if i < 8 then i + 1 else i + 2;
      assert f[k] == s[i] && g[k] == r[i];
    }
  }

  lemma {:induction false} TopBits(b: seq<Byte>)
    requires |b| == 7
    ensures Value(b) / 64 < Pow2(50)
  {
    ValueBound(b);
    Pow2Constants();
  }

  /** Two draws give the same code exactly when their top 50 bits agree. */
  lemma {:induction false} SameCodeIffSameTopBits(b: seq<Byte>, c: seq<Byte>)
    requires |b| == 7 && |c| == 7
    ensures CodeOf(b) == CodeOf(c) <==> Value(b) / 64 == Value(c) / 64
  {
    TopBits(c);
    CodeIs(b, Value(c) / 64);
  }

  /** The k draws whose 50 top bits are t and whose 6 low bits are below k. */
  function Draws(t: nat, k: nat): set<seq<Byte>> {
    if k == 0 then {} else Draws(t, k - 1) + {Bytes(64 * t + (k - 1), 7)}
  }

  lemma {:induction false} BytesIff(b: seq<Byte>, v: nat, n: nat)
    requires |b| == n && v < Pow2(8 * n)
    ensures Bytes(v, n) == b <==> Value(b) == v
  {
    ValueOfBytes(v, n);
    BytesOfValue(b);
  }

  lemma {:induction false} DrawMember(t: nat, k: nat, b: seq<Byte>)
    requires t < Pow2(50) && k <= 64 && |b| == 7
    ensures b in Draws(t, k) <==> 64 * t <= Value(b) < 64 * t + k
  {
    if k > 0 {
      var v := 64 * t + (k - 1);
      DrawMember(t, k - 1, b);
      Pow2Constants();
      BytesIff(b, v, 7);
      assert b in Draws(t, k) <==> b in Draws(t, k - 1) || b == Bytes(v, 7);
    }
  }

  lemma {:induction false} LastDraw(t: nat, k: nat)
    requires t < Pow2(50) && k < 64
    ensures |Bytes(64 * t + k, 7)| == 7 && Value(Bytes(64 * t + k, 7)) == 64 * t + k
  {
    Pow2Constants();
    ValueOfBytes(64 * t + k, 7);
  }

  lemma {:induction false} DrawsCount(t: nat, k: nat)
    requires t < Pow2(50) && k <= 64
    ensures |Draws(t, k)| == k && forall b | b in Draws(t, k) :: |b| == 7
  {
    if k > 0 {
      var d := Bytes(64 * t + (k - 1), 7);
      DrawsCount(t, k - 1);
      LastDraw(t, k - 1);
      DrawMember(t, k - 1, d);
      assert Draws(t, k) == Draws(t, k - 1) + {d};
    }
  }

  lemma {:induction false} DrawsExact(t: nat, k: nat)
    requires t < Pow2(50) && k <= 64
    ensures |Draws(t, k)| == k
    ensures forall b | |b| == 7 :: b in Draws(t, k) <==> 64 * t <= Value(b) < 64 * t + k
  {
    DrawsCount(t, k);
    forall b: seq<Byte> | |b| == 7
      ensures b in Draws(t, k) <==> 64 * t <= Value(b) < 64 * t + k
    {
      DrawMember(t, k, b);
    }
  }

  /** Every 10-symbol code arises from exactly 64 of the 2^56 draws. */
  lemma {:induction false} EachCodeHas64Draws(s: string) returns (draws: set<seq<Byte>>)
    requires |s| == 10 && forall c | c in s :: IsSymbol(c)
    ensures |draws| == 64
    ensures forall b | |b| == 7 :: b in draws <==> CodeOf(b) == Format(s)
  {
    var t := SymbolsSurjective(s);
    DrawsExact(t, 64);
    draws := Draws(t, 64);
    forall b: seq<Byte> | |b| == 7
      ensures b in draws <==> CodeOf(b) == Format(s)
    {
      CodeIs(b, t);
    }
  }

  lemma {:induction false} CodeIs(b: seq<Byte>, t: nat)
    requires |b| == 7 && t < Pow2(50)
    ensures CodeOf(b) == Format(Symbols(t, 10)) <==> Value(b) / 64 == t
  {
    TopBits(b);
    if CodeOf(b) == Format(Symbols(t, 10)) {
      FormatInjective(Symbols(Value(b) / 64, 10), Symbols(t, 10));
      SymbolsInjective(Value(b) / 64, t, 10);
    }
  }

  // ---------------------------------------------------------------------
  // NormalizeCode
  // ---------------------------------------------------------------------

  predicate IsFiller(c: char) { c == '-' || c == ' ' }

  function Strip(s: string): string {
    if s == "" then "" else (if IsFiller(s[0]) then "" else [s[0]]) + Strip(s[1..])
  }

  /** Upper-casing: ASCII letters and the two other letters with an ASCII capital. */
  function Upper(c: char): char {
    if 'a' <= c <= 'z' then (c as int - 32) as char
    else if c == '\U{0131}' then 'I'
    else if c == '\U{017F}' then 'S'
    else c
  }

  function Lookalike(c: char): char {
    if c == 'O' then '0' else if c == 'I' || c == 'L' then '1' else c
  }

  function MapChars(f: char -> char, s: string): (r: string)
    ensures |r| == |s| && forall i | 0 <= i < |s| :: r[i] == f(s[i])
  {
    if s == "" then "" else [f(s[0])] + MapChars(f, s[1..])
  }

  function NormalizeCode(s: string): string {
    MapChars(Lookalike, MapChars(Upper, Strip(s)))
  }

  /** Two letters a reader of a code may confuse or type in the other case. */
  predicate SameSymbol(a: char, b: char) {
    || a == b
    || Upper(a) == Upper(b)
    || (a in "0oO" && b in "0oO")
    || (a in "1iIlL\U{0131}" && b in "1iIlL\U{0131}")
  }

  /** s and t spell the same code: fillers anywhere, then symbol by symbol. */
  predicate SameSpelling(s: string, t: string) {
    && |Strip(s)| == |Strip(t)|
    && forall i | 0 <= i < |Strip(s)| :: SameSymbol(Strip(s)[i], Strip(t)[i])
  }

  lemma {:induction false} NormalizedChars(s: string)
    ensures |NormalizeCode(s)| == |Strip(s)|
    ensures forall i | 0 <= i < |Strip(s)| :: NormalizeCode(s)[i] == Lookalike(Upper(Strip(s)[i]))
  {
  }

  lemma {:induction false} SameSymbolExact(a: char, b: char)
    ensures SameSymbol(a, b) <==> Lookalike(Upper(a)) == Lookalike(Upper(b))
  {
  }

  /** Normalisation identifies exactly the spellings of one code. */
  lemma {:induction false} NormalizeIdentifiesSpellings(s: string, t: string)
    ensures NormalizeCode(s) == NormalizeCode(t) <==> SameSpelling(s, t)
  {
    NormalizedChars(s);
    NormalizedChars(t);
    var a, b := Strip(s), Strip(t);
    if SameSpelling(s, t) {
      forall i | 0 <= i < |a| ensures NormalizeCode(s)[i] == NormalizeCode(t)[i] { SameSymbolExact(a[i], b[i]); }
    }
    if NormalizeCode(s) == NormalizeCode(t) {
      forall i | 0 <= i < |a| ensures SameSymbol(a[i], b[i]) {
        assert NormalizeCode(s)[i] == NormalizeCode(t)[i];
        SameSymbolExact(a[i], b[i]);
      }
    }
  }

  lemma {:induction false} StripKeeps(s: string)
    requires forall c | c in s :: !IsFiller(c)
    ensures Strip(s) == s
  {
    if s != "" {
      StripKeeps(s[1..]);
      assert s == [s[0]] + s[1..];
    }
  }

  lemma {:induction false} StripConcat(s: string, t: string)
    ensures Strip(s + t) == Strip(s) + Strip(t)
  {
    if s == "" {
      assert s + t == t;
    } else {
      assert (s + t)[1..] == s[1..] + t;
      StripConcat(s[1..], t);
    }
  }

  lemma {:induction false} StripHasNoFiller(s: string)
    ensures forall c | c in Strip(s) :: !IsFiller(c)
  {
    if s != "" {
      StripHasNoFiller(s[1..]);
    }
  }

  lemma {:induction false} CanonicalChar(c: char)
    requires !IsFiller(c)
    ensures !IsFiller(Lookalike(Upper(c))) && Lookalike(Upper(Lookalike(Upper(c)))) == Lookalike(Upper(c))
  {
  }

  lemma {:induction false} NormalizedIsCanonical(s: string, i: nat)
    requires i < |NormalizeCode(s)|
    ensures !IsFiller(NormalizeCode(s)[i]) && Lookalike(Upper(NormalizeCode(s)[i])) == NormalizeCode(s)[i]
  {
    NormalizedChars(s);
    StripHasNoFiller(s);
    assert Strip(s)[i] in Strip(s);
    CanonicalChar(Strip(s)[i]);
  }

  lemma {:induction false} CanonicalStays(n: string)
    requires forall i | 0 <= i < |n| :: !IsFiller(n[i]) && Lookalike(Upper(n[i])) == n[i]
    ensures NormalizeCode(n) == n
  {
    StripKeeps(n);
    NormalizedChars(n);
  }

  lemma {:induction false} NormalizeIdempotent(s: string)
    ensures NormalizeCode(NormalizeCode(s)) == NormalizeCode(s)
  {
    var n := NormalizeCode(s);
    forall i | 0 <= i < |n| ensures !IsFiller(n[i]) && Lookalike(Upper(n[i])) == n[i] { NormalizedIsCanonical(s, i); }
    CanonicalStays(n);
  }

  lemma {:induction false} SymbolIsCanonical(c: char)
    requires IsSymbol(c)
    ensures !IsFiller(c) && Lookalike(Upper(c)) == c
  {
  }

  lemma {:induction false} SymbolsAreSymbols(t: nat, n: nat)
    ensures forall c | c in Symbols(t, n) :: IsSymbol(c)
  {
    if n > 0 {
      SymbolsAreSymbols(t / 32, n - 1);
    }
  }

  lemma {:induction false} StripDashed(a: string, b: string)
    requires forall c | c in a :: !IsFiller(c)
    ensures Strip(a + "-" + b) == a + Strip(b)
  {
    StripKeeps(a);
    StripConcat(a + "-", b);
    StripConcat(a, "-");
    assert Strip("-") == "";
    assert a + "" == a;
  }

  lemma {:induction false} StripFormatted(s: string)
    requires |s| == 10 && forall c | c in s :: !IsFiller(c)
    ensures Strip(Format(s)) == s
  {
    var a, b, d := s[0..4], s[4..8], s[8..10];
    assert Format(s) == a + "-" + (b + "-" + d);
    StripDashed(a, b + "-" + d);
    StripDashed(b, d);
    StripKeeps(d);
    assert a + (b + d) == s;
  }

  /** The canonical form of a displayed code is its ten symbols without the dashes. */
  lemma {:induction false} NormalizeFormatted(s: string)
    requires |s| == 10 && forall c | c in s :: IsSymbol(c)
    ensures NormalizeCode(Format(s)) == s
  {
    forall c | c in s ensures !IsFiller(c) && Lookalike(Upper(c)) == c { SymbolIsCanonical(c); }
    StripFormatted(s);
    NormalizedChars(Format(s));
  }

  /** A presented string passes for a generated code exactly when it is one of its spellings. */
  lemma {:induction false} GeneratedCodeSpellings(b: seq<Byte>, typed: string)
    requires |b| == 7
    ensures NormalizeCode(CodeOf(b)) == Symbols(Value(b) / 64, 10)
    ensures NormalizeCode(typed) == NormalizeCode(CodeOf(b)) <==> SameSpelling(typed, CodeOf(b))
    ensures SameSpelling(typed, CodeOf(b)) ==> |NormalizeCode(typed)| == 10
  {
    SymbolsAreSymbols(Value(b) / 64, 10);
    NormalizeFormatted(Symbols(Value(b) / 64, 10));
    NormalizeIdentifiesSpellings(typed, CodeOf(b));
  }
}
