/** JwtUtils::base64UrlEncode and base64UrlDecode: the unpadded URL alphabet of section 5 of RFC 4648.
    Shifts and masks of the source are written as quotients and remainders by powers of two. */
module Base64Url {
  const UPPER: string := "ABCDEFGHIJKLMNOPQRSTUVWXYZ"

  const LOWER: string := "abcdefghijklmnopqrstuvwxyz"

  const TENS: string := "0123456789"

  /** The encoder's table. */
  const ALPHABET: string := UPPER + LOWER + TENS + "-_"

  /** Strings as the source has them: sequences of 8-bit characters. */
  ghost predicate IsBytes(s: string) {
    forall k :: 0 <= k < |s| ==> s[k] as int < 256
  }

  /** isalnum, '-' or '_'. */
  predicate IsSymbol(c: char) {
    'A' <= c <= 'Z' || 'a' <= c <= 'z' || '0' <= c <= '9' || c == '-' || c == '_'
  }

  /** Entry k of the table, by ranges. */
  function Symbol(k: nat): (c: char)
    requires k < 64
    ensures IsSymbol(c)
  {
    if k < 26 then 'A' + k as char
    else if k < 52 then 'a' + (k - 26) as char
    else if k < 62 then '0' + (k - 52) as char
    else if k == 62 then '-'
    else '_'
  }

  lemma TableIsSymbol(k: nat)
    requires k < 64
    ensures ALPHABET[k] == Symbol(k)
  {
    if k < 26 {
      assert ALPHABET[k] == UPPER[k];
    } else if k < 52 {
      assert ALPHABET[k] == LOWER[k - 26];
    } else if k < 62 {
      assert ALPHABET[k] == TENS[k - 52];
    } else {
      assert ALPHABET[k] == "-_"[k - 62];
    }
  }

  /** The decoder's chain of comparisons; a character outside the alphabet keeps its code. */
  function Sextet(c: char): (k: nat)
    ensures IsSymbol(c) ==> k < 64
  {
    if 'A' <= c <= 'Z' then c as int - 'A' as int
    else if 'a' <= c <= 'z' then c as int - 'a' as int + 26
    else if '0' <= c <= '9' then c as int - '0' as int + 52
    else if c == '-' then 62
    else if c == '_' then 63
    else c as int
  }

  lemma SextetOfSymbol(k: nat)
    requires k < 64
    ensures Sextet(Symbol(k)) == k
  {
  }

  lemma SymbolOfSextet(c: char)
    requires IsSymbol(c)
    ensures Symbol(Sextet(c)) == c
  {
  }

  /** Both ways between a sextet and its symbol are table 2 of RFC 4648, here by the codes: 26 upper-case
      letters, 26 lower-case ones, ten digits, '-' and '_'. */
  lemma TableByValue(k: nat)
    requires k < 64
    ensures Sextet(ALPHABET[k]) == k && Symbol(k) == ALPHABET[k]
    ensures ALPHABET[k] as int == if k < 26 then 65 + k else if k < 52 then 71 + k else if k < 62 then k - 4
                                  else if k == 62 then 45 else 95
  {
    TableIsSymbol(k);
    SextetOfSymbol(k);
  }

  /** Four sextets of three bytes. */
  function Split(a: nat, b: nat, c: nat): (q: (nat, nat, nat, nat))
    requires a < 256 && b < 256 && c < 256
    ensures q.0 < 64 && q.1 < 64 && q.2 < 64 && q.3 < 64
  {
    (a / 4, a % 4 * 16 + b / 16, b % 16 * 4 + c / 64, c % 64)
  }

  /** Three bytes of four sextets. */
  function Join(x: nat, y: nat, z: nat, w: nat): (t: (nat, nat, nat))
    requires x < 64 && y < 64 && z < 64 && w < 64
    ensures t.0 < 256 && t.1 < 256 && t.2 < 256
  {
    (x * 4 + y / 16, y % 16 * 16 + z / 4, z % 4 * 64 + w)
  }

  lemma Digits4(q: nat, r: nat)
    requires r < 4
    ensures (q * 4 + r) / 4 == q && (q * 4 + r) % 4 == r
  {
  }

  lemma Digits16(q: nat, r: nat)
    requires r < 16
    ensures (q * 16 + r) / 16 == q && (q * 16 + r) % 16 == r
  {
  }

  lemma Digits64(q: nat, r: nat)
    requires r < 64
    ensures (q * 64 + r) / 64 == q && (q * 64 + r) % 64 == r
  {
  }

  lemma JoinFirst(a: nat, b: nat, c: nat)
    requires a < 256 && b < 256 && c < 256
    ensures var q := Split(a, b, c); Join(q.0, q.1, q.2, q.3).0 == a
  {
    Digits16(a % 4, b / 16);
  }

  lemma JoinSecond(a: nat, b: nat, c: nat)
    requires a < 256 && b < 256 && c < 256
    ensures var q := Split(a, b, c); Join(q.0, q.1, q.2, q.3).1 == b
  {
    Digits16(a % 4, b / 16);
    Digits4(b % 16, c / 64);
  }

  lemma JoinThird(a: nat, b: nat, c: nat)
    requires a < 256 && b < 256 && c < 256
    ensures var q := Split(a, b, c); Join(q.0, q.1, q.2, q.3).2 == c
  {
    Digits4(b % 16, c / 64);
  }

  lemma JoinOfSplit(a: nat, b: nat, c: nat)
    requires a < 256 && b < 256 && c < 256
    ensures var q := Split(a, b, c); Join(q.0, q.1, q.2, q.3) == (a, b, c)
  {
    hide Split, Join;
    JoinFirst(a, b, c);
    JoinSecond(a, b, c);
    JoinThird(a, b, c);
  }

  lemma SplitEnds(x: nat, y: nat, z: nat, w: nat)
    requires x < 64 && y < 64 && z < 64 && w < 64
    ensures var t := Join(x, y, z, w); var q := Split(t.0, t.1, t.2); q.0 == x && q.3 == w
  {
    Digits4(x, y / 16);
    Digits64(z % 4, w);
  }

  lemma SplitSecond(x: nat, y: nat, z: nat, w: nat)
    requires x < 64 && y < 64 && z < 64 && w < 64
    ensures var t := Join(x, y, z, w); Split(t.0, t.1, t.2).1 == y
  {
    Digits4(x, y / 16);
    Digits16(y % 16, z / 4);
  }

  lemma SplitThird(x: nat, y: nat, z: nat, w: nat)
    requires x < 64 && y < 64 && z < 64 && w < 64
    ensures var t := Join(x, y, z, w); Split(t.0, t.1, t.2).2 == z
  {
    Digits16(y % 16, z / 4);
    Digits64(z % 4, w);
  }

  lemma SplitOfJoin(x: nat, y: nat, z: nat, w: nat)
    requires x < 64 && y < 64 && z < 64 && w < 64
    ensures var t := Join(x, y, z, w); Split(t.0, t.1, t.2) == (x, y, z, w)
  {
    hide Split, Join;
    SplitEnds(x, y, z, w);
    SplitSecond(x, y, z, w);
    SplitThird(x, y, z, w);
  }

  /** The symbols of one group; a short group is padded with zero bytes and gives one symbol more
      than it has bytes. */
  function EncodeGroup(g: string): (r: string)
    requires IsBytes(g) && 1 <= |g| <= 3
    ensures |r| == |g| + 1 && (forall k :: 0 <= k < |r| ==> IsSymbol(r[k]))
  {
    var q := Split(g[0] as int, if |g| > 1 then g[1] as int else 0, if |g| > 2 then g[2] as int else 0);
    [Symbol(q.0), Symbol(q.1), Symbol(q.2), Symbol(q.3)][..|g| + 1]
  }

  function Encode(s: string): (r: string)
    requires IsBytes(s)
  {
    if s == [] then []
    else if |s| <= 3 then EncodeGroup(s)
    else EncodeGroup(s[..3]) + Encode(s[3..])
  }

  ghost predicate AllSymbols(s: string) {
    forall k :: 0 <= k < |s| ==> IsSymbol(s[k])
  }

  /** The bytes of one group of symbols, missing sextets being zero; one byte less than symbols. */
  function DecodeGroup(g: string): (r: string)
    requires 1 <= |g| <= 4 && AllSymbols(g)
    ensures |r| == |g| - 1 && IsBytes(r)
  {
    var t := Join(Sextet(g[0]), if |g| > 1 then Sextet(g[1]) else 0,
                  if |g| > 2 then Sextet(g[2]) else 0, if |g| > 3 then Sextet(g[3]) else 0);
    [t.0 as char, t.1 as char, t.2 as char][..|g| - 1]
  }

  function DecodeSymbols(s: string): (r: string)
    requires AllSymbols(s)
    ensures IsBytes(r)
  {
    if s == [] then []
    else if |s| <= 4 then DecodeGroup(s)
    else DecodeGroup(s[..4]) + DecodeSymbols(s[4..])
  }

  /** The part the decoder reads: up to the first character outside the alphabet. */
  function Body(s: string): (r: string)
    ensures r <= s && AllSymbols(r)
    ensures |r| < |s| ==> !IsSymbol(s[|r|])
  {
    if s == [] || !IsSymbol(s[0]) then [] else [s[0]] + Body(s[1..])
  }

  function Decode(s: string): (r: string)
    ensures IsBytes(r)
  {
    DecodeSymbols(Body(s))
  }

  // ---- Lengths and alphabet

  lemma {:induction false} EncodeShape(s: string)
    requires IsBytes(s)
    ensures |Encode(s)| == (4 * |s| + 2) / 3
    ensures AllSymbols(Encode(s))
    decreases |s|
  {
    if |s| > 3 { EncodeShape(s[3..]); }
  }

  lemma {:induction false} BodyOfSymbols(s: string)
    requires AllSymbols(s)
    ensures Body(s) == s
  {
    if s != [] {
      BodyOfSymbols(s[1..]);
      assert s == [s[0]] + s[1..];
    }
  }

  // ---- Round trip

  /** Dropping the symbols that carry only padding does not change the bytes that are kept. */
  lemma ShortGroup(g: string, q: (nat, nat, nat, nat))
    requires IsBytes(g) && 1 <= |g| <= 3 && q.0 < 64 && q.1 < 64 && q.2 < 64 && q.3 < 64
    ensures var z, w := if |g| > 1 then q.2 else 0, if |g| > 2 then q.3 else 0;
            Join(q.0, q.1, z, w).0 == Join(q.0, q.1, q.2, q.3).0
            && (|g| > 1 ==> Join(q.0, q.1, z, w).1 == Join(q.0, q.1, q.2, q.3).1)
            && (|g| > 2 ==> Join(q.0, q.1, z, w).2 == Join(q.0, q.1, q.2, q.3).2)
  {
  }

  lemma GroupRoundTrip(g: string)
    requires IsBytes(g) && 1 <= |g| <= 3
    ensures DecodeGroup(EncodeGroup(g)) == g
  {
    var a, b, c := g[0] as int, if |g| > 1 then g[1] as int else 0, if |g| > 2 then g[2] as int else 0;
    var q := Split(a, b, c);
    SextetOfSymbol(q.0);
    SextetOfSymbol(q.1);
    SextetOfSymbol(q.2);
    SextetOfSymbol(q.3);
    JoinOfSplit(a, b, c);
    ShortGroup(g, q);
  }

  lemma {:induction false} SymbolsRoundTrip(s: string)
    requires IsBytes(s)
    ensures AllSymbols(Encode(s)) && DecodeSymbols(Encode(s)) == s
    decreases |s|
  {
    EncodeShape(s);
    if 1 <= |s| <= 3 {
      GroupRoundTrip(s);
    } else if |s| > 3 {
      var g, rest := s[..3], s[3..];
      SymbolsRoundTrip(rest);
      GroupRoundTrip(g);
      var e := EncodeGroup(g) + Encode(rest);
      assert e[..4] == EncodeGroup(g) && e[4..] == Encode(rest);
      EncodeShape(rest);
      assert s == g + rest;
    }
  }

  /** Decoding what was encoded gives it back, for every byte string. */
  lemma RoundTrip(s: string)
    requires IsBytes(s)
    ensures Decode(Encode(s)) == s
  {
    SymbolsRoundTrip(s);
    BodyOfSymbols(Encode(s));
  }

  // ---- Canonical strings

  /** Alphabet only, no lone last symbol, and zero in the bits that the tail does not use. */
  predicate CanonicalTail(s: string)
    requires 1 <= |s| <= 4
  {
    |s| == 4 || (|s| == 2 && Sextet(s[1]) % 16 == 0) || (|s| == 3 && Sextet(s[2]) % 4 == 0)
  }

  ghost predicate Canonical(s: string) {
    AllSymbols(s) && (s == [] || if |s| <= 4 then CanonicalTail(s) else Canonical(s[4..]))
  }

  lemma GroupReencodes(g: string)
    requires 1 <= |g| <= 4 && AllSymbols(g) && CanonicalTail(g)
    ensures EncodeGroup(DecodeGroup(g)) == g
  {
    var x, y := Sextet(g[0]), Sextet(g[1]);
    var z, w := if |g| > 2 then Sextet(g[2]) else 0, if |g| > 3 then Sextet(g[3]) else 0;
    SplitOfJoin(x, y, z, w);
    forall k | 0 <= k < |g| {
      SymbolOfSextet(g[k]);
    }
    var t := Join(x, y, z, w);
    var r := DecodeGroup(g);
    assert |g| == 2 ==> t.1 == 0;
    assert |g| == 3 ==> t.2 == 0;
    assert Split(r[0] as int, if |r| > 1 then r[1] as int else 0, if |r| > 2 then r[2] as int else 0) == (x, y, z, w);
  }

  lemma {:induction false} CanonicalReencodes(s: string)
    requires Canonical(s)
    ensures Encode(DecodeSymbols(s)) == s
    decreases |s|
  {
    if 1 <= |s| <= 4 {
      GroupReencodes(s);
    } else if |s| > 4 {
      var g, rest := s[..4], s[4..];
      CanonicalReencodes(rest);
      GroupReencodes(g);
      var d := DecodeGroup(g) + DecodeSymbols(rest);
      assert d[..3] == DecodeGroup(g) && d[3..] == DecodeSymbols(rest);
      assert s == g + rest;
    }
  }

  lemma EncodeGroupIsCanonical(g: string)
    requires IsBytes(g) && 1 <= |g| <= 3
    ensures CanonicalTail(EncodeGroup(g))
  {
    var q := Split(g[0] as int, if |g| > 1 then g[1] as int else 0, 0);
    SextetOfSymbol(q.1);
    SextetOfSymbol(q.2);
  }

  lemma {:induction false} EncodeIsCanonical(s: string)
    requires IsBytes(s)
    ensures Canonical(Encode(s))
    decreases |s|
  {
    EncodeShape(s);
    if 1 <= |s| <= 3 {
      EncodeGroupIsCanonical(s);
    } else if |s| > 3 {
      EncodeIsCanonical(s[3..]);
      EncodeShape(s[3..]);
      assert Encode(s)[4..] == Encode(s[3..]);
    }
  }

  /** Re-encoding what was decoded gives the string back exactly when it is canonical. */
  lemma ReencodesIffCanonical(s: string)
    ensures Encode(Decode(s)) == s <==> Canonical(s)
  {
    if Canonical(s) {
      BodyOfSymbols(s);
      CanonicalReencodes(s);
    } else if Encode(Decode(s)) == s {
      EncodeIsCanonical(Decode(s));
    }
  }

  // ---- The bit string that section 4 of RFC 4648 speaks of

  /** The low w bits of v, most significant first. */
  ghost function Bits(v: nat, w: nat): (r: seq<bool>)
    ensures |r| == w
  {
    if w == 0 then [] else Bits(v / 2, w - 1) + [v % 2 == 1]
  }

  ghost function BytesAsBits(s: string): seq<bool> {
    if s == [] then [] else Bits(s[0] as int, 8) + BytesAsBits(s[1..])
  }

  ghost function SymbolsAsBits(s: string): seq<bool> {
    if s == [] then [] else Bits(Sextet(s[0]), 6) + SymbolsAsBits(s[1..])
  }

  ghost function Zeros(n: nat): seq<bool> {
    seq(n, _ => false)
  }

  function Pow2(n: nat): (p: nat)
    ensures p > 0
  {
    if n == 0 then 1 else 2 * Pow2(n - 1)
  }

  lemma {:induction false} BitsJoin(x: nat, y: nat, hi: nat, lo: nat)
    requires y < Pow2(lo)
    ensures Bits(x * Pow2(lo) + y, hi + lo) == Bits(x, hi) + Bits(y, lo)
    decreases lo
  {
    if lo == 0 {
      assert Bits(x, hi) + [] == Bits(x, hi);
    } else {
      var p := Pow2(lo - 1);
      assert x * Pow2(lo) + y == 2 * (x * p + y / 2) + y % 2;
      BitsJoin(x, y / 2, hi, lo - 1);
      assert Bits(x, hi) + Bits(y, lo) == (Bits(x, hi) + Bits(y / 2, lo - 1)) + [y % 2 == 1];
    }
  }

  lemma {:induction false} ZeroBits(w: nat)
    ensures Bits(0, w) == Zeros(w)
  {
    if w > 0 {
      ZeroBits(w - 1);
      assert Zeros(w) == Zeros(w - 1) + [false];
    }
  }

  lemma Cut2(v: nat, hi: nat)
    ensures Bits(v, hi + 2) == Bits(v / 4, hi) + Bits(v % 4, 2)
  {
    assert Pow2(2) == 4;
    BitsJoin(v / 4, v % 4, hi, 2);
  }

  lemma Cut4(v: nat, hi: nat)
    ensures Bits(v, hi + 4) == Bits(v / 16, hi) + Bits(v % 16, 4)
  {
    assert Pow2(4) == 16;
    BitsJoin(v / 16, v % 16, hi, 4);
  }

  lemma Cut6(v: nat, hi: nat)
    ensures Bits(v, hi + 6) == Bits(v / 64, hi) + Bits(v % 64, 6)
  {
    assert Pow2(6) == 64;
    BitsJoin(v / 64, v % 64, hi, 6);
  }

  lemma Regroup3(x: seq<bool>, y: seq<bool>, z: seq<bool>)
    ensures x + (y + z) == x + y + z
  {
  }

  lemma Regroup4(w: seq<bool>, x: seq<bool>, y: seq<bool>, z: seq<bool>)
    ensures w + x + (y + z) == w + (x + y) + z
  {
  }

  lemma TwoSextets(a: nat, b: nat, c: nat)
    requires a < 256 && b < 256 && c < 256
    ensures var q := Split(a, b, c); Bits(q.0, 6) + Bits(q.1, 6) == Bits(a, 8) + Bits(b / 16, 4)
  {
    hide Bits;
    var q := Split(a, b, c);
    Cut2(a, 6);
    Digits16(a % 4, b / 16);
    Cut4(q.1, 2);
    var x, y, z := Bits(a / 4, 6), Bits(a % 4, 2), Bits(b / 16, 4);
    Regroup3(x, y, z);
  }

  lemma ThreeSextets(a: nat, b: nat, c: nat)
    requires a < 256 && b < 256 && c < 256
    ensures var q := Split(a, b, c);
            Bits(q.0, 6) + Bits(q.1, 6) + Bits(q.2, 6) == Bits(a, 8) + Bits(b, 8) + Bits(c / 64, 2)
  {
    hide Bits;
    var q := Split(a, b, c);
    TwoSextets(a, b, c);
    Cut4(b, 4);
    Digits4(b % 16, c / 64);
    Cut2(q.2, 4);
    var w, x, y, z := Bits(a, 8), Bits(b / 16, 4), Bits(b % 16, 4), Bits(c / 64, 2);
    Regroup4(w, x, y, z);
  }

  lemma FourSextets(a: nat, b: nat, c: nat)
    requires a < 256 && b < 256 && c < 256
    ensures var q := Split(a, b, c);
            Bits(q.0, 6) + Bits(q.1, 6) + Bits(q.2, 6) + Bits(q.3, 6) == Bits(a, 8) + Bits(b, 8) + Bits(c, 8)
  {
    hide Bits;
    ThreeSextets(a, b, c);
    Cut6(c, 2);
    Regroup3(Bits(a, 8) + Bits(b, 8), Bits(c / 64, 2), Bits(c % 64, 6));
  }

  lemma {:induction false} SymbolsAsBitsOfConcat(s: string, t: string)
    ensures SymbolsAsBits(s + t) == SymbolsAsBits(s) + SymbolsAsBits(t)
    decreases |s|
  {
    hide Bits;
    if s == [] {
      assert s + t == t;
    } else {
      SymbolsAsBitsOfConcat(s[1..], t);
      assert (s + t)[1..] == s[1..] + t;
    }
  }

  lemma {:induction false} BytesAsBitsOfConcat(s: string, t: string)
    ensures BytesAsBits(s + t) == BytesAsBits(s) + BytesAsBits(t)
    decreases |s|
  {
    hide Bits;
    if s == [] {
      assert s + t == t;
    } else {
      BytesAsBitsOfConcat(s[1..], t);
      assert (s + t)[1..] == s[1..] + t;
    }
  }

  lemma OneMoreSymbol(s: string, c: char)
    ensures SymbolsAsBits(s + [c]) == SymbolsAsBits(s) + Bits(Sextet(c), 6)
  {
    hide Bits;
    SymbolsAsBitsOfConcat(s, [c]);
    assert SymbolsAsBits([c]) == Bits(Sextet(c), 6) + SymbolsAsBits([]);
  }

  lemma OneMoreByte(s: string, c: char)
    ensures BytesAsBits(s + [c]) == BytesAsBits(s) + Bits(c as int, 8)
  {
    hide Bits;
    BytesAsBitsOfConcat(s, [c]);
    assert BytesAsBits([c]) == Bits(c as int, 8) + BytesAsBits([]);
  }

  lemma FirstSymbols(q: (nat, nat, nat, nat))
    requires q.0 < 64 && q.1 < 64 && q.2 < 64 && q.3 < 64
    ensures var r := [Symbol(q.0), Symbol(q.1), Symbol(q.2), Symbol(q.3)];
            SymbolsAsBits(r[..2]) == Bits(q.0, 6) + Bits(q.1, 6)
            && SymbolsAsBits(r[..3]) == Bits(q.0, 6) + Bits(q.1, 6) + Bits(q.2, 6)
            && SymbolsAsBits(r) == Bits(q.0, 6) + Bits(q.1, 6) + Bits(q.2, 6) + Bits(q.3, 6)
  {
    hide Bits;
    var r := [Symbol(q.0), Symbol(q.1), Symbol(q.2), Symbol(q.3)];
    SextetOfSymbol(q.0);
    SextetOfSymbol(q.1);
    SextetOfSymbol(q.2);
    SextetOfSymbol(q.3);
    OneMoreSymbol([], r[0]);
    OneMoreSymbol([r[0]], r[1]);
    OneMoreSymbol(r[..2], r[2]);
    OneMoreSymbol(r[..3], r[3]);
    assert [] + [r[0]] == [r[0]] && [r[0]] + [r[1]] == r[..2] && r[..2] + [r[2]] == r[..3] && r[..3] + [r[3]] == r;
    assert SymbolsAsBits([r[0]]) == [] + Bits(q.0, 6) == Bits(q.0, 6);
  }

  lemma FirstBytes(g: string)
    requires 1 <= |g|
    ensures BytesAsBits(g[..1]) == Bits(g[0] as int, 8)
    ensures |g| > 1 ==> BytesAsBits(g[..2]) == Bits(g[0] as int, 8) + Bits(g[1] as int, 8)
    ensures |g| > 2 ==> BytesAsBits(g[..3]) == Bits(g[0] as int, 8) + Bits(g[1] as int, 8) + Bits(g[2] as int, 8)
  {
    hide Bits;
    OneMoreByte([], g[0]);
    assert [] + [g[0]] == g[..1] && [] + Bits(g[0] as int, 8) == Bits(g[0] as int, 8);
    if |g| > 1 {
      OneMoreByte(g[..1], g[1]);
      assert g[..1] + [g[1]] == g[..2];
    }
    if |g| > 2 {
      OneMoreByte(g[..2], g[2]);
      assert g[..2] + [g[2]] == g[..3];
    }
  }

  lemma OneByteBits(g: string)
    requires IsBytes(g) && |g| == 1
    ensures SymbolsAsBits(EncodeGroup(g)) == BytesAsBits(g) + Zeros(4)
  {
    hide Bits, BytesAsBits, SymbolsAsBits, Symbol;
    var a := g[0] as int;
    var q := Split(a, 0, 0);
    FirstSymbols(q);
    FirstBytes(g);
    TwoSextets(a, 0, 0);
    ZeroBits(4);
    assert EncodeGroup(g) == [Symbol(q.0), Symbol(q.1), Symbol(q.2), Symbol(q.3)][..2] && g[..1] == g;
  }

  lemma TwoByteBits(g: string)
    requires IsBytes(g) && |g| == 2
    ensures SymbolsAsBits(EncodeGroup(g)) == BytesAsBits(g) + Zeros(2)
  {
    hide Bits, BytesAsBits, SymbolsAsBits, Symbol;
    var a, b := g[0] as int, g[1] as int;
    var q := Split(a, b, 0);
    FirstSymbols(q);
    FirstBytes(g);
    ThreeSextets(a, b, 0);
    ZeroBits(2);
    assert EncodeGroup(g) == [Symbol(q.0), Symbol(q.1), Symbol(q.2), Symbol(q.3)][..3] && g[..2] == g;
  }

  lemma ThreeByteBits(g: string)
    requires IsBytes(g) && |g| == 3
    ensures SymbolsAsBits(EncodeGroup(g)) == BytesAsBits(g) + Zeros(0)
  {
    hide Bits, BytesAsBits, SymbolsAsBits, Symbol;
    var a, b, c := g[0] as int, g[1] as int, g[2] as int;
    var q := Split(a, b, c);
    FirstSymbols(q);
    FirstBytes(g);
    FourSextets(a, b, c);
    assert EncodeGroup(g) == [Symbol(q.0), Symbol(q.1), Symbol(q.2), Symbol(q.3)] && g[..3] == g;
    assert BytesAsBits(g) + Zeros(0) == BytesAsBits(g);
  }

  lemma GroupBits(g: string)
    requires IsBytes(g) && 1 <= |g| <= 3
    ensures SymbolsAsBits(EncodeGroup(g)) == BytesAsBits(g) + Zeros(6 * (|g| + 1) - 8 * |g|)
  {
    hide BytesAsBits, SymbolsAsBits, EncodeGroup;
    if |g| == 1 {
      OneByteBits(g);
    } else if |g| == 2 {
      TwoByteBits(g);
    } else {
      ThreeByteBits(g);
    }
  }

  lemma EncodeCons(s: string)
    requires IsBytes(s) && |s| > 3
    ensures Encode(s) == EncodeGroup(s[..3]) + Encode(s[3..]) && |EncodeGroup(s[..3])| == 4
    ensures IsBytes(s[..3]) && IsBytes(s[3..])
  {
    EncodeShape(s[..3]);
  }

  /** One more group in front. */
  lemma SpellsNext(s: string)
    requires IsBytes(s) && |s| > 3
    requires IsBytes(s[3..]) && 6 * |Encode(s[3..])| >= 8 * |s[3..]|
    requires SymbolsAsBits(Encode(s[3..])) == BytesAsBits(s[3..]) + Zeros(6 * |Encode(s[3..])| - 8 * |s[3..]|)
    ensures 6 * |Encode(s)| >= 8 * |s|
    ensures SymbolsAsBits(Encode(s)) == BytesAsBits(s) + Zeros(6 * |Encode(s)| - 8 * |s|)
  {
    hide SymbolsAsBits, BytesAsBits, Encode, EncodeGroup, IsBytes;
    var g, rest := s[..3], s[3..];
    EncodeCons(s);
    GroupBits(g);
    SymbolsAsBitsOfConcat(EncodeGroup(g), Encode(rest));
    BytesAsBitsOfConcat(g, rest);
    assert s == g + rest && BytesAsBits(g) + Zeros(0) == BytesAsBits(g);
  }

  /** The encoding spells the bit string of the input, six bits a symbol, padded with zero bits. */
  lemma {:induction false} EncodeSpellsTheBits(s: string)
    requires IsBytes(s)
    ensures 6 * |Encode(s)| >= 8 * |s|
    ensures SymbolsAsBits(Encode(s)) == BytesAsBits(s) + Zeros(6 * |Encode(s)| - 8 * |s|)
    decreases |s|
  {
    if |s| > 3 {
      hide SymbolsAsBits, BytesAsBits, Encode, Zeros;
      EncodeCons(s);
      EncodeSpellsTheBits(s[3..]);
      SpellsNext(s);
    } else if s != [] {
      EncodeShape(s);
      GroupBits(s);
    }
  }

  // ---- The loops

  /** The result so far, followed by the encoding of what is pending, is the whole encoding. */
  ghost predicate Encodes(data: string, ret: string, pending: string)
    requires IsBytes(data)
  {
    IsBytes(pending) && Encode(data) == ret + Encode(pending)
  }

  lemma BytesOfConcat(s: string, t: string)
    requires IsBytes(s + t)
    ensures IsBytes(s) && IsBytes(t)
  {
    forall k | 0 <= k < |s|
      ensures s[k] as int < 256
    {
      assert s[k] == (s + t)[k];
    }
    forall k | 0 <= k < |t|
      ensures t[k] as int < 256
    {
      assert t[k] == (s + t)[|s| + k];
    }
  }

  lemma EncodeNext(data: string, ret: string, g: string, rest: string)
    requires IsBytes(data) && Encodes(data, ret, g + rest) && |g| == 3
    ensures IsBytes(g) && Encodes(data, ret + EncodeGroup(g), rest)
  {
    hide EncodeGroup;
    BytesOfConcat(g, rest);
    var s := g + rest;
    assert s[..3] == g && s[3..] == rest;
    if rest == [] {
      assert s == g;
    } else {
      assert ret + (EncodeGroup(g) + Encode(rest)) == ret + EncodeGroup(g) + Encode(rest);
    }
  }

  lemma EncodeLast(data: string, ret: string, g: string)
    requires IsBytes(data) && Encodes(data, ret, g) && |g| < 3
    ensures Encode(data) == if g == [] then ret else ret + EncodeGroup(g)
  {
  }

  method Symbols(g: string) returns (r: string)
    requires IsBytes(g) && 1 <= |g| <= 3
    ensures r == EncodeGroup(g)
  {
    var q := Split(g[0] as int, if |g| > 1 then g[1] as int else 0, if |g| > 2 then g[2] as int else 0);
    TableIsSymbol(q.0);
    TableIsSymbol(q.1);
    TableIsSymbol(q.2);
    TableIsSymbol(q.3);
    var four := [ALPHABET[q.0], ALPHABET[q.1], ALPHABET[q.2], ALPHABET[q.3]];
    r := [];
    for j := 0 to |g| + 1
      invariant r == four[..j]
    {
      r := r + [four[j]];
    }
  }

  method Base64UrlEncode(data: string) returns (ret: string)
    requires IsBytes(data)
    ensures ret == Encode(data)
  {
    hide Encode, EncodeGroup, IsBytes;
    assert data[0..] == data && [] + data == data && [] + Encode(data) == Encode(data);
    ret := [];
    var group: string := [];
    for k := 0 to |data|
      invariant |group| < 3
      invariant Encodes(data, ret, group + data[k..])
    {
      assert group + data[k..] == group + [data[k]] + data[k + 1..];
      group := group + [data[k]];
      if |group| == 3 {
        EncodeNext(data, ret, group, data[k + 1..]);
        var four := Symbols(group);
        ret := ret + four;
        group := [];
        assert [] + data[k + 1..] == data[k + 1..];
      }
    }
    assert group + data[|data|..] == group;
    EncodeLast(data, ret, group);
    if group != [] {
      var tail := Symbols(group);
      ret := ret + tail;
    }
  }

  /** The result so far, followed by the decoding of the pending symbols, is the whole decoding. */
  ghost predicate Decodes(encoded: string, ret: string, pending: string) {
    AllSymbols(pending) && Decode(encoded) == ret + DecodeSymbols(pending)
  }

  lemma DecodeNext(encoded: string, ret: string, g: string, rest: string)
    requires Decodes(encoded, ret, g + rest) && |g| == 4 && AllSymbols(g)
    ensures Decodes(encoded, ret + DecodeGroup(g), rest)
  {
    var s := g + rest;
    assert s[..4] == g && s[4..] == rest;
    assert forall k :: 0 <= k < |rest| ==> rest[k] == s[4 + k];
    if rest == [] {
      assert s == g;
    }
  }

  lemma DecodeLast(encoded: string, ret: string, g: string)
    requires Decodes(encoded, ret, g) && |g| < 4
    ensures Decode(encoded) == if g == [] then ret else ret + DecodeGroup(g)
  {
  }

  lemma BodyNext(s: string, k: nat)
    requires k < |s|
    ensures IsSymbol(s[k]) ==> Body(s[k..]) == [s[k]] + Body(s[k + 1..])
    ensures !IsSymbol(s[k]) ==> Body(s[k..]) == []
  {
    assert s[k..][1..] == s[k + 1..];
  }

  method Bytes(g: string) returns (r: string)
    requires 1 <= |g| <= 4 && AllSymbols(g)
    ensures r == DecodeGroup(g)
  {
    var x, y, z, w := Sextet(g[0]), 0, 0, 0;
    if |g| > 1 { y := Sextet(g[1]); }
    if |g| > 2 { z := Sextet(g[2]); }
    if |g| > 3 { w := Sextet(g[3]); }
    var t := Join(x, y, z, w);
    var three := [t.0 as char, t.1 as char, t.2 as char];
    r := [];
    for j := 0 to |g| - 1
      invariant r == three[..j]
    {
      r := r + [three[j]];
    }
  }

  method Base64UrlDecode(encoded: string) returns (ret: string)
    ensures ret == Decode(encoded)
  {
    hide DecodeSymbols, DecodeGroup, Body, Sextet;
    ret := [];
    var group: string := [];
    var k := 0;
    assert encoded[0..] == encoded && [] + Body(encoded) == Body(encoded);
    while k < |encoded| && encoded[k] != '=' && IsSymbol(encoded[k])
      invariant k <= |encoded| && |group| < 4 && AllSymbols(group)
      invariant Decodes(encoded, ret, group + Body(encoded[k..]))
    {
      BodyNext(encoded, k);
      ghost var rest := Body(encoded[k + 1..]);
      assert group + Body(encoded[k..]) == group + [encoded[k]] + rest;
      group := group + [encoded[k]];
      k := k + 1;
      if |group| == 4 {
        DecodeNext(encoded, ret, group, rest);
        var three := Bytes(group);
        ret := ret + three;
        group := [];
        assert [] + rest == rest;
      }
    }
    if k < |encoded| {
      BodyNext(encoded, k);
    }
    assert group + Body(encoded[k..]) == group;
    DecodeLast(encoded, ret, group);
    if group != [] {
      var tail := Bytes(group);
      ret := ret + tail;
    }
  }
}
