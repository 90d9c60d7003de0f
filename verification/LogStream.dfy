/** server/src/log/LogStream.h and LogStream.cpp: the bounded text buffer and the integer printer. */
module LogStream {

  /** kMaxNumericSize: the room a number must find before it is printed. */
  const MAX_NUMERIC_SIZE: nat := 48

  /** The integer types that reach formatInteger, of at most 64 bits. */
  type Integer = v: int | -0x8000_0000_0000_0000 <= v < 0x1_0000_0000_0000_0000

  /** C++ division and remainder by ten, which truncate toward zero. */
  function TruncDiv10(i: int): int {
    if i >= 0 then i / 10 else -(-i / 10)
  }

  function TruncMod10(i: int): int {
    i - 10 * TruncDiv10(i)
  }

  function Abs(i: int): nat {
    if i >= 0 then i else -i
  }

  /** The mirrored table: entry 9 + d is the digit of |d|. */
  const DIGITS: string := "9876543210123456789"

  function DigitOf(d: nat): (c: char)
    requires d < 10
    ensures '0' <= c <= '9'
  {
    '0' + d as char
  }

  lemma MirroredDigit(d: int)
    requires -9 <= d <= 9
    ensures DIGITS[9 + d] == DigitOf(Abs(d))
  {
  }

  /** Decimal digits of n, least significant first: the order in which the loop writes them. */
  function LsdFirst(n: nat): (s: string)
    ensures |s| > 0
  {
    if n < 10 then [DigitOf(n)] else [DigitOf(n % 10)] + LsdFirst(n / 10)
  }

  function Reversed(s: string): (r: string)
    ensures |r| == |s|
  {
    seq(|s|, i requires 0 <= i < |s| => s[|s| - 1 - i])
  }

  /** The text printed for v. */
  function Decimal(v: int): string {
    Reversed(if v < 0 then LsdFirst(Abs(v)) + "-" else LsdFirst(Abs(v)))
  }

  // What a reader makes of a text, independent of how it was printed.

  predicate AllDigits(s: string) {
    forall k :: 0 <= k < |s| ==> '0' <= s[k] <= '9'
  }

  function DigitsValue(s: string): int {
    if s == [] then 0 else DigitsValue(s[..|s| - 1]) * 10 + (s[|s| - 1] as int - '0' as int)
  }

  function Unsigned(s: string): string {
    if s != [] && s[0] == '-' then s[1..] else s
  }

  function ParseInt(s: string): int {
    if s != [] && s[0] == '-' then -DigitsValue(s[1..]) else DigitsValue(s)
  }

  /** Digits without a superfluous leading zero, and no negative zero. */
  predicate CanonicalDigits(d: string) {
    d != [] && AllDigits(d) && (|d| > 1 ==> d[0] != '0')
  }

  predicate Canonical(s: string) {
    CanonicalDigits(Unsigned(s)) && (Unsigned(s) != s ==> Unsigned(s) != "0")
  }

  lemma ReversedCons(c: char, s: string)
    ensures Reversed([c] + s) == Reversed(s) + [c]
  {
  }

  lemma ReversedSnoc(s: string, c: char)
    ensures Reversed(s + [c]) == [c] + Reversed(s)
  {
  }

  lemma {:induction false} DigitsAreExact(n: nat)
    ensures DigitsValue(Reversed(LsdFirst(n))) == n
    ensures CanonicalDigits(Reversed(LsdFirst(n)))
    ensures n > 0 ==> Reversed(LsdFirst(n))[0] != '0'
  {
    var r := Reversed(LsdFirst(n));
    if n < 10 {
      assert r == [DigitOf(n)] && r[..0] == [];
    } else {
      var q := Reversed(LsdFirst(n / 10));
      DigitsAreExact(n / 10);
      ReversedCons(DigitOf(n % 10), LsdFirst(n / 10));
      assert r == q + [DigitOf(n % 10)] && r[..|r| - 1] == q;
    }
  }

  /** The printed text reads back as the value and is written the normal way. */
  lemma DecimalIsExact(v: int)
    ensures ParseInt(Decimal(v)) == v && Canonical(Decimal(v))
  {
    var d := Reversed(LsdFirst(Abs(v)));
    DigitsAreExact(Abs(v));
    if v < 0 {
      ReversedSnoc(LsdFirst(Abs(v)), '-');
      assert Decimal(v) == "-" + d && Decimal(v)[1..] == d;
    }
  }

  lemma {:induction false} CanonicalDigitsArePrinted(d: string)
    requires CanonicalDigits(d)
    ensures DigitsValue(d) >= 0 && d == Reversed(LsdFirst(DigitsValue(d)))
    ensures d[0] != '0' ==> DigitsValue(d) > 0
    decreases |d|
  {
    var front, last := d[..|d| - 1], d[|d| - 1];
    if front == [] {
      var n := last as int - '0' as int;
      assert d == [last] && DigitsValue(d[..0]) == 0;
      assert n == DigitsValue(d);
      assert Reversed(LsdFirst(n)) == [DigitOf(n)];
    } else {
      CanonicalDigitsArePrinted(front);
      var n := DigitsValue(d);
      assert n / 10 == DigitsValue(front) && n % 10 == last as int - '0' as int;
      ReversedCons(DigitOf(n % 10), LsdFirst(n / 10));
      assert d == front + [last];
    }
  }

  /** The printed text is the only normal way to write the value. */
  lemma DecimalIsUnique(s: string)
    requires Canonical(s)
    ensures Decimal(ParseInt(s)) == s
  {
    var d := Unsigned(s);
    CanonicalDigitsArePrinted(d);
    if d != s {
      assert s == "-" + d;
      assert d[0] == '0' ==> |d| == 1 && d == "0";
      ReversedSnoc(LsdFirst(DigitsValue(d)), '-');
    }
  }

  /** The digits are the usual ones, and what a reader makes of a text is the usual value. */
  lemma DigitsByValue(d: nat, s: string)
    requires d < 10
    ensures Decimal(d) == ["0123456789"[d]] && ParseInt(["0123456789"[d]]) == d
    ensures DigitsValue(s + Decimal(d)) == 10 * DigitsValue(s) + d
  {
    assert Decimal(d) == [DigitOf(d)];
    assert (s + Decimal(d))[..|s|] == s;
    assert DigitsValue("") == 0 && Decimal(d)[..0] == "";
  }

  function Pow10(k: nat): nat {
    if k == 0 then 1 else 10 * Pow10(k - 1)
  }

  lemma {:induction false} DigitCount(n: nat, k: nat)
    requires k > 0 && n < Pow10(k)
    ensures |LsdFirst(n)| <= k
  {
    if n >= 10 {
      DigitCount(n / 10, k - 1);
    }
  }

  /** At most 20 digits, or a sign and 19 digits. */
  lemma DecimalFits(v: Integer)
    ensures 1 <= |Decimal(v)| <= 20
    ensures |LsdFirst(Abs(v))| <= if v < 0 then 19 else 20
  {
    assert Pow10(10) == 10_000_000_000;
    assert Pow10(19) == 10_000_000_000_000_000_000;
    DigitCount(Abs(v), if v < 0 then 19 else 20);
  }

  /** std::reverse on buf[lo..hi). */
  method Reverse(buf: array<char>, lo: nat, hi: nat)
    requires lo <= hi <= buf.Length
    modifies buf
    ensures buf[lo..hi] == Reversed(old(buf[lo..hi]))
    ensures forall k :: 0 <= k < lo || hi <= k < buf.Length ==> buf[k] == old(buf[k])
  {
    var i, j := lo, hi;
    while i < j && i < j - 1
      invariant lo <= i <= j <= hi && i - lo == hi - j
      invariant forall k :: i <= k < j ==> buf[k] == old(buf[k])
      invariant forall k :: lo <= k < i || j <= k < hi ==> buf[k] == old(buf[lo + hi - 1 - k])
      invariant forall k :: 0 <= k < lo || hi <= k < buf.Length ==> buf[k] == old(buf[k])
    {
      j := j - 1;
      buf[i], buf[j] := buf[j], buf[i];
      i := i + 1;
    }
    ghost var text, was := buf[lo..hi], old(buf[lo..hi]);
    forall k | 0 <= k < hi - lo
      ensures text[k] == Reversed(was)[k]
    {
      assert text[k] == buf[lo + k] && was[hi - lo - 1 - k] == old(buf[lo + (hi - lo - 1 - k)]);
      assert buf[lo + k] == old(buf[lo + hi - 1 - (lo + k)]);
    }
    assert |text| == |was| == hi - lo;
  }

  /** What the loop still has to write, least significant digit first. */
  function Remaining(i: int, more: bool): string {
    if more then LsdFirst(Abs(i)) else []
  }

  lemma NextDigit(text: string, done: string, i: int) returns (c: char)
    requires text == done + Remaining(i, true)
    ensures -9 <= TruncMod10(i) <= 9 && DIGITS[9 + TruncMod10(i)] == c
    ensures |done| < |text| && text == done + [c] + Remaining(TruncDiv10(i), TruncDiv10(i) != 0)
    ensures Abs(TruncDiv10(i)) < Abs(i) || TruncDiv10(i) == 0
  {
    var q, d := TruncDiv10(i), TruncMod10(i);
    assert Abs(d) == Abs(i) % 10 && Abs(q) == Abs(i) / 10;
    MirroredDigit(d);
    c := DigitOf(Abs(d));
    assert LsdFirst(Abs(i)) == [c] + Remaining(q, q != 0);
  }

  /** The digit loop: writes LsdFirst from buf[at] on; p is the position after the last digit. */
  method WriteDigits(buf: array<char>, at: nat, value: int) returns (p: nat)
    requires at + |LsdFirst(Abs(value))| <= buf.Length
    modifies buf
    ensures p == at + |LsdFirst(Abs(value))| && buf[at..p] == LsdFirst(Abs(value))
    ensures forall k :: 0 <= k < at || p <= k < buf.Length ==> buf[k] == old(buf[k])
  {
    var i := value;
    p := at;
    ghost var text, done: string := LsdFirst(Abs(value)), [];
    var more := true;
    while more
      invariant p == at + |done| && text == done + Remaining(i, more)
      invariant buf[at..p] == done
      invariant forall k :: 0 <= k < at || p <= k < buf.Length ==> buf[k] == old(buf[k])
      decreases Abs(i), more
    {
      ghost var c := NextDigit(text, done, i);
      var lsd := TruncMod10(i);
      i := TruncDiv10(i);
      buf[p] := DIGITS[9 + lsd];
      p := p + 1;
      done := done + [c];
      more := i != 0;
    }
  }

  /** Writes the text of value and a NUL at buf[at..]; len is the length without the NUL. */
  method Convert(buf: array<char>, at: nat, value: Integer) returns (len: nat)
    requires at + MAX_NUMERIC_SIZE <= buf.Length
    modifies buf
    ensures len <= 20
    ensures buf[at..at + len] == Decimal(value) && buf[at + len] == '\0'
    ensures forall k :: 0 <= k < at || at + len < k < buf.Length ==> buf[k] == old(buf[k])
  {
    hide LsdFirst, Reversed;
    DecimalFits(value);
    var p := WriteDigits(buf, at, value);
    ghost var digits := buf[at..p];
    if value < 0 {
      buf[p] := '-';
      p := p + 1;
      assert buf[at..p] == digits + "-";
    }
    buf[p] := '\0';
    assert buf[at..p] == if value < 0 then digits + "-" else digits;
    Reverse(buf, at, p);
    len := p - at;
  }

  function Flatten(pieces: seq<string>): string {
    if pieces == [] then "" else Flatten(pieces[..|pieces| - 1]) + pieces[|pieces| - 1]
  }

  lemma FlattenSnoc(pieces: seq<string>, p: string)
    ensures Flatten(pieces + [p]) == Flatten(pieces) + p
  {
    assert (pieces + [p])[..|pieces|] == pieces;
  }

  lemma {:induction false} FlattenConcat(a: seq<string>, b: seq<string>)
    ensures Flatten(a + b) == Flatten(a) + Flatten(b)
    decreases |b|
  {
    if b == [] {
      assert a + b == a && Flatten(b) == "";
    } else {
      var n := |b| - 1;
      FlattenConcat(a, b[..n]);
      assert (a + b)[..|a + b| - 1] == a + b[..n];
      assert Flatten(a) + (Flatten(b[..n]) + b[n]) == Flatten(a) + Flatten(b[..n]) + b[n];
    }
  }

  /** Characters in front of a cursor that never passes the end of a fixed array. */
  class FixedBuffer {
    const data: array<char>
    var cur: nat
    ghost var pieces: seq<string>  // what was appended since the last reset

    ghost predicate Valid()
      reads this, data
    {
      cur <= data.Length && data[..cur] == Flatten(pieces)
    }

    constructor (size: nat)
      ensures Valid() && fresh(data) && data.Length == size && pieces == [] && cur == 0
    {
      data := new char[size];
      cur, pieces := 0, [];
    }

    function Avail(): nat
      reads this
      requires cur <= data.Length
    {
      data.Length - cur
    }

    /** Appends the whole text, or nothing when it would not leave a free character. */
    method Append(text: string)
      requires Valid()
      modifies this, data
      ensures Valid()
      ensures pieces == old(pieces) + if |text| < old(Avail()) then [text] else []
      ensures cur == old(cur) + if |text| < old(Avail()) then |text| else 0
      ensures data[..cur] == old(data[..cur]) + if |text| < old(data.Length - cur) then text else ""
    {
      if |text| < Avail() {
        forall i | 0 <= i < |text| {
          data[cur + i] := text[i];
        }
        assert data[..cur + |text|] == old(data[..cur]) + text;
        FlattenSnoc(pieces, text);
        cur := cur + |text|;
        pieces := pieces + [text];
      }
    }

    /** Accepts len characters that were written at the cursor. */
    method Add(len: nat)
      requires Valid() && cur + len <= data.Length
      modifies this
      ensures Valid() && cur == old(cur) + len
      ensures pieces == old(pieces) + [data[old(cur)..cur]] && data[..] == old(data[..])
    {
      FlattenSnoc(pieces, data[cur..cur + len]);
      assert data[..cur + len] == data[..cur] + data[cur..cur + len];
      pieces := pieces + [data[cur..cur + len]];
      cur := cur + len;
    }

    method Reset()
      requires Valid()
      modifies this
      ensures Valid() && cur == 0 && pieces == []
    {
      cur, pieces := 0, [];
    }

    /** LogStream::formatInteger: prints the number in place when 48 characters are free. */
    method FormatInteger(v: Integer)
      requires Valid()
      modifies this, data
      ensures Valid()
      ensures pieces == old(pieces) + if old(Avail()) >= MAX_NUMERIC_SIZE then [Decimal(v)] else []
      ensures data[..cur] == old(data[..cur]) + if old(data.Length - cur) >= 48 then Decimal(v) else ""
    {
      if Avail() >= MAX_NUMERIC_SIZE {
        ghost var before := data[..cur];
        var len := Convert(data, cur, v);
        assert data[..cur] == before;
        Add(len);
      }
    }
  }
}
