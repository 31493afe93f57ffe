/** The string operations that the signature header, the allowlist and the tokenizer are written with. */
module Text {
  import opened ByteStrings
  import opened Int64
  import opened Options

  /** The characters that count as white space. */
  predicate IsSpace(c: char) {
    var code := c as int;
    9 <= code <= 13 || code == 32 || code == 0x85 || code == 0xA0 || code == 0x1680 || 0x2000 <= code <= 0x200A ||
    code == 0x2028 || code == 0x2029 || code == 0x202F || code == 0x205F || code == 0x3000
  }

  /** The Unicode characters with the property White_Space, written out. */
  const WHITE_SPACE: set<char> := {
    '\t', '\n', '\U{000B}', '\U{000C}', '\r', ' ', '\U{0085}', '\U{00A0}', '\U{1680}', '\U{2000}', '\U{2001}', '\U{2002}',
    '\U{2003}', '\U{2004}', '\U{2005}', '\U{2006}', '\U{2007}', '\U{2008}', '\U{2009}', '\U{200A}', '\U{2028}', '\U{2029}',
    '\U{202F}', '\U{205F}', '\U{3000}'
  }

  lemma SpacesAre(c: char)
    ensures IsSpace(c) <==> c in WHITE_SPACE
  {
  }

  // ----- Trimming -----

  function TrimStart(s: string): string {
    if s != [] && IsSpace(s[0]) then TrimStart(s[1..]) else s
  }

  function TrimEnd(s: string): string {
    if s != [] && IsSpace(s[|s| - 1]) then TrimEnd(s[..|s| - 1]) else s
  }

  function Trim(s: string): string {
    TrimEnd(TrimStart(s))
  }

  /** Neither end is white space. */
  predicate Trimmed(s: string) {
    s != [] ==> !IsSpace(s[0]) && !IsSpace(s[|s| - 1])
  }

  lemma {:induction false} TrimStartCuts(s: string)
    ensures TrimStart(s) != [] ==> !IsSpace(TrimStart(s)[0])
    ensures forall c :: c in TrimStart(s) ==> c in s
  {
    if s != [] && IsSpace(s[0]) {
      TrimStartCuts(s[1..]);
    }
  }

  lemma {:induction false} TrimEndCuts(s: string)
    ensures TrimEnd(s) <= s
    ensures TrimEnd(s) != [] ==> !IsSpace(TrimEnd(s)[|TrimEnd(s)| - 1])
  {
    if s != [] && IsSpace(s[|s| - 1]) {
      TrimEndCuts(s[..|s| - 1]);
    }
  }

  lemma TrimTrims(s: string)
    ensures Trimmed(Trim(s))
    ensures forall c :: c in Trim(s) ==> c in s
  {
    TrimStartCuts(s);
    TrimEndCuts(TrimStart(s));
  }

  predicate AllSpace(s: string) {
    forall i :: 0 <= i < |s| ==> IsSpace(s[i])
  }

  lemma {:induction false} TrimStartIs(s: string) returns (k: nat)
    ensures k <= |s| && AllSpace(s[..k]) && TrimStart(s) == s[k..]
  {
    if s != [] && IsSpace(s[0]) {
      k := TrimStartIs(s[1..]);
      assert s[..k + 1] == [s[0]] + s[1..][..k] && s[k + 1..] == s[1..][k..];
      k := k + 1;
    } else {
      k := 0;
    }
  }

  lemma {:induction false} TrimEndIs(s: string) returns (k: nat)
    ensures k <= |s| && AllSpace(s[k..]) && TrimEnd(s) == s[..k]
  {
    if s != [] && IsSpace(s[|s| - 1]) {
      var front := s[..|s| - 1];
      k := TrimEndIs(front);
      assert s[k..] == front[k..] + [s[|s| - 1]] && s[..k] == front[..k];
    } else {
      k := |s|;
    }
  }

  lemma TrimCuts(s: string) returns (j: nat, k: nat)
    ensures j <= k <= |s| && Trim(s) == s[j..k] && AllSpace(s[..j]) && AllSpace(s[k..])
  {
    j := TrimStartIs(s);
    var n := TrimEndIs(s[j..]);
    k := j + n;
    assert s[j..][..n] == s[j..k] && s[j..][n..] == s[k..];
  }

  /** Trimming takes away nothing but white space, at the ends, and leaves none there. */
  lemma TrimIs(s: string) returns (before: string, after: string)
    ensures AllSpace(before) && AllSpace(after) && s == before + Trim(s) + after
    ensures Trimmed(Trim(s))
  {
    TrimTrims(s);
    var j, k := TrimCuts(s);
    before, after := s[..j], s[k..];
    assert s == s[..j] + s[j..k] + s[k..];
  }

  lemma TrimmedStays(s: string)
    requires Trimmed(s)
    ensures Trim(s) == s
  {
  }

  lemma TrimSkipsOne(s: string)
    ensures Trim(" " + s) == Trim(s)
  {
    assert (" " + s)[1..] == s;
  }

  // ----- Splitting -----

  /** The parts of a string that starts with `c`, given the parts of the rest. */
  function Glued(c: char, rest: seq<string>, sep: char): (parts: seq<string>)
    requires rest != []
    ensures parts != []
  {
    if c == sep then [[]] + rest else [[c] + rest[0]] + rest[1..]
  }

  function Split(s: string, sep: char): (parts: seq<string>)
    ensures parts != []
  {
    if s == [] then [[]] else Glued(s[0], Split(s[1..], sep), sep)
  }

  lemma {:induction false} SplitWhole(s: string, sep: char)
    requires sep !in s
    ensures Split(s, sep) == [s]
  {
    if s != [] {
      SplitWhole(s[1..], sep);
      assert [s[0]] + s[1..] == s;
    }
  }

  lemma GluedJoined(c: char, a: seq<string>, b: seq<string>, sep: char)
    requires a != []
    ensures Glued(c, a + b, sep) == Glued(c, a, sep) + b
  {
    assert (a + b)[0] == a[0] && (a + b)[1..] == a[1..] + b;
  }

  lemma {:induction false} SplitJoined(a: string, b: string, sep: char)
    ensures Split(a + [sep] + b, sep) == Split(a, sep) + Split(b, sep)
  {
    var s := a + [sep] + b;
    if a == [] {
      assert s[0] == sep && s[1..] == b;
    } else {
      assert s[0] == a[0] && s[1..] == a[1..] + [sep] + b;
      SplitJoined(a[1..], b, sep);
      GluedJoined(a[0], Split(a[1..], sep), Split(b, sep), sep);
    }
  }

  lemma SplitTwo(a: string, b: string, sep: char)
    requires sep !in a && sep !in b
    ensures Split(a + [sep] + b, sep) == [a, b]
  {
    SplitJoined(a, b, sep);
    SplitWhole(a, sep);
    SplitWhole(b, sep);
  }

  lemma {:induction false} PartsHaveNoSeparator(s: string, sep: char)
    ensures forall part :: part in Split(s, sep) ==> sep !in part
  {
    if s != [] {
      PartsHaveNoSeparator(s[1..], sep);
      assert Split(s[1..], sep)[0] in Split(s[1..], sep);
    }
  }

  datatype Pair = Pair(left: string, right: string)

  /** Cuts at the first separator. */
  function SplitOnce(s: string, sep: char): Option<Pair> {
    if s == [] then None
    else if s[0] == sep then Some(Pair([], s[1..]))
    else
      var rest := SplitOnce(s[1..], sep);
      if rest.None? then None else Some(Pair([s[0]] + rest.value.left, rest.value.right))
  }

  /** Cuts at the last separator. */
  function RSplitOnce(s: string, sep: char): Option<Pair> {
    if s == [] then None
    else
      var n := |s| - 1;
      if s[n] == sep then Some(Pair(s[..n], []))
      else
        var rest := RSplitOnce(s[..n], sep);
        if rest.None? then None else Some(Pair(rest.value.left, rest.value.right + [s[n]]))
  }

  lemma {:induction false} SplitOnceAt(a: string, b: string, sep: char)
    requires sep !in a
    ensures SplitOnce(a + [sep] + b, sep) == Some(Pair(a, b))
  {
    var s := a + [sep] + b;
    if a == [] {
      assert s[1..] == b;
    } else {
      assert s[1..] == a[1..] + [sep] + b;
      SplitOnceAt(a[1..], b, sep);
      assert [a[0]] + a[1..] == a;
    }
  }

  lemma {:induction false} SplitOnceParts(s: string, sep: char)
    ensures SplitOnce(s, sep).None? <==> sep !in s
    ensures SplitOnce(s, sep).Some? ==>
      var p := SplitOnce(s, sep).value;
      s == p.left + [sep] + p.right && sep !in p.left
  {
    if s != [] {
      SplitOnceParts(s[1..], sep);
      assert s == [s[0]] + s[1..];
    }
  }

  lemma {:induction false} RSplitOnceAt(a: string, b: string, sep: char)
    requires sep !in b
    ensures RSplitOnce(a + [sep] + b, sep) == Some(Pair(a, b))
    decreases b
  {
    var s := a + [sep] + b;
    if b == [] {
      assert s[..|s| - 1] == a;
    } else {
      var front := b[..|b| - 1];
      assert s[..|s| - 1] == a + [sep] + front;
      RSplitOnceAt(a, front, sep);
      assert front + [b[|b| - 1]] == b;
    }
  }

  lemma {:induction false} RSplitOnceParts(s: string, sep: char)
    ensures RSplitOnce(s, sep).None? <==> sep !in s
    ensures RSplitOnce(s, sep).Some? ==>
      var p := RSplitOnce(s, sep).value;
      s == p.left + [sep] + p.right && sep !in p.right
    decreases s
  {
    if s != [] {
      RSplitOnceParts(s[..|s| - 1], sep);
      assert s == s[..|s| - 1] + [s[|s| - 1]];
    }
  }

  // ----- Letters -----

  function LowerChar(c: char): char {
    if 'A' <= c <= 'Z' then (c as int + 32) as char else c
  }

  /** Lower case, of the ASCII letters only. */
  function Lower(s: string): (l: string)
    ensures |l| == |s|
  {
    seq(|s|, i requires 0 <= i < |s| => LowerChar(s[i]))
  }

  /** Every capital becomes its small letter, the one as far behind `a` as it is behind `A`, and nothing else changes; so
      no capital is left. */
  lemma LowerIs(s: string, i: nat)
    requires i < |s|
    ensures 'A' <= s[i] <= 'Z' ==> 'a' <= Lower(s)[i] <= 'z' && Lower(s)[i] - 'a' == s[i] - 'A'
    ensures !('A' <= s[i] <= 'Z') ==> Lower(s)[i] == s[i]
  {
  }

  lemma LowerAgain(s: string)
    ensures Lower(Lower(s)) == Lower(s)
  {
  }

  /** Lower case neither makes nor unmakes white space or a separator. */
  lemma LowerKeepsShape(s: string)
    ensures Trimmed(s) ==> Trimmed(Lower(s))
    ensures ',' !in s ==> ',' !in Lower(s)
  {
  }

  // ----- Decimal numbers -----

  predicate IsDigit(c: char) {
    '0' <= c <= '9'
  }

  function DigitChar(n: nat): char
    requires n < 10
  {
    (n + 48) as char
  }

  function Digits(n: nat): string {
    if n < 10 then [DigitChar(n)] else Digits(n / 10) + [DigitChar(n % 10)]
  }

  function PrintInt(i: int): string {
    if i < 0 then "-" + Digits(-i) else Digits(i)
  }

  predicate AllDigits(s: string) {
    forall c :: c in s ==> IsDigit(c)
  }

  function DigitsValue(s: string): nat
    requires AllDigits(s)
  {
    if s == [] then 0
    else
      assert s[|s| - 1] in s;
      DigitsValue(s[..|s| - 1]) * 10 + (s[|s| - 1] as int - 48)
  }

  /** An optional sign, at least one digit, nothing else, and a value that fits. */
  function ParseI64(s: string): Option<int> {
    var signed := s != [] && (s[0] == '-' || s[0] == '+');
    var digits := if signed then s[1..] else s;
    if digits == [] || !AllDigits(digits) then None
    else
      var magnitude: int := DigitsValue(digits);
      var value := if signed && s[0] == '-' then -magnitude else magnitude;
      if I64_MIN <= value <= I64_MAX then Some(value) else None
  }

  lemma {:induction false} DigitsRead(n: nat)
    ensures Digits(n) != [] && AllDigits(Digits(n)) && DigitsValue(Digits(n)) == n
  {
    if n >= 10 {
      DigitsRead(n / 10);
      assert Digits(n)[..|Digits(n)| - 1] == Digits(n / 10);
    } else {
      assert Digits(n)[..0] == [];
    }
  }

  /** Every 64-bit number reads back as what was printed. */
  lemma ParsePrint(i: int)
    requires I64_MIN <= i <= I64_MAX
    ensures ParseI64(PrintInt(i)) == Some(i)
  {
    DigitsRead(if i < 0 then -i else i);
    if i < 0 {
      assert PrintInt(i)[1..] == Digits(-i);
    } else {
      assert IsDigit(Digits(i)[0]);
    }
  }

  /** Zeros in front do not change a number, and each digit behind it is worth itself, what is before it ten times as
      much. */
  lemma {:induction false} DigitsCount(s: string)
    requires AllDigits(s)
    ensures DigitsValue("0" + s) == DigitsValue(s)
    ensures forall n: nat :: n < 10 ==> AllDigits(s + Digits(n)) && DigitsValue(s + Digits(n)) == 10 * DigitsValue(s) + n
  {
    forall n: nat | n < 10 ensures AllDigits(s + Digits(n)) && DigitsValue(s + Digits(n)) == 10 * DigitsValue(s) + n {
      assert (s + Digits(n))[..|s|] == s;
    }
    if s == [] {
      assert "0"[..0] == [] && "0" + s == "0";
    } else {
      DigitsCount(s[..|s| - 1]);
      assert ("0" + s)[..|s|] == "0" + s[..|s| - 1];
    }
  }

  /** What reads as a number: an optional sign and at least one digit, as long as the value has room in 64 bits. */
  lemma ParseSigned(digits: string)
    requires digits != [] && AllDigits(digits)
    ensures var n: int := DigitsValue(digits);
            && ParseI64(digits) == ParseI64("+" + digits) == (if n <= I64_MAX then Some(n) else None)
            && ParseI64("-" + digits) == if -n >= I64_MIN then Some(-n) else None
  {
    assert digits[0] in digits;
    assert ("+" + digits)[1..] == digits && ("-" + digits)[1..] == digits;
  }

  lemma ParseReadsOnlyNumbers(s: string)
    requires ParseI64(s).Some?
    ensures exists digits :: digits != [] && AllDigits(digits) && (s == digits || s == "+" + digits || s == "-" + digits)
  {
    if s[0] == '-' || s[0] == '+' {
      assert s == [s[0]] + s[1..] && AllDigits(s[1..]);
    }
  }

  lemma PrintIntChars(i: int)
    ensures PrintInt(i) != []
    ensures forall c :: c in PrintInt(i) ==> IsDigit(c) || c == '-'
  {
    DigitsRead(if i < 0 then -i else i);
  }

  // ----- Hexadecimal -----

  function HexChar(n: nat): char
    requires n < 16
  {
    if n < 10 then (n + 48) as char else (n + 87) as char
  }

  /** The value of a hexadecimal digit, of either case. */
  function HexValue(c: char): Option<nat> {
    if '0' <= c <= '9' then Some(c as int - 48)
    else if 'a' <= c <= 'f' then Some(c as int - 87)
    else if 'A' <= c <= 'F' then Some(c as int - 55)
    else None
  }

  function HexEncode(bytes: Bytes): string {
    if bytes == [] then []
    else [HexChar(bytes[0] as int / 16), HexChar(bytes[0] as int % 16)] + HexEncode(bytes[1..])
  }

  function HexDecode(s: string): Option<Bytes> {
    if s == [] then Some([])
    else if |s| == 1 then None
    else
      var high, low, rest := HexValue(s[0]), HexValue(s[1]), HexDecode(s[2..]);
      if high.None? || low.None? || high.value > 15 || low.value > 15 || rest.None? then None
      else Some([(high.value * 16 + low.value) as byte] + rest.value)
  }

  lemma {:induction false} HexRoundTrip(bytes: Bytes)
    ensures HexDecode(HexEncode(bytes)) == Some(bytes)
    ensures forall c :: c in HexEncode(bytes) ==> HexValue(c).Some?
  {
    if bytes != [] {
      HexRoundTrip(bytes[1..]);
      assert HexEncode(bytes)[2..] == HexEncode(bytes[1..]);
      assert [bytes[0]] + bytes[1..] == bytes;
    }
  }

  lemma HexDigit(c: char, n: nat)
    requires n < 16
    ensures HexValue(c) == Some(n) <==> LowerChar(c) == HexChar(n)
  {
  }

  /** A text is read as some bytes exactly when it is, letter case aside, what is written for them. */
  lemma {:induction false} HexDecodesIff(s: string, bytes: Bytes)
    ensures HexDecode(s) == Some(bytes) <==> Lower(s) == HexEncode(bytes)
    decreases |s|
  {
    if |s| >= 2 && bytes != [] {
      var high, low := bytes[0] as int / 16, bytes[0] as int % 16;
      HexDigit(s[0], high);
      HexDigit(s[1], low);
      HexDecodesIff(s[2..], bytes[1..]);
      HexPairWritten(s, bytes);
      HexPairRead(s, bytes);
    }
  }

  lemma HexPairWritten(s: string, bytes: Bytes)
    requires |s| >= 2 && bytes != []
    ensures Lower(s) == HexEncode(bytes) <==>
      LowerChar(s[0]) == HexChar(bytes[0] as int / 16) && LowerChar(s[1]) == HexChar(bytes[0] as int % 16) &&
      Lower(s[2..]) == HexEncode(bytes[1..])
  {
    assert Lower(s) == [LowerChar(s[0]), LowerChar(s[1])] + Lower(s[2..]);
    assert Lower(s)[2..] == Lower(s[2..]) && HexEncode(bytes)[2..] == HexEncode(bytes[1..]);
  }

  lemma HexPairRead(s: string, bytes: Bytes)
    requires |s| >= 2 && bytes != []
    ensures HexDecode(s) == Some(bytes) <==>
      HexValue(s[0]) == Some(bytes[0] as int / 16) && HexValue(s[1]) == Some(bytes[0] as int % 16) &&
      HexDecode(s[2..]) == Some(bytes[1..])
  {
    assert bytes == [bytes[0]] + bytes[1..];
    if HexDecode(s).Some? {
      assert HexDecode(s).value[1..] == HexDecode(s[2..]).value;
    }
  }
}
