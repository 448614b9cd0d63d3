/** The digest message and its truncation to 1024 UTF-8 bytes (RFC 3629, section 3). Strings are UTF-16 code units, as
  * the runtime holds them; encoding replaces a lone surrogate by U+FFFD. */
module Utf8 {

  import opened Wrappers

  const MAX_BYTES := 1024
  const MAX_NAMES := 5
  const REPLACEMENT := 0xFFFD

  type Unit = x: int | 0 <= x < 0x10000

  predicate IsHigh(u: int) { 0xD800 <= u < 0xDC00 }

  predicate IsLow(u: int) { 0xDC00 <= u < 0xE000 }

  predicate IsScalar(c: int) {
    0 <= c < 0xD800 || 0xE000 <= c < 0x110000
  }

  predicate Scalars(s: seq<int>) {
    forall i :: 0 <= i < |s| ==> IsScalar(s[i])
  }

  // ----- UTF-16 -----

  /** The code points TextEncoder sees. */
  function ToScalars(units: seq<Unit>): (s: seq<int>)
    ensures Scalars(s)
    ensures |units| > 0 ==> |s| > 0
  {
    if |units| == 0 then []
    else if IsHigh(units[0]) && |units| > 1 && IsLow(units[1])
    then [0x10000 + (units[0] - 0xD800) * 0x400 + (units[1] - 0xDC00)] + ToScalars(units[2..])
    else if IsHigh(units[0]) || IsLow(units[0]) then [REPLACEMENT] + ToScalars(units[1..])
    else [units[0]] + ToScalars(units[1..])
  }

  function UnitsOf(c: int): seq<Unit>
    requires IsScalar(c)
  {
    if c < 0x10000 then [c] else [0xD800 + (c - 0x10000) / 0x400, 0xDC00 + (c - 0x10000) % 0x400]
  }

  function ToUnits(s: seq<int>): seq<Unit>
    requires Scalars(s)
  {
    if |s| == 0 then [] else UnitsOf(s[0]) + ToUnits(s[1..])
  }

  lemma {:induction false} ScalarsOfUnits(s: seq<int>)
    requires Scalars(s)
    ensures ToScalars(ToUnits(s)) == s
    decreases |s|
  {
    if |s| > 0 {
      ScalarsOfUnits(s[1..]);
      var first, rest := UnitsOf(s[0]), ToUnits(s[1..]);
      assert (first + rest)[|first|..] == rest;
      assert s == [s[0]] + s[1..];
    }
  }

  // ----- UTF-8 -----

  function EncodeOne(c: int): (b: seq<int>)
    requires IsScalar(c)
    ensures 1 <= |b| <= 4
  {
    if c < 0x80 then [c]
    else if c < 0x800 then [0xC0 + c / 64, 0x80 + c % 64]
    else if c < 0x10000 then [0xE0 + c / 4096, 0x80 + c / 64 % 64, 0x80 + c % 64]
    else [0xF0 + c / 262144, 0x80 + c / 4096 % 64, 0x80 + c / 64 % 64, 0x80 + c % 64]
  }

  function Encode(s: seq<int>): seq<int>
    requires Scalars(s)
  {
    if |s| == 0 then [] else Encode(s[..|s| - 1]) + EncodeOne(s[|s| - 1])
  }

  /** `(b & 0xc0) === 0x80`. */
  predicate IsContinuation(b: int) {
    0x80 <= b < 0xC0
  }

  lemma OnlyLeadStarts(c: int, i: nat)
    requires IsScalar(c) && i < |EncodeOne(c)|
    ensures 0 <= EncodeOne(c)[i] < 256
    ensures IsContinuation(EncodeOne(c)[i]) <==> i != 0
  {
  }

  // ----- Code point boundaries -----

  /** How many whole code points fit into the first `n` bytes. */
  function Whole(s: seq<int>, n: nat): (k: nat)
    requires Scalars(s)
    ensures k <= |s|
  {
    if |s| == 0 then 0 else if |Encode(s)| <= n then |s| else Whole(s[..|s| - 1], n)
  }

  /** The bytes of a prefix are a prefix of the bytes. */
  lemma {:induction false} EncodePrefix(s: seq<int>, k: nat)
    requires Scalars(s) && k <= |s|
    ensures Encode(s[..k]) <= Encode(s)
    decreases |s|
  {
    if k < |s| {
      EncodePrefix(s[..|s| - 1], k);
      assert s[..|s| - 1][..k] == s[..k];
    } else {
      assert s[..k] == s;
    }
  }

  lemma {:induction false} WholeIsLargest(s: seq<int>, n: nat)
    requires Scalars(s)
    ensures |Encode(s[..Whole(s, n)])| <= n
    ensures forall k :: Whole(s, n) < k <= |s| ==> |Encode(s[..k])| > n
    decreases |s|
  {
    if |s| > 0 {
      var init := s[..|s| - 1];
      assert s[..|s|] == s;
      if |Encode(s)| > n {
        WholeIsLargest(init, n);
        forall k | Whole(s, n) < k <= |s| ensures |Encode(s[..k])| > n {
          if k < |s| {
            assert init[..k] == s[..k];
          }
        }
        assert init[..Whole(s, n)] == s[..Whole(s, n)];
      }
    }
  }

  /** A byte starts a code point exactly when it is no continuation byte. */
  lemma {:induction false} ContinuationIsInside(s: seq<int>, i: nat)
    requires Scalars(s) && i < |Encode(s)|
    ensures IsContinuation(Encode(s)[i]) <==> i != |Encode(s[..Whole(s, i)])|
    decreases |s|
  {
    var init, last := s[..|s| - 1], s[|s| - 1];
    if i < |Encode(init)| {
      ContinuationIsInside(init, i);
      assert init[..Whole(init, i)] == s[..Whole(s, i)];
    } else {
      assert Whole(init, i) == |init| by {
        WholeIsLargest(init, i);
        assert init[..|init|] == init;
      }
      assert s[..Whole(s, i)] == init;
      OnlyLeadStarts(last, i - |Encode(init)|);
    }
  }

  /** The back-up loop. It stops on the last code point boundary within the bound. */
  method CutPoint(ghost s: seq<int>, bytes: seq<int>) returns (end: nat)
    requires Scalars(s) && bytes == Encode(s) && |bytes| > MAX_BYTES
    ensures end == |Encode(s[..Whole(s, MAX_BYTES)])|
  {
    ghost var k := Whole(s, MAX_BYTES);
    WholeIsLargest(s, MAX_BYTES);
    end := MAX_BYTES;
    while end > 0 && IsContinuation(bytes[end])
      invariant |Encode(s[..k])| <= end <= MAX_BYTES
    {
      BetweenBoundaries(s, k, end);
      ContinuationIsInside(s, end);
      end := end - 1;
    }
    if end > 0 {
      BetweenBoundaries(s, k, end);
      ContinuationIsInside(s, end);
    }
  }

  lemma BetweenBoundaries(s: seq<int>, k: nat, n: nat)
    requires Scalars(s) && k == Whole(s, MAX_BYTES) && |Encode(s[..k])| <= n <= MAX_BYTES
    ensures Whole(s, n) == k
  {
    WholeIsLargest(s, MAX_BYTES);
    WholeIsLargest(s, n);
  }

  // ----- Decoding -----

  /** The value of one encoded code point at the head of `b`. */
  function Assemble(b: seq<int>): int
    requires |b| > 0
  {
    if b[0] < 0x80 then b[0]
    else if b[0] < 0xE0 && |b| >= 2 then (b[0] - 0xC0) * 64 + (b[1] - 0x80)
    else if b[0] < 0xF0 && |b| >= 3 then (b[0] - 0xE0) * 4096 + (b[1] - 0x80) * 64 + (b[2] - 0x80)
    else if |b| >= 4 then (b[0] - 0xF0) * 262144 + (b[1] - 0x80) * 4096 + (b[2] - 0x80) * 64 + (b[3] - 0x80)
    else -1
  }

  /** Reading well-formed bytes; None marks the first code point that is not in its one valid form. */
  function Decode(b: seq<int>): (s: Option<seq<int>>)
    ensures s.Some? ==> Scalars(s.value)
  {
    if |b| == 0 then Some([])
    else
      var c := Assemble(b);
      if IsScalar(c) && EncodeOne(c) <= b
      then
        (match Decode(b[|EncodeOne(c)|..])
         case None => None
         case Some(rest) => Some([c] + rest))
      else None
  }

  lemma SplitTwo(c: int)
    requires 0x80 <= c < 0x800
    ensures 0xC0 <= 0xC0 + c / 64 < 0xE0 && c / 64 * 64 + c % 64 == c
  {
  }

  lemma SplitThree(c: int)
    requires 0x800 <= c < 0x10000
    ensures 0xE0 <= 0xE0 + c / 4096 < 0xF0 && c / 4096 * 4096 + c / 64 % 64 * 64 + c % 64 == c
  {
    assert c / 64 / 64 == c / 4096;
  }

  lemma SplitFour(c: int)
    requires 0x10000 <= c < 0x110000
    ensures 0xF0 <= 0xF0 + c / 262144 && c / 262144 * 262144 + c / 4096 % 64 * 4096 + c / 64 % 64 * 64 + c % 64 == c
  {
    assert c / 64 / 64 == c / 4096 && c / 4096 / 64 == c / 262144;
  }

  lemma AssembleShort(b: seq<int>, c: int)
    requires 0 <= c < 0x800 && |b| >= |EncodeOne(c)| && b[0] == EncodeOne(c)[0]
    requires c >= 0x80 ==> b[1] == EncodeOne(c)[1]
    ensures Assemble(b) == c
  {
    if c >= 0x80 {
      SplitTwo(c);
    }
  }

  lemma AssembleThree(b: seq<int>, c: int)
    requires IsScalar(c) && 0x800 <= c < 0x10000 && |b| >= 3
    requires b[0] == 0xE0 + c / 4096 && b[1] == 0x80 + c / 64 % 64 && b[2] == 0x80 + c % 64
    ensures Assemble(b) == c
  {
    SplitThree(c);
  }

  lemma AssembleFour(b: seq<int>, c: int)
    requires 0x10000 <= c < 0x110000 && |b| >= 4
    requires b[0] == 0xF0 + c / 262144 && b[1] == 0x80 + c / 4096 % 64 && b[2] == 0x80 + c / 64 % 64 && b[3] == 0x80 + c % 64
    ensures Assemble(b) == c
  {
    SplitFour(c);
  }

  lemma AssembleInvertsEncode(c: int, rest: seq<int>)
    requires IsScalar(c)
    ensures Assemble(EncodeOne(c) + rest) == c
  {
    var b := EncodeOne(c) + rest;
    if c < 0x800 {
      AssembleShort(b, c);
    } else if c < 0x10000 {
      AssembleThree(b, c);
    } else {
      AssembleFour(b, c);
    }
  }

  lemma {:induction false} EncodeHead(s: seq<int>)
    requires Scalars(s) && |s| > 0
    ensures Encode(s) == EncodeOne(s[0]) + Encode(s[1..])
    decreases |s|
  {
    var init, tail := s[..|s| - 1], s[1..];
    if |s| == 1 {
      assert init == [] && tail == [];
      assert Encode(s) == Encode(init) + EncodeOne(s[0]);
    } else {
      EncodeHead(init);
      assert init[1..] == tail[..|tail| - 1];
      assert Encode(tail) == Encode(init[1..]) + EncodeOne(s[|s| - 1]);
    }
  }

  lemma {:induction false} DecodeInvertsEncode(s: seq<int>)
    requires Scalars(s)
    ensures Decode(Encode(s)) == Some(s)
    decreases |s|
  {
    if |s| > 0 {
      EncodeHead(s);
      AssembleInvertsEncode(s[0], Encode(s[1..]));
      var first := EncodeOne(s[0]);
      assert (first + Encode(s[1..]))[|first|..] == Encode(s[1..]);
      DecodeInvertsEncode(s[1..]);
      assert s == [s[0]] + s[1..];
    }
  }

  /** The table of RFC 3629, section 3: the length by range, the lead byte by length, and the bits of the code point. */
  lemma EncodingIsStandard(c: int)
    requires IsScalar(c)
    ensures var b := EncodeOne(c);
      && |b| == (if c <= 127 then 1 else if c <= 2047 then 2 else if c <= 65535 then 3 else 4)
      && (|b| == 1 ==> b[0] == c)
      && (|b| == 2 ==> 192 <= b[0] <= 223 && (b[0] - 192) * 64 + (b[1] - 128) == c)
      && (|b| == 3 ==> 224 <= b[0] <= 239 && (b[0] - 224) * 4096 + (b[1] - 128) * 64 + (b[2] - 128) == c)
      && (|b| == 4 ==> 240 <= b[0] <= 244 && (b[0] - 240) * 262144 + (b[1] - 128) * 4096 + (b[2] - 128) * 64 + (b[3] - 128) == c)
      && (forall i :: 1 <= i < |b| ==> 128 <= b[i] <= 191)
  {
    if 128 <= c <= 2047 {
      SplitTwo(c);
    } else if 2048 <= c <= 65535 {
      SplitThree(c);
    } else if c > 65535 {
      SplitFour(c);
    }
  }

  // ----- The digest message -----

  function Ascii(text: string): seq<Unit>
    requires forall i :: 0 <= i < |text| ==> text[i] < 128 as char
  {
    seq(|text|, i requires 0 <= i < |text| => text[i] as int)
  }

  function Decimal(n: nat): seq<Unit> {
    (if n < 10 then [] else Decimal(n / 10)) + [48 + n % 10]
  }

  function Join(names: seq<seq<Unit>>): seq<Unit> {
    if |names| == 0 then []
    else if |names| == 1 then names[0]
    else Join(names[..|names| - 1]) + Ascii(", ") + names[|names| - 1]
  }

  /** Up to five names; an empty list, or a list that joins to nothing, reads "none". */
  function Message(count: nat, names: seq<seq<Unit>>): (m: seq<Unit>)
    ensures |m| > 0 && m[0] == 'N' as int
  {
    var joined := Join(if |names| <= MAX_NAMES then names else names[..MAX_NAMES]);
    Ascii("NinjaOne organizations (") + Decimal(count) + Ascii(" total): ") + (if |joined| == 0 then Ascii("none") else joined)
  }

  /** The number a row of decimal digits stands for. */
  ghost function NumberOf(digits: seq<Unit>): int {
    if |digits| == 0 then 0 else NumberOf(digits[..|digits| - 1]) * 10 + digits[|digits| - 1] as int - 48
  }

  lemma OneMoreDigit(digits: seq<Unit>, digit: Unit)
    ensures NumberOf(digits + [digit]) == NumberOf(digits) * 10 + digit as int - 48
  {
    var all := digits + [digit];
    assert all[..|all| - 1] == digits && all[|all| - 1] == digit;
  }

  lemma LastDigit(n: nat) returns (rest: nat, digit: Unit)
    ensures n == rest * 10 + digit as int - 48 && 48 <= digit <= 57 && (n > 0 ==> rest < n)
    ensures Decimal(n) == (if rest == 0 then [] else Decimal(rest)) + [digit]
  {
    rest, digit := n / 10, 48 + n % 10;
  }

  lemma {:induction false} DecimalValue(n: nat)
    ensures NumberOf(Decimal(n)) == n
    decreases n
  {
    var rest, digit := LastDigit(n);
    if rest == 0 {
      OneMoreDigit([], digit);
      assert Decimal(n) == [] + [digit];
    } else {
      DecimalValue(rest);
      OneMoreDigit(Decimal(rest), digit);
    }
  }

  ghost predicate Digits(digits: seq<Unit>) {
    forall i :: 0 <= i < |digits| ==> 48 <= digits[i] <= 57
  }

  lemma {:induction false} DecimalDigits(n: nat)
    ensures Digits(Decimal(n)) && |Decimal(n)| > 0
    decreases n
  {
    var rest, digit := LastDigit(n);
    if rest > 0 {
      DecimalDigits(rest);
    }
  }

  /** No leading zero. */
  lemma {:induction false} DecimalLeads(n: nat)
    requires n > 0
    ensures |Decimal(n)| > 0 && Decimal(n)[0] != 48
    decreases n
  {
    var rest, digit := LastDigit(n);
    if rest > 0 {
      DecimalLeads(rest);
    }
  }

  /** The names stand one after another, a comma and a blank between them. */
  lemma {:induction false} JoinExactly(names: seq<seq<Unit>>, i: nat)
    requires i < |names|
    ensures Join(names[..i + 1]) <= Join(names)
    ensures Join(names[..i + 1]) == if i == 0 then names[0] else Join(names[..i]) + [44, 32] + names[i]
    decreases |names|
  {
    var upTo := names[..i + 1];
    assert upTo[..|upTo| - 1] == names[..i] && upTo[|upTo| - 1] == names[i];
    assert Ascii(", ") == [44, 32];
    if i + 1 < |names| {
      var init := names[..|names| - 1];
      JoinExactly(init, i);
      assert init[..i + 1] == upTo;
    } else {
      assert upTo == names;
    }
  }

  /** What the message says: the count in decimal, then "none" or the first five names joined. */
  lemma MessageExactly(count: nat, names: seq<seq<Unit>>)
    ensures Message(count, names) == Ascii("NinjaOne organizations (") + Decimal(count) + Ascii(" total): ") +
      (var first := if |names| > 5 then names[..5] else names;
       if first == [] || first == [[]] then Ascii("none") else Join(first))
  {
    var first := if |names| > 5 then names[..5] else names;
    if |first| > 1 {
      JoinExactly(first, 1);
    }
  }

  /** The echo input gate: one non-empty message of at most 1024 UTF-8 bytes. */
  predicate InputOk(message: seq<Unit>) {
    |message| > 0 && |Encode(ToScalars(message))| <= MAX_BYTES
  }

  /** For every organization list the shaped message passes the echo input gate, and it is the longest whole-code-point
    * prefix of the full message that fits: the full message itself when that fits. */
  method ShapeDigest(count: nat, names: seq<seq<Unit>>) returns (message: seq<Unit>)
    ensures InputOk(message)
    ensures var full, shaped := ToScalars(Message(count, names)), ToScalars(message);
      && shaped <= full
      && (|Encode(full)| <= MAX_BYTES ==> message == Message(count, names))
      && (|shaped| < |full| ==> |Encode(full[..|shaped| + 1])| > MAX_BYTES)
  {
    message := Message(count, names);
    var full := ToScalars(message);
    var bytes := Encode(full);
    if |bytes| > MAX_BYTES {
      var end := CutPoint(full, bytes);
      ghost var k := Whole(full, MAX_BYTES);
      WholeIsLargest(full, MAX_BYTES);
      EncodePrefix(full, k);
      assert bytes[..end] == Encode(full[..k]);
      DecodeInvertsEncode(full[..k]);
      var decoded := Decode(bytes[..end]);
      ScalarsOfUnits(full[..k]);
      message := ToUnits(decoded.value);
      assert full[..1] == [full[0]];
      OneFits(full);
    }
  }

  lemma OneFits(s: seq<int>)
    requires Scalars(s) && |s| > 0
    ensures Whole(s, MAX_BYTES) > 0
  {
    WholeIsLargest(s, MAX_BYTES);
    assert s[..1][..0] == [];
    assert |Encode(s[..1])| <= 4;
  }

}
