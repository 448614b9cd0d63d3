/** Base64 as the repository uses it: the strict decoder of a 32-byte digest (RFC 4648, sections 4 and 3.5) and the
  * unpadded base64url history cursor (section 5) read back by the forgiving decoder of the WHATWG Infra Standard. */
module Base64 {

  import opened Wrappers

  const DIGEST_BYTES := 32
  const DIGEST_CHARS := 44

  predicate IsByte(b: int) {
    0 <= b < 256
  }

  predicate IsSextet(v: int) {
    0 <= v < 64
  }

  predicate Bytes(s: seq<int>) {
    forall i :: 0 <= i < |s| ==> IsByte(s[i])
  }

  predicate Sextets(s: seq<int>) {
    forall i :: 0 <= i < |s| ==> IsSextet(s[i])
  }

  // ----- The alphabet -----

  function CharOf(v: int): char
    requires IsSextet(v)
  {
    if v < 26 then (v + 65) as char
    else if v < 52 then (v - 26 + 97) as char
    else if v < 62 then (v - 52 + 48) as char
    else if v == 62 then '+'
    else '/'
  }

  /** The index of a character in the alphabet. */
  function ValueOf(c: char): (v: Option<int>)
    ensures v.Some? ==> IsSextet(v.value)
  {
    if 'A' <= c <= 'Z' then Some(c as int - 65)
    else if 'a' <= c <= 'z' then Some(c as int - 97 + 26)
    else if '0' <= c <= '9' then Some(c as int - 48 + 52)
    else if c == '+' then Some(62)
    else if c == '/' then Some(63)
    else None
  }

  lemma AlphabetIsABijection(v: int, c: char)
    ensures IsSextet(v) ==> ValueOf(CharOf(v)) == Some(v)
    ensures ValueOf(c).Some? ==> CharOf(ValueOf(c).value) == c
  {
  }

  /** Table 1 of RFC 4648, by code point, and its URL-safe Table 2 in the last two places. */
  lemma AlphabetIsStandard(v: int)
    requires 0 <= v < 64
    ensures var c := CharOf(v) as int;
      && (v <= 25 ==> c == 65 + v)
      && (26 <= v <= 51 ==> c == 71 + v)
      && (52 <= v <= 61 ==> c == v - 4)
      && (v == 62 ==> c == 43 && UrlChar(CharOf(v)) == '-')
      && (v == 63 ==> c == 47 && UrlChar(CharOf(v)) == '_')
      && (v < 62 ==> UrlChar(CharOf(v)) == CharOf(v))
  {
  }

  function ToText(s: seq<int>): (text: string)
    requires Sextets(s)
    ensures |text| == |s|
    ensures forall i :: 0 <= i < |s| ==> text[i] == CharOf(s[i])
  {
    if |s| == 0 then [] else ToText(s[..|s| - 1]) + [CharOf(s[|s| - 1])]
  }

  /** Every character in the alphabet. */
  predicate InAlphabet(text: string) {
    forall i :: 0 <= i < |text| ==> ValueOf(text[i]).Some?
  }

  function FromText(text: string): (s: seq<int>)
    requires InAlphabet(text)
    ensures Sextets(s) && |s| == |text|
    ensures forall i :: 0 <= i < |text| ==> s[i] == ValueOf(text[i]).value
  {
    if |text| == 0 then [] else FromText(text[..|text| - 1]) + [ValueOf(text[|text| - 1]).value]
  }

  lemma TextRoundTrip(s: seq<int>, text: string)
    ensures Sextets(s) ==> InAlphabet(ToText(s)) && FromText(ToText(s)) == s
    ensures InAlphabet(text) ==> ToText(FromText(text)) == text
  {
    forall v | IsSextet(v) ensures ValueOf(CharOf(v)) == Some(v) {
      AlphabetIsABijection(v, 'A');
    }
    forall c | ValueOf(c).Some? ensures CharOf(ValueOf(c).value) == c {
      AlphabetIsABijection(0, c);
    }
  }

  // ----- Sextets and bytes -----

  /** The four sextets of three bytes, as the shifts and masks compute them. */
  function Sextet0(a: int): int { a / 4 }
  function Sextet1(a: int, b: int): int { a % 4 * 16 + b / 16 }
  function Sextet2(b: int, c: int): int { b % 16 * 4 + c / 64 }
  function Sextet3(c: int): int { c % 64 }

  /** The three bytes of four sextets. */
  function Byte0(w: int, x: int): (b: int)
    ensures IsSextet(w) && IsSextet(x) ==> IsByte(b)
  {
    w * 4 + x / 16
  }

  function Byte1(x: int, y: int): (b: int)
    ensures IsSextet(x) && IsSextet(y) ==> IsByte(b)
  {
    x % 16 * 16 + y / 4
  }

  function Byte2(y: int, z: int): (b: int)
    ensures IsSextet(y) && IsSextet(z) ==> IsByte(b)
  {
    y % 4 * 64 + z
  }

  lemma BytesOfSextets(a: int, b: int, c: int)
    requires IsByte(a) && IsByte(b) && IsByte(c)
    ensures IsSextet(Sextet0(a)) && IsSextet(Sextet1(a, b)) && IsSextet(Sextet2(b, c)) && IsSextet(Sextet3(c))
    ensures Byte0(Sextet0(a), Sextet1(a, b)) == a
    ensures Byte1(Sextet1(a, b), Sextet2(b, c)) == b
    ensures Byte2(Sextet2(b, c), Sextet3(c)) == c
    ensures Sextet1(a, 0) % 16 == 0 && Sextet2(b, 0) % 4 == 0
  {
  }

  lemma SextetsOfBytes(w: int, x: int, y: int, z: int)
    requires IsSextet(w) && IsSextet(x) && IsSextet(y) && IsSextet(z)
    ensures IsByte(Byte0(w, x)) && IsByte(Byte1(x, y)) && IsByte(Byte2(y, z))
    ensures Sextet0(Byte0(w, x)) == w
    ensures Sextet1(Byte0(w, x), Byte1(x, y)) == x
    ensures Sextet2(Byte1(x, y), Byte2(y, z)) == y
    ensures Sextet3(Byte2(y, z)) == z
    ensures Sextet1(Byte0(w, x), 0) == x <==> x % 16 == 0
    ensures Sextet2(Byte1(x, y), 0) == y <==> y % 4 == 0
  {
  }

  /** Three bytes and their four sextets are the same 24 bits, most significant first. */
  lemma SameBits(a: int, b: int, c: int)
    requires IsByte(a) && IsByte(b) && IsByte(c)
    ensures Sextet0(a) * 262144 + Sextet1(a, b) * 4096 + Sextet2(b, c) * 64 + Sextet3(c) == a * 65536 + b * 256 + c
  {
  }

  /** Regrouping bytes into sextets; the last sextet is filled up with zero bits. */
  function Pack(b: seq<int>): (s: seq<int>)
    requires Bytes(b)
    ensures Sextets(s)
  {
    if |b| == 0 then []
    else if |b| == 1 then [Sextet0(b[0]), Sextet1(b[0], 0)]
    else if |b| == 2 then [Sextet0(b[0]), Sextet1(b[0], b[1]), Sextet2(b[1], 0)]
    else [Sextet0(b[0]), Sextet1(b[0], b[1]), Sextet2(b[1], b[2]), Sextet3(b[2])] + Pack(b[3..])
  }

  /** Regrouping sextets into bytes; left-over bits are dropped. */
  function Unpack(s: seq<int>): (b: seq<int>)
    requires Sextets(s) && |s| % 4 != 1
    ensures Bytes(b)
  {
    if |s| == 0 then []
    else if |s| == 2 then [Byte0(s[0], s[1])]
    else if |s| == 3 then [Byte0(s[0], s[1]), Byte1(s[1], s[2])]
    else
      assert |s| == 4 + |s[4..]|;
      [Byte0(s[0], s[1]), Byte1(s[1], s[2]), Byte2(s[2], s[3])] + Unpack(s[4..])
  }

  /** The bits Unpack drops are zero. */
  predicate Canonical(s: seq<int>) {
    && (|s| % 4 == 2 ==> s[|s| - 1] % 16 == 0)
    && (|s| % 4 == 3 ==> s[|s| - 1] % 4 == 0)
  }

  lemma PackShort(a: int, b: int)
    requires IsByte(a) && IsByte(b)
    ensures Pack([a]) == [Sextet0(a), Sextet1(a, 0)]
    ensures Pack([a, b]) == [Sextet0(a), Sextet1(a, b), Sextet2(b, 0)]
  {
  }

  lemma UnpackShort(w: int, x: int, y: int)
    requires IsSextet(w) && IsSextet(x) && IsSextet(y)
    ensures Unpack([w, x]) == [Byte0(w, x)]
    ensures Unpack([w, x, y]) == [Byte0(w, x), Byte1(x, y)]
  {
  }

  lemma UnpackInvertsOne(a: int)
    requires IsByte(a)
    ensures |Pack([a])| % 4 != 1 && Canonical(Pack([a])) && Unpack(Pack([a])) == [a]
  {
    PackShort(a, 0);
    LastPair(a, Pack([a])[0], Pack([a])[1]);
    assert Pack([a]) == [Pack([a])[0], Pack([a])[1]];
  }

  lemma PairArithmetic(a: int, w: int, x: int)
    requires IsByte(a) && w == a / 4 && x == a % 4 * 16
    ensures IsSextet(w) && IsSextet(x) && w * 4 + x / 16 == a && x % 16 == 0
  {
  }

  lemma UnpackPair(a: int, w: int, x: int)
    requires IsSextet(w) && IsSextet(x) && w * 4 + x / 16 == a && x % 16 == 0
    ensures Canonical([w, x]) && Unpack([w, x]) == [a]
  {
  }

  lemma LastPair(a: int, w: int, x: int)
    requires IsByte(a) && w == a / 4 && x == a % 4 * 16
    ensures IsSextet(w) && IsSextet(x) && Canonical([w, x]) && Unpack([w, x]) == [a]
  {
    PairArithmetic(a, w, x);
    UnpackPair(a, w, x);
  }

  lemma UnpackInvertsTwo(a: int, b: int)
    requires IsByte(a) && IsByte(b)
    ensures |Pack([a, b])| % 4 != 1 && Canonical(Pack([a, b])) && Unpack(Pack([a, b])) == [a, b]
  {
    BytesOfSextets(a, b, 0);
    PackShort(a, b);
    UnpackShort(Sextet0(a), Sextet1(a, b), Sextet2(b, 0));
  }

  lemma UnpackInvertsShort(b: seq<int>)
    requires Bytes(b) && |b| < 3
    ensures |Pack(b)| % 4 != 1 && Canonical(Pack(b)) && Unpack(Pack(b)) == b
  {
    if |b| == 1 {
      assert b == [b[0]];
      UnpackInvertsOne(b[0]);
    } else if |b| == 2 {
      assert b == [b[0], b[1]];
      UnpackInvertsTwo(b[0], b[1]);
    }
  }

  lemma {:induction false} UnpackInvertsPack(b: seq<int>)
    requires Bytes(b)
    ensures |Pack(b)| % 4 != 1 && Canonical(Pack(b)) && Unpack(Pack(b)) == b
    decreases |b|
  {
    if |b| < 3 {
      UnpackInvertsShort(b);
    } else {
      UnpackInvertsPack(b[3..]);
      BytesOfSextets(b[0], b[1], b[2]);
      UnpackOfGroup(Pack(b)[..4], Pack(b[3..]));
      assert Pack(b) == Pack(b)[..4] + Pack(b[3..]);
      CanonicalTail(Pack(b)[..4], Pack(b[3..]));
      assert b == [b[0], b[1], b[2]] + b[3..];
    }
  }

  lemma {:induction false} AddFours(q: nat, n: nat)
    ensures (4 * q + n) % 4 == n % 4
    decreases q
  {
    if q > 0 {
      AddFours(q - 1, n);
    }
  }

  lemma CanonicalTail(x: seq<int>, y: seq<int>)
    requires |x| == 4
    ensures |x + y| % 4 == |y| % 4 && (Canonical(x + y) <==> Canonical(y))
  {
  }

  lemma UnpackOfGroup(x: seq<int>, y: seq<int>)
    requires Sextets(x) && Sextets(y) && |x| == 4 && |y| % 4 != 1
    ensures Sextets(x + y) && |x + y| % 4 != 1
    ensures Unpack(x + y) == [Byte0(x[0], x[1]), Byte1(x[1], x[2]), Byte2(x[2], x[3])] + Unpack(y)
  {
    assert (x + y)[4..] == y;
  }

  lemma PackInvertsTwo(w: int, x: int)
    requires IsSextet(w) && IsSextet(x)
    ensures Pack(Unpack([w, x])) == [w, x] <==> Canonical([w, x])
  {
    SextetsOfBytes(w, x, 0, 0);
    UnpackShort(w, x, 0);
    PackShort(Byte0(w, x), 0);
  }

  lemma PackInvertsThree(w: int, x: int, y: int)
    requires IsSextet(w) && IsSextet(x) && IsSextet(y)
    ensures Pack(Unpack([w, x, y])) == [w, x, y] <==> Canonical([w, x, y])
  {
    SextetsOfBytes(w, x, y, 0);
    UnpackShort(w, x, y);
    PackShort(Byte0(w, x), Byte1(x, y));
  }

  lemma PackInvertsPair(s: seq<int>)
    requires Sextets(s) && |s| == 2
    ensures Pack(Unpack(s)) == s <==> Canonical(s)
  {
    assert s == [s[0], s[1]];
    PackInvertsTwo(s[0], s[1]);
  }

  lemma PackInvertsTriple(s: seq<int>)
    requires Sextets(s) && |s| == 3
    ensures Pack(Unpack(s)) == s <==> Canonical(s)
  {
    assert s == [s[0], s[1], s[2]];
    PackInvertsThree(s[0], s[1], s[2]);
  }

  /** Packing gives a sextet string back exactly when it is canonical. */
  lemma {:induction false} PackInvertsUnpackExactly(s: seq<int>)
    requires Sextets(s) && |s| % 4 != 1
    ensures Pack(Unpack(s)) == s <==> Canonical(s)
    decreases |s|
  {
    if |s| == 2 {
      PackInvertsPair(s);
    } else if |s| == 3 {
      PackInvertsTriple(s);
    } else if |s| > 3 {
      var x, y := s[..4], s[4..];
      assert s == x + y;
      AddFours(1, |y|);
      PackInvertsUnpackExactly(y);
      PackInvertsGroup(x, y);
    }
  }

  lemma PackInvertsGroup(x: seq<int>, y: seq<int>)
    requires Sextets(x) && Sextets(y) && |x| == 4 && |y| % 4 != 1
    ensures Sextets(x + y) && |x + y| % 4 != 1
    ensures Pack(Unpack(x + y)) == x + Pack(Unpack(y))
    ensures Canonical(x + y) <==> Canonical(y)
    ensures Pack(Unpack(x + y)) == x + y <==> Pack(Unpack(y)) == y
  {
    UnpackOfGroup(x, y);
    SextetsOfBytes(x[0], x[1], x[2], x[3]);
    PackOfGroup(Byte0(x[0], x[1]), Byte1(x[1], x[2]), Byte2(x[2], x[3]), Unpack(y));
    CanonicalTail(x, y);
    assert Pack(Unpack(x + y)) == x + Pack(Unpack(y));
    SamePrefix(x, Pack(Unpack(y)), y);
  }

  lemma SamePrefix(x: seq<int>, y: seq<int>, z: seq<int>)
    ensures x + y == x + z <==> y == z
  {
    assert (x + y)[|x|..] == y && (x + z)[|x|..] == z;
  }

  lemma PackOfGroup(a: int, b: int, c: int, rest: seq<int>)
    requires IsByte(a) && IsByte(b) && IsByte(c) && Bytes(rest)
    ensures Bytes([a, b, c] + rest)
    ensures Pack([a, b, c] + rest) == [Sextet0(a), Sextet1(a, b), Sextet2(b, c), Sextet3(c)] + Pack(rest)
  {
    assert ([a, b, c] + rest)[3..] == rest;
  }

  lemma {:induction false} UnpackOfGroups(x: seq<int>, y: seq<int>, q: nat)
    requires Sextets(x) && Sextets(y) && |x| == 4 * q && |y| % 4 != 1
    ensures |x| % 4 != 1 && Sextets(x + y) && |x + y| % 4 != 1
    ensures Unpack(x + y) == Unpack(x) + Unpack(y)
    decreases q
  {
    AddFours(q, |y|);
    AddFours(q, 0);
    if q == 0 {
      assert x + y == y;
    } else {
      var head, tail := x[..4], x[4..];
      assert x == head + tail && x + y == head + (tail + y);
      UnpackOfGroups(tail, y, q - 1);
      UnpackOfGroup(head, tail + y);
      UnpackOfGroup(head, tail);
    }
  }

  /** Three bytes become four sextets, a remainder of one or two bytes becomes two or three. */
  lemma {:induction false} PackLength(b: seq<int>, q: nat, r: nat)
    requires Bytes(b) && |b| == 3 * q + r && r < 3
    ensures |Pack(b)| == 4 * q + (if r == 0 then 0 else r + 1)
    decreases q
  {
    if q > 0 {
      PackLength(b[3..], q - 1, r);
    }
  }

  lemma {:induction false} UnpackLength(s: seq<int>, q: nat, r: nat)
    requires Sextets(s) && |s| % 4 != 1 && |s| == 4 * q + r && (r == 0 || r == 2 || r == 3)
    ensures |Unpack(s)| == 3 * q + (if r == 0 then 0 else r - 1)
    decreases q
  {
    if q > 0 {
      UnpackLength(s[4..], q - 1, r);
    }
  }

  // ----- The digest -----

  /** The canonical text of 32 bytes: 43 alphabet characters whose two spare bits are zero, and one pad. */
  predicate DigestForm(input: string) {
    && |input| == DIGEST_CHARS
    && input[|input| - 1] == '='
    && InAlphabet(input[..43])
    && Canonical(FromText(input[..43]))
  }

  function EncodeDigest(b: seq<int>): string
    requires Bytes(b) && |b| == DIGEST_BYTES
  {
    ToText(Pack(b)) + "="
  }

  function DigestOf(input: string): (b: seq<int>)
    requires DigestForm(input)
    ensures Bytes(b) && |b| == DIGEST_BYTES
  {
    UnpackLength(FromText(input[..43]), 10, 3);
    Unpack(FromText(input[..43]))
  }

  /** Accepted texts and 32-byte strings are in bijection: decoding inverts the standard encoding, and encoding gives
    * every accepted text back. */
  lemma DigestBijection(b: seq<int>, input: string)
    ensures Bytes(b) && |b| == DIGEST_BYTES ==> DigestForm(EncodeDigest(b)) && DigestOf(EncodeDigest(b)) == b
    ensures DigestForm(input) ==> EncodeDigest(DigestOf(input)) == input
  {
    if Bytes(b) && |b| == DIGEST_BYTES {
      UnpackInvertsPack(b);
      PackLength(b, 10, 2);
      TextRoundTrip(Pack(b), "");
      assert EncodeDigest(b)[..43] == ToText(Pack(b));
    }
    if DigestForm(input) {
      PackInvertsUnpackExactly(FromText(input[..43]));
      TextRoundTrip([], input[..43]);
      assert input == input[..43] + "=";
    }
  }

  lemma NextGroup(values: seq<int>, g: nat)
    requires Sextets(values) && 4 * g + 4 <= |values|
    ensures Sextets(values[..4 * g]) && Sextets(values[..4 * g + 4])
    ensures Unpack(values[..4 * g + 4]) == Unpack(values[..4 * g]) +
      [Byte0(values[4 * g], values[4 * g + 1]), Byte1(values[4 * g + 1], values[4 * g + 2]), Byte2(values[4 * g + 2], values[4 * g + 3])]
  {
    var x, y := values[..4 * g], values[4 * g..4 * g + 4];
    assert values[..4 * g + 4] == x + y;
    UnpackOfGroups(x, y, g);
    assert y + [] == y;
    UnpackOfGroup(y, []);
  }

  lemma LastGroup(values: seq<int>)
    requires Sextets(values) && |values| == 43
    ensures Sextets(values[..40])
    ensures Unpack(values) == Unpack(values[..40]) + [Byte0(values[40], values[41]), Byte1(values[41], values[42])]
  {
    assert values == values[..40] + values[40..];
    assert values[40..] == [values[40], values[41], values[42]];
    UnpackOfGroups(values[..40], values[40..], 10);
    UnpackShort(values[40], values[41], values[42]);
  }

  /** The first loop: every character's index, or None at the first one outside the alphabet. */
  method ReadSextets(text: string) returns (values: Option<array<int>>)
    ensures values.Some? <==> InAlphabet(text)
    ensures values.Some? ==> fresh(values.value) && values.value[..] == FromText(text)
  {
    var read := new int[|text|];
    for i := 0 to |text|
      invariant forall j :: 0 <= j < i ==> ValueOf(text[j]) == Some(read[j])
    {
      var at := ValueOf(text[i]);
      if at.None? {
        return None;
      }
      read[i] := at.value;
    }
    return Some(read);
  }

  /** The second loop: ten groups of four sextets to three bytes, each written in place. */
  method FillGroups(values: array<int>, out: array<int>)
    requires values != out && values.Length == 43 && out.Length == DIGEST_BYTES && Sextets(values[..])
    modifies out
    ensures out[..30] == Unpack(values[..40])
  {
    ghost var sextets := values[..];
    for group := 0 to 10
      invariant values[..] == sextets
      invariant out[..group * 3] == Unpack(sextets[..group * 4])
    {
      NextGroup(sextets, group);
      out[group * 3] := Byte0(values[group * 4], values[group * 4 + 1]);
      out[group * 3 + 1] := Byte1(values[group * 4 + 1], values[group * 4 + 2]);
      out[group * 3 + 2] := Byte2(values[group * 4 + 2], values[group * 4 + 3]);
      assert out[..group * 3 + 3] == out[..group * 3] + [out[group * 3], out[group * 3 + 1], out[group * 3 + 2]];
    }
    assert values[..40] == sextets[..40];
  }

  /** Every ambiguous alternate form answers None: base64url, unpadded text, another length, foreign characters, and
    * non-zero spare bits. */
  method DecodeDigestBase64(input: string) returns (digest: Option<seq<int>>)
    ensures digest == if DigestForm(input) then Some(DigestOf(input)) else None
  {
    if |input| != DIGEST_CHARS || input[|input| - 1] != '=' {
      return None;
    }
    var read := ReadSextets(input[..43]);
    if read.None? {
      return None;
    }
    var values := read.value;
    ghost var sextets := FromText(input[..43]);
    var out := new int[DIGEST_BYTES];
    FillGroups(values, out);
    if values[42] % 4 != 0 {
      return None;
    }
    out[30] := Byte0(values[40], values[41]);
    out[31] := Byte1(values[41], values[42]);
    LastGroup(sextets);
    assert out[..] == out[..30] + [out[30], out[31]];
    return Some(out[..]);
  }

  // ----- The history cursor -----

  function ToUrl(text: string): (url: string)
    ensures |url| == |text|
    ensures forall i :: 0 <= i < |text| ==> url[i] == UrlChar(text[i])
  {
    if |text| == 0 then [] else ToUrl(text[..|text| - 1]) + [UrlChar(text[|text| - 1])]
  }

  function UrlChar(c: char): char {
    if c == '+' then '-' else if c == '/' then '_' else c
  }

  function FromUrl(url: string): (text: string)
    ensures |text| == |url|
    ensures forall i :: 0 <= i < |url| ==> text[i] == PlainChar(url[i])
  {
    if |url| == 0 then [] else FromUrl(url[..|url| - 1]) + [PlainChar(url[|url| - 1])]
  }

  function PlainChar(c: char): char {
    if c == '-' then '+' else if c == '_' then '/' else c
  }

  /** Standard base64 drops its pads on the way to base64url, so a cursor is just its packed alphabet characters. */
  function EncodeCursor(b: seq<int>): string
    requires Bytes(b)
  {
    ToUrl(ToText(Pack(b)))
  }

  predicate IsWhitespace(c: char) {
    c == ' ' || c == '\t' || c == '\n' || c == 12 as char || c == '\r'
  }

  function Strip(text: string): string {
    if |text| == 0 then []
    else
      var before, c := Strip(text[..|text| - 1]), text[|text| - 1];
      if IsWhitespace(c) then before else before + [c]
  }

  function DropPads(text: string): string {
    if |text| % 4 != 0 || |text| == 0 || text[|text| - 1] != '=' then text
    else if text[|text| - 2] == '=' then text[..|text| - 2]
    else text[..|text| - 1]
  }

  /** Forgiving-base64 decode: whitespace goes, at most two pads go when the length is a multiple of four, a remainder of
    * one and any foreign character fail, spare bits are ignored. */
  function Atob(text: string): Option<seq<int>> {
    var data := DropPads(Strip(text));
    if |data| % 4 == 1 || !InAlphabet(data) then None else Some(Unpack(FromText(data)))
  }

  function DecodeCursor(url: string): (bytes: Option<seq<int>>)
    ensures bytes.Some? ==> Bytes(bytes.value)
  {
    Atob(FromUrl(url))
  }

  lemma {:induction false} StripKeepsAlphabet(text: string)
    requires InAlphabet(text)
    ensures Strip(text) == text
    decreases |text|
  {
    if |text| > 0 {
      var init := text[..|text| - 1];
      assert InAlphabet(init) by {
        assert forall i :: 0 <= i < |init| ==> init[i] == text[i];
      }
      StripKeepsAlphabet(init);
      assert ValueOf(text[|text| - 1]).Some?;
      assert text == init + [text[|text| - 1]];
    }
  }

  lemma NoPadsToDrop(text: string)
    requires InAlphabet(text)
    ensures DropPads(text) == text
  {
    assert |text| > 0 ==> ValueOf(text[|text| - 1]).Some?;
  }

  lemma CharRoundTrip(c: char)
    requires ValueOf(c).Some?
    ensures PlainChar(UrlChar(c)) == c
  {
  }

  lemma UrlRoundTrip(text: string)
    requires InAlphabet(text)
    ensures FromUrl(ToUrl(text)) == text
  {
    forall i | 0 <= i < |text| ensures FromUrl(ToUrl(text))[i] == text[i] {
      CharRoundTrip(text[i]);
    }
  }

  /** Every cursor the server hands out reads back as the bytes it was made of. */
  lemma CursorRoundTrip(b: seq<int>)
    requires Bytes(b)
    ensures DecodeCursor(EncodeCursor(b)) == Some(b)
  {
    var text := ToText(Pack(b));
    TextRoundTrip(Pack(b), "");
    UrlRoundTrip(text);
    StripKeepsAlphabet(text);
    NoPadsToDrop(text);
    UnpackInvertsPack(b);
  }

  /** The other direction is looser than the digest: an unpadded alphabet text decodes whatever its spare bits are, and
    * encoding gives it back exactly when they are zero. */
  lemma ForgivingReadIsExact(text: string)
    requires InAlphabet(text) && |text| % 4 != 1
    ensures Atob(text) == Some(Unpack(FromText(text)))
    ensures ToText(Pack(Unpack(FromText(text)))) == text <==> Canonical(FromText(text))
  {
    StripKeepsAlphabet(text);
    NoPadsToDrop(text);
    PackInvertsUnpackExactly(FromText(text));
    TextRoundTrip(Pack(Unpack(FromText(text))), text);
  }

}
