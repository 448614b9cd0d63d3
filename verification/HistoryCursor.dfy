/** The page marker of the history listing, from the tuple to the opaque text and back: JSON, bytes, base64url. */
module HistoryCursor {

  import opened Wrappers
  import opened IdentityText
  import Base64

  datatype Cursor = Cursor(createdAt: string, id: string)

  const HEAD := "{\"createdAt\":\""
  const MIDDLE := ",\"id\":\""
  const TAIL := "}"

  predicate IsExecutionId(text: string) {
    |text| == 64 && forall i :: 0 <= i < 64 ==> 'a' <= text[i] <= 'f' || '0' <= text[i] <= '9'
  }

  // ----- Reading a JSON string literal -----

  function HexValue(c: char): (v: Option<int>)
    ensures v.Some? ==> 0 <= v.value < 16
  {
    if '0' <= c <= '9' then Some(c as int - 48)
    else if 'a' <= c <= 'f' then Some(c as int - 87)
    else if 'A' <= c <= 'F' then Some(c as int - 55)
    else None
  }

  /** The escapes JSON.stringify writes, and a bare character that needs none. */
  function ReadChar(text: string): (read: Option<(char, string)>)
    ensures read.Some? ==> |read.value.1| < |text|
  {
    if |text| == 0 || text[0] == '"' || text[0] < 32 as char then None
    else if text[0] != '\\' then Some((text[0], text[1..]))
    else if |text| < 2 then None
    else if text[1] == '"' || text[1] == '\\' then Some((text[1], text[2..]))
    else if text[1] == 'b' then Some((8 as char, text[2..]))
    else if text[1] == 't' then Some(('\t', text[2..]))
    else if text[1] == 'n' then Some(('\n', text[2..]))
    else if text[1] == 'f' then Some((12 as char, text[2..]))
    else if text[1] == 'r' then Some(('\r', text[2..]))
    else if text[1] == 'u' && |text| >= 6 && text[2] == '0' && text[3] == '0' && HexValue(text[4]).Some? && HexValue(text[5]).Some?
    then Some(((16 * HexValue(text[4]).value + HexValue(text[5]).value) as char, text[6..]))
    else None
  }

  /** The content up to the closing quote, and what follows it. */
  function ReadLiteral(text: string): Option<(string, string)>
    decreases |text|
  {
    if |text| > 0 && text[0] == '"' then Some(("", text[1..]))
    else
      match ReadChar(text)
      case None => None
      case Some((c, rest)) =>
        match ReadLiteral(rest)
        case None => None
        case Some((content, after)) => Some(([c] + content, after))
  }

  lemma EscapeReads(c: char, rest: string)
    ensures ReadChar(EscapeChar(c) + rest) == Some((c, rest))
  {
    var text := EscapeChar(c) + rest;
    assert text[0] == EscapeChar(c)[0] && text[|EscapeChar(c)|..] == rest;
    if |EscapeChar(c)| > 1 {
      assert text[1] == EscapeChar(c)[1];
    }
    if |EscapeChar(c)| == 6 {
      assert text[2] == '0' && text[3] == '0' && text[4] == EscapeChar(c)[4] && text[5] == EscapeChar(c)[5];
    }
  }

  lemma {:induction false} LiteralReads(content: string, rest: string)
    ensures ReadLiteral(Literal(content, rest)) == Some((content, rest))
    decreases |content|
  {
    if |content| > 0 {
      EscapeReads(content[0], Literal(content[1..], rest));
      LiteralReads(content[1..], rest);
      assert content == [content[0]] + content[1..];
    }
  }

  // ----- The cursor's text -----

  /** JSON.stringify of the object with these two members. */
  function Stringify(c: Cursor): string {
    HEAD + Literal(c.createdAt, MIDDLE + Literal(c.id, TAIL))
  }

  function After(text: string, prefix: string): Option<string> {
    if |text| >= |prefix| && text[..|prefix|] == prefix then Some(text[|prefix|..]) else None
  }

  /** Reading an object in the layout `Stringify` writes. */
  function Parse(text: string): Option<Cursor> {
    match After(text, HEAD)
    case None => None
    case Some(first) =>
      match ReadLiteral(first)
      case None => None
      case Some((createdAt, between)) =>
        match After(between, MIDDLE)
        case None => None
        case Some(second) =>
          match ReadLiteral(second)
          case None => None
          case Some((id, last)) => if last == TAIL then Some(Cursor(createdAt, id)) else None
  }

  lemma AfterPrefix(prefix: string, rest: string)
    ensures After(prefix + rest, prefix) == Some(rest)
  {
  }

  lemma ParseInvertsStringify(c: Cursor)
    ensures Parse(Stringify(c)) == Some(c)
  {
    var second := Literal(c.id, TAIL);
    AfterPrefix(HEAD, Literal(c.createdAt, MIDDLE + second));
    LiteralReads(c.createdAt, MIDDLE + second);
    AfterPrefix(MIDDLE, second);
    LiteralReads(c.id, TAIL);
  }

  // ----- Bytes -----

  predicate Latin1(text: string) {
    forall i :: 0 <= i < |text| ==> text[i] < 256 as char
  }

  function BytesOf(text: string): seq<int> {
    seq(|text|, i requires 0 <= i < |text| => text[i] as int)
  }

  function TextOf(bytes: seq<int>): string
    requires Base64.Bytes(bytes)
  {
    seq(|bytes|, i requires 0 <= i < |bytes| => bytes[i] as char)
  }

  /** btoa throws on a character that is no byte. */
  function Encode(c: Cursor): Option<string> {
    var text := Stringify(c);
    if Latin1(text) then Some(Base64.EncodeCursor(BytesOf(text))) else None
  }

  /** Anything that does not decode to a cursor with a creation time and an Execution id is an invalid cursor. */
  function Decode(value: string): Option<Cursor> {
    match Base64.DecodeCursor(value)
    case None => None
    case Some(bytes) =>
      match Parse(TextOf(bytes))
      case None => None
      case Some(c) => if |c.createdAt| == 0 || !IsExecutionId(c.id) then None else Some(c)
  }

  lemma {:induction false} LiteralIsLatin1(content: string, rest: string)
    requires Latin1(content) && Latin1(rest)
    ensures Latin1(Literal(content, rest))
    decreases |content|
  {
    if |content| > 0 {
      assert forall i :: 0 <= i < |content[1..]| ==> content[1..][i] == content[i + 1];
      LiteralIsLatin1(content[1..], rest);
      assert Latin1(EscapeChar(content[0])) by {
        assert content[0] < 256 as char;
      }
    }
  }

  lemma StringifyIsLatin1(c: Cursor)
    requires Latin1(c.createdAt) && Latin1(c.id)
    ensures Latin1(Stringify(c))
  {
    LiteralIsLatin1(c.id, TAIL);
    LiteralIsLatin1(c.createdAt, MIDDLE + Literal(c.id, TAIL));
  }

  /** Every cursor of a listed row, whatever byte characters its creation time is made of, is encoded and reads back. */
  lemma CursorRoundTrip(c: Cursor)
    requires |c.createdAt| > 0 && Latin1(c.createdAt) && IsExecutionId(c.id)
    ensures Encode(c).Some? && Decode(Encode(c).value) == Some(c)
  {
    StringifyIsLatin1(c);
    var text := Stringify(c);
    Base64.CursorRoundTrip(BytesOf(text));
    assert TextOf(BytesOf(text)) == text;
    ParseInvertsStringify(c);
  }

  /** So different rows never share a page marker, and nothing but a well-formed marker is accepted. */
  lemma CursorsAreUnique(a: Cursor, b: Cursor)
    requires |a.createdAt| > 0 && Latin1(a.createdAt) && IsExecutionId(a.id)
    requires |b.createdAt| > 0 && Latin1(b.createdAt) && IsExecutionId(b.id)
    ensures Encode(a) == Encode(b) <==> a == b
  {
    CursorRoundTrip(a);
    CursorRoundTrip(b);
  }

}
