/** The texts that are hashed into Execution ids. `JSON.stringify` of an array of strings is injective, so as long as the
  * digest is, an id is its tuple and nothing else: this is what `Identity.Id` rests on. */
module IdentityText {

  import opened Identity

  // ----- JSON text of an array of strings -----

  function HexDigit(v: int): char
    requires 0 <= v < 16
  {
    if v < 10 then (48 + v) as char else (87 + v) as char
  }

  /** One character inside a JSON string literal. */
  function EscapeChar(c: char): (e: string)
    ensures |e| > 0 && e[0] != '"'
  {
    if c == '"' then ['\\', '"']
    else if c == '\\' then ['\\', '\\']
    else if c == 8 as char then ['\\', 'b']
    else if c == '\t' then ['\\', 't']
    else if c == '\n' then ['\\', 'n']
    else if c == 12 as char then ['\\', 'f']
    else if c == '\r' then ['\\', 'r']
    else if c < 32 as char then ['\\', 'u', '0', '0', HexDigit(c as int / 16), HexDigit(c as int % 16)]
    else [c]
  }

  /** The escapes of section 7 of RFC 8259 as JSON.stringify picks them. */
  lemma EscapesAreStandard(c: char)
    ensures c == '"' ==> EscapeChar(c) == "\\\""
    ensures c == '\\' ==> EscapeChar(c) == "\\\\"
    ensures c as int == 8 ==> EscapeChar(c) == "\\b"
    ensures c as int == 9 ==> EscapeChar(c) == "\\t"
    ensures c as int == 10 ==> EscapeChar(c) == "\\n"
    ensures c as int == 12 ==> EscapeChar(c) == "\\f"
    ensures c as int == 13 ==> EscapeChar(c) == "\\r"
    ensures c as int == 0 ==> EscapeChar(c) == "\\u0000"
    ensures c as int == 31 ==> EscapeChar(c) == "\\u001f"
    ensures c as int >= 32 && c != '"' && c != '\\' ==> EscapeChar(c) == [c]
  {
  }

  /** The rest of a JSON array after the content of one literal so far: the text, its closing quote, what follows. */
  function Literal(text: string, rest: string): string {
    if |text| == 0 then ['"'] + rest else EscapeChar(text[0]) + Literal(text[1..], rest)
  }

  /** The elements and the closing bracket. */
  function Items(items: seq<string>): string {
    if |items| == 0 then [']']
    else if |items| == 1 then ['"'] + Literal(items[0], [']'])
    else ['"'] + Literal(items[0], [','] + Items(items[1..]))
  }

  function JsonArray(items: seq<string>): string {
    ['['] + Items(items)
  }

  lemma HexDigitsDiffer(v: int, w: int)
    requires 0 <= v < 16 && 0 <= w < 16 && HexDigit(v) == HexDigit(w)
    ensures v == w
  {
  }

  lemma EscapesAreUnique(c: char, d: char, x: string, y: string)
    requires EscapeChar(c) + x == EscapeChar(d) + y
    ensures c == d && x == y
  {
    var left, right := EscapeChar(c) + x, EscapeChar(d) + y;
    assert left[0] == right[0] && (|left| > 1 ==> left[1] == right[1]);
    if |EscapeChar(c)| == 6 && |EscapeChar(d)| == 6 {
      assert left[4] == right[4] && left[5] == right[5];
      HexDigitsDiffer(c as int / 16, d as int / 16);
      HexDigitsDiffer(c as int % 16, d as int % 16);
    }
    assert c == d;
    assert left[|EscapeChar(c)|..] == x && right[|EscapeChar(d)|..] == y;
  }

  /** A literal ends at its first bare quote, so what follows it cannot be confused with its content. */
  lemma {:induction false} LiteralsAreUnique(s: string, t: string, x: string, y: string)
    requires Literal(s, x) == Literal(t, y)
    ensures s == t && x == y
    decreases |s|
  {
    var left, right := Literal(s, x), Literal(t, y);
    assert left[0] == right[0];
    if |s| == 0 {
      assert |t| == 0;
      assert left[1..] == x && right[1..] == y;
    } else {
      assert |t| > 0;
      EscapesAreUnique(s[0], t[0], Literal(s[1..], x), Literal(t[1..], y));
      LiteralsAreUnique(s[1..], t[1..], x, y);
      assert s == [s[0]] + s[1..] && t == [t[0]] + t[1..];
    }
  }

  function AfterFirst(items: seq<string>): string
    requires |items| > 0
  {
    if |items| == 1 then [']'] else [','] + Items(items[1..])
  }

  lemma {:induction false} ItemsAreUnique(a: seq<string>, b: seq<string>)
    requires Items(a) == Items(b)
    ensures a == b
    decreases |a|
  {
    assert Items(a)[0] == Items(b)[0];
    if |a| > 0 && |b| > 0 {
      var x, y := AfterFirst(a), AfterFirst(b);
      assert Items(a)[1..] == Literal(a[0], x) && Items(b)[1..] == Literal(b[0], y);
      LiteralsAreUnique(a[0], b[0], x, y);
      assert x[0] == y[0];
      if |a| > 1 {
        assert x[1..] == Items(a[1..]) && y[1..] == Items(b[1..]);
        ItemsAreUnique(a[1..], b[1..]);
      }
      assert a == [a[0]] + a[1..] && b == [b[0]] + b[1..];
    }
  }

  /** Different lists of strings have different JSON texts. */
  lemma JsonArrayIsInjective(a: seq<string>, b: seq<string>)
    requires JsonArray(a) == JsonArray(b)
    ensures a == b
  {
    assert JsonArray(a)[1..] == Items(a) && JsonArray(b)[1..] == Items(b);
    ItemsAreUnique(a, b);
  }

  // ----- Execution ids -----

  /** The hashed tuple of an id; a child's contains its parent's digest. */
  function TupleOf(id: Id, digest: string -> string): seq<string>
    decreases id, 0
  {
    match id
    case Top(caller, key) => ["wrangnarok.execution.v1", caller.org, caller.user, key]
    case Child(caller, parent, step, saga, key) =>
      ["wrangnarok.child.v1", caller.org, caller.user, IdText(parent, digest), step, saga, key]
  }

  function IdText(id: Id, digest: string -> string): string
    decreases id, 1
  {
    digest(JsonArray(TupleOf(id, digest)))
  }

  ghost predicate Injective(digest: string -> string) {
    forall a, b :: digest(a) == digest(b) ==> a == b
  }

  /** Under an injective digest equal id texts come from equal tuples, at every depth of nesting: same caller, parent,
    * step, Saga and key reach the same row, any difference reaches another, and no child collides with a top-level id. */
  lemma {:induction false} IdsAreTheirTuples(a: Id, b: Id, digest: string -> string)
    requires Injective(digest) && IdText(a, digest) == IdText(b, digest)
    ensures a == b
    decreases a
  {
    var x, y := TupleOf(a, digest), TupleOf(b, digest);
    assert JsonArray(x) == JsonArray(y);
    JsonArrayIsInjective(x, y);
    assert |x| == |y|;
    if a.Child? {
      assert x[1] == y[1] && x[2] == y[2] && x[3] == y[3] && x[4] == y[4] && x[5] == y[5] && x[6] == y[6];
      IdsAreTheirTuples(a.parent, b.parent, digest);
    } else {
      assert x[1] == y[1] && x[2] == y[2] && x[3] == y[3];
    }
  }

}
