/** The text of a page cursor: base64url (section 5 of RFC 4648) of "finishedAt|gameId" (history.service.ts). */
module Cursor {
  import opened Basics

  type Byte = b: int | 0 <= b < 256
  type Sextet = d: int | 0 <= d < 64

  /** The URL-safe alphabet: A-Z, a-z, 0-9, `-` and `_`. */
  function Letter(d: Sextet): char {
    if d < 26 then ('A' as int + d) as char
    else if d < 52 then ('a' as int + d - 26) as char
    else if d < 62 then ('0' as int + d - 52) as char
    else if d == 62 then '-'
    else '_'
  }

  /** The value of a letter; the other base64 alphabet's `+` and `/` are read too, anything else is skipped. */
  function Value(c: char): Option<Sextet> {
    if 'A' <= c <= 'Z' then Some(c as int - 'A' as int)
    else if 'a' <= c <= 'z' then Some(c as int - 'a' as int + 26)
    else if '0' <= c <= '9' then Some(c as int - '0' as int + 52)
    else if c == '-' || c == '+' then Some(62)
    else if c == '_' || c == '/' then Some(63)
    else None
  }

  function Sextets(b: seq<Byte>): seq<Sextet> {
    if b == [] then []
    else if |b| == 1 then [b[0] / 4, b[0] % 4 * 16]
    else if |b| == 2 then [b[0] / 4, b[0] % 4 * 16 + b[1] / 16, b[1] % 16 * 4]
    else [b[0] / 4, b[0] % 4 * 16 + b[1] / 16, b[1] % 16 * 4 + b[2] / 64, b[2] % 64] + Sextets(b[3..])
  }

  /** A single left-over sextet is dropped. */
  function Bytes(d: seq<Sextet>): seq<Byte> {
    if |d| <= 1 then []
    else if |d| == 2 then [First(d[0], d[1])]
    else if |d| == 3 then [First(d[0], d[1]), Second(d[1], d[2])]
    else [First(d[0], d[1]), Second(d[1], d[2]), Third(d[2], d[3])] + Bytes(d[4..])
  }

  // The three bytes that four sextets hold.

  function First(a: Sextet, b: Sextet): Byte {
    a * 4 + b / 16
  }

  function Second(b: Sextet, c: Sextet): Byte {
    b % 16 * 16 + c / 4
  }

  function Third(c: Sextet, d: Sextet): Byte {
    c % 4 * 64 + d
  }

  function Spell(d: seq<Sextet>): string {
    seq(|d|, i requires 0 <= i < |d| => Letter(d[i]))
  }

  function Read(s: string): seq<Sextet> {
    if s == [] then []
    else (match Value(s[0]) case None => [] case Some(v) => [v]) + Read(s[1..])
  }

  /** The bytes of a text of ASCII characters; other characters do not occur in a cursor. */
  predicate Ascii(s: string) {
    forall i :: 0 <= i < |s| ==> (s[i] as int) < 128
  }

  function ToBytes(s: string): seq<Byte>
    requires Ascii(s)
  {
    seq(|s|, i requires 0 <= i < |s| => s[i] as int)
  }

  /** Bytes of 128 and above do not spell ASCII text; they become the replacement character. */
  function ToText(b: seq<Byte>): string {
    seq(|b|, i requires 0 <= i < |b| => if b[i] < 128 then b[i] as char else '\U{fffd}')
  }

  /** `s.split("|")`, the part before the first bar and the rest after it, if there is a bar. */
  function CutAtBar(s: string): (string, Option<string>) {
    if s == [] then ("", None)
    else if s[0] == '|' then ("", Some(s[1..]))
    else
      var (head, tail) := CutAtBar(s[1..]);
      ([s[0]] + head, tail)
  }

  predicate IsIdChar(c: char) {
    '0' <= c <= '9' || 'a' <= c <= 'f' || 'A' <= c <= 'F' || c == '-'
  }

  /** /^[0-9a-f-]{36}$/i */
  predicate IsGameId(s: string) {
    |s| == 36 && forall i :: 0 <= i < |s| ==> IsIdChar(s[i])
  }

  function EncodeCursor(finishedAt: string, gameId: string): string
    requires Ascii(finishedAt) && Ascii(gameId)
  {
    Spell(Sextets(ToBytes(finishedAt + "|" + gameId)))
  }

  /** The text that a cursor spells. */
  function TextOf(cursor: string): string {
    ToText(Bytes(Read(cursor)))
  }

  /** parses stands for `!Number.isNaN(Date.parse(text))`. */
  function DecodeCursor(cursor: string, parses: string -> bool): Option<(string, string)> {
    var (finishedAt, rest) := CutAtBar(TextOf(cursor));
    match rest
    case None => None
    case Some(tail) =>
      var gameId := CutAtBar(tail).0;
      if finishedAt == "" || gameId == "" || !parses(finishedAt) then None
      else if !IsGameId(gameId) then None
      else Some((finishedAt, gameId))
  }

  /** The letters of Table 2 of RFC 4648: capitals, small letters and digits, each run in its order, then `-`, `_`. */
  lemma LettersAreUrlSafe(d: Sextet)
    ensures Letter(0) == 'A' && Letter(25) == 'Z' && Letter(26) == 'a' && Letter(51) == 'z'
    ensures Letter(52) == '0' && Letter(61) == '9' && Letter(62) == '-' && Letter(63) == '_'
    ensures d !in {25, 51, 61, 62, 63} ==> Letter(d + 1) as int == Letter(d) as int + 1
  {
  }

  /** Four letters stand for 24 bits, three bytes in their order. */
  lemma SextetsAreTheBits(x: Byte, y: Byte, z: Byte, rest: seq<Byte>)
    ensures var d := Sextets([x, y, z] + rest);
            && |d| >= 4 && d[4..] == Sextets(rest)
            && 262144 * (d[0] as int) + 4096 * (d[1] as int) + 64 * (d[2] as int) + d[3] as int
               == 65536 * (x as int) + 256 * (y as int) + z as int
  {
    assert ([x, y, z] + rest)[3..] == rest;
  }

  lemma FourSextetsHoldThreeBytes(x: Byte, y: Byte, z: Byte)
    ensures First(x / 4, x % 4 * 16 + y / 16) == x
    ensures Second(x % 4 * 16 + y / 16, y % 16 * 4 + z / 64) == y
    ensures Third(y % 16 * 4 + z / 64, z % 64) == z
  {
  }

  lemma {:induction false} BytesOfSextets(b: seq<Byte>)
    ensures Bytes(Sextets(b)) == b
  {
    if |b| == 1 {
      FourSextetsHoldThreeBytes(b[0], 0, 0);
    } else if |b| == 2 {
      FourSextetsHoldThreeBytes(b[0], b[1], 0);
    } else if |b| >= 3 {
      BytesOfSextets(b[3..]);
      FourSextetsHoldThreeBytes(b[0], b[1], b[2]);
      var four := [b[0] / 4, b[0] % 4 * 16 + b[1] / 16, b[1] % 16 * 4 + b[2] / 64, b[2] % 64];
      var rest := Sextets(b[3..]);
      assert Sextets(b) == four + rest;
      assert (four + rest)[4..] == rest;
      assert b == [b[0], b[1], b[2]] + b[3..];
    }
  }

  lemma ValueOfLetter(d: Sextet)
    ensures Value(Letter(d)) == Some(d)
  {
  }

  lemma {:induction false} ReadOfSpell(d: seq<Sextet>)
    ensures Read(Spell(d)) == d
  {
    if d != [] {
      ValueOfLetter(d[0]);
      ReadOfSpell(d[1..]);
      assert Spell(d)[1..] == Spell(d[1..]);
    }
  }

  lemma {:induction false} CutRejoins(head: string, tail: string)
    requires '|' !in head
    ensures CutAtBar(head + "|" + tail) == (head, Some(tail))
    ensures CutAtBar(head) == (head, None)
  {
    var whole := head + "|" + tail;
    if head == [] {
      assert whole[1..] == tail;
    } else {
      CutRejoins(head[1..], tail);
      assert whole[1..] == head[1..] + "|" + tail;
      assert [head[0]] + head[1..] == head;
    }
  }

  /** A cursor made from a line leads back to that line's time and game. */
  lemma CursorRoundTrips(finishedAt: string, gameId: string, parses: string -> bool)
    requires Ascii(finishedAt) && finishedAt != "" && '|' !in finishedAt && parses(finishedAt)
    requires Ascii(gameId) && IsGameId(gameId)
    ensures DecodeCursor(EncodeCursor(finishedAt, gameId), parses) == Some((finishedAt, gameId))
  {
    var text := finishedAt + "|" + gameId;
    ReadOfSpell(Sextets(ToBytes(text)));
    BytesOfSextets(ToBytes(text));
    assert ToText(ToBytes(text)) == text;
    CutRejoins(finishedAt, gameId);
    NoBarInId(gameId);
    CutRejoins(gameId, "");
  }

  lemma {:induction false} CutSays(s: string)
    ensures var (head, tail) := CutAtBar(s);
            && '|' !in head && s == head + match tail case None => "" case Some(rest) => "|" + rest
  {
    if s != [] && s[0] != '|' {
      CutSays(s[1..]);
      assert s == [s[0]] + s[1..];
    }
  }

  /** The text is that time and that id with a bar between them, and perhaps more behind another bar. */
  predicate Holds(text: string, finishedAt: string, gameId: string, more: string) {
    text == finishedAt + "|" + gameId + more && (more == "" || more[0] == '|')
  }

  /** A cursor is read exactly if its bytes spell a time that parses and an id of 36 hexadecimal digits and dashes. */
  lemma CursorsReadAre(cursor: string, parses: string -> bool, finishedAt: string, gameId: string)
    ensures DecodeCursor(cursor, parses) == Some((finishedAt, gameId))
            <==> && finishedAt != "" && '|' !in finishedAt && parses(finishedAt) && IsGameId(gameId)
                 && exists more :: Holds(TextOf(cursor), finishedAt, gameId, more)
  {
    var text := TextOf(cursor);
    if DecodeCursor(cursor, parses) == Some((finishedAt, gameId)) {
      CutSays(text);
      var tail := CutAtBar(text).1.value;
      CutSays(tail);
      var more := tail[|gameId|..];
      assert tail == gameId + more;
      assert Holds(text, finishedAt, gameId, more);
    }
    if finishedAt != "" && '|' !in finishedAt && parses(finishedAt) && IsGameId(gameId)
       && exists more :: Holds(text, finishedAt, gameId, more) {
      var more :| Holds(text, finishedAt, gameId, more);
      assert text == finishedAt + "|" + (gameId + more);
      CutRejoins(finishedAt, gameId + more);
      IdIsCut(gameId, more);
    }
  }

  /** The id ends at the next bar. */
  lemma IdIsCut(gameId: string, more: string)
    requires IsGameId(gameId) && (more == "" || more[0] == '|')
    ensures CutAtBar(gameId + more).0 == gameId
  {
    NoBarInId(gameId);
    if more == "" {
      CutRejoins(gameId, "");
      assert gameId + more == gameId;
    } else {
      CutRejoins(gameId, more[1..]);
      assert gameId + more == gameId + "|" + more[1..];
    }
  }

  lemma NoBarInId(gameId: string)
    requires IsGameId(gameId)
    ensures '|' !in gameId
  {
    assert forall i :: 0 <= i < |gameId| ==> IsIdChar(gameId[i]);
  }
}
