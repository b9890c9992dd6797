/** Text handling of the answer check (packages/shared: normalizeAnswer) and of the chat input. */
module Text {

  /** The characters matched by `\s` and removed by `String.prototype.trim`. */
  predicate IsSpace(c: char) {
    || '\U{0009}' <= c <= '\U{000d}' || c == ' ' || c == '\U{00a0}' || c == '\U{1680}'
    || '\U{2000}' <= c <= '\U{200a}' || c == '\U{2028}' || c == '\U{2029}' || c == '\U{202f}'
    || c == '\U{205f}' || c == '\U{3000}' || c == '\U{feff}'
  }

  function Lower(c: char): char {
    if 'A' <= c <= 'Z' then (c as int + 32) as char else c
  }

  function ToLower(s: string): string {
    seq(|s|, i requires 0 <= i < |s| => Lower(s[i]))
  }

  function TrimStart(s: string): string {
    if s != [] && IsSpace(s[0]) then TrimStart(s[1..]) else s
  }

  function TrimEnd(s: string): string {
    if s != [] && IsSpace(s[|s| - 1]) then TrimEnd(s[..|s| - 1]) else s
  }

  function Trim(s: string): string {
    TrimEnd(TrimStart(s))
  }

  /** `s.slice(0, n)` */
  function Clip<T>(s: seq<T>, n: nat): seq<T> {
    if |s| <= n then s else s[..n]
  }

  /** The first n at most, as they are. */
  lemma ClipTakesFirst<T>(s: seq<T>, n: nat)
    ensures Clip(s, n) <= s && |Clip(s, n)| == if |s| < n then |s| else n
  {
  }

  /** `s.replace(/\s+/g, "")` */
  function Squeeze(s: string): string {
    if s == [] then []
    else
      var n := |s| - 1;
      Squeeze(s[..n]) + (if IsSpace(s[n]) then [] else [s[n]])
  }

  function Normalize(s: string): string {
    Squeeze(ToLower(Trim(s)))
  }

  predicate At(s: string, t: string, i: int) {
    0 <= i && i + |t| <= |s| && s[i..i + |t|] == t
  }

  /** `s.includes(t)` */
  predicate Contains(s: string, t: string) {
    exists i :: 0 <= i <= |s| && At(s, t, i)
  }

  lemma {:induction false} SqueezeConcat(a: string, b: string)
    ensures Squeeze(a + b) == Squeeze(a) + Squeeze(b)
  {
    if b == [] {
      assert a + b == a;
    } else {
      var n := |b| - 1;
      SqueezeConcat(a, b[..n]);
      assert (a + b)[..|a + b| - 1] == a + b[..n];
    }
  }

  lemma {:induction false} TrimStartInvisible(s: string)
    ensures Squeeze(ToLower(TrimStart(s))) == Squeeze(ToLower(s))
  {
    if s != [] && IsSpace(s[0]) {
      TrimStartInvisible(s[1..]);
      var head := ToLower([s[0]]);
      assert ToLower(s) == head + ToLower(s[1..]);
      SqueezeConcat(head, ToLower(s[1..]));
      assert Squeeze(head[..0]) == [];
    }
  }

  lemma {:induction false} TrimEndInvisible(s: string)
    ensures Squeeze(ToLower(TrimEnd(s))) == Squeeze(ToLower(s))
  {
    if s != [] && IsSpace(s[|s| - 1]) {
      TrimEndInvisible(s[..|s| - 1]);
      assert ToLower(s)[..|s| - 1] == ToLower(s[..|s| - 1]);
    }
  }

  lemma NormalizeIgnoresTrim(s: string)
    ensures Normalize(s) == Squeeze(ToLower(s))
  {
    TrimEndInvisible(TrimStart(s));
    TrimStartInvisible(s);
  }

  /** Normalising commutes with concatenation, so a piece of a text stays a piece of it. */
  lemma {:induction false} NormalizeConcat(a: string, b: string)
    ensures Normalize(a + b) == Normalize(a) + Normalize(b)
  {
    NormalizeIgnoresTrim(a);
    NormalizeIgnoresTrim(b);
    NormalizeIgnoresTrim(a + b);
    assert ToLower(a + b) == ToLower(a) + ToLower(b);
    SqueezeConcat(ToLower(a), ToLower(b));
  }

  /**
   * A text that carries some spelling of the secret, whatever its spacing and case, normalises to a
   * text that contains the normalised secret.
   */
  lemma {:induction false} SpellingIsCaught(before: string, spelling: string, after: string, secret: string)
    requires Normalize(spelling) == Normalize(secret)
    ensures Contains(Normalize(before + spelling + after), Normalize(secret))
  {
    NormalizeConcat(before + spelling, after);
    NormalizeConcat(before, spelling);
    var a, b, c := Normalize(before), Normalize(secret), Normalize(after);
    assert At(a + b + c, b, |a|);
  }

  /** Normalising one more character: nothing for white space, its small letter for a capital, itself otherwise. */
  lemma NormalizeSnoc(s: string, c: char)
    ensures Normalize(s + [c]) == Normalize(s) + if IsSpace(c) then [] else [Lower(c)]
  {
    NormalizeIgnoresTrim(s);
    NormalizeIgnoresTrim(s + [c]);
    assert ToLower(s + [c]) == ToLower(s) + [Lower(c)];
    assert (ToLower(s) + [Lower(c)])[..|s|] == ToLower(s);
  }

  lemma NormalizeOne(c: char)
    ensures Normalize([c]) == if IsSpace(c) then [] else [Lower(c)]
  {
    NormalizeSnoc([], c);
    assert [] + [c] == [c];
  }

  lemma NormalizeParts(before: string, c: char, after: string)
    ensures Normalize(before + [c] + after) == Normalize(before) + Normalize([c]) + Normalize(after)
  {
    NormalizeConcat(before + [c], after);
    NormalizeConcat(before, [c]);
  }

  lemma SpacesVanish(before: string, space: char, after: string)
    requires IsSpace(space)
    ensures Normalize(before + [space] + after) == Normalize(before + after)
  {
    NormalizeOne(space);
    NormalizeParts(before, space, after);
    NormalizeConcat(before, after);
    assert Normalize(before) + [] == Normalize(before);
  }

  /** Blanks, tabs, line ends and the wide blanks of other scripts do not count. */
  lemma SpacesDoNotCount(before: string, space: char, after: string)
    requires space in {' ', '\t', '\n', '\r', '\U{000b}', '\U{000c}', '\U{00a0}', '\U{3000}'}
    ensures Normalize(before + [space] + after) == Normalize(before + after)
  {
    SpacesVanish(before, space, after);
  }

  /** A capital and its small letter count as one. */
  lemma CaseDoesNotCount(before: string, capital: char, after: string)
    requires 'A' <= capital <= 'Z'
    ensures Normalize(before + [capital] + after)
            == Normalize(before + [(capital as int - 'A' as int + 'a' as int) as char] + after)
  {
    var small := (capital as int - 'A' as int + 'a' as int) as char;
    NormalizeOne(capital);
    NormalizeOne(small);
    NormalizeParts(before, capital, after);
    NormalizeParts(before, small, after);
  }

  /** Everything else counts: a text without white space and capitals is left as it is. */
  lemma {:induction false} TheRestCounts(s: string)
    requires forall i :: 0 <= i < |s| ==> !IsSpace(s[i]) && !('A' <= s[i] <= 'Z')
    ensures Normalize(s) == s
  {
    if s != [] {
      var n := |s| - 1;
      TheRestCounts(s[..n]);
      NormalizeSnoc(s[..n], s[n]);
      assert s == s[..n] + [s[n]];
    }
  }

  predicate Blank(s: string) {
    forall i :: 0 <= i < |s| ==> IsSpace(s[i])
  }

  lemma {:induction false} StartIsBlank(s: string) returns (before: string)
    ensures Blank(before) && s == before + TrimStart(s)
    ensures TrimStart(s) != [] ==> !IsSpace(TrimStart(s)[0])
  {
    before := [];
    if s != [] && IsSpace(s[0]) {
      before := StartIsBlank(s[1..]);
      before := [s[0]] + before;
    }
  }

  lemma {:induction false} EndIsBlank(s: string) returns (after: string)
    ensures Blank(after) && s == TrimEnd(s) + after
    ensures TrimEnd(s) != [] ==> !IsSpace(TrimEnd(s)[|TrimEnd(s)| - 1])
  {
    after := [];
    if s != [] && IsSpace(s[|s| - 1]) {
      after := EndIsBlank(s[..|s| - 1]);
      after := after + [s[|s| - 1]];
    }
  }

  /** Trimming takes away white space at both ends, all of it, and nothing else. */
  lemma TrimTakesBlanks(s: string) returns (before: string, after: string)
    ensures Blank(before) && Blank(after) && s == before + Trim(s) + after
    ensures Trim(s) != [] ==> !IsSpace(Trim(s)[0]) && !IsSpace(Trim(s)[|Trim(s)| - 1])
  {
    before := StartIsBlank(s);
    after := EndIsBlank(TrimStart(s));
    assert s == before + (Trim(s) + after);
  }

  lemma DropLast(s: string, c: char, t: string)
    requires s + [c] == t
    ensures t != [] && t[..|t| - 1] == s && t[|t| - 1] == c
  {
  }

  lemma DropLastOf(x: string, y: string)
    requires y != []
    ensures (x + y)[..|x + y| - 1] == x + y[..|y| - 1] && (x + y)[|x + y| - 1] == y[|y| - 1]
  {
  }

  /** The last character of a normalised text that ends in y comes last in y, unless it vanished. */
  lemma SplitBeforeLast(front: string, c: char, x: string, y: string)
    requires Normalize(front + [c]) == x + y && y != []
    ensures if IsSpace(c) then Normalize(front) == x + y
            else Normalize(front) == x + y[..|y| - 1] && Lower(c) == y[|y| - 1]
  {
    NormalizeSnoc(front, c);
    if IsSpace(c) {
      assert Normalize(front) + [] == Normalize(front);
    } else {
      DropLast(Normalize(front), Lower(c), x + y);
      DropLastOf(x, y);
    }
  }

  /** A beginning of the normalised text comes from a beginning of the text. */
  lemma {:induction false} NormalizeSplits(text: string, x: string, y: string) returns (p: string, q: string)
    requires Normalize(text) == x + y
    ensures text == p + q && Normalize(p) == x && Normalize(q) == y
  {
    if y == [] {
      p, q := text, [];
      assert x + y == x;
    } else {
      var front, c := text[..|text| - 1], text[|text| - 1];
      assert text == front + [c];
      SplitBeforeLast(front, c, x, y);
      p, q := NormalizeSplits(front, x, if IsSpace(c) then y else y[..|y| - 1]);
      assert p + (q + [c]) == (p + q) + [c];
      SplitGoesOn(q, c, y);
      q := q + [c];
    }
  }

  lemma SplitGoesOn(q: string, c: char, y: string)
    requires y != [] && (IsSpace(c) || Lower(c) == y[|y| - 1])
    requires Normalize(q) == if IsSpace(c) then y else y[..|y| - 1]
    ensures Normalize(q + [c]) == y
  {
    NormalizeSnoc(q, c);
    assert y + [] == y && y[..|y| - 1] + [y[|y| - 1]] == y;
  }

  /** If a normalised text includes a normalised word, some part of the text spells the word. */
  lemma {:induction false} CaughtIsSpelt(text: string, word: string)
    returns (before: string, spelling: string, after: string)
    requires Contains(Normalize(text), Normalize(word))
    ensures before + spelling + after == text && Normalize(spelling) == Normalize(word)
  {
    var whole, part := Normalize(text), Normalize(word);
    var i :| 0 <= i <= |whole| && At(whole, part, i);
    assert whole == (whole[..i] + part) + whole[i + |part|..];
    var front: string;
    front, after := NormalizeSplits(text, whole[..i] + part, whole[i + |part|..]);
    before, spelling := NormalizeSplits(front, whole[..i], part);
  }
}
