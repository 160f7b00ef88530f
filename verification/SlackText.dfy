/**
 Escaping and splitting text for Slack sections (`api/slack_feed_context.py`).
 */
module SlackText {
  import opened Outcomes
  import opened Sequences
  import opened Text

  // ------------------------------------------------------------------- escaping

  function Replace(s: string, c: char, entity: string): string {
    if s == "" then "" else (if s[0] == c then entity else [s[0]]) + Replace(s[1..], c, entity)
  }

  // _slack_escape: three passes, ampersands first.
  function SlackEscape(s: string): string {
    Replace(Replace(Replace(s, '&', "&amp;"), '<', "&lt;"), '>', "&gt;")
  }

  function EscapedChar(c: char): string {
    if c == '&' then "&amp;" else if c == '<' then "&lt;" else if c == '>' then "&gt;" else [c]
  }

  function EscapeEach(s: string): string {
    if s == "" then "" else EscapedChar(s[0]) + EscapeEach(s[1..])
  }

  lemma {:induction false} ReplaceJoins(a: string, b: string, c: char, entity: string)
    ensures Replace(a + b, c, entity) == Replace(a, c, entity) + Replace(b, c, entity)
  {
    if a == "" {
      assert a + b == b && "" + Replace(b, c, entity) == Replace(b, c, entity);
    } else {
      assert (a + b)[1..] == a[1..] + b;
      ReplaceJoins(a[1..], b, c, entity);
      var head := if a[0] == c then entity else [a[0]];
      assert head + (Replace(a[1..], c, entity) + Replace(b, c, entity)) == (head + Replace(a[1..], c, entity)) + Replace(b, c, entity);
    }
  }

  lemma {:induction false} ReplaceAbsent(s: string, c: char, entity: string)
    requires c !in s
    ensures Replace(s, c, entity) == s
  {
    if s != "" {
      ReplaceAbsent(s[1..], c, entity);
      assert s == [s[0]] + s[1..];
    }
  }

  lemma {:induction false} ReplaceOne(c: char, d: char, entity: string)
    ensures Replace([c], d, entity) == if c == d then entity else [c]
  {
    assert [c][1..] == "";
  }

  lemma EscapeOne(c: char)
    ensures SlackEscape([c]) == EscapedChar(c)
  {
    ReplaceOne(c, '&', "&amp;");
    if c == '&' {
      ReplaceAbsent("&amp;", '<', "&lt;");
      ReplaceAbsent("&amp;", '>', "&gt;");
    } else {
      ReplaceOne(c, '<', "&lt;");
      if c == '<' { ReplaceAbsent("&lt;", '>', "&gt;"); } else { ReplaceOne(c, '>', "&gt;"); }
    }
  }

  // Replacing in three passes is escaping character by character: no pass touches what another wrote.
  lemma {:induction false} ThreePassesAreOne(s: string)
    ensures SlackEscape(s) == EscapeEach(s)
  {
    if s != "" {
      var a, b := [s[0]], s[1..];
      assert s == a + b;
      ThreePassesAreOne(b);
      EscapeOne(s[0]);
      ReplaceJoins(a, b, '&', "&amp;");
      var a1, b1 := Replace(a, '&', "&amp;"), Replace(b, '&', "&amp;");
      ReplaceJoins(a1, b1, '<', "&lt;");
      ReplaceJoins(Replace(a1, '<', "&lt;"), Replace(b1, '<', "&lt;"), '>', "&gt;");
    }
  }

  // -------------------------------------------------------------------- unescaping

  predicate StartsWith(s: string, entity: string) {
    |s| >= |entity| && s[..|entity|] == entity
  }

  function Unescape(s: string): string {
    if s == "" then ""
    else if StartsWith(s, "&amp;") then "&" + Unescape(s[5..])
    else if StartsWith(s, "&lt;") then "<" + Unescape(s[4..])
    else if StartsWith(s, "&gt;") then ">" + Unescape(s[4..])
    else [s[0]] + Unescape(s[1..])
  }

  lemma DiffersAt(s: string, entity: string, k: nat)
    requires k < |s| && k < |entity| && s[k] != entity[k]
    ensures !StartsWith(s, entity)
  {
    assert |s| >= |entity| ==> s[..|entity|][k] == s[k];
  }

  lemma {:induction false} UnescapeFirst(c: char, rest: string)
    ensures Unescape(EscapedChar(c) + rest) == [c] + Unescape(rest)
  {
    var e := EscapedChar(c);
    var s := e + rest;
    assert s[..|e|] == e && s[|e|..] == rest && s[0] == e[0];
    if c == '<' {
      assert s[1] == e[1];
      DiffersAt(s, "&amp;", 1);
    } else if c == '>' {
      assert s[1] == e[1];
      DiffersAt(s, "&amp;", 1);
      DiffersAt(s, "&lt;", 1);
    } else if c != '&' {
      DiffersAt(s, "&amp;", 0);
      DiffersAt(s, "&lt;", 0);
      DiffersAt(s, "&gt;", 0);
    }
  }

  // Unescaping gives back what was escaped.
  lemma {:induction false} UnescapeEscaped(s: string)
    ensures Unescape(EscapeEach(s)) == s
  {
    if s != "" {
      UnescapeFirst(s[0], EscapeEach(s[1..]));
      UnescapeEscaped(s[1..]);
      assert s == [s[0]] + s[1..];
    }
  }

  lemma {:induction false} EscapeJoins(a: string, b: string)
    ensures EscapeEach(a + b) == EscapeEach(a) + EscapeEach(b)
  {
    if a == "" {
      assert a + b == b && "" + EscapeEach(b) == EscapeEach(b);
    } else {
      assert (a + b)[1..] == a[1..] + b;
      EscapeJoins(a[1..], b);
      assert EscapedChar(a[0]) + (EscapeEach(a[1..]) + EscapeEach(b)) == (EscapedChar(a[0]) + EscapeEach(a[1..])) + EscapeEach(b);
    }
  }

  lemma {:induction false} EscapeLast(s: string, c: char)
    ensures EscapeEach(s + [c]) == EscapeEach(s) + EscapedChar(c)
  {
    EscapeJoins(s, [c]);
    assert [c][1..] == "" && EscapedChar(c) + "" == EscapedChar(c);
  }

  // --------------------------------------------------------------------- splitting

  function Shown(value: string): string {
    var raw := Trim(value);
    if raw == "" then "(no text)" else raw
  }

  // Chunk by chunk, what the chunks stand for: every piece is a stretch of the text, escaped on its own.
  ghost predicate Splits(text: string, slices: seq<string>, chunks: seq<string>, limit: int) {
    && |slices| == |chunks| && Flatten(slices) == text
    && (forall i | 0 <= i < |chunks| :: Piece(slices[i], chunks[i], limit))
    && (forall i | 0 < i < |chunks| :: Full(chunks[i - 1], slices[i], limit))
  }

  // A chunk is the escape of its slice, and fits unless it is a single character.
  ghost predicate Piece(slice: string, chunk: string, limit: int) {
    slice != "" && chunk == EscapeEach(slice) && (|chunk| <= limit || |slice| == 1)
  }

  // The next slice could not have begun in this chunk.
  ghost predicate Full(chunk: string, next: string, limit: int) {
    next != "" && |chunk| + |EscapedChar(next[0])| > limit
  }

  lemma SplitExtended(text: string, slices: seq<string>, chunks: seq<string>, slice: string, chunk: string, limit: int, c: char)
    requires Splits(text, slices + [slice], chunks + [chunk], limit) && |slices| == |chunks|
    requires |chunk| + |EscapedChar(c)| <= limit
    ensures Splits(text + [c], slices + [slice + [c]], chunks + [chunk + EscapedChar(c)], limit)
  {
    hide Flatten, EscapeEach, EscapedChar, Full;
    var slices0, chunks0, n := slices + [slice], chunks + [chunk], |slices|;
    var slices1, chunks1 := slices + [slice + [c]], chunks + [chunk + EscapedChar(c)];
    FlattenAppends(slices, slice);
    FlattenAppends(slices, slice + [c]);
    assert Flatten(slices) + (slice + [c]) == (Flatten(slices) + slice) + [c];
    assert slices0[n] == slice && chunks0[n] == chunk;
    EscapeLast(slice, c);
    forall i | 0 <= i < |chunks1| ensures Piece(slices1[i], chunks1[i], limit) {
      assert Piece(slices0[i], chunks0[i], limit);
    }
    forall i | 0 < i < |chunks1| ensures Full(chunks1[i - 1], slices1[i], limit) {
      assert Full(chunks0[i - 1], slices0[i], limit);
      if i == n { FullStill(chunks1[i - 1], slice, limit, c); }
    }
  }

  lemma FullStill(chunk: string, next: string, limit: int, c: char)
    ensures Full(chunk, next, limit) ==> Full(chunk, next + [c], limit)
  {
  }

  lemma SplitClosed(text: string, slices: seq<string>, chunks: seq<string>, limit: int, c: char)
    requires Splits(text, slices, chunks, limit) && (chunks != [] ==> |chunks[|chunks| - 1]| + |EscapedChar(c)| > limit)
    ensures Splits(text + [c], slices + [[c]], chunks + [EscapedChar(c)], limit)
  {
    hide EscapedChar, EscapeEach, Flatten;
    FlattenAppends(slices, [c]);
    EscapeLast("", c);
    NothingEscaped();
    assert "" + [c] == [c] && "" + EscapedChar(c) == EscapedChar(c);
    var slices1, chunks1, n := slices + [[c]], chunks + [EscapedChar(c)], |chunks|;
    forall i | 0 <= i < |chunks1| ensures Piece(slices1[i], chunks1[i], limit) {
      if i < n { assert Piece(slices[i], chunks[i], limit); }
    }
    forall i | 0 < i < |chunks1| ensures Full(chunks1[i - 1], slices1[i], limit) {
      if i < n { assert Full(chunks[i - 1], slices[i], limit); }
    }
  }

  lemma NothingEscaped()
    ensures EscapeEach("") == ""
  {
  }

  // _split_slack_text; `slices` is the text each chunk stands for.
  method SplitSlackText(value: string, limit: int) returns (chunks: seq<string>, ghost slices: seq<string>)
    ensures Splits(Shown(value), slices, chunks, limit)
    ensures chunks != [] && Flatten(chunks) == SlackEscape(Shown(value))
    ensures forall i | 0 <= i < |chunks| :: |chunks[i]| <= Max(limit, 5)
    ensures forall i | 0 <= i < |chunks| :: Unescape(chunks[i]) == slices[i]
    ensures Unescape(Flatten(chunks)) == Shown(value)
    // Nothing is dropped but surrounding space, and no chunk had room for the next character.
    ensures Flatten(slices) == if Trim(value) != "" then Trim(value) else "(no text)"
    ensures forall i | 0 < i < |chunks| :: slices[i] != "" && |chunks[i - 1]| + |SlackEscape([slices[i][0]])| > limit
  {
    hide Trim, Splits, EscapedChar, Flatten;
    var raw := Shown(value);
    chunks, slices := [], [];
    var current := "";
    ghost var slice := "";
    var i := 0;
    NothingSplit(limit);
    while i < |raw|
      invariant 0 <= i <= |raw| && |slices| == |chunks| && (i == 0 ==> current == slice == "" && chunks == [])
      invariant i > 0 ==> current != "" && Splits(raw[..i], slices + [slice], chunks + [current], limit)
    {
      var c := raw[i];
      assert raw[..i + 1] == raw[..i] + [c];
      var escaped := EscapedChar(c);
      EscapedNonempty(c);
      if current != "" && |current| + |escaped| > limit {
        SplitClosed(raw[..i], slices + [slice], chunks + [current], limit, c);
        chunks, slices := chunks + [current], slices + [slice];
        current, slice := escaped, [c];
      } else {
        if i > 0 {
          SplitExtended(raw[..i], slices, chunks, slice, current, limit, c);
        } else {
          SplitClosed("", [], [], limit, c);
          assert "" + [c] == [c] && "" + escaped == escaped;
          assert raw[..0] == "" && [] + [[c]] == [[c]] && [] + [escaped] == [escaped];
        }
        current, slice := current + escaped, slice + [c];
      }
      i := i + 1;
    }
    assert raw[..i] == raw;
    ShownNonempty(value);
    chunks, slices := chunks + [current], slices + [slice];
    SplitFacts(raw, slices, chunks, limit);
    SplitsFull(raw, slices, chunks, limit);
    ThreePassesAreOne(raw);
    UnescapeEscaped(raw);
  }

  lemma SplitsFull(text: string, slices: seq<string>, chunks: seq<string>, limit: int)
    requires Splits(text, slices, chunks, limit)
    ensures Flatten(slices) == text
    ensures forall i | 0 < i < |chunks| :: slices[i] != "" && |chunks[i - 1]| + |SlackEscape([slices[i][0]])| > limit
  {
    forall i | 0 < i < |chunks| ensures slices[i] != "" && |chunks[i - 1]| + |SlackEscape([slices[i][0]])| > limit {
      assert Full(chunks[i - 1], slices[i], limit);
      var c := slices[i][0];
      ThreePassesAreOne([c]);
      EscapeLast("", c);
      NothingEscaped();
      assert "" + [c] == [c] && "" + EscapedChar(c) == EscapedChar(c);
    }
  }

  lemma NothingSplit(limit: int)
    ensures Splits("", [], [], limit)
  {
  }

  lemma EscapedNonempty(c: char)
    ensures 1 <= |EscapedChar(c)| <= 5
  {
  }

  lemma ShownNonempty(value: string)
    ensures Shown(value) != ""
  {
  }

  lemma {:induction false} SplitFacts(text: string, slices: seq<string>, chunks: seq<string>, limit: int)
    requires Splits(text, slices, chunks, limit)
    ensures Flatten(chunks) == EscapeEach(text)
    ensures forall i | 0 <= i < |chunks| :: |chunks[i]| <= Max(limit, 5) && Unescape(chunks[i]) == slices[i]
  {
    assert forall i | 0 <= i < |chunks| :: Piece(slices[i], chunks[i], limit);
    EscapesFlatten(slices, chunks);
    forall i | 0 <= i < |chunks| ensures |chunks[i]| <= Max(limit, 5) && Unescape(chunks[i]) == slices[i] {
      UnescapeEscaped(slices[i]);
      if |slices[i]| == 1 {
        EscapeLast("", slices[i][0]);
        assert slices[i] == "" + [slices[i][0]];
        EscapedNonempty(slices[i][0]);
      }
    }
  }

  lemma {:induction false} EscapesFlatten(slices: seq<string>, chunks: seq<string>)
    requires |slices| == |chunks| && forall i | 0 <= i < |chunks| :: chunks[i] == EscapeEach(slices[i])
    ensures Flatten(chunks) == EscapeEach(Flatten(slices))
  {
    if chunks != [] {
      EscapesFlatten(slices[1..], chunks[1..]);
      EscapeJoins(slices[0], Flatten(slices[1..]));
    }
  }
}
