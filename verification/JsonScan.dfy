/**
 The brace scanner that finds JSON objects in a model's prose.

 The scanner knows strings and nesting only; what a span means is left to the JSON
 parser, an arbitrary function here.
 */
module JsonScan {
  import opened Basics

  // ---- The scanner ----------------------------------------------------------------------

  datatype Span = Span(lo: nat, hi: nat)

  datatype Scan = Scan(depth: nat, start: int, inString: bool, escaped: bool, spans: seq<Span>)

  const FRESH := Scan(0, -1, false, false, [])

  /** The scanner's state after one more character, the one at position `at`. */
  function Step(s: Scan, c: char, at: nat): Scan {
    if s.inString then
      if s.escaped then s.(escaped := false)
      else if c == '\\' then s.(escaped := true)
      else if c == '"' then s.(inString := false)
      else s
    else if c == '"' then s.(inString := true)
    else if c == '{' then s.(start := if s.depth == 0 then at else s.start, depth := s.depth + 1)
    else if c == '}' && s.depth > 0 then
      if s.depth == 1 && s.start >= 0 then s.(depth := 0, spans := s.spans + [Span(s.start, at + 1)])
      else s.(depth := s.depth - 1)
    else s
  }

  /** The state after the text `t`, which begins at position `at`. */
  function Run(s: Scan, t: string, at: nat): Scan
    decreases |t|
  {
    if t == "" then s else Run(Step(s, t[0], at), t[1..], at + 1)
  }

  lemma {:induction false} RunConcat(s: Scan, a: string, b: string, at: nat)
    ensures Run(s, a + b, at) == Run(Run(s, a, at), b, at + |a|)
    decreases |a|
  {
    if a == "" {
      assert a + b == b;
    } else {
      assert (a + b)[0] == a[0] && (a + b)[1..] == a[1..] + b;
      RunConcat(Step(s, a[0], at), a[1..], b, at + 1);
    }
  }

  lemma RunSnoc(s: Scan, t: string, c: char, at: nat)
    ensures Run(s, t + [c], at) == Step(Run(s, t, at), c, at + |t|)
  {
    RunConcat(s, t, [c], at);
  }

  method FindSpans(text: string) returns (spans: seq<Span>)
    ensures spans == Run(FRESH, text, 0).spans
    ensures forall i :: 0 <= i < |spans| ==> spans[i].lo < spans[i].hi <= |text|
  {
    var depth, start, inString, escaped := 0, -1, false, false;
    spans := [];
    for index := 0 to |text|
      invariant Run(FRESH, text[..index], 0) == Scan(depth, start, inString, escaped, spans)
      invariant 0 <= depth && -1 <= start < index && (depth > 0 ==> 0 <= start)
      invariant forall i :: 0 <= i < |spans| ==> spans[i].lo < spans[i].hi <= index
    {
      var c := text[index];
      assert text[..index + 1] == text[..index] + [c];
      RunSnoc(FRESH, text[..index], c, 0);
      if inString {
        if escaped {
          escaped := false;
        } else if c == '\\' {
          escaped := true;
        } else if c == '"' {
          inString := false;
        }
        continue;
      }
      if c == '"' {
        inString := true;
      } else if c == '{' {
        if depth == 0 { start := index; }
        depth := depth + 1;
      } else if c == '}' && depth > 0 {
        depth := depth - 1;
        if depth == 0 && start >= 0 {
          spans := spans + [Span(start, index + 1)];
        }
      }
    }
    assert text[..|text|] == text;
  }

  // ---- What the spans are ----------------------------------------------------------------

  /** Whether position `n` is outside every string, and the nesting there. */
  function At(text: string, n: nat): Scan
    requires n <= |text|
  {
    Run(FRESH, text[..n], 0)
  }

  function Weight(text: string, k: nat): int
    requires k < |text|
  {
    if At(text, k).inString then 0 else if text[k] == '{' then 1 else if text[k] == '}' then -1 else 0
  }

  /** Opening less closing braces outside strings, between two positions. */
  function Balance(text: string, lo: nat, hi: nat): int
    requires lo <= hi <= |text|
  {
    if lo == hi then 0 else Balance(text, lo, hi - 1) + Weight(text, hi - 1)
  }

  /** From a brace outside strings and outside every other span to its matching brace. */
  ghost predicate Matched(text: string, span: Span) {
    && span.lo < span.hi <= |text|
    && text[span.lo] == '{' && text[span.hi - 1] == '}'
    && !At(text, span.lo).inString && At(text, span.lo).depth == 0 && !At(text, span.hi - 1).inString
    && Balance(text, span.lo, span.hi) == 0
    && forall k :: span.lo < k < span.hi ==> Balance(text, span.lo, k) > 0
  }

  /** What holds of the scanner after `n` characters. */
  ghost predicate Consistent(text: string, n: nat)
    requires n <= |text|
  {
    var s := At(text, n);
    && (s.escaped ==> s.inString)
    && (forall i :: 0 <= i < |s.spans| ==> s.spans[i].hi <= n && Matched(text, s.spans[i]))
    && (forall i, k :: 0 <= i < k < |s.spans| ==> s.spans[i].hi <= s.spans[k].lo)
    && (s.depth > 0 ==> Opened(text, n, s.start, s.depth))
    && (s.depth > 0 ==> forall i :: 0 <= i < |s.spans| ==> s.spans[i].hi <= s.start)
    && (s.depth == 0 && s.spans != [] ==> Last(s.spans).hi <= n)
  }

  /** An object opened at `start` is still open at `n`, `depth` levels deep. */
  ghost predicate Opened(text: string, n: nat, start: int, depth: nat)
    requires n <= |text|
  {
    && 0 <= start < n && text[start] == '{' && !At(text, start).inString && At(text, start).depth == 0
    && Balance(text, start, n) == depth
    && forall k :: start < k <= n ==> Balance(text, start, k) > 0
  }

  lemma AtNext(text: string, n: nat)
    requires n < |text|
    ensures At(text, n + 1) == Step(At(text, n), text[n], n)
  {
    assert text[..n + 1] == text[..n] + [text[n]];
    RunSnoc(FRESH, text[..n], text[n], 0);
  }

  lemma StaysOpen(text: string, n: nat)
    requires n < |text|
    requires var s := At(text, n); s.depth > 0 && Opened(text, n, s.start, s.depth)
    ensures var s, t := At(text, n), At(text, n + 1);
            if t.depth > 0 then t.start == s.start && t.spans == s.spans && Opened(text, n + 1, t.start, t.depth)
            else t.spans == s.spans + [Span(s.start, n + 1)] && Matched(text, Span(s.start, n + 1))
  {
    AtNext(text, n);
    var s, t := At(text, n), At(text, n + 1);
    assert Balance(text, s.start, n + 1) == s.depth + Weight(text, n) == t.depth;
  }

  lemma Opens(text: string, n: nat)
    requires n < |text| && At(text, n).depth == 0
    ensures var s, t := At(text, n), At(text, n + 1);
            t.spans == s.spans && (t.depth > 0 ==> t.start == n && Opened(text, n + 1, n, t.depth))
  {
    AtNext(text, n);
    if At(text, n + 1).depth > 0 {
      assert Balance(text, n, n + 1) == Balance(text, n, n) + Weight(text, n) == 1;
    }
  }

  lemma ConsistentNext(text: string, n: nat)
    requires n < |text| && Consistent(text, n)
    ensures Consistent(text, n + 1)
  {
    AtNext(text, n);
    if At(text, n).depth > 0 {
      StaysOpen(text, n);
    } else {
      Opens(text, n);
    }
  }

  lemma {:induction false} AlwaysConsistent(text: string, n: nat)
    requires n <= |text|
    ensures Consistent(text, n)
  {
    if n > 0 {
      AlwaysConsistent(text, n - 1);
      ConsistentNext(text, n - 1);
    }
  }

  /** On every input: the spans run from a brace to its matching one, in order, without overlap. */
  lemma SpansAreMatchedAndDisjoint(text: string)
    ensures var spans := Run(FRESH, text, 0).spans;
            && (forall i :: 0 <= i < |spans| ==> Matched(text, spans[i]))
            && (forall i, k :: 0 <= i < k < |spans| ==> spans[i].hi <= spans[k].lo)
  {
    assert text[..|text|] == text;
    AlwaysConsistent(text, |text|);
  }

  lemma {:induction false} SpansGrow(text: string, m: nat, n: nat)
    requires m <= n <= |text|
    ensures At(text, m).spans <= At(text, n).spans
  {
    if m < n {
      SpansGrow(text, m, n - 1);
      AtNext(text, n - 1);
    }
  }

  lemma {:induction false} DepthIsBalance(text: string, span: Span, k: nat)
    requires Matched(text, span) && span.lo < k < span.hi
    ensures At(text, k).depth == Balance(text, span.lo, k) && At(text, k).start == span.lo
  {
    AtNext(text, k - 1);
    if k == span.lo + 1 {
      assert Balance(text, span.lo, k) == 1;
    } else {
      DepthIsBalance(text, span, k - 1);
    }
  }

  /** And no such span is missed. */
  lemma EveryMatchedSpanIsFound(text: string, span: Span)
    ensures Matched(text, span) <==> span in Run(FRESH, text, 0).spans
  {
    assert text[..|text|] == text;
    AlwaysConsistent(text, |text|);
    if Matched(text, span) {
      AtNext(text, span.lo);
      DepthIsBalance(text, span, span.hi - 1);
      AtNext(text, span.hi - 1);
      assert Balance(text, span.lo, span.hi) == Balance(text, span.lo, span.hi - 1) - 1;
      assert Last(At(text, span.hi).spans) == span;
      SpansGrow(text, span.hi, |text|);
      assert span in At(text, span.hi).spans;
    }
  }

  // ---- JSON text --------------------------------------------------------------------------

  /** One character of a string: itself, or an escape (`tail` holds the hex digits of a \\u escape). */
  datatype Piece = Plain(c: char) | Escape(c: char, tail: string)

  /** A JSON text with all its white space, so that every way of writing a value is one. */
  datatype Json =
    | Atom(text: string)
    | Text(pieces: seq<Piece>)
    | List(space: string, items: Items)
    | Object(space: string, members: Members)

  datatype Items = NoItems | Item(value: Json, after: string, gap: string, rest: Items)

  datatype Members =
    | NoMembers
    | Member(key: seq<Piece>, beforeColon: string, afterColon: string, value: Json, after: string, gap: string, rest: Members)

  function PrintPiece(p: Piece): string {
    match p
    case Plain(c) => [c]
    case Escape(c, tail) => ['\\', c] + tail
  }

  function PrintPieces(pieces: seq<Piece>): string {
    if pieces == [] then "" else PrintPiece(pieces[0]) + PrintPieces(pieces[1..])
  }

  function Quoted(pieces: seq<Piece>): string { "\"" + PrintPieces(pieces) + "\"" }

  function Print(v: Json): string {
    match v
    case Atom(text) => text
    case Text(pieces) => Quoted(pieces)
    case List(space, items) => "[" + space + PrintItems(items) + "]"
    case Object(space, members) => "{" + (space + PrintMembers(members)) + "}"
  }

  function PrintItems(items: Items): string {
    match items
    case NoItems => ""
    case Item(value, after, gap, rest) =>
      Print(value) + (after + if rest.NoItems? then "" else "," + gap) + PrintItems(rest)
  }

  function PrintMembers(members: Members): string {
    match members
    case NoMembers => ""
    case Member(key, beforeColon, afterColon, value, after, gap, rest) =>
      Quoted(key) + (beforeColon + ":" + afterColon) + Print(value)
      + (after + if rest.NoMembers? then "" else "," + gap) + PrintMembers(rest)
  }

  /** Free of double quotes and braces: prose, white space, numbers and literals. */
  predicate Bland(t: string) { forall c :: c in t ==> c != '"' && c != '{' && c != '}' }

  /** Section 7 of RFC 8259: a quote or a backslash inside a string is escaped. */
  predicate PieceFormed(p: Piece) {
    match p
    case Plain(c) => c != '"' && c != '\\'
    case Escape(_, tail) => forall c :: c in tail ==> c != '"' && c != '\\'
  }

  predicate TextFormed(pieces: seq<Piece>) { forall p :: p in pieces ==> PieceFormed(p) }

  predicate Formed(v: Json) {
    match v
    case Atom(text) => Bland(text)
    case Text(pieces) => TextFormed(pieces)
    case List(space, items) => Bland(space) && ItemsFormed(items)
    case Object(space, members) => Bland(space) && MembersFormed(members)
  }

  predicate ItemsFormed(items: Items) {
    match items
    case NoItems => true
    case Item(value, after, gap, rest) => Formed(value) && Bland(after) && Bland(gap) && ItemsFormed(rest)
  }

  predicate MembersFormed(members: Members) {
    match members
    case NoMembers => true
    case Member(key, beforeColon, afterColon, value, after, gap, rest) =>
      TextFormed(key) && Bland(beforeColon) && Bland(afterColon) && Formed(value) && Bland(after) && Bland(gap) && MembersFormed(rest)
  }

  /** Between tokens. */
  predicate Idle(s: Scan) { !s.inString && !s.escaped }

  lemma {:induction false} BlandIsSkipped(s: Scan, t: string, at: nat)
    requires Idle(s) && Bland(t)
    ensures Run(s, t, at) == s
    decreases |t|
  {
    if t != "" {
      assert t[0] in t && forall c :: c in t[1..] ==> c in t;
      BlandIsSkipped(s, t[1..], at + 1);
    }
  }

  lemma {:induction false} TailIsSkipped(s: Scan, t: string, at: nat)
    requires s.inString && !s.escaped && forall c :: c in t ==> c != '"' && c != '\\'
    ensures Run(s, t, at) == s
    decreases |t|
  {
    if t != "" {
      assert t[0] in t && forall c :: c in t[1..] ==> c in t;
      TailIsSkipped(s, t[1..], at + 1);
    }
  }

  lemma PieceIsSkipped(s: Scan, p: Piece, at: nat)
    requires s.inString && !s.escaped && PieceFormed(p)
    ensures Run(s, PrintPiece(p), at) == s
  {
    match p
    case Plain(c) =>
      TailIsSkipped(s, [c], at);
    case Escape(c, tail) =>
      RunConcat(s, ['\\', c], tail, at);
      RunConcat(s, ['\\'], [c], at);
      assert ['\\', c] == ['\\'] + [c];
      TailIsSkipped(s, tail, at + 2);
  }

  lemma {:induction false} PiecesAreSkipped(s: Scan, pieces: seq<Piece>, at: nat)
    requires s.inString && !s.escaped && TextFormed(pieces)
    ensures Run(s, PrintPieces(pieces), at) == s
    decreases |pieces|
  {
    if pieces != [] {
      RunConcat(s, PrintPiece(pieces[0]), PrintPieces(pieces[1..]), at);
      PieceIsSkipped(s, pieces[0], at);
      PiecesAreSkipped(s, pieces[1..], at + |PrintPiece(pieces[0])|);
    }
  }

  lemma TextIsSkipped(s: Scan, pieces: seq<Piece>, at: nat)
    requires Idle(s) && TextFormed(pieces)
    ensures Run(s, Quoted(pieces), at) == s
  {
    var body := PrintPieces(pieces);
    RunConcat(s, "\"" + body, "\"", at);
    RunConcat(s, "\"", body, at);
    PiecesAreSkipped(s.(inString := true), pieces, at + 1);
  }

  lemma {:induction false} ValueIsSkipped(s: Scan, v: Json, at: nat)
    requires Idle(s) && s.depth > 0 && Formed(v)
    ensures Run(s, Print(v), at) == s
    decreases v
  {
    match v
    case Atom(text) =>
      BlandIsSkipped(s, text, at);
    case Text(pieces) =>
      TextIsSkipped(s, pieces, at);
    case List(space, items) =>
      var open := "[" + space;
      RunConcat(s, open + PrintItems(items), "]", at);
      RunConcat(s, open, PrintItems(items), at);
      BlandIsSkipped(s, open, at);
      ItemsAreSkipped(s, items, at + |open|);
      BlandIsSkipped(s, "]", at + |open| + |PrintItems(items)|);
    case Object(space, members) =>
      var inner := s.(depth := s.depth + 1);
      BodyIsSkipped(inner, space, members, at + 1);
      RunConcat(s, "{" + (space + PrintMembers(members)), "}", at);
      RunConcat(s, "{", space + PrintMembers(members), at);
  }

  lemma {:induction false} BodyIsSkipped(s: Scan, space: string, members: Members, at: nat)
    requires Idle(s) && s.depth > 0 && Bland(space) && MembersFormed(members)
    ensures Run(s, space + PrintMembers(members), at) == s
    decreases members, 1
  {
    RunConcat(s, space, PrintMembers(members), at);
    BlandIsSkipped(s, space, at);
    MembersAreSkipped(s, members, at + |space|);
  }

  lemma {:induction false} ItemsAreSkipped(s: Scan, items: Items, at: nat)
    requires Idle(s) && s.depth > 0 && ItemsFormed(items)
    ensures Run(s, PrintItems(items), at) == s
    decreases items
  {
    if items.Item? {
      var value, sep := Print(items.value), items.after + if items.rest.NoItems? then "" else "," + items.gap;
      RunConcat(s, value + sep, PrintItems(items.rest), at);
      RunConcat(s, value, sep, at);
      ValueIsSkipped(s, items.value, at);
      BlandIsSkipped(s, sep, at + |value|);
      ItemsAreSkipped(s, items.rest, at + |value| + |sep|);
    }
  }

  lemma {:induction false} MembersAreSkipped(s: Scan, members: Members, at: nat)
    requires Idle(s) && s.depth > 0 && MembersFormed(members)
    ensures Run(s, PrintMembers(members), at) == s
    decreases members, 0
  {
    if members.Member? {
      var key, colon := Quoted(members.key), members.beforeColon + ":" + members.afterColon;
      var value, sep := Print(members.value), members.after + if members.rest.NoMembers? then "" else "," + members.gap;
      TextIsSkipped(s, members.key, at);
      BlandIsSkipped(s, colon, at + |key|);
      SkipBoth(s, key, colon, at);
      ValueIsSkipped(s, members.value, at + |key + colon|);
      SkipBoth(s, key + colon, value, at);
      BlandIsSkipped(s, sep, at + |key + colon + value|);
      SkipBoth(s, key + colon + value, sep, at);
      MembersAreSkipped(s, members.rest, at + |key + colon + value + sep|);
      SkipBoth(s, key + colon + value + sep, PrintMembers(members.rest), at);
    }
  }

  lemma SkipBoth(s: Scan, a: string, b: string, at: nat)
    requires Run(s, a, at) == s && Run(s, b, at + |a|) == s
    ensures Run(s, a + b, at) == s
  {
    RunConcat(s, a, b, at);
  }

  /** An object embedded in prose is the one span, and the span is exactly its text. */
  lemma ObjectIsTheOnlySpan(before: string, v: Json, after: string)
    requires Bland(before) && Bland(after) && v.Object? && Formed(v)
    ensures var text, span := before + Print(v) + after, Span(|before|, |before + Print(v)|);
            Run(FRESH, text, 0).spans == [span] && text[span.lo..span.hi] == Print(v)
  {
    var body := v.space + PrintMembers(v.members);
    var open := FRESH.(depth := 1, start := |before|);
    var closed := open.(depth := 0, spans := [Span(|before|, |before + Print(v)|)]);
    RunConcat(FRESH, before + Print(v), after, 0);
    RunConcat(FRESH, before, Print(v), 0);
    BlandIsSkipped(FRESH, before, 0);
    RunConcat(FRESH, "{" + body, "}", |before|);
    RunConcat(FRESH, "{", body, |before|);
    BodyIsSkipped(open, v.space, v.members, |before| + 1);
    assert Print(v) == "{" + body + "}";
    assert Run(open, "}", |before| + 1 + |body|) == closed;
    BlandIsSkipped(closed, after, |before + Print(v)|);
  }

  // ---- The extractor -------------------------------------------------------------------------

  const FENCE := "```"

  predicate StartsWith(t: string, prefix: string) { |prefix| <= |t| && t[..|prefix|] == prefix }

  /** Every fence is deleted, with the word after an opening one, wherever it stands. */
  function RemoveFences(t: string): string
    decreases |t|
  {
    if t == "" then ""
    else if StartsWith(t, FENCE + "json") then RemoveFences(t[7..])
    else if StartsWith(t, FENCE) then RemoveFences(t[3..])
    else [t[0]] + RemoveFences(t[1..])
  }

  /** What the JSON parser makes of a text. */
  datatype Loaded = Dict(text: string) | OtherValue(text: string)

  predicate InBounds(text: string, spans: seq<Span>) { forall s :: s in spans ==> s.lo < s.hi <= |text| }

  /** The last span that parses as an object. */
  function LastDict(loads: string -> Option<Loaded>, text: string, spans: seq<Span>): Option<Loaded>
    requires InBounds(text, spans)
  {
    if spans == [] then None
    else
      var loaded := loads(text[Last(spans).lo..Last(spans).hi]);
      if loaded.Some? && loaded.value.Dict? then loaded else LastDict(loads, text, Front(spans))
  }

  method ExtractJson(loads: string -> Option<Loaded>, text: string) returns (r: Option<Loaded>)
    ensures var cleaned := Strip(RemoveFences(text));
            var spans := Run(FRESH, cleaned, 0).spans;
            InBounds(cleaned, spans) && r == if loads(cleaned).Some? then loads(cleaned) else LastDict(loads, cleaned, spans)
  {
    var cleaned := Strip(RemoveFences(text));
    var spans := FindSpans(cleaned);
    if loads(cleaned).Some? { return loads(cleaned); }
    ghost var all := spans;
    while spans != []
      invariant InBounds(cleaned, all) && InBounds(cleaned, spans)
      invariant LastDict(loads, cleaned, all) == LastDict(loads, cleaned, spans)
    {
      var loaded := loads(cleaned[Last(spans).lo..Last(spans).hi]);
      if loaded.Some? && loaded.value.Dict? { return loaded; }
      spans := Front(spans);
    }
    return None;
  }

  predicate FenceAt(t: string, i: int) { 0 <= i <= |t| - 3 && t[i..i + 3] == FENCE }

  ghost predicate Fenceless(t: string) { forall i :: !FenceAt(t, i) }

  lemma FencelessTail(t: string)
    requires t != ""
    ensures Fenceless(t) <==> Fenceless(t[1..]) && !StartsWith(t, FENCE)
  {
    forall i ensures FenceAt(t[1..], i) <==> i >= 0 && FenceAt(t, i + 1) {
      if 0 <= i <= |t[1..]| - 3 {
        assert t[1..][i..i + 3] == t[i + 1..i + 1 + 3];
      }
    }
    assert FenceAt(t, 0) <==> StartsWith(t, FENCE);
    forall i ensures FenceAt(t, i) ==> FenceAt(t, 0) || FenceAt(t[1..], i - 1) {
    }
    if Fenceless(t) {
      forall i ensures !FenceAt(t[1..], i) {
        assert !FenceAt(t, i + 1);
      }
    }
  }

  /** Cleaning leaves a text alone exactly if it holds no fence, inside its strings or not. */
  lemma {:induction false} CleaningIsFaithfulIff(t: string)
    ensures RemoveFences(t) == t <==> Fenceless(t)
    ensures |RemoveFences(t)| <= |t| && (|RemoveFences(t)| == |t| <==> Fenceless(t))
    decreases |t|
  {
    if t != "" {
      FencelessTail(t);
      if StartsWith(t, FENCE + "json") {
        assert t[..3] == (t[..7])[..3] == FENCE;
        CleaningIsFaithfulIff(t[7..]);
      } else if StartsWith(t, FENCE) {
        CleaningIsFaithfulIff(t[3..]);
      } else {
        CleaningIsFaithfulIff(t[1..]);
        assert t == [t[0]] + t[1..];
      }
    }
  }

  /** No fence reaches over a brace: cleaning does one side and the other. */
  lemma {:induction false} CleaningSplits(a: string, b: string)
    requires (a != "" && (Last(a) == '{' || Last(a) == '}')) || (b != "" && (b[0] == '{' || b[0] == '}'))
    ensures RemoveFences(a + b) == RemoveFences(a) + RemoveFences(b)
    decreases |a|
  {
    if a == "" {
      assert a + b == b;
    } else {
      StartSplits(a, b, FENCE + "json");
      StartSplits(a, b, FENCE);
      var n := if StartsWith(a, FENCE + "json") then 7 else if StartsWith(a, FENCE) then 3 else 1;
      assert (a + b)[n..] == a[n..] + b;
      if a[n..] != "" || (b != "" && (b[0] == '{' || b[0] == '}')) {
        assert a[n..] != "" ==> Last(a[n..]) == Last(a);
        CleaningSplits(a[n..], b);
      } else {
        assert a[n..] + b == b;
      }
    }
  }

  lemma StartSplits(a: string, b: string, pattern: string)
    requires a != "" && (pattern == FENCE || pattern == FENCE + "json")
    requires Last(a) == '{' || Last(a) == '}' || (b != "" && (b[0] == '{' || b[0] == '}'))
    ensures StartsWith(a + b, pattern) <==> StartsWith(a, pattern)
  {
    if |pattern| <= |a| {
      assert (a + b)[..|pattern|] == a[..|pattern|];
    } else {
      var at := if Last(a) == '{' || Last(a) == '}' then |a| - 1 else |a|;
      assert pattern[at] != '{' && pattern[at] != '}';
      assert |pattern| <= |a + b| ==> (a + b)[..|pattern|][at] == (a + b)[at];
    }
  }

  /** Cleaning adds no characters. */
  lemma {:induction false} CleanedIsPart(t: string, c: char)
    ensures c in RemoveFences(t) ==> c in t
    decreases |t|
  {
    if t != "" {
      CleanedIsPart(t[if StartsWith(t, FENCE + "json") then 7 else if StartsWith(t, FENCE) then 3 else 1..], c);
    }
  }

  predicate Space(c: char) { c in " \t\n\r" }

  lemma {:induction false} StripLeftStops(a: string, rest: string)
    requires rest != "" && !Space(rest[0])
    ensures StripLeft(a + rest) == StripLeft(a) + rest
  {
    if a == "" {
      assert a + rest == rest;
    } else {
      assert (a + rest)[1..] == a[1..] + rest;
      StripLeftStops(a[1..], rest);
    }
  }

  lemma {:induction false} StripRightStops(rest: string, z: string)
    requires rest != "" && !Space(Last(rest))
    ensures StripRight(rest + z) == rest + StripRight(z)
  {
    if z == "" {
      assert rest + z == rest;
    } else {
      assert Front(rest + z) == rest + Front(z);
      StripRightStops(rest, Front(z));
    }
  }

  lemma {:induction false} StripsAreParts(t: string, c: char)
    ensures (c in StripLeft(t) ==> c in t) && (c in StripRight(t) ==> c in t)
    decreases |t|
  {
    if t != "" {
      StripsAreParts(t[1..], c);
      StripsAreParts(Front(t), c);
    }
  }

  lemma StripKeepsTheObject(before: string, core: string, after: string)
    requires core != "" && core[0] == '{' && Last(core) == '}'
    ensures Strip(before + core + after) == StripLeft(before) + core + StripRight(after)
  {
    assert before + core + after == before + (core + after);
    StripLeftStops(before, core + after);
    assert StripLeft(before) + (core + after) == (StripLeft(before) + core) + after;
    StripRightStops(StripLeft(before) + core, after);
  }

  lemma PartsAreBland(t: string, part: string)
    requires Bland(t) && (part == StripLeft(RemoveFences(t)) || part == StripRight(RemoveFences(t)))
    ensures Bland(part)
  {
    forall c | c in part ensures c in t {
      StripsAreParts(RemoveFences(t), c);
      CleanedIsPart(t, c);
    }
  }

  /** What is left of the prose on either side, around what is left of the object. */
  function Cleaned(before: string, core: string, after: string): string { Strip(RemoveFences(before + core + after)) }

  lemma CleanedAround(before: string, core: string, after: string)
    requires core != "" && core[0] == '{' && Last(core) == '}'
    ensures Cleaned(before, core, after) ==
              StripLeft(RemoveFences(before)) + RemoveFences(core) + StripRight(RemoveFences(after))
    ensures RemoveFences(core) != "" && RemoveFences(core)[0] == '{' && Last(RemoveFences(core)) == '}'
  {
    CleaningSplits(before + core, after);
    CleaningSplits(before, core);
    BracesStay(core);
    StripKeepsTheObject(RemoveFences(before), RemoveFences(core), RemoveFences(after));
  }

  lemma BracesStay(core: string)
    requires core != "" && core[0] == '{' && Last(core) == '}'
    ensures RemoveFences(core) != "" && RemoveFences(core)[0] == '{' && Last(RemoveFences(core)) == '}'
  {
    var inner := core[1..|core| - 1];
    assert core == ("{" + inner) + "}" && "}"[1..] == "" && "{"[1..] == "";
    CleaningSplits("{" + inner, "}");
    CleaningSplits("{", inner);
  }

  /**
   Whatever fences stand in the prose around it, an object without fences in its own text
   is the one span, and the span is exactly its text.
   */
  lemma FencedObjectIsTheOnlySpan(before: string, v: Json, after: string)
    requires Bland(before) && Bland(after) && v.Object? && Formed(v) && Fenceless(Print(v))
    ensures var cleaned := Cleaned(before, Print(v), after);
            var spans := Run(FRESH, cleaned, 0).spans;
            && |spans| == 1 && InBounds(cleaned, spans) && cleaned[spans[0].lo..spans[0].hi] == Print(v)
  {
    var left, right := StripLeft(RemoveFences(before)), StripRight(RemoveFences(after));
    CleanedAround(before, Print(v), after);
    CleaningIsFaithfulIff(Print(v));
    PartsAreBland(before, left);
    PartsAreBland(after, right);
    ObjectIsTheOnlySpan(left, v, right);
  }

  /** From brace to brace. */
  predicate Braced(text: string, span: Span) { span.lo < span.hi <= |text| && text[span.lo] == '{' && text[span.hi - 1] == '}' }

  lemma SpansAreBraced(text: string)
    ensures forall span :: span in Run(FRESH, text, 0).spans ==> Braced(text, span)
  {
    forall span | span in Run(FRESH, text, 0).spans ensures Braced(text, span) {
      EveryMatchedSpanIsFound(text, span);
    }
  }

  /** A span can only lie within what is left of the object. */
  lemma BracesLieInTheCore(left: string, core: string, right: string, span: Span)
    requires Bland(left) && Bland(right) && Braced(left + core + right, span)
    ensures span.hi - span.lo <= |core|
  {
    var text := left + core + right;
    forall i ensures (0 <= i < |left| ==> left[i] != '{') && (0 <= i < |right| ==> right[i] != '}') {
      assert (0 <= i < |left| ==> left[i] in left) && (0 <= i < |right| ==> right[i] in right);
    }
    assert forall i :: 0 <= i < |left| ==> text[i] == left[i];
    assert forall i :: |left + core| <= i < |text| ==> text[i] == right[i - |left + core|];
  }

  /** The object's own text is among the spans if and only if that text holds no fence. */
  lemma ObjectSurvivesIff(before: string, v: Json, after: string)
    requires Bland(before) && Bland(after) && v.Object? && Formed(v)
    ensures var cleaned := Cleaned(before, Print(v), after);
            var spans := Run(FRESH, cleaned, 0).spans;
            InBounds(cleaned, spans) &&
            ((exists span :: span in spans && cleaned[span.lo..span.hi] == Print(v)) <==> Fenceless(Print(v)))
  {
    var cleaned := Cleaned(before, Print(v), after);
    var spans := Run(FRESH, cleaned, 0).spans;
    SpansAreBraced(cleaned);
    if Fenceless(Print(v)) {
      FencedObjectIsTheOnlySpan(before, v, after);
      assert spans[0] in spans;
    } else {
      CleanedAround(before, Print(v), after);
      CleaningIsFaithfulIff(Print(v));
      PartsAreBland(before, StripLeft(RemoveFences(before)));
      PartsAreBland(after, StripRight(RemoveFences(after)));
      forall s | s in spans ensures cleaned[s.lo..s.hi] != Print(v) {
        BracesLieInTheCore(StripLeft(RemoveFences(before)), RemoveFences(Print(v)), StripRight(RemoveFences(after)), s);
      }
    }
  }

  const TICKS: seq<Piece> := [Plain('`'), Plain('`'), Plain('`')]

  /** The object {"c":"```"}. */
  const QUOTED_FENCE: Json := Object("", Member([Plain('c')], "", "", Text(TICKS), "", "", NoMembers))

  /** An object that quotes a fence in one of its strings, whatever prose stands around it, is lost. */
  lemma QuotedFenceIsLost(before: string, after: string)
    requires Bland(before) && Bland(after)
    ensures var cleaned := Cleaned(before, Print(QUOTED_FENCE), after);
            var spans := Run(FRESH, cleaned, 0).spans;
            Formed(QUOTED_FENCE) && InBounds(cleaned, spans) && forall s :: s in spans ==> cleaned[s.lo..s.hi] != Print(QUOTED_FENCE)
  {
    QuotesAFence();
    ObjectSurvivesIff(before, QUOTED_FENCE, after);
  }

  lemma QuotesAFence()
    ensures !Fenceless(Print(QUOTED_FENCE)) && Formed(QUOTED_FENCE) && QUOTED_FENCE.Object?
  {
    TicksPrint();
    var key := Quoted([Plain('c')]);
    assert Print(QUOTED_FENCE) == ("{" + key + ":" + "\"") + FENCE + "\"}";
    assert FenceAt(Print(QUOTED_FENCE), |"{" + key + ":" + "\""|);
  }

  lemma TicksPrint()
    ensures PrintPieces(TICKS) == FENCE
  {
    assert PrintPieces(TICKS[3..]) == "";
    assert TICKS[2..][1..] == TICKS[3..] && PrintPieces(TICKS[2..]) == "`";
    assert TICKS[1..][1..] == TICKS[2..] && PrintPieces(TICKS[1..]) == "``";
  }

  /**
   Extraction finds the object, bare or in a fenced block of a reply: the answer is what
   the parser makes of the whole cleaned text, or else of exactly the object's own text.
   */
  lemma ExtractionFindsTheObject(loads: string -> Option<Loaded>, before: string, v: Json, after: string)
    requires Bland(before) && Bland(after) && v.Object? && Formed(v) && Fenceless(Print(v))
    ensures var cleaned := Cleaned(before, Print(v), after);
            var spans := Run(FRESH, cleaned, 0).spans;
            && InBounds(cleaned, spans)
            && LastDict(loads, cleaned, spans) ==
                 if loads(Print(v)).Some? && loads(Print(v)).value.Dict? then loads(Print(v)) else None
  {
    FencedObjectIsTheOnlySpan(before, v, after);
    var spans := Run(FRESH, Cleaned(before, Print(v), after), 0).spans;
    assert spans == [spans[0]] && Front(spans) == [];
  }
}
