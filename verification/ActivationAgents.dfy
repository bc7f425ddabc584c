/**
 The managed section of AGENTS.md: how it is built, put in place and recognised again
 (packages/core/src/activation.ts:373-426, 786-791, 843-870).
 */
module ActivationAgents {
  import opened Foundations
  import opened MutationModel
  import opened TextPatterns
  import opened MarkerSpan
  import opened ActivationSnapshot

  const CURRENT := Markers("<!-- PraxisBound Codex: begin -->", "<!-- PraxisBound Codex: end -->", "<!-- PraxisBound Codex:")
  const LEGACY := Markers("<!-- ForgeFlow Codex: begin -->", "<!-- ForgeFlow Codex: end -->", "<!-- ForgeFlow Codex:")

  function AdoptionTail(fields: Fields): Bytes {
    " adoption=" + (fields.adoption + " -->")
  }

  function IdentityTail(fields: Fields): Bytes {
    fields.version + (" revision=" + (fields.revision + AdoptionTail(fields)))
  }

  /** `<!-- snapshot version=V revision=R adoption=A -->` */
  function IdentityLine(fields: Fields): Bytes {
    "<!-- snapshot version=" + IdentityTail(fields)
  }

  /** Begin line, identity line, the packaged block, end line. */
  function BlockBytes(fields: Fields, agentBlock: Bytes): Bytes {
    (CURRENT.begin + "\n") + ((IdentityLine(fields) + "\n") + (agentBlock + (CURRENT.end + "\n")))
  }

  predicate Within(span: Span, text: Bytes) {
    span.Section? ==> span.start <= span.stop <= |text|
  }

  function TextBefore(text: Bytes, span: Span): Bytes
    requires Within(span, text)
  {
    if span.Absent? then "" else text[..span.start]
  }

  function TextAfter(text: Bytes, span: Span): Bytes
    requires Within(span, text)
  {
    if span.Absent? then text else text[span.stop..]
  }

  function SectionBytes(text: Bytes, span: Span): Bytes
    requires Within(span, text)
  {
    if span.Absent? then "" else text[span.start..span.stop]
  }

  /** Replaces the section that a span names, or puts the block in front. */
  function PlaceBlock(agents: Bytes, span: Span, block: Bytes): Bytes
    requires Within(span, agents)
  {
    match span
    case Absent => block + agents
    case Section(start, stop) => agents[..start] + block + agents[stop..]
  }

  /** The text outside the managed section. */
  function Erase(markers: Markers, agents: Bytes): Bytes {
    match SpanOf(markers, agents)
    case Some(span) => if Within(span, agents) then TextBefore(agents, span) + TextAfter(agents, span) else agents
    case None => agents
  }

  /** One of the lines, split at LF or CRLF, is the wanted one. */
  predicate HasLine(lines: Lines, wanted: Bytes) {
    match lines
    case End => false
    case Line(raw, rest) =>
      (if WithoutLast(raw, '\n') == raw then raw == wanted else Text(raw) == wanted) || HasLine(rest, wanted)
  }

  // ---------------------------------------------------------------------
  // Lines and concatenation
  // ---------------------------------------------------------------------

  lemma {:induction false} UnmarkedAppend(markers: Markers, a: Lines, b: Lines)
    ensures Unmarked(markers, Append(a, b)) <==> Unmarked(markers, a) && Unmarked(markers, b)
  {
    match a
    case End =>
    case Line(_, rest) => UnmarkedAppend(markers, rest, b);
  }

  lemma LastLine(raw: Bytes)
    requires IsLine(raw, true)
    ensures LinesOf(raw) == Line(raw, End)
  {
    var end := if raw[|raw| - 1] == '\n' then |raw| - 1 else |raw|;
    LineEndIs(raw, 0, end);
    assert LineStop(raw, 0) == |raw|;
    assert LinesFrom(raw, |raw|) == End;
    assert raw[0..|raw|] == raw;
  }

  /** A text of one complete line. */
  lemma SingleLine(line: Bytes)
    requires OneLine(line)
    ensures LinesOf(line + "\n") == Line(line + "\n", End) && WholeLines(line + "\n")
  {
    var raw := line + "\n";
    forall i | 0 <= i < |line| ensures raw[i] != '\n' {
      assert line[i] in line;
    }
    LastLine(raw);
  }

  lemma LineText(line: Bytes)
    requires line != "" && line[|line| - 1] != '\r'
    ensures Text(line + "\n") == line
  {
    assert WithoutLast(line + "\n", '\n') == line;
  }

  /** Lines put together again are the same lines. */
  lemma {:induction false} LinesOfJoin(lines: Lines)
    requires AllLines(lines)
    ensures LinesOf(Join(lines)) == lines
  {
    match lines
    case End =>
    case Line(raw, rest) =>
      LinesOfJoin(rest);
      LastLine(raw);
      if rest.End? {
        assert raw + "" == raw;
      } else {
        LinesConcat(raw, Join(rest));
      }
  }

  lemma {:induction false} AllLinesParts(a: Lines, b: Lines)
    requires AllLines(Append(a, b))
    ensures AllLines(a) && AllLines(b)
    ensures b.Line? ==> WholeLines(Join(a))
  {
    match a
    case End =>
    case Line(raw, rest) =>
      AllLinesParts(rest, b);
      if b.Line? {
        NonEmptyAppend(rest, b);
        WholeAfter(raw, Join(rest));
      }
  }

  lemma NonEmptyAppend(a: Lines, b: Lines)
    requires b.Line?
    ensures Append(a, b).Line?
  {
  }

  lemma WholeAfter(a: Bytes, b: Bytes)
    requires WholeLines(a) && WholeLines(b)
    ensures WholeLines(a + b)
  {
  }

  // ---------------------------------------------------------------------
  // The block
  // ---------------------------------------------------------------------

  /** A line that is not a marker of one kind: it has one angle bracket, followed by another word. */
  lemma OtherComment(line: Bytes, prefix: Bytes)
    requires 5 < |prefix| && prefix[0] == '<' && 5 < |line| && line[5] != prefix[5]
    requires forall i :: 0 < i < |line| ==> line[i] != '<'
    ensures !Contains(line, prefix)
  {
    forall k: nat | k <= |line| ensures !OccursAt(line, prefix, k) {
      if k + |prefix| <= |line| {
        assert line[k..k + |prefix|][0] == line[k];
        assert line[k..k + |prefix|][5] == line[k + 5];
      }
    }
  }

  /** No angle bracket opens inside, and no line ends. */
  predicate Inert(text: Bytes) {
    forall c <- text :: c != '<' && c != '\n'
  }

  lemma InertConcat(a: Bytes, b: Bytes)
    requires Inert(a) && Inert(b)
    ensures Inert(a + b)
  {
  }

  lemma FieldIsInert(text: string)
    requires FieldText(text)
    ensures Inert(text)
  {
  }

  /** Inert and closed by an angle bracket. */
  predicate Closing(text: Bytes) {
    Inert(text) && text != "" && text[|text| - 1] == '>'
  }

  lemma ClosingConcat(a: Bytes, b: Bytes)
    requires Inert(a) && Closing(b)
    ensures Closing(a + b)
  {
    InertConcat(a, b);
  }

  lemma AdoptionCloses(fields: Fields)
    requires FieldText(fields.adoption)
    ensures Closing(AdoptionTail(fields))
  {
    FieldIsInert(fields.adoption);
    assert Closing(" -->");
    ClosingConcat(fields.adoption, " -->");
    ClosingConcat(" adoption=", fields.adoption + " -->");
  }

  lemma TailCloses(fields: Fields)
    requires ValidFields(fields)
    ensures Closing(IdentityTail(fields))
  {
    ValidFieldsAreText(fields);
    AdoptionCloses(fields);
    FieldIsInert(fields.version);
    FieldIsInert(fields.revision);
    ClosingConcat(fields.revision, AdoptionTail(fields));
    ClosingConcat(" revision=", fields.revision + AdoptionTail(fields));
    ClosingConcat(fields.version, " revision=" + (fields.revision + AdoptionTail(fields)));
  }

  lemma HeadShape()
    ensures var head := "<!-- snapshot version=";
      |head| == 22 && head[5] == 's' && forall i :: 0 < i < |head| ==> head[i] != '<' && head[i] != '\n'
  {
  }

  /** The shape of an identity line: one comment that no marker prefix matches. */
  predicate IdentityShape(line: Bytes) {
    && 22 <= |line| && line[0] == '<' && line[5] == 's' && line[|line| - 1] == '>'
    && (forall i :: 0 < i < |line| ==> line[i] != '<') && (forall i :: 0 <= i < |line| ==> line[i] != '\n')
  }

  lemma ShapeOf(head: Bytes, tail: Bytes)
    requires |head| == 22 && head[0] == '<' && head[5] == 's'
    requires forall i :: 0 < i < |head| ==> head[i] != '<' && head[i] != '\n'
    requires Closing(tail)
    ensures IdentityShape(head + tail)
  {
    var line := head + tail;
    forall i | 22 <= i < |line| ensures line[i] != '<' && line[i] != '\n' {
      assert line[i] == tail[i - 22] && tail[i - 22] in tail;
    }
  }

  lemma IdentityIsShaped(fields: Fields)
    requires ValidFields(fields)
    ensures IdentityShape(IdentityLine(fields))
  {
    HeadShape();
    TailCloses(fields);
    ShapeOf("<!-- snapshot version=", IdentityTail(fields));
  }

  lemma CurrentShape()
    ensures |CURRENT.begin| == 33 && CURRENT.begin[0] == '<' && CURRENT.begin[5] == 'P' && CURRENT.begin[32] == '>'
    ensures |CURRENT.end| == 31 && CURRENT.end[0] == '<' && CURRENT.end[5] == 'P' && CURRENT.end[30] == '>'
    ensures |CURRENT.prefix| == 23 && CURRENT.prefix[0] == '<' && CURRENT.prefix[5] == 'P'
  {
  }

  lemma BeginIsOneLine()
    ensures forall i :: 0 < i < |CURRENT.begin| ==> CURRENT.begin[i] != '<' && CURRENT.begin[i] != '\n'
  {
  }

  lemma EndIsOneLine()
    ensures forall i :: 0 < i < |CURRENT.end| ==> CURRENT.end[i] != '<' && CURRENT.end[i] != '\n'
  {
  }

  lemma LegacyShape()
    ensures |LEGACY.prefix| == 21 && LEGACY.prefix[0] == '<' && LEGACY.prefix[5] == 'F'
  {
  }

  lemma MarkersAreSound()
    ensures Sound(CURRENT) && Sound(LEGACY)
  {
  }

  // ---------------------------------------------------------------------
  // Recognising the block
  // ---------------------------------------------------------------------

  lemma ShapeIsLine(line: Bytes)
    requires forall i :: 0 <= i < |line| ==> line[i] != '\n'
    ensures OneLine(line)
  {
  }

  function BeginRaw(): Bytes {
    CURRENT.begin + "\n"
  }

  function EndRaw(): Bytes {
    CURRENT.end + "\n"
  }

  function IdentityRaw(fields: Fields): Bytes {
    IdentityLine(fields) + "\n"
  }

  lemma BeginRawLine()
    ensures LinesOf(BeginRaw()) == Line(BeginRaw(), End) && WholeLines(BeginRaw()) && Text(BeginRaw()) == CURRENT.begin
  {
    CurrentShape();
    BeginIsOneLine();
    ShapeIsLine(CURRENT.begin);
    SingleLine(CURRENT.begin);
    LineText(CURRENT.begin);
  }

  lemma EndRawLine()
    ensures LinesOf(EndRaw()) == Line(EndRaw(), End) && WholeLines(EndRaw()) && Text(EndRaw()) == CURRENT.end
  {
    CurrentShape();
    EndIsOneLine();
    ShapeIsLine(CURRENT.end);
    SingleLine(CURRENT.end);
    LineText(CURRENT.end);
  }

  lemma IdentityRawLine(fields: Fields)
    requires ValidFields(fields)
    ensures LinesOf(IdentityRaw(fields)) == Line(IdentityRaw(fields), End) && WholeLines(IdentityRaw(fields))
    ensures Text(IdentityRaw(fields)) == IdentityLine(fields)
  {
    IdentityIsShaped(fields);
    ShapeIsLine(IdentityLine(fields));
    SingleLine(IdentityLine(fields));
    LineText(IdentityLine(fields));
  }

  lemma IdentityUnmarked(fields: Fields)
    requires ValidFields(fields)
    ensures !Contains(Text(IdentityRaw(fields)), CURRENT.prefix) && !Contains(Text(IdentityRaw(fields)), LEGACY.prefix)
  {
    IdentityIsShaped(fields);
    IdentityRawLine(fields);
    CurrentShape();
    LegacyShape();
    OtherComment(IdentityLine(fields), CURRENT.prefix);
    OtherComment(IdentityLine(fields), LEGACY.prefix);
  }

  lemma FrameIsNotLegacy()
    ensures !Contains(Text(BeginRaw()), LEGACY.prefix) && !Contains(Text(EndRaw()), LEGACY.prefix)
  {
    BeginRawLine();
    EndRawLine();
    CurrentShape();
    LegacyShape();
    BeginIsOneLine();
    EndIsOneLine();
    OtherComment(CURRENT.begin, LEGACY.prefix);
    OtherComment(CURRENT.end, LEGACY.prefix);
  }

  /** The lines of a line put in front. */
  lemma LineInFront(raw: Bytes, rest: Bytes)
    requires LinesOf(raw) == Line(raw, End) && WholeLines(raw)
    ensures LinesOf(raw + rest) == Line(raw, LinesOf(rest))
  {
    LinesConcat(raw, rest);
  }

  /** The block as a section. */
  function BlockParts(before: Lines, fields: Fields, agentBlock: Bytes, after: Lines): Parts {
    Parts(before, BeginRaw(), Line(IdentityRaw(fields), LinesOf(agentBlock)), EndRaw(), after)
  }

  lemma BlockLines(fields: Fields, agentBlock: Bytes)
    requires ValidFields(fields) && WholeLines(agentBlock)
    ensures LinesOf(BlockBytes(fields, agentBlock)) == BlockParts(End, fields, agentBlock, End).SectionOf()
  {
    BeginRawLine();
    EndRawLine();
    IdentityRawLine(fields);
    LinesConcat(agentBlock, EndRaw());
    LineInFront(IdentityRaw(fields), agentBlock + EndRaw());
    LineInFront(BeginRaw(), IdentityRaw(fields) + (agentBlock + EndRaw()));
  }

  lemma EndsWhole(text: Bytes, last: Bytes)
    requires last != "" && WholeLines(last)
    ensures WholeLines(text + last) && text + last != ""
  {
  }

  lemma BlockIsWhole(fields: Fields, agentBlock: Bytes)
    ensures WholeLines(BlockBytes(fields, agentBlock)) && BlockBytes(fields, agentBlock) != ""
  {
    EndRawLine();
    EndsWhole(agentBlock, EndRaw());
    EndsWhole(IdentityRaw(fields), agentBlock + EndRaw());
    EndsWhole(BeginRaw(), IdentityRaw(fields) + (agentBlock + EndRaw()));
  }

  lemma PlacedLines(pre: Bytes, block: Bytes, post: Bytes)
    requires WholeLines(pre) && WholeLines(block)
    ensures LinesOf(pre + block + post) == Append(LinesOf(pre), Append(LinesOf(block), LinesOf(post)))
  {
    LinesConcat(block, post);
    LinesConcat(pre, block + post);
    assert pre + block + post == pre + (block + post);
  }

  lemma AllOfBlock(pre: Lines, fields: Fields, agentBlock: Bytes, post: Lines)
    ensures Append(pre, Append(BlockParts(End, fields, agentBlock, End).SectionOf(), post)) ==
            BlockParts(pre, fields, agentBlock, post).All()
  {
    AppendAssociative(LinesOf(agentBlock), Line(EndRaw(), End), post);
  }

  lemma BlockSectioned(pre: Lines, fields: Fields, agentBlock: Bytes, post: Lines)
    requires ValidFields(fields) && Unmarked(CURRENT, LinesOf(agentBlock))
    requires Unmarked(CURRENT, pre) && Unmarked(CURRENT, post)
    ensures Sectioned(CURRENT, BlockParts(pre, fields, agentBlock, post))
  {
    BeginRawLine();
    EndRawLine();
    IdentityUnmarked(fields);
  }

  lemma SameSection(pre: Lines, fields: Fields, agentBlock: Bytes, post: Lines)
    ensures BlockParts(pre, fields, agentBlock, post).SectionOf() == BlockParts(End, fields, agentBlock, End).SectionOf()
  {
  }

  lemma PlacedParts(pre: Bytes, fields: Fields, agentBlock: Bytes, post: Bytes)
    requires ValidFields(fields) && WholeLines(pre) && WholeLines(agentBlock)
    ensures LinesOf(pre + BlockBytes(fields, agentBlock) + post) ==
            BlockParts(LinesOf(pre), fields, agentBlock, LinesOf(post)).All()
  {
    BlockIsWhole(fields, agentBlock);
    PlacedLines(pre, BlockBytes(fields, agentBlock), post);
    BlockLines(fields, agentBlock);
    AllOfBlock(LinesOf(pre), fields, agentBlock, LinesOf(post));
  }

  lemma BlockJoin(fields: Fields, agentBlock: Bytes, before: Lines, after: Lines)
    requires ValidFields(fields) && WholeLines(agentBlock)
    ensures Join(BlockParts(before, fields, agentBlock, after).SectionOf()) == BlockBytes(fields, agentBlock)
  {
    BlockLines(fields, agentBlock);
    SameSection(before, fields, agentBlock, after);
    LinesJoin(BlockBytes(fields, agentBlock));
  }

  lemma PartsFound(text: Bytes, parts: Parts, before: Bytes, section: Bytes)
    requires Sectioned(CURRENT, parts) && LinesOf(text) == parts.All()
    requires Join(parts.before) == before && Join(parts.SectionOf()) == section
    ensures SpanOf(CURRENT, text) == Some(Section(|before|, |before| + |section|))
  {
    MarkersAreSound();
    SectionFound(CURRENT, text, parts);
  }

  lemma PlacedSection(pre: Bytes, fields: Fields, agentBlock: Bytes, post: Bytes, block: Bytes) returns (parts: Parts)
    requires ValidFields(fields) && WholeLines(pre) && WholeLines(agentBlock) && block == BlockBytes(fields, agentBlock)
    requires Unmarked(CURRENT, LinesOf(agentBlock)) && Unmarked(CURRENT, LinesOf(pre)) && Unmarked(CURRENT, LinesOf(post))
    ensures Sectioned(CURRENT, parts) && LinesOf(pre + block + post) == parts.All()
    ensures Join(parts.before) == pre && Join(parts.SectionOf()) == block
  {
    parts := BlockParts(LinesOf(pre), fields, agentBlock, LinesOf(post));
    PlacedParts(pre, fields, agentBlock, post);
    BlockSectioned(LinesOf(pre), fields, agentBlock, LinesOf(post));
    LinesJoin(pre);
    BlockJoin(fields, agentBlock, LinesOf(pre), LinesOf(post));
  }

  /** A block between unmarked texts is found again, whole. */
  lemma BlockFound(pre: Bytes, fields: Fields, agentBlock: Bytes, post: Bytes, block: Bytes)
    requires ValidFields(fields) && WholeLines(pre) && WholeLines(agentBlock) && block == BlockBytes(fields, agentBlock)
    requires Unmarked(CURRENT, LinesOf(agentBlock)) && Unmarked(CURRENT, LinesOf(pre)) && Unmarked(CURRENT, LinesOf(post))
    ensures SpanOf(CURRENT, pre + block + post) == Some(Section(|pre|, |pre| + |block|))
  {
    var parts := PlacedSection(pre, fields, agentBlock, post, block);
    PartsFound(pre + block + post, parts, pre, block);
  }

  /** The block adds no legacy marker. */
  lemma BlockIsNotLegacy(fields: Fields, agentBlock: Bytes)
    requires ValidFields(fields) && WholeLines(agentBlock)
    ensures Unmarked(LEGACY, LinesOf(BlockBytes(fields, agentBlock))) <==> Unmarked(LEGACY, LinesOf(agentBlock))
  {
    BlockLines(fields, agentBlock);
    IdentityUnmarked(fields);
    FrameIsNotLegacy();
    UnmarkedAppend(LEGACY, LinesOf(agentBlock), Line(EndRaw(), End));
    assert Unmarked(LEGACY, Line(EndRaw(), End));
  }

  /** The block names its identity. */
  lemma BlockHasIdentity(fields: Fields, agentBlock: Bytes)
    requires ValidFields(fields) && WholeLines(agentBlock)
    ensures HasLine(LinesOf(BlockBytes(fields, agentBlock)), IdentityLine(fields))
  {
    BlockLines(fields, agentBlock);
    IdentityRawLine(fields);
    var raw, rest := IdentityRaw(fields), Append(LinesOf(agentBlock), Line(EndRaw(), End));
    assert WithoutLast(raw, '\n') != raw;
    assert HasLine(Line(raw, rest), IdentityLine(fields));
  }

  // ---------------------------------------------------------------------
  // Putting the block in place
  // ---------------------------------------------------------------------

  lemma PartsAreLines(parts: Parts)
    requires AllLines(parts.All())
    ensures AllLines(parts.before) && AllLines(parts.after) && WholeLines(Join(parts.before))
  {
    var tail := Append(parts.inside, Line(parts.end, parts.after));
    AllLinesParts(parts.before, Line(parts.begin, tail));
    AllLinesParts(parts.inside, Line(parts.end, parts.after));
  }

  lemma SpanWithin(markers: Markers, text: Bytes, span: Span)
    requires Sound(markers) && SpanOf(markers, text) == Some(span)
    ensures Within(span, text)
  {
    if span.Section? {
      var parts := SpanCoversLines(markers, text, span);
    }
  }

  lemma {:induction false} PartsUnmarked(markers: Markers, parts: Parts)
    requires Unmarked(markers, parts.All())
    ensures Unmarked(markers, parts.before) && Unmarked(markers, parts.after)
  {
    UnmarkedAppend(markers, parts.before, Line(parts.begin, Append(parts.inside, Line(parts.end, parts.after))));
    UnmarkedAppend(markers, parts.inside, Line(parts.end, parts.after));
  }

  lemma SurroundingLines(markers: Markers, text: Bytes, span: Span) returns (parts: Parts)
    requires Sound(markers) && SpanOf(markers, text) == Some(span) && span.Section? && Within(span, text)
    ensures Sectioned(markers, parts) && parts.All() == LinesOf(text)
    ensures LinesOf(TextBefore(text, span)) == parts.before && LinesOf(TextAfter(text, span)) == parts.after
    ensures WholeLines(TextBefore(text, span))
  {
    parts := SpanCoversLines(markers, text, span);
    LinesAreLines(text, 0);
    PartsAreLines(parts);
    LinesOfJoin(parts.before);
    LinesOfJoin(parts.after);
  }

  /** Around a section (or around nothing) there are complete lines, none of them marked. */
  lemma SurroundingsUnmarked(markers: Markers, text: Bytes, span: Span)
    requires Sound(markers) && SpanOf(markers, text) == Some(span) && Within(span, text)
    ensures WholeLines(TextBefore(text, span))
    ensures Unmarked(markers, LinesOf(TextBefore(text, span))) && Unmarked(markers, LinesOf(TextAfter(text, span)))
  {
    if span.Absent? {
      NoMarkers(markers, text);
    } else {
      var parts := SurroundingLines(markers, text, span);
    }
  }

  /** A text without markers of a kind has none around a section of another kind. */
  lemma OthersUnmarked(markers: Markers, other: Markers, text: Bytes, span: Span)
    requires Sound(markers) && SpanOf(markers, text) == Some(span) && Within(span, text)
    requires SpanOf(other, text) == Some(Absent)
    ensures Unmarked(other, LinesOf(TextBefore(text, span))) && Unmarked(other, LinesOf(TextAfter(text, span)))
  {
    NoMarkers(other, text);
    if span.Section? {
      var parts := SurroundingLines(markers, text, span);
      PartsUnmarked(other, parts);
    }
  }

  lemma PlacedAround(text: Bytes, span: Span, block: Bytes)
    requires Within(span, text)
    ensures PlaceBlock(text, span, block) == TextBefore(text, span) + block + TextAfter(text, span)
  {
    if span.Absent? {
      assert "" + block + text == block + text;
    }
  }

  lemma CutOut(pre: Bytes, block: Bytes, post: Bytes)
    ensures var placed := pre + block + post; var span := Section(|pre|, |pre| + |block|);
      && Within(span, placed) && SectionBytes(placed, span) == block
      && TextBefore(placed, span) == pre && TextAfter(placed, span) == post
      && PlaceBlock(placed, span, block) == placed
  {
  }

  /** What a request may replace: the current section, or the legacy one in a text without a current one. */
  ghost predicate Replaceable(agents: Bytes, markers: Markers, span: Span) {
    && (markers == CURRENT || markers == LEGACY)
    && SpanOf(markers, agents) == Some(span) && Within(span, agents)
    && SpanOf(if markers == CURRENT then LEGACY else CURRENT, agents) == Some(Absent)
  }

  lemma ReplaceableSurroundings(agents: Bytes, markers: Markers, span: Span)
    requires Replaceable(agents, markers, span)
    ensures WholeLines(TextBefore(agents, span))
    ensures Unmarked(CURRENT, LinesOf(TextBefore(agents, span))) && Unmarked(CURRENT, LinesOf(TextAfter(agents, span)))
    ensures Unmarked(LEGACY, LinesOf(TextBefore(agents, span))) && Unmarked(LEGACY, LinesOf(TextAfter(agents, span)))
  {
    MarkersAreSound();
    SurroundingsUnmarked(markers, agents, span);
    OthersUnmarked(markers, if markers == CURRENT then LEGACY else CURRENT, agents, span);
  }

  lemma LegacyAround(pre: Bytes, fields: Fields, agentBlock: Bytes, post: Bytes, block: Bytes)
    requires ValidFields(fields) && WholeLines(pre) && WholeLines(agentBlock) && block == BlockBytes(fields, agentBlock)
    requires Unmarked(LEGACY, LinesOf(pre)) && Unmarked(LEGACY, LinesOf(post))
    ensures Unmarked(LEGACY, LinesOf(pre + block + post)) <==> Unmarked(LEGACY, LinesOf(agentBlock))
  {
    BlockIsWhole(fields, agentBlock);
    PlacedLines(pre, block, post);
    UnmarkedAppend(LEGACY, LinesOf(pre), Append(LinesOf(block), LinesOf(post)));
    UnmarkedAppend(LEGACY, LinesOf(block), LinesOf(post));
    BlockIsNotLegacy(fields, agentBlock);
  }

  /**
   After the block is put in place it is found there, the rest of the text is what it was, and
   putting it in place again changes nothing. The new text is free of legacy markers exactly when
   the packaged block is.
   */
  lemma BlockStays(agents: Bytes, markers: Markers, span: Span, fields: Fields, agentBlock: Bytes, block: Bytes)
    requires Replaceable(agents, markers, span) && block == BlockBytes(fields, agentBlock)
    requires ValidFields(fields) && WholeLines(agentBlock) && Unmarked(CURRENT, LinesOf(agentBlock))
    ensures var placed := PlaceBlock(agents, span, block);
      && SpanOf(CURRENT, placed).Some? && SpanOf(CURRENT, placed).value.Section?
      && Within(SpanOf(CURRENT, placed).value, placed)
      && SectionBytes(placed, SpanOf(CURRENT, placed).value) == block
      && PlaceBlock(placed, SpanOf(CURRENT, placed).value, block) == placed
      && Erase(CURRENT, placed) == Erase(markers, agents)
      && (SpanOf(LEGACY, placed) == Some(Absent) <==> Unmarked(LEGACY, LinesOf(agentBlock)))
  {
    var pre, post := TextBefore(agents, span), TextAfter(agents, span);
    ReplaceableSurroundings(agents, markers, span);
    PlacedAround(agents, span, block);
    BlockFound(pre, fields, agentBlock, post, block);
    CutOut(pre, block, post);
    LegacyAround(pre, fields, agentBlock, post, block);
    NoMarkers(LEGACY, pre + block + post);
  }
}
