/**
 The managed section of a text file: one begin line, one end line, and the lines between
 them (findMarkerSpan and containsAscii in packages/core/src/activation.ts:354-426).
 */
module MarkerSpan {
  import opened Foundations
  import opened MutationModel

  predicate OccursAt(text: Bytes, needle: Bytes, k: nat) {
    k + |needle| <= |text| && text[k..k + |needle|] == needle
  }

  predicate Contains(text: Bytes, needle: Bytes) {
    exists k :: 0 <= k <= |text| && OccursAt(text, needle, k)
  }

  method ContainsAscii(text: Bytes, needle: Bytes) returns (found: bool)
    ensures found == Contains(text, needle)
  {
    var start := 0;
    while start + |needle| <= |text|
      invariant forall k :: 0 <= k < start ==> !OccursAt(text, needle, k)
    {
      var index := 0;
      while index < |needle| && text[start + index] == needle[index]
        invariant 0 <= index <= |needle|
        invariant forall i :: 0 <= i < index ==> text[start + i] == needle[i]
      {
        index := index + 1;
      }
      if index == |needle| {
        assert OccursAt(text, needle, start);
        return true;
      }
      assert text[start..start + |needle|][index] != needle[index];
      start := start + 1;
    }
    return false;
  }

  // ---------------------------------------------------------------------
  // Lines
  // ---------------------------------------------------------------------

  /** The next line feed at or after a position, or the end. */
  function LineEnd(bytes: Bytes, position: nat): (end: nat)
    requires position <= |bytes|
    ensures position <= end <= |bytes|
    ensures forall i :: position <= i < end ==> bytes[i] != '\n'
    ensures end < |bytes| ==> bytes[end] == '\n'
    decreases |bytes| - position
  {
    if position == |bytes| || bytes[position] == '\n' then position else LineEnd(bytes, position + 1)
  }

  /** Where the line that starts at a position ends, its line feed included. */
  function LineStop(bytes: Bytes, position: nat): (stop: nat)
    requires position < |bytes|
    ensures position < stop <= |bytes|
  {
    var end := LineEnd(bytes, position);
    if end < |bytes| then end + 1 else end
  }

  lemma LineEndIs(bytes: Bytes, position: nat, end: nat)
    requires position <= end <= |bytes| && (end < |bytes| ==> bytes[end] == '\n')
    requires forall i :: position <= i < end ==> bytes[i] != '\n'
    ensures LineEnd(bytes, position) == end
  {
  }

  datatype Lines = End | Line(raw: Bytes, rest: Lines)

  /** The lines from a position on, with their line endings. */
  function LinesFrom(bytes: Bytes, position: nat): Lines
    requires position <= |bytes|
    decreases |bytes| - position
  {
    if position == |bytes| then End
    else Line(bytes[position..LineStop(bytes, position)], LinesFrom(bytes, LineStop(bytes, position)))
  }

  function LinesOf(bytes: Bytes): Lines {
    LinesFrom(bytes, 0)
  }

  function WithoutLast(bytes: Bytes, last: char): Bytes {
    if bytes != "" && bytes[|bytes| - 1] == last then bytes[..|bytes| - 1] else bytes
  }

  /** A line without LF or CRLF; a CR at the very end of the file is dropped too. */
  function Text(raw: Bytes): Bytes {
    WithoutLast(WithoutLast(raw, '\n'), '\r')
  }

  function Append(a: Lines, b: Lines): Lines {
    match a
    case End => b
    case Line(raw, rest) => Line(raw, Append(rest, b))
  }

  function Join(lines: Lines): Bytes {
    match lines
    case End => ""
    case Line(raw, rest) => raw + Join(rest)
  }

  lemma {:induction false} AppendAssociative(a: Lines, b: Lines, c: Lines)
    ensures Append(Append(a, b), c) == Append(a, Append(b, c))
  {
    match a
    case End =>
    case Line(_, rest) => AppendAssociative(rest, b, c);
  }

  lemma {:induction false} JoinAppend(a: Lines, b: Lines)
    ensures Join(Append(a, b)) == Join(a) + Join(b)
  {
    match a
    case End =>
      assert Join(End) == "";
    case Line(raw, rest) =>
      JoinAppend(rest, b);
      assert raw + (Join(rest) + Join(b)) == raw + Join(rest) + Join(b);
  }

  lemma {:induction false} LinesFromJoin(bytes: Bytes, position: nat)
    requires position <= |bytes|
    ensures Join(LinesFrom(bytes, position)) == bytes[position..]
    decreases |bytes| - position
  {
    if position < |bytes| {
      var stop := LineStop(bytes, position);
      LinesFromJoin(bytes, stop);
      assert bytes[position..] == bytes[position..stop] + bytes[stop..];
    }
  }

  lemma LinesJoin(bytes: Bytes)
    ensures Join(LinesOf(bytes)) == bytes
  {
    LinesFromJoin(bytes, 0);
  }

  /** Empty, or complete lines only. */
  predicate WholeLines(bytes: Bytes) {
    bytes == "" || bytes[|bytes| - 1] == '\n'
  }

  lemma LineStopLeft(a: Bytes, b: Bytes, position: nat)
    requires WholeLines(a) && position < |a|
    ensures LineStop(a + b, position) == LineStop(a, position)
  {
    LineEndIs(a + b, position, LineEnd(a, position));
  }

  lemma LineStopRight(a: Bytes, b: Bytes, position: nat)
    requires position < |b|
    ensures LineStop(a + b, |a| + position) == |a| + LineStop(b, position)
  {
    LineEndIs(a + b, |a| + position, |a| + LineEnd(b, position));
  }

  lemma SliceRight(a: Bytes, b: Bytes, i: nat, j: nat)
    requires i <= j <= |b|
    ensures (a + b)[|a| + i..|a| + j] == b[i..j]
  {
  }

  lemma {:induction false} LinesLeft(a: Bytes, b: Bytes, position: nat)
    requires WholeLines(a) && position <= |a|
    ensures LinesFrom(a + b, position) == Append(LinesFrom(a, position), LinesFrom(a + b, |a|))
    decreases |a| - position
  {
    if position < |a| {
      LineStopLeft(a, b, position);
      var stop := LineStop(a, position);
      LinesLeft(a, b, stop);
      assert (a + b)[position..stop] == a[position..stop];
    }
  }

  lemma {:induction false} LinesRight(a: Bytes, b: Bytes, position: nat)
    requires position <= |b|
    ensures LinesFrom(a + b, |a| + position) == LinesFrom(b, position)
    decreases |b| - position
  {
    if position < |b| {
      var stop := LineStop(b, position);
      LineStopRight(a, b, position);
      LinesRight(a, b, stop);
      SliceRight(a, b, position, stop);
    }
  }

  lemma LinesConcat(a: Bytes, b: Bytes)
    requires WholeLines(a)
    ensures LinesOf(a + b) == Append(LinesOf(a), LinesOf(b))
  {
    LinesLeft(a, b, 0);
    LinesRight(a, b, 0);
  }

  predicate IsLine(line: Bytes, last: bool) {
    && line != ""
    && (!last ==> line[|line| - 1] == '\n')
    && (forall k :: 0 <= k < |line| - 1 ==> line[k] != '\n')
  }

  predicate AllLines(lines: Lines) {
    match lines
    case End => true
    case Line(raw, rest) => IsLine(raw, rest.End?) && AllLines(rest)
  }

  /** Lines split a text at its line feeds: every line but the last ends with its only line feed. */
  lemma {:induction false} LinesAreLines(bytes: Bytes, position: nat)
    requires position <= |bytes|
    ensures AllLines(LinesFrom(bytes, position))
    decreases |bytes| - position
  {
    if position < |bytes| {
      LinesAreLines(bytes, LineStop(bytes, position));
    }
  }

  // ---------------------------------------------------------------------
  // The scanner
  // ---------------------------------------------------------------------

  datatype Markers = Markers(begin: Bytes, end: Bytes, prefix: Bytes)

  /** Both marker lines start with the prefix that makes a line a marker. */
  predicate Sound(markers: Markers) {
    markers.prefix <= markers.begin && markers.prefix <= markers.end
  }

  /** `count` 0 is Absent, `count` 2 is a section. */
  datatype Span = Absent | Section(start: nat, stop: nat)

  /** What the scanner sees of a line: whether it contains the prefix, and is the begin or the end line. */
  datatype Class = Class(marked: bool, begin: bool, end: bool)

  function Classify(markers: Markers, text: Bytes): Class {
    Class(Contains(text, markers.prefix), text == markers.begin, text == markers.end)
  }

  function See(markers: Markers, raw: Bytes): Class {
    Classify(markers, Text(raw))
  }

  datatype Progress = Outside | Inside(start: nat) | Done(start: nat, stop: nat) | Rejected

  function Step(state: Progress, seen: Class, position: nat, width: nat): Progress {
    if !seen.marked then state
    else if seen.begin && state.Outside? then Inside(position)
    else if seen.end && state.Inside? then Done(state.start, position + width)
    else Rejected
  }

  function Scan(markers: Markers, lines: Lines, position: nat, state: Progress): Progress {
    match lines
    case End => state
    case Line(raw, rest) =>
      if state.Rejected? then state
      else Scan(markers, rest, position + |raw|, Step(state, See(markers, raw), position, |raw|))
  }

  function SpanFrom(state: Progress): Option<Span> {
    match state
    case Outside => Some(Absent)
    case Done(start, stop) => Some(Section(start, stop))
    case _ => None
  }

  function SpanOf(markers: Markers, bytes: Bytes): Option<Span> {
    SpanFrom(Scan(markers, LinesOf(bytes), 0, Outside))
  }

  lemma LineText(bytes: Bytes, position: nat)
    requires position < |bytes|
    ensures var end := LineEnd(bytes, position);
      var contentEnd := if end > position && bytes[end - 1] == '\r' then end - 1 else end;
      Text(bytes[position..LineStop(bytes, position)]) == bytes[position..contentEnd]
  {
    var end := LineEnd(bytes, position);
    var raw := bytes[position..LineStop(bytes, position)];
    assert WithoutLast(raw, '\n') == bytes[position..end] by {
      if end < |bytes| {
        assert raw[|raw| - 1] == '\n';
      } else {
        assert raw[|raw| - 1] == bytes[end - 1];
      }
    }
  }

  /** The line at a position without its ending, and how many bytes it takes up. */
  method ReadLine(bytes: Bytes, position: nat) returns (line: Bytes, width: nat)
    requires position < |bytes|
    ensures position + width == LineStop(bytes, position)
    ensures line == Text(bytes[position..LineStop(bytes, position)])
  {
    var lineEnd := position;
    while lineEnd < |bytes| && bytes[lineEnd] != '\n'
      invariant position <= lineEnd <= |bytes|
      invariant LineEnd(bytes, lineEnd) == LineEnd(bytes, position)
    {
      lineEnd := lineEnd + 1;
    }
    var contentEnd := if lineEnd > position && bytes[lineEnd - 1] == '\r' then lineEnd - 1 else lineEnd;
    line := bytes[position..contentEnd];
    width := if lineEnd < |bytes| then lineEnd - position + 1 else lineEnd - position;
    LineText(bytes, position);
  }

  method ClassifyLine(markers: Markers, bytes: Bytes, position: nat) returns (seen: Class, width: nat)
    requires position < |bytes|
    ensures position + width == LineStop(bytes, position)
    ensures seen == See(markers, bytes[position..LineStop(bytes, position)])
  {
    var text;
    text, width := ReadLine(bytes, position);
    var marked := ContainsAscii(text, markers.prefix);
    seen := Class(marked, text == markers.begin, text == markers.end);
  }

  lemma ScanOne(markers: Markers, bytes: Bytes, position: nat, state: Progress)
    requires position < |bytes| && !state.Rejected?
    ensures var stop := LineStop(bytes, position);
      Scan(markers, LinesFrom(bytes, position), position, state) ==
      Scan(markers, LinesFrom(bytes, stop), stop, Step(state, See(markers, bytes[position..stop]), position, stop - position))
  {
  }

  lemma RejectedStays(markers: Markers, lines: Lines, position: nat)
    ensures Scan(markers, lines, position, Rejected) == Rejected
  {
  }

  /** The byte loop computes what the line-by-line scanner defines. */
  method FindMarkerSpan(markers: Markers, bytes: Bytes) returns (span: Option<Span>)
    ensures span == SpanOf(markers, bytes)
  {
    var position, state := 0, Outside;
    ghost var goal := Scan(markers, LinesOf(bytes), 0, Outside);
    while position < |bytes|
      invariant position <= |bytes| && !state.Rejected?
      invariant goal == Scan(markers, LinesFrom(bytes, position), position, state)
    {
      ScanOne(markers, bytes, position, state);
      var seen, width := ClassifyLine(markers, bytes, position);
      state := Step(state, seen, position, width);
      position := position + width;
      if state.Rejected? {
        RejectedStays(markers, LinesFrom(bytes, position), position);
        return None;
      }
    }
    span := SpanFrom(state);
  }

  // ---------------------------------------------------------------------
  // What the scanner means
  // ---------------------------------------------------------------------

  predicate PlainLines(markers: Markers, lines: Lines) {
    match lines
    case End => true
    case Line(raw, rest) => !See(markers, raw).marked && PlainLines(markers, rest)
  }

  /** The lines of a text with one section. */
  datatype Parts = Parts(before: Lines, begin: Bytes, inside: Lines, end: Bytes, after: Lines) {
    function SectionOf(): Lines {
      Line(begin, Append(inside, Line(end, End)))
    }

    function All(): Lines {
      Append(before, Line(begin, Append(inside, Line(end, after))))
    }
  }

  predicate Framed(markers: Markers, parts: Parts) {
    && See(markers, parts.begin).marked && See(markers, parts.begin).begin
    && See(markers, parts.end).marked && See(markers, parts.end).end
    && PlainLines(markers, parts.before) && PlainLines(markers, parts.inside) && PlainLines(markers, parts.after)
  }

  lemma {:induction false} ScanPlain(markers: Markers, lines: Lines, rest: Lines, position: nat, state: Progress)
    requires PlainLines(markers, lines) && !state.Rejected?
    ensures Scan(markers, Append(lines, rest), position, state) == Scan(markers, rest, position + |Join(lines)|, state)
  {
    match lines
    case End =>
    case Line(raw, tail) => ScanPlain(markers, tail, rest, position + |raw|, state);
  }

  lemma {:induction false} AppendEnd(lines: Lines)
    ensures Append(lines, End) == lines
  {
    match lines
    case End =>
    case Line(_, rest) => AppendEnd(rest);
  }

  lemma ScanAllPlain(markers: Markers, lines: Lines, position: nat, state: Progress)
    requires PlainLines(markers, lines) && !state.Rejected?
    ensures Scan(markers, lines, position, state) == state
  {
    AppendEnd(lines);
    ScanPlain(markers, lines, End, position, state);
  }

  lemma SectionLength(parts: Parts)
    ensures |Join(parts.SectionOf())| == |parts.begin| + |Join(parts.inside)| + |parts.end|
  {
    JoinAppend(parts.inside, Line(parts.end, End));
    assert Join(Line(parts.end, End)) == parts.end + "";
  }

  lemma EnterSection(markers: Markers, begin: Bytes, rest: Lines, start: nat)
    requires See(markers, begin).marked && See(markers, begin).begin
    ensures Scan(markers, Line(begin, rest), start, Outside) == Scan(markers, rest, start + |begin|, Inside(start))
  {
  }

  lemma LeaveSection(markers: Markers, end: Bytes, after: Lines, position: nat, start: nat)
    requires See(markers, end).marked && See(markers, end).end && PlainLines(markers, after)
    ensures Scan(markers, Line(end, after), position, Inside(start)) == Done(start, position + |end|)
  {
    ScanAllPlain(markers, after, position + |end|, Done(start, position + |end|));
  }

  lemma FrameEntered(markers: Markers, before: Lines, begin: Bytes, rest: Lines)
    requires PlainLines(markers, before) && See(markers, begin).marked && See(markers, begin).begin
    ensures Scan(markers, Append(before, Line(begin, rest)), 0, Outside) ==
            Scan(markers, rest, |Join(before)| + |begin|, Inside(|Join(before)|))
  {
    ScanPlain(markers, before, Line(begin, rest), 0, Outside);
    EnterSection(markers, begin, rest, |Join(before)|);
  }

  lemma FrameLeft(markers: Markers, inside: Lines, end: Bytes, after: Lines, position: nat, start: nat)
    requires PlainLines(markers, inside) && PlainLines(markers, after) && See(markers, end).marked && See(markers, end).end
    ensures Scan(markers, Append(inside, Line(end, after)), position, Inside(start)) ==
            Done(start, position + |Join(inside)| + |end|)
  {
    ScanPlain(markers, inside, Line(end, after), position, Inside(start));
    LeaveSection(markers, end, after, position + |Join(inside)|, start);
  }

  lemma FrameScanned(markers: Markers, parts: Parts)
    requires Framed(markers, parts)
    ensures Scan(markers, parts.All(), 0, Outside) ==
            Done(|Join(parts.before)|, |Join(parts.before)| + |parts.begin| + |Join(parts.inside)| + |parts.end|)
  {
    FrameEntered(markers, parts.before, parts.begin, Append(parts.inside, Line(parts.end, parts.after)));
    FrameLeft(markers, parts.inside, parts.end, parts.after, |Join(parts.before)| + |parts.begin|, |Join(parts.before)|);
  }

  /** The lines up to the first marked one, and the rest. */
  lemma {:induction false} SplitAtMarker(markers: Markers, lines: Lines) returns (before: Lines, rest: Lines)
    ensures lines == Append(before, rest) && PlainLines(markers, before)
    ensures rest.End? || See(markers, rest.raw).marked
  {
    if lines.End? || See(markers, lines.raw).marked {
      before, rest := End, lines;
    } else {
      before, rest := SplitAtMarker(markers, lines.rest);
      before := Line(lines.raw, before);
    }
  }

  lemma {:induction false} AfterDone(markers: Markers, lines: Lines, position: nat, start: nat, stop: nat)
    ensures Scan(markers, lines, position, Done(start, stop)).Done? ==> PlainLines(markers, lines)
  {
    match lines
    case End =>
    case Line(raw, rest) =>
      RejectedStays(markers, rest, position + |raw|);
      AfterDone(markers, rest, position + |raw|, start, stop);
  }

  lemma InsideAccepted(markers: Markers, lines: Lines, position: nat, start: nat)
    returns (inside: Lines, end: Bytes, after: Lines)
    requires Scan(markers, lines, position, Inside(start)).Done?
    ensures lines == Append(inside, Line(end, after)) && See(markers, end).marked && See(markers, end).end
    ensures PlainLines(markers, inside) && PlainLines(markers, after)
  {
    var rest;
    inside, rest := SplitAtMarker(markers, lines);
    ScanPlain(markers, inside, rest, position, Inside(start));
    end, after := rest.raw, rest.rest;
    var stop := position + |Join(inside)| + |end|;
    RejectedStays(markers, after, stop);
    AfterDone(markers, after, stop, start, stop);
  }

  /** What the scanner accepts as a section is one. */
  lemma FrameAccepted(markers: Markers, lines: Lines) returns (parts: Parts)
    requires Scan(markers, lines, 0, Outside).Done?
    ensures lines == parts.All() && Framed(markers, parts)
  {
    var before, rest := SplitAtMarker(markers, lines);
    ScanPlain(markers, before, rest, 0, Outside);
    var start := |Join(before)|;
    RejectedStays(markers, rest.rest, start + |rest.raw|);
    var inside, end, after := InsideAccepted(markers, rest.rest, start + |rest.raw|, start);
    parts := Parts(before, rest.raw, inside, end, after);
  }

  lemma {:induction false} NeverOutside(markers: Markers, lines: Lines, position: nat, state: Progress)
    requires !state.Outside?
    ensures !Scan(markers, lines, position, state).Outside?
  {
    match lines
    case End =>
    case Line(raw, rest) =>
      if !state.Rejected? {
        NeverOutside(markers, rest, position + |raw|, Step(state, See(markers, raw), position, |raw|));
      }
  }

  lemma {:induction false} OutsideAccepted(markers: Markers, lines: Lines, position: nat)
    ensures Scan(markers, lines, position, Outside).Outside? <==> PlainLines(markers, lines)
  {
    match lines
    case End =>
    case Line(raw, rest) =>
      if See(markers, raw).marked {
        NeverOutside(markers, rest, position + |raw|, Step(Outside, See(markers, raw), position, |raw|));
      } else {
        OutsideAccepted(markers, rest, position + |raw|);
      }
  }

  // ---------------------------------------------------------------------
  // In terms of the text
  // ---------------------------------------------------------------------

  predicate Unmarked(markers: Markers, lines: Lines) {
    match lines
    case End => true
    case Line(raw, rest) => !Contains(Text(raw), markers.prefix) && Unmarked(markers, rest)
  }

  /** One begin line, later one end line, and no other line that contains the prefix. */
  predicate Sectioned(markers: Markers, parts: Parts) {
    && Text(parts.begin) == markers.begin && Text(parts.end) == markers.end
    && Unmarked(markers, parts.before) && Unmarked(markers, parts.inside) && Unmarked(markers, parts.after)
  }

  lemma PrefixContained(text: Bytes, prefix: Bytes)
    requires prefix <= text
    ensures Contains(text, prefix)
  {
    assert OccursAt(text, prefix, 0);
  }

  lemma {:induction false} PlainIff(markers: Markers, lines: Lines)
    ensures PlainLines(markers, lines) <==> Unmarked(markers, lines)
  {
    match lines
    case End =>
    case Line(_, rest) => PlainIff(markers, rest);
  }

  lemma FramedIff(markers: Markers, parts: Parts)
    requires Sound(markers)
    ensures Framed(markers, parts) <==> Sectioned(markers, parts)
  {
    PrefixContained(markers.begin, markers.prefix);
    PrefixContained(markers.end, markers.prefix);
    PlainIff(markers, parts.before);
    PlainIff(markers, parts.inside);
    PlainIff(markers, parts.after);
  }

  lemma FrameLength(markers: Markers, parts: Parts)
    requires Framed(markers, parts)
    ensures Scan(markers, parts.All(), 0, Outside) ==
            Done(|Join(parts.before)|, |Join(parts.before)| + |Join(parts.SectionOf())|)
  {
    FrameScanned(markers, parts);
    SectionLength(parts);
  }

  /** A section is found where the lines say it is. */
  lemma SectionFound(markers: Markers, bytes: Bytes, parts: Parts)
    requires Sound(markers) && Sectioned(markers, parts) && parts.All() == LinesOf(bytes)
    ensures SpanOf(markers, bytes) ==
            Some(Section(|Join(parts.before)|, |Join(parts.before)| + |Join(parts.SectionOf())|))
  {
    FramedIff(markers, parts);
    FrameLength(markers, parts);
  }

  lemma SectionAccepted(markers: Markers, bytes: Bytes) returns (parts: Parts)
    requires Sound(markers) && SpanOf(markers, bytes).Some? && SpanOf(markers, bytes).value.Section?
    ensures parts.All() == LinesOf(bytes) && Sectioned(markers, parts)
  {
    parts := FrameAccepted(markers, LinesOf(bytes));
    FramedIff(markers, parts);
  }

  lemma NoMarkers(markers: Markers, bytes: Bytes)
    ensures SpanOf(markers, bytes) == Some(Absent) <==> Unmarked(markers, LinesOf(bytes))
  {
    OutsideAccepted(markers, LinesOf(bytes), 0);
    PlainIff(markers, LinesOf(bytes));
  }

  /** The three outcomes over arbitrary bytes, each exactly when the lines say so. */
  lemma SpanMeaning(markers: Markers, bytes: Bytes)
    requires Sound(markers)
    ensures SpanOf(markers, bytes) == Some(Absent) <==> Unmarked(markers, LinesOf(bytes))
    ensures SpanOf(markers, bytes).Some? && SpanOf(markers, bytes).value.Section? <==>
            exists parts: Parts :: Sectioned(markers, parts) && parts.All() == LinesOf(bytes)
  {
    NoMarkers(markers, bytes);
    if SpanOf(markers, bytes).Some? && SpanOf(markers, bytes).value.Section? {
      var parts := SectionAccepted(markers, bytes);
    }
    if parts: Parts :| Sectioned(markers, parts) && parts.All() == LinesOf(bytes) {
      SectionFound(markers, bytes, parts);
    }
  }

  lemma PartsJoin(parts: Parts)
    ensures Join(parts.All()) == Join(parts.before) + Join(parts.SectionOf()) + Join(parts.after)
  {
    var tail := Line(parts.end, parts.after);
    AppendAssociative(parts.inside, Line(parts.end, End), parts.after);
    assert Append(parts.SectionOf(), parts.after) == Line(parts.begin, Append(parts.inside, tail));
    JoinAppend(parts.before, Append(parts.SectionOf(), parts.after));
    JoinAppend(parts.SectionOf(), parts.after);
  }

  lemma ThreeParts(bytes: Bytes, a: Bytes, b: Bytes, c: Bytes)
    requires bytes == a + b + c
    ensures bytes[..|a|] == a && bytes[|a|..|a| + |b|] == b && bytes[|a| + |b|..] == c
  {
  }

  /** The span covers whole lines, and the text is what precedes it, the span, and what follows. */
  lemma SpanCoversLines(markers: Markers, bytes: Bytes, span: Span) returns (parts: Parts)
    requires Sound(markers) && SpanOf(markers, bytes) == Some(span) && span.Section?
    ensures Sectioned(markers, parts) && parts.All() == LinesOf(bytes)
    ensures span.start <= span.stop <= |bytes|
    ensures bytes[..span.start] == Join(parts.before)
    ensures bytes[span.start..span.stop] == Join(parts.SectionOf())
    ensures bytes[span.stop..] == Join(parts.after)
  {
    parts := SectionAccepted(markers, bytes);
    SectionFound(markers, bytes, parts);
    PartsJoin(parts);
    LinesJoin(bytes);
    ThreeParts(bytes, Join(parts.before), Join(parts.SectionOf()), Join(parts.after));
  }
}
