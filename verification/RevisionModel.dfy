/**
 Revision requests and when two of them have the same content
 (packages/core/src/review/annotation-logic.ts:13-62, 72-258, 381-393, packages/core/src/review/revision-content.ts:76-102).
 */
module RevisionModel {
  import opened Foundations

  datatype Locator = Locator(path: string, anchor: string, blockSha256: string)

  /** A UTC time that matched its pattern: date and time, the digits after the point, and the case of its T. */
  datatype UtcTime = UtcTime(moment: string, fraction: string, lowerT: bool)

  datatype Revision = Revision(
    id: string,
    fingerprint: string,
    targets: seq<Locator>,
    quote: string,
    kind: string,
    blocking: bool,
    proposal: string,
    rationale: string,
    createdAt: UtcTime,
    supersedes: Option<string>)

  const MAX_TEXT_BYTES := 65536
  const MAX_REVISIONS := 1000
  const MAX_TARGETS := 100
  const MAX_LOCATOR_FIELD_LENGTH := 1024

  // ---------------------------------------------------------------------
  // Same content
  // ---------------------------------------------------------------------

  /** A carriage return, with the line feed behind it if there is one, becomes a line feed. */
  function NormalizeNewlines(text: string): string {
    if text == "" then ""
    else if text[0] == '\r' then
      "\n" + NormalizeNewlines(if |text| > 1 && text[1] == '\n' then text[2..] else text[1..])
    else [text[0]] + NormalizeNewlines(text[1..])
  }

  lemma {:induction false} NormalizedHasNoReturn(text: string)
    ensures '\r' !in NormalizeNewlines(text)
  {
    if text == "" {
    } else if text[0] == '\r' {
      NormalizedHasNoReturn(if |text| > 1 && text[1] == '\n' then text[2..] else text[1..]);
    } else {
      NormalizedHasNoReturn(text[1..]);
    }
  }

  lemma {:induction false} NormalizedStays(text: string)
    requires '\r' !in text
    ensures NormalizeNewlines(text) == text
  {
    if text != "" {
      assert text == [text[0]] + text[1..];
      NormalizedStays(text[1..]);
    }
  }

  /** Trailing zeros of a fraction go. */
  function TrimZeros(fraction: string): string {
    if fraction != "" && fraction[|fraction| - 1] == '0' then TrimZeros(fraction[..|fraction| - 1]) else fraction
  }

  function CanonicalTime(time: UtcTime): UtcTime {
    UtcTime(time.moment, TrimZeros(time.fraction), false)
  }

  function NormalizedRevision(r: Revision): Revision {
    r.(quote := NormalizeNewlines(r.quote), proposal := NormalizeNewlines(r.proposal), rationale := NormalizeNewlines(r.rationale))
  }

  /** revisionContentKey: texts with plain line feeds, the time in its standard form. */
  function ContentKey(r: Revision): Revision {
    NormalizedRevision(r).(createdAt := CanonicalTime(r.createdAt))
  }

  predicate SameContent(a: Revision, b: Revision) {
    ContentKey(a) == ContentKey(b)
  }

  /** Normalizing does not change the content. */
  lemma NormalizedIsSame(r: Revision)
    ensures SameContent(NormalizedRevision(r), r)
    ensures NormalizedRevision(NormalizedRevision(r)) == NormalizedRevision(r)
  {
    NormalizedHasNoReturn(r.quote);
    NormalizedHasNoReturn(r.proposal);
    NormalizedHasNoReturn(r.rationale);
    NormalizedStays(NormalizeNewlines(r.quote));
    NormalizedStays(NormalizeNewlines(r.proposal));
    NormalizedStays(NormalizeNewlines(r.rationale));
  }

  // ---------------------------------------------------------------------
  // Valid revisions
  // ---------------------------------------------------------------------

  function CharBytes(c: char): nat {
    if c as int < 0x80 then 1 else if c as int < 0x800 then 2 else if c as int < 0x10000 then 3 else 4
  }

  function Utf8Length(text: string): nat {
    if text == "" then 0 else CharBytes(text[0]) + Utf8Length(text[1..])
  }

  /** `REV-` and 26 characters of the Crockford alphabet. */
  predicate IsRevisionId(id: string) {
    && |id| == 30 && id[..4] == "REV-"
    && forall i :: 4 <= i < 30 ==>
         '0' <= id[i] <= '9' || ('A' <= id[i] <= 'Z' && id[i] != 'I' && id[i] != 'L' && id[i] != 'O' && id[i] != 'U')
  }

  predicate IsSha256(text: string) {
    |text| == 64 && forall i :: 0 <= i < 64 ==> '0' <= text[i] <= '9' || 'a' <= text[i] <= 'f'
  }

  predicate IsKind(kind: string) {
    kind == "supplement" || kind == "rewrite" || kind == "add-requirement" || kind == "delete"
  }

  predicate PathChar(c: char) {
    c as int > 0x1F && !(0x7F <= c as int <= 0x9F) && c as int != 0x2028 && c as int != 0x2029 && c != '\\'
  }

  /** The segment that starts at a position is neither `.` nor `..`. */
  predicate PlainSegmentAt(path: string, i: nat)
    requires i <= |path|
  {
    !(i < |path| && path[i] == '.' &&
      (i + 1 == |path| || path[i + 1] == '/' ||
       (path[i + 1] == '.' && (i + 2 == |path| || path[i + 2] == '/'))))
  }

  /** REPO_PATH_PATTERN */
  predicate IsRepoPath(path: string) {
    && path != "" && path[0] != '/' && PlainSegmentAt(path, 0)
    && (forall i :: 0 <= i < |path| ==> PathChar(path[i]))
    && forall i :: 0 < i < |path| && path[i - 1] == '/' ==> path[i] != '/' && PlainSegmentAt(path, i)
  }

  predicate ValidLocator(target: Locator) {
    && 1 <= |target.path| <= MAX_LOCATOR_FIELD_LENGTH && IsRepoPath(target.path)
    && 1 <= |target.anchor| <= MAX_LOCATOR_FIELD_LENGTH && IsSha256(target.blockSha256)
  }

  function Digit(c: char): nat {
    if '0' <= c <= '9' then c as int - '0' as int else 0
  }

  predicate Digits(text: string) {
    forall i :: 0 <= i < |text| ==> '0' <= text[i] <= '9'
  }

  function Two(text: string, i: nat): nat
    requires i + 2 <= |text|
  {
    10 * Digit(text[i]) + Digit(text[i + 1])
  }

  function DaysInMonth(year: nat, month: nat): nat {
    if month == 2 then (if year % 4 == 0 && (year % 100 != 0 || year % 400 == 0) then 29 else 28)
    else if month == 4 || month == 6 || month == 9 || month == 11 then 30
    else 31
  }

  /** `YYYY-MM-DDTHH:MM:SS` with digits in their places. */
  predicate HasTimeShape(moment: string) {
    && |moment| == 19 && moment[4] == '-' && moment[7] == '-' && moment[10] == 'T' && moment[13] == ':' && moment[16] == ':'
    && Digits(moment[..4]) && Digits(moment[5..7]) && Digits(moment[8..10]) && Digits(moment[11..13])
    && Digits(moment[14..16]) && Digits(moment[17..])
  }

  /** isUtcDateTime: a day of the calendar, and a leap second only in the last minute of a day. */
  predicate IsRealTime(time: UtcTime) {
    && HasTimeShape(time.moment) && Digits(time.fraction)
    && var moment := time.moment;
       var year, month, day := 100 * Two(moment, 0) + Two(moment, 2), Two(moment, 5), Two(moment, 8);
       var hour, minute, second := Two(moment, 11), Two(moment, 14), Two(moment, 17);
       && 1 <= month <= 12 && 1 <= day <= DaysInMonth(year, month) && hour <= 23 && minute <= 59
       && (second <= 59 || (second == 60 && hour == 23 && minute == 59))
  }

  predicate ValidRevision(r: Revision) {
    && IsRevisionId(r.id) && IsSha256(r.fingerprint)
    && 1 <= |r.targets| <= MAX_TARGETS && (forall i :: 0 <= i < |r.targets| ==> ValidLocator(r.targets[i]))
    && Utf8Length(r.quote) <= MAX_TEXT_BYTES && Utf8Length(r.proposal) <= MAX_TEXT_BYTES
    && Utf8Length(r.rationale) <= MAX_TEXT_BYTES
    && IsKind(r.kind) && IsRealTime(r.createdAt)
    && (r.supersedes.Some? ==> IsRevisionId(r.supersedes.value) && r.supersedes.value != r.id)
  }
}
