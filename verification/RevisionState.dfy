/**
 The review page: its requests, and the transitions that return a new state
 (packages/core/src/review/annotation-state.ts:19-150, 271-414).
 */
module RevisionState {
  import opened Foundations
  import opened RevisionModel
  import opened SupersedesChain

  /** A request with the page's own flags. */
  datatype Entry = Entry(revision: Revision, exported: bool, pending: bool, fromStorage: bool)

  type State = seq<Entry>

  /** What a transition returns; a refused one leaves the state alone. */
  datatype Outcome = Changed(state: State, entry: Entry) | Refused

  // ---------------------------------------------------------------------
  // Reading the state
  // ---------------------------------------------------------------------

  function Revisions(state: State): (list: seq<Revision>)
    ensures |list| == |state| && forall i :: 0 <= i < |state| ==> list[i] == state[i].revision
  {
    if state == [] then [] else Revisions(state[..|state| - 1]) + [state[|state| - 1].revision]
  }

  /** findRequest: the first entry with this id. */
  function FindRequest(state: State, id: string): (found: Option<Entry>)
    ensures found.Some? ==> found.value in state && found.value.revision.id == id
    ensures found.None? ==> forall e :: e in state ==> e.revision.id != id
  {
    if state == [] then None
    else if state[0].revision.id == id then Some(state[0])
    else FindRequest(state[1..], id)
  }

  predicate IsSuperseded(state: State, id: string) {
    exists i :: 0 <= i < |state| && state[i].revision.supersedes == Some(id)
  }

  predicate CanEdit(state: State, id: string) {
    FindRequest(state, id).Some? && !IsSuperseded(state, id)
  }

  function WithFlags(revision: Revision, exported: bool, pending: bool): Entry {
    Entry(revision, exported, pending, false)
  }

  /** The last entry with this id, as an object filled from the list has it. */
  function Target(list: State, id: string): (found: Option<Entry>)
    ensures found.Some? ==> found.value in list && found.value.revision.id == id
    ensures found.None? ==> forall e :: e in list ==> e.revision.id != id
  {
    if list == [] then None
    else if list[|list| - 1].revision.id == id then Some(list[|list| - 1])
    else Target(list[..|list| - 1], id)
  }

  /** What is superseded must be in the list and exported. */
  predicate TargetProblem(list: State, entry: Entry) {
    && entry.revision.supersedes.Some? && !SupersedesItself(entry.revision)
    && var target := Target(list, entry.revision.supersedes.value);
       target.None? || !target.value.exported
  }

  function TargetProblems(list: State, k: nat): seq<string>
    requires k <= |list|
  {
    if k == 0 then [] else TargetProblems(list, k - 1) + if TargetProblem(list, list[k - 1]) then [list[k - 1].revision.id] else []
  }

  /** supersedesProblems */
  ghost function Problems(list: State): seq<string> {
    ConflictIds(Revisions(list)) + TargetProblems(list, |list|)
  }

  // ---------------------------------------------------------------------
  // New requests
  // ---------------------------------------------------------------------

  /** White space as `String.prototype.trim` knows it. */
  predicate IsSpace(c: char) {
    var u := c as int;
    || 9 <= u <= 13 || u == 32 || u == 160 || u == 0x1680 || 0x2000 <= u <= 0x200A
    || u == 0x2028 || u == 0x2029 || u == 0x202F || u == 0x205F || u == 0x3000 || u == 0xFEFF
  }

  predicate HasInk(text: string) {
    exists i :: 0 <= i < |text| && !IsSpace(text[i])
  }

  const TRUNCATE_MARKER := "\U{2026}\U{FF08}\U{5DF2}\U{622A}\U{65B7}\U{FF09}"

  /** The longest start of whole characters within a number of octets. */
  function Fitting(text: string, budget: nat): (start: string)
    ensures Utf8Length(start) <= budget
  {
    if text == "" || CharBytes(text[0]) > budget then ""
    else
      var rest := Fitting(text[1..], budget - CharBytes(text[0]));
      assert ([text[0]] + rest)[1..] == rest;
      [text[0]] + rest
  }

  lemma {:induction false} LengthOfConcat(a: string, b: string)
    ensures Utf8Length(a + b) == Utf8Length(a) + Utf8Length(b)
  {
    if a == "" {
      assert a + b == b;
    } else {
      LengthOfConcat(a[1..], b);
      assert (a + b)[1..] == a[1..] + b;
    }
  }

  /** Decoding drops a byte order mark at the start. */
  function WithoutMark(text: string): string {
    if text != "" && text[0] == '\U{FEFF}' then text[1..] else text
  }

  /** A text over the limit ends in the marker, and is within the limit with it. */
  function TruncateText(text: string): string {
    if Utf8Length(text) <= MAX_TEXT_BYTES then text else WithoutMark(Fitting(text, MAX_TEXT_BYTES - 18)) + TRUNCATE_MARKER
  }

  /** What fits is a start of the text, and one more character would not fit. */
  lemma {:induction false} FittingIsLongest(text: string, budget: nat)
    ensures var start := Fitting(text, budget);
      && |start| <= |text| && start == text[..|start|]
      && (start == text || Utf8Length(text[..|start| + 1]) > budget)
  {
    var start := Fitting(text, budget);
    if text == "" {
    } else if CharBytes(text[0]) > budget {
      assert text[..1] == [text[0]] && text[..1][1..] == "";
    } else {
      FittingIsLongest(text[1..], budget - CharBytes(text[0]));
      var rest := Fitting(text[1..], budget - CharBytes(text[0]));
      assert [text[0]] + text[1..] == text && start == [text[0]] + rest;
      assert start == text[..|start|];
      if rest != text[1..] {
        assert text[..|start| + 1][1..] == text[1..][..|rest| + 1];
      }
    }
  }

  lemma MarkDropped(text: string)
    ensures Utf8Length(WithoutMark(text)) <= Utf8Length(text)
  {
  }

  /** A text over the limit keeps its longest start that leaves room for the marker, but not a byte order mark in front. */
  lemma TruncatedFits(text: string)
    ensures Utf8Length(TruncateText(text)) <= MAX_TEXT_BYTES
    ensures Utf8Length(text) <= MAX_TEXT_BYTES ==> TruncateText(text) == text
    ensures Utf8Length(text) > MAX_TEXT_BYTES ==>
      exists k :: 0 <= k < |text| && TruncateText(text) == WithoutMark(text[..k]) + TRUNCATE_MARKER &&
                  Utf8Length(text[..k]) <= MAX_TEXT_BYTES - 18 < Utf8Length(text[..k + 1])
  {
    hide Utf8Length, Fitting;
    MarkDropped(Fitting(text, MAX_TEXT_BYTES - 18));
    LengthOfConcat(WithoutMark(Fitting(text, MAX_TEXT_BYTES - 18)), TRUNCATE_MARKER);
    MarkerLength();
    FittingIsLongest(text, MAX_TEXT_BYTES - 18);
    if Utf8Length(text) > MAX_TEXT_BYTES {
      var k := |Fitting(text, MAX_TEXT_BYTES - 18)|;
      assert k < |text| && TruncateText(text) == WithoutMark(text[..k]) + TRUNCATE_MARKER;
    }
  }

  lemma MarkerLength()
    ensures Utf8Length(TRUNCATE_MARKER) == 18
  {
    LengthOfConcat("\U{2026}\U{FF08}\U{5DF2}", "\U{622A}\U{65B7}\U{FF09}");
    assert TRUNCATE_MARKER == "\U{2026}\U{FF08}\U{5DF2}" + "\U{622A}\U{65B7}\U{FF09}";
    ThreeChars('\U{2026}', '\U{FF08}', '\U{5DF2}');
    ThreeChars('\U{622A}', '\U{65B7}', '\U{FF09}');
  }

  lemma ThreeChars(a: char, b: char, c: char)
    ensures Utf8Length([a, b, c]) == CharBytes(a) + CharBytes(b) + CharBytes(c)
  {
    assert [a, b, c][1..] == [b, c] && [b, c][1..] == [c] && [c][1..] == [];
    assert Utf8Length([c]) == CharBytes(c) + Utf8Length([]);
    assert Utf8Length([b, c]) == CharBytes(b) + Utf8Length([c]);
  }

  /** What a form hands over; texts that are no strings are `None`. */
  datatype Draft = Draft(
    kind: string,
    proposal: Option<string>,
    rationale: Option<string>,
    blocking: Option<bool>,
    targets: seq<Locator>,
    quote: Option<string>,
    fingerprint: string,
    supersedes: Option<string>)

  /** The id and the time made from the clock and the random octets. */
  datatype Stamp = Stamp(id: string, createdAt: UtcTime)

  /** draftFieldsMessage finds nothing to say. */
  predicate DraftFieldsOk(kind: string, proposal: string, rationale: string) {
    && IsKind(kind) && HasInk(rationale) && (kind != "delete" ==> HasInk(proposal))
    && Utf8Length(rationale) <= MAX_TEXT_BYTES && Utf8Length(proposal) <= MAX_TEXT_BYTES
  }

  function TextOr(text: Option<string>, fallback: string): string {
    if text.Some? then text.value else fallback
  }

  function CreateRequest(draft: Draft, stamp: Stamp): (r: Option<Revision>)
    ensures r.Some? ==> ValidRevision(r.value) && r.value.id == stamp.id && r.value.supersedes == draft.supersedes
  {
    var proposal := NormalizeNewlines(TextOr(draft.proposal, ""));
    if draft.rationale.None? || !DraftFieldsOk(draft.kind, proposal, NormalizeNewlines(draft.rationale.value)) then None
    else
      var request := Revision(stamp.id, draft.fingerprint, draft.targets,
                              TruncateText(NormalizeNewlines(TextOr(draft.quote, ""))), draft.kind,
                              draft.blocking.None? || draft.blocking.value, proposal,
                              NormalizeNewlines(draft.rationale.value), stamp.createdAt, draft.supersedes);
      if ValidRevision(request) then Some(request) else None
  }

  function AddDraft(state: State, draft: Draft, stamp: Stamp): Outcome {
    var request := CreateRequest(draft, stamp);
    if |state| >= MAX_REVISIONS || request.None? || FindRequest(state, stamp.id).Some? then Refused
    else Changed(state + [WithFlags(request.value, false, false)], WithFlags(request.value, false, false))
  }

  // ---------------------------------------------------------------------
  // Edits
  // ---------------------------------------------------------------------

  /** The fields of a form that were changed. */
  datatype Changes = Changes(
    kind: Option<string>,
    proposal: Option<string>,
    rationale: Option<string>,
    blocking: Option<bool>,
    targets: Option<seq<Locator>>,
    quote: Option<string>)

  function Replace(state: State, id: string, next: Entry): (changed: State)
    ensures |changed| == |state|
    ensures forall i :: 0 <= i < |state| ==> changed[i] == if state[i].revision.id == id then next else state[i]
  {
    if state == [] then []
    else
      var last := state[|state| - 1];
      Replace(state[..|state| - 1], id, next) + [if last.revision.id == id then next else last]
  }

  /** A request whose target is not on the page keeps its target and quote. */
  function Edited(current: Entry, changes: Changes): Entry {
    var r := current.revision;
    var next := r.(kind := TextOr(changes.kind, r.kind),
                   proposal := NormalizeNewlines(TextOr(changes.proposal, r.proposal)),
                   rationale := NormalizeNewlines(TextOr(changes.rationale, r.rationale)),
                   blocking := if changes.blocking.Some? then changes.blocking.value else r.blocking);
    WithFlags(
      if current.pending then next
      else next.(targets := if changes.targets.Some? then changes.targets.value else r.targets,
                 quote := TruncateText(NormalizeNewlines(TextOr(changes.quote, r.quote)))),
      false, current.pending)
  }

  function EditDraft(state: State, id: string, changes: Changes): Outcome {
    var current := FindRequest(state, id);
    if current.None? || current.value.exported then Refused
    else
      var next := Edited(current.value, changes);
      if !DraftFieldsOk(next.revision.kind, next.revision.proposal, next.revision.rationale) || !ValidRevision(next.revision)
      then Refused
      else Changed(Replace(state, id, next), next)
  }

  /** The draft of the version that takes the place of an exported request. */
  function Successor(current: Entry, changes: Changes): Draft {
    var r := current.revision;
    Draft(TextOr(changes.kind, r.kind), Some(TextOr(changes.proposal, r.proposal)), Some(TextOr(changes.rationale, r.rationale)),
          Some(if changes.blocking.Some? then changes.blocking.value else r.blocking),
          if !current.pending && changes.targets.Some? then changes.targets.value else r.targets,
          Some(if current.pending then r.quote else TextOr(changes.quote, r.quote)),
          r.fingerprint, Some(r.id))
  }

  function EditExported(state: State, id: string, changes: Changes, stamp: Stamp): Outcome {
    var current := FindRequest(state, id);
    if current.None? || !current.value.exported || !CanEdit(state, id) || |state| >= MAX_REVISIONS then Refused
    else
      var request := CreateRequest(Successor(current.value, changes), stamp);
      if request.None? || FindRequest(state, stamp.id).Some? then Refused
      else
        var entry := WithFlags(request.value, false, current.value.pending);
        Changed(state + [entry], entry)
  }

  /** Superseded requests are refused, exported ones get a new version, drafts are changed. */
  function EditRequest(state: State, id: string, changes: Changes, stamp: Stamp): Outcome {
    if !CanEdit(state, id) then Refused
    else if FindRequest(state, id).value.exported then EditExported(state, id, changes, stamp)
    else EditDraft(state, id, changes)
  }

  function MarkExported(state: State, ids: seq<string>): (changed: State)
    ensures |changed| == |state|
    ensures forall i :: 0 <= i < |state| ==>
      changed[i] == if state[i].exported || state[i].revision.id !in ids then state[i]
                    else WithFlags(state[i].revision, true, state[i].pending)
  {
    if state == [] then []
    else
      var last := state[|state| - 1];
      MarkExported(state[..|state| - 1], ids) +
      [if last.exported || last.revision.id !in ids then last else WithFlags(last.revision, true, last.pending)]
  }

  // ---------------------------------------------------------------------
  // Restoring a sheet
  // ---------------------------------------------------------------------

  datatype Restored =
    | RestoredTo(state: State, added: nat, skipped: nat, pending: nat)
    | RestoreRefused(conflicts: seq<string>)

  predicate TargetsAttach(targets: seq<Locator>, page: seq<Locator>) {
    forall i :: 0 <= i < |targets| ==> targets[i] in page
  }

  /** A revision of the sheet is on the page already. */
  predicate OnPage(state: State, r: Revision) {
    var found := FindRequest(state, r.id);
    found.Some? && SameContent(found.value.revision, r)
  }

  predicate Clashes(state: State, r: Revision) {
    var found := FindRequest(state, r.id);
    found.Some? && !SameContent(found.value.revision, r)
  }

  function Clashing(state: State, sheet: seq<Revision>): (ids: seq<string>) {
    if sheet == [] then []
    else Clashing(state, sheet[..|sheet| - 1]) + if Clashes(state, sheet[|sheet| - 1]) then [sheet[|sheet| - 1].id] else []
  }

  function UnseenOf(state: State, sheet: seq<Revision>): (unseen: seq<Revision>)
    ensures forall r :: r in unseen <==> r in sheet && FindRequest(state, r.id).None?
  {
    if sheet == [] then []
    else
      var last := sheet[|sheet| - 1];
      UnseenOf(state, sheet[..|sheet| - 1]) + if FindRequest(state, last.id).None? then [last] else []
  }

  function SkippedOf(state: State, sheet: seq<Revision>): nat {
    if sheet == [] then 0 else SkippedOf(state, sheet[..|sheet| - 1]) + if OnPage(state, sheet[|sheet| - 1]) then 1 else 0
  }

  /** The ids the sheet and the page have in common, with the same content. */
  predicate InSheet(state: State, sheet: seq<Revision>, id: string) {
    exists i :: 0 <= i < |sheet| && sheet[i].id == id && OnPage(state, sheet[i])
  }

  /** What is in a sheet has been exported, and is no longer marked as stored. */
  function Existing(state: State, sheet: seq<Revision>, k: nat): (existing: State)
    requires k <= |state|
    ensures |existing| == k
    ensures forall i :: 0 <= i < k ==>
      existing[i] == if InSheet(state, sheet, state[i].revision.id) then WithFlags(state[i].revision, true, state[i].pending) else state[i]
  {
    if k == 0 then []
    else
      var e := state[k - 1];
      Existing(state, sheet, k - 1) + [if InSheet(state, sheet, e.revision.id) then WithFlags(e.revision, true, e.pending) else e]
  }

  predicate Attached(r: Revision, fingerprint: string, page: seq<Locator>) {
    r.fingerprint == fingerprint && TargetsAttach(r.targets, page)
  }

  function NewEntries(unseen: seq<Revision>, fingerprint: string, page: seq<Locator>): (entries: State)
    ensures |entries| == |unseen|
    ensures forall i :: 0 <= i < |unseen| ==>
      entries[i] == WithFlags(NormalizedRevision(unseen[i]), true, !Attached(unseen[i], fingerprint, page))
  {
    if unseen == [] then []
    else
      var last := unseen[|unseen| - 1];
      NewEntries(unseen[..|unseen| - 1], fingerprint, page) +
      [WithFlags(NormalizedRevision(last), true, !Attached(last, fingerprint, page))]
  }

  function PendingOf(entries: State): nat {
    if entries == [] then 0 else PendingOf(entries[..|entries| - 1]) + if entries[|entries| - 1].pending then 1 else 0
  }

  lemma {:induction false} PendingBound(entries: State)
    ensures PendingOf(entries) <= |entries|
  {
    if entries != [] {
      PendingBound(entries[..|entries| - 1]);
    }
  }

  function Merged(state: State, sheet: seq<Revision>, fingerprint: string, page: seq<Locator>): State {
    Existing(state, sheet, |state|) + NewEntries(UnseenOf(state, sheet), fingerprint, page)
  }

  ghost function Restore(state: State, sheet: seq<Revision>, fingerprint: string, page: seq<Locator>): Restored {
    var merged := Merged(state, sheet, fingerprint, page);
    if Clashing(state, sheet) != [] then RestoreRefused(Clashing(state, sheet))
    else if |merged| > MAX_REVISIONS then RestoreRefused([])
    else if Problems(merged) != [] then RestoreRefused(Problems(merged))
    else
      var entries := NewEntries(UnseenOf(state, sheet), fingerprint, page);
      PendingBound(entries);
      RestoredTo(merged, |entries| - PendingOf(entries), SkippedOf(state, sheet), PendingOf(entries))
  }
}
