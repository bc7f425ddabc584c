/**
 The installed snapshot file: printing it, checking it, and reading its identity back
 (snapshotBytes and validInstalledSnapshot in packages/core/src/activation.ts:473-523).
 */
module ActivationSnapshot {
  import opened Foundations
  import opened MutationModel
  import opened TextPatterns
  import opened MarkerSpan
  import Cksum
  import Utf8

  datatype Fields = Fields(version: string, revision: string, adoption: string)

  predicate ValidFields(fields: Fields) {
    && VersionText(fields.version)
    && RevisionText(fields.revision)
    && (fields.adoption == "unknown" || VersionText(fields.adoption))
  }

  function Octets(bytes: Bytes): (octets: seq<Cksum.Octet>)
    ensures |octets| == |bytes|
  {
    seq(|bytes|, i requires 0 <= i < |bytes| => bytes[i] as int % 256)
  }

  function Sum(bytes: Bytes): string {
    Cksum.CksumText(Octets(bytes))
  }

  /** A key with its value and the line end. */
  function Entry(key: string, value: string): Bytes {
    key + value + "\n"
  }

  function SumLines(skill: Bytes, workflow: Bytes, block: Bytes): Bytes {
    Entry("skill=", Sum(skill)) + (Entry("workflow=", Sum(workflow)) + Entry("block=", Sum(block)))
  }

  function FromAdoption(fields: Fields, sums: Bytes): Bytes {
    Entry("adoption=", fields.adoption) + sums
  }

  function FromRevision(fields: Fields, sums: Bytes): Bytes {
    Entry("revision=", fields.revision) + FromAdoption(fields, sums)
  }

  function FromVersion(fields: Fields, sums: Bytes): Bytes {
    Entry("version=", fields.version) + FromRevision(fields, sums)
  }

  function SnapshotBytes(fields: Fields, skill: Bytes, workflow: Bytes, block: Bytes): Bytes {
    Entry("format=", "1") + FromVersion(fields, SumLines(skill, workflow, block))
  }

  // ---------------------------------------------------------------------
  // Reading it back
  // ---------------------------------------------------------------------

  /** The text up to the first line feed, and what follows it. */
  function TakeLine(text: Bytes): Option<(Bytes, Bytes)> {
    var end := LineEnd(text, 0);
    if end < |text| then Some((text[..end], text[end + 1..])) else None
  }

  function TakeEntry(text: Bytes, key: string): Option<(Bytes, Bytes)> {
    match TakeLine(text)
    case None => None
    case Some((line, rest)) =>
      match WithoutPrefix(line, key)
      case None => None
      case Some(value) => Some((value, rest))
  }

  /** Three more lines and nothing after them. */
  predicate ThreeLines(text: Bytes) {
    match TakeLine(text)
    case None => false
    case Some((_, rest)) =>
      match TakeLine(rest)
      case None => false
      case Some((_, last)) => TakeLine(last).Some? && TakeLine(last).value.1 == ""
  }

  function ParseAdoption(text: Bytes, version: string, revision: string): Option<Fields> {
    match TakeEntry(text, "adoption=")
    case None => None
    case Some((adoption, rest)) => if ThreeLines(rest) then Some(Fields(version, revision, adoption)) else None
  }

  function ParseRevision(text: Bytes, version: string): Option<Fields> {
    match TakeEntry(text, "revision=")
    case None => None
    case Some((revision, rest)) => ParseAdoption(rest, version, revision)
  }

  function ParseVersion(text: Bytes): Option<Fields> {
    match TakeEntry(text, "version=")
    case None => None
    case Some((version, rest)) => ParseRevision(rest, version)
  }

  /** Seven complete lines of which the first four name the format and the identity. */
  function ParseFields(text: Bytes): Option<Fields> {
    match TakeEntry(text, "format=")
    case None => None
    case Some((format, rest)) => if format == "1" then ParseVersion(rest) else None
  }

  /** The identity of an installed snapshot that matches the installed files. */
  function InstalledFields(bytes: Bytes, skill: Bytes, workflow: Bytes, block: Bytes): Option<Fields> {
    match Utf8.Decode(bytes)
    case None => None
    case Some(text) =>
      match ParseFields(text)
      case None => None
      case Some(fields) =>
        if ValidFields(fields) && SnapshotBytes(fields, skill, workflow, block) == bytes then Some(fields) else None
  }

  // ---------------------------------------------------------------------
  // Round trip
  // ---------------------------------------------------------------------

  predicate OneLine(text: Bytes) {
    forall c <- text :: c != '\n'
  }

  lemma TakesLine(line: Bytes, rest: Bytes)
    requires OneLine(line)
    ensures TakeLine(line + "\n" + rest) == Some((line, rest))
  {
    var text := line + "\n" + rest;
    forall i | 0 <= i < |line| ensures text[i] != '\n' {
      assert line[i] in line;
    }
    LineEndIs(text, 0, |line|);
    assert text[..|line|] == line && text[|line| + 1..] == rest;
  }

  lemma TakesEntry(key: string, value: string, rest: Bytes)
    requires OneLine(key) && OneLine(value)
    ensures TakeEntry(Entry(key, value) + rest, key) == Some((value, rest))
  {
    assert Entry(key, value) + rest == (key + value) + "\n" + rest;
    TakesLine(key + value, rest);
    assert (key + value)[|key|..] == value;
  }

  lemma FieldIsLine(text: string)
    requires FieldText(text)
    ensures OneLine(text) && Utf8.Ascii(text)
  {
    forall i | 0 <= i < |text| ensures text[i] as int <= 0x7F {
      assert text[i] in text;
    }
  }

  lemma SumIsLine(bytes: Bytes)
    ensures OneLine(Sum(bytes)) && Utf8.Ascii(Sum(bytes))
  {
    var octets := Octets(bytes);
    DecimalIsLine(Cksum.Checksum(octets));
    DecimalIsLine(|octets|);
    assert OneLine(" ");
  }

  lemma DecimalIsLine(n: nat)
    ensures OneLine(Cksum.Decimal(n)) && Utf8.Ascii(Cksum.Decimal(n))
  {
    var text := Cksum.Decimal(n);
    forall c | c in text ensures '0' <= c <= '9' {
      assert c in Cksum.DIGITS;
    }
    forall i | 0 <= i < |text| ensures text[i] as int <= 0x7F {
      assert text[i] in text;
    }
  }

  lemma ThreeLinesPrinted(skill: Bytes, workflow: Bytes, block: Bytes)
    ensures ThreeLines(SumLines(skill, workflow, block))
  {
    SumIsLine(skill);
    SumIsLine(workflow);
    SumIsLine(block);
    var last := Entry("block=", Sum(block));
    var rest := Entry("workflow=", Sum(workflow)) + last;
    assert Entry("skill=", Sum(skill)) + rest == ("skill=" + Sum(skill)) + "\n" + rest;
    TakesLine("skill=" + Sum(skill), rest);
    assert rest == ("workflow=" + Sum(workflow)) + "\n" + last;
    TakesLine("workflow=" + Sum(workflow), last);
    assert last == ("block=" + Sum(block)) + "\n" + "";
    TakesLine("block=" + Sum(block), "");
  }

  lemma AfterAdoption(fields: Fields, rest: Bytes)
    requires OneLine(fields.adoption) && ThreeLines(rest)
    ensures ParseAdoption(Entry("adoption=", fields.adoption) + rest, fields.version, fields.revision) == Some(fields)
  {
    TakesEntry("adoption=", fields.adoption, rest);
  }

  lemma AfterRevision(fields: Fields, rest: Bytes)
    requires OneLine(fields.revision) && ParseAdoption(rest, fields.version, fields.revision) == Some(fields)
    ensures ParseRevision(Entry("revision=", fields.revision) + rest, fields.version) == Some(fields)
  {
    TakesEntry("revision=", fields.revision, rest);
  }

  lemma AfterVersion(fields: Fields, rest: Bytes)
    requires OneLine(fields.version) && ParseRevision(rest, fields.version) == Some(fields)
    ensures ParseVersion(Entry("version=", fields.version) + rest) == Some(fields)
  {
    TakesEntry("version=", fields.version, rest);
  }

  lemma AfterFormat(fields: Fields, rest: Bytes)
    requires ParseVersion(rest) == Some(fields)
    ensures ParseFields(Entry("format=", "1") + rest) == Some(fields)
  {
    TakesEntry("format=", "1", rest);
  }

  lemma IdentityPrinted(fields: Fields, sums: Bytes)
    requires OneLine(fields.version) && OneLine(fields.revision) && OneLine(fields.adoption) && ThreeLines(sums)
    ensures ParseVersion(FromVersion(fields, sums)) == Some(fields)
  {
    AfterAdoption(fields, sums);
    AfterRevision(fields, FromAdoption(fields, sums));
    AfterVersion(fields, FromRevision(fields, sums));
  }

  lemma SnapshotPrinted(fields: Fields, skill: Bytes, workflow: Bytes, block: Bytes)
    requires OneLine(fields.version) && OneLine(fields.revision) && OneLine(fields.adoption)
    ensures ParseFields(SnapshotBytes(fields, skill, workflow, block)) == Some(fields)
  {
    ThreeLinesPrinted(skill, workflow, block);
    IdentityPrinted(fields, SumLines(skill, workflow, block));
    AfterFormat(fields, FromVersion(fields, SumLines(skill, workflow, block)));
  }

  lemma ValidFieldsAreText(fields: Fields)
    requires ValidFields(fields)
    ensures FieldText(fields.version) && FieldText(fields.revision) && FieldText(fields.adoption)
  {
    VersionIsField(fields.version);
    RevisionIsField(fields.revision);
    if fields.adoption != "unknown" {
      VersionIsField(fields.adoption);
    }
  }

  lemma EntryIsAscii(key: string, value: string, rest: Bytes)
    requires Utf8.Ascii(key) && Utf8.Ascii(value) && Utf8.Ascii(rest)
    ensures Utf8.Ascii(Entry(key, value) + rest)
  {
  }

  lemma SumLinesAreAscii(skill: Bytes, workflow: Bytes, block: Bytes)
    ensures Utf8.Ascii(SumLines(skill, workflow, block))
  {
    SumIsLine(skill);
    SumIsLine(workflow);
    SumIsLine(block);
    BlockSumIsAscii(Sum(block));
    WorkflowSumIsAscii(Sum(workflow), Entry("block=", Sum(block)));
    EntryIsAscii("skill=", Sum(skill), Entry("workflow=", Sum(workflow)) + Entry("block=", Sum(block)));
  }

  lemma BlockSumIsAscii(sum: string)
    requires Utf8.Ascii(sum)
    ensures Utf8.Ascii(Entry("block=", sum))
  {
  }

  lemma WorkflowSumIsAscii(sum: string, rest: Bytes)
    requires Utf8.Ascii(sum) && Utf8.Ascii(rest)
    ensures Utf8.Ascii(Entry("workflow=", sum) + rest)
  {
    EntryIsAscii("workflow=", sum, rest);
  }

  lemma FromAdoptionIsAscii(fields: Fields, sums: Bytes)
    requires FieldText(fields.adoption) && Utf8.Ascii(sums)
    ensures Utf8.Ascii(FromAdoption(fields, sums))
  {
    FieldIsLine(fields.adoption);
    EntryIsAscii("adoption=", fields.adoption, sums);
  }

  lemma FromRevisionIsAscii(fields: Fields, sums: Bytes)
    requires FieldText(fields.revision) && Utf8.Ascii(FromAdoption(fields, sums))
    ensures Utf8.Ascii(FromRevision(fields, sums))
  {
    FieldIsLine(fields.revision);
    EntryIsAscii("revision=", fields.revision, FromAdoption(fields, sums));
  }

  lemma FromVersionIsAscii(fields: Fields, sums: Bytes)
    requires FieldText(fields.version) && Utf8.Ascii(FromRevision(fields, sums))
    ensures Utf8.Ascii(FromVersion(fields, sums))
  {
    FieldIsLine(fields.version);
    EntryIsAscii("version=", fields.version, FromRevision(fields, sums));
  }

  lemma SnapshotIsAscii(fields: Fields, skill: Bytes, workflow: Bytes, block: Bytes)
    requires FieldText(fields.version) && FieldText(fields.revision) && FieldText(fields.adoption)
    ensures Utf8.Ascii(SnapshotBytes(fields, skill, workflow, block))
  {
    var sums := SumLines(skill, workflow, block);
    SumLinesAreAscii(skill, workflow, block);
    FromAdoptionIsAscii(fields, sums);
    FromRevisionIsAscii(fields, sums);
    FromVersionIsAscii(fields, sums);
    EntryIsAscii("format=", "1", FromVersion(fields, sums));
  }

  /** The checker accepts exactly what the printer prints for these files, and reads the identity back. */
  lemma SnapshotRoundTrip(bytes: Bytes, fields: Fields, skill: Bytes, workflow: Bytes, block: Bytes)
    ensures InstalledFields(bytes, skill, workflow, block) == Some(fields) <==>
            ValidFields(fields) && bytes == SnapshotBytes(fields, skill, workflow, block)
  {
    if ValidFields(fields) && bytes == SnapshotBytes(fields, skill, workflow, block) {
      ValidFieldsAreText(fields);
      FieldIsLine(fields.version);
      FieldIsLine(fields.revision);
      FieldIsLine(fields.adoption);
      SnapshotPrinted(fields, skill, workflow, block);
      SnapshotIsAscii(fields, skill, workflow, block);
      Utf8.AsciiDecodes(bytes);
    }
  }
}
