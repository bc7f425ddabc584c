/** The small text formats the plans check with regular expressions. */
module TextPatterns {
  import opened Foundations

  function WithoutPrefix(text: string, prefix: string): Option<string> {
    if prefix <= text then Some(text[|prefix|..]) else None
  }

  function WithoutSuffix(text: string, suffix: string): string {
    if |suffix| <= |text| && text[|text| - |suffix|..] == suffix then text[..|text| - |suffix|] else text
  }

  predicate HexDigits(text: string) {
    forall c <- text :: '0' <= c <= '9' || 'a' <= c <= 'f'
  }

  /** 40 or 64 hexadecimal digits. */
  predicate Hash(text: string) {
    HexDigits(text) && (|text| == 40 || |text| == 64)
  }

  /** `unknown` or a commit hash, either of them possibly with `-dirty`. */
  predicate RevisionText(text: string) {
    var base := WithoutSuffix(text, "-dirty");
    base == "unknown" || Hash(base)
  }

  predicate Digits(text: string) {
    forall c <- text :: '0' <= c <= '9'
  }

  /** Without leading zeros. */
  predicate NumberText(text: string) {
    text == "0" || (text != "" && Digits(text) && text[0] != '0')
  }

  function FirstDot(text: string, from: nat): (at: nat)
    requires from <= |text|
    ensures from <= at <= |text|
    ensures at < |text| ==> text[at] == '.'
    decreases |text| - from
  {
    if from == |text| || text[from] == '.' then from else FirstDot(text, from + 1)
  }

  /** Three numbers with dots between them. */
  predicate VersionText(text: string) {
    var i := FirstDot(text, 0);
    i < |text| &&
    var j := FirstDot(text, i + 1);
    j < |text| && NumberText(text[..i]) && NumberText(text[i + 1..j]) && NumberText(text[j + 1..])
  }

  predicate FieldChar(c: char) {
    '0' <= c <= '9' || 'a' <= c <= 'z' || c == '.' || c == '-'
  }

  /** Lower-case letters, digits, dots and hyphens: no line end, no angle bracket. */
  predicate FieldText(text: string) {
    forall c <- text :: FieldChar(c)
  }

  lemma NumberIsField(text: string)
    requires NumberText(text)
    ensures FieldText(text)
  {
  }

  lemma FieldsConcat(a: string, b: string)
    requires FieldText(a) && FieldText(b)
    ensures FieldText(a + b)
  {
  }

  lemma VersionIsField(text: string)
    requires VersionText(text)
    ensures FieldText(text)
  {
    var i := FirstDot(text, 0);
    var j := FirstDot(text, i + 1);
    NumberIsField(text[..i]);
    NumberIsField(text[i + 1..j]);
    NumberIsField(text[j + 1..]);
    assert text == text[..i] + "." + (text[i + 1..j] + "." + text[j + 1..]);
    FieldsConcat(text[i + 1..j], ".");
    FieldsConcat(text[i + 1..j] + ".", text[j + 1..]);
    FieldsConcat(text[..i], ".");
    FieldsConcat(text[..i] + ".", text[i + 1..j] + "." + text[j + 1..]);
  }

  lemma RevisionIsField(text: string)
    requires RevisionText(text)
    ensures FieldText(text)
  {
    var base := WithoutSuffix(text, "-dirty");
    if text != base {
      assert text == base + "-dirty";
      FieldsConcat(base, "-dirty");
    }
  }
}
