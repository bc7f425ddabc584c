/**
 Which bytes the goal plan validators read at all: small enough, UTF-8, and one JSON value that is
 not too deep and repeats no member name (packages/core/src/goal-plan-artifacts.ts:369-556).
 */
module GoalPlanSafety {
  import opened JsonText
  import opened JsonScan
  import opened JsonGrammar
  import opened GoalPlanModel
  import opened GoalPlanBinding

  ghost predicate SafeDocument(w: World, bytes: Bytes, maxBytes: nat, maxDepth: nat) {
    |bytes| <= maxBytes && w.decode(bytes).Some? && IsSafeJson(w.decode(bytes).value, maxDepth)
  }

  lemma ParsedIffSafe(w: World, bytes: Bytes, maxBytes: nat, maxDepth: nat)
    ensures ParseJson(w, bytes, maxBytes, maxDepth).Some? <==> SafeDocument(w, bytes, maxBytes, maxDepth)
  {
    hide Scan, IsSafeJson;
    if w.decode(bytes).Some? {
      ScanMeaning(w.decode(bytes).value, maxDepth);
    }
  }

  /** The three documents behind an accepted Review are safe JSON within their limits. */
  lemma ReviewedDocumentsAreSafe(w: World, reviewBytes: Bytes, manifestBytes: Bytes, sources: Sources,
                                 review: Review, manifest: Manifest, declaration: Declaration)
    requires ReviewBinds(w, reviewBytes, manifestBytes, sources, review, manifest, declaration)
    ensures SafeDocument(w, reviewBytes, MAX_ARTIFACT_BYTES, MAX_JSON_DEPTH)
    ensures SafeDocument(w, manifestBytes, MAX_ARTIFACT_BYTES, MAX_JSON_DEPTH)
    ensures SafeDocument(w, sources[manifest.declaration.path], MAX_DECLARATION_BYTES, MAX_DECLARATION_JSON_DEPTH)
  {
    hide ParseJson, SafeDocument, ReviewShape, ManifestShape, DeclarationShape, SameGraph, EachBound, ReadinessBound, SupportedSchema;
    ParsedIffSafe(w, reviewBytes, MAX_ARTIFACT_BYTES, MAX_JSON_DEPTH);
    ParsedIffSafe(w, manifestBytes, MAX_ARTIFACT_BYTES, MAX_JSON_DEPTH);
    ParsedIffSafe(w, sources[manifest.declaration.path], MAX_DECLARATION_BYTES, MAX_DECLARATION_JSON_DEPTH);
  }
}
