/**
 Two reviewed sources whose paths differ only in unpaired surrogates have the same octets, and a
 Manifest with both is rejected (packages/core/src/goal-plan-artifacts.ts:811-823, 1878-1893).
 */
module GoalPlanTwins {
  import opened Foundations
  import opened TextOrder
  import opened GoalPlanModel
  import opened GoalPlanExport
  import opened GoalPlanComplete

  const ONE: Text := [0xD800]
  const OTHER: Text := [0xD801]

  lemma SameOctets()
    ensures ONE != OTHER && Encode(ONE) == Encode(OTHER) && |Encode(ONE)| == 3
  {
    assert ONE[1..] == [] && OTHER[1..] == [];
    assert ONE[0] != OTHER[0];
  }

  /** Each of the two is a proper binding; together they are no good list of sources. */
  lemma TwinsAreNotSorted(w: World, digest: Text, otherDigest: Text)
    requires w.repoPathPattern(ONE) && w.repoPathPattern(OTHER) && IsSha256(digest) && IsSha256(otherDigest)
    ensures ProperBinding(w, Binding(ONE, digest)) && ProperBinding(w, Binding(OTHER, otherDigest)) && ONE != OTHER
    ensures !GoodSources(w, [Binding(ONE, digest), Binding(OTHER, otherDigest)])
  {
    SameOctets();
    var bindings := [Binding(ONE, digest), Binding(OTHER, otherDigest)];
    assert PathKey(bindings[0]) == PathKey(bindings[1]);
  }

  /** No Manifest is exported for an input that lists both, whatever else it holds. */
  lemma TwinsAreRejected(w: World, input: ManifestInput, i: nat, j: nat)
    requires Sound(w) && Consistent(AllSources(input))
    requires forall k :: 0 <= k < |input.nodes| ==> input.nodes[k].readiness.Some?
    requires i < |input.reviewedSources| && input.reviewedSources[i].path == ONE
    requires j < |input.reviewedSources| && input.reviewedSources[j].path == OTHER
    ensures !ManifestExport(w, input).Accepted?
  {
    hide Sound, Consistent, ManifestExport, AllSources, GoodNodes, SameDeclaration, ExportedManifest;
    ManifestExportMeaning(w, input);
    SameOctets();
    var bindings := BindingsFor(w, input.reviewedSources);
    assert PathKey(bindings[i]) == PathKey(bindings[j]);
  }
}
