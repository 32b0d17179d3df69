/**
 The label filter used by both listing calls: a selector matches a label map
 when every selector key is present in the labels with the same value. Keys
 of the labels that the selector does not mention are ignored.
 */
module Labels {
  import opened Cri

  /** The selector is a sub-map of the labels. */
  predicate Matches(selector: Labels, labels: Labels)
  {
    forall k :: k in selector ==> k in labels && labels[k] == selector[k]
  }

  /**
   filterInLabels: walk the selector's keys in whatever order the map yields
   them and give up at the first key that is missing or carries another value.
   */
  method FilterInLabels(filter: Labels, labels: Labels) returns (ok: bool)
    ensures ok <==> Matches(filter, labels)
  {
    var pending := filter.Keys;
    while pending != {}
      invariant pending <= filter.Keys
      invariant forall k :: k in filter && k !in pending ==> k in labels && labels[k] == filter[k]
      decreases pending
    {
      var k :| k in pending;
      if k in labels {
        if labels[k] != filter[k] {
          return false;
        }
      } else {
        return false;
      }
      pending := pending - {k};
    }
    return true;
  }

  /** An empty (or absent) selector selects everything. */
  lemma EmptySelectorMatchesAll(labels: Labels)
    ensures Matches(map[], labels)
  {
  }

  /** Every label map matches itself as a selector. */
  lemma MatchesReflexive(labels: Labels)
    ensures Matches(labels, labels)
  {
  }

  /**
   Adding labels never breaks a match: if `labels` is itself a sub-map of
   `more`, whatever selects `labels` selects `more`.
   */
  lemma MatchesTransitive(selector: Labels, labels: Labels, more: Labels)
    requires Matches(selector, labels) && Matches(labels, more)
    ensures Matches(selector, more)
  {
  }

  /** A selector that names a key with another value, or a key that is absent, rejects. */
  lemma MismatchRejects(selector: Labels, labels: Labels, k: string)
    requires k in selector && (k !in labels || labels[k] != selector[k])
    ensures !Matches(selector, labels)
  {
  }

  /** The selector {"env": "prod"} against three label maps. */
  lemma ProdSelectorExamples()
    ensures Matches(map["env" := "prod"], map["env" := "prod", "team" := "x"])
    ensures !Matches(map["env" := "prod"], map["env" := "dev"])
    ensures !Matches(map["env" := "prod"], map[])
  {
    MismatchRejects(map["env" := "prod"], map["env" := "dev"], "env");
    MismatchRejects(map["env" := "prod"], map[], "env");
  }
}
