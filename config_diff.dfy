/**
 * The configuration diff behind every Add/Update decision of the managed
 * service (configChanges in service_managed.go).
 */
module ConfigDiff {

  import opened RestService

  /** What the diff reports: the changed keys with their values, and whether some key went missing. */
  datatype Diff = Diff(changes: Config, omittedKey: bool)

  /**
   * Reference definition of the diff. A key is reported when it is new, when
   * its value differs, or when it is missing from the newer config; it carries
   * its newer value, or "" when it went missing. The flag says that some key
   * went missing.
   */
  function Changes(original: Config, updated: Config): Diff
  {
    Diff(map k | k in updated.Keys + original.Keys && !(k in original && k in updated && original[k] == updated[k])
               :: if k in updated then updated[k] else "",
         !(original.Keys <= updated.Keys))
  }

  /**
   * The source's two loops: copy the updated config, then walk the original one,
   * dropping keys whose value is unchanged and inserting "" for keys that are gone.
   */
  method ConfigChanges(original: Config, updated: Config) returns (m: Config, omittedKey: bool)
    ensures Diff(m, omittedKey) == Changes(original, updated)
  {
    m := map[];
    var pending := updated.Keys;
    while pending != {}
      invariant pending <= updated.Keys
      invariant forall k :: k in m <==> k in updated && k !in pending
      invariant forall k :: k in m ==> m[k] == updated[k]
      decreases pending
    {
      var k :| k in pending;
      m := m[k := updated[k]];
      pending := pending - {k};
    }

    omittedKey := false;
    var todo := original.Keys;
    while todo != {}
      invariant todo <= original.Keys
      invariant forall k :: k in m <==>
                  (k in updated && (k !in original || k in todo || original[k] != updated[k]))
                  || (k in original && k !in todo && k !in updated)
      invariant forall k :: k in m ==> m[k] == if k in updated then updated[k] else ""
      invariant omittedKey <==> exists k :: k in original && k !in todo && k !in updated
      decreases todo
    {
      var k :| k in todo;
      if k in m && original[k] == m[k] {
        m := m - {k};
      } else if k !in m {
        omittedKey := true;
        m := m[k := ""];
      }
      todo := todo - {k};
    }
  }

  /** Diffing a config against itself reports nothing: no change and no missing key. */
  lemma SelfDiffIsEmpty(c: Config)
    ensures Changes(c, c) == Diff(map[], false)
  {
    assert Changes(c, c).changes.Keys == {};
  }

  /** The diff is empty and reports no missing key exactly when the two configs are equal. */
  lemma EmptyDiffIffEqual(original: Config, updated: Config)
    ensures Changes(original, updated) == Diff(map[], false) <==> original == updated
  {
    if original == updated {
      SelfDiffIsEmpty(updated);
    } else if Changes(original, updated) == Diff(map[], false) {
      assert original.Keys == updated.Keys by {
        forall k | k in updated ensures k in original {
          assert k !in Changes(original, updated).changes;
        }
      }
      forall k | k in original ensures original[k] == updated[k] {
        assert k !in Changes(original, updated).changes;
      }
      assert false;
    }
  }

  /** A key missing from the newer config raises the flag and is reported with the value "". */
  lemma MissingKeyReported(original: Config, updated: Config, k: string)
    requires k in original && k !in updated
    ensures Changes(original, updated).omittedKey
    ensures k in Changes(original, updated).changes && Changes(original, updated).changes[k] == ""
  {
  }

  /** Without missing keys the reported changes are exactly the keys of the newer config whose value is new or different. */
  lemma ChangesWithoutMissingKeys(original: Config, updated: Config)
    requires !Changes(original, updated).omittedKey
    ensures forall k :: k in Changes(original, updated).changes <==>
                          k in updated && (k !in original || original[k] != updated[k])
    ensures forall k :: k in Changes(original, updated).changes ==> Changes(original, updated).changes[k] == updated[k]
  {
  }
}
