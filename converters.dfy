/**
 * The registries of the import and export engine: which tables share unique
 * constraints on code and title, and which object names can be imported or exported.
 * The getters extend the module's own dictionaries in place and hand back those same
 * dictionaries, so the state here is those three dictionaries.
 */
module Converters {

  /** A model class, by name. */
  type Model = string

  /** The groups of tables whose unique columns are checked across the group. */
  const SHARED_TABLES: seq<seq<Model>> := [["System", "Process"], ["Policy", "Regulation", "Standard", "Contract"]]

  /** Distinct groups have no table in common. */
  predicate GroupsDisjoint(groups: seq<seq<Model>>)
  {
    forall g, h, t :: 0 <= g < h < |groups| && t in groups[g] ==> t !in groups[h]
  }

  lemma SharedTablesDisjoint()
    ensures GroupsDisjoint(SHARED_TABLES)
  {
    forall g, h, t | 0 <= g < h < |SHARED_TABLES| && t in SHARED_TABLES[g]
      ensures t !in SHARED_TABLES[h]
    {
      assert g == 0 && h == 1;
      assert t == "System" || t == "Process";
    }
  }

  /**
   * `get_shared_unique_rules`: every table of a group maps to its whole group, and only
   * those tables have a rule; so each table's rule contains the table itself.
   */
  method GetSharedUniqueRules() returns (rules: map<Model, seq<Model>>)
    ensures forall g, t :: 0 <= g < |SHARED_TABLES| && t in SHARED_TABLES[g] ==> t in rules && rules[t] == SHARED_TABLES[g]
    ensures forall t :: t in rules ==> t in rules[t] && exists g :: 0 <= g < |SHARED_TABLES| && rules[t] == SHARED_TABLES[g]
  {
    SharedTablesDisjoint();
    rules := GroupRules(SHARED_TABLES);
  }

  /** The loops of `get_shared_unique_rules`, over any disjoint groups. */
  method GroupRules(groups: seq<seq<Model>>) returns (rules: map<Model, seq<Model>>)
    requires GroupsDisjoint(groups)
    ensures forall g, t :: 0 <= g < |groups| && t in groups[g] ==> t in rules && rules[t] == groups[g]
    ensures forall t :: t in rules ==> t in rules[t] && exists g :: 0 <= g < |groups| && rules[t] == groups[g]
  {
    rules := map[];
    for g := 0 to |groups|
      invariant forall h, t :: 0 <= h < g && t in groups[h] ==> t in rules && rules[t] == groups[h]
      invariant forall t :: t in rules ==> t in rules[t] && exists h :: 0 <= h < g && rules[t] == groups[h]
    {
      var tables := groups[g];
      for j := 0 to |tables|
        invariant forall h, t :: 0 <= h < g && t in groups[h] ==> t in rules && rules[t] == groups[h]
        invariant forall t :: t in tables[..j] ==> t in rules && rules[t] == tables
        invariant forall t :: t in rules ==> t in rules[t] && exists h :: 0 <= h <= g && rules[t] == groups[h]
      {
        assert forall t :: t in tables[..j + 1] ==> t in tables[..j] || t == tables[j];
        rules := rules[tables[j] := tables];
      }
      assert tables[..|tables|] == tables;
    }
  }

  // ---------------------------------------------------------------------------
  // get_importables / get_importables_visible / get_exportables

  const LCA_COMMENT := "lca comment"

  /**
   * `_get_types`: the dictionaries the extension modules contribute, merged in module
   * order (a module without a contribution contributes the empty map; later wins).
   */
  function MergeContributions(contributions: seq<map<string, Model>>): (r: map<string, Model>)
    ensures forall k :: k in r <==> exists i :: 0 <= i < |contributions| && k in contributions[i]
  {
    if contributions == [] then map[]
    else
      var n := |contributions| - 1;
      var r := MergeContributions(contributions[..n]) + contributions[n];
      assert forall i :: 0 <= i < n ==> contributions[..n][i] == contributions[i];
      r
  }

  /** Later contributions win: a merged key holds the value of the last contribution that defines it. */
  lemma {:induction false} MergeContributionsLastWins(contributions: seq<map<string, Model>>, i: nat, k: string)
    requires i < |contributions| && k in contributions[i]
    requires forall j :: i < j < |contributions| ==> k !in contributions[j]
    ensures k in MergeContributions(contributions)
    ensures MergeContributions(contributions)[k] == contributions[i][k]
  {
    var n := |contributions| - 1;
    var prefix := contributions[..n];
    var last := contributions[n];
    assert MergeContributions(contributions) == MergeContributions(prefix) + last;
    if i < n {
      assert k !in last;
      assert forall j :: i < j < n ==> k !in prefix[j] by {
        forall j | i < j < n
          ensures k !in prefix[j]
        {
          assert prefix[j] == contributions[j];
        }
      }
      MergeContributionsLastWins(prefix, i, k);
    }
  }

  /** The contributed types, computed by the loop of `_get_types`. */
  method GetTypes(contributions: seq<map<string, Model>>) returns (res: map<string, Model>)
    ensures res == MergeContributions(contributions)
  {
    res := map[];
    for i := 0 to |contributions|
      invariant res == MergeContributions(contributions[..i])
    {
      assert contributions[..i + 1][..i] == contributions[..i];
      res := res + contributions[i];
    }
    assert contributions[..|contributions|] == contributions;
  }

  /** The module's three dictionaries, which the getters extend in place. */
  class Registry {
    var ggrcImportable: map<string, Model>
    var ggrcExportable: map<string, Model>
    var ggrcImportableOnly: map<string, Model>

    constructor (importable: map<string, Model>, exportable: map<string, Model>)
      ensures ggrcImportable == importable && ggrcExportable == exportable
      ensures ggrcImportableOnly == map[LCA_COMMENT := "Comment"]
    {
      ggrcImportable := importable;
      ggrcExportable := exportable;
      ggrcImportableOnly := map[LCA_COMMENT := "Comment"];
    }

    /** `_get_importables_exportables`: the importable dictionary, extended with the contributed importables. */
    method GetImportablesExportables(contributedImportables: seq<map<string, Model>>) returns (importable: map<string, Model>)
      modifies this
      ensures importable == ggrcImportable == old(ggrcImportable) + MergeContributions(contributedImportables)
      ensures ggrcExportable == old(ggrcExportable) && ggrcImportableOnly == old(ggrcImportableOnly)
    {
      var contributed := GetTypes(contributedImportables);
      ggrcImportable := ggrcImportable + contributed;
      importable := ggrcImportable;
    }

    /** `get_importables`: the importable-only dictionary, extended with every importable. */
    method GetImportables(contributedImportables: seq<map<string, Model>>) returns (importable: map<string, Model>)
      modifies this
      ensures ggrcImportable == old(ggrcImportable) + MergeContributions(contributedImportables)
      ensures importable == ggrcImportableOnly == old(ggrcImportableOnly) + ggrcImportable
      ensures ggrcExportable == old(ggrcExportable)
    {
      var all := GetImportablesExportables(contributedImportables);
      ggrcImportableOnly := ggrcImportableOnly + all;
      importable := ggrcImportableOnly;
    }

    /** `get_importables_visible`: the importables without the import-only names. */
    method GetImportablesVisible(contributedImportables: seq<map<string, Model>>) returns (importable: map<string, Model>)
      modifies this
      ensures importable == ggrcImportable == old(ggrcImportable) + MergeContributions(contributedImportables)
      ensures ggrcExportable == old(ggrcExportable) && ggrcImportableOnly == old(ggrcImportableOnly)
    {
      importable := GetImportablesExportables(contributedImportables);
    }

    /** `get_exportables`: the exportable dictionary, extended with every importable and every contributed exportable. */
    method GetExportables(contributedImportables: seq<map<string, Model>>, contributedExportables: seq<map<string, Model>>)
      returns (exportable: map<string, Model>)
      modifies this
      ensures ggrcImportable == old(ggrcImportable) + MergeContributions(contributedImportables)
      ensures exportable == ggrcExportable == old(ggrcExportable) + ggrcImportable + MergeContributions(contributedExportables)
      ensures ggrcImportableOnly == old(ggrcImportableOnly)
    {
      exportable := ggrcExportable;
      var all := GetImportablesExportables(contributedImportables);
      exportable := exportable + all;
      var contributed := GetTypes(contributedExportables);
      exportable := exportable + contributed;
      ggrcExportable := exportable;
    }
  }

  /** The importables of `get_importables`, from the dictionaries before the call. */
  function Importables(only: map<string, Model>, importable: map<string, Model>, contributedImportables: seq<map<string, Model>>): map<string, Model>
  {
    only + (importable + MergeContributions(contributedImportables))
  }

  /** The exportables of `get_exportables`, from the dictionaries before the call. */
  function Exportables(
    exportable: map<string, Model>,
    importable: map<string, Model>,
    contributedImportables: seq<map<string, Model>>,
    contributedExportables: seq<map<string, Model>>): map<string, Model>
  {
    exportable + (importable + MergeContributions(contributedImportables)) + MergeContributions(contributedExportables)
  }

  /**
   * `get_importables` offers "lca comment", every name of the importable dictionary and
   * every contributed importable.
   */
  lemma ImportablesCover(only: map<string, Model>, importable: map<string, Model>, contributedImportables: seq<map<string, Model>>)
    requires LCA_COMMENT in only
    ensures var r := Importables(only, importable, contributedImportables);
            LCA_COMMENT in r
            && (forall k :: k in importable ==> k in r)
            && (forall i, k :: 0 <= i < |contributedImportables| && k in contributedImportables[i] ==> k in r)
  {
  }

  /**
   * `get_exportables` offers every name of the exportable and importable dictionaries and
   * every contributed importable and exportable.
   */
  lemma ExportablesCover(
    exportable: map<string, Model>,
    importable: map<string, Model>,
    contributedImportables: seq<map<string, Model>>,
    contributedExportables: seq<map<string, Model>>)
    ensures var r := Exportables(exportable, importable, contributedImportables, contributedExportables);
            (forall k :: k in exportable || k in importable ==> k in r)
            && (forall i, k :: 0 <= i < |contributedImportables| && k in contributedImportables[i] ==> k in r)
            && (forall i, k :: 0 <= i < |contributedExportables| && k in contributedExportables[i] ==> k in r)
  {
  }

  /**
   * Because the dictionaries are extended in place, asking again with the same
   * contributions gives the same answer: the second call finds the first call's
   * additions already there.
   */
  lemma ImportablesRepeatable(only: map<string, Model>, importable: map<string, Model>, contributedImportables: seq<map<string, Model>>)
    ensures var imp1 := importable + MergeContributions(contributedImportables);
            var only1 := Importables(only, importable, contributedImportables);
            Importables(only1, imp1, contributedImportables) == only1
  {
    var c := MergeContributions(contributedImportables);
    var imp1 := importable + c;
    var only1 := only + imp1;
    assert imp1 + c == imp1;
    assert only1 + imp1 == only1;
  }
}
