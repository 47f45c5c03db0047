/**
 * What the read-side matrix computes, stated against the rows of the join: one
 * entry per distinct key in order of first appearance, header fields equal to the
 * key, one cell per assessment taken from the last row of that key and assessment,
 * and one summary per row.
 */
module BulkMatrixProperties {
  import opened Wrappers
  import opened BulkMatrix

  function KeysOf(rows: seq<QueryRow>): set<CadKey>
  {
    set i | 0 <= i < |rows| :: UniqueCadKey(rows[i].cad)
  }

  /** Index of the first row with key `k`. */
  function FirstIndex(rows: seq<QueryRow>, k: CadKey): (r: nat)
    requires k in KeysOf(rows)
    ensures r < |rows| && UniqueCadKey(rows[r].cad) == k
    ensures forall j :: 0 <= j < r ==> UniqueCadKey(rows[j].cad) != k
  {
    if UniqueCadKey(rows[0].cad) == k then 0
    else
      assert k in KeysOf(rows[1..]) by {
        var i :| 0 <= i < |rows| && UniqueCadKey(rows[i].cad) == k;
        assert rows[1..][i - 1] == rows[i];
      }
      1 + FirstIndex(rows[1..], k)
  }

  predicate HasCell(rows: seq<QueryRow>, k: CadKey, a: int)
  {
    exists i :: 0 <= i < |rows| && UniqueCadKey(rows[i].cad) == k && rows[i].asmtId == a
  }

  /** Index of the last row with key `k` for assessment `a`. */
  function LastCellIndex(rows: seq<QueryRow>, k: CadKey, a: int): (r: nat)
    requires HasCell(rows, k, a)
    ensures r < |rows| && UniqueCadKey(rows[r].cad) == k && rows[r].asmtId == a
    ensures forall j :: r < j < |rows| ==> !(UniqueCadKey(rows[j].cad) == k && rows[j].asmtId == a)
  {
    var n := |rows| - 1;
    if UniqueCadKey(rows[n].cad) == k && rows[n].asmtId == a then n
    else
      assert HasCell(rows[..n], k, a) by {
        var i :| 0 <= i < |rows| && UniqueCadKey(rows[i].cad) == k && rows[i].asmtId == a;
        assert rows[..n][i] == rows[i];
      }
      LastCellIndex(rows[..n], k, a)
  }

  lemma KeysOfSnoc(rows: seq<QueryRow>)
    requires rows != []
    ensures KeysOf(rows) == KeysOf(rows[..|rows| - 1]) + {UniqueCadKey(rows[|rows| - 1].cad)}
  {
    var n := |rows| - 1;
    var p := rows[..n];
    forall k | k in KeysOf(rows)
      ensures k in KeysOf(p) + {UniqueCadKey(rows[n].cad)}
    {
      var i :| 0 <= i < |rows| && UniqueCadKey(rows[i].cad) == k;
      if i < n {
        assert p[i] == rows[i];
      }
    }
    forall k | k in KeysOf(p)
      ensures k in KeysOf(rows)
    {
      var i :| 0 <= i < |p| && UniqueCadKey(p[i].cad) == k;
      assert rows[i] == p[i];
    }
  }

  /** There is one attribute entry for each distinct key among the rows, and no other. */
  lemma {:induction false} PrepareKeys(rows: seq<QueryRow>)
    ensures Prepare(rows).stubs.Keys == KeysOf(rows)
  {
    if rows == [] {
      assert KeysOf(rows) == {};
    } else {
      PrepareKeys(rows[..|rows| - 1]);
      KeysOfSnoc(rows);
    }
  }

  lemma FirstIndexPrefix(rows: seq<QueryRow>, k: CadKey)
    requires rows != [] && k in KeysOf(rows[..|rows| - 1])
    ensures k in KeysOf(rows)
    ensures FirstIndex(rows, k) == FirstIndex(rows[..|rows| - 1], k) < |rows| - 1
  {
    var n := |rows| - 1;
    var p := rows[..n];
    KeysOfSnoc(rows);
    var a := FirstIndex(rows, k);
    var b := FirstIndex(p, k);
    assert rows[b] == p[b];
    assert forall j :: 0 <= j < n ==> p[j] == rows[j];
  }

  /** Every key listed comes from the rows, and keys are listed by their first row. */
  predicate KeyOrdered(rows: seq<QueryRow>, keys: seq<CadKey>)
  {
    (forall i :: 0 <= i < |keys| ==> keys[i] in KeysOf(rows))
    && forall i, j :: 0 <= i < j < |keys| ==> FirstIndex(rows, keys[i]) < FirstIndex(rows, keys[j])
  }

  /** A key absent from the earlier rows first appears in the last row. */
  lemma NewKeyFirstIndex(rows: seq<QueryRow>)
    requires rows != []
    requires UniqueCadKey(rows[|rows| - 1].cad) !in KeysOf(rows[..|rows| - 1])
    ensures UniqueCadKey(rows[|rows| - 1].cad) in KeysOf(rows)
    ensures FirstIndex(rows, UniqueCadKey(rows[|rows| - 1].cad)) == |rows| - 1
  {
    var n := |rows| - 1;
    var p := rows[..n];
    var k := UniqueCadKey(rows[n].cad);
    KeysOfSnoc(rows);
    forall j | 0 <= j < n
      ensures UniqueCadKey(rows[j].cad) != k
    {
      assert rows[j] == p[j];
      assert UniqueCadKey(p[j].cad) in KeysOf(p);
    }
  }

  /** One more row keeps the listed keys ordered by their first row. */
  lemma KeyOrderStep(rows: seq<QueryRow>)
    requires rows != []
    requires KeyOrdered(rows[..|rows| - 1], Prepare(rows[..|rows| - 1]).keys)
    ensures KeyOrdered(rows, Prepare(rows).keys)
  {
    var n := |rows| - 1;
    var p := rows[..n];
    PrepareKeys(p);
    KeysOfSnoc(rows);
    var oldKeys := Prepare(p).keys;
    forall key | key in KeysOf(p)
      ensures FirstIndex(rows, key) == FirstIndex(p, key) < n
    {
      FirstIndexPrefix(rows, key);
    }
    var k := UniqueCadKey(rows[n].cad);
    if k !in Prepare(p).stubs {
      NewKeyFirstIndex(rows);
      assert Prepare(rows).keys == oldKeys + [k];
    }
  }

  /** Entries are in order of the first row of each key (the OrderedDict's insertion order). */
  lemma {:induction false} PrepareKeyOrder(rows: seq<QueryRow>)
    ensures KeyOrdered(rows, Prepare(rows).keys)
  {
    if rows != [] {
      PrepareKeyOrder(rows[..|rows| - 1]);
      KeyOrderStep(rows);
    }
  }

  /** The header fields of an entry are the fields of its key (equal for every row of the key). */
  lemma {:induction false} PrepareHeaders(rows: seq<QueryRow>, k: CadKey)
    requires k in Prepare(rows).stubs
    ensures var s := Prepare(rows).stubs[k];
            s.title == k.title && s.attributeType == k.attributeType
            && s.mandatory == k.mandatory && s.defaultValue == k.defaultValue
  {
    var n := |rows| - 1;
    if k in Prepare(rows[..n]).stubs {
      PrepareHeaders(rows[..n], k);
    }
  }

  /**
   * An entry has a cell for exactly the assessments that have a row with its key, and
   * each cell is built from the last such row; rows with different CAD ids merge.
   */
  lemma {:induction false} PrepareCells(rows: seq<QueryRow>, k: CadKey, a: int)
    requires k in Prepare(rows).stubs
    ensures a in Prepare(rows).stubs[k].values <==> HasCell(rows, k, a)
    ensures HasCell(rows, k, a) ==>
              var r := rows[LastCellIndex(rows, k, a)];
              Prepare(rows).stubs[k].values[a] == CellOf(r.cad, r.cavValue, r.cavPersonId, a)
  {
    var n := |rows| - 1;
    var p := rows[..n];
    HasCellSnoc(rows, k, a);
    if HasCell(p, k, a) {
      HasCellHasKey(p, k, a);
      PrepareCells(p, k, a);
      LastCellSnoc(rows, k, a);
    } else if k in Prepare(p).stubs {
      PrepareCells(p, k, a);
    }
  }

  /** A cell among the rows is one among the earlier rows or the last row itself. */
  lemma HasCellSnoc(rows: seq<QueryRow>, k: CadKey, a: int)
    requires rows != []
    ensures var n := |rows| - 1;
            HasCell(rows, k, a) <==> HasCell(rows[..n], k, a) || (UniqueCadKey(rows[n].cad) == k && rows[n].asmtId == a)
  {
    var n := |rows| - 1;
    var p := rows[..n];
    if HasCell(p, k, a) {
      var i :| 0 <= i < |p| && UniqueCadKey(p[i].cad) == k && p[i].asmtId == a;
      assert rows[i] == p[i];
    }
    if HasCell(rows, k, a) && !(UniqueCadKey(rows[n].cad) == k && rows[n].asmtId == a) {
      var i :| 0 <= i < |rows| && UniqueCadKey(rows[i].cad) == k && rows[i].asmtId == a;
      assert p[i] == rows[i];
    }
  }

  /** A key with a cell among the rows has an entry. */
  lemma HasCellHasKey(rows: seq<QueryRow>, k: CadKey, a: int)
    requires HasCell(rows, k, a)
    ensures k in Prepare(rows).stubs
  {
    PrepareKeys(rows);
    var i :| 0 <= i < |rows| && UniqueCadKey(rows[i].cad) == k && rows[i].asmtId == a;
    assert UniqueCadKey(rows[i].cad) in KeysOf(rows);
  }

  /** When the last row is not a cell of `k` and `a`, the last such cell is among the earlier rows. */
  lemma LastCellSnoc(rows: seq<QueryRow>, k: CadKey, a: int)
    requires rows != [] && HasCell(rows[..|rows| - 1], k, a) && HasCell(rows, k, a)
    ensures var n := |rows| - 1;
            !(UniqueCadKey(rows[n].cad) == k && rows[n].asmtId == a) ==>
              LastCellIndex(rows, k, a) == LastCellIndex(rows[..n], k, a)
              && rows[LastCellIndex(rows, k, a)] == rows[..n][LastCellIndex(rows[..n], k, a)]
  {
  }

  /** One assessment summary per row, in row order. */
  lemma {:induction false} PrepareAssessments(rows: seq<QueryRow>)
    ensures |Prepare(rows).assessments| == |rows|
    ensures forall i :: 0 <= i < |rows| ==> Prepare(rows).assessments[i] == Summary(rows[i])
  {
    if rows != [] {
      var n := |rows| - 1;
      PrepareAssessments(rows[..n]);
      assert forall i :: 0 <= i < n ==> rows[..n][i] == rows[i];
    }
  }

  /** Two assessments whose definitions differ only in CAD id share one entry with a cell each. */
  lemma MergeAcrossCadIds()
    ensures var c1 := Cad(1, "lca", "Text", false, None, None, None, "assessment");
            var c2 := c1.(id := 2);
            var rows := [QueryRow(c1, 10, "a1", "Control", "Not Started", Some("x"), None),
                         QueryRow(c2, 20, "a2", "Control", "Not Started", Some("y"), None)];
            var m := Prepare(rows);
            var k := UniqueCadKey(c1);
            m.keys == [k] && k in m.stubs && m.stubs[k].values.Keys == {10, 20}
            && m.stubs[k].values[10].attributeDefinitionId == 1
            && m.stubs[k].values[20].attributeDefinitionId == 2
  {
    var c1 := Cad(1, "lca", "Text", false, None, None, None, "assessment");
    var c2 := c1.(id := 2);
    var rows := [QueryRow(c1, 10, "a1", "Control", "Not Started", Some("x"), None),
                 QueryRow(c2, 20, "a2", "Control", "Not Started", Some("y"), None)];
    assert rows[..1][..0] == [];
    var m0 := Step(Matrix([], map[], []), rows[0]);
    assert Prepare(rows[..1]) == m0;
    assert Prepare(rows) == Step(m0, rows[1]);
  }

  /** Definitions that differ in the mandatory flag get separate entries. */
  lemma SplitOnMandatory()
    ensures var c1 := Cad(1, "lca", "Text", false, None, None, None, "assessment");
            var c2 := c1.(id := 2, mandatory := true);
            var rows := [QueryRow(c1, 10, "a1", "Control", "Not Started", None, None),
                         QueryRow(c2, 20, "a2", "Control", "Not Started", None, None)];
            |Prepare(rows).keys| == 2
  {
    var c1 := Cad(1, "lca", "Text", false, None, None, None, "assessment");
    var c2 := c1.(id := 2, mandatory := true);
    var rows := [QueryRow(c1, 10, "a1", "Control", "Not Started", None, None),
                 QueryRow(c2, 20, "a2", "Control", "Not Started", None, None)];
    assert rows[..1][..0] == [];
    var m0 := Step(Matrix([], map[], []), rows[0]);
    assert Prepare(rows[..1]) == m0;
    assert Prepare(rows) == Step(m0, rows[1]);
  }
}
