/** Annotating a multiome container from a cell annotation table
    (workflow/scripts/custom/annotate_custom_multiome.py): modality rename,
    merge of the whitelisted annotation columns, the `celltype` alias, the
    `batch` default and the `counts` layers. */
module AnnotateMultiome {

  import opened Common
  import opened Multiome

  /** The annotation CSV read with its first column as index: the column
      names in order, the barcodes of the index in file order (a barcode may
      repeat), and the value at a barcode and a column (`None` for an empty
      CSV cell, read as `NaN`). */
  datatype Annotation = Annotation(columns: seq<Name>, barcodes: seq<Name>, value: (Name, Name) -> Option<string>)

  /** `['donor', 'batch', 'Majority_Celltype']` */
  const CopiedColumns: set<Name> := {"donor", "batch", "Majority_Celltype"}

  /** Some barcode of the annotation index that is also a cell name appears
      in the index more than once: `annot.loc[common_barcodes, col]` then
      holds that barcode twice, and aligning it on the selected cells is
      pandas' reindex on a duplicated axis, a `ValueError`. */
  predicate RepeatsSharedBarcode(cells: seq<Name>, annot: Annotation)
  {
    exists i, j :: 0 <= i < j < |annot.barcodes| && annot.barcodes[i] == annot.barcodes[j] && annot.barcodes[i] in cells
  }

  /** The same condition by counting: a cell name occurs more than once in
      the annotation index. */
  lemma {:induction false} RepeatsSharedBarcodeCount(cells: seq<Name>, annot: Annotation)
    ensures RepeatsSharedBarcode(cells, annot) <==>
            exists b :: b in cells && multiset(annot.barcodes)[b] > 1
  {
    RepeatCount(cells, annot.barcodes);
  }

  lemma {:induction false} RepeatCount(cells: seq<Name>, s: seq<Name>)
    ensures (exists i, j :: 0 <= i < j < |s| && s[i] == s[j] && s[i] in cells) <==>
            exists b :: b in cells && multiset(s)[b] > 1
  {
    if s != [] {
      var t := s[1..];
      RepeatCount(cells, t);
      assert s == [s[0]] + t;
      assert forall b :: multiset(s)[b] == (if b == s[0] then 1 else 0) + multiset(t)[b];
      if exists i, j :: 0 <= i < j < |s| && s[i] == s[j] && s[i] in cells {
        var i, j :| 0 <= i < j < |s| && s[i] == s[j] && s[i] in cells;
        if i == 0 {
          assert s[j] == t[j - 1] && s[0] in multiset(t);
          assert multiset(s)[s[0]] > 1;
        } else {
          assert t[i - 1] == t[j - 1] && t[i - 1] in cells;
        }
      }
      if exists b :: b in cells && multiset(s)[b] > 1 {
        var b :| b in cells && multiset(s)[b] > 1;
        if b == s[0] && multiset(t)[b] == 1 {
          var k :| 0 <= k < |t| && t[k] == b;
          assert s[0] == s[k + 1];
        } else {
          var i, j :| 0 <= i < j < |t| && t[i] == t[j] && t[i] in cells;
          assert s[i + 1] == s[j + 1];
        }
      }
    }
  }

  /** The loop over the annotation columns reaches the `loc` assignment. */
  predicate CopiesAColumn(annot: Annotation)
  {
    exists c :: c in annot.columns && c in CopiedColumns
  }

  /** The column `col` after `mdata.obs[col] = pd.Series('Unknown', ...)` and
      the `loc` assignment at the barcodes both tables share. */
  function MergedColumn(cells: seq<Name>, annot: Annotation, col: Name): Column
  {
    seq(|cells|, i requires 0 <= i < |cells| =>
      if cells[i] in annot.barcodes then annot.value(cells[i], col) else Some("Unknown"))
  }

  /** The cell-table columns after the loop over the annotation columns `cols`. */
  function Annotated(columns: map<Name, Column>, cells: seq<Name>, annot: Annotation, cols: seq<Name>): map<Name, Column>
  {
    if cols == [] then columns
    else
      var prev := Annotated(columns, cells, annot, cols[..|cols| - 1]);
      var col := cols[|cols| - 1];
      if col !in CopiedColumns then prev
      else
        var merged := prev[col := MergedColumn(cells, annot, col)];
        if col == "Majority_Celltype" then merged["celltype" := merged[col]] else merged
  }

  /** What the merge loop leaves: a whitelisted annotation column holds, per
      cell, the annotation's value when the barcode is annotated and
      `'Unknown'` otherwise; `celltype` equals `Majority_Celltype` when that
      was copied; every other column is as before. */
  lemma {:induction false} AnnotatedSpec(columns: map<Name, Column>, cells: seq<Name>, annot: Annotation, cols: seq<Name>)
    ensures var r := Annotated(columns, cells, annot, cols);
            && (forall c :: c in CopiedColumns && c in cols ==>
                  c in r && |r[c]| == |cells| &&
                  forall i :: 0 <= i < |cells| ==>
                    r[c][i] == (if cells[i] in annot.barcodes then annot.value(cells[i], c) else Some("Unknown")))
            && ("Majority_Celltype" in cols ==> "celltype" in r && r["celltype"] == r["Majority_Celltype"])
            && (forall c :: c != "celltype" && !(c in CopiedColumns && c in cols) ==>
                  (c in r <==> c in columns) && (c in columns ==> r[c] == columns[c]))
            && ("Majority_Celltype" !in cols ==>
                  ("celltype" in r <==> "celltype" in columns) && ("celltype" in columns ==> r["celltype"] == columns["celltype"]))
  {
    if cols != [] {
      var init := cols[..|cols| - 1];
      var col := cols[|cols| - 1];
      AnnotatedSpec(columns, cells, annot, init);
      assert forall c :: c in cols <==> c in init || c == col;
      var prev := Annotated(columns, cells, annot, init);
      if col in CopiedColumns && col != "Majority_Celltype" && "Majority_Celltype" in init {
        assert "celltype" in prev && prev["celltype"] == prev["Majority_Celltype"];
      }
    }
  }

  /** The merge keeps every column one value per cell. */
  lemma {:induction false} AnnotatedWellFormed(columns: map<Name, Column>, cells: seq<Name>, annot: Annotation, cols: seq<Name>)
    requires TableWellFormed(Table(cells, columns))
    ensures TableWellFormed(Table(cells, Annotated(columns, cells, annot, cols)))
  {
    if cols != [] {
      AnnotatedWellFormed(columns, cells, annot, cols[..|cols| - 1]);
    }
  }

  /** The loop over `annot.columns`. */
  method AddAnnotations(m: MuData, annot: Annotation)
    modifies m
    ensures m.obs == Table(old(m.obs.index), Annotated(old(m.obs.columns), old(m.obs.index), annot, annot.columns))
    ensures m.mod == old(m.mod)
  {
    for i := 0 to |annot.columns|
      invariant m.obs == Table(old(m.obs.index), Annotated(old(m.obs.columns), old(m.obs.index), annot, annot.columns[..i]))
      invariant m.mod == old(m.mod)
    {
      assert annot.columns[..i + 1][..i] == annot.columns[..i];
      var col := annot.columns[i];
      if col in CopiedColumns {
        var cells := m.obs.index;
        var column: Column := seq(|cells|, _ => Some("Unknown"));
        column := seq(|cells|, j requires 0 <= j < |cells| =>
                        if cells[j] in annot.barcodes then annot.value(cells[j], col) else column[j]);
        assert column == MergedColumn(cells, annot, col);
        m.obs := m.obs.(columns := m.obs.columns[col := column]);
        if col == "Majority_Celltype" {
          m.obs := m.obs.(columns := m.obs.columns["celltype" := m.obs.columns[col]]);
        }
      }
    }
    assert annot.columns[..|annot.columns|] == annot.columns;
  }

  /** The script after reading its two inputs; `ok` is false for the
      `KeyError` of a missing `rna` or `atac` modality after the rename, and
      for the `ValueError` of a repeated shared barcode, raised at the first
      whitelisted column. A failed run writes nothing; the model leaves the
      cell table as it was. */
  method Annotate(m: MuData, annot: Annotation) returns (ok: bool)
    modifies m
    ensures ok <==> && "rna" in Renamed(old(m.mod)) && "atac" in Renamed(old(m.mod))
                    && !(CopiesAColumn(annot) && RepeatsSharedBarcode(old(m.obs.index), annot))
    ensures !ok ==> m.mod == Renamed(old(m.mod)) && m.obs == old(m.obs)
    ensures ok ==>
              m.obs == WithDefault(Table(old(m.obs.index), Annotated(old(m.obs.columns), old(m.obs.index), annot, annot.columns)),
                                   "batch", "Batch1")
    ensures ok ==>
              m.mod == Renamed(old(m.mod))["rna" := EnsureCounts(Renamed(old(m.mod))["rna"])]
                                          ["atac" := EnsureCounts(Renamed(old(m.mod))["atac"])]
  {
    m.StandardizeModalityNames();
    if "rna" !in m.mod || "atac" !in m.mod {
      return false;
    }
    if CopiesAColumn(annot) && RepeatsSharedBarcode(m.obs.index, annot) {
      return false;
    }
    AddAnnotations(m, annot);
    m.AddDefaultColumn("batch", "Batch1");
    m.EnsureCountsLayers();
    ok := true;
  }

  /** After a successful run the cell table has a `batch` column, and it is
      `'Batch1'` throughout exactly when neither the input nor the copied
      annotation columns supplied one. */
  lemma AnnotatedBatch(t: Table, annot: Annotation)
    ensures var cols := Annotated(t.columns, t.index, annot, annot.columns);
            var r := WithDefault(Table(t.index, cols), "batch", "Batch1");
            "batch" in r.columns &&
            (("batch" in t.columns || "batch" in annot.columns) <==> "batch" in cols) &&
            ("batch" !in cols ==> forall i :: 0 <= i < |t.index| ==> r.columns["batch"][i] == Some("Batch1")) &&
            ("batch" in cols ==> r.columns["batch"] == cols["batch"])
  {
    AnnotatedSpec(t.columns, t.index, annot, annot.columns);
  }
}
