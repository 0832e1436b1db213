/** Selecting the cells and features of one case from a multiome container
    (workflow/scripts/custom/extract_case.py): modality rename, cell-type
    filter, low-count feature filter, `counts` layer, `batch` defaulting,
    highly-variable feature selection, low-count cell filter, and the
    intersection of the two modalities' cells.

    scanpy's `highly_variable_genes` is an oracle: its rank per feature
    (`None` for `NaN`) and the feature-table columns it adds. Normalisation
    is left out (see README). */
module ExtractCase {

  import opened Common
  import opened Text
  import opened Sorting
  import opened Multiome

  // ---------------------------------------------------------------------
  // Selecting features and cells

  function Columns(m: Matrix, mask: seq<bool>): Matrix
  {
    seq(|m|, i requires 0 <= i < |m| => FilterByMask(m[i], mask))
  }

  lemma ColumnsShape(m: Matrix, rows: nat, mask: seq<bool>)
    requires MatrixShape(m, rows, |mask|)
    ensures MatrixShape(Columns(m, mask), rows, CountTrue(mask))
  {
    forall i | 0 <= i < rows ensures |Columns(m, mask)[i]| == CountTrue(mask) {
      FilterByMaskLength(m[i], mask);
    }
  }

  /** `a[:, mask]` */
  function SelectFeatures(a: Modality, mask: seq<bool>): (r: Modality)
    ensures r.obs == a.obs && r.varColumns == a.varColumns && r.layers.Keys == a.layers.Keys
    ensures forall v :: v in r.varNames ==> v in a.varNames
  {
    var names := FilterByMask(a.varNames, mask);
    assert forall v :: v in names ==> v in a.varNames by {
      forall v | v in names ensures v in a.varNames {
        FilterByMaskMembers(a.varNames, mask, v);
      }
    }
    a.(varNames := names, x := Columns(a.x, mask),
       layers := map l | l in a.layers :: Columns(a.layers[l], mask))
  }

  lemma SelectFeaturesWellFormed(a: Modality, mask: seq<bool>)
    requires WellFormed(a) && |mask| == |a.varNames|
    ensures WellFormed(SelectFeatures(a, mask))
  {
    var r := SelectFeatures(a, mask);
    FilterByMaskLength(a.varNames, mask);
    ColumnsShape(a.x, |a.obs.index|, mask);
    forall l | l in a.layers ensures MatrixShape(r.layers[l], |a.obs.index|, CountTrue(mask)) {
      ColumnsShape(a.layers[l], |a.obs.index|, mask);
    }
  }

  /** `a[mask, :]` */
  function SelectCells(a: Modality, mask: seq<bool>): (r: Modality)
    ensures r.varNames == a.varNames && r.varColumns == a.varColumns
    ensures r.obs.columns.Keys == a.obs.columns.Keys && r.layers.Keys == a.layers.Keys
    ensures forall c :: c in r.obs.index <==>
              exists i :: 0 <= i < |a.obs.index| && i < |mask| && mask[i] && a.obs.index[i] == c
  {
    var index := FilterByMask(a.obs.index, mask);
    assert forall c :: c in index <==>
             exists i :: 0 <= i < |a.obs.index| && i < |mask| && mask[i] && a.obs.index[i] == c by {
      forall c { FilterByMaskMembers(a.obs.index, mask, c); }
    }
    a.(obs := Table(index, map c | c in a.obs.columns :: FilterByMask(a.obs.columns[c], mask)),
       x := FilterByMask(a.x, mask),
       layers := map l | l in a.layers :: FilterByMask(a.layers[l], mask))
  }

  lemma RowsOfSelection(m: Matrix, cols: nat, mask: seq<bool>)
    requires MatrixShape(m, |mask|, cols)
    ensures MatrixShape(FilterByMask(m, mask), CountTrue(mask), cols)
  {
    FilterByMaskLength(m, mask);
    var r := FilterByMask(m, mask);
    forall k | 0 <= k < |r| ensures |r[k]| == cols {
      FilterByMaskMembers(m, mask, r[k]);
    }
  }

  lemma SelectCellsWellFormed(a: Modality, mask: seq<bool>)
    requires WellFormed(a) && |mask| == |a.obs.index|
    ensures WellFormed(SelectCells(a, mask))
  {
    var r := SelectCells(a, mask);
    FilterByMaskLength(a.obs.index, mask);
    forall c | c in a.obs.columns ensures |r.obs.columns[c]| == CountTrue(mask) {
      FilterByMaskLength(a.obs.columns[c], mask);
    }
    RowsOfSelection(a.x, |a.varNames|, mask);
    forall l | l in a.layers ensures MatrixShape(r.layers[l], CountTrue(mask), |a.varNames|) {
      RowsOfSelection(a.layers[l], |a.varNames|, mask);
    }
  }

  // ---------------------------------------------------------------------
  // Nonzero counts

  /** `(row != 0).sum()` */
  function NonzeroCount(row: seq<real>): nat
  {
    if row == [] then 0
    else NonzeroCount(row[..|row| - 1]) + (if row[|row| - 1] != 0.0 then 1 else 0)
  }

  /** `(m[:, j] != 0).sum()` */
  function ColumnNonzero(m: Matrix, j: nat): nat
  {
    if m == [] then 0
    else ColumnNonzero(m[..|m| - 1], j) + (if j < |m[|m| - 1]| && m[|m| - 1][j] != 0.0 then 1 else 0)
  }

  /** The row count is the number of positions holding a nonzero value. */
  lemma {:induction false} NonzeroCountIsCardinality(row: seq<real>)
    ensures NonzeroCount(row) == |set i | 0 <= i < |row| && row[i] != 0.0|
  {
    if row != [] {
      var init := row[..|row| - 1];
      NonzeroCountIsCardinality(init);
      var before := set i | 0 <= i < |init| && init[i] != 0.0;
      var after := set i | 0 <= i < |row| && row[i] != 0.0;
      if row[|row| - 1] != 0.0 {
        assert after == before + {|row| - 1};
      } else {
        assert after == before;
      }
    }
  }

  /** The column count is the number of cells holding a nonzero value there. */
  lemma {:induction false} ColumnNonzeroIsCardinality(m: Matrix, j: nat)
    ensures ColumnNonzero(m, j) == |set i | 0 <= i < |m| && j < |m[i]| && m[i][j] != 0.0|
  {
    if m != [] {
      var init := m[..|m| - 1];
      ColumnNonzeroIsCardinality(init, j);
      var before := set i | 0 <= i < |init| && j < |init[i]| && init[i][j] != 0.0;
      var after := set i | 0 <= i < |m| && j < |m[i]| && m[i][j] != 0.0;
      var last := m[|m| - 1];
      if j < |last| && last[j] != 0.0 {
        assert after == before + {|m| - 1};
      } else {
        assert after == before;
      }
    }
  }

  /** `np.sum(a.X != 0, axis=0) > 3` */
  function ExpressedFeatures(a: Modality): seq<bool>
  {
    seq(|a.varNames|, j requires 0 <= j < |a.varNames| => ColumnNonzero(a.x, j) > 3)
  }

  /** `(a.X != 0).sum(1) > 3` */
  function ActiveCells(a: Modality): seq<bool>
  {
    seq(|a.obs.index|, i requires 0 <= i < |a.obs.index| => i < |a.x| && NonzeroCount(a.x[i]) > 3)
  }

  /** The kept features are exactly those nonzero in more than three cells. */
  lemma ExpressedFeaturesSpec(a: Modality)
    ensures forall v :: v in SelectFeatures(a, ExpressedFeatures(a)).varNames <==>
              exists j :: 0 <= j < |a.varNames| && a.varNames[j] == v && ColumnNonzero(a.x, j) > 3
  {
    forall v {
      FilterByMaskMembers(a.varNames, ExpressedFeatures(a), v);
    }
  }

  /** The kept cells are exactly those nonzero in more than three features,
      and every kept row has more than three nonzero values. */
  lemma ActiveCellsSpec(a: Modality)
    requires WellFormed(a)
    ensures var r := SelectCells(a, ActiveCells(a));
            && (forall k :: 0 <= k < |r.x| ==> NonzeroCount(r.x[k]) > 3)
            && (forall c :: c in r.obs.index <==>
                  exists i :: 0 <= i < |a.obs.index| && a.obs.index[i] == c && NonzeroCount(a.x[i]) > 3)
  {
    var mask := ActiveCells(a);
    var r := SelectCells(a, mask);
    forall k | 0 <= k < |r.x| ensures NonzeroCount(r.x[k]) > 3 {
      FilterByMaskMembers(a.x, mask, r.x[k]);
    }
  }

  // ---------------------------------------------------------------------
  // Cell-type filter

  /** Cell `i` of the cell table has one of the wanted types. */
  predicate HasWantedType(obs: Table, wanted: seq<string>, i: int)
  {
    && "celltype" in obs.columns && 0 <= i < |obs.columns["celltype"]|
    && obs.columns["celltype"][i].Some? && obs.columns["celltype"][i].value in wanted
  }

  /** The names of the cells `np.isin(mdata.obs['celltype'], celltypes)` keeps. */
  function WantedCells(obs: Table, wanted: seq<string>): set<Name>
  {
    set i | 0 <= i < |obs.index| && HasWantedType(obs, wanted, i) :: obs.index[i]
  }

  /** A modality of `mdata[mask]`: its cells whose names the mask keeps. */
  function KeepNamed(a: Modality, names: set<Name>): (r: Modality)
    ensures forall c :: c in r.obs.index <==> c in a.obs.index && c in names
  {
    var mask := seq(|a.obs.index|, i requires 0 <= i < |a.obs.index| => a.obs.index[i] in names);
    SelectCells(a, mask)
  }

  /** `args.celltypes.split(';')` then the selection; `None` for the
      `KeyError` of a missing `celltype` column. */
  function CelltypeStage(obs: Table, rna: Modality, atac: Modality, celltypes: string): (r: Option<(Modality, Modality)>)
    ensures r.None? <==> celltypes != "all" && "celltype" !in obs.columns
  {
    if celltypes == "all" then Some((rna, atac))
    else if "celltype" !in obs.columns then None
    else
      var keep := WantedCells(obs, Split(celltypes, ';'));
      Some((KeepNamed(rna, keep), KeepNamed(atac, keep)))
  }

  /** Unless all types are wanted, a cell stays exactly when it is in the
      modality and the cell table gives it one of the `;`-separated types. */
  lemma CelltypeStageSpec(obs: Table, rna: Modality, atac: Modality, celltypes: string)
    requires celltypes != "all" && "celltype" in obs.columns
    ensures var r := CelltypeStage(obs, rna, atac, celltypes).value;
            var wanted := Split(celltypes, ';');
            forall c :: (c in r.0.obs.index <==> c in rna.obs.index && c in WantedCells(obs, wanted)) &&
                        (c in r.1.obs.index <==> c in atac.obs.index && c in WantedCells(obs, wanted))
  {
  }

  lemma CelltypeStageWellFormed(obs: Table, rna: Modality, atac: Modality, celltypes: string)
    requires WellFormed(rna) && WellFormed(atac)
    ensures var r := CelltypeStage(obs, rna, atac, celltypes);
            r.Some? ==> WellFormed(r.value.0) && WellFormed(r.value.1)
  {
    if celltypes != "all" && "celltype" in obs.columns {
      var keep := WantedCells(obs, Split(celltypes, ';'));
      SelectCellsWellFormed(rna, seq(|rna.obs.index|, i requires 0 <= i < |rna.obs.index| => rna.obs.index[i] in keep));
      SelectCellsWellFormed(atac, seq(|atac.obs.index|, i requires 0 <= i < |atac.obs.index| => atac.obs.index[i] in keep));
    }
  }

  // ---------------------------------------------------------------------
  // Highly variable features

  /** The oracle for `sc.pp.highly_variable_genes`: the rank it gives each
      feature (`None` for `NaN`) and the feature-table columns it adds. */
  datatype Hvg = Hvg(rank: Name -> Option<real>, added: set<Name>)

  const StatsColumns: set<Name> := {"highly_variable", "means", "dispersions", "dispersions_norm"}

  function RankKey(rank: Name -> Option<real>): Name -> real
  {
    v => if rank(v).Some? then -rank(v).value else 0.0
  }

  /** The features with a rank, in table order. */
  function RankedFeatures(names: seq<Name>, rank: Name -> Option<real>): seq<Name>
  {
    Filter(names, v => rank(v).Some?)
  }

  /** The features without a rank (`NaN`), in table order. */
  function UnrankedFeatures(names: seq<Name>, rank: Name -> Option<real>): seq<Name>
  {
    Filter(names, v => rank(v).None?)
  }

  /** `sort_values('highly_variable_rank')`: ranked features by ascending
      rank, then the unranked ones (`NaN` sorts last). */
  function HvgOrder(names: seq<Name>, rank: Name -> Option<real>): seq<Name>
  {
    SortDesc(RankedFeatures(names, rank), RankKey(rank)) + UnrankedFeatures(names, rank)
  }

  /** `.head(n).index` */
  function TopRanked(names: seq<Name>, rank: Name -> Option<real>, n: int): seq<Name>
  {
    Prefix(HvgOrder(names, rank), n)
  }

  lemma HvgOrderParts(names: seq<Name>, rank: Name -> Option<real>)
    ensures var ranked := SortDesc(RankedFeatures(names, rank), RankKey(rank));
            var unranked := UnrankedFeatures(names, rank);
            && |HvgOrder(names, rank)| == |names|
            && (forall v :: v in ranked ==> v in names && rank(v).Some?)
            && (forall v :: v in unranked ==> v in names && rank(v).None?)
            && SortedDesc(ranked, RankKey(rank))
  {
    var p := (v: Name) => rank(v).Some?;
    var q := (v: Name) => rank(v).None?;
    var filtered := Filter(names, p);
    FilterPartitionLength(names, p, q);
    forall v | v in SortDesc(filtered, RankKey(rank)) ensures v in names && rank(v).Some? {
      assert v in multiset(SortDesc(filtered, RankKey(rank)));
      assert v in multiset(filtered);
    }
  }

  /** Ranked and unranked features together are the table's features. */
  lemma HvgOrderPermutes(names: seq<Name>, rank: Name -> Option<real>)
    ensures multiset(HvgOrder(names, rank)) == multiset(names)
  {
    FilterPartitionMultiset(names, v => rank(v).Some?, v => rank(v).None?);
    var ranked := RankedFeatures(names, rank);
    assert multiset(SortDesc(ranked, RankKey(rank))) == multiset(ranked);
  }

  /** `head(n)` returns `min(n, len)` features (all but the last `-n` for a
      negative `n`), each a feature of the table. */
  lemma TopRankedSize(names: seq<Name>, rank: Name -> Option<real>, n: int)
    ensures var h := TopRanked(names, rank, n);
            && (n >= 0 ==> |h| == Min(n, |names|))
            && (n < 0 ==> |h| == Max(0, |names| + n))
            && forall v :: v in h ==> v in names
  {
    HvgOrderParts(names, rank);
    var h := TopRanked(names, rank, n);
    forall v | v in h ensures v in names {
      var i :| 0 <= i < |h| && h[i] == v;
      assert HvgOrder(names, rank)[i] == v;
    }
  }

  /** The selected features come by ascending rank, ranked before unranked. */
  lemma TopRankedOrder(names: seq<Name>, rank: Name -> Option<real>, n: int)
    ensures var h := TopRanked(names, rank, n);
            forall i, j :: 0 <= i < j < |h| && rank(h[j]).Some? ==>
              rank(h[i]).Some? && rank(h[i]).value <= rank(h[j]).value
  {
    HvgOrderParts(names, rank);
    var ranked := SortDesc(RankedFeatures(names, rank), RankKey(rank));
    var unranked := UnrankedFeatures(names, rank);
    var order := HvgOrder(names, rank);
    var h := TopRanked(names, rank, n);
    assert forall q :: |ranked| <= q < |order| ==> order[q] == unranked[q - |ranked|];
    assert forall q :: |ranked| <= q < |order| ==> rank(order[q]).None?;
    forall i, j | 0 <= i < j < |h| && rank(h[j]).Some?
      ensures rank(h[i]).Some? && rank(h[i]).value <= rank(h[j]).value
    {
      assert h[j] == order[j] && h[i] == order[i];
      assert j < |ranked|;
      assert order[i] == ranked[i] && order[j] == ranked[j];
      assert ranked[i] in ranked && ranked[j] in ranked;
    }
  }

  /** A ranked feature left out ranks no better than any selected one, and
      then every selected feature is ranked. */
  lemma TopRankedIsTop(names: seq<Name>, rank: Name -> Option<real>, n: int, x: Name)
    requires x in names && rank(x).Some? && x !in TopRanked(names, rank, n)
    ensures forall y :: y in TopRanked(names, rank, n) ==> rank(y).Some? && rank(y).value <= rank(x).value
  {
    HvgOrderParts(names, rank);
    var filtered := RankedFeatures(names, rank);
    var ranked := SortDesc(filtered, RankKey(rank));
    var h := TopRanked(names, rank, n);
    assert x in filtered;
    assert x in multiset(filtered);
    assert x in multiset(ranked);
    HeadBeforeMissing(ranked, UnrankedFeatures(names, rank), n, x);
    SortedPrefixIsTop(filtered, RankKey(rank), |h|, x);
    forall y | y in h ensures rank(y).Some? && rank(y).value <= rank(x).value {
      assert y in ranked;
    }
  }

  /** A head of `front + back` that misses an item of `front` lies within `front`. */
  lemma HeadBeforeMissing(front: seq<Name>, back: seq<Name>, n: int, x: Name)
    requires x in front && x !in Prefix(front + back, n)
    ensures var h := Prefix(front + back, n);
            |h| < |front| && h == front[..|h|]
  {
    var h := Prefix(front + back, n);
    var p :| 0 <= p < |front| && front[p] == x;
    assert forall q :: 0 <= q < |h| && q < |front| ==> h[q] == front[q];
    assert |h| <= p;
  }

  /** `filter_hvg`: the top `n` features, and the feature table without the
      four statistics columns (removed when present). */
  method FilterHvg(a: Modality, hvg: Hvg, n: int) returns (top: seq<Name>, r: Modality)
    ensures top == TopRanked(a.varNames, hvg.rank, n)
    ensures r == a.(varColumns := a.varColumns + hvg.added - StatsColumns)
  {
    top := Prefix(HvgOrder(a.varNames, hvg.rank), n);
    var base := a.varColumns + hvg.added;
    var cols := base;
    if "highly_variable" in cols {
      cols := cols - {"highly_variable"};
    }
    assert cols == base - {"highly_variable"};
    if "means" in cols {
      cols := cols - {"means"};
    }
    assert cols == base - {"highly_variable", "means"};
    if "dispersions" in cols {
      cols := cols - {"dispersions"};
    }
    assert cols == base - {"highly_variable", "means", "dispersions"};
    if "dispersions_norm" in cols {
      cols := cols - {"dispersions_norm"};
    }
    assert cols == base - StatsColumns;
    r := a.(varColumns := cols);
  }

  /** `a[:, np.isin(a.var_names, names)]` */
  function KeepFeatures(a: Modality, names: seq<Name>): (r: Modality)
    ensures forall v :: v in r.varNames <==> v in a.varNames && v in names
  {
    var mask := seq(|a.varNames|, j requires 0 <= j < |a.varNames| => a.varNames[j] in names);
    assert forall v :: v in FilterByMask(a.varNames, mask) <==> v in a.varNames && v in names by {
      forall v { FilterByMaskMembers(a.varNames, mask, v); }
    }
    SelectFeatures(a, mask)
  }

  // ---------------------------------------------------------------------
  // Batch labels

  function Constant(n: nat, value: string): Column
  {
    seq(n, _ => Some(value))
  }

  function SetColumn(a: Modality, col: Name, values: Column): Modality
  {
    a.(obs := a.obs.(columns := a.obs.columns[col := values]))
  }

  /** `atac.obs['batch'] = rna.obs['batch']` on different cell indexes:
      pandas reindexes the RNA column on the ATAC cell names, and a cell RNA
      lacks gets `NaN`. With unique RNA names the match is the only one. */
  function AlignedColumn(src: Table, col: Name, cells: seq<Name>): Column
    requires col in src.columns && TableWellFormed(src)
  {
    seq(|cells|, i requires 0 <= i < |cells| =>
      if cells[i] in src.index then src.columns[col][IndexOf(src.index, cells[i])] else None)
  }

  /** The copy of RNA's `batch` raises `ValueError` ("cannot reindex on an
      axis with duplicate labels"): the indexes differ, so pandas reindexes,
      and the RNA index repeats a cell name. */
  predicate BatchCopyFails(rnaObs: Table, atacObs: Table)
  {
    && "batch" in rnaObs.columns && "batch" !in atacObs.columns
    && rnaObs.index != atacObs.index && !Distinct(rnaObs.index)
  }

  /** The `batch` defaulting; `None` for the `ValueError` of `BatchCopyFails`.
      On equal indexes pandas takes the values in place. */
  function WithBatch(rna: Modality, atac: Modality): Option<(Modality, Modality)>
    requires TableWellFormed(rna.obs)
  {
    if "batch" !in rna.obs.columns then
      Some((SetColumn(rna, "batch", Constant(|rna.obs.index|, "batch1")),
            SetColumn(atac, "batch", Constant(|atac.obs.index|, "batch1"))))
    else if "batch" !in atac.obs.columns then
      if rna.obs.index == atac.obs.index then
        Some((rna, SetColumn(atac, "batch", rna.obs.columns["batch"])))
      else if !Distinct(rna.obs.index) then None
      else Some((rna, SetColumn(atac, "batch", AlignedColumn(rna.obs, "batch", atac.obs.index))))
    else Some((rna, atac))
  }

  /** The defaulting fails exactly on `BatchCopyFails`; otherwise both
      modalities end with a `batch` column. Without one in RNA both get
      `'batch1'` everywhere (replacing ATAC's own). With one in RNA, RNA is
      untouched, and ATAC keeps its own or takes RNA's: position by position
      on equal indexes, else RNA's label of the cell of the same name (`NaN`
      for a cell RNA lacks). */
  lemma WithBatchSpec(rna: Modality, atac: Modality)
    requires TableWellFormed(rna.obs) && TableWellFormed(atac.obs)
    ensures WithBatch(rna, atac).None? <==> BatchCopyFails(rna.obs, atac.obs)
    ensures WithBatch(rna, atac).Some? ==>
            var (r, t) := WithBatch(rna, atac).value;
            && "batch" in r.obs.columns && "batch" in t.obs.columns
            && r.(obs := rna.obs) == rna && t.(obs := atac.obs) == atac
            && r.obs.index == rna.obs.index && t.obs.index == atac.obs.index
            && TableWellFormed(r.obs) && TableWellFormed(t.obs)
            && r.obs.columns.Keys == rna.obs.columns.Keys + {"batch"}
            && t.obs.columns.Keys == atac.obs.columns.Keys + {"batch"}
            && ("batch" !in rna.obs.columns ==>
                  (forall i :: 0 <= i < |rna.obs.index| ==> r.obs.columns["batch"][i] == Some("batch1")) &&
                  (forall i :: 0 <= i < |atac.obs.index| ==> t.obs.columns["batch"][i] == Some("batch1")))
            && ("batch" in rna.obs.columns ==> r == rna)
            && ("batch" in rna.obs.columns && "batch" in atac.obs.columns ==> t == atac)
            && ("batch" in rna.obs.columns && "batch" !in atac.obs.columns && rna.obs.index == atac.obs.index ==>
                  t.obs.columns["batch"] == rna.obs.columns["batch"])
            && ("batch" in rna.obs.columns && "batch" !in atac.obs.columns && Distinct(rna.obs.index) ==>
                  forall i, j :: 0 <= i < |atac.obs.index| && 0 <= j < |rna.obs.index| &&
                                  atac.obs.index[i] == rna.obs.index[j] ==>
                     t.obs.columns["batch"][i] == rna.obs.columns["batch"][j])
            && ("batch" in rna.obs.columns && "batch" !in atac.obs.columns ==>
                  forall i :: 0 <= i < |atac.obs.index| && atac.obs.index[i] !in rna.obs.index ==>
                    t.obs.columns["batch"][i] == None)
  {
    if WithBatch(rna, atac).Some? && "batch" in rna.obs.columns && "batch" !in atac.obs.columns &&
       rna.obs.index != atac.obs.index {
      var t := WithBatch(rna, atac).value.1;
      forall i, j | 0 <= i < |atac.obs.index| && 0 <= j < |rna.obs.index| && atac.obs.index[i] == rna.obs.index[j]
        ensures t.obs.columns["batch"][i] == rna.obs.columns["batch"][j]
      {
        assert IndexOf(rna.obs.index, atac.obs.index[i]) == j;
      }
    }
  }

  // ---------------------------------------------------------------------
  // Intersecting the cells

  /** `atac.obs_names.intersection(rna.obs_names)`, in ATAC's order. */
  function SharedCells(atac: Modality, rna: Modality): seq<Name>
  {
    Filter(atac.obs.index, c => c in rna.obs.index)
  }

  /** The shared cells are exactly the cells in both, in ATAC's order, and
      each once when ATAC's names are unique. */
  lemma SharedCellsSpec(atac: Modality, rna: Modality)
    ensures forall c :: c in SharedCells(atac, rna) <==> c in atac.obs.index && c in rna.obs.index
    ensures IsSubsequence(SharedCells(atac, rna), atac.obs.index)
    ensures Distinct(atac.obs.index) ==> Distinct(SharedCells(atac, rna))
  {
    FilterIsSubsequence(atac.obs.index, c => c in rna.obs.index);
    if Distinct(atac.obs.index) {
      FilterDistinct(atac.obs.index, c => c in rna.obs.index);
    }
  }

  /** `a[names]`: the cells named by `names`, in that order. */
  function Reindexed(a: Modality, names: seq<Name>): (r: Modality)
    requires WellFormed(a)
    requires forall i :: 0 <= i < |names| ==> names[i] in a.obs.index
    ensures r.obs.index == names && r.varNames == a.varNames && r.varColumns == a.varColumns
    ensures r.obs.columns.Keys == a.obs.columns.Keys && r.layers.Keys == a.layers.Keys
    ensures WellFormed(r)
    ensures forall i :: 0 <= i < |names| ==>
              exists j :: 0 <= j < |a.obs.index| && a.obs.index[j] == names[i] && r.x[i] == a.x[j]
  {
    var pos := seq(|names|, i requires 0 <= i < |names| => IndexOf(a.obs.index, names[i]));
    var r := a.(obs := Table(names, map c | c in a.obs.columns ::
                                     seq(|names|, i requires 0 <= i < |names| => a.obs.columns[c][pos[i]])),
                x := seq(|names|, i requires 0 <= i < |names| => a.x[pos[i]]),
                layers := map l | l in a.layers :: seq(|names|, i requires 0 <= i < |names| => a.layers[l][pos[i]]));
    assert forall i :: 0 <= i < |names| ==> a.obs.index[pos[i]] == names[i] && r.x[i] == a.x[pos[i]];
    r
  }

  // ---------------------------------------------------------------------
  // The whole selection

  /** The selected case: the common cells, and both modalities on them. */
  datatype Case = Case(cells: seq<Name>, rna: Modality, atac: Modality)

  /** Cell tables and matrices have consistent shapes. */
  predicate ValidInput(obs: Table, mod: map<Name, Modality>)
  {
    TableWellFormed(obs) && forall k :: k in mod ==> WellFormed(mod[k])
  }

  /** Feature filter then `counts` layer. */
  function FeatureStage(a: Modality): Modality
  {
    EnsureCounts(SelectFeatures(a, ExpressedFeatures(a)))
  }

  /** `filter_hvg` then `a[:, np.isin(a.var_names, hvg)]`. */
  function HvgStage(a: Modality, hvg: Hvg, n: int): Modality
  {
    KeepFeatures(a.(varColumns := a.varColumns + hvg.added - StatsColumns), TopRanked(a.varNames, hvg.rank, n))
  }

  function CellStage(a: Modality): Modality
  {
    SelectCells(a, ActiveCells(a))
  }

  lemma StagesWellFormed(a: Modality, hvg: Hvg, n: int)
    requires WellFormed(a)
    ensures WellFormed(FeatureStage(a))
    ensures WellFormed(HvgStage(a, hvg, n))
    ensures WellFormed(CellStage(a))
  {
    SelectFeaturesWellFormed(a, ExpressedFeatures(a));
    var cleaned := a.(varColumns := a.varColumns + hvg.added - StatsColumns);
    var top := TopRanked(a.varNames, hvg.rank, n);
    SelectFeaturesWellFormed(cleaned, seq(|cleaned.varNames|, j requires 0 <= j < |cleaned.varNames| => cleaned.varNames[j] in top));
    SelectCellsWellFormed(a, ActiveCells(a));
  }

  /** The batch copy fails on the cell-type selection of the input (the
      feature filter leaves the cell tables as they are). */
  predicate BatchStageFails(obs: Table, mod: map<Name, Modality>, celltypes: string)
  {
    && "rna" in mod && "atac" in mod
    && var sel := CelltypeStage(obs, mod["rna"], mod["atac"], celltypes);
       sel.Some? && BatchCopyFails(sel.value.0.obs, sel.value.1.obs)
  }

  /** The two modalities after the cell filter, before the intersection. */
  function FilteredPair(obs: Table, mod: map<Name, Modality>, celltypes: string,
                        nHvg: int, nHvr: int, hvgRna: Hvg, hvgAtac: Hvg): (r: Option<(Modality, Modality)>)
    requires ValidInput(obs, mod)
    ensures r.Some? ==> WellFormed(r.value.0) && WellFormed(r.value.1)
  {
    if "rna" !in mod || "atac" !in mod then None
    else
      var sel := CelltypeStage(obs, mod["rna"], mod["atac"], celltypes);
      CelltypeStageWellFormed(obs, mod["rna"], mod["atac"], celltypes);
      if sel.None? then None
      else
        var (rna0, atac0) := sel.value;
        StagesWellFormed(rna0, hvgRna, nHvg);
        StagesWellFormed(atac0, hvgAtac, nHvr);
        var batched := WithBatch(FeatureStage(rna0), FeatureStage(atac0));
        WithBatchSpec(FeatureStage(rna0), FeatureStage(atac0));
        if batched.None? then None
        else
          var (rna1, atac1) := batched.value;
          StagesWellFormed(rna1, hvgRna, nHvg);
          StagesWellFormed(atac1, hvgAtac, nHvr);
          var rna2 := HvgStage(rna1, hvgRna, nHvg);
          var atac2 := HvgStage(atac1, hvgAtac, nHvr);
          StagesWellFormed(rna2, hvgRna, nHvg);
          StagesWellFormed(atac2, hvgAtac, nHvr);
          Some((CellStage(rna2), CellStage(atac2)))
  }

  /** `atac.obs_names.intersection(rna.obs_names)` and both modalities on it. */
  function Intersect(rna: Modality, atac: Modality): (c: Option<Case>)
    requires WellFormed(rna) && WellFormed(atac)
    ensures c.None? <==> !Distinct(rna.obs.index) || !Distinct(atac.obs.index)
    ensures c.Some? ==>
              && c.value.cells == SharedCells(atac, rna) && Distinct(c.value.cells)
              && c.value.rna.obs.index == c.value.cells && c.value.atac.obs.index == c.value.cells
              && WellFormed(c.value.rna) && WellFormed(c.value.atac)
  {
    if !Distinct(rna.obs.index) || !Distinct(atac.obs.index) then None
    else
      var cells := SharedCells(atac, rna);
      SharedCellsSpec(atac, rna);
      Some(Case(cells, Reindexed(rna, cells), Reindexed(atac, cells)))
  }

  /** After the cell filter a modality still repeats a cell name, so
      `rna[obs_inter]` or `atac[obs_inter]` raises: anndata looks the names up
      with pandas' `get_indexer`, which needs a unique index. */
  predicate RepeatedCellNames(obs: Table, mod: map<Name, Modality>, celltypes: string,
                              nHvg: int, nHvr: int, hvgRna: Hvg, hvgAtac: Hvg)
    requires ValidInput(obs, mod)
  {
    var pair := FilteredPair(obs, mod, celltypes, nHvg, nHvr, hvgRna, hvgAtac);
    pair.Some? && (!Distinct(pair.value.0.obs.index) || !Distinct(pair.value.1.obs.index))
  }

  /** The case the script selects, or `None` for its `KeyError`s and the
      `ValueError`s of repeated cell names. */
  function SelectCase(obs: Table, mod: map<Name, Modality>, celltypes: string,
                      nHvg: int, nHvr: int, hvgRna: Hvg, hvgAtac: Hvg): Option<Case>
    requires ValidInput(obs, mod)
  {
    var pair := FilteredPair(obs, mod, celltypes, nHvg, nHvr, hvgRna, hvgAtac);
    if pair.None? then None else Intersect(pair.value.0, pair.value.1)
  }

  /** The HVG selection and cell filter keep the cell-table columns and the
      layers, keep only top-ranked features, drop the statistics columns, and
      leave only cells with more than three nonzero values. */
  lemma TailStagesSpec(b: Modality, hvg: Hvg, n: int)
    requires WellFormed(b)
    ensures var c := CellStage(HvgStage(b, hvg, n));
            && WellFormed(c)
            && c.obs.columns.Keys == b.obs.columns.Keys && c.layers.Keys == b.layers.Keys
            && c.varColumns == b.varColumns + hvg.added - StatsColumns
            && (forall v :: v in c.varNames ==> v in b.varNames && v in TopRanked(b.varNames, hvg.rank, n))
            && (forall row :: row in c.x ==> NonzeroCount(row) > 3)
            && (forall x :: x in c.obs.index ==> x in b.obs.index)
  {
    var h := HvgStage(b, hvg, n);
    StagesWellFormed(b, hvg, n);
    StagesWellFormed(h, hvg, n);
    ActiveCellsSpec(h);
  }

  /** What the two modalities look like before the intersection: a `batch`
      column and a `counts` layer, no statistics columns, only cells of the
      original modality (of a wanted type when filtering by type) with more
      than three nonzero values, and only features of the original modality. */
  lemma FilteredPairSpec(obs: Table, mod: map<Name, Modality>, celltypes: string,
                         nHvg: int, nHvr: int, hvgRna: Hvg, hvgAtac: Hvg)
    requires ValidInput(obs, mod)
    ensures var r := FilteredPair(obs, mod, celltypes, nHvg, nHvr, hvgRna, hvgAtac);
            && (r.None? <==> ("rna" !in mod || "atac" !in mod || (celltypes != "all" && "celltype" !in obs.columns) ||
                             BatchStageFails(obs, mod, celltypes)))
            && (r.Some? ==>
                  var (rna, atac) := r.value;
                  && "batch" in rna.obs.columns && "batch" in atac.obs.columns
                  && "counts" in rna.layers && "counts" in atac.layers
                  && rna.varColumns !! StatsColumns && atac.varColumns !! StatsColumns
                  && (forall row :: row in rna.x ==> NonzeroCount(row) > 3)
                  && (forall row :: row in atac.x ==> NonzeroCount(row) > 3)
                  && (forall c :: c in rna.obs.index ==> c in mod["rna"].obs.index)
                  && (forall c :: c in atac.obs.index ==> c in mod["atac"].obs.index)
                  && (celltypes != "all" ==>
                        forall c :: c in rna.obs.index || c in atac.obs.index ==>
                          c in WantedCells(obs, Split(celltypes, ';')))
                  && (forall v :: v in rna.varNames ==> v in mod["rna"].varNames)
                  && (forall v :: v in atac.varNames ==> v in mod["atac"].varNames))
  {
    if "rna" in mod && "atac" in mod {
      var sel := CelltypeStage(obs, mod["rna"], mod["atac"], celltypes);
      CelltypeStageWellFormed(obs, mod["rna"], mod["atac"], celltypes);
      if sel.Some? {
        if celltypes != "all" {
          CelltypeStageSpec(obs, mod["rna"], mod["atac"], celltypes);
        }
        var (rna0, atac0) := sel.value;
        StagesWellFormed(rna0, hvgRna, nHvg);
        StagesWellFormed(atac0, hvgAtac, nHvr);
        WithBatchSpec(FeatureStage(rna0), FeatureStage(atac0));
        var batched := WithBatch(FeatureStage(rna0), FeatureStage(atac0));
        if batched.Some? {
          var (rna1, atac1) := batched.value;
          TailStagesSpec(rna1, hvgRna, nHvg);
          TailStagesSpec(atac1, hvgAtac, nHvr);
        }
      }
    }
  }

  /** The selected case: it fails exactly on the `KeyError`s, and otherwise
      both modalities are on the shared cells, in the same order, each cell
      in both original modalities (and of a wanted type when filtering by
      type), with more than three nonzero values per cell, a `batch` column,
      a `counts` layer and no statistics columns. */
  lemma SelectCaseSpec(obs: Table, mod: map<Name, Modality>, celltypes: string,
                       nHvg: int, nHvr: int, hvgRna: Hvg, hvgAtac: Hvg)
    requires ValidInput(obs, mod)
    ensures var r := SelectCase(obs, mod, celltypes, nHvg, nHvr, hvgRna, hvgAtac);
            && (r.None? <==> ("rna" !in mod || "atac" !in mod || (celltypes != "all" && "celltype" !in obs.columns) ||
                             BatchStageFails(obs, mod, celltypes) ||
                             RepeatedCellNames(obs, mod, celltypes, nHvg, nHvr, hvgRna, hvgAtac)))
            && (r.Some? ==>
                  var c := r.value;
                  && c.rna.obs.index == c.cells && c.atac.obs.index == c.cells && Distinct(c.cells)
                  && WellFormed(c.rna) && WellFormed(c.atac)
                  && (forall x :: x in c.cells ==> x in mod["rna"].obs.index && x in mod["atac"].obs.index)
                  && (celltypes != "all" ==> forall x :: x in c.cells ==> x in WantedCells(obs, Split(celltypes, ';')))
                  && (forall k :: 0 <= k < |c.cells| ==> NonzeroCount(c.rna.x[k]) > 3 && NonzeroCount(c.atac.x[k]) > 3)
                  && "batch" in c.rna.obs.columns && "batch" in c.atac.obs.columns
                  && "counts" in c.rna.layers && "counts" in c.atac.layers
                  && c.rna.varColumns !! StatsColumns && c.atac.varColumns !! StatsColumns
                  && (forall v :: v in c.rna.varNames ==> v in mod["rna"].varNames)
                  && (forall v :: v in c.atac.varNames ==> v in mod["atac"].varNames))
  {
    FilteredPairSpec(obs, mod, celltypes, nHvg, nHvr, hvgRna, hvgAtac);
    var pair := FilteredPair(obs, mod, celltypes, nHvg, nHvr, hvgRna, hvgAtac);
    if pair.Some? {
      IntersectSpec(pair.value.0, pair.value.1);
    }
  }

  /** Intersecting keeps each modality's columns, layers and features, keeps
      only cells of both, and gives each cell the row of the cell of that name
      in its modality. */
  lemma IntersectSpec(rna: Modality, atac: Modality)
    requires WellFormed(rna) && WellFormed(atac)
    ensures Intersect(rna, atac).Some? ==>
            var c := Intersect(rna, atac).value;
            && (forall x :: x in c.cells <==> x in rna.obs.index && x in atac.obs.index)
            && (forall k :: 0 <= k < |c.cells| ==> c.rna.x[k] in rna.x && c.atac.x[k] in atac.x)
            && (forall k, j :: 0 <= k < |c.cells| && 0 <= j < |rna.obs.index| && rna.obs.index[j] == c.cells[k] ==>
                  c.rna.x[k] == rna.x[j])
            && (forall k, j :: 0 <= k < |c.cells| && 0 <= j < |atac.obs.index| && atac.obs.index[j] == c.cells[k] ==>
                  c.atac.x[k] == atac.x[j])
            && c.rna.obs.columns.Keys == rna.obs.columns.Keys && c.atac.obs.columns.Keys == atac.obs.columns.Keys
            && c.rna.layers.Keys == rna.layers.Keys && c.atac.layers.Keys == atac.layers.Keys
            && c.rna.varNames == rna.varNames && c.atac.varNames == atac.varNames
            && c.rna.varColumns == rna.varColumns && c.atac.varColumns == atac.varColumns
  {
    SharedCellsSpec(atac, rna);
    if Intersect(rna, atac).Some? {
      var c := Intersect(rna, atac).value;
      forall k | 0 <= k < |c.cells| ensures c.rna.x[k] in rna.x && c.atac.x[k] in atac.x {
        var j :| 0 <= j < |rna.obs.index| && rna.obs.index[j] == c.cells[k] && c.rna.x[k] == rna.x[j];
        var j' :| 0 <= j' < |atac.obs.index| && atac.obs.index[j'] == c.cells[k] && c.atac.x[k] == atac.x[j'];
      }
      forall k, j | 0 <= k < |c.cells| && 0 <= j < |rna.obs.index| && rna.obs.index[j] == c.cells[k]
        ensures c.rna.x[k] == rna.x[j]
      {
        var j' :| 0 <= j' < |rna.obs.index| && rna.obs.index[j'] == c.cells[k] && c.rna.x[k] == rna.x[j'];
        assert j' == j;
      }
      forall k, j | 0 <= k < |c.cells| && 0 <= j < |atac.obs.index| && atac.obs.index[j] == c.cells[k]
        ensures c.atac.x[k] == atac.x[j]
      {
        var j' :| 0 <= j' < |atac.obs.index| && atac.obs.index[j'] == c.cells[k] && c.atac.x[k] == atac.x[j'];
        assert j' == j;
      }
    }
  }

  /** The cell-type selection as the script writes it. */
  method SelectCelltypes(obs: Table, rna: Modality, atac: Modality, celltypes: string)
    returns (r: Option<(Modality, Modality)>)
    ensures r == CelltypeStage(obs, rna, atac, celltypes)
    ensures r.None? <==> celltypes != "all" && "celltype" !in obs.columns
    ensures celltypes == "all" ==> r == Some((rna, atac))
    ensures r.Some? && celltypes != "all" ==>
              var wanted := Split(celltypes, ';');
              forall c :: (c in r.value.0.obs.index <==> c in rna.obs.index && c in WantedCells(obs, wanted)) &&
                          (c in r.value.1.obs.index <==> c in atac.obs.index && c in WantedCells(obs, wanted))
  {
    if celltypes == "all" {
      return Some((rna, atac));
    }
    if "celltype" !in obs.columns {
      return None;
    }
    var wanted := Split(celltypes, ';');
    var keep := WantedCells(obs, wanted);
    r := Some((KeepNamed(rna, keep), KeepNamed(atac, keep)));
  }

  /** The low-count feature filter and the `counts` layer for one modality. */
  method FilterFeatures(a: Modality) returns (r: Modality)
    ensures r == FeatureStage(a)
  {
    r := SelectFeatures(a, ExpressedFeatures(a));
    if "counts" !in r.layers {
      r := r.(layers := r.layers["counts" := r.x]);
    }
  }

  /** The `batch` defaulting. */
  method AddBatch(rna: Modality, atac: Modality) returns (r: Option<(Modality, Modality)>)
    requires TableWellFormed(rna.obs)
    ensures r == WithBatch(rna, atac)
    ensures r.None? <==> BatchCopyFails(rna.obs, atac.obs)
  {
    if "batch" !in rna.obs.columns {
      return Some((SetColumn(rna, "batch", Constant(|rna.obs.index|, "batch1")),
                   SetColumn(atac, "batch", Constant(|atac.obs.index|, "batch1"))));
    }
    if "batch" in atac.obs.columns {
      return Some((rna, atac));
    }
    if rna.obs.index == atac.obs.index {
      return Some((rna, SetColumn(atac, "batch", rna.obs.columns["batch"])));
    }
    if !Distinct(rna.obs.index) {
      return None;
    }
    r := Some((rna, SetColumn(atac, "batch", AlignedColumn(rna.obs, "batch", atac.obs.index))));
  }

  /** `filter_hvg` and the selection of the features it returns. */
  method SelectHvg(a: Modality, hvg: Hvg, n: int) returns (r: Modality)
    ensures r == HvgStage(a, hvg, n)
  {
    var top, cleaned := FilterHvg(a, hvg, n);
    r := KeepFeatures(cleaned, top);
  }

  /** The script from the rename on; `m` is changed by the rename only. */
  method ExtractCaseRun(m: MuData, celltypes: string, nHvg: int, nHvr: int, hvgRna: Hvg, hvgAtac: Hvg)
    returns (r: Option<Case>)
    requires ValidInput(m.obs, m.mod)
    modifies m
    ensures m.mod == Renamed(old(m.mod)) && m.obs == old(m.obs)
    ensures ValidInput(m.obs, m.mod) && r == SelectCase(m.obs, m.mod, celltypes, nHvg, nHvr, hvgRna, hvgAtac)
  {
    m.StandardizeModalityNames();
    RenameSpec(old(m.mod));
    assert ValidInput(m.obs, m.mod);
    if "rna" !in m.mod || "atac" !in m.mod {
      return None;
    }
    var sel := SelectCelltypes(m.obs, m.mod["rna"], m.mod["atac"], celltypes);
    if sel.None? {
      return None;
    }
    CelltypeStageWellFormed(m.obs, m.mod["rna"], m.mod["atac"], celltypes);
    var rna, atac := sel.value.0, sel.value.1;
    StagesWellFormed(rna, hvgRna, nHvg);
    rna := FilterFeatures(rna);
    atac := FilterFeatures(atac);
    var batched := AddBatch(rna, atac);
    if batched.None? {
      assert FilteredPair(m.obs, m.mod, celltypes, nHvg, nHvr, hvgRna, hvgAtac).None?;
      return None;
    }
    rna, atac := batched.value.0, batched.value.1;
    rna := SelectHvg(rna, hvgRna, nHvg);
    atac := SelectHvg(atac, hvgAtac, nHvr);
    rna := CellStage(rna);
    atac := CellStage(atac);
    assert FilteredPair(m.obs, m.mod, celltypes, nHvg, nHvr, hvgRna, hvgAtac) == Some((rna, atac));
    r := Intersect(rna, atac);
  }
}
