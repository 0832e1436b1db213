/** The parts of a MuData container the scripts touch: the cell table
    (`obs`), the modality dictionary (`mod`), and for each modality its cell
    table, feature names, feature-table column names, matrix `X` (cells by
    features) and named layers.

    A cell of an `obs` column is `Some(text)`, or `None` for pandas' `NaN`. */
module Multiome {

  import opened Common

  type Name = string

  type Column = seq<Option<string>>

  /** A cell table: the cell names (`obs_names`) and named columns. */
  datatype Table = Table(index: seq<Name>, columns: map<Name, Column>)

  type Matrix = seq<seq<real>>

  /** One AnnData of `mdata.mod`. */
  datatype Modality = Modality(obs: Table, varNames: seq<Name>, varColumns: set<Name>,
                               x: Matrix, layers: map<Name, Matrix>)

  predicate TableWellFormed(t: Table)
  {
    forall c :: c in t.columns ==> |t.columns[c]| == |t.index|
  }

  predicate MatrixShape(m: Matrix, rows: nat, cols: nat)
  {
    |m| == rows && forall i :: 0 <= i < |m| ==> |m[i]| == cols
  }

  /** Every column has a value per cell; `X` and every layer are cells by features. */
  predicate WellFormed(a: Modality)
  {
    && TableWellFormed(a.obs)
    && MatrixShape(a.x, |a.obs.index|, |a.varNames|)
    && forall l :: l in a.layers ==> MatrixShape(a.layers[l], |a.obs.index|, |a.varNames|)
  }

  /** `mdata.mod['rna'] = mdata.mod.pop('RNA')` then the same for `ATAC`,
      when both upper-case keys are present. */
  function Renamed(mod: map<Name, Modality>): map<Name, Modality>
  {
    if "RNA" in mod && "ATAC" in mod then
      (mod - {"RNA", "ATAC"})["rna" := mod["RNA"]]["atac" := mod["ATAC"]]
    else mod
  }

  /** The rename moves the two upper-case entries to the lower-case keys and
      keeps every other entry; without both upper-case keys it changes nothing. */
  lemma RenameSpec(mod: map<Name, Modality>)
    ensures var r := Renamed(mod);
            if "RNA" in mod && "ATAC" in mod then
              && r.Keys == mod.Keys - {"RNA", "ATAC"} + {"rna", "atac"}
              && r["rna"] == mod["RNA"] && r["atac"] == mod["ATAC"]
              && forall k :: k in mod && k != "RNA" && k != "ATAC" && k != "rna" && k != "atac" ==> r[k] == mod[k]
            else r == mod
  {
  }

  /** Renaming twice is renaming once. */
  lemma RenameIdempotent(mod: map<Name, Modality>)
    ensures Renamed(Renamed(mod)) == Renamed(mod)
  {
  }

  /** `if 'counts' not in a.layers: a.layers['counts'] = a.X.copy()` */
  function EnsureCounts(a: Modality): (r: Modality)
    ensures "counts" in r.layers && r.x == a.x && r.obs == a.obs && r.varNames == a.varNames
    ensures "counts" in a.layers ==> r == a
    ensures "counts" !in a.layers ==> r.layers["counts"] == a.x
    ensures forall l :: l in a.layers ==> l in r.layers && r.layers[l] == a.layers[l]
    ensures r.layers.Keys == a.layers.Keys + {"counts"}
    ensures WellFormed(a) ==> WellFormed(r)
  {
    if "counts" in a.layers then a else a.(layers := a.layers["counts" := a.x])
  }

  lemma EnsureCountsIdempotent(a: Modality)
    ensures EnsureCounts(EnsureCounts(a)) == EnsureCounts(a)
  {
  }

  /** `if col not in t.columns: t[col] = value`: a column holding `value` for
      every cell, added only when the column is absent. */
  function WithDefault(t: Table, col: Name, value: string): (r: Table)
    ensures r.index == t.index && col in r.columns
    ensures col in t.columns ==> r == t
    ensures col !in t.columns ==>
              |r.columns[col]| == |t.index| && forall i :: 0 <= i < |t.index| ==> r.columns[col][i] == Some(value)
    ensures forall c :: c in t.columns ==> c in r.columns && r.columns[c] == t.columns[c]
    ensures r.columns.Keys == t.columns.Keys + {col}
    ensures TableWellFormed(t) ==> TableWellFormed(r)
  {
    if col in t.columns then t
    else t.(columns := t.columns[col := seq(|t.index|, _ => Some(value))])
  }

  /** A MuData container. The modalities are values held by the dictionary;
      updating one is assigning a new value to its key. */
  class MuData {
    var obs: Table
    var mod: map<Name, Modality>

    constructor(obs: Table, mod: map<Name, Modality>)
      ensures this.obs == obs && this.mod == mod
    {
      this.obs := obs;
      this.mod := mod;
    }

    /** The upper-case to lower-case modality rename of both preprocessing scripts. */
    method StandardizeModalityNames()
      modifies this
      ensures mod == Renamed(old(mod)) && obs == old(obs)
    {
      if "RNA" in mod && "ATAC" in mod {
        var rna := mod["RNA"];
        mod := (mod - {"RNA"})["rna" := rna];
        var atac := mod["ATAC"];
        mod := (mod - {"ATAC"})["atac" := atac];
      }
    }

    /** `for mod in ['rna', 'atac']: if 'counts' not in ...layers: ...layers['counts'] = ...X.copy()` */
    method EnsureCountsLayers()
      requires "rna" in mod && "atac" in mod
      modifies this
      ensures obs == old(obs)
      ensures mod == old(mod)["rna" := EnsureCounts(old(mod)["rna"])]["atac" := EnsureCounts(old(mod)["atac"])]
    {
      var names := ["rna", "atac"];
      for i := 0 to 2
        invariant obs == old(obs) && "rna" in mod && "atac" in mod
        invariant i == 0 ==> mod == old(mod)
        invariant i == 1 ==> mod == old(mod)["rna" := EnsureCounts(old(mod)["rna"])]
        invariant i == 2 ==> mod == old(mod)["rna" := EnsureCounts(old(mod)["rna"])]["atac" := EnsureCounts(old(mod)["atac"])]
      {
        var m := mod[names[i]];
        if "counts" !in m.layers {
          mod := mod[names[i] := m.(layers := m.layers["counts" := m.x])];
        }
      }
    }

    /** `mdata.obs[col] = value` when the column is absent. */
    method AddDefaultColumn(col: Name, value: string)
      modifies this
      ensures obs == WithDefault(old(obs), col, value) && mod == old(mod)
    {
      if col !in obs.columns {
        obs := obs.(columns := obs.columns[col := seq(|obs.index|, _ => Some(value))]);
      }
    }
  }
}
