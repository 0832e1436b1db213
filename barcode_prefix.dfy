/** The barcode-prefixing step (workflow/scripts/dts/mycustom/mycustom.py):
    a default `celltype`, the exported cell table, the `c0h_` prefix on
    every cell name of the container and its modalities, and the same
    prefix on the barcode field of every fragment line. */
module BarcodePrefix {

  import opened Common
  import opened Text
  import opened Multiome

  const CellPrefix: string := "c0h_"

  /** `['c0h_' + idx for idx in index]` */
  function PrefixAll(names: seq<Name>): (r: seq<Name>)
    ensures |r| == |names|
    ensures forall i :: 0 <= i < |r| ==> |r[i]| == |names[i]| + 4 && r[i][..4] == CellPrefix && r[i][4..] == names[i]
  {
    seq(|names|, i requires 0 <= i < |names| => CellPrefix + names[i])
  }

  /** Removes the four-character prefix from every name. */
  function Unprefixed(names: seq<Name>): seq<Name>
  {
    seq(|names|, i requires 0 <= i < |names| => if |names[i]| >= 4 then names[i][4..] else names[i])
  }

  lemma UnprefixedPrefixAll(names: seq<Name>)
    ensures Unprefixed(PrefixAll(names)) == names
  {
  }

  /** Prefixing neither merges two cell names nor splits one. */
  lemma PrefixAllDistinct(names: seq<Name>)
    ensures Distinct(PrefixAll(names)) <==> Distinct(names)
  {
    var r := PrefixAll(names);
    if Distinct(names) {
      forall i, j | 0 <= i < j < |r| ensures r[i] != r[j] {
        assert r[i][4..] == names[i] && r[j][4..] == names[j];
      }
    }
  }

  /** `obs_data = mdata.obs[['batch', 'celltype']].copy()` with the prefixed
      index; `None` for the `KeyError` of a missing column. */
  function ExportTable(t: Table): (r: Option<Table>)
    ensures r.Some? <==> "batch" in t.columns && "celltype" in t.columns
    ensures r.Some? ==> r.value.index == PrefixAll(t.index) &&
                        r.value.columns.Keys == {"batch", "celltype"} &&
                        r.value.columns["batch"] == t.columns["batch"] &&
                        r.value.columns["celltype"] == t.columns["celltype"]
  {
    if "batch" in t.columns && "celltype" in t.columns then
      Some(Table(PrefixAll(t.index), map["batch" := t.columns["batch"], "celltype" := t.columns["celltype"]]))
    else None
  }

  /** After the `celltype` default, the export fails exactly when `batch` is missing. */
  lemma ExportAfterDefaultCelltype(t: Table)
    ensures ExportTable(WithDefault(t, "celltype", "unknown")).Some? <==> "batch" in t.columns
  {
  }

  /** `parts = line.strip().split('\t')`, with field 3 prefixed when present. */
  function RewrittenFields(line: string): seq<string>
  {
    var parts := Split(Strip(line), '\t');
    if |parts| >= 4 then parts[3 := CellPrefix + parts[3]] else parts
  }

  /** `'\t'.join(parts) + '\n'` */
  function RewriteLine(line: string): string
  {
    Line(RewrittenFields(line), '\t')
  }

  /** A rewritten line ends in a newline; read back, it has the stripped
      line's fields, the same number of them, and only field 3 differs: it
      gains the prefix. */
  lemma RewriteLineFields(line: string)
    ensures var r := RewriteLine(line);
            var parts := Split(Strip(line), '\t');
            var f := Fields(r, '\t');
            |r| >= 1 && r[|r| - 1] == '\n' &&
            |f| == |parts| &&
            (forall i :: 0 <= i < |parts| && i != 3 ==> f[i] == parts[i]) &&
            (|parts| >= 4 ==> f[3] == CellPrefix + parts[3])
  {
    var parts := Split(Strip(line), '\t');
    var fields := RewrittenFields(line);
    if |parts| >= 4 {
      assert forall k :: 0 <= k < |CellPrefix| ==> CellPrefix[k] != '\t';
      assert '\t' !in CellPrefix + parts[3];
    }
    assert forall i :: 0 <= i < |fields| ==> '\t' !in fields[i];
    LineRoundTrip(fields, '\t');
  }

  /** A line with fewer than four fields comes out as its stripped text and a newline. */
  lemma ShortLineUnchanged(line: string)
    requires |Split(Strip(line), '\t')| < 4
    ensures RewriteLine(line) == Strip(line) + "\n"
  {
    JoinSplit(Strip(line), '\t');
  }

  /** The body of the loop over the fragment file, for one line. */
  method RewriteOne(line: string) returns (out: string)
    ensures out == RewriteLine(line)
  {
    var parts := Split(Strip(line), '\t');
    if |parts| >= 4 {
      parts := parts[3 := CellPrefix + parts[3]];
    }
    out := Join(parts, '\t') + "\n";
  }

  /** The loop over the fragment file: one output line per input line, in order. */
  method RewriteFragments(lines: seq<string>) returns (out: seq<string>)
    ensures |out| == |lines|
    ensures forall i :: 0 <= i < |lines| ==> out[i] == RewriteLine(lines[i])
  {
    out := [];
    for i := 0 to |lines|
      invariant |out| == i
      invariant forall j :: 0 <= j < i ==> out[j] == RewriteLine(lines[j])
    {
      var rewritten := RewriteOne(lines[i]);
      out := out + [rewritten];
    }
  }

  /** A modality's cell table with a new index. */
  function WithIndex(a: Modality, index: seq<Name>): Modality
  {
    a.(obs := a.obs.(index := index))
  }

  /** `mdata.obs.index = new_index`, then the same for every modality. An
      index of the wrong length raises pandas' length-mismatch `ValueError`:
      `ok` is false, and the modalities visited before it keep the new index. */
  method PrefixCellNames(m: MuData) returns (ok: bool)
    modifies m
    ensures m.obs == old(m.obs).(index := PrefixAll(old(m.obs.index)))
    ensures m.mod.Keys == old(m.mod).Keys
    ensures ok <==> forall k :: k in old(m.mod) ==> |old(m.mod)[k].obs.index| == |old(m.obs.index)|
    ensures ok ==> forall k :: k in m.mod ==> m.mod[k] == WithIndex(old(m.mod)[k], PrefixAll(old(m.obs.index)))
    ensures forall k :: k in m.mod ==>
              m.mod[k] == old(m.mod)[k] || m.mod[k] == WithIndex(old(m.mod)[k], PrefixAll(old(m.obs.index)))
  {
    var newIndex := PrefixAll(m.obs.index);
    m.obs := m.obs.(index := newIndex);
    var todo := m.mod.Keys;
    while todo != {}
      invariant todo <= m.mod.Keys && m.mod.Keys == old(m.mod).Keys
      invariant m.obs == old(m.obs).(index := newIndex) && |newIndex| == |old(m.obs.index)|
      invariant forall k :: k in todo ==> m.mod[k] == old(m.mod)[k]
      invariant forall k :: k in m.mod && k !in todo ==>
                  |old(m.mod)[k].obs.index| == |newIndex| && m.mod[k] == WithIndex(old(m.mod)[k], newIndex)
      decreases todo
    {
      var k :| k in todo;
      if |m.mod[k].obs.index| != |newIndex| {
        return false;
      }
      m.mod := m.mod[k := WithIndex(m.mod[k], newIndex)];
      todo := todo - {k};
    }
    ok := true;
  }

  /** The script from the `celltype` default to the rewritten fragment lines:
      `csv` is the exported table (`None` when `batch` is missing; nothing
      after it runs), `frags` the rewritten fragment lines (`None` when a
      modality's index could not be replaced). */
  method Run(m: MuData, fragments: seq<string>) returns (csv: Option<Table>, frags: Option<seq<string>>)
    modifies m
    ensures csv == ExportTable(WithDefault(old(m.obs), "celltype", "unknown"))
    ensures csv.None? ==> m.obs == WithDefault(old(m.obs), "celltype", "unknown") && m.mod == old(m.mod) && frags.None?
    ensures csv.Some? ==>
              && m.obs == WithDefault(old(m.obs), "celltype", "unknown").(index := PrefixAll(old(m.obs.index)))
              && m.mod.Keys == old(m.mod).Keys
              && forall k :: k in m.mod ==>
                   m.mod[k] == old(m.mod)[k] || m.mod[k] == WithIndex(old(m.mod)[k], PrefixAll(old(m.obs.index)))
    ensures frags.Some? <==>
              csv.Some? && forall k :: k in old(m.mod) ==> |old(m.mod)[k].obs.index| == |old(m.obs.index)|
    ensures frags.Some? ==>
              && m.obs == WithDefault(old(m.obs), "celltype", "unknown").(index := PrefixAll(old(m.obs.index)))
              && m.mod.Keys == old(m.mod).Keys
              && forall k :: k in m.mod ==> m.mod[k] == WithIndex(old(m.mod)[k], PrefixAll(old(m.obs.index)))
    ensures frags.Some? ==> (|frags.value| == |fragments| &&
              forall i :: 0 <= i < |fragments| ==> frags.value[i] == RewriteLine(fragments[i]))
  {
    m.AddDefaultColumn("celltype", "unknown");
    csv := ExportTable(m.obs);
    if csv.None? {
      return csv, None;
    }
    var ok := PrefixCellNames(m);
    if !ok {
      return csv, None;
    }
    var out := RewriteFragments(fragments);
    frags := Some(out);
  }
}
