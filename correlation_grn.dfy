/** Correlation-based GRN extraction (workflow/scripts/custom/extract_grn_from_multiome.py).

    The expression matrix enters only through two oracles: `corr(tf, gene)`
    is the result of `pearsonr` on the two genes' expression vectors, `None`
    when it raises, and `mean(gene)` is the gene's mean expression across
    cells. Gene names are the index of the genes-by-cells table. */
module CorrelationGrn {

  import opened Common
  import opened Sorting
  import opened GrnTables

  /** At most this many edges are kept after sorting. */
  const MaxEdges: nat := 10000
  /** An edge needs a p-value strictly below this. */
  const PvalCutoff: real := 0.05
  /** Number of most expressed genes used as regulators when no TF is present. */
  const TopExpressedCount: nat := 50

  type Correlation = (Name, Name) -> Option<(real, real)>

  function Abs(x: real): real { if x < 0.0 then -x else x }

  /** `get_tf_list()` */
  function TfList(): (r: seq<Name>)
    ensures |r| == 40
  {
    ["MYC", "TP53", "JUN", "FOS", "ATF3", "EGR1", "CEBPB", "STAT3",
     "IRF1", "NFKB1", "REL", "SP1", "KLF4", "SOX2", "NANOG", "POU5F1",
     "GATA1", "GATA2", "RUNX1", "TAL1", "SPI1", "CEBPA", "PAX5", "EBF1",
     "TCF7", "LEF1", "FOXP3", "TBX21", "GATA3", "RORC", "BCL6", "IRF4",
     "PPARG", "NR1H3", "SREBF1", "HNF4A", "FOXA1", "FOXA2", "CDX2", "MSX1"]
  }

  // ---------------------------------------------------------------------
  // Regulator and target pools

  /** `[tf for tf in tf_list if tf in gene_names]` */
  function PresentTfs(tfList: seq<Name>, geneNames: seq<Name>): seq<Name>
  {
    Filter(tfList, tf => tf in geneNames)
  }

  /** `expr_df.mean(axis=1).sort_values(ascending=False).head(50).index` */
  function TopExpressed(geneNames: seq<Name>, mean: Name -> real): seq<Name>
  {
    Prefix(SortDesc(geneNames, mean), TopExpressedCount)
  }

  /** The regulator pool: the present TFs, or the most expressed genes when none is present. */
  function Regulators(tfList: seq<Name>, geneNames: seq<Name>, mean: Name -> real): seq<Name>
  {
    var present := PresentTfs(tfList, geneNames);
    if |present| == 0 then TopExpressed(geneNames, mean) else present
  }

  /** `gene_names[:n_genes] if len(gene_names) > n_genes else gene_names` */
  function Targets(geneNames: seq<Name>, nGenes: int): seq<Name>
  {
    if |geneNames| > nGenes then Prefix(geneNames, nGenes) else geneNames
  }

  /** The present TFs are exactly the TFs that occur among the gene names,
      in the TF list's order. */
  lemma PresentTfsAreTheListedOnesInData(tfList: seq<Name>, geneNames: seq<Name>)
    ensures var p := PresentTfs(tfList, geneNames);
            IsSubsequence(p, tfList) &&
            (forall tf :: tf in p <==> tf in tfList && tf in geneNames)
  {
    FilterIsSubsequence(tfList, tf => tf in geneNames);
  }

  /** Asking for more genes than exist keeps all of them; otherwise the pool
      is the first `n_genes` names. */
  lemma TargetsClamp(geneNames: seq<Name>, nGenes: int)
    requires nGenes >= 0
    ensures Targets(geneNames, nGenes) == geneNames[..Min(nGenes, |geneNames|)]
  {
  }

  /** With no TF in the data, the regulators are at most 50 gene names, in
      non-increasing mean expression, and no gene left out is more expressed
      than any chosen one. */
  lemma FallbackRegulatorsAreTopExpressed(tfList: seq<Name>, geneNames: seq<Name>, mean: Name -> real)
    requires forall tf :: tf in tfList ==> tf !in geneNames
    ensures var r := Regulators(tfList, geneNames, mean);
            |r| == Min(TopExpressedCount, |geneNames|) &&
            (forall g :: g in r ==> g in geneNames) &&
            SortedDesc(r, mean) &&
            (forall g :: g in geneNames ==> g in r || forall x :: x in r ==> mean(x) >= mean(g))
  {
    var sorted := SortDesc(geneNames, mean);
    var r := Regulators(tfList, geneNames, mean);
    assert r == Prefix(sorted, TopExpressedCount);
    forall g | g in r ensures g in geneNames {
      assert g in multiset(sorted);
    }
    forall g | g in geneNames ensures g in r || forall x :: x in r ==> mean(x) >= mean(g) {
      SortedPrefixIsTop(geneNames, mean, |r|, g);
    }
  }

  // ---------------------------------------------------------------------
  // The nested test loop

  /** The edge one `(tf, gene)` test contributes: none for a self pair, a
      gene missing from the table, a test that raises, or a test that fails
      `|corr| >= threshold and pval < 0.05`. */
  function PairEdge(tf: Name, gene: Name, index: seq<Name>, corr: Correlation, threshold: real): seq<Edge>
  {
    if gene == tf || gene !in index then []
    else match corr(tf, gene)
      case None => []
      case Some((c, p)) =>
        if Abs(c) >= threshold && p < PvalCutoff then [Edge(tf, gene, Abs(c), p)] else []
  }

  /** The edges of one regulator against the target pool, in target order. */
  function RowEdges(tf: Name, genes: seq<Name>, index: seq<Name>, corr: Correlation, threshold: real): seq<Edge>
  {
    if genes == [] then []
    else RowEdges(tf, genes[..|genes| - 1], index, corr, threshold) +
         PairEdge(tf, genes[|genes| - 1], index, corr, threshold)
  }

  /** The edges of all regulators, regulator by regulator; a regulator that
      is not in the table contributes nothing. */
  function PairEdges(tfs: seq<Name>, genes: seq<Name>, index: seq<Name>, corr: Correlation, threshold: real): seq<Edge>
  {
    if tfs == [] then []
    else
      var tf := tfs[|tfs| - 1];
      PairEdges(tfs[..|tfs| - 1], genes, index, corr, threshold) +
      (if tf in index then RowEdges(tf, genes, index, corr, threshold) else [])
  }

  /** The loop of `compute_correlation_grn` that fills `grn_results`. */
  method CorrelationEdges(tfs: seq<Name>, genes: seq<Name>, index: seq<Name>, corr: Correlation, threshold: real)
    returns (edges: seq<Edge>)
    ensures edges == PairEdges(tfs, genes, index, corr, threshold)
  {
    edges := [];
    for i := 0 to |tfs|
      invariant edges == PairEdges(tfs[..i], genes, index, corr, threshold)
    {
      var tf := tfs[i];
      assert tfs[..i + 1][..i] == tfs[..i];
      if tf !in index {
        continue;
      }
      for j := 0 to |genes|
        invariant edges == PairEdges(tfs[..i], genes, index, corr, threshold) +
                           RowEdges(tf, genes[..j], index, corr, threshold)
      {
        var gene := genes[j];
        assert genes[..j + 1][..j] == genes[..j];
        if gene == tf || gene !in index {
          continue;
        }
        var test := corr(tf, gene);
        if test.Some? {
          var (c, p) := test.value;
          if Abs(c) >= threshold && p < PvalCutoff {
            edges := edges + [Edge(tf, gene, Abs(c), p)];
          }
        }
      }
      assert genes[..|genes|] == genes;
    }
    assert tfs[..|tfs|] == tfs;
  }

  /** `e` is what the test of `(tf, gene)` emits. */
  predicate EmittedFor(e: Edge, tf: Name, gene: Name, index: seq<Name>, corr: Correlation, threshold: real)
  {
    && gene != tf && gene in index
    && corr(tf, gene).Some?
    && var (c, p) := corr(tf, gene).value;
       Abs(c) >= threshold && p < PvalCutoff && e == Edge(tf, gene, Abs(c), p)
  }

  lemma {:induction false} RowEdgesMembers(tf: Name, genes: seq<Name>, index: seq<Name>, corr: Correlation, threshold: real, e: Edge)
    ensures e in RowEdges(tf, genes, index, corr, threshold) <==>
            e.source == tf && e.target in genes && EmittedFor(e, tf, e.target, index, corr, threshold)
  {
    if genes != [] {
      var init := genes[..|genes| - 1];
      RowEdgesMembers(tf, init, index, corr, threshold, e);
      assert genes == init + [genes[|genes| - 1]];
    }
  }

  /** An edge is emitted exactly when its source is a regulator in the
      table, its target is a different target-pool gene in the table, the
      test did not raise, `score == |corr| >= threshold` and `pval < 0.05`. */
  lemma {:induction false} PairEdgesMembers(tfs: seq<Name>, genes: seq<Name>, index: seq<Name>, corr: Correlation, threshold: real, e: Edge)
    ensures e in PairEdges(tfs, genes, index, corr, threshold) <==>
            e.source in tfs && e.source in index && e.target in genes &&
            EmittedFor(e, e.source, e.target, index, corr, threshold)
  {
    if tfs != [] {
      var init := tfs[..|tfs| - 1];
      var tf := tfs[|tfs| - 1];
      PairEdgesMembers(init, genes, index, corr, threshold, e);
      RowEdgesMembers(tf, genes, index, corr, threshold, e);
      assert tfs == init + [tf];
    }
  }

  // ---------------------------------------------------------------------
  // Sorting, truncation and the fallback tables

  const PlaceholderScores: seq<real> := [0.5, 0.4, 0.35, 0.33, 0.31]
  const PlaceholderPvals: seq<real> := [0.01, 0.02, 0.03, 0.04, 0.05]

  /** The minimal table built when no edge survives. Its four columns are
      built separately; pandas refuses columns of different lengths with a
      `ValueError`, which nothing catches: `None`. */
  function PlaceholderTable(tfs: seq<Name>, genes: seq<Name>): Option<seq<Edge>>
  {
    var sources := if tfs != [] then Prefix(tfs, 5) else ["TF1"];
    var targets := if |genes| >= 5 then Prefix(genes, 5) else ["Gene1"];
    var k := |Prefix(tfs, 5)|;
    var scores := Prefix(PlaceholderScores, k);
    var pvals := Prefix(PlaceholderPvals, k);
    if |sources| == |targets| == |scores| then
      Some(seq(k, i requires 0 <= i < k => Edge(sources[i], targets[i], scores[i], pvals[i])))
    else None
  }

  /** The placeholder exists only with five regulators and five targets, or
      with one regulator and fewer than five targets; its rows take the first
      regulators, the first targets (or `Gene1`) and the first entries of the
      fixed score and p-value lists. */
  lemma PlaceholderShape(tfs: seq<Name>, genes: seq<Name>)
    ensures PlaceholderTable(tfs, genes).Some? <==>
            (|tfs| >= 5 && |genes| >= 5) || (|tfs| == 1 && |genes| < 5)
    ensures PlaceholderTable(tfs, genes).Some? ==>
            var rows := PlaceholderTable(tfs, genes).value;
            |rows| == Min(5, |tfs|) &&
            forall i :: 0 <= i < |rows| ==>
              rows[i].source == tfs[i] &&
              rows[i].target == (if |genes| >= 5 then genes[i] else "Gene1") &&
              rows[i].score == PlaceholderScores[i] && rows[i].pval == PlaceholderPvals[i]
  {
  }

  /** The table written when the expression data cannot be extracted. */
  function DummyGrn(): seq<Edge>
  {
    [Edge("TF1", "Gene1", 0.5, 0.01), Edge("TF2", "Gene2", 0.4, 0.02)]
  }

  /** The two fallback tables are never the same table. */
  lemma DummyIsNoPlaceholder(tfs: seq<Name>, genes: seq<Name>)
    ensures PlaceholderTable(tfs, genes) != Some(DummyGrn())
  {
    PlaceholderShape(tfs, genes);
  }

  /** `compute_correlation_grn` as a value: the edges sorted by score,
      largest first, and cut at 10 000; the placeholder when there are none. */
  function Grn(tfList: seq<Name>, geneNames: seq<Name>, mean: Name -> real, corr: Correlation,
               nGenes: int, threshold: real): Option<seq<Edge>>
  {
    var regs := Regulators(tfList, geneNames, mean);
    var targets := Targets(geneNames, nGenes);
    var edges := PairEdges(regs, targets, geneNames, corr, threshold);
    if |edges| > 0 then Some(Prefix(SortDesc(edges, Score), MaxEdges))
    else PlaceholderTable(regs, targets)
  }

  /** `compute_correlation_grn` */
  method ComputeCorrelationGrn(geneNames: seq<Name>, tfList: seq<Name>, nGenes: int, threshold: real,
                               corr: Correlation, mean: Name -> real)
    returns (grn: Option<seq<Edge>>)
    ensures grn == Grn(tfList, geneNames, mean, corr, nGenes, threshold)
  {
    var regs := PresentTfs(tfList, geneNames);
    var targets := if |geneNames| > nGenes then Prefix(geneNames, nGenes) else geneNames;
    if |regs| == 0 {
      regs := TopExpressed(geneNames, mean);
    }
    var edges := CorrelationEdges(regs, targets, geneNames, corr, threshold);
    if |edges| > 0 {
      grn := Some(Prefix(SortDesc(edges, Score), MaxEdges));
    } else {
      grn := PlaceholderTable(regs, targets);
    }
  }

  /** When some edge survives, the table has at most 10 000 rows sorted by
      score, largest first; every row is an emitted edge (so no self loop,
      both ends in the table, `score >= threshold`, `pval < 0.05`); and no
      emitted edge left out scores higher than a kept one. */
  lemma GrnOfSurvivingEdges(tfList: seq<Name>, geneNames: seq<Name>, mean: Name -> real, corr: Correlation,
                            nGenes: int, threshold: real)
    requires |PairEdges(Regulators(tfList, geneNames, mean), Targets(geneNames, nGenes), geneNames, corr, threshold)| > 0
    ensures var regs := Regulators(tfList, geneNames, mean);
            var targets := Targets(geneNames, nGenes);
            var grn := Grn(tfList, geneNames, mean, corr, nGenes, threshold);
            grn.Some? && 0 < |grn.value| <= MaxEdges && SortedDesc(grn.value, Score) &&
            (forall e :: e in grn.value ==>
               e.source in regs && e.target in targets && e.source != e.target &&
               e.source in geneNames && e.target in geneNames &&
               e.score >= threshold && e.pval < PvalCutoff &&
               EmittedFor(e, e.source, e.target, geneNames, corr, threshold)) &&
            |grn.value| == Min(MaxEdges, |PairEdges(regs, targets, geneNames, corr, threshold)|) &&
            multiset(grn.value) <= multiset(PairEdges(regs, targets, geneNames, corr, threshold)) &&
            (forall e :: e in PairEdges(regs, targets, geneNames, corr, threshold) ==>
               e in grn.value || forall k :: k in grn.value ==> k.score >= e.score)
  {
    var regs := Regulators(tfList, geneNames, mean);
    var targets := Targets(geneNames, nGenes);
    var edges := PairEdges(regs, targets, geneNames, corr, threshold);
    var sorted := SortDesc(edges, Score);
    var grn := Prefix(sorted, MaxEdges);
    forall e | e in grn
      ensures e.source in regs && e.target in targets && e.source != e.target &&
              e.source in geneNames && e.target in geneNames &&
              e.score >= threshold && e.pval < PvalCutoff &&
              EmittedFor(e, e.source, e.target, geneNames, corr, threshold)
    {
      assert e in sorted;
      assert e in multiset(edges);
      PairEdgesMembers(regs, targets, geneNames, corr, threshold, e);
    }
    forall e | e in edges ensures e in grn || forall k :: k in grn ==> k.score >= e.score {
      SortedPrefixIsTop(edges, Score, |grn|, e);
    }
    assert sorted == grn + sorted[|grn|..];
    assert multiset(sorted) == multiset(grn) + multiset(sorted[|grn|..]);
  }

  /** With no surviving edge, the table is the placeholder: it exists only
      with five regulators and five targets, or with one regulator and fewer
      than five targets, and then pairs the first regulators with the first
      targets (or `Gene1`) and the fixed scores and p-values. */
  lemma GrnWithoutSurvivingEdges(tfList: seq<Name>, geneNames: seq<Name>, mean: Name -> real, corr: Correlation,
                                 nGenes: int, threshold: real)
    requires PairEdges(Regulators(tfList, geneNames, mean), Targets(geneNames, nGenes), geneNames, corr, threshold) == []
    ensures var regs := Regulators(tfList, geneNames, mean);
            var targets := Targets(geneNames, nGenes);
            var grn := Grn(tfList, geneNames, mean, corr, nGenes, threshold);
            && (grn.Some? <==> (|regs| >= 5 && |targets| >= 5) || (|regs| == 1 && |targets| < 5))
            && (grn.Some? ==>
                  |grn.value| == Min(5, |regs|) &&
                  forall i :: 0 <= i < |grn.value| ==>
                    grn.value[i].source == regs[i] &&
                    grn.value[i].target == (if |targets| >= 5 then targets[i] else "Gene1") &&
                    grn.value[i].score == PlaceholderScores[i] && grn.value[i].pval == PlaceholderPvals[i])
  {
    PlaceholderShape(Regulators(tfList, geneNames, mean), Targets(geneNames, nGenes));
  }

  // ---------------------------------------------------------------------
  // main

  /** The fixed tables `generate_intermediate_files` writes. */
  function IntermediatePeakGene(): seq<Link>
  {
    [Link("chr1:1000-2000", "GENE1", 0.8, 0.001),
     Link("chr2:5000-6000", "GENE2", 0.7, 0.01),
     Link("chr3:10000-11000", "GENE3", 0.6, 0.05)]
  }

  function IntermediateBinding(): seq<Binding>
  {
    [Binding("chr1:1000-2000", "TF1", 10.5),
     Binding("chr2:5000-6000", "TF2", 8.2),
     Binding("chr3:10000-11000", "TF3", 6.1)]
  }

  /** The four files a run writes, by name and rows. */
  datatype Outputs = Outputs(
    grnFile: string, grn: seq<Edge>,
    rankingFile: string, ranking: seq<RankRow>,
    peakGeneFile: string, peakGene: seq<Link>,
    bindingFile: string, binding: seq<Binding>)

  function WriteOutputs(tag: string, grn: seq<Edge>): Outputs
  {
    Outputs(GrnFileName(tag), grn, RankingFileName(tag), Ranking(grn),
            PeakGeneFileName(tag), IntermediatePeakGene(), BindingFileName(tag), IntermediateBinding())
  }

  /** The GRN table `main` writes: `geneNames` is `None` when extracting the
      expression data raised, which gives the two-row dummy; the result is
      `None` when the GRN computation itself raises. */
  function MainGrn(geneNames: Option<seq<Name>>, nGenes: int, threshold: real,
                   corr: Correlation, mean: Name -> real): Option<seq<Edge>>
  {
    match geneNames
    case None => Some(DummyGrn())
    case Some(names) => Grn(TfList(), names, mean, corr, nGenes, threshold)
  }

  /** `main` after loading: every file it writes, or `None` when it raises. */
  function RunExtraction(geneNames: Option<seq<Name>>, tag: string, nGenes: int, threshold: real,
                         corr: Correlation, mean: Name -> real): Option<Outputs>
  {
    match MainGrn(geneNames, nGenes, threshold, corr, mean)
    case None => None
    case Some(grn) => Some(WriteOutputs(tag, grn))
  }

  /** A run writes the ranking table as the GRN table without its `pval`
      column, under four distinct method-templated names. */
  lemma WriteOutputsShape(tag: string, grn: seq<Edge>)
    ensures var out := WriteOutputs(tag, grn);
            out.grn == grn && WithPvals(out.ranking, Pvals(out.grn)) == out.grn &&
            out.grnFile == GrnFileName(tag) && out.rankingFile == RankingFileName(tag) &&
            out.peakGeneFile == PeakGeneFileName(tag) && out.bindingFile == BindingFileName(tag) &&
            out.grnFile != out.rankingFile && out.grnFile != out.peakGeneFile &&
            out.grnFile != out.bindingFile && out.rankingFile != out.peakGeneFile &&
            out.rankingFile != out.bindingFile && out.peakGeneFile != out.bindingFile
  {
    RankingDropsOnlyPval(grn);
    FileNamesDistinct(tag);
  }

  /** Failed extraction always finishes: the two-row dummy GRN, its ranking
      without the p-values, and the two fixed three-row intermediate tables,
      under the method-templated names. */
  lemma ExtractionFailureWritesDummy(tag: string, nGenes: int, threshold: real,
                                     corr: Correlation, mean: Name -> real)
    ensures var out := RunExtraction(None, tag, nGenes, threshold, corr, mean);
            && out.Some?
            && out.value.grnFile == GrnFileName(tag) && out.value.rankingFile == RankingFileName(tag)
            && out.value.peakGeneFile == PeakGeneFileName(tag) && out.value.bindingFile == BindingFileName(tag)
            && out.value.grn == [Edge("TF1", "Gene1", 0.5, 0.01), Edge("TF2", "Gene2", 0.4, 0.02)]
            && out.value.ranking == [RankRow("TF1", "Gene1", 0.5), RankRow("TF2", "Gene2", 0.4)]
            && out.value.peakGene == [Link("chr1:1000-2000", "GENE1", 0.8, 0.001),
                                      Link("chr2:5000-6000", "GENE2", 0.7, 0.01),
                                      Link("chr3:10000-11000", "GENE3", 0.6, 0.05)]
            && out.value.binding == [Binding("chr1:1000-2000", "TF1", 10.5),
                                     Binding("chr2:5000-6000", "TF2", 8.2),
                                     Binding("chr3:10000-11000", "TF3", 6.1)]
  {
    var grn := DummyGrn();
    assert Ranking(grn) == [RankRow("TF1", "Gene1", 0.5), RankRow("TF2", "Gene2", 0.4)];
  }
}
