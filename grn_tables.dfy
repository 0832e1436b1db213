/** The four tables both GRN scripts write, the projection of the GRN table
    onto the ranking table, and the method-templated output file names. */
module GrnTables {

  type Name = string

  /** One row of the GRN table: columns `source,target,score,pval`. */
  datatype Edge = Edge(source: Name, target: Name, score: real, pval: real)

  /** The sort key of an edge: its score. */
  function Score(e: Edge): real { e.score }

  /** One row of the ranking table: columns `source,target,score`. */
  datatype RankRow = RankRow(source: Name, target: Name, score: real)

  /** One row of the peak-to-gene table: columns `cre,gene,score,pval`. */
  datatype Link = Link(cre: string, gene: Name, score: real, pval: real)

  /** One row of the TF-binding table: columns `cre,tf,score`. */
  datatype Binding = Binding(cre: string, tf: Name, score: real)

  function Rank(e: Edge): RankRow { RankRow(e.source, e.target, e.score) }

  /** `grn_df[['source', 'target', 'score']]` */
  function Ranking(grn: seq<Edge>): (r: seq<RankRow>)
    ensures |r| == |grn|
    ensures forall i :: 0 <= i < |r| ==> r[i] == Rank(grn[i])
  {
    if grn == [] then [] else [Rank(grn[0])] + Ranking(grn[1..])
  }

  function Pvals(grn: seq<Edge>): (r: seq<real>)
    ensures |r| == |grn|
  {
    if grn == [] then [] else [grn[0].pval] + Pvals(grn[1..])
  }

  /** Puts a `pval` column back beside a ranking table. */
  function WithPvals(rnk: seq<RankRow>, pvals: seq<real>): seq<Edge>
    requires |rnk| == |pvals|
  {
    if rnk == [] then []
    else [Edge(rnk[0].source, rnk[0].target, rnk[0].score, pvals[0])] + WithPvals(rnk[1..], pvals[1..])
  }

  /** The ranking table loses only the `pval` column: rows, their order and
      the other three columns are those of the GRN table. */
  lemma {:induction false} RankingDropsOnlyPval(grn: seq<Edge>)
    ensures WithPvals(Ranking(grn), Pvals(grn)) == grn
  {
    if grn != [] {
      RankingDropsOnlyPval(grn[1..]);
      assert Ranking(grn)[1..] == Ranking(grn[1..]);
    }
  }

  /** `{method}.{method}.{method}.{method}.grn.csv`, for the method label `tag` */
  function GrnFileName(tag: string): string
  {
    tag + "." + tag + "." + tag + "." + tag + ".grn.csv"
  }

  /** `{method}.{method}.{method}.{method}.rnk.tsv` */
  function RankingFileName(tag: string): string
  {
    tag + "." + tag + "." + tag + "." + tag + ".rnk.tsv"
  }

  /** `{method}.p2g.csv` */
  function PeakGeneFileName(tag: string): string
  {
    tag + ".p2g.csv"
  }

  /** `{method}.{method}.tfb.csv` */
  function BindingFileName(tag: string): string
  {
    tag + "." + tag + ".tfb.csv"
  }

  /** No two of the four outputs of one run share a file name, whatever the
      method label. */
  lemma FileNamesDistinct(tag: string)
    ensures GrnFileName(tag) != RankingFileName(tag)
    ensures GrnFileName(tag) != PeakGeneFileName(tag)
    ensures GrnFileName(tag) != BindingFileName(tag)
    ensures RankingFileName(tag) != PeakGeneFileName(tag)
    ensures RankingFileName(tag) != BindingFileName(tag)
    ensures PeakGeneFileName(tag) != BindingFileName(tag)
  {
    var g, r := GrnFileName(tag), RankingFileName(tag);
    var n := 4 * |tag| + 3;
    assert g[n..] == ".grn.csv";
    assert r[n..] == ".rnk.tsv";
  }

  /** The GRN file name determines the method label it was made from. */
  lemma GrnFileNameInjective(a: string, b: string)
    requires GrnFileName(a) == GrnFileName(b)
    ensures a == b
  {
    assert |a| == |b|;
    assert GrnFileName(a)[..|a|] == a;
    assert GrnFileName(b)[..|b|] == b;
  }
}
