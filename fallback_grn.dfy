/** The synthetic fallback generator (workflow/scripts/custom/simple_grn_fallback.py).

    Every `random` draw is a nondeterministic choice within the range the
    script asks for (`random.uniform(a, b)` may return either end point, so
    ranges are closed). `random.choice` on an empty pool raises
    `IndexError`, which nothing catches: the operations that draw from a
    pool return `None` then. */
module FallbackGrn {

  import opened Common
  import opened Text
  import opened Sorting
  import opened GrnTables
  import CorrelationGrn

  const DefaultInteractions: nat := 1000
  const DefaultLinks: nat := 500
  const DefaultBindings: nat := 300
  const SyntheticGeneCount: nat := 200

  function TfPool(): (r: seq<Name>)
    ensures |r| == 56
  {
    ["MYC", "TP53", "JUN", "FOS", "ATF3", "EGR1", "CEBPB", "STAT3",
     "IRF1", "NFKB1", "REL", "SP1", "KLF4", "SOX2", "NANOG", "POU5F1",
     "GATA1", "GATA2", "RUNX1", "TAL1", "SPI1", "CEBPA", "PAX5", "EBF1",
     "TCF7", "LEF1", "FOXP3", "TBX21", "GATA3", "RORC", "BCL6", "IRF4",
     "PPARG", "NR1H3", "SREBF1", "HNF4A", "FOXA1", "FOXA2", "CDX2", "MSX1",
     "SMAD3", "SMAD4", "E2F1", "E2F3", "RB1", "CDKN1A", "CDKN2A", "BRCA1",
     "ESR1", "ESR2", "AR", "RARA", "RXRA", "VDR", "PPARA", "NR3C1"]
  }

  function FixedGenes(): (r: seq<Name>)
    ensures |r| == 56
  {
    ["ACTB", "GAPDH", "TUBB", "RPL13", "RPS18", "HPRT1", "TBP", "GUSB",
     "HMBS", "SDHA", "UBC", "YWHAZ", "B2M", "PPIA", "RPL32", "RPLP0",
     "APOE", "ALB", "INS", "IGF1", "VEGFA", "PDGFA", "TNF", "IL6",
     "IL1B", "IFNG", "IL2", "IL4", "IL10", "TGF1", "EGFR", "ERBB2",
     "MET", "FGFR1", "PDGFRA", "VEGFR1", "KIT", "FLT3", "RET", "ALK",
     "BCL2", "BAX", "TP53", "MDM2", "CDKN1A", "RB1", "E2F1", "MYC",
     "CCND1", "CDK4", "CDK6", "CCNE1", "CDK2", "PCNA", "MCM2", "MCM7"]
  }

  /** The fallback's TF pool extends the extraction script's TF list. */
  lemma TfPoolExtendsTfList()
    ensures TfPool()[..40] == CorrelationGrn.TfList()
  {
  }

  const SyntheticPrefixes: seq<string> := ["ENSG", "LOC", "FAM", "KIAA", "C1orf", "C2orf", "C3orf"]

  /** `f"{random.choice(prefixes)}{random.randint(10000, 99999)}"` */
  ghost predicate IsSyntheticName(name: Name)
  {
    exists p, k :: p in SyntheticPrefixes && 10000 <= k <= 99999 && name == p + DecimalString(k)
  }

  /** `get_tf_gene_lists`: the fixed TF pool, and the fixed genes followed
      by 200 synthetic names. */
  method GetTfGeneLists() returns (tfs: seq<Name>, genes: seq<Name>)
    ensures tfs == TfPool()
    ensures |genes| == |FixedGenes()| + SyntheticGeneCount && genes[..|FixedGenes()|] == FixedGenes()
    ensures forall i :: |FixedGenes()| <= i < |genes| ==> IsSyntheticName(genes[i])
  {
    tfs := TfPool();
    genes := FixedGenes();
    for i := 0 to SyntheticGeneCount
      invariant |genes| == |FixedGenes()| + i && genes[..|FixedGenes()|] == FixedGenes()
      invariant forall j :: |FixedGenes()| <= j < |genes| ==> IsSyntheticName(genes[j])
    {
      assert SyntheticPrefixes[0] in SyntheticPrefixes;
      var prefix :| prefix in SyntheticPrefixes;
      var k: nat :| 10000 <= k <= 99999;
      genes := genes + [prefix + DecimalString(k)];
    }
  }

  /** `tfs[:args.n_tfs]` and `genes[:args.n_genes]`: prefixes of the pools. */
  lemma PoolsArePrefixes(tfs: seq<Name>, genes: seq<Name>, nTfs: int, nGenes: int)
    requires tfs == TfPool() && |genes| == |FixedGenes()| + SyntheticGeneCount
    ensures Prefix(tfs, nTfs) == TfPool()[..|Prefix(tfs, nTfs)|]
    ensures nTfs >= 0 ==> |Prefix(tfs, nTfs)| == Min(nTfs, 56)
    ensures nGenes >= 0 ==> |Prefix(genes, nGenes)| == Min(nGenes, 256)
    ensures Prefix(genes, nGenes) == genes[..|Prefix(genes, nGenes)|]
  {
  }

  predicate Within(x: real, low: real, high: real) { low <= x <= high }

  /** `random.uniform(low, high)`: some value of the closed range. */
  method Uniform(low: real, high: real) returns (x: real)
    requires low <= high
    ensures low <= x <= high
  {
    assert Within(low, low, high);
    x :| Within(x, low, high);
    assert Within(x, low, high);
  }

  // ---------------------------------------------------------------------
  // Rounding

  /** Nearest integer to `y`, ties to the even one. */
  function RoundHalfEven(y: real): int
  {
    var k := y.Floor;
    var f := y - k as real;
    if f < 0.5 then k else if f > 0.5 then k + 1 else if k % 2 == 0 then k else k + 1
  }

  lemma RoundHalfEvenBounds(y: real, a: int, b: int)
    requires a as real <= y <= b as real
    ensures a <= RoundHalfEven(y) <= b
  {
    var k := y.Floor;
    if k == b {
      assert y == b as real;
    }
  }

  /** `round(x, 3)` */
  function Round3(x: real): real { RoundHalfEven(x * 1000.0) as real / 1000.0 }

  /** `round(x, 2)` */
  function Round2(x: real): real { RoundHalfEven(x * 100.0) as real / 100.0 }

  /** Rounding to three places keeps a value inside bounds that have at most
      three places. */
  lemma Round3Within(x: real, a: int, b: int)
    requires a as real / 1000.0 <= x <= b as real / 1000.0
    ensures a as real / 1000.0 <= Round3(x) <= b as real / 1000.0
  {
    RoundHalfEvenBounds(x * 1000.0, a, b);
  }

  lemma Round2Within(x: real, a: int, b: int)
    requires a as real / 100.0 <= x <= b as real / 100.0
    ensures a as real / 100.0 <= Round2(x) <= b as real / 100.0
  {
    RoundHalfEvenBounds(x * 100.0, a, b);
  }

  // ---------------------------------------------------------------------
  // Interactions

  /** The p-value range for a drawn score: `(low, high)`. */
  function PvalRange(score: real): (r: (real, real))
    ensures 0.001 <= r.0 < r.1 <= 0.1
  {
    if score > 0.6 then (0.001, 0.01)
    else if score > 0.4 then (0.01, 0.05)
    else (0.05, 0.1)
  }

  /** A higher score never gets a higher p-value range. */
  lemma PvalRangeMonotone(s1: real, s2: real)
    requires s1 >= s2
    ensures PvalRange(s1).0 <= PvalRange(s2).0 && PvalRange(s1).1 <= PvalRange(s2).1
  {
  }

  /** The tier is chosen from the score before rounding: a score that rounds
      onto a tier boundary keeps the p-value range of the tier above it. */
  lemma TierUsesUnroundedScore()
    ensures Round3(0.6004) == 0.6
    ensures PvalRange(0.6004) == (0.001, 0.01) && PvalRange(Round3(0.6004)) == (0.01, 0.05)
  {
    assert (600.4).Floor == 600;
  }

  /** `e` is an interaction drawn from the pools with unrounded score `raw`. */
  predicate Drawn(e: Edge, raw: real, tfs: seq<Name>, genes: seq<Name>)
  {
    && e.source in tfs && e.target in genes
    && 0.3 <= raw <= 0.95 && e.score == Round3(raw)
    && PvalRange(raw).0 <= e.pval <= PvalRange(raw).1
  }

  /** The drawing loop of `generate_realistic_interactions`. */
  method DrawInteractions(tfs: seq<Name>, genes: seq<Name>, n: int)
    returns (r: Option<seq<Edge>>, ghost raws: seq<real>)
    ensures r.None? <==> n > 0 && (tfs == [] || genes == [])
    ensures r.Some? ==> |r.value| == Max(n, 0) == |raws| &&
                        forall i :: 0 <= i < |raws| ==> Drawn(r.value[i], raws[i], tfs, genes)
  {
    raws := [];
    if n > 0 && (tfs == [] || genes == []) {
      return None, raws;
    }
    var interactions: seq<Edge> := [];
    for i := 0 to Max(n, 0)
      invariant |interactions| == i == |raws|
      invariant forall j :: 0 <= j < i ==> Drawn(interactions[j], raws[j], tfs, genes)
    {
      assert tfs[0] in tfs && genes[0] in genes;
      var tf :| tf in tfs;
      var gene :| gene in genes;
      var moderate: bool := *;
      var score: real;
      if moderate {
        score := Uniform(0.3, 0.7);
      } else {
        score := Uniform(0.7, 0.95);
      }
      var (low, high) := PvalRange(score);
      var pval := Uniform(low, high);
      interactions := interactions + [Edge(tf, gene, Round3(score), pval)];
      raws := raws + [score];
    }
    r := Some(interactions);
  }

  /** Every drawn interaction has a score in [0.3, 0.95] and a p-value in [0.001, 0.1]. */
  lemma DrawnBounds(e: Edge, raw: real, tfs: seq<Name>, genes: seq<Name>)
    requires Drawn(e, raw, tfs, genes)
    ensures 0.3 <= e.score <= 0.95 && 0.001 <= e.pval <= 0.1
  {
    Round3Within(raw, 300, 950);
  }

  function Key(e: Edge): (Name, Name) { (e.source, e.target) }

  function Keys(s: seq<Edge>): set<(Name, Name)>
  {
    set i | 0 <= i < |s| :: Key(s[i])
  }

  lemma KeysAppend(s: seq<Edge>, e: Edge)
    ensures Keys(s + [e]) == Keys(s) + {Key(e)}
  {
    var t := s + [e];
    forall k | k in Keys(t) ensures k in Keys(s) + {Key(e)} {
      var i :| 0 <= i < |t| && Key(t[i]) == k;
      if i < |s| {
        assert t[i] == s[i];
      }
    }
    forall k | k in Keys(s) ensures k in Keys(t) {
      var i :| 0 <= i < |s| && Key(s[i]) == k;
      assert t[i] == s[i];
    }
    assert Key(t[|s|]) in Keys(t);
  }

  /** The rows the dedup loop keeps: each row whose key has not been seen earlier. */
  function Dedup(s: seq<Edge>): seq<Edge>
  {
    if s == [] then []
    else
      var init := s[..|s| - 1];
      if Key(s[|s| - 1]) in Keys(init) then Dedup(init) else Dedup(init) + [s[|s| - 1]]
  }

  /** The loop over `sorted(interactions, ...)` with its `seen` set. */
  method Deduplicate(sorted: seq<Edge>) returns (unique: seq<Edge>)
    ensures unique == Dedup(sorted)
  {
    var seen: set<(Name, Name)> := {};
    unique := [];
    for i := 0 to |sorted|
      invariant seen == Keys(sorted[..i])
      invariant unique == Dedup(sorted[..i])
    {
      var key := (sorted[i].source, sorted[i].target);
      assert sorted[..i + 1] == sorted[..i] + [sorted[i]];
      KeysAppend(sorted[..i], sorted[i]);
      if key !in seen {
        seen := seen + {key};
        unique := unique + [sorted[i]];
      }
    }
    assert sorted[..|sorted|] == sorted;
  }

  lemma {:induction false} SubsequenceAppendBoth<T>(a: seq<T>, b: seq<T>, x: T)
    requires IsSubsequence(a, b)
    ensures IsSubsequence(a + [x], b + [x])
    decreases |b|
  {
    if a == [] {
      assert a + [x] == [x];
      SingletonSubsequence(b, x);
    } else if a[0] == b[0] && IsSubsequence(a[1..], b[1..]) {
      SubsequenceAppendBoth(a[1..], b[1..], x);
      assert (a + [x])[1..] == a[1..] + [x];
      assert (b + [x])[1..] == b[1..] + [x];
    } else {
      SubsequenceAppendBoth(a, b[1..], x);
      assert (b + [x])[1..] == b[1..] + [x];
    }
  }

  lemma {:induction false} SingletonSubsequence<T>(b: seq<T>, x: T)
    ensures IsSubsequence([x], b + [x])
  {
    if b != [] {
      SingletonSubsequence(b[1..], x);
      assert (b + [x])[1..] == b[1..] + [x];
    }
  }

  lemma {:induction false} SubsequenceAppendRight<T>(a: seq<T>, b: seq<T>, x: T)
    requires IsSubsequence(a, b)
    ensures IsSubsequence(a, b + [x])
    decreases |b|
  {
    if a != [] {
      assert (b + [x])[1..] == b[1..] + [x];
      if a[0] == b[0] && IsSubsequence(a[1..], b[1..]) {
        SubsequenceAppendRight(a[1..], b[1..], x);
      } else {
        SubsequenceAppendRight(a, b[1..], x);
      }
    }
  }

  /** The kept rows are a subsequence of the sorted rows, with the same set
      of keys and no key twice. */
  lemma {:induction false} DedupProperties(s: seq<Edge>)
    ensures var d := Dedup(s);
            IsSubsequence(d, s) && Keys(d) == Keys(s) &&
            forall i, j :: 0 <= i < j < |d| ==> Key(d[i]) != Key(d[j])
  {
    if s != [] {
      var init := s[..|s| - 1];
      var e := s[|s| - 1];
      DedupProperties(init);
      var d0 := Dedup(init);
      assert s == init + [e];
      KeysAppend(init, e);
      if Key(e) in Keys(init) {
        SubsequenceAppendRight(d0, init, e);
      } else {
        SubsequenceAppendBoth(d0, init, e);
        var d := d0 + [e];
        KeysAppend(d0, e);
        forall i, j | 0 <= i < j < |d| ensures Key(d[i]) != Key(d[j]) {
          if j == |d| - 1 {
            assert Key(d0[i]) in Keys(d0);
          } else {
            assert d[i] == d0[i] && d[j] == d0[j];
          }
        }
      }
    }
  }

  /** Each kept row is the first row of the sorted input with its key. */
  lemma {:induction false} DedupKeepsFirstOccurrence(s: seq<Edge>, j: nat)
    requires j < |Dedup(s)|
    ensures exists p :: 0 <= p < |s| && s[p] == Dedup(s)[j] &&
                        forall q :: 0 <= q < p ==> Key(s[q]) != Key(s[p])
  {
    var init := s[..|s| - 1];
    var e := s[|s| - 1];
    if j < |Dedup(init)| {
      DedupKeepsFirstOccurrence(init, j);
      var p :| 0 <= p < |init| && init[p] == Dedup(init)[j] &&
               forall q :: 0 <= q < p ==> Key(init[q]) != Key(init[p]);
      assert s[p] == init[p];
      forall q | 0 <= q < p ensures Key(s[q]) != Key(s[p]) {
        assert s[q] == init[q];
      }
    } else {
      var p := |s| - 1;
      assert Dedup(s)[j] == e;
      forall q | 0 <= q < p ensures Key(s[q]) != Key(s[p]) {
        assert s[q] == init[q];
        assert Key(init[q]) in Keys(init);
      }
    }
  }

  /** In sorted input, the kept row of a key has that key's largest score. */
  lemma DedupKeepsBestScore(s: seq<Edge>, e: Edge)
    requires SortedDesc(s, Score)
    requires e in s
    ensures exists k :: k in Dedup(s) && Key(k) == Key(e) && k.score >= e.score
  {
    var d := Dedup(s);
    DedupProperties(s);
    var i :| 0 <= i < |s| && s[i] == e;
    assert Key(e) in Keys(s);
    var j :| 0 <= j < |d| && Key(d[j]) == Key(e);
    DedupKeepsFirstOccurrence(s, j);
    var p :| 0 <= p < |s| && s[p] == d[j] && forall q :: 0 <= q < p ==> Key(s[q]) != Key(s[p]);
    assert p <= i;
    assert d[j] in d;
  }

  /** `generate_realistic_interactions`: draw, sort by score (stable, largest
      first), drop repeated keys, keep at most `n` rows. `drawn` is the
      drawn list, with the unrounded scores in `raws`. */
  method GenerateRealisticInteractions(tfs: seq<Name>, genes: seq<Name>, n: int)
    returns (r: Option<seq<Edge>>, ghost drawn: seq<Edge>, ghost raws: seq<real>)
    ensures r.None? <==> n > 0 && (tfs == [] || genes == [])
    ensures r.Some? ==>
      |drawn| == Max(n, 0) == |raws| &&
      (forall i :: 0 <= i < |drawn| ==> Drawn(drawn[i], raws[i], tfs, genes)) &&
      r.value == Prefix(Dedup(SortDesc(drawn, Score)), n)
    ensures r.Some? ==>
      |r.value| <= Max(n, 0) && SortedDesc(r.value, Score) &&
      (forall i, j :: 0 <= i < j < |r.value| ==> Key(r.value[i]) != Key(r.value[j])) &&
      (forall e :: e in r.value ==>
         e.source in tfs && e.target in genes && 0.3 <= e.score <= 0.95 && 0.001 <= e.pval <= 0.1)
  {
    var draws;
    draws, raws := DrawInteractions(tfs, genes, n);
    if draws.None? {
      return None, [], raws;
    }
    drawn := draws.value;
    var unique := Deduplicate(SortDesc(draws.value, Score));
    TruncationKeepsAll(drawn, n);
    GeneratedInteractionsProperties(drawn, raws, tfs, genes);
    r := Some(Prefix(unique, n));
  }

  lemma SortedRowBounds(drawn: seq<Edge>, raws: seq<real>, tfs: seq<Name>, genes: seq<Name>, e: Edge)
    requires |drawn| == |raws|
    requires forall i :: 0 <= i < |drawn| ==> Drawn(drawn[i], raws[i], tfs, genes)
    requires e in SortDesc(drawn, Score)
    ensures e.source in tfs && e.target in genes && 0.3 <= e.score <= 0.95 && 0.001 <= e.pval <= 0.1
  {
    assert e in multiset(SortDesc(drawn, Score));
    assert e in multiset(drawn);
    var i :| 0 <= i < |drawn| && drawn[i] == e;
    DrawnBounds(e, raws[i], tfs, genes);
  }

  /** `unique_interactions[:n]` keeps every row: there were only `n` draws. */
  lemma TruncationKeepsAll(drawn: seq<Edge>, n: int)
    requires |drawn| == Max(n, 0)
    ensures Prefix(Dedup(SortDesc(drawn, Score)), n) == Dedup(SortDesc(drawn, Score))
  {
    var sorted := SortDesc(drawn, Score);
    var d := Dedup(sorted);
    DedupProperties(sorted);
    SubsequenceMembers(d, sorted);
    assert d[..|d|] == d;
  }

  /** The generated interactions: no more rows than draws, no key twice, sorted by score,
      a subsequence of the sorted draws, each from the pools with score in
      [0.3, 0.95] and p-value in [0.001, 0.1]; every drawn interaction is
      matched by a kept one with its key and at least its score. */
  lemma GeneratedInteractionsProperties(drawn: seq<Edge>, raws: seq<real>, tfs: seq<Name>, genes: seq<Name>)
    requires |drawn| == |raws|
    requires forall i :: 0 <= i < |drawn| ==> Drawn(drawn[i], raws[i], tfs, genes)
    ensures var sorted := SortDesc(drawn, Score);
            var r := Dedup(sorted);
            |r| <= |drawn| && IsSubsequence(r, sorted) && SortedDesc(r, Score) &&
            (forall i, j :: 0 <= i < j < |r| ==> Key(r[i]) != Key(r[j])) &&
            (forall e :: e in r ==> e.source in tfs && e.target in genes &&
                                    0.3 <= e.score <= 0.95 && 0.001 <= e.pval <= 0.1) &&
            (forall e :: e in drawn ==> exists k :: k in r && Key(k) == Key(e) && k.score >= e.score)
  {
    var sorted := SortDesc(drawn, Score);
    var d := Dedup(sorted);
    DedupProperties(sorted);
    SubsequenceMembers(d, sorted);
    SubsequenceOfSorted(d, sorted, Score);
    forall e | e in d
      ensures e.source in tfs && e.target in genes && 0.3 <= e.score <= 0.95 && 0.001 <= e.pval <= 0.1
    {
      SortedRowBounds(drawn, raws, tfs, genes, e);
    }
    forall e | e in drawn ensures exists k :: k in d && Key(k) == Key(e) && k.score >= e.score {
      assert e in multiset(sorted);
      DedupKeepsBestScore(sorted, e);
    }
  }

  // ---------------------------------------------------------------------
  // Peaks, peak-gene links and TF binding

  /** `['chr' + str(i) for i in range(1, 23)] + ['chrX', 'chrY']` */
  function Chromosomes(): (r: seq<string>)
    ensures |r| == 24
  {
    seq(22, i requires 0 <= i < 22 => "chr" + DecimalString(i + 1)) + ["chrX", "chrY"]
  }

  /** `f"{chrom}:{start}-{end}"` */
  function PeakString(chrom: string, start: nat, end: nat): string
  {
    chrom + ":" + DecimalString(start) + "-" + DecimalString(end)
  }

  predicate AllDigits(s: string) { |s| > 0 && forall i :: 0 <= i < |s| ==> IsDigit(s[i]) }

  /** Reads `chrom:start-end` back. */
  function ParsePeak(s: string): Option<(string, nat, nat)>
  {
    var parts := Split(s, ':');
    if |parts| != 2 then None
    else
      var bounds := Split(parts[1], '-');
      if |bounds| != 2 || !AllDigits(bounds[0]) || !AllDigits(bounds[1]) then None
      else Some((parts[0], ParseDecimal(bounds[0]), ParseDecimal(bounds[1])))
  }

  lemma DecimalHasNoSeparators(n: nat)
    ensures ':' !in DecimalString(n) && '-' !in DecimalString(n)
  {
    var d := DecimalString(n);
    assert forall i :: 0 <= i < |d| ==> d[i] != ':' && d[i] != '-';
  }

  /** A peak string reads back as the chromosome and the two positions it was built from. */
  lemma PeakRoundTrip(chrom: string, start: nat, end: nat)
    requires ':' !in chrom && '-' !in chrom
    ensures ParsePeak(PeakString(chrom, start, end)) == Some((chrom, start, end))
  {
    var ds, de := DecimalString(start), DecimalString(end);
    DecimalHasNoSeparators(start);
    DecimalHasNoSeparators(end);
    var tail := ds + "-" + de;
    assert PeakString(chrom, start, end) == chrom + [':'] + tail;
    assert ':' !in tail;
    SplitAfterFirstPiece(chrom, ':', tail);
    SplitWithoutSeparator(tail, ':');
    assert tail == ds + ['-'] + de;
    SplitAfterFirstPiece(ds, '-', de);
    SplitWithoutSeparator(de, '-');
    DecimalRoundTrip(start);
    DecimalRoundTrip(end);
  }

  lemma ChromosomeNamesHaveNoSeparators(c: string)
    requires c in Chromosomes()
    ensures ':' !in c && '-' !in c
  {
    var i :| 0 <= i < 24 && Chromosomes()[i] == c;
    if i < 22 {
      assert c == "chr" + DecimalString(i + 1);
      DecimalHasNoSeparators(i + 1);
    }
  }

  /** A genomic interval as the generators draw it. */
  predicate IsDrawnPeak(cre: string)
  {
    match ParsePeak(cre)
    case None => false
    case Some((chrom, start, end)) =>
      chrom in Chromosomes() && 1000000 <= start <= 200000000 && 500 <= end - start <= 2000
  }

  /** The random interval both link and binding generators draw. */
  method DrawPeak() returns (cre: string)
    ensures IsDrawnPeak(cre)
  {
    assert "chrX" in Chromosomes();
    var chrom :| chrom in Chromosomes();
    var start: nat :| 1000000 <= start <= 200000000;
    var length: nat :| 500 <= length <= 2000;
    var end := start + length;
    cre := PeakString(chrom, start, end);
    ChromosomeNamesHaveNoSeparators(chrom);
    PeakRoundTrip(chrom, start, end);
  }

  /** `generate_peak_gene_links` */
  method GeneratePeakGeneLinks(genes: seq<Name>, n: int) returns (r: Option<seq<Link>>)
    ensures r.None? <==> n > 0 && genes == []
    ensures r.Some? ==> (|r.value| == Max(n, 0) &&
      forall l :: l in r.value ==>
        IsDrawnPeak(l.cre) && l.gene in genes && 0.1 <= l.score <= 1.0 && 0.001 <= l.pval <= 0.1)
  {
    if n > 0 && genes == [] {
      return None;
    }
    var links: seq<Link> := [];
    for i := 0 to Max(n, 0)
      invariant |links| == i
      invariant forall l :: l in links ==>
        IsDrawnPeak(l.cre) && l.gene in genes && 0.1 <= l.score <= 1.0 && 0.001 <= l.pval <= 0.1
    {
      var peak := DrawPeak();
      assert genes[0] in genes;
      var gene :| gene in genes;
      var raw := Uniform(0.1, 1.0);
      Round3Within(raw, 100, 1000);
      var pval := Uniform(0.001, 0.1);
      links := links + [Link(peak, gene, Round3(raw), pval)];
    }
    r := Some(links);
  }

  /** `generate_tf_binding` */
  method GenerateTfBinding(tfs: seq<Name>, n: int) returns (r: Option<seq<Binding>>)
    ensures r.None? <==> n > 0 && tfs == []
    ensures r.Some? ==> (|r.value| == Max(n, 0) &&
      forall b :: b in r.value ==> IsDrawnPeak(b.cre) && b.tf in tfs && 1.0 <= b.score <= 15.0)
  {
    if n > 0 && tfs == [] {
      return None;
    }
    var binding: seq<Binding> := [];
    for i := 0 to Max(n, 0)
      invariant |binding| == i
      invariant forall b :: b in binding ==> IsDrawnPeak(b.cre) && b.tf in tfs && 1.0 <= b.score <= 15.0
    {
      var peak := DrawPeak();
      assert tfs[0] in tfs;
      var tf :| tf in tfs;
      var raw := Uniform(1.0, 15.0);
      Round2Within(raw, 100, 1500);
      binding := binding + [Binding(peak, tf, Round2(raw))];
    }
    r := Some(binding);
  }

  // ---------------------------------------------------------------------
  // Writing the four files

  /** `show(x)` is the text of `str(x)` for a Python float. */
  type Show = real -> string

  function GrnRecord(e: Edge, show: Show): seq<string> { [e.source, e.target, show(e.score), show(e.pval)] }
  function RankRecord(e: Edge, show: Show): seq<string> { [e.source, e.target, show(e.score)] }
  function LinkRecord(l: Link, show: Show): seq<string> { [l.cre, l.gene, show(l.score), show(l.pval)] }
  function BindingRecord(b: Binding, show: Show): seq<string> { [b.cre, b.tf, show(b.score)] }

  /** One `with open(...)` block of `main`: the header, then one line per record, in order. */
  method WriteTable(header: seq<string>, records: seq<seq<string>>, sep: char) returns (lines: seq<string>)
    ensures |lines| == |records| + 1 && lines[0] == Line(header, sep)
    ensures forall i :: 0 <= i < |records| ==> lines[i + 1] == Line(records[i], sep)
  {
    lines := [Line(header, sep)];
    for i := 0 to |records|
      invariant |lines| == i + 1 && lines[0] == Line(header, sep)
      invariant forall j :: 0 <= j < i ==> lines[j + 1] == Line(records[j], sep)
    {
      lines := lines + [Line(records[i], sep)];
    }
  }

  /** With names and float texts free of `,` and tabs, the i-th data line of
      the ranking file reads back as the first three fields of the i-th data
      line of the GRN file. */
  lemma RankingLineMatchesGrnLine(e: Edge, show: Show)
    requires ',' !in e.source && ',' !in e.target && ',' !in show(e.score) && ',' !in show(e.pval)
    requires '\t' !in e.source && '\t' !in e.target && '\t' !in show(e.score)
    ensures Fields(Line(GrnRecord(e, show), ','), ',') == GrnRecord(e, show)
    ensures Fields(Line(RankRecord(e, show), '\t'), '\t') == GrnRecord(e, show)[..3]
  {
    LineRoundTrip(GrnRecord(e, show), ',');
    LineRoundTrip(RankRecord(e, show), '\t');
  }

  function GrnRecords(rows: seq<Edge>, show: Show): seq<seq<string>>
  {
    seq(|rows|, i requires 0 <= i < |rows| => GrnRecord(rows[i], show))
  }

  function RankRecords(rows: seq<Edge>, show: Show): seq<seq<string>>
  {
    seq(|rows|, i requires 0 <= i < |rows| => RankRecord(rows[i], show))
  }

  function LinkRecords(rows: seq<Link>, show: Show): seq<seq<string>>
  {
    seq(|rows|, i requires 0 <= i < |rows| => LinkRecord(rows[i], show))
  }

  function BindingRecords(rows: seq<Binding>, show: Show): seq<seq<string>>
  {
    seq(|rows|, i requires 0 <= i < |rows| => BindingRecord(rows[i], show))
  }

  /** A written file: its name and its lines. */
  datatype File = File(name: string, lines: seq<string>)

  /** The GRN file of the interaction list. */
  method WriteGrn(tag: string, interactions: seq<Edge>, show: Show) returns (f: File)
    ensures f.name == GrnFileName(tag) && |f.lines| == |interactions| + 1
    ensures f.lines[0] == "source,target,score,pval\n"
    ensures forall i :: 0 <= i < |interactions| ==> f.lines[i + 1] == Line(GrnRecord(interactions[i], show), ',')
  {
    var records := GrnRecords(interactions, show);
    assert |records| == |interactions| && forall i :: 0 <= i < |interactions| ==> records[i] == GrnRecord(interactions[i], show);
    var lines := WriteTable(["source", "target", "score", "pval"], records, ',');
    f := File(GrnFileName(tag), lines);
  }

  /** The ranking file of the interaction list. */
  method WriteRanking(tag: string, interactions: seq<Edge>, show: Show) returns (f: File)
    ensures f.name == RankingFileName(tag) && |f.lines| == |interactions| + 1
    ensures f.lines[0] == "source\ttarget\tscore\n"
    ensures forall i :: 0 <= i < |interactions| ==> f.lines[i + 1] == Line(RankRecord(interactions[i], show), '\t')
  {
    var records := RankRecords(interactions, show);
    assert |records| == |interactions| && forall i :: 0 <= i < |interactions| ==> records[i] == RankRecord(interactions[i], show);
    var lines := WriteTable(["source", "target", "score"], records, '\t');
    f := File(RankingFileName(tag), lines);
  }

  /** The peak-gene file of the drawn links. */
  method WritePeakGene(tag: string, links: seq<Link>, show: Show) returns (f: File)
    ensures f.name == PeakGeneFileName(tag) && |f.lines| == |links| + 1
    ensures f.lines[0] == "cre,gene,score,pval\n"
    ensures forall i :: 0 <= i < |links| ==> f.lines[i + 1] == Line(LinkRecord(links[i], show), ',')
  {
    var records := LinkRecords(links, show);
    assert |records| == |links| && forall i :: 0 <= i < |links| ==> records[i] == LinkRecord(links[i], show);
    var lines := WriteTable(["cre", "gene", "score", "pval"], records, ',');
    f := File(PeakGeneFileName(tag), lines);
  }

  /** The TF-binding file of the drawn binding rows. */
  method WriteBinding(tag: string, binding: seq<Binding>, show: Show) returns (f: File)
    ensures f.name == BindingFileName(tag) && |f.lines| == |binding| + 1
    ensures f.lines[0] == "cre,tf,score\n"
    ensures forall i :: 0 <= i < |binding| ==> f.lines[i + 1] == Line(BindingRecord(binding[i], show), ',')
  {
    var records := BindingRecords(binding, show);
    assert |records| == |binding| && forall i :: 0 <= i < |binding| ==> records[i] == BindingRecord(binding[i], show);
    var lines := WriteTable(["cre", "tf", "score"], records, ',');
    f := File(BindingFileName(tag), lines);
  }

  /** The peak-gene links and TF binding rows drawn from non-empty pools,
      and their two files. */
  method LinksAndBinding(tag: string, tfs: seq<Name>, genes: seq<Name>, show: Show)
    returns (links: seq<Link>, binding: seq<Binding>, peakGene: File, tfBinding: File)
    requires tfs != [] && genes != []
    ensures |links| == DefaultLinks && |binding| == DefaultBindings
    ensures peakGene.name == PeakGeneFileName(tag) && tfBinding.name == BindingFileName(tag)
    ensures |peakGene.lines| == DefaultLinks + 1 && |tfBinding.lines| == DefaultBindings + 1
    ensures peakGene.lines[0] == "cre,gene,score,pval\n" && tfBinding.lines[0] == "cre,tf,score\n"
    ensures forall i :: 0 <= i < |links| ==> peakGene.lines[i + 1] == Line(LinkRecord(links[i], show), ',')
    ensures forall i :: 0 <= i < |binding| ==> tfBinding.lines[i + 1] == Line(BindingRecord(binding[i], show), ',')
    ensures forall l :: l in links ==>
              IsDrawnPeak(l.cre) && l.gene in genes && 0.1 <= l.score <= 1.0 && 0.001 <= l.pval <= 0.1
    ensures forall b :: b in binding ==> IsDrawnPeak(b.cre) && b.tf in tfs && 1.0 <= b.score <= 15.0
  {
    var drawnLinks := GeneratePeakGeneLinks(genes, DefaultLinks);
    var drawnBinding := GenerateTfBinding(tfs, DefaultBindings);
    links, binding := drawnLinks.value, drawnBinding.value;
    peakGene := WritePeakGene(tag, links, show);
    tfBinding := WriteBinding(tag, binding, show);
  }

  /** `main` after argument parsing: pools, interactions, then the four
      files in the order the script writes them; `None` when a draw from an
      empty pool raises. Alongside, the drawn tables and the gene pool of
      the run (the first 56 fixed genes, then synthetic names). */
  method RunFallback(tag: string, nTfs: int, nGenes: int, show: Show)
    returns (files: Option<seq<File>>, interactions: seq<Edge>, links: seq<Link>, binding: seq<Binding>,
             genes: seq<Name>)
    ensures files.None? <==> Prefix(TfPool(), nTfs) == [] || nGenes == 0 || nGenes <= -256
    ensures |genes| == (if nGenes >= 0 then Min(nGenes, 256) else Max(0, 256 + nGenes))
    ensures forall i :: 0 <= i < |genes| && i < |FixedGenes()| ==> genes[i] == FixedGenes()[i]
    ensures forall i :: |FixedGenes()| <= i < |genes| ==> IsSyntheticName(genes[i])
    ensures files.Some? ==>
      var fs := files.value;
      |fs| == 4 &&
      fs[0].name == GrnFileName(tag) && fs[1].name == RankingFileName(tag) &&
      fs[2].name == PeakGeneFileName(tag) && fs[3].name == BindingFileName(tag) &&
      |interactions| <= DefaultInteractions &&
      |fs[0].lines| == |fs[1].lines| == |interactions| + 1 &&
      fs[0].lines[0] == "source,target,score,pval\n" && fs[1].lines[0] == "source\ttarget\tscore\n" &&
      (forall i :: 0 <= i < |interactions| ==>
         fs[0].lines[i + 1] == Line(GrnRecord(interactions[i], show), ',') &&
         fs[1].lines[i + 1] == Line(RankRecord(interactions[i], show), '\t'))
    ensures files.Some? ==>
      var fs := files.value;
      |fs| == 4 &&
      |links| == DefaultLinks && |binding| == DefaultBindings &&
      |fs[2].lines| == DefaultLinks + 1 && |fs[3].lines| == DefaultBindings + 1 &&
      fs[2].lines[0] == "cre,gene,score,pval\n" && fs[3].lines[0] == "cre,tf,score\n" &&
      (forall i :: 0 <= i < |links| ==> fs[2].lines[i + 1] == Line(LinkRecord(links[i], show), ',')) &&
      (forall i :: 0 <= i < |binding| ==> fs[3].lines[i + 1] == Line(BindingRecord(binding[i], show), ',')) &&
      (forall l :: l in links ==>
         IsDrawnPeak(l.cre) && l.gene in genes && 0.1 <= l.score <= 1.0 && 0.001 <= l.pval <= 0.1) &&
      (forall b :: b in binding ==>
         IsDrawnPeak(b.cre) && b.tf in Prefix(TfPool(), nTfs) && 1.0 <= b.score <= 15.0)
    ensures files.Some? ==>
      SortedDesc(interactions, Score) &&
      (forall i, j :: 0 <= i < j < |interactions| ==> Key(interactions[i]) != Key(interactions[j])) &&
      (forall e :: e in interactions ==>
         e.source in Prefix(TfPool(), nTfs) && e.target in genes &&
         0.3 <= e.score <= 0.95 && 0.001 <= e.pval <= 0.1)
  {
    var allTfs, allGenes := GetTfGeneLists();
    var tfs := Prefix(allTfs, nTfs);
    genes := Prefix(allGenes, nGenes);
    assert forall i :: 0 <= i < |genes| ==> genes[i] == allGenes[i];
    ghost var drawn, raws;
    var generated;
    generated, drawn, raws := GenerateRealisticInteractions(tfs, genes, DefaultInteractions);
    if generated.None? {
      return None, [], [], [], genes;
    }
    interactions := generated.value;
    var grnFile := WriteGrn(tag, interactions, show);
    var rankFile := WriteRanking(tag, interactions, show);
    var linkFile, bindingFile;
    links, binding, linkFile, bindingFile := LinksAndBinding(tag, tfs, genes, show);
    files := Some([grnFile, rankFile, linkFile, bindingFile]);
  }
}
