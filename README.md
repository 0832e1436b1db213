# Custom_GRETA preprocessing scripts, modelled in Dafny

Custom_GRETA is a set of preprocessing scripts for single-cell multiome data
(paired RNA and chromatin accessibility), feeding a gene-regulatory-network
(GRN) inference pipeline. The scripts mostly call mudata, scanpy and pandas.
Between those calls sits list, table and map logic, and that logic is
modelled here:

- **Correlation GRN** (`CorrelationGrn`, `GrnTables`): the regulator and
  target pools, the nested `(tf, gene)` test loop with its filters, the sort
  and the cap at 10 000 edges, the 5-row placeholder and the 2-row dummy, the
  ranking projection and the output file names. `pearsonr` and the mean
  expression are oracles. `corr(tf, gene)` is `None` when the test raises.
- **Synthetic fallback** (`FallbackGrn`): the fixed pools and their
  truncation, random draws as nondeterministic choices in the drawn ranges,
  Python's half-to-even `round`, the p-value tier rule, the dedup after a
  stable descending sort, peak strings `chrom:start-end`, and the four
  written files as line sequences.
- **Barcode prefixing** (`BarcodePrefix`): the `celltype` default, the
  exported cell table, the `c0h_` prefix on every cell index, and the
  per-line rewrite of the fragment file.
- **Annotation merge** (`AnnotateMultiome`, `Multiome`): the `RNA`/`ATAC`
  rename, the merge of the whitelisted annotation columns with an
  `'Unknown'` default, the `celltype` alias, the `batch` default and the
  `counts` layers.
- **Case extraction** (`ExtractCase`):
  - the rename and the `;`-separated cell-type filter;
  - the nonzero-count filters on features and cells, with counts also
    defined as set cardinalities;
  - `filter_hvg`: top-`n` by scanpy's rank, taken as an oracle, plus the
    removal of the statistics columns;
  - the `batch` defaulting and the intersection of the two modalities'
    cells.

Shared pieces live in `Common`, `Text` and `Sorting`:
- `Common`: prefixes with Python slice semantics, filters and masks.
- `Text`: `split`/`join`, `strip`, decimal text.
- `Sorting`: a stable descending sort, proved to be a sorted permutation.

A MuData container is the class `Multiome.MuData`, with fields `obs` and
`mod`; the scripts' methods update those fields. A modality is a value held
by the `mod` dictionary. Pandas' `NaN` in a cell-table column is `None`. A
`KeyError`, an `IndexError` from `random.choice([])`, or the `ValueError` of
columns of different lengths is a `None` or `false` result.

Three facts about the code that the model keeps:
- the fallback's fixed gene list has 56 names;
- the bounds of `random.uniform` are treated as closed, so a draw may equal
  either end;
- the no-edge placeholder table of the extraction script raises
  `ValueError` on columns of different lengths unless there are at least 5
  regulators and 5 targets, or exactly 1 regulator and fewer than 5 targets
  (`CorrelationGrn.PlaceholderShape`).

## Model

| member | source | states |
|---|---|---|
| CorrelationGrn.TfList | workflow/scripts/custom/extract_grn_from_multiome.py:45-55 | the TF list has 40 names |
| CorrelationGrn.PresentTfsAreTheListedOnesInData | workflow/scripts/custom/extract_grn_from_multiome.py:87 | the present TFs are exactly the listed TFs that occur among the gene names, in list order (a subsequence of the list) |
| CorrelationGrn.TargetsClamp | workflow/scripts/custom/extract_grn_from_multiome.py:88 | the target pool is the first `min(n_genes, len)` gene names; asking for more keeps them all |
| CorrelationGrn.FallbackRegulatorsAreTopExpressed | workflow/scripts/custom/extract_grn_from_multiome.py:93-97 | with no TF present, the regulators are `min(50, len)` gene names in non-increasing mean expression, and no gene left out is more expressed than a chosen one |
| CorrelationGrn.CorrelationEdges | workflow/scripts/custom/extract_grn_from_multiome.py:99-124 | the nested loop with its `continue`s collects exactly the edges of the pairwise tests, regulator by regulator, in target order |
| CorrelationGrn.RowEdgesMembers | workflow/scripts/custom/extract_grn_from_multiome.py:107-124 | an edge is in one regulator's row iff its target is in the pool, differs from the regulator, is in the table, the test did not raise, and it passed both cut-offs with score `abs(corr)` |
| CorrelationGrn.PairEdgesMembers | workflow/scripts/custom/extract_grn_from_multiome.py:101-124 | an edge is collected iff its source is a regulator in the table and its target a different pool gene in the table whose test did not raise, with `abs(corr) >= threshold`, `pval < 0.05` and score `abs(corr)` |
| CorrelationGrn.ComputeCorrelationGrn | workflow/scripts/custom/extract_grn_from_multiome.py:79-141 | the method computes the specification function `Grn` (pools, loop, sort and cap, or placeholder) |
| CorrelationGrn.GrnOfSurvivingEdges | workflow/scripts/custom/extract_grn_from_multiome.py:126-130 | with edges, the table has `min(10 000, edges)` rows, sorted by score, largest first, each surviving edge kept at most as often as it was emitted; each row is an emitted edge (no self loop, both ends in the table, thresholds met); no emitted edge left out outscores a kept one |
| CorrelationGrn.GrnWithoutSurvivingEdges | workflow/scripts/custom/extract_grn_from_multiome.py:131-139 | with no edge, the result exists iff there are at least 5 regulators and 5 targets, or exactly 1 regulator and fewer than 5 targets; it then has `min(5, regulators)` rows pairing the first regulators with the first targets (or `Gene1`) and the scores 0.5, 0.4, … and p-values 0.01, 0.02, … |
| CorrelationGrn.PlaceholderShape | workflow/scripts/custom/extract_grn_from_multiome.py:134-139 | the placeholder exists iff there are at least 5 regulators and 5 targets, or exactly 1 regulator and fewer than 5 targets (otherwise pandas raises on unequal columns); its rows are the first regulators, the first targets or `Gene1`, and the fixed scores and p-values |
| CorrelationGrn.DummyIsNoPlaceholder | workflow/scripts/custom/extract_grn_from_multiome.py:196-201 | the 2-row extraction-failure dummy is never the placeholder table |
| CorrelationGrn.WriteOutputsShape | workflow/scripts/custom/extract_grn_from_multiome.py:143-146 | the ranking table is the GRN table without `pval` (putting the p-values back gives the GRN table), and the four files have four distinct names |
| CorrelationGrn.ExtractionFailureWritesDummy | workflow/scripts/custom/extract_grn_from_multiome.py:189-209 | a failed extraction always completes: the GRN file holds the two rows `TF1→Gene1 (0.5, 0.01)` and `TF2→Gene2 (0.4, 0.02)`, the ranking file the same rows without `pval`, and the peak-gene and binding files their three fixed rows, each under its method-templated name |
| GrnTables.Ranking | workflow/scripts/custom/extract_grn_from_multiome.py:143-146 | one ranking row per GRN row, in order, with its source, target and score |
| GrnTables.RankingDropsOnlyPval | workflow/scripts/custom/extract_grn_from_multiome.py:145 | the projection loses only the `pval` column |
| GrnTables.FileNamesDistinct | workflow/scripts/custom/extract_grn_from_multiome.py:162-228 | the GRN, ranking, peak-gene and binding file names of one method label are pairwise distinct |
| GrnTables.GrnFileNameInjective | workflow/scripts/custom/extract_grn_from_multiome.py:221 | the GRN file name determines the method label |
| FallbackGrn.TfPool | workflow/scripts/custom/simple_grn_fallback.py:22-30 | the TF pool has 56 names |
| FallbackGrn.FixedGenes | workflow/scripts/custom/simple_grn_fallback.py:32-40 | the fixed gene list has 56 names |
| FallbackGrn.TfPoolExtendsTfList | workflow/scripts/custom/simple_grn_fallback.py:22-27 | the first 40 fallback TFs are the extraction script's TF list |
| FallbackGrn.GetTfGeneLists | workflow/scripts/custom/simple_grn_fallback.py:20-47 | the TFs are the fixed pool; the genes are the 56 fixed names followed by 200 synthetic `prefix + 5-digit number` names |
| FallbackGrn.PoolsArePrefixes | workflow/scripts/custom/simple_grn_fallback.py:144-146 | the truncated pools are prefixes of the lists, of length `min(n, 56)` and `min(n, 256)` for non-negative `n` |
| FallbackGrn.Uniform | workflow/scripts/custom/simple_grn_fallback.py:59 | a uniform draw lies in the closed range |
| FallbackGrn.RoundHalfEvenBounds | workflow/scripts/custom/simple_grn_fallback.py:74 | rounding to the nearest integer (ties to even) stays within integer bounds |
| FallbackGrn.Round3Within | workflow/scripts/custom/simple_grn_fallback.py:74 | `round(x, 3)` stays within bounds that have at most three decimals |
| FallbackGrn.Round2Within | workflow/scripts/custom/simple_grn_fallback.py:123 | `round(x, 2)` stays within bounds that have at most two decimals |
| FallbackGrn.PvalRange | workflow/scripts/custom/simple_grn_fallback.py:64-69 | every tier's p-value range is a non-empty range within [0.001, 0.1] |
| FallbackGrn.PvalRangeMonotone | workflow/scripts/custom/simple_grn_fallback.py:64-69 | a higher score never gets a higher p-value range |
| FallbackGrn.TierUsesUnroundedScore | workflow/scripts/custom/simple_grn_fallback.py:64-74 | an example, not a general property (the general rule is `Drawn`, with its bounds in `DrawnBounds`): the tier comes from the unrounded score, so a raw 0.6004 rounds to 0.6 but keeps the top tier's p-value range |
| FallbackGrn.DrawInteractions | workflow/scripts/custom/simple_grn_fallback.py:51-76 | `n` draws, each from the pools, with score `round(raw, 3)` for a raw score in [0.3, 0.95] and a p-value in the raw score's tier; `None` iff a draw from an empty pool is needed |
| FallbackGrn.DrawnBounds | workflow/scripts/custom/simple_grn_fallback.py:58-74 | a drawn interaction has score in [0.3, 0.95] and p-value in [0.001, 0.1] |
| FallbackGrn.Deduplicate | workflow/scripts/custom/simple_grn_fallback.py:79-85 | the loop with its `seen` set computes `Dedup`: each row whose key has not occurred earlier |
| FallbackGrn.KeysAppend | workflow/scripts/custom/simple_grn_fallback.py:82-84 | appending a row adds exactly its key to the set of keys |
| FallbackGrn.DedupProperties | workflow/scripts/custom/simple_grn_fallback.py:79-85 | the dedup output is a subsequence of its input with the same set of keys and no key twice |
| FallbackGrn.DedupKeepsFirstOccurrence | workflow/scripts/custom/simple_grn_fallback.py:81-85 | each kept row is the first row of its key in the input |
| FallbackGrn.DedupKeepsBestScore | workflow/scripts/custom/simple_grn_fallback.py:81-85 | on input sorted by score, every key's kept row has that key's largest score |
| FallbackGrn.GenerateRealisticInteractions | workflow/scripts/custom/simple_grn_fallback.py:49-87 | the result is the first `n` rows of the dedup of the stably sorted draws; it is sorted, has no key twice, and every row is from the pools with bounded score and p-value; `None` iff a pool is empty |
| FallbackGrn.SortedRowBounds | workflow/scripts/custom/simple_grn_fallback.py:81 | each row of the sorted draws is a drawn row, from the pools and within the score and p-value bounds |
| FallbackGrn.TruncationKeepsAll | workflow/scripts/custom/simple_grn_fallback.py:87 | `[:n_interactions]` never drops a row, since there are only `n` draws |
| FallbackGrn.GeneratedInteractionsProperties | workflow/scripts/custom/simple_grn_fallback.py:78-87 | no more rows than draws; a subsequence of the sorted draws; sorted; no key twice; bounded; every drawn pair is matched by a kept row with its key and at least its score |
| FallbackGrn.Chromosomes | workflow/scripts/custom/simple_grn_fallback.py:91 | there are 24 chromosome names |
| FallbackGrn.PeakRoundTrip | workflow/scripts/custom/simple_grn_fallback.py:98 | a peak string `chrom:start-end` reads back as its chromosome and both positions |
| FallbackGrn.ChromosomeNamesHaveNoSeparators | workflow/scripts/custom/simple_grn_fallback.py:91 | no chromosome name contains `:` or `-` |
| FallbackGrn.DrawPeak | workflow/scripts/custom/simple_grn_fallback.py:95-98 | a drawn peak parses as a listed chromosome, a start in [1 000 000, 200 000 000] and a length in [500, 2000] |
| FallbackGrn.GeneratePeakGeneLinks | workflow/scripts/custom/simple_grn_fallback.py:89-110 | `n` links, each with a drawn peak, a pool gene, score in [0.1, 1.0] and p-value in [0.001, 0.1]; `None` iff the gene pool is empty and `n > 0` |
| FallbackGrn.GenerateTfBinding | workflow/scripts/custom/simple_grn_fallback.py:112-131 | `n` binding sites, each with a drawn peak, a pool TF and score in [1.0, 15.0]; `None` iff the TF pool is empty and `n > 0` |
| FallbackGrn.WriteTable | workflow/scripts/custom/simple_grn_fallback.py:155-158 | the header line, then one joined line per record, in order |
| FallbackGrn.RankingLineMatchesGrnLine | workflow/scripts/custom/simple_grn_fallback.py:158-166 | when no text contains a separator, a GRN line reads back as its four fields, and the ranking line as the first three of them |
| FallbackGrn.WriteGrn | workflow/scripts/custom/simple_grn_fallback.py:153-158 | the GRN file has its name and header, then the i-th interaction's comma-joined fields on line i + 1 |
| FallbackGrn.WriteRanking | workflow/scripts/custom/simple_grn_fallback.py:161-166 | the ranking file has its name and header, then the i-th interaction's tab-joined source, target and score on line i + 1 |
| FallbackGrn.WritePeakGene | workflow/scripts/custom/simple_grn_fallback.py:170-176 | the peak-gene file has its name and header, then the i-th link's joined fields on line i + 1 |
| FallbackGrn.LinksAndBinding | workflow/scripts/custom/simple_grn_fallback.py:168-185 | on the non-empty pools `main` reaches these lines with, 500 links and 300 binding rows within their ranges and from the pools, and both files line by line |
| FallbackGrn.WriteBinding | workflow/scripts/custom/simple_grn_fallback.py:179-185 | the TF-binding file has its name and header, then the i-th binding row's joined fields on line i + 1 |
| FallbackGrn.RunFallback | workflow/scripts/custom/simple_grn_fallback.py:133-185 | fails iff a truncated pool is empty; the gene pool is the first `n_genes` of the 56 fixed genes and 200 synthetic names; otherwise four named files: GRN and ranking with one line per interaction (sorted, no key twice, from the truncated pools, bounded), peak-gene with one line per each of 500 links (drawn peak, gene from the pool, bounded), TF-binding with one line per each of 300 rows (drawn peak, TF from the pool, bounded) |
| Text.JoinSplit | workflow/scripts/dts/mycustom/mycustom.py:50-53 | joining the split of a line gives the line back |
| Text.SplitJoin | workflow/scripts/dts/mycustom/mycustom.py:50-53 | splitting the join of separator-free fields gives the fields back |
| Text.LineRoundTrip | workflow/scripts/custom/simple_grn_fallback.py:158 | a written line without separators in its fields reads back as its fields |
| Text.StripLeftIsSuffix | workflow/scripts/dts/mycustom/mycustom.py:50 | stripping leading whitespace leaves a suffix of the line |
| Text.StripRightIsPrefix | workflow/scripts/dts/mycustom/mycustom.py:50 | stripping trailing whitespace leaves a prefix of the line |
| Text.DecimalRoundTrip | workflow/scripts/custom/simple_grn_fallback.py:98 | the decimal text of a number reads back as that number |
| Sorting.SortDesc | workflow/scripts/custom/simple_grn_fallback.py:81 | `sorted(..., reverse=True)` gives a permutation sorted by key, largest first |
| Sorting.SortedPrefixIsTop | workflow/scripts/custom/extract_grn_from_multiome.py:96-97 | the first `k` rows of the sorted list are the top `k`: an item left out has a key no larger than any kept one |
| Sorting.SubsequenceOfSorted | workflow/scripts/custom/simple_grn_fallback.py:81-85 | a subsequence of a sorted list is sorted |
| Common.Prefix | workflow/scripts/custom/simple_grn_fallback.py:145-146 | Python slicing `s[:n]` has length `min(n, len)`, or `max(0, len + n)` for negative `n` |
| Common.Filter | workflow/scripts/custom/extract_grn_from_multiome.py:87 | a list comprehension keeps exactly the elements that satisfy its condition |
| Common.FilterByMaskMembers | workflow/scripts/custom/extract_case.py:68-75 | boolean-mask indexing keeps exactly the elements whose mask entry is true |
| Multiome.RenameSpec | workflow/scripts/custom/annotate_custom_multiome.py:28-31 | with both `RNA` and `ATAC`, they move to `rna` and `atac` and every other modality is kept; otherwise nothing changes |
| Multiome.RenameIdempotent | workflow/scripts/custom/extract_case.py:37-40 | renaming an already renamed dictionary changes nothing |
| Multiome.EnsureCounts | workflow/scripts/custom/annotate_custom_multiome.py:67-70 | a `counts` layer exists afterwards; an existing one is kept; a new one is a copy of `X`; the other layers are kept |
| Multiome.EnsureCountsIdempotent | workflow/scripts/custom/annotate_custom_multiome.py:68-70 | creating the layer twice is creating it once |
| Multiome.WithDefault | workflow/scripts/dts/mycustom/mycustom.py:27-29 | the column exists afterwards; if it was absent it holds the value for every cell; every existing column is kept |
| Multiome.MuData.StandardizeModalityNames | workflow/scripts/custom/annotate_custom_multiome.py:28-31 | the `pop`-and-assign updates give `Renamed` of the old dictionary |
| Multiome.MuData.EnsureCountsLayers | workflow/scripts/custom/annotate_custom_multiome.py:67-70 | the loop over `rna` and `atac` applies `EnsureCounts` to both |
| Multiome.MuData.AddDefaultColumn | workflow/scripts/custom/annotate_custom_multiome.py:56-58 | the cell table becomes `WithDefault` of the old one; the modalities are unchanged |
| AnnotateMultiome.AnnotatedSpec | workflow/scripts/custom/annotate_custom_multiome.py:44-53 | each copied whitelisted column holds the annotation's value for annotated barcodes and `'Unknown'` elsewhere; `celltype` equals `Majority_Celltype` when that was copied; other columns are unchanged |
| AnnotateMultiome.AnnotatedWellFormed | workflow/scripts/custom/annotate_custom_multiome.py:44-50 | the merge keeps one value per cell in every column |
| AnnotateMultiome.AddAnnotations | workflow/scripts/custom/annotate_custom_multiome.py:44-53 | the loop over the annotation columns leaves the table `Annotated` specifies |
| AnnotateMultiome.Annotate | workflow/scripts/custom/annotate_custom_multiome.py:28-70 | fails iff `rna` or `atac` is missing after the rename (`KeyError`), or a whitelisted column is present and a barcode that is also a cell name repeats in the annotation index (`ValueError` at line 50); otherwise merge, `batch` default, then `counts` layers |
| AnnotateMultiome.RepeatsSharedBarcodeCount | workflow/scripts/custom/annotate_custom_multiome.py:48-50 | the failure condition, two positions of the annotation index holding the same cell name, holds iff some cell name occurs more than once in the index |
| AnnotateMultiome.AnnotatedBatch | workflow/scripts/custom/annotate_custom_multiome.py:55-58 | a `batch` column always exists afterwards; it is defaulted to `'Batch1'` throughout exactly when neither the data nor the annotations supplied one, and otherwise kept as the merge left it |
| BarcodePrefix.PrefixAll | workflow/scripts/dts/mycustom/mycustom.py:37 | same length and order; each new name is `c0h_` followed by the old one |
| BarcodePrefix.UnprefixedPrefixAll | workflow/scripts/dts/mycustom/mycustom.py:37 | removing the prefix gives the old index back |
| BarcodePrefix.PrefixAllDistinct | workflow/scripts/dts/mycustom/mycustom.py:37 | the new names are distinct iff the old ones were |
| BarcodePrefix.ExportTable | workflow/scripts/dts/mycustom/mycustom.py:32-33 | the export exists iff `batch` and `celltype` are columns; it has exactly those two columns and the prefixed index |
| BarcodePrefix.ExportAfterDefaultCelltype | workflow/scripts/dts/mycustom/mycustom.py:27-32 | after the `celltype` default, the export fails iff `batch` is missing |
| BarcodePrefix.RewriteLineFields | workflow/scripts/dts/mycustom/mycustom.py:50-53 | the output line ends in `\n`; read back, it has the stripped line's field count; only field 3 changes, and it gains `c0h_` |
| BarcodePrefix.ShortLineUnchanged | workflow/scripts/dts/mycustom/mycustom.py:50-53 | a line with fewer than four fields comes out as its stripped text plus `\n` |
| BarcodePrefix.RewriteOne | workflow/scripts/dts/mycustom/mycustom.py:50-53 | the in-place `parts[3]` update and the join give `RewriteLine` |
| BarcodePrefix.RewriteFragments | workflow/scripts/dts/mycustom/mycustom.py:48-53 | one output line per input line, in order, each the rewrite of its input |
| BarcodePrefix.PrefixCellNames | workflow/scripts/dts/mycustom/mycustom.py:37-42 | the cell index gets the prefix; every modality gets the new index, or the run stops at pandas' length mismatch, reported iff some modality's length differs |
| BarcodePrefix.Run | workflow/scripts/dts/mycustom/mycustom.py:26-53 | the exported table is the cell table with a default `celltype`; on success the cell table is exactly that table on the prefixed index, every modality is on the prefixed index, no modality is added or removed, and each fragment line is rewritten in place; when the export fails, the cell table only gains the `celltype` default and the modalities are untouched; when a modality's cell count differs, the cell table is still the prefixed one, no modality is added or removed, and each modality is either unchanged or on the prefixed index |
| ExtractCase.SelectFeatures | workflow/scripts/custom/extract_case.py:68-75 | feature selection keeps the cell table, the feature-table columns and the layer names, and only original features |
| ExtractCase.SelectFeaturesWellFormed | workflow/scripts/custom/extract_case.py:68-75 | feature selection keeps every matrix cells by features |
| ExtractCase.SelectCells | workflow/scripts/custom/extract_case.py:131-138 | a kept cell is exactly one whose mask entry is true; features and column names are kept |
| ExtractCase.SelectCellsWellFormed | workflow/scripts/custom/extract_case.py:131-138 | cell selection keeps every column and matrix consistent with the new cell count |
| ExtractCase.NonzeroCountIsCardinality | workflow/scripts/custom/extract_case.py:133 | a cell's nonzero count is the number of features holding a nonzero value |
| ExtractCase.ColumnNonzeroIsCardinality | workflow/scripts/custom/extract_case.py:70 | a feature's nonzero count is the number of cells holding a nonzero value in it |
| ExtractCase.ExpressedFeaturesSpec | workflow/scripts/custom/extract_case.py:67-75 | the kept features are exactly those nonzero in more than three cells |
| ExtractCase.ActiveCellsSpec | workflow/scripts/custom/extract_case.py:130-138 | the kept cells are exactly those with more than three nonzero values, and every kept row has more than three |
| ExtractCase.KeepNamed | workflow/scripts/custom/extract_case.py:57 | subsetting the container keeps exactly a modality's cells whose names are kept |
| ExtractCase.CelltypeStage | workflow/scripts/custom/extract_case.py:54-57 | the filter fails (`KeyError`) iff types are requested and there is no `celltype` column |
| ExtractCase.CelltypeStageSpec | workflow/scripts/custom/extract_case.py:54-57 | a cell stays iff it is in the modality and the cell table gives it one of the `;`-separated types |
| ExtractCase.CelltypeStageWellFormed | workflow/scripts/custom/extract_case.py:57 | the cell-type filter keeps both modalities consistent |
| ExtractCase.HvgOrderParts | workflow/scripts/custom/extract_case.py:97 | the rank order has one entry per feature: the ranked features by sorted rank, then the unranked ones (that it is a permutation is `HvgOrderPermutes`) |
| ExtractCase.HvgOrderPermutes | workflow/scripts/custom/extract_case.py:97 | sorting by rank with `NaN` last neither loses nor repeats a feature (same multiset) |
| ExtractCase.TopRankedSize | workflow/scripts/custom/extract_case.py:97 | `head(n)` gives `min(n, len)` features (fewer for negative `n`), all from the table |
| ExtractCase.TopRankedOrder | workflow/scripts/custom/extract_case.py:97 | the selected features come by ascending rank, ranked before unranked |
| ExtractCase.TopRankedIsTop | workflow/scripts/custom/extract_case.py:97 | a ranked feature left out ranks no better than any selected one, and every selected one is ranked |
| ExtractCase.FilterHvg | workflow/scripts/custom/extract_case.py:91-109 | returns the top `n` features, and removes the four statistics columns, whether scanpy added them or not |
| ExtractCase.KeepFeatures | workflow/scripts/custom/extract_case.py:125-126 | a feature stays iff it is among the selected names |
| ExtractCase.WithBatchSpec | workflow/scripts/custom/extract_case.py:111-118 | fails iff RNA's `batch` must be copied across different cell indexes and RNA repeats a cell name (pandas' reindex `ValueError`); otherwise both end with `batch`: without it in RNA, both become `'batch1'`; else RNA is untouched and ATAC keeps its own, or takes RNA's column as is on equal indexes, or RNA's label for the same cell name (`NaN` if RNA lacks the cell) |
| ExtractCase.SharedCellsSpec | workflow/scripts/custom/extract_case.py:140 | the shared cells are exactly those in both modalities, in ATAC's order, each once when ATAC's names are unique |
| ExtractCase.Reindexed | workflow/scripts/custom/extract_case.py:142-143 | the modality on the given cells, in that order, each with its original row |
| ExtractCase.Intersect | workflow/scripts/custom/extract_case.py:140-143 | fails iff either modality repeats a cell name (anndata's name lookup raises on a non-unique index); otherwise both modalities end on the shared cells, each once, in the same order |
| ExtractCase.IntersectSpec | workflow/scripts/custom/extract_case.py:140-143 | intersecting keeps exactly the cells of both, gives each cell the row of the cell of that name in its modality, and keeps all columns, layers and features |
| ExtractCase.TailStagesSpec | workflow/scripts/custom/extract_case.py:120-138 | HVG selection plus the cell filter keep columns and layers, keep only top-ranked features, drop the statistics columns, and keep only cells with more than three nonzero values |
| ExtractCase.FilteredPairSpec | workflow/scripts/custom/extract_case.py:36-138 | before the intersection: fails exactly on the `KeyError`s and on the `batch` copy's `ValueError`; `batch`, `counts`, no statistics columns, only original cells (of a wanted type when filtering) and features |
| ExtractCase.SelectCaseSpec | workflow/scripts/custom/extract_case.py:36-143 | the case fails iff a modality or the requested `celltype` column is missing, or the `batch` copy raises on repeated RNA cell names, or a filtered modality repeats a cell name at the intersection; otherwise both modalities are on the same cells, each cell once, each in both originals (and of a wanted type), with more than 3 nonzero values, `batch`, `counts` and no statistics columns |
| ExtractCase.SelectCelltypes | workflow/scripts/custom/extract_case.py:53-57 | fails (`KeyError`) iff types are requested and there is no `celltype` column; `all` keeps both modalities; otherwise a cell stays in a modality iff it is there and the cell table gives it one of the `;`-separated types |
| ExtractCase.FilterFeatures | workflow/scripts/custom/extract_case.py:65-82 | the feature filter and the `counts` layer compute `FeatureStage` |
| ExtractCase.AddBatch | workflow/scripts/custom/extract_case.py:111-118 | the `batch` statements compute `WithBatch`, and raise exactly when RNA's column must be reindexed over repeated cell names |
| ExtractCase.SelectHvg | workflow/scripts/custom/extract_case.py:120-126 | `filter_hvg` and the feature subset compute `HvgStage` |
| ExtractCase.ExtractCaseRun | workflow/scripts/custom/extract_case.py:36-143 | the script renames the modalities in place and returns `SelectCase` of the renamed container |

## Left out

- File and container I/O are not modelled: `read_h5mu`, `read_h5ad`, `read_csv`, `to_csv`, `write`, `open`, `os.makedirs` and the loader chain in `load_multiome_data`. Written files are modelled as line sequences. The annotation CSV is an `Annotation` value: its column names, its index as a sequence, and one value per barcode and column.
- `argparse`, `print`, logging and `sys.exit(1)` on load failure are not modelled. `extract_expression_data` is not modelled either: its `hasattr` probing is replaced by a gene-name list, or `None` when extraction raises.
- Floating point is replaced by exact reals:
  - `pearsonr` and the mean expression are oracles;
  - `round` is half-to-even on the exact value;
  - `str(float)` is an abstract `show` function.
- `FallbackGrn.GetTfGeneLists` fixes the form of the synthetic names but not their random values. Randomness and the 70/30 score mix are nondeterministic choices in the drawn ranges; no distribution is modelled.
- `CorrelationGrn.Grn` sorts stably. pandas' default sort is not stable, so tie order among equal scores is not captured. HVG ranks are also sorted stably.
- Map key order is not modelled. The `mod` dictionary is a Dafny map, so the order of its loop in `mycustom.py` decides only which modalities were updated before a length mismatch; `BarcodePrefix.PrefixCellNames` states that each modality is either old or updated.
- `ExtractCase.SelectCase` does not model `normalize_total` and `log1p`. `X` is left unchanged; these steps preserve which entries are zero, and only that matters to the later cell filter.
- `highly_variable_genes` is not modelled. Its rank per feature and the columns it adds are an input (`Hvg`), including its choice of `batch_key`.
- Dense conversion (`toarray`, `.A`) is not modelled. Nor are the `category` dtype, `remove_unused_categories`, `mdata.update()` and the `hasattr(..., 'obs')` probe, since every modality has a cell table here.
- `ExtractCase.CelltypeStage` assumes the `celltype` column has the `category` dtype, which the annotation script gives it (workflow/scripts/custom/annotate_custom_multiome.py:73-74); on any other dtype `.cat.remove_unused_categories()` raises `AttributeError`, a failure the model does not list.
- `AnnotateMultiome.Annotate` reports every repeat of a shared barcode in the annotation index as the `ValueError` at workflow/scripts/custom/annotate_custom_multiome.py:50. pandas skips the alignment when the selected cells carry exactly the labels of the selected annotation rows, which happens when the cell names repeat each shared barcode as often as the annotation does; that run succeeds in the source, but one value per barcode cannot say which annotation row goes to which cell, so the model does not capture it.
- `ExtractCase.ExtractCaseRun` does not re-create the output container. It returns the selected cells and both modalities (`Case`); the global cell table built by `mdata[obs_inter, :]` is not modelled.
- Modalities other than `rna` and `atac` are carried unchanged through the case selection.
- `workflow/scripts/dts/extract_case.py` is not part of this model: it holds library calls and stubbed steps.
- `workflow/scripts/custom/annotate_custom_multiome_simple.py` is not part of this model: it holds file copying and placeholder writing.
- Unicode normalisation and encodings are not modelled: strings are sequences of characters, `strip` removes the characters Python's `isspace` accepts, and `astype('U')` is the identity.
