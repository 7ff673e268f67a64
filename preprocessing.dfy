/**
  The housekeeping of scvelo/preprocessing/utils.py: `cleanup`, which
  deletes unneeded keys from selected tables of the dataset, the nested
  `filter_genes_u`, which narrows the genes by their unspliced counts, and
  the order and conditions under which `filter_and_normalize` runs its
  steps. The scanpy functions it calls are parameters; their effect on the
  expression matrix is recorded as a step, not computed.
 */
module Preprocessing {
  import opened Basics
  import opened Masks
  import opened Tables
  import opened Dataset

  // ---------------------------------------------------------------------------
  // cleanup (lines 26-62)
  // ---------------------------------------------------------------------------

  /**
    An argument given as one string or as a collection of strings. Python's
    `x in arg` is a substring test on a string and a membership test on a
    list or set.
   */
  datatype Selector = Text(text: string) | Items(items: seq<string>)

  /** Python's `x in arg`. */
  predicate Mentions(arg: Selector, x: string)
  {
    match arg
    case Text(s) => Contains(s, x)
    case Items(xs) => x in xs
  }

  /** The four tables `cleanup` can clear. */
  datatype Table = ObsTable | VarTable | UnsTable | LayersTable

  function TableName(t: Table): string
  {
    match t
    case ObsTable => "obs"
    case VarTable => "var"
    case UnsTable => "uns"
    case LayersTable => "layers"
  }

  function KeysOf(d: Data, t: Table): set<string>
  {
    match t
    case ObsTable => d.obs.Keys
    case VarTable => d.vars.Keys
    case UnsTable => d.uns.Keys
    case LayersTable => d.layers.Keys
  }

  /** Key `k` of table `t` is in both snapshots with the same entry. */
  predicate SameEntry(d: Data, r: Data, t: Table, k: string)
  {
    match t
    case ObsTable => k in d.obs && k in r.obs && r.obs[k] == d.obs[k]
    case VarTable => k in d.vars && k in r.vars && r.vars[k] == d.vars[k]
    case UnsTable => k in d.uns && k in r.uns && r.uns[k] == d.uns[k]
    case LayersTable => k in d.layers && k in r.layers && r.layers[k] == d.layers[k]
  }

  /** Lines 46, 50, 54, 58: table `t` is cleared when `clean` names it or names 'all'. */
  predicate Selected(clean: Selector, t: Table)
  {
    Mentions(clean, TableName(t)) || Mentions(clean, "all")
  }

  /** The entries of a table whose key `keep` mentions. */
  function Kept<V>(m: map<string, V>, keep: Selector): (r: map<string, V>)
    ensures r.Keys <= m.Keys
  {
    map k | k in m && Mentions(keep, k) :: m[k]
  }

  /**
    Lines 47-48 (and 51-52, 55-56, 59-60): over a snapshot of the table's
    keys, each key that `keep` does not mention is deleted from the table.
   */
  method DropUnkept<V>(table: map<string, V>, keep: Selector) returns (r: map<string, V>)
    ensures r == Kept(table, keep)
  {
    r := table;
    var keys := table.Keys;
    while keys != {}
      invariant keys <= table.Keys
      invariant forall k :: k in r <==> k in table && (k in keys || Mentions(keep, k))
      invariant forall k :: k in r ==> r[k] == table[k]
      decreases keys
    {
      var key :| key in keys;
      if !Mentions(keep, key) {
        r := r - {key};
      }
      keys := keys - {key};
    }
    assert r.Keys == Kept(table, keep).Keys;
  }

  /** `cleanup` as a value: each selected table keeps only the keys `keep` mentions. */
  function Cleaned(d: Data, clean: Selector, keep: Selector): (r: Data)
    requires WellFormed(d)
    ensures WellFormed(r) && r.nObs == d.nObs && r.varNames == d.varNames
  {
    Data(d.nObs, d.varNames,
         if Selected(clean, ObsTable) then Kept(d.obs, keep) else d.obs,
         if Selected(clean, VarTable) then Kept(d.vars, keep) else d.vars,
         if Selected(clean, UnsTable) then Kept(d.uns, keep) else d.uns,
         if Selected(clean, LayersTable) then Kept(d.layers, keep) else d.layers)
  }

  /** A key stays exactly when the table has it and `keep` mentions it, with its entry; keeping twice keeps the same. */
  lemma KeptEntries<V>(m: map<string, V>, keep: Selector)
    ensures forall k :: k in Kept(m, keep) <==> k in m && Mentions(keep, k)
    ensures forall k :: k in Kept(m, keep) ==> Kept(m, keep)[k] == m[k]
    ensures Kept(Kept(m, keep), keep) == Kept(m, keep)
  {
  }

  /**
    Lines 46-60, table by table: in a selected table a key stays exactly
    when `keep` mentions it, so a key `keep` mentions is never deleted; a
    table that is not selected keeps all its keys; every entry left is the
    one that was there.
   */
  lemma CleanedTable(d: Data, clean: Selector, keep: Selector, t: Table)
    requires WellFormed(d)
    ensures var r := Cleaned(d, clean, keep);
            Selected(clean, t) ==> forall k :: k in KeysOf(r, t) <==> k in KeysOf(d, t) && Mentions(keep, k)
    ensures !Selected(clean, t) ==> KeysOf(Cleaned(d, clean, keep), t) == KeysOf(d, t)
    ensures var r := Cleaned(d, clean, keep);
            forall k :: k in KeysOf(r, t) ==> SameEntry(d, r, t, k)
  {
    match t
    case ObsTable => KeptEntries(d.obs, keep);
    case VarTable => KeptEntries(d.vars, keep);
    case UnsTable => KeptEntries(d.uns, keep);
    case LayersTable => KeptEntries(d.layers, keep);
  }

  /** Cleaning a second time with the same arguments changes nothing. */
  lemma CleanupIdempotent(d: Data, clean: Selector, keep: Selector)
    requires WellFormed(d)
    ensures Cleaned(Cleaned(d, clean, keep), clean, keep) == Cleaned(d, clean, keep)
  {
    KeptEntries(d.obs, keep);
    KeptEntries(d.vars, keep);
    KeptEntries(d.uns, keep);
    KeptEntries(d.layers, keep);
  }

  /** With the default `clean='layers'` only the layers are cleared. */
  lemma DefaultCleansLayersOnly()
    ensures forall t: Table :: Selected(Text("layers"), t) <==> t == LayersTable
  {
    ContainsSelfAndEmpty("layers");
    forall t: Table | t != LayersTable
      ensures !Selected(Text("layers"), t)
    {
      NotInLayers(TableName(t));
      NotInLayers("all");
    }
  }

  /** The default `keep`: the spliced and unspliced layers. */
  const DefaultKeep: Selector := Items(["spliced", "unspliced"])

  /**
    A call with the default arguments deletes every layer but 'spliced' and
    'unspliced' and leaves the cell, gene and unstructured tables as they were.
   */
  lemma DefaultCleanup(d: Data)
    requires WellFormed(d)
    ensures var r := Cleaned(d, Text("layers"), DefaultKeep);
            && r.layers.Keys == d.layers.Keys * {"spliced", "unspliced"}
            && r.obs == d.obs && r.vars == d.vars && r.uns == d.uns
  {
    DefaultCleansLayersOnly();
    KeptEntries(d.layers, DefaultKeep);
  }

  /** `x` differs from the start of `s` at position `k`. */
  lemma DiffersAt(x: string, s: string, k: nat)
    requires k < |x| && k < |s| && x[k] != s[k]
    ensures !IsPrefix(x, s)
  {
  }

  /** None of 'obs', 'var', 'uns' and 'all' is a piece of 'layers'. */
  lemma NotInLayers(x: string)
    requires x == "obs" || x == "var" || x == "uns" || x == "all"
    ensures !Contains("layers", x)
  {
    var s := "layers";
    assert |x| == 3 && |s[4..]| == 2;
    var k := if x == "all" then 1 else 0;
    DiffersAt(x, s, k);
    DiffersAt(x, s[1..], k);
    DiffersAt(x, s[2..], k);
    DiffersAt(x, s[3..], k);
    assert !Contains(s[4..], x) by { if Contains(s[4..], x) { ContainsBound(s[4..], x); } }
    assert s[1..][1..] == s[2..] && s[2..][1..] == s[3..] && s[3..][1..] == s[4..];
  }

  /** Lines 46-60 on the object. */
  method CleanIn(adata: AnnData, clean: Selector, keep: Selector)
    requires adata.Valid()
    modifies adata
    ensures adata.Valid() && adata.Snapshot() == Cleaned(old(adata.Snapshot()), clean, keep)
  {
    ghost var c := Cleaned(adata.Snapshot(), clean, keep);
    var obs, vars, uns, layers := adata.obs, adata.vars, adata.uns, adata.layers;
    if Selected(clean, ObsTable) {
      obs := DropUnkept(obs, keep);
    }
    if Selected(clean, VarTable) {
      vars := DropUnkept(vars, keep);
    }
    if Selected(clean, UnsTable) {
      uns := DropUnkept(uns, keep);
    }
    if Selected(clean, LayersTable) {
      layers := DropUnkept(layers, keep);
    }
    assert c == Data(adata.nObs, adata.varNames, obs, vars, uns, layers);
    adata.obs, adata.vars, adata.uns, adata.layers := obs, vars, uns, layers;
  }

  /**
    `cleanup(data, clean, keep, copy)`: with `copy` a copy is cleaned and
    returned and `data` is left as it was; otherwise `data` is cleaned in
    place and nothing is returned.
   */
  method Cleanup(data: AnnData, clean: Selector, keep: Selector, copy: bool) returns (r: Option<AnnData>)
    requires data.Valid()
    modifies data
    ensures data.Valid()
    ensures copy ==> && data.Snapshot() == old(data.Snapshot())
                     && r.Some? && fresh(r.value) && r.value.Valid()
                     && r.value.Snapshot() == Cleaned(old(data.Snapshot()), clean, keep)
    ensures !copy ==> r.None? && data.Snapshot() == Cleaned(old(data.Snapshot()), clean, keep)
  {
    if copy {
      var adata := data.Copy();
      CleanIn(adata, clean, keep);
      r := Some(adata);
    } else {
      CleanIn(data, clean, keep);
      r := None;
    }
  }

  // ---------------------------------------------------------------------------
  // filter_genes_u (lines 102-105)
  // ---------------------------------------------------------------------------

  /** The threshold `filter_genes_u` is called with: one of `min_counts_u` and `min_cells_u`. */
  datatype UThreshold = MinCountsU(counts: int) | MinCellsU(cells: int)

  /** The number of cells where a gene's value is positive. */
  function Positives(col: Column): (n: nat)
    ensures n <= |col|
  {
    if |col| == 0 then 0 else (if col[0] > 0.0 then 1 else 0) + Positives(col[1..])
  }

  /** Line 103-104: the unspliced total with `min_counts_u`, the number of expressing cells with `min_cells_u`. */
  function Score(col: Column, t: UThreshold): real
  {
    match t
    case MinCountsU(_) => Sum(col)
    case MinCellsU(_) => Positives(col) as real
  }

  function Bound(t: UThreshold): int
  {
    match t
    case MinCountsU(n) => n
    case MinCellsU(n) => n
  }

  /** Line 105: `counts >= threshold`, gene by gene. */
  function PassMask(unspliced: Matrix, t: UThreshold): (m: seq<bool>)
    ensures |m| == |unspliced|
  {
    seq(|unspliced|, j requires 0 <= j < |unspliced| => Score(unspliced[j], t) >= Bound(t) as real)
  }

  /** `filter_genes_u` as a value. */
  function FilterU(d: Data, t: UThreshold): (r: Data)
    requires WellFormed(d) && "unspliced" in d.layers
    ensures WellFormed(r) && "unspliced" in r.layers
  {
    SubsetVar(d, PassMask(d.layers["unspliced"], t))
  }

  /**
    Lines 103-105: a gene survives exactly when its score reaches the
    threshold, and the survivors keep their relative order: a passing gene j
    sits at its rank among the passing genes, with its name and its unspliced
    column, and every gene left passes.
   */
  lemma FilterUKeepsPassing(d: Data, t: UThreshold)
    requires WellFormed(d) && "unspliced" in d.layers
    ensures var m := PassMask(d.layers["unspliced"], t);
            var r := FilterU(d, t);
            forall j :: 0 <= j < |d.varNames| && Score(d.layers["unspliced"][j], t) >= Bound(t) as real ==>
              && Rank(m, j) < |r.varNames|
              && r.varNames[Rank(m, j)] == d.varNames[j]
              && r.layers["unspliced"][Rank(m, j)] == d.layers["unspliced"][j]
    ensures var r := FilterU(d, t);
            forall k :: 0 <= k < |r.varNames| ==> Score(r.layers["unspliced"][k], t) >= Bound(t) as real
  {
    var u := d.layers["unspliced"];
    var m := PassMask(u, t);
    var r := FilterU(d, t);
    forall j | 0 <= j < |d.varNames| && Score(u[j], t) >= Bound(t) as real
      ensures Rank(m, j) < |r.varNames|
      ensures r.varNames[Rank(m, j)] == d.varNames[j] && r.layers["unspliced"][Rank(m, j)] == u[j]
    {
      SubsetVarKeepsGene(d, m, "unspliced", j);
    }
    forall k | 0 <= k < |r.varNames|
      ensures Score(r.layers["unspliced"][k], t) >= Bound(t) as real
    {
      assert r.layers["unspliced"] == Select(u, m);
      SelectFromAt(u, m, k);
    }
  }

  /** A threshold on expressing cells above the number of cells leaves no gene. */
  lemma TooManyCellsLeavesNone(d: Data, n: int)
    requires WellFormed(d) && "unspliced" in d.layers && n > d.nObs
    ensures |FilterU(d, MinCellsU(n)).varNames| == 0
  {
    var u := d.layers["unspliced"];
    var m := PassMask(u, MinCellsU(n));
    forall j | 0 <= j < |m| ensures !m[j] {
      assert Positives(u[j]) <= |u[j]| == d.nObs;
    }
    CountZeroIff(m);
  }

  /** `filter_genes_u(adata, ...)` on the object. */
  method FilterGenesU(adata: AnnData, t: UThreshold)
    requires adata.Valid() && "unspliced" in adata.layers
    modifies adata
    ensures adata.Valid() && adata.Snapshot() == FilterU(old(adata.Snapshot()), t)
  {
    var counts := PassMask(adata.layers["unspliced"], t);
    adata.InplaceSubsetVar(counts);
  }

  // ---------------------------------------------------------------------------
  // filter_and_normalize (lines 99-127)
  // ---------------------------------------------------------------------------

  /**
    The scanpy gene selections the function relies on, each as the gene
    mask it leaves: `filter_genes` with `min_counts` or `min_cells`, and the
    `gene_subset` of `filter_genes_dispersion`.
   */
  datatype Scanpy = Scanpy(
    byCounts: (Data, int) -> seq<bool>,
    byCells: (Data, int) -> seq<bool>,
    dispersion: (Data, int) -> seq<bool>)

  /** Every selection has one entry per gene of the dataset it is given. */
  ghost predicate ScanpyShaped(sc: Scanpy)
  {
    && (forall d: Data, n: int :: |sc.byCounts(d, n)| == |d.varNames|)
    && (forall d: Data, n: int :: |sc.byCells(d, n)| == |d.varNames|)
    && (forall d: Data, n: int :: |sc.dispersion(d, n)| == |d.varNames|)
  }

  lemma ScanpyLengths(sc: Scanpy, d: Data, n: int)
    requires ScanpyShaped(sc)
    ensures |sc.byCounts(d, n)| == |d.varNames| && |sc.byCells(d, n)| == |d.varNames|
    ensures |sc.dispersion(d, n)| == |d.varNames|
  {
  }

  /** The steps of the recipe, in the order they run. */
  datatype Step =
    | FilterCounts(minCounts: int)
    | FilterCells(minCells: int)
    | FilterUnspliced(threshold: UThreshold)
    | NormalizePerCell
    | DispersionSubset(nTopGenes: int)
    | Log1p

  datatype FilterArgs = FilterArgs(
    minCounts: Option<int>,
    minCountsU: Option<int>,
    minCells: Option<int>,
    minCellsU: Option<int>,
    nTopGenes: Option<int>,
    log: bool,
    copy: bool)

  /** The signature defaults: `min_counts=3, min_counts_u=3`, no cell thresholds, no `n_top_genes`, `log=True`. */
  const DefaultFilterArgs: FilterArgs := FilterArgs(Some(3), Some(3), None, None, None, true, false)

  /** The dataset after some steps, and the steps run. */
  datatype Prep = Prep(state: Data, steps: seq<Step>)

  /** Lines 107-108: scanpy's count and cell filters, each when its threshold is given. */
  function ScanpyFilters(d: Data, a: FilterArgs, sc: Scanpy): (p: Prep)
    requires WellFormed(d) && ScanpyShaped(sc)
    ensures WellFormed(p.state) && p.state.layers.Keys == d.layers.Keys
  {
    var d1 := if a.minCounts.Some?
              then (ScanpyLengths(sc, d, a.minCounts.value); SubsetVar(d, sc.byCounts(d, a.minCounts.value)))
              else d;
    var d2 := if a.minCells.Some?
              then (ScanpyLengths(sc, d1, a.minCells.value); SubsetVar(d1, sc.byCells(d1, a.minCells.value)))
              else d1;
    Prep(d2, (if a.minCounts.Some? then [FilterCounts(a.minCounts.value)] else [])
             + (if a.minCells.Some? then [FilterCells(a.minCells.value)] else []))
  }

  /** Lines 110-112: the unspliced filters, only when the layer exists and each when its threshold is given. */
  function UnsplicedFilters(d: Data, a: FilterArgs): (p: Prep)
    requires WellFormed(d)
    ensures WellFormed(p.state) && p.state.layers.Keys == d.layers.Keys
  {
    if "unspliced" !in d.layers then Prep(d, [])
    else
      var d1 := if a.minCountsU.Some? then FilterU(d, MinCountsU(a.minCountsU.value)) else d;
      var d2 := if a.minCellsU.Some? then FilterU(d1, MinCellsU(a.minCellsU.value)) else d1;
      Prep(d2, (if a.minCountsU.Some? then [FilterUnspliced(MinCountsU(a.minCountsU.value))] else [])
               + (if a.minCellsU.Some? then [FilterUnspliced(MinCellsU(a.minCellsU.value))] else []))
  }

  /** Lines 114-121: normalization and the dispersion subset, only when fewer top genes than genes are asked for. */
  function DispersionStage(d: Data, a: FilterArgs, sc: Scanpy): (p: Prep)
    requires WellFormed(d) && ScanpyShaped(sc)
    ensures WellFormed(p.state) && p.state.layers.Keys == d.layers.Keys
  {
    if a.nTopGenes.Some? && a.nTopGenes.value < |d.varNames| then
      ScanpyLengths(sc, d, a.nTopGenes.value);
      Prep(SubsetVar(d, sc.dispersion(d, a.nTopGenes.value)), [NormalizePerCell, DispersionSubset(a.nTopGenes.value)])
    else Prep(d, [])
  }

  /** `filter_and_normalize` as a value: the three stages, then normalization and the optional logarithm. */
  function Normalized(d: Data, a: FilterArgs, sc: Scanpy): (p: Prep)
    requires WellFormed(d) && ScanpyShaped(sc)
    ensures WellFormed(p.state)
  {
    var p1 := ScanpyFilters(d, a, sc);
    var p2 := UnsplicedFilters(p1.state, a);
    var p3 := DispersionStage(p2.state, a, sc);
    Prep(p3.state, p1.steps + p2.steps + p3.steps + [NormalizePerCell] + (if a.log then [Log1p] else []))
  }

  /** The steps of a run are those of the three stages, then normalization and the optional logarithm. */
  lemma NormalizedStepsSplit(d: Data, a: FilterArgs, sc: Scanpy)
    requires WellFormed(d) && ScanpyShaped(sc)
    ensures var p1 := ScanpyFilters(d, a, sc);
            var p2 := UnsplicedFilters(p1.state, a);
            Normalized(d, a, sc).steps
              == p1.steps + p2.steps + DispersionStage(p2.state, a, sc).steps
                 + [NormalizePerCell] + (if a.log then [Log1p] else [])
  {
  }

  /**
    Lines 110-112: an unspliced filter runs exactly when the input has an
    'unspliced' layer and its threshold is given; the scanpy filters before
    it keep the layers, so the layers of the input decide.
   */
  lemma UnsplicedGate(d: Data, a: FilterArgs, sc: Scanpy)
    requires WellFormed(d) && ScanpyShaped(sc)
    ensures forall n :: (FilterUnspliced(MinCountsU(n)) in Normalized(d, a, sc).steps)
                          <==> "unspliced" in d.layers && a.minCountsU == Some(n)
    ensures forall n :: (FilterUnspliced(MinCellsU(n)) in Normalized(d, a, sc).steps)
                          <==> "unspliced" in d.layers && a.minCellsU == Some(n)
  {
    NormalizedStepsSplit(d, a, sc);
  }

  /**
    Lines 114-121: the dispersion subset runs exactly when `n_top_genes` is
    given and is below the number of genes the filters before it left.
   */
  lemma DispersionGate(d: Data, a: FilterArgs, sc: Scanpy)
    requires WellFormed(d) && ScanpyShaped(sc)
    ensures var p2 := UnsplicedFilters(ScanpyFilters(d, a, sc).state, a);
            forall n :: (DispersionSubset(n) in Normalized(d, a, sc).steps)
                          <==> a.nTopGenes == Some(n) && n < |p2.state.varNames|
  {
    NormalizedStepsSplit(d, a, sc);
  }

  /** Lines 125-126: a run always ends by normalizing, then taking the logarithm exactly when `log` is set. */
  lemma EndsNormalized(d: Data, a: FilterArgs, sc: Scanpy)
    requires WellFormed(d) && ScanpyShaped(sc)
    ensures var steps := Normalized(d, a, sc).steps;
            && (Log1p in steps <==> a.log)
            && (if a.log then |steps| >= 2 && steps[|steps| - 2] == NormalizePerCell && steps[|steps| - 1] == Log1p
                else |steps| >= 1 && steps[|steps| - 1] == NormalizePerCell)
  {
    NormalizedStepsSplit(d, a, sc);
  }

  /**
    With the default arguments a run filters by counts, then by unspliced
    counts when the layer exists, then normalizes and takes the logarithm.
   */
  lemma DefaultSteps(d: Data, sc: Scanpy)
    requires WellFormed(d) && ScanpyShaped(sc)
    ensures Normalized(d, DefaultFilterArgs, sc).steps
            == [FilterCounts(3)]
               + (if "unspliced" in d.layers then [FilterUnspliced(MinCountsU(3))] else [])
               + [NormalizePerCell, Log1p]
  {
    NormalizedStepsSplit(d, DefaultFilterArgs, sc);
  }

  /**
    Lines 107-112: the gene filters only remove genes, so the cells, the cell
    and unstructured tables and the layer names stay. Over a whole run the
    genes only shrink, each one left being a gene of the input, and the
    layer names stay.
   */
  lemma FiltersKeepCells(d: Data, a: FilterArgs, sc: Scanpy)
    requires WellFormed(d) && ScanpyShaped(sc)
    ensures Narrowed(d, UnsplicedFilters(ScanpyFilters(d, a, sc).state, a).state)
    ensures GenesNarrowed(d, Normalized(d, a, sc).state)
  {
    var p1 := ScanpyFilters(d, a, sc);
    SubsetsKeepCells(d, p1.state, a, sc);
    var p2 := UnsplicedFilters(p1.state, a);
    UnsplicedKeepsCells(p1.state, a);
    var p3 := DispersionStage(p2.state, a, sc);
    DispersionKeepsCells(p2.state, a, sc);
  }

  /** Only genes are removed: the layer names stay and every gene left is one of the input's. */
  predicate GenesNarrowed(d: Data, r: Data)
  {
    && r.layers.Keys == d.layers.Keys
    && |r.varNames| <= |d.varNames|
    && forall k :: 0 <= k < |r.varNames| ==> r.varNames[k] in d.varNames
  }

  /** A gene mask keeps cells and tables and only removes genes. */
  predicate Narrowed(d: Data, r: Data)
  {
    r.nObs == d.nObs && r.obs == d.obs && r.uns == d.uns && GenesNarrowed(d, r)
  }

  lemma SubsetVarNarrows(d: Data, m: seq<bool>)
    requires WellFormed(d) && |m| == |d.varNames|
    ensures Narrowed(d, SubsetVar(d, m))
  {
    var r := SubsetVar(d, m);
    forall k | 0 <= k < |r.varNames| ensures r.varNames[k] in d.varNames {
      SelectFromAt(d.varNames, m, k);
    }
  }

  lemma NarrowedTransitive(d: Data, e: Data, r: Data)
    requires Narrowed(d, e) && Narrowed(e, r)
    ensures Narrowed(d, r)
  {
  }

  lemma SubsetsKeepCells(d: Data, r: Data, a: FilterArgs, sc: Scanpy)
    requires WellFormed(d) && ScanpyShaped(sc) && r == ScanpyFilters(d, a, sc).state
    ensures Narrowed(d, r)
  {
    var d1 := if a.minCounts.Some? then SubsetVar(d, sc.byCounts(d, a.minCounts.value)) else d;
    if a.minCounts.Some? {
      SubsetVarNarrows(d, sc.byCounts(d, a.minCounts.value));
    }
    if a.minCells.Some? {
      SubsetVarNarrows(d1, sc.byCells(d1, a.minCells.value));
      NarrowedTransitive(d, d1, r);
    }
  }

  lemma UnsplicedKeepsCells(d: Data, a: FilterArgs)
    requires WellFormed(d)
    ensures Narrowed(d, UnsplicedFilters(d, a).state)
  {
    if "unspliced" in d.layers {
      var d1 := if a.minCountsU.Some? then FilterU(d, MinCountsU(a.minCountsU.value)) else d;
      if a.minCountsU.Some? {
        SubsetVarNarrows(d, PassMask(d.layers["unspliced"], MinCountsU(a.minCountsU.value)));
      }
      if a.minCellsU.Some? {
        SubsetVarNarrows(d1, PassMask(d1.layers["unspliced"], MinCellsU(a.minCellsU.value)));
        NarrowedTransitive(d, d1, UnsplicedFilters(d, a).state);
      }
    }
  }

  lemma DispersionKeepsCells(d: Data, a: FilterArgs, sc: Scanpy)
    requires WellFormed(d) && ScanpyShaped(sc)
    ensures Narrowed(d, DispersionStage(d, a, sc).state)
  {
    if a.nTopGenes.Some? && a.nTopGenes.value < |d.varNames| {
      SubsetVarNarrows(d, sc.dispersion(d, a.nTopGenes.value));
    }
  }

  /** Lines 107-108 on the object. */
  method ScanpyFiltersIn(adata: AnnData, a: FilterArgs, sc: Scanpy) returns (steps: seq<Step>)
    requires adata.Valid() && ScanpyShaped(sc)
    modifies adata
    ensures adata.Valid()
    ensures Prep(adata.Snapshot(), steps) == ScanpyFilters(old(adata.Snapshot()), a, sc)
  {
    steps := [];
    if a.minCounts.Some? {
      ScanpyLengths(sc, adata.Snapshot(), a.minCounts.value);
      adata.InplaceSubsetVar(sc.byCounts(adata.Snapshot(), a.minCounts.value));
      steps := steps + [FilterCounts(a.minCounts.value)];
    }
    if a.minCells.Some? {
      ScanpyLengths(sc, adata.Snapshot(), a.minCells.value);
      adata.InplaceSubsetVar(sc.byCells(adata.Snapshot(), a.minCells.value));
      steps := steps + [FilterCells(a.minCells.value)];
    }
  }

  /** Lines 110-112 on the object. */
  method UnsplicedFiltersIn(adata: AnnData, a: FilterArgs) returns (steps: seq<Step>)
    requires adata.Valid()
    modifies adata
    ensures adata.Valid()
    ensures Prep(adata.Snapshot(), steps) == UnsplicedFilters(old(adata.Snapshot()), a)
  {
    steps := [];
    if "unspliced" in adata.layers {
      if a.minCountsU.Some? {
        FilterGenesU(adata, MinCountsU(a.minCountsU.value));
        steps := steps + [FilterUnspliced(MinCountsU(a.minCountsU.value))];
      }
      if a.minCellsU.Some? {
        FilterGenesU(adata, MinCellsU(a.minCellsU.value));
        steps := steps + [FilterUnspliced(MinCellsU(a.minCellsU.value))];
      }
    }
  }

  /** Lines 114-121 on the object. */
  method DispersionStageIn(adata: AnnData, a: FilterArgs, sc: Scanpy) returns (steps: seq<Step>)
    requires adata.Valid() && ScanpyShaped(sc)
    modifies adata
    ensures adata.Valid()
    ensures Prep(adata.Snapshot(), steps) == DispersionStage(old(adata.Snapshot()), a, sc)
  {
    steps := [];
    if a.nTopGenes.Some? && a.nTopGenes.value < |adata.varNames| {
      steps := steps + [NormalizePerCell];
      ScanpyLengths(sc, adata.Snapshot(), a.nTopGenes.value);
      var subset := sc.dispersion(adata.Snapshot(), a.nTopGenes.value);
      adata.InplaceSubsetVar(subset);
      steps := steps + [DispersionSubset(a.nTopGenes.value)];
    }
  }

  /**
    `filter_and_normalize(data, ...)`: with `copy` a copy is filtered and
    returned and `data` is left as it was; otherwise `data` is filtered in
    place and nothing is returned. The steps run are returned alongside.
   */
  method FilterAndNormalize(data: AnnData, a: FilterArgs, sc: Scanpy) returns (r: Option<AnnData>, steps: seq<Step>)
    requires data.Valid() && ScanpyShaped(sc)
    modifies data
    ensures data.Valid()
    ensures a.copy ==> && data.Snapshot() == old(data.Snapshot())
                       && r.Some? && fresh(r.value) && r.value.Valid()
                       && Prep(r.value.Snapshot(), steps) == Normalized(old(data.Snapshot()), a, sc)
    ensures !a.copy ==> r.None? && Prep(data.Snapshot(), steps) == Normalized(old(data.Snapshot()), a, sc)
  {
    var adata := data;
    if a.copy {
      adata := data.Copy();
    }
    var s1 := ScanpyFiltersIn(adata, a, sc);
    var s2 := UnsplicedFiltersIn(adata, a);
    var s3 := DispersionStageIn(adata, a, sc);
    steps := s1 + s2 + s3 + [NormalizePerCell];
    if a.log {
      steps := steps + [Log1p];
    }
    r := if a.copy then Some(adata) else None;
  }
}
