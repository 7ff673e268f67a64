/**
  The parts of an AnnData object that the core reads or writes: the cell
  count, the gene names, the per-cell table `obs`, the per-gene table `var`,
  the unstructured table `uns` and the `layers` of cells × genes matrices.
  `Data` is a value snapshot; `AnnData` is the mutable object the driver and
  the preprocessing functions change in place.
 */
module Dataset {
  import opened Basics
  import opened Masks
  import opened Tables

  /**
    A snapshot of the object. Cell annotations are held as their labels
    (strings); the contents of `uns` entries are not looked at by the core
    and are kept as strings.
   */
  datatype Data = Data(
    nObs: nat,
    varNames: seq<string>,
    obs: map<string, seq<string>>,
    vars: map<string, Annotation>,
    uns: map<string, string>,
    layers: map<string, Matrix>)

  /** Every table agrees with the shape `nObs × |varNames|`. */
  ghost predicate WellFormed(d: Data)
  {
    && (forall k :: k in d.obs ==> |d.obs[k]| == d.nObs)
    && (forall k :: k in d.vars ==> AnnotationLength(d.vars[k]) == |d.varNames|)
    && (forall k :: k in d.layers ==> Shaped(d.layers[k], d.nObs, |d.varNames|))
  }

  /**
    `adata._inplace_subset_var(m)` as a value: the genes where `m` is true,
    in order, in the gene names, in every `var` column and in every layer;
    `obs` and `uns` are kept.
   */
  function SubsetVar(d: Data, m: seq<bool>): (r: Data)
    requires WellFormed(d) && |m| == |d.varNames|
    ensures WellFormed(r) && |r.varNames| == Count(m)
    ensures r.nObs == d.nObs && r.obs == d.obs && r.uns == d.uns
    ensures r.vars.Keys == d.vars.Keys && r.layers.Keys == d.layers.Keys
    ensures r.varNames == Select(d.varNames, m)
    ensures forall k :: k in r.vars ==> r.vars[k] == SelectAnnotation(d.vars[k], m)
    ensures forall k :: k in r.layers ==> r.layers[k] == Select(d.layers[k], m)
  {
    var layers := map k | k in d.layers :: Select(d.layers[k], m);
    assert forall k :: k in layers ==> Shaped(layers[k], d.nObs, Count(m)) by {
      forall k | k in layers ensures Shaped(layers[k], d.nObs, Count(m)) {
        SelectGenesShaped(d.layers[k], m, d.nObs);
      }
    }
    Data(d.nObs, Select(d.varNames, m), d.obs,
         map k | k in d.vars :: SelectAnnotation(d.vars[k], m),
         d.uns, layers)
  }

  /**
    `adata[rows]`: the view on the cells where `rows` is true. It is taken as
    a value; later changes to the object it came from are not seen.
   */
  function RowView(d: Data, rows: seq<bool>): (r: Data)
    requires WellFormed(d) && |rows| == d.nObs
    ensures WellFormed(r) && r.nObs == Count(rows) && r.varNames == d.varNames
    ensures r.obs.Keys == d.obs.Keys && r.layers.Keys == d.layers.Keys
    ensures r.vars == d.vars && r.uns == d.uns
    ensures forall k :: k in r.obs ==> r.obs[k] == Select(d.obs[k], rows)
    ensures forall k :: k in r.layers ==> r.layers[k] == SelectRows(d.layers[k], rows)
  {
    Data(Count(rows), d.varNames,
         map k | k in d.obs :: Select(d.obs[k], rows),
         d.vars, d.uns,
         map k | k in d.layers :: SelectRows(d.layers[k], rows))
  }

  /** A kept gene sits at its rank among the kept genes, in every layer and in the gene names. */
  lemma {:induction false} SubsetVarKeepsGene(d: Data, m: seq<bool>, key: string, j: nat)
    requires WellFormed(d) && |m| == |d.varNames| && key in d.layers && j < |m| && m[j]
    ensures Rank(m, j) < Count(m)
    ensures SubsetVar(d, m).layers[key][Rank(m, j)] == d.layers[key][j]
    ensures SubsetVar(d, m).varNames[Rank(m, j)] == d.varNames[j]
  {
    SelectAt(d.layers[key], m, j);
    SelectAt(d.varNames, m, j);
  }

  /**
    A kept gene's entry in a `var` column sits at its rank among the kept
    genes: the narrowed `var[key]` still describes the same gene.
   */
  lemma {:induction false} SubsetVarKeepsAnnotation(d: Data, m: seq<bool>, key: string, j: nat)
    requires WellFormed(d) && |m| == |d.varNames| && key in d.vars && j < |m| && m[j]
    ensures Rank(m, j) < Count(m)
    ensures d.vars[key].Reals? ==> SubsetVar(d, m).vars[key].values[Rank(m, j)] == d.vars[key].values[j]
    ensures d.vars[key].Flags? ==> SubsetVar(d, m).vars[key].flags[Rank(m, j)] == d.vars[key].flags[j]
  {
    match d.vars[key]
    case Reals(v) => SelectAt(v, m, j);
    case Flags(f) => SelectAt(f, m, j);
  }

  /**
    A selected cell sits at its rank among the selected cells, with its
    label in every `obs` column and its value in every layer and gene.
   */
  lemma RowViewKeepsCell(d: Data, rows: seq<bool>, i: nat)
    requires WellFormed(d) && |rows| == d.nObs && i < |rows| && rows[i]
    ensures Rank(rows, i) < Count(rows)
    ensures forall k :: k in d.obs ==> RowView(d, rows).obs[k][Rank(rows, i)] == d.obs[k][i]
    ensures forall k, j :: k in d.layers && 0 <= j < |d.varNames| ==>
              RowView(d, rows).layers[k][j][Rank(rows, i)] == d.layers[k][j][i]
  {
    var r := RowView(d, rows);
    SelectAt(rows, rows, i);
    forall k | k in d.obs
      ensures r.obs[k][Rank(rows, i)] == d.obs[k][i]
    {
      SelectAt(d.obs[k], rows, i);
    }
    forall k, j | k in d.layers && 0 <= j < |d.varNames|
      ensures r.layers[k][j][Rank(rows, i)] == d.layers[k][j][i]
    {
      SelectAt(d.layers[k][j], rows, i);
    }
  }

  /** `RowViewKeepsCell` for every selected cell. */
  lemma RowViewKeepsCells(d: Data, rows: seq<bool>)
    requires WellFormed(d) && |rows| == d.nObs
    ensures forall i :: 0 <= i < d.nObs && rows[i] ==>
              && Rank(rows, i) < Count(rows)
              && (forall k :: k in d.obs ==> RowView(d, rows).obs[k][Rank(rows, i)] == d.obs[k][i])
              && (forall k, j :: k in d.layers && 0 <= j < |d.varNames| ==>
                    RowView(d, rows).layers[k][j][Rank(rows, i)] == d.layers[k][j][i])
  {
    forall i | 0 <= i < d.nObs && rows[i]
      ensures && Rank(rows, i) < Count(rows)
              && (forall k :: k in d.obs ==> RowView(d, rows).obs[k][Rank(rows, i)] == d.obs[k][i])
              && (forall k, j :: k in d.layers && 0 <= j < |d.varNames| ==>
                    RowView(d, rows).layers[k][j][Rank(rows, i)] == d.layers[k][j][i])
    {
      RowViewKeepsCell(d, rows, i);
    }
  }

  /** The mutable object. */
  class AnnData {
    var nObs: nat
    var varNames: seq<string>
    var obs: map<string, seq<string>>
    var vars: map<string, Annotation>
    var uns: map<string, string>
    var layers: map<string, Matrix>

    function Snapshot(): Data
      reads this
    {
      Data(nObs, varNames, obs, vars, uns, layers)
    }

    ghost predicate Valid()
      reads this
    {
      WellFormed(Snapshot())
    }

    constructor (d: Data)
      requires WellFormed(d)
      ensures Valid() && Snapshot() == d
    {
      nObs, varNames, obs, vars, uns, layers := d.nObs, d.varNames, d.obs, d.vars, d.uns, d.layers;
    }

    /** `adata.copy()`: a new object with the same contents. */
    method Copy() returns (c: AnnData)
      requires Valid()
      ensures fresh(c) && c.Valid() && c.Snapshot() == Snapshot()
    {
      c := new AnnData(Snapshot());
    }

    /** `adata._inplace_subset_var(m)`. */
    method InplaceSubsetVar(m: seq<bool>)
      requires Valid() && |m| == |varNames|
      modifies this
      ensures Valid() && Snapshot() == SubsetVar(old(Snapshot()), m)
    {
      var r := SubsetVar(Snapshot(), m);
      varNames, vars, layers := r.varNames, r.vars, r.layers;
    }

    /** `adata.layers[key] = value`. */
    method SetLayer(key: string, value: Matrix)
      requires Valid() && Shaped(value, nObs, |varNames|)
      modifies this
      ensures Valid() && Snapshot() == old(Snapshot()).(layers := old(layers)[key := value])
    {
      layers := layers[key := value];
    }

    /** `adata.var[key] = value`. */
    method SetVar(key: string, value: Annotation)
      requires Valid() && AnnotationLength(value) == |varNames|
      modifies this
      ensures Valid() && Snapshot() == old(Snapshot()).(vars := old(vars)[key := value])
    {
      vars := vars[key := value];
    }
  }
}
