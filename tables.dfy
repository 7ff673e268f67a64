/**
  Numeric tables of the dataset. A cells × genes matrix is held GENE-MAJOR:
  `m[j][i]` is the entry of gene j in cell i, so a gene (a column of the
  numpy array) is one `Column`. Per-gene solvers then see one value per
  column even when no cell is selected, and gene masks act on the outer
  sequence.
 */
module Tables {
  import opened Masks

  /** One gene's values over the cells. */
  type Column = seq<real>

  /** A cells × genes matrix, gene-major. */
  type Matrix = seq<Column>

  /** `m` has `nVars` genes of `nObs` cells each. */
  predicate Shaped(m: Matrix, nObs: nat, nVars: nat)
  {
    |m| == nVars && forall j :: 0 <= j < |m| ==> |m[j]| == nObs
  }

  /** Two matrices of the same shape. */
  predicate SameShape(a: Matrix, b: Matrix)
  {
    |a| == |b| && forall j :: 0 <= j < |a| ==> |a[j]| == |b[j]|
  }

  /** `np.zeros(shape)` for `nVars` genes and `nObs` cells. */
  function Zeros(nObs: nat, nVars: nat): (z: Matrix)
    ensures Shaped(z, nObs, nVars)
    ensures forall j, i :: 0 <= j < nVars && 0 <= i < nObs ==> z[j][i] == 0.0
  {
    seq(nVars, _ => seq(nObs, _ => 0.0))
  }

  /** The sum of a gene's values over the cells. */
  function Sum(col: Column): real
  {
    if |col| == 0 then 0.0 else col[0] + Sum(col[1..])
  }

  /** `m[rows]`: the cells selected by a row mask, in every gene. */
  function SelectRows(m: Matrix, rows: seq<bool>): (r: Matrix)
    requires Shaped(m, |rows|, |m|)
    ensures Shaped(r, Count(rows), |m|)
    ensures forall j :: 0 <= j < |m| ==> r[j] == Select(m[j], rows)
  {
    seq(|m|, j requires 0 <= j < |m| => Select(m[j], rows))
  }

  /** `m[:, genes]`: the genes selected by a gene mask, in order. */
  lemma SelectGenesShaped(m: Matrix, genes: seq<bool>, nObs: nat)
    requires Shaped(m, nObs, |genes|)
    ensures Shaped(Select(m, genes), nObs, Count(genes))
  {
    forall k | 0 <= k < Count(genes)
      ensures |Select(m, genes)[k]| == nObs
    {
      SelectFromAt(m, genes, k);
    }
  }

  /** The k-th gathered entry is some selected entry. */
  lemma SelectFromAt<T>(s: seq<T>, m: seq<bool>, k: nat)
    requires |s| == |m| && k < Count(m)
    ensures exists j :: 0 <= j < |s| && m[j] && s[j] == Select(s, m)[k]
  {
    SelectFrom(s, m, Select(s, m)[k]);
  }

  /** A per-gene annotation column of the dataset (`adata.var[key]`). */
  datatype Annotation = Reals(values: seq<real>) | Flags(flags: seq<bool>)

  function AnnotationLength(a: Annotation): nat
  {
    match a
    case Reals(v) => |v|
    case Flags(f) => |f|
  }

  /** `len(set(a)) > 1` for an annotation column. */
  predicate NonConstantAnnotation(a: Annotation)
  {
    match a
    case Reals(v) => NonConstant(v)
    case Flags(f) => NonConstant(f)
  }

  /** `a[genes]` for an annotation column. */
  function SelectAnnotation(a: Annotation, genes: seq<bool>): (r: Annotation)
    requires AnnotationLength(a) == |genes|
    ensures AnnotationLength(r) == Count(genes)
  {
    match a
    case Reals(v) => Reals(Select(v, genes))
    case Flags(f) => Flags(Select(f, genes))
  }
}
