/**
  The `velocity` function of scvelo/tools/velocity.py: resolves the cell
  groups, builds and runs the estimator, writes the residual layers and the
  non-constant parameter vectors back into the dataset, and narrows the gene
  set when asked to.
 */
module Driver {
  import opened Basics
  import opened Masks
  import opened Tables
  import opened Estimator
  import opened Dataset

  // ---------------------------------------------------------------------------
  // Arguments and collaborators
  // ---------------------------------------------------------------------------

  /** The `groups` argument: absent, one label, or a list of labels. */
  datatype Groups = NoGroups | Label(name: string) | Labels(names: seq<string>)

  /** The arguments of `velocity(...)`. */
  datatype Args = Args(
    vkey: string,
    mode: Option<string>,
    fitOffset: bool,
    fitOffset2: bool,
    filterGenes: bool,
    groups: Groups,
    groupby: Option<string>,
    subsetForFitting: Option<seq<bool>>,
    useRaw: bool,
    copy: bool)

  /** First-order smoothed moments `Ms, Mu` of one gene in one cell. */
  datatype Moment1 = Moment1(s: real, u: real)

  /**
    What the driver calls but the model does not contain: the first-order
    moment smoothing (`moments`), the solvers, and the second-order moment
    smoothing, each as a function of gene name and cell.
   */
  datatype Externals = Externals(
    moments: (string, nat) -> Moment1,
    num: Numerics,
    moments2: (string, nat) -> Moment2)

  // ---------------------------------------------------------------------------
  // Cell groups (lines 124-132)
  // ---------------------------------------------------------------------------

  /** Line 124: a single label is wrapped into a one-element list. */
  function GroupLabels(g: Groups): (labels: seq<string>)
    requires !g.NoGroups?
    ensures g.Label? ==> labels == [g.name]
  {
    if g.Label? then [g.name] else g.names
  }

  /**
    Lines 126-127: the cell annotation to group by: the one asked for if the
    cell table has it, else 'clusters', else 'louvain', else none.
   */
  function GroupBy(obs: map<string, seq<string>>, groupby: Option<string>): (r: Option<string>)
    ensures r.Some? ==> r.value in obs
    ensures r.None? <==> (groupby.None? || groupby.value !in obs) && "clusters" !in obs && "louvain" !in obs
    ensures groupby.Some? && groupby.value in obs ==> r == groupby
    ensures (groupby.None? || groupby.value !in obs) && "clusters" in obs ==> r == Some("clusters")
    ensures (groupby.None? || groupby.value !in obs) && "clusters" !in obs && "louvain" in obs ==> r == Some("louvain")
  {
    if groupby.Some? && groupby.value in obs then groupby
    else if "clusters" in obs then Some("clusters")
    else if "louvain" in obs then Some("louvain")
    else None
  }

  /**
    Lines 124-130: without groups there is no cell mask; with groups, a
    ValueError when no annotation can be grouped by, and otherwise the mask
    that holds at a cell exactly when the cell's label is one of the groups.
   */
  function ResolveGroups(d: Data, groups: Groups, groupby: Option<string>): (r: Result<Option<seq<bool>>>)
    requires WellFormed(d)
    ensures groups.NoGroups? <==> r == Ok(None)
    ensures r.Err? <==> !groups.NoGroups? && GroupBy(d.obs, groupby).None?
    ensures r.Ok? && r.value.Some? ==>
              && |r.value.value| == d.nObs
              && forall i :: 0 <= i < d.nObs ==>
                   (r.value.value[i] <==> d.obs[GroupBy(d.obs, groupby).value][i] in GroupLabels(groups))
  {
    if groups.NoGroups? then Ok(None)
    else
      match GroupBy(d.obs, groupby)
      case None => Err(ValueError("groupby attribute not valid."))
      case Some(key) =>
        Ok(Some(seq(d.nObs, i requires 0 <= i < d.nObs => d.obs[key][i] in GroupLabels(groups))))
  }

  /**
    Line 132: the data the estimator sees. Without groups it is the whole
    dataset; with groups it has one cell per group cell, and each group cell
    sits at its rank among them with its `obs` labels and its layer values.
   */
  function View(d: Data, g: Option<seq<bool>>): (r: Data)
    requires WellFormed(d) && (g.Some? ==> |g.value| == d.nObs)
    ensures WellFormed(r) && r.varNames == d.varNames
    ensures r.nObs == if g.Some? then Count(g.value) else d.nObs
    ensures g.None? ==> r == d
    ensures r.vars == d.vars && r.obs.Keys == d.obs.Keys && r.layers.Keys == d.layers.Keys
    ensures g.Some? ==>
              forall i :: 0 <= i < d.nObs && g.value[i] ==>
                && Rank(g.value, i) < r.nObs
                && (forall k :: k in d.obs ==> r.obs[k][Rank(g.value, i)] == d.obs[k][i])
                && (forall k, j :: k in d.layers && 0 <= j < |d.varNames| ==>
                      r.layers[k][j][Rank(g.value, i)] == d.layers[k][j][i])
  {
    if g.None? then d else (RowViewKeepsCells(d, g.value); RowView(d, g.value))
  }

  // ---------------------------------------------------------------------------
  // Mode dispatch (line 139)
  // ---------------------------------------------------------------------------

  /** Line 139: `mode` is given and occurs in 'stochastic', 'bayes' or 'alpha'. */
  predicate IsStochastic(mode: Option<string>)
  {
    mode.Some? && (Contains("stochastic", mode.value) || Contains("bayes", mode.value) || Contains("alpha", mode.value))
  }

  /**
    The three stochastic modes and the empty string take the stochastic path;
    no mode, 'deterministic', and every mode longer than 'stochastic' take the
    deterministic one.
   */
  lemma StochasticModes(mode: string)
    ensures IsStochastic(Some("stochastic")) && IsStochastic(Some("bayes")) && IsStochastic(Some("alpha"))
    ensures IsStochastic(Some(""))
    ensures !IsStochastic(None) && !IsStochastic(Some("deterministic"))
    ensures |mode| > |"stochastic"| ==> !IsStochastic(Some(mode))
  {
    ContainsSelfAndEmpty("stochastic");
    ContainsSelfAndEmpty("bayes");
    ContainsSelfAndEmpty("alpha");
    ModeBound(mode);
    ModeBound("deterministic");
  }

  /** Every stochastic mode is a piece of one of the three words, so at most as long as 'stochastic'. */
  lemma ModeBound(mode: string)
    ensures IsStochastic(Some(mode)) ==> |mode| <= |"stochastic"|
  {
    if Contains("stochastic", mode) {
      ContainsBound("stochastic", mode);
    } else if Contains("bayes", mode) {
      ContainsBound("bayes", mode);
    } else if Contains("alpha", mode) {
      ContainsBound("alpha", mode);
    }
  }

  /** Every piece of a stochastic mode is itself a stochastic mode. */
  lemma StochasticPieces(mode: string, piece: string)
    requires IsStochastic(Some(mode)) && Contains(mode, piece)
    ensures IsStochastic(Some(piece))
  {
    if Contains("stochastic", mode) {
      ContainsTransitive("stochastic", mode, piece);
    } else if Contains("bayes", mode) {
      ContainsTransitive("bayes", mode, piece);
    } else {
      ContainsTransitive("alpha", mode, piece);
    }
  }

  // ---------------------------------------------------------------------------
  // Layer write-back (lines 147-158)
  // ---------------------------------------------------------------------------

  /** `layer[rows] = value`: the cells of the group take the group's rows in order. */
  function WriteRows(base: Matrix, rows: seq<bool>, value: Matrix): (r: Matrix)
    requires Shaped(base, |rows|, |base|) && Shaped(value, Count(rows), |base|)
    ensures Shaped(r, |rows|, |base|)
  {
    seq(|base|, j requires 0 <= j < |base| => Scatter(base[j], rows, value[j]))
  }

  /** Cell i of the written layer is the group's next row when i is in the group, and keeps its value otherwise. */
  lemma WriteRowsAt(base: Matrix, rows: seq<bool>, value: Matrix, j: nat, i: nat)
    requires Shaped(base, |rows|, |base|) && Shaped(value, Count(rows), |base|)
    requires j < |base| && i < |rows|
    ensures rows[i] ==> Rank(rows, i) < Count(rows)
    ensures WriteRows(base, rows, value)[j][i] == if rows[i] then value[j][Rank(rows, i)] else base[j][i]
  {
    ScatterAt(base[j], rows, value[j], i);
  }

  /** Reading the group's rows back from the written layer gives the written rows. */
  lemma WriteRowsReadBack(base: Matrix, rows: seq<bool>, value: Matrix)
    requires Shaped(base, |rows|, |base|) && Shaped(value, Count(rows), |base|)
    ensures SelectRows(WriteRows(base, rows, value), rows) == value
  {
    var w := WriteRows(base, rows, value);
    forall j | 0 <= j < |base|
      ensures SelectRows(w, rows)[j] == value[j]
    {
      SelectScatter(base[j], rows, value[j]);
    }
  }

  /**
    Lines 148 and 155 without groups: the layer is replaced. Lines 150-152 and
    157-158 with groups: a missing layer is first a zero matrix of the
    dataset's shape, then the group's rows are written. Other layers are kept.
   */
  function WriteLayer(layers: map<string, Matrix>, nObs: nat, nVars: nat, key: string,
                      rows: Option<seq<bool>>, value: Matrix): (r: map<string, Matrix>)
    requires forall k :: k in layers ==> Shaped(layers[k], nObs, nVars)
    requires rows.Some? ==> |rows.value| == nObs && Shaped(value, Count(rows.value), nVars)
    requires rows.None? ==> Shaped(value, nObs, nVars)
    ensures forall k :: k in r ==> Shaped(r[k], nObs, nVars)
    ensures r.Keys == layers.Keys + {key}
    ensures forall k :: k in layers && k != key ==> r[k] == layers[k]
  {
    match rows
    case None => layers[key := value]
    case Some(g) =>
      var base := if key in layers then layers[key] else Zeros(nObs, nVars);
      assert Shaped(base, nObs, nVars);
      layers[key := WriteRows(base, g, value)]
  }

  /**
    The written layer, cell by cell: with groups, a cell of the groups takes
    the group's next row, and any other cell keeps its previous value, or 0
    when the layer did not exist; without groups, the layer is the value.
   */
  lemma WriteLayerCells(layers: map<string, Matrix>, nObs: nat, nVars: nat, key: string,
                        rows: Option<seq<bool>>, value: Matrix)
    requires forall k :: k in layers ==> Shaped(layers[k], nObs, nVars)
    requires rows.Some? ==> |rows.value| == nObs && Shaped(value, Count(rows.value), nVars)
    requires rows.None? ==> Shaped(value, nObs, nVars)
    ensures rows.None? ==> WriteLayer(layers, nObs, nVars, key, rows, value)[key] == value
    ensures rows.Some? ==>
              forall j, i :: 0 <= j < nVars && 0 <= i < nObs ==>
                var g := rows.value;
                && (g[i] ==> Rank(g, i) < Count(g))
                && WriteLayer(layers, nObs, nVars, key, rows, value)[key][j][i]
                   == if g[i] then value[j][Rank(g, i)]
                      else if key in layers then layers[key][j][i] else 0.0
  {
    if rows.Some? {
      var g := rows.value;
      var base := if key in layers then layers[key] else Zeros(nObs, nVars);
      assert Shaped(base, nObs, nVars);
      var w := WriteLayer(layers, nObs, nVars, key, rows, value)[key];
      assert w == WriteRows(base, g, value);
      forall j, i | 0 <= j < nVars && 0 <= i < nObs
        ensures g[i] ==> Rank(g, i) < Count(g)
        ensures w[j][i] == if g[i] then value[j][Rank(g, i)]
                           else if key in layers then layers[key][j][i] else 0.0
      {
        WriteRowsAt(base, g, value, j, i);
      }
    }
  }

  // ---------------------------------------------------------------------------
  // Parameter write-back (lines 160-162)
  // ---------------------------------------------------------------------------

  /** Lines 160-162: `var[vkey + name] = vector`, name by name in order, for every non-constant vector. */
  function WrittenPars(vars: map<string, Annotation>, vkey: string, names: seq<string>, pars: seq<Annotation>): map<string, Annotation>
    requires |names| == |pars|
    decreases |names|
  {
    if |names| == 0 then vars
    else WrittenPars(if NonConstantAnnotation(pars[0]) then vars[vkey + names[0] := pars[0]] else vars,
                     vkey, names[1..], pars[1..])
  }

  /** Writing vectors of the table's length keeps every column at that length. */
  lemma {:induction false} WrittenParsLengths(vars: map<string, Annotation>, vkey: string, names: seq<string>,
                                              pars: seq<Annotation>, n: nat)
    requires |names| == |pars|
    requires forall k :: k in vars ==> AnnotationLength(vars[k]) == n
    requires forall i :: 0 <= i < |pars| ==> AnnotationLength(pars[i]) == n
    ensures forall k :: k in WrittenPars(vars, vkey, names, pars) ==> AnnotationLength(WrittenPars(vars, vkey, names, pars)[k]) == n
    decreases |names|
  {
    if |names| > 0 {
      var v1 := if NonConstantAnnotation(pars[0]) then vars[vkey + names[0] := pars[0]] else vars;
      assert forall i :: 0 <= i < |pars[1..]| ==> pars[1..][i] == pars[i + 1];
      assert forall k :: k in v1 ==> AnnotationLength(v1[k]) == n;
      WrittenParsLengths(v1, vkey, names[1..], pars[1..], n);
      var r := WrittenPars(vars, vkey, names, pars);
      var r1 := WrittenPars(v1, vkey, names[1..], pars[1..]);
      assert r == r1;
      forall k | k in r ensures AnnotationLength(r[k]) == n {
        assert k in r1;
      }
    }
  }

  /** Names given as distinct stay distinct under a common prefix. */
  lemma PrefixedDistinct(vkey: string, a: string, b: string)
    requires a != b
    ensures vkey + a != vkey + b
  {
    assert (vkey + a)[|vkey|..] == a;
    assert (vkey + b)[|vkey|..] == b;
  }

  predicate DistinctNames(names: seq<string>)
  {
    forall i, j :: 0 <= i < j < |names| ==> names[i] != names[j]
  }

  /**
    With distinct names: the key of a non-constant vector holds that vector,
    the key of a constant vector is left as it was, and every other key is
    untouched.
   */
  lemma {:induction false} WrittenParsSpec(vars: map<string, Annotation>, vkey: string, names: seq<string>, pars: seq<Annotation>)
    requires |names| == |pars| && DistinctNames(names)
    ensures var r := WrittenPars(vars, vkey, names, pars);
            forall i :: 0 <= i < |names| ==>
              if NonConstantAnnotation(pars[i]) then vkey + names[i] in r && r[vkey + names[i]] == pars[i]
              else (vkey + names[i] in r <==> vkey + names[i] in vars)
                   && (vkey + names[i] in vars ==> r[vkey + names[i]] == vars[vkey + names[i]])
    ensures var r := WrittenPars(vars, vkey, names, pars);
            forall k :: (forall i :: 0 <= i < |names| ==> k != vkey + names[i]) ==>
              (k in r <==> k in vars) && (k in vars ==> r[k] == vars[k])
    decreases |names|
  {
    if |names| > 0 {
      var v1 := if NonConstantAnnotation(pars[0]) then vars[vkey + names[0] := pars[0]] else vars;
      WrittenParsSpec(v1, vkey, names[1..], pars[1..]);
      var r := WrittenPars(vars, vkey, names, pars);
      forall i | 1 <= i < |names|
        ensures vkey + names[i] != vkey + names[0]
      {
        PrefixedDistinct(vkey, names[i], names[0]);
      }
      assert forall i :: 1 <= i < |names| ==> names[1..][i - 1] == names[i] && pars[1..][i - 1] == pars[i];
      forall k | (forall i :: 0 <= i < |names| ==> k != vkey + names[i])
        ensures (k in r <==> k in vars) && (k in vars ==> r[k] == vars[k])
      {
        assert forall i :: 0 <= i < |names[1..]| ==> k != vkey + names[1..][i] by {
          forall i | 0 <= i < |names[1..]| ensures k != vkey + names[1..][i] {
            assert names[1..][i] == names[i + 1];
          }
        }
      }
    }
  }

  /**
    Lines 160-162 on the dataset: the loop writes the vectors one name at a
    time; the result is `WrittenPars`.
   */
  method WriteParameters(a: AnnData, vkey: string, names: seq<string>, pars: seq<Annotation>)
    requires a.Valid() && |names| == |pars|
    requires forall i :: 0 <= i < |pars| ==> AnnotationLength(pars[i]) == |a.varNames|
    modifies a
    ensures a.Valid()
    ensures a.Snapshot() == old(a.Snapshot()).(vars := WrittenPars(old(a.vars), vkey, names, pars))
  {
    var i := 0;
    while i < |names|
      invariant 0 <= i <= |names|
      invariant a.Valid() && a.Snapshot() == old(a.Snapshot()).(vars := a.vars)
      invariant WrittenPars(a.vars, vkey, names[i..], pars[i..]) == WrittenPars(old(a.vars), vkey, names, pars)
    {
      assert names[i..][1..] == names[i + 1..] && pars[i..][1..] == pars[i + 1..];
      if NonConstantAnnotation(pars[i]) {
        a.SetVar(vkey + names[i], pars[i]);
      }
      i := i + 1;
    }
  }

  // ---------------------------------------------------------------------------
  // The whole call as a function of the dataset
  // ---------------------------------------------------------------------------

  /** The dataset after the call (or as far as it got) and the exception raised, if any. */
  datatype Outcome = Outcome(state: Data, error: Option<Error>)

  /** The exception numpy raises at line 57 when the velocity-gene mask selects none of two genes or more. */
  const EmptyMaskError: Error := ValueError("boolean index assignment into an all-false mask")

  /** Storing a matrix into a layer, or into its group rows, whose shape it does not match. */
  const LayerShapeError: Error := ValueError("value does not match the shape of the layer")

  /** The layer a raw or smoothed matrix is read from (lines 14-15). */
  function SplicedKey(useRaw: bool): string
  {
    if useRaw then "spliced" else "Ms"
  }

  function UnsplicedKey(useRaw: bool): string
  {
    if useRaw then "unspliced" else "Mu"
  }

  /**
    Line 122: unless raw counts are asked for, missing smoothed moments are
    computed and stored as the layers 'Ms' and 'Mu'; nothing else changes.
   */
  function WithMoments(d: Data, useRaw: bool, ext: Externals): (r: Data)
    requires WellFormed(d)
    ensures WellFormed(r) && r == d.(layers := r.layers)
    ensures !useRaw ==> "Ms" in r.layers
    ensures (useRaw || "Ms" in d.layers) ==> r == d
    ensures d.layers.Keys <= r.layers.Keys <= d.layers.Keys + {"Ms", "Mu"}
  {
    if !useRaw && "Ms" !in d.layers then
      var n := |d.varNames|;
      var ms := seq(n, j requires 0 <= j < n => seq(d.nObs, i requires 0 <= i < d.nObs => ext.moments(d.varNames[j], i).s));
      var mu := seq(n, j requires 0 <= j < n => seq(d.nObs, i requires 0 <= i < d.nObs => ext.moments(d.varNames[j], i).u));
      d.(layers := d.layers["Ms" := ms]["Mu" := mu])
    else d
  }

  /**
    Lines 12-19 and 27-28: what the estimator is built from. A missing layer
    is a KeyError (the spliced one is read first) and a fitting-row mask of
    the wrong length an IndexError.
   */
  function InputsOf(view: Data, useRaw: bool, subset: Option<seq<bool>>, ext: Externals): (r: Result<Inputs>)
    requires WellFormed(view)
    ensures r.Ok? ==> ValidInputs(r.value) && r.value.nObs == view.nObs && r.value.genes == view.varNames
    ensures SplicedKey(useRaw) !in view.layers ==> r == Err(KeyError(SplicedKey(useRaw)))
    ensures SplicedKey(useRaw) in view.layers && UnsplicedKey(useRaw) !in view.layers ==> r == Err(KeyError(UnsplicedKey(useRaw)))
    ensures r.Ok? <==> && SplicedKey(useRaw) in view.layers && UnsplicedKey(useRaw) in view.layers
                       && (subset.Some? ==> |subset.value| == view.nObs)
    ensures r.Ok? ==> && r.value.ms == view.layers[SplicedKey(useRaw)]
                      && r.value.mu == view.layers[UnsplicedKey(useRaw)]
                      && r.value.subset == subset
  {
    if SplicedKey(useRaw) !in view.layers then Err(KeyError(SplicedKey(useRaw)))
    else if UnsplicedKey(useRaw) !in view.layers then Err(KeyError(UnsplicedKey(useRaw)))
    else if subset.Some? && |subset.value| != view.nObs then Err(IndexError("subset_for_fitting"))
    else Ok(Inputs(view.nObs, view.varNames, view.layers[SplicedKey(useRaw)], view.layers[UnsplicedKey(useRaw)],
                   subset, ext.num, ext.moments2))
  }

  /** What the estimator's input must agree with: the view of `d` through the groups. */
  ghost predicate Matches(d: Data, g: Option<seq<bool>>, inp: Inputs)
  {
    && WellFormed(d) && ValidInputs(inp)
    && (g.Some? ==> |g.value| == d.nObs)
    && inp.nObs == (if g.Some? then Count(g.value) else d.nObs)
    && |inp.genes| == |d.varNames|
  }

  /**
    Lines 160-170: the non-constant parameter vectors are written, then the
    genes are narrowed to the velocity genes when asked to and the mask is
    non-constant.
   */
  function Finish(d: Data, p: Pars, a: Args): (o: Outcome)
    requires WellFormed(d) && ParsShaped(p, |d.varNames|)
    ensures WellFormed(o.state) && o.error == None
  {
    var vars := WrittenPars(d.vars, a.vkey, ParNames(), ParVectors(p));
    ParVectorsShaped(p, |d.varNames|);
    WrittenParsLengths(d.vars, a.vkey, ParNames(), ParVectors(p), |d.varNames|);
    var d4 := Data(d.nObs, d.varNames, d.obs, vars, d.uns, d.layers);
    assert WellFormed(d4);
    if a.filterGenes && NonConstant(p.velocityGenes) then Outcome(SubsetVar(d4, p.velocityGenes), None)
    else Outcome(d4, None)
  }

  /**
    Lines 147-152 and 160-170: both residual layers of a finished stochastic
    stage, then the parameters. A second residual without columns does not
    fit the layer it is stored into: the first layer is written (and, with
    groups, the second created as zeros at line 151), then the store raises
    a ValueError and nothing after it runs.
   */
  function WriteBack(d: Data, g: Option<seq<bool>>, s3: Fitted, a: Args): (o: Outcome)
    requires WellFormed(d) && (g.Some? ==> |g.value| == d.nObs)
    requires FittedShaped(s3, if g.Some? then Count(g.value) else d.nObs, |d.varNames|)
    requires s3.residual.Some? && s3.residual2.Some?
    ensures WellFormed(o.state)
  {
    var l1 := WriteLayer(d.layers, d.nObs, |d.varNames|, a.vkey, g, s3.residual.value);
    var vkey2 := "variance_" + a.vkey;
    if Shaped(s3.residual2.value, if g.Some? then Count(g.value) else d.nObs, |d.varNames|) then
      var l2 := WriteLayer(l1, d.nObs, |d.varNames|, vkey2, g, s3.residual2.value);
      Finish(d.(layers := l2), s3.pars, a)
    else
      var l2 := if g.Some? && vkey2 !in l1 then l1[vkey2 := Zeros(d.nObs, |d.varNames|)] else l1;
      Outcome(d.(layers := l2), Some(LayerShapeError))
  }

  /**
    Lines 146-158 on the stochastic path: run the stage, raising on an
    all-false mask over two genes or more, and write back.
   */
  function StochasticFinish(d: Data, g: Option<seq<bool>>, inp: Inputs, s: Fitted, a: Args): (o: Outcome)
    requires Matches(d, g, inp) && FittedShaped(s, inp.nObs, |inp.genes|)
    ensures WellFormed(o.state)
  {
    var pre := PreStochastic(inp, s, a.fitOffset);
    if Raises(pre) then Outcome(d, Some(EmptyMaskError))
    else if Columnless(pre) then WriteBack(d, g, ColumnlessStage(inp, pre, a.fitOffset), a)
    else WriteBack(d, g, StochasticStage(inp, pre, a.fitOffset, a.fitOffset2, a.mode), a)
  }

  /**
    Lines 140-158: on the stochastic path, when asked to and the mask is
    non-constant, the dataset's genes are narrowed to the velocity genes and
    the estimator is rebuilt on the narrowed view with the residual's
    velocity-gene columns carried over.
   */
  function StochasticOutcome(d: Data, g: Option<seq<bool>>, inp: Inputs, s1: Fitted, a: Args, ext: Externals): (o: Outcome)
    requires Matches(d, g, inp) && FittedShaped(s1, inp.nObs, |inp.genes|) && s1.residual.Some?
    ensures WellFormed(o.state)
  {
    var idx := s1.pars.velocityGenes;
    if a.filterGenes && NonConstant(idx) then
      var d2 := SubsetVar(d, idx);
      match InputsOf(View(d2, g), false, a.subsetForFitting, ext)
      case Err(e) => Outcome(d2, Some(e))
      case Ok(inp2) =>
        SelectGenesShaped(s1.residual.value, idx, inp.nObs);
        StochasticFinish(d2, g, inp2, Initial(|inp2.genes|, Some(Select(s1.residual.value, idx))), a)
    else
      StochasticFinish(d, g, inp, s1, a)
  }

  /** `velocity(adata, ...)` on the object it works on (lines 122-170). */
  function VelocityOutcome(d: Data, a: Args, ext: Externals): (o: Outcome)
    requires WellFormed(d)
    ensures WellFormed(o.state)
  {
    var d1 := WithMoments(d, a.useRaw, ext);
    match ResolveGroups(d1, a.groups, a.groupby)
    case Err(e) => Outcome(d1, Some(e))
    case Ok(g) =>
      match InputsOf(View(d1, g), a.useRaw, a.subsetForFitting, ext)
      case Err(e) => Outcome(d1, Some(e))
      case Ok(inp) => Fitting(d1, g, inp, a, ext)
  }

  /** Lines 136-170 once the estimator's inputs are resolved. */
  function Fitting(d: Data, g: Option<seq<bool>>, inp: Inputs, a: Args, ext: Externals): (o: Outcome)
    requires Matches(d, g, inp)
    ensures WellFormed(o.state)
  {
    var s1 := Deterministic(inp, Initial(|inp.genes|, None), a.fitOffset);
    if IsStochastic(a.mode) then StochasticOutcome(d, g, inp, s1, a, ext)
    else DeterministicWriteBack(d, g, s1, a)
  }

  /** Lines 154-158 and 160-170: only the first residual layer, then the parameters. */
  function DeterministicWriteBack(d: Data, g: Option<seq<bool>>, s1: Fitted, a: Args): (o: Outcome)
    requires WellFormed(d) && (g.Some? ==> |g.value| == d.nObs)
    requires FittedShaped(s1, if g.Some? then Count(g.value) else d.nObs, |d.varNames|) && s1.residual.Some?
    ensures WellFormed(o.state)
  {
    Finish(d.(layers := WriteLayer(d.layers, d.nObs, |d.varNames|, a.vkey, g, s1.residual.value)), s1.pars, a)
  }

  // ---------------------------------------------------------------------------
  // The call as the in-place program
  // ---------------------------------------------------------------------------

  /** Line 122 on the object. */
  method EnsureMoments(adata: AnnData, useRaw: bool, ext: Externals)
    requires adata.Valid()
    modifies adata
    ensures adata.Valid() && adata.Snapshot() == WithMoments(old(adata.Snapshot()), useRaw, ext)
  {
    if !useRaw && "Ms" !in adata.layers {
      var smoothed := WithMoments(adata.Snapshot(), useRaw, ext).layers;
      adata.SetLayer("Ms", smoothed["Ms"]);
      adata.SetLayer("Mu", smoothed["Mu"]);
    }
  }

  /** Lines 148, 150-152, 155 and 157-158 for one layer, on the object. */
  method WriteLayerIn(adata: AnnData, key: string, rows: Option<seq<bool>>, value: Matrix)
    requires adata.Valid()
    requires rows.Some? ==> |rows.value| == adata.nObs && Shaped(value, Count(rows.value), |adata.varNames|)
    requires rows.None? ==> Shaped(value, adata.nObs, |adata.varNames|)
    modifies adata
    ensures adata.Valid()
    ensures adata.Snapshot()
            == old(adata.Snapshot()).(layers := WriteLayer(old(adata.layers), old(adata.nObs), old(|adata.varNames|), key, rows, value))
  {
    if rows.None? {
      adata.SetLayer(key, value);
    } else {
      if key !in adata.layers {
        adata.SetLayer(key, Zeros(adata.nObs, |adata.varNames|));
      }
      adata.SetLayer(key, WriteRows(adata.layers[key], rows.value, value));
    }
  }

  /** Lines 160-170 on the object. */
  method FinishIn(adata: AnnData, v: Velocity, a: Args)
    requires adata.Valid() && v.Valid() && |v.genes| == |adata.varNames|
    modifies adata
    ensures adata.Valid()
    ensures Outcome(adata.Snapshot(), None) == Finish(old(adata.Snapshot()), old(v.State()).pars, a)
  {
    var pars := v.GetPars();
    ParNamesPickVectors(v.State().pars);
    assert pars == ParVectors(v.State().pars);
    ParVectorsShaped(v.State().pars, |adata.varNames|);
    WriteParameters(adata, a.vkey, ParNames(), pars);
    var vg := v.velocityGenes[..];
    if a.filterGenes && NonConstant(vg) {
      adata.InplaceSubsetVar(vg);
    }
  }

  /** Lines 146-158 on the object, given the estimator to run. */
  method StochasticFinishIn(adata: AnnData, g: Option<seq<bool>>, v: Velocity, a: Args) returns (err: Option<Error>)
    requires adata.Valid() && v.Valid() && Matches(adata.Snapshot(), g, v.Given())
    modifies adata, v, v.offset, v.offset2, v.gamma
    ensures adata.Valid()
    ensures Outcome(adata.Snapshot(), err) == StochasticFinish(old(adata.Snapshot()), g, v.Given(), old(v.State()), a)
  {
    var raised := v.ComputeStochastic(a.fitOffset, a.fitOffset2, a.mode);
    if raised {
      return Some(EmptyMaskError);
    }
    err := StageWriteBackIn(adata, g, v, a, old(v.State()));
  }

  /** Lines 147-158 and 160-170 on the object, once the stochastic stage has run without raising. */
  method StageWriteBackIn(adata: AnnData, g: Option<seq<bool>>, v: Velocity, a: Args, ghost s: Fitted)
    returns (err: Option<Error>)
    requires adata.Valid() && v.Valid() && Matches(adata.Snapshot(), g, v.Given())
    requires FittedShaped(s, v.nObs, |v.genes|)
    requires !Raises(PreStochastic(v.Given(), s, a.fitOffset))
    requires var pre := PreStochastic(v.Given(), s, a.fitOffset);
             v.State() == if Columnless(pre) then ColumnlessStage(v.Given(), pre, a.fitOffset)
                          else StochasticStage(v.Given(), pre, a.fitOffset, a.fitOffset2, a.mode)
    modifies adata
    ensures adata.Valid()
    ensures Outcome(adata.Snapshot(), err) == StochasticFinish(old(adata.Snapshot()), g, v.Given(), s, a)
  {
    err := WriteBackIn(adata, g, v, a);
  }

  /** Lines 147-152 and 160-170 on the object. */
  method WriteBackIn(adata: AnnData, g: Option<seq<bool>>, v: Velocity, a: Args) returns (err: Option<Error>)
    requires adata.Valid() && v.Valid() && (g.Some? ==> |g.value| == adata.nObs)
    requires v.nObs == (if g.Some? then Count(g.value) else adata.nObs) && |v.genes| == |adata.varNames|
    requires v.State().residual.Some? && v.State().residual2.Some?
    modifies adata
    ensures adata.Valid()
    ensures Outcome(adata.Snapshot(), err) == WriteBack(old(adata.Snapshot()), g, old(v.State()), a)
  {
    var res, res2 := v.GetResiduals();
    if !Shaped(res2.value, v.nObs, |adata.varNames|) {
      var vkey2 := "variance_" + a.vkey;
      WriteLayerIn(adata, a.vkey, g, res.value);
      if g.Some? && vkey2 !in adata.layers {
        adata.SetLayer(vkey2, Zeros(adata.nObs, |adata.varNames|));
      }
      return Some(LayerShapeError);
    }
    WriteResidualLayers(adata, g, a.vkey, res.value, res2.value);
    FinishIn(adata, v, a);
    err := None;
  }

  /** Lines 148 and 150-152: both residual layers, on the object. */
  method WriteResidualLayers(adata: AnnData, g: Option<seq<bool>>, vkey: string, res: Matrix, res2: Matrix)
    requires adata.Valid()
    requires g.Some? ==> |g.value| == adata.nObs
    requires Shaped(res, if g.Some? then Count(g.value) else adata.nObs, |adata.varNames|)
    requires Shaped(res2, if g.Some? then Count(g.value) else adata.nObs, |adata.varNames|)
    modifies adata
    ensures adata.Valid()
    ensures var l1 := WriteLayer(old(adata.layers), old(adata.nObs), old(|adata.varNames|), vkey, g, res);
            adata.Snapshot()
            == old(adata.Snapshot()).(layers := WriteLayer(l1, old(adata.nObs), old(|adata.varNames|), "variance_" + vkey, g, res2))
  {
    WriteLayerIn(adata, vkey, g, res);
    WriteLayerIn(adata, "variance_" + vkey, g, res2);
  }

  /** Lines 140-158 on the object: the optional gene narrowing and rebuild, then the stochastic stage. */
  method StochasticPathIn(adata: AnnData, g: Option<seq<bool>>, velo: Velocity, a: Args, ext: Externals)
    returns (err: Option<Error>)
    requires adata.Valid() && velo.Valid() && Matches(adata.Snapshot(), g, velo.Given())
    requires velo.State().residual.Some?
    modifies adata, velo, velo.offset, velo.offset2, velo.gamma
    ensures adata.Valid()
    ensures Outcome(adata.Snapshot(), err)
            == StochasticOutcome(old(adata.Snapshot()), g, velo.Given(), old(velo.State()), a, ext)
  {
    var idx := velo.velocityGenes[..];
    if a.filterGenes && NonConstant(idx) {
      var res := velo.residual.value;
      adata.InplaceSubsetVar(idx);
      var i2 := InputsOf(View(adata.Snapshot(), g), false, a.subsetForFitting, ext);
      if i2.Err? {
        return Some(i2.error);
      }
      var inp2 := i2.value;
      SelectGenesShaped(res, idx, velo.nObs);
      var v := new Velocity(inp2.nObs, inp2.genes, inp2.ms, inp2.mu, inp2.subset, Some(Select(res, idx)),
                            inp2.num, inp2.moments2);
      err := StochasticFinishIn(adata, g, v, a);
    } else {
      err := StochasticFinishIn(adata, g, velo, a);
    }
  }

  /** Lines 122-170 on the object the call works on. */
  method Apply(adata: AnnData, a: Args, ext: Externals) returns (err: Option<Error>)
    requires adata.Valid()
    modifies adata
    ensures adata.Valid()
    ensures Outcome(adata.Snapshot(), err) == VelocityOutcome(old(adata.Snapshot()), a, ext)
  {
    EnsureMoments(adata, a.useRaw, ext);
    var rg := ResolveGroups(adata.Snapshot(), a.groups, a.groupby);
    if rg.Err? {
      return Some(rg.error);
    }
    var g := rg.value;
    var ri := InputsOf(View(adata.Snapshot(), g), a.useRaw, a.subsetForFitting, ext);
    if ri.Err? {
      return Some(ri.error);
    }
    err := FittingIn(adata, g, ri.value, a, ext);
  }

  /** Lines 136-170 on the object, once the estimator's inputs are resolved. */
  method FittingIn(adata: AnnData, g: Option<seq<bool>>, inp: Inputs, a: Args, ext: Externals) returns (err: Option<Error>)
    requires adata.Valid() && Matches(adata.Snapshot(), g, inp)
    modifies adata
    ensures adata.Valid()
    ensures Outcome(adata.Snapshot(), err) == Fitting(old(adata.Snapshot()), g, inp, a, ext)
  {
    var velo := new Velocity(inp.nObs, inp.genes, inp.ms, inp.mu, inp.subset, None, inp.num, inp.moments2);
    assert velo.Given() == inp;
    velo.ComputeDeterministic(a.fitOffset);
    if IsStochastic(a.mode) {
      err := StochasticPathIn(adata, g, velo, a, ext);
    } else {
      DeterministicWriteBackIn(adata, g, velo, a);
      err := None;
    }
  }

  /** Lines 154-158 and 160-170 on the object. */
  method DeterministicWriteBackIn(adata: AnnData, g: Option<seq<bool>>, v: Velocity, a: Args)
    requires adata.Valid() && v.Valid() && (g.Some? ==> |g.value| == adata.nObs)
    requires v.nObs == (if g.Some? then Count(g.value) else adata.nObs) && |v.genes| == |adata.varNames|
    requires v.State().residual.Some?
    modifies adata
    ensures adata.Valid()
    ensures Outcome(adata.Snapshot(), None) == DeterministicWriteBack(old(adata.Snapshot()), g, old(v.State()), a)
  {
    var res, _ := v.GetResiduals();
    WriteLayerIn(adata, a.vkey, g, res.value);
    FinishIn(adata, v, a);
  }

  /**
    `velocity(data, ...)`: with `copy` the call works on a copy, returns it
    and leaves `data` as it was; without `copy` it changes `data` and returns
    nothing. An exception is returned as an error; without `copy` the writes
    made before it stay.
   */
  method RunVelocity(data: AnnData, a: Args, ext: Externals) returns (r: Result<Option<AnnData>>)
    requires data.Valid()
    modifies data
    ensures data.Valid()
    ensures a.copy ==> data.Snapshot() == old(data.Snapshot())
    ensures var o := VelocityOutcome(old(data.Snapshot()), a, ext);
            && (!a.copy ==> data.Snapshot() == o.state)
            && (r.Err? <==> o.error.Some?)
            && (r.Err? ==> r.error == o.error.value)
            && (r.Ok? && a.copy ==> r.value.Some? && fresh(r.value.value) && r.value.value.Snapshot() == o.state)
            && (r.Ok? && !a.copy ==> r.value.None?)
  {
    var adata := data;
    if a.copy {
      adata := data.Copy();
    }
    var err := Apply(adata, a, ext);
    if err.Some? {
      return Err(err.value);
    }
    r := if a.copy then Ok(Some(adata)) else Ok(None);
  }
}
