/**
  Properties of the whole `velocity` call, stated on the function that
  describes its outcome: which layers and per-gene columns it adds, that the
  genes are narrowed at most once, and that the constant `beta` vector never
  reaches the dataset.
 */
module Outcomes {
  import opened Basics
  import opened Masks
  import opened Tables
  import opened Estimator
  import opened Dataset
  import opened Driver

  /** Every entry is 1, as `beta` is from the constructor on. */
  predicate Ones(v: seq<real>)
  {
    forall j :: 0 <= j < |v| ==> v[j] == 1.0
  }

  /**
    Lines 160-170: the parameter step changes neither the cells, nor the cell
    tables, nor the set of layers; the key of each parameter name is present
    afterwards exactly when its vector is non-constant or the key was there
    before; the genes are narrowed to the velocity genes exactly when asked to
    and the mask is non-constant.
   */
  lemma FinishEffect(d: Data, p: Pars, a: Args)
    requires WellFormed(d) && ParsShaped(p, |d.varNames|)
    ensures var o := Finish(d, p, a);
            && o.state.nObs == d.nObs && o.state.obs == d.obs && o.state.uns == d.uns
            && o.state.layers.Keys == d.layers.Keys
            && o.state.varNames == if a.filterGenes && NonConstant(p.velocityGenes)
                                   then Select(d.varNames, p.velocityGenes) else d.varNames
    ensures var o := Finish(d, p, a);
            forall i :: 0 <= i < 6 ==>
              (a.vkey + ParNames()[i] in o.state.vars
               <==> NonConstantAnnotation(ParVectors(p)[i]) || a.vkey + ParNames()[i] in d.vars)
  {
    ParNamesPickVectors(p);
    WrittenParsSpec(d.vars, a.vkey, ParNames(), ParVectors(p));
  }

  /** Line 170 never narrows the genes when the mask is constant, so an all-ones `beta` is never written. */
  lemma FinishSkipsBeta(d: Data, p: Pars, a: Args)
    requires WellFormed(d) && ParsShaped(p, |d.varNames|) && Ones(p.beta)
    ensures (a.vkey + "_beta" in Finish(d, p, a).state.vars) <==> (a.vkey + "_beta" in d.vars)
  {
    FinishEffect(d, p, a);
    ConstantNotNonConstant(p.beta, 1.0);
    assert ParNames()[2] == "_beta" && ParVectors(p)[2] == Reals(p.beta);
  }

  /**
    Lines 147-152 and 160-170: a finished stochastic stage writes both
    residual layers, then the parameters, then narrows the genes.
   */
  lemma WriteBackEffect(d: Data, g: Option<seq<bool>>, s3: Fitted, a: Args)
    requires WellFormed(d) && (g.Some? ==> |g.value| == d.nObs)
    requires FittedShaped(s3, if g.Some? then Count(g.value) else d.nObs, |d.varNames|)
    requires s3.residual.Some? && s3.residual2.Some?
    requires Shaped(s3.residual2.value, if g.Some? then Count(g.value) else d.nObs, |d.varNames|)
    ensures var o := WriteBack(d, g, s3, a);
            && o.error.None?
            && a.vkey in o.state.layers && "variance_" + a.vkey in o.state.layers
            && o.state.varNames == if a.filterGenes && NonConstant(s3.pars.velocityGenes)
                                   then Select(d.varNames, s3.pars.velocityGenes) else d.varNames
    ensures Ones(s3.pars.beta) ==>
              ((a.vkey + "_beta" in WriteBack(d, g, s3, a).state.vars) <==> (a.vkey + "_beta" in d.vars))
  {
    var l1 := WriteLayer(d.layers, d.nObs, |d.varNames|, a.vkey, g, s3.residual.value);
    var l2 := WriteLayer(l1, d.nObs, |d.varNames|, "variance_" + a.vkey, g, s3.residual2.value);
    FinishEffect(d.(layers := l2), s3.pars, a);
    if Ones(s3.pars.beta) {
      FinishSkipsBeta(d.(layers := l2), s3.pars, a);
    }
  }

  /**
    Lines 146-158 for an estimator that already holds a residual: when no
    error is raised, the stage keeps the mask, both residual layers are
    written and the genes are narrowed by that mask.
   */
  lemma StochasticFinishEffect(d: Data, g: Option<seq<bool>>, inp: Inputs, s: Fitted, a: Args)
    requires Matches(d, g, inp) && FittedShaped(s, inp.nObs, |inp.genes|) && s.residual.Some?
    ensures var o := StochasticFinish(d, g, inp, s, a);
            && (o.error.None? ==>
                  && a.vkey in o.state.layers && "variance_" + a.vkey in o.state.layers
                  && o.state.varNames == if a.filterGenes && NonConstant(s.pars.velocityGenes)
                                         then Select(d.varNames, s.pars.velocityGenes) else d.varNames)
  {
    assert PreStochastic(inp, s, a.fitOffset) == s;
    if Columnless(s) {
      OneGeneOutsideMask(d, g, inp, s, a);
    } else if !Raises(s) {
      var s3 := StochasticStage(inp, s, a.fitOffset, a.fitOffset2, a.mode);
      assert StochasticFinish(d, g, inp, s, a) == WriteBack(d, g, s3, a);
      WriteBackEffect(d, g, s3, a);
    }
  }

  /**
    Lines 57-71, 147-152: a single gene outside the mask. The stage does not
    raise, the velocity layer is written with the residual of the kept
    parameters (with groups, at the group's rows of a layer created as zeros
    when missing), the variance layer is created as zeros when groups are
    given and it is missing, and storing the column-less second residual
    raises a ValueError. No parameter is written and no gene is removed.
   */
  lemma OneGeneOutsideMask(d: Data, g: Option<seq<bool>>, inp: Inputs, s: Fitted, a: Args)
    requires Matches(d, g, inp) && FittedShaped(s, inp.nObs, |inp.genes|) && s.residual.Some? && Columnless(s)
    ensures var o := StochasticFinish(d, g, inp, s, a);
            var vkey2 := "variance_" + a.vkey;
            && o.error == Some(LayerShapeError)
            && o.state.layers[a.vkey] == WriteLayer(d.layers, d.nObs, |d.varNames|, a.vkey, g,
                                                    ColumnlessStage(inp, s, a.fitOffset).residual.value)[a.vkey]
            && (vkey2 in o.state.layers <==> g.Some? || vkey2 in d.layers)
            && (vkey2 in d.layers ==> o.state.layers[vkey2] == d.layers[vkey2])
            && o.state.varNames == d.varNames && o.state.vars == d.vars && o.state.nObs == d.nObs
  {
    var s3 := ColumnlessStage(inp, s, a.fitOffset);
    assert PreStochastic(inp, s, a.fitOffset) == s && !Raises(s);
    assert StochasticFinish(d, g, inp, s, a) == WriteBack(d, g, s3, a);
    assert |d.varNames| == 1;
    VarianceKeyIsNew(a.vkey);
  }

  /** Lines 146-170: an all-ones `beta` survives the stage and is not written, whether the stage raises or not. */
  lemma StochasticFinishBeta(d: Data, g: Option<seq<bool>>, inp: Inputs, s: Fitted, a: Args)
    requires Matches(d, g, inp) && FittedShaped(s, inp.nObs, |inp.genes|) && s.residual.Some? && Ones(s.pars.beta)
    ensures (a.vkey + "_beta" in StochasticFinish(d, g, inp, s, a).state.vars) <==> (a.vkey + "_beta" in d.vars)
  {
    assert PreStochastic(inp, s, a.fitOffset) == s;
    if Columnless(s) {
      OneGeneOutsideMask(d, g, inp, s, a);
    } else if !Raises(s) {
      var s3 := StochasticStage(inp, s, a.fitOffset, a.fitOffset2, a.mode);
      assert StochasticFinish(d, g, inp, s, a) == WriteBack(d, g, s3, a);
      WriteBackEffect(d, g, s3, a);
    }
  }

  /**
    Lines 142-146: narrowing the genes, then rebuilding the estimator on the
    narrowed view with the kept residual columns. The rebuilt mask is all
    true, so the check at line 169 narrows nothing more.
   */
  lemma RefitEffect(d: Data, g: Option<seq<bool>>, inp: Inputs, s1: Fitted, a: Args, ext: Externals)
    requires Matches(d, g, inp) && FittedShaped(s1, inp.nObs, |inp.genes|) && s1.residual.Some?
    requires a.filterGenes && NonConstant(s1.pars.velocityGenes)
    ensures var o := StochasticOutcome(d, g, inp, s1, a, ext);
            && (o.error.None? ==>
                  && a.vkey in o.state.layers && "variance_" + a.vkey in o.state.layers
                  && o.state.varNames == Select(d.varNames, s1.pars.velocityGenes))
            && ((a.vkey + "_beta" in o.state.vars) <==> (a.vkey + "_beta" in d.vars))
  {
    var idx := s1.pars.velocityGenes;
    var d2 := SubsetVar(d, idx);
    var ri := InputsOf(View(d2, g), false, a.subsetForFitting, ext);
    if ri.Ok? {
      var inp2 := ri.value;
      var res := Select(s1.residual.value, idx);
      SelectGenesShaped(s1.residual.value, idx, inp.nObs);
      ConstantNotNonConstant(AllTrue(|inp2.genes|), true);
      StochasticFinishEffect(d2, g, inp2, Initial(|inp2.genes|, Some(res)), a);
      StochasticFinishBeta(d2, g, inp2, Initial(|inp2.genes|, Some(res)), a);
    }
  }

  /** Lines 140-158: the stochastic path, with or without the rebuild. */
  lemma StochasticOutcomeEffect(d: Data, g: Option<seq<bool>>, inp: Inputs, s1: Fitted, a: Args, ext: Externals)
    requires Matches(d, g, inp) && FittedShaped(s1, inp.nObs, |inp.genes|) && s1.residual.Some?
    requires Ones(s1.pars.beta)
    ensures var o := StochasticOutcome(d, g, inp, s1, a, ext);
            var idx := s1.pars.velocityGenes;
            && (o.error.None? ==>
                  && a.vkey in o.state.layers && "variance_" + a.vkey in o.state.layers
                  && o.state.varNames == if a.filterGenes && NonConstant(idx) then Select(d.varNames, idx) else d.varNames)
            && ((a.vkey + "_beta" in o.state.vars) <==> (a.vkey + "_beta" in d.vars))
  {
    if a.filterGenes && NonConstant(s1.pars.velocityGenes) {
      RefitEffect(d, g, inp, s1, a, ext);
    } else {
      StochasticFinishEffect(d, g, inp, s1, a);
      StochasticFinishBeta(d, g, inp, s1, a);
    }
  }

  /**
    Lines 136-170 once the inputs are resolved. A call that ends without an
    exception has written the layer `vkey`, and on the stochastic path also
    `'variance_' + vkey`; the deterministic path adds exactly `vkey` to the
    layers. The genes are narrowed once, to the deterministic velocity genes
    when asked to filter and that mask is non-constant: on the stochastic
    path line 169 agrees with line 142 (the stage keeps the mask, and a
    rebuilt estimator's mask is all true). Whatever the path or exception,
    `var[vkey + '_beta']` is present after the call exactly when it was
    before: `beta` is constant 1 and constant vectors are never written.
   */
  lemma FittingEffect(d: Data, g: Option<seq<bool>>, inp: Inputs, a: Args, ext: Externals)
    requires Matches(d, g, inp)
    ensures var o := Fitting(d, g, inp, a, ext);
            o.error.None? ==> a.vkey in o.state.layers
    ensures var o := Fitting(d, g, inp, a, ext);
            o.error.None? && IsStochastic(a.mode) ==> "variance_" + a.vkey in o.state.layers
    ensures var o := Fitting(d, g, inp, a, ext);
            !IsStochastic(a.mode) ==> o.state.layers.Keys == d.layers.Keys + {a.vkey}
    ensures var s1 := Deterministic(inp, Initial(|inp.genes|, None), a.fitOffset);
            var idx := s1.pars.velocityGenes;
            var o := Fitting(d, g, inp, a, ext);
            o.error.None? ==>
              o.state.varNames == if a.filterGenes && NonConstant(idx) then Select(d.varNames, idx) else d.varNames
    ensures (a.vkey + "_beta" in Fitting(d, g, inp, a, ext).state.vars) <==> (a.vkey + "_beta" in d.vars)
  {
    var s0 := Initial(|inp.genes|, None);
    var s1 := Deterministic(inp, s0, a.fitOffset);
    DeterministicKeeps(inp, s0, a.fitOffset);
    if IsStochastic(a.mode) {
      StochasticOutcomeEffect(d, g, inp, s1, a, ext);
    } else {
      var l := WriteLayer(d.layers, d.nObs, |d.varNames|, a.vkey, g, s1.residual.value);
      FinishEffect(d.(layers := l), s1.pars, a);
      FinishSkipsBeta(d.(layers := l), s1.pars, a);
    }
  }

  /**
    `velocity(adata, ...)`: whatever the mode, the groups, the refit or an
    exception, `var[vkey + '_beta']` is present after the call exactly when
    it was before.
   */
  lemma BetaNeverWritten(d: Data, a: Args, ext: Externals)
    requires WellFormed(d)
    ensures (a.vkey + "_beta" in VelocityOutcome(d, a, ext).state.vars) <==> (a.vkey + "_beta" in d.vars)
  {
    var d1 := WithMoments(d, a.useRaw, ext);
    var rg := ResolveGroups(d1, a.groups, a.groupby);
    if rg.Ok? {
      var g := rg.value;
      var ri := InputsOf(View(d1, g), a.useRaw, a.subsetForFitting, ext);
      if ri.Ok? {
        FittingEffect(d1, g, ri.value, a, ext);
      }
    }
  }

  /**
    `velocity(adata, ...)`: a call that ends without an exception has written
    the velocity layer `vkey`; the layer `'variance_' + vkey` is written on
    the stochastic path, and the deterministic path leaves its presence as it
    was.
   */
  lemma LayersWritten(d: Data, a: Args, ext: Externals)
    requires WellFormed(d)
    ensures var o := VelocityOutcome(d, a, ext);
            o.error.None? ==> a.vkey in o.state.layers
    ensures var o := VelocityOutcome(d, a, ext);
            o.error.None? && IsStochastic(a.mode) ==> "variance_" + a.vkey in o.state.layers
    ensures var o := VelocityOutcome(d, a, ext);
            !IsStochastic(a.mode) ==> ("variance_" + a.vkey in o.state.layers <==> "variance_" + a.vkey in d.layers)
  {
    var d1 := WithMoments(d, a.useRaw, ext);
    VarianceKeyIsNew(a.vkey);
    var rg := ResolveGroups(d1, a.groups, a.groupby);
    if rg.Ok? {
      var g := rg.value;
      var ri := InputsOf(View(d1, g), a.useRaw, a.subsetForFitting, ext);
      if ri.Ok? {
        FittingEffect(d1, g, ri.value, a, ext);
      }
    }
  }

  /** The variance key differs from the velocity key and from the moment layers. */
  lemma VarianceKeyIsNew(vkey: string)
    ensures "variance_" + vkey != vkey && "variance_" + vkey != "Ms" && "variance_" + vkey != "Mu"
  {
    assert |"variance_" + vkey| == |vkey| + 9;
  }
}
