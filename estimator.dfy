/**
  The `Velocity` estimator of scvelo/tools/velocity.py: per-gene kinetic
  parameters and the two residual layers, fitted in a deterministic stage
  and an optional stochastic stage.

  The regression routines (`solve_cov`, `solve2_inv`, `solve2_mle`,
  `R_squared`, numpy's column `std`) and the second-order moment smoothing
  live outside this model. They are function-valued inputs constrained only
  by their shapes. Everything the estimator does around them — which rows
  and genes they see, where their results are written, and the element-wise
  formulas that combine them — is modelled exactly.
 */
module Estimator {
  import opened Basics
  import opened Masks
  import opened Tables

  // ---------------------------------------------------------------------------
  // The unseen numerical collaborators
  // ---------------------------------------------------------------------------

  /** One gene's `offset, gamma` from `solve_cov`. */
  datatype GeneFit = GeneFit(offset: real, gamma: real)

  /** One gene's `offset, offset2, gamma` from `solve2_inv` or `solve2_mle`. */
  datatype GeneFit2 = GeneFit2(offset: real, offset2: real, gamma: real)

  /** One cell's second-order moments `Mss, Mus` of one gene. */
  datatype Moment2 = Moment2(ss: real, us: real)

  /**
    The solvers fit every gene on its own column, so each is given as its
    per-gene function; applying it to every column is the vectorised call.
    Their arithmetic is not modelled.
   */
  datatype Numerics = Numerics(
    solveCov: (Column, Column, bool) -> GeneFit,
    solve2Inv: (Column, Column, Column, Column, real, real, bool, bool) -> GeneFit2,
    solve2Mle: (Column, Column, Column, Column, bool, bool) -> GeneFit2,
    rSquared: (Column, Column) -> real,
    std: Column -> real)

  /** `offset, gamma` of every gene, as returned by `solve_cov`. */
  datatype CovFit = CovFit(offset: seq<real>, gamma: seq<real>)

  /** `offset, offset2, gamma` of every gene, as returned by the joint solvers. */
  datatype JointFit = JointFit(offset: seq<real>, offset2: seq<real>, gamma: seq<real>)

  predicate ZeroVector(v: seq<real>)
  {
    forall j :: 0 <= j < |v| ==> v[j] == 0.0
  }

  /** `solve_cov(x, y, fit_offset)`: one value per column; the offset is 0 when it is not fitted. */
  function SolveCov(n: Numerics, x: Matrix, y: Matrix, fitOffset: bool): (r: CovFit)
    requires |x| == |y|
    ensures |r.offset| == |x| && |r.gamma| == |x|
    ensures !fitOffset ==> ZeroVector(r.offset)
  {
    CovFit(seq(|x|, j requires 0 <= j < |x| => if fitOffset then n.solveCov(x[j], y[j], fitOffset).offset else 0.0),
           seq(|x|, j requires 0 <= j < |x| => n.solveCov(x[j], y[j], fitOffset).gamma))
  }

  /** Assembles per-gene joint fits; offsets that are not fitted are 0. */
  function JointFitFrom(fits: seq<GeneFit2>, fitOffset: bool, fitOffset2: bool): (r: JointFit)
    ensures |r.offset| == |fits| && |r.offset2| == |fits| && |r.gamma| == |fits|
    ensures !fitOffset ==> ZeroVector(r.offset)
    ensures !fitOffset2 ==> ZeroVector(r.offset2)
  {
    JointFit(seq(|fits|, j requires 0 <= j < |fits| => if fitOffset then fits[j].offset else 0.0),
             seq(|fits|, j requires 0 <= j < |fits| => if fitOffset2 then fits[j].offset2 else 0.0),
             seq(|fits|, j requires 0 <= j < |fits| => fits[j].gamma))
  }

  /** `R_squared(residual, total)`: one value per column. */
  function RSquared(n: Numerics, res: Matrix, total: Matrix): (r: seq<real>)
    requires |res| == |total|
    ensures |r| == |res|
  {
    seq(|res|, j requires 0 <= j < |res| => n.rSquared(res[j], total[j]))
  }

  /** `x.std(0)`: one value per column. */
  function Std(n: Numerics, x: Matrix): (r: seq<real>)
    ensures |r| == |x|
  {
    seq(|x|, j requires 0 <= j < |x| => n.std(x[j]))
  }

  // ---------------------------------------------------------------------------
  // Element-wise formulas (all matrices gene-major)
  // ---------------------------------------------------------------------------

  /** `c.mean()`; an empty column has no mean in numpy, here it is 0. */
  function Mean(c: Column): real
  {
    if |c| == 0 then 0.0 else Sum(c) / (|c| as real)
  }

  /** `Mu - Mu.mean(0)`: every gene centred on its mean over the cells. */
  function Centered(mu: Matrix): (r: Matrix)
    ensures SameShape(r, mu)
  {
    seq(|mu|, j requires 0 <= j < |mu| => seq(|mu[j]|, i requires 0 <= i < |mu[j]| => mu[j][i] - Mean(mu[j])))
  }

  /** `Mu - gamma * Ms`, minus `offset` when the offset is fitted. */
  function Residual1(ms: Matrix, mu: Matrix, gamma: seq<real>, offset: seq<real>, fitOffset: bool): (r: Matrix)
    requires SameShape(ms, mu) && |gamma| == |ms| && |offset| == |ms|
    ensures SameShape(r, ms)
  {
    seq(|ms|, j requires 0 <= j < |ms| =>
      seq(|ms[j]|, i requires 0 <= i < |ms[j]| =>
        mu[j][i] - gamma[j] * ms[j][i] - (if fitOffset then offset[j] else 0.0)))
  }

  /** `var_ss = 2 * Mss - Ms`. */
  function VarSS(mss: Matrix, ms: Matrix): (r: Matrix)
    requires SameShape(mss, ms)
    ensures SameShape(r, ms)
  {
    seq(|ms|, j requires 0 <= j < |ms| => seq(|ms[j]|, i requires 0 <= i < |ms[j]| => 2.0 * mss[j][i] - ms[j][i]))
  }

  /** `cov_us = 2 * Mus + Mu`. */
  function CovUS(mus: Matrix, mu: Matrix): (r: Matrix)
    requires SameShape(mus, mu)
    ensures SameShape(r, mu)
  {
    seq(|mu|, j requires 0 <= j < |mu| => seq(|mu[j]|, i requires 0 <= i < |mu[j]| => 2.0 * mus[j][i] + mu[j][i]))
  }

  /** `cov_us - gamma2 * var_ss - offset2`, whose spread seeds the joint solver. */
  function Deviation(x: Matrix, y: Matrix, gamma: seq<real>, offset: seq<real>): (r: Matrix)
    requires SameShape(x, y) && |gamma| == |x| && |offset| == |x|
    ensures SameShape(r, x)
  {
    seq(|x|, j requires 0 <= j < |x| => seq(|x[j]|, i requires 0 <= i < |x[j]| => y[j][i] - gamma[j] * x[j][i] - offset[j]))
  }

  /** The second-order residual before it is placed into the full-width matrix. */
  function Residual2(ms: Matrix, mu: Matrix, varSS: Matrix, covUS: Matrix,
                     gamma: seq<real>, offset: seq<real>, offset2: seq<real>,
                     fitOffset: bool, fitOffset2: bool): (r: Matrix)
    requires SameShape(mu, ms) && SameShape(varSS, ms) && SameShape(covUS, ms)
    requires |gamma| == |ms| && |offset| == |ms| && |offset2| == |ms|
    ensures SameShape(r, ms)
  {
    seq(|ms|, j requires 0 <= j < |ms| =>
      seq(|ms[j]|, i requires 0 <= i < |ms[j]| =>
        Residual2At(ms[j][i], mu[j][i], varSS[j][i], covUS[j][i], gamma[j], offset[j], offset2[j], fitOffset, fitOffset2)))
  }

  /**
    One entry of the second-order residual:
    `(cov_us - 2 Ms Mu) - gamma (var_ss - 2 Ms^2)`, plus `2 offset Ms` when the
    offset is fitted, minus `offset2` when the second offset is fitted.
   */
  function Residual2At(ms: real, mu: real, varSS: real, covUS: real,
                       gamma: real, offset: real, offset2: real,
                       fitOffset: bool, fitOffset2: bool): real
  {
    (covUS - 2.0 * ms * mu) - gamma * (varSS - 2.0 * ms * ms)
    + (if fitOffset then 2.0 * offset * ms else 0.0)
    - (if fitOffset2 then offset2 else 0.0)
  }

  /** `(r2 > .01) & (gamma > .01)`. */
  function VelocityGenesRule(r2: seq<real>, gamma: seq<real>): (m: seq<bool>)
    requires |r2| == |gamma|
    ensures |m| == |gamma|
  {
    seq(|gamma|, j requires 0 <= j < |gamma| => r2[j] > 0.01 && gamma[j] > 0.01)
  }

  // ---------------------------------------------------------------------------
  // Abstract state and the two fitting stages as functions of it
  // ---------------------------------------------------------------------------

  /** What the estimator is built from; fixed for its lifetime. */
  datatype Inputs = Inputs(
    nObs: nat,
    genes: seq<string>,
    ms: Matrix,
    mu: Matrix,
    subset: Option<seq<bool>>,
    num: Numerics,
    moments2: (string, nat) -> Moment2)

  ghost predicate ValidInputs(inp: Inputs)
  {
    && Shaped(inp.ms, inp.nObs, |inp.genes|)
    && Shaped(inp.mu, inp.nObs, |inp.genes|)
    && (inp.subset.Some? ==> |inp.subset.value| == inp.nObs)
  }

  /** The six per-gene parameter vectors, in `get_pars` order. */
  datatype Pars = Pars(
    offset: seq<real>,
    offset2: seq<real>,
    beta: seq<real>,
    gamma: seq<real>,
    r2: seq<real>,
    velocityGenes: seq<bool>)

  /** The estimator's whole state: parameters and the two residual matrices (None before they exist). */
  datatype Fitted = Fitted(pars: Pars, residual: Option<Matrix>, residual2: Option<Matrix>)

  ghost predicate ParsShaped(p: Pars, nVars: nat)
  {
    && |p.offset| == nVars && |p.offset2| == nVars && |p.beta| == nVars
    && |p.gamma| == nVars && |p.r2| == nVars && |p.velocityGenes| == nVars
  }

  /**
    Every vector has one entry per gene and the first residual one column
    per gene; the second residual has one column per gene, or none when a
    single gene lies outside the mask (`Columnless`).
   */
  ghost predicate FittedShaped(s: Fitted, nObs: nat, nVars: nat)
  {
    && ParsShaped(s.pars, nVars)
    && (s.residual.Some? ==> Shaped(s.residual.value, nObs, nVars))
    && (s.residual2.Some? ==> Shaped(s.residual2.value, nObs, nVars) || s.residual2.value == [])
  }

  /** The state right after construction. */
  function Initial(nVars: nat, residual: Option<Matrix>): (s: Fitted)
    ensures ParsShaped(s.pars, nVars)
    ensures ZeroVector(s.pars.offset) && ZeroVector(s.pars.offset2)
    ensures ZeroVector(s.pars.gamma) && ZeroVector(s.pars.r2)
    ensures forall j :: 0 <= j < nVars ==> s.pars.beta[j] == 1.0 && s.pars.velocityGenes[j]
    ensures s.residual == residual && s.residual2 == None
  {
    var zeros := seq(nVars, _ => 0.0);
    Fitted(Pars(zeros, zeros, seq(nVars, _ => 1.0), zeros, zeros, AllTrue(nVars)), residual, None)
  }

  /** The rows used for fitting: all cells, or the `subset` rows. */
  function FittingRows(m: Matrix, subset: Option<seq<bool>>, nObs: nat): (r: Matrix)
    requires Shaped(m, nObs, |m|)
    requires subset.Some? ==> |subset.value| == nObs
    ensures |r| == |m|
  {
    match subset
    case None => m
    case Some(rows) => SelectRows(m, rows)
  }

  /** The solver result of the deterministic stage: only the fitting rows are seen. */
  function DeterministicFit(inp: Inputs, fitOffset: bool): (fit: CovFit)
    requires ValidInputs(inp)
    ensures |fit.offset| == |inp.genes| && |fit.gamma| == |inp.genes|
    ensures !fitOffset ==> ZeroVector(fit.offset)
  {
    SolveCov(inp.num, FittingRows(inp.ms, inp.subset, inp.nObs), FittingRows(inp.mu, inp.subset, inp.nObs), fitOffset)
  }

  /**
    `compute_deterministic`: fit on the fitting rows, residual on every cell,
    goodness of fit against the centred unspliced moments, and the
    velocity-gene rule. `offset2`, `beta` and the second residual are kept.
   */
  function Deterministic(inp: Inputs, s: Fitted, fitOffset: bool): (r: Fitted)
    requires ValidInputs(inp) && FittedShaped(s, inp.nObs, |inp.genes|)
    ensures FittedShaped(r, inp.nObs, |inp.genes|) && r.residual.Some?
    ensures forall j :: 0 <= j < |inp.genes| ==>
              (r.pars.velocityGenes[j] <==> r.pars.r2[j] > 0.01 && r.pars.gamma[j] > 0.01)
  {
    var fit := DeterministicFit(inp, fitOffset);
    var res := Residual1(inp.ms, inp.mu, fit.gamma, fit.offset, fitOffset);
    var r2 := RSquared(inp.num, res, Centered(inp.mu));
    Fitted(s.pars.(offset := fit.offset, gamma := fit.gamma, r2 := r2,
                   velocityGenes := VelocityGenesRule(r2, fit.gamma)),
           Some(res), s.residual2)
  }

  /** Cell `i` is one the fit sees: every cell without a subset, else the subset's cells. */
  predicate FittingCell(subset: Option<seq<bool>>, i: nat)
  {
    subset.None? || (i < |subset.value| && subset.value[i])
  }

  /**
    Lines 27-28: the fit sees only the fitting rows. Two inputs that agree on
    every cell of the subset (on every cell when there is none) get the same
    `offset` and `gamma`, whatever the other cells hold.
   */
  lemma FitSeesOnlyFittingCells(inp: Inputs, other: Inputs, s: Fitted, fitOffset: bool)
    requires ValidInputs(inp) && ValidInputs(other) && FittedShaped(s, inp.nObs, |inp.genes|)
    requires other.nObs == inp.nObs && |other.genes| == |inp.genes|
    requires other.subset == inp.subset && other.num == inp.num
    requires forall j, i :: 0 <= j < |inp.genes| && 0 <= i < inp.nObs && FittingCell(inp.subset, i) ==>
               other.ms[j][i] == inp.ms[j][i] && other.mu[j][i] == inp.mu[j][i]
    ensures var r := Deterministic(inp, s, fitOffset);
            var q := Deterministic(other, s, fitOffset);
            r.pars.offset == q.pars.offset && r.pars.gamma == q.pars.gamma
  {
    var n := |inp.genes|;
    match inp.subset
    case None =>
      forall j | 0 <= j < n
        ensures inp.ms[j] == other.ms[j] && inp.mu[j] == other.mu[j]
      {
        forall i | 0 <= i < inp.nObs
          ensures inp.ms[j][i] == other.ms[j][i] && inp.mu[j][i] == other.mu[j][i]
        {
          assert FittingCell(inp.subset, i);
        }
      }
      assert inp.ms == other.ms && inp.mu == other.mu;
    case Some(rows) =>
      forall j | 0 <= j < n
        ensures Select(inp.ms[j], rows) == Select(other.ms[j], rows)
        ensures Select(inp.mu[j], rows) == Select(other.mu[j], rows)
      {
        forall i | 0 <= i < |rows| && rows[i]
          ensures inp.ms[j][i] == other.ms[j][i] && inp.mu[j][i] == other.mu[j][i]
        {
          assert FittingCell(inp.subset, i);
        }
        SelectAgree(inp.ms[j], other.ms[j], rows);
        SelectAgree(inp.mu[j], other.mu[j], rows);
      }
      assert SelectRows(inp.ms, rows) == SelectRows(other.ms, rows);
      assert SelectRows(inp.mu, rows) == SelectRows(other.mu, rows);
  }

  /** `compute_stochastic` runs the deterministic stage first exactly when no residual exists yet. */
  function PreStochastic(inp: Inputs, s: Fitted, fitOffset: bool): (r: Fitted)
    requires ValidInputs(inp) && FittedShaped(s, inp.nObs, |inp.genes|)
    ensures FittedShaped(r, inp.nObs, |inp.genes|) && r.residual.Some?
  {
    if s.residual.None? then Deterministic(inp, s, fitOffset) else s
  }

  /**
    The mask selects no gene although there are genes. Such a mask is not a
    proper subset (line 38), so the stage works on every gene and the fit it
    assigns at line 57 has one entry per gene.
   */
  predicate EmptyMask(s: Fitted)
  {
    |s.pars.velocityGenes| > 0 && true !in s.pars.velocityGenes
  }

  /**
    numpy's `x[idx] = v` with a boolean `idx` takes a `v` of as many entries
    as `idx` selects, or of exactly one entry, which it broadcasts. On an
    empty mask over two genes or more the fit has more entries than the
    selection, and line 57 raises a ValueError.
   */
  predicate Raises(s: Fitted)
  {
    EmptyMask(s) && |s.pars.velocityGenes| >= 2
  }

  /**
    The one empty mask that does not raise: a single gene outside the mask.
    Its one-entry fit is broadcast onto no entry, and its second-order
    residual, taken with `gamma[idx]` of no entry (line 64), has no column.
   */
  predicate Columnless(s: Fitted)
  {
    EmptyMask(s) && |s.pars.velocityGenes| == 1
  }

  /** Whether the stochastic stage works on a proper subset of the genes: `len(set(idx)) > 1`. */
  predicate IsSubset(s: Fitted)
  {
    NonConstant(s.pars.velocityGenes)
  }

  /** The data the stochastic stage works on: the masked genes, or all of them. */
  datatype Scope = Scope(genes: seq<string>, ms: Matrix, mu: Matrix, residual: Matrix)

  /** A mask that is not a proper subset and selects something selects everything. */
  lemma NotSubsetMeansAll(s: Fitted)
    requires !IsSubset(s) && !EmptyMask(s)
    ensures forall j :: 0 <= j < |s.pars.velocityGenes| ==> s.pars.velocityGenes[j]
  {
    ProperMaskIff(s.pars.velocityGenes);
  }

  function ScopeOf(inp: Inputs, s: Fitted): (sc: Scope)
    requires ValidInputs(inp) && FittedShaped(s, inp.nObs, |inp.genes|) && s.residual.Some? && !EmptyMask(s)
    ensures |sc.genes| == Count(s.pars.velocityGenes)
    ensures Shaped(sc.ms, inp.nObs, |sc.genes|) && Shaped(sc.mu, inp.nObs, |sc.genes|)
    ensures Shaped(sc.residual, inp.nObs, |sc.genes|)
  {
    var idx := s.pars.velocityGenes;
    if IsSubset(s) then
      SelectGenesShaped(inp.ms, idx, inp.nObs);
      SelectGenesShaped(inp.mu, idx, inp.nObs);
      SelectGenesShaped(s.residual.value, idx, inp.nObs);
      Scope(Select(inp.genes, idx), Select(inp.ms, idx), Select(inp.mu, idx), Select(s.residual.value, idx))
    else
      NotSubsetMeansAll(s);
      SelectAll(inp.genes, idx);
      Scope(inp.genes, inp.ms, inp.mu, s.residual.value)
  }

  /** The second-order statistics of the scope: `(Mss, Mus, var_ss, cov_us)`. */
  datatype Moments = Moments(mss: Matrix, mus: Matrix, varSS: Matrix, covUS: Matrix)

  /** `second_order_moments` of the scope's genes, one column of `nObs` cells per gene. */
  function MomentsOf(inp: Inputs, sc: Scope): (m: Moments)
    requires ValidInputs(inp)
    requires Shaped(sc.ms, inp.nObs, |sc.genes|) && Shaped(sc.mu, inp.nObs, |sc.genes|)
    ensures SameShape(m.mss, sc.ms) && SameShape(m.mus, sc.ms)
    ensures SameShape(m.varSS, sc.ms) && SameShape(m.covUS, sc.ms)
  {
    var mss := seq(|sc.genes|, k requires 0 <= k < |sc.genes| => seq(inp.nObs, i requires 0 <= i < inp.nObs => inp.moments2(sc.genes[k], i).ss));
    var mus := seq(|sc.genes|, k requires 0 <= k < |sc.genes| => seq(inp.nObs, i requires 0 <= i < inp.nObs => inp.moments2(sc.genes[k], i).us));
    Moments(mss, mus, VarSS(mss, sc.ms), CovUS(mus, sc.mu))
  }

  /** The joint fit of the stochastic stage: maximum likelihood for 'bayes', weighted inverse otherwise. */
  function JointFitOf(inp: Inputs, sc: Scope, mo: Moments, fitOffset: bool, fitOffset2: bool, mode: Option<string>): (fit: JointFit)
    requires ValidInputs(inp)
    requires Shaped(sc.ms, inp.nObs, |sc.genes|) && Shaped(sc.mu, inp.nObs, |sc.genes|)
    requires Shaped(sc.residual, inp.nObs, |sc.genes|)
    requires SameShape(mo.mss, sc.ms) && SameShape(mo.mus, sc.ms)
    requires SameShape(mo.varSS, sc.ms) && SameShape(mo.covUS, sc.ms)
    ensures |fit.offset| == |fit.offset2| == |fit.gamma| == |sc.genes|
    ensures !fitOffset ==> ZeroVector(fit.offset)
    ensures !fitOffset2 ==> ZeroVector(fit.offset2)
  {
    var n := |sc.genes|;
    if mode == Some("bayes") then
      JointFitFrom(seq(n, k requires 0 <= k < n =>
                     inp.num.solve2Mle(sc.ms[k], sc.mu[k], mo.mus[k], mo.mss[k], fitOffset, fitOffset2)),
                   fitOffset, fitOffset2)
    else
      var seed := SolveCov(inp.num, mo.varSS, mo.covUS, fitOffset2);
      var resStd := Std(inp.num, sc.residual);
      var res2Std := Std(inp.num, Deviation(mo.varSS, mo.covUS, seed.gamma, seed.offset));
      JointFitFrom(seq(n, k requires 0 <= k < n =>
                     inp.num.solve2Inv(sc.ms[k], sc.mu[k], mo.varSS[k], mo.covUS[k], resStd[k], res2Std[k],
                                       fitOffset, fitOffset2)),
                   fitOffset, fitOffset2)
  }

  /**
    The stochastic stage proper (after `PreStochastic`, when it does not
    raise): joint fit on the scope, written back at the masked genes only;
    first-order residual recomputed with the new parameters; second-order
    residual on the scope, placed into a zero matrix when the scope is a
    proper subset.
   */
  function StochasticStage(inp: Inputs, s: Fitted, fitOffset: bool, fitOffset2: bool, mode: Option<string>): (r: Fitted)
    requires ValidInputs(inp) && FittedShaped(s, inp.nObs, |inp.genes|) && s.residual.Some? && !EmptyMask(s)
    ensures FittedShaped(r, inp.nObs, |inp.genes|) && r.residual.Some? && r.residual2.Some?
    ensures Shaped(r.residual2.value, inp.nObs, |inp.genes|)
    ensures ParsShaped(r.pars, |inp.genes|) && r.residual == Some(Residual1(inp.ms, inp.mu, r.pars.gamma, r.pars.offset, fitOffset))
    ensures r.pars.beta == s.pars.beta && r.pars.r2 == s.pars.r2 && r.pars.velocityGenes == s.pars.velocityGenes
  {
    var sc := ScopeOf(inp, s);
    var mo := MomentsOf(inp, sc);
    var fit := JointFitOf(inp, sc, mo, fitOffset, fitOffset2, mode);
    var pars := WriteJointFit(s.pars, fit);
    Fitted(pars, Some(Residual1(inp.ms, inp.mu, pars.gamma, pars.offset, fitOffset)),
           Some(SecondResidual(inp, s, pars, fitOffset, fitOffset2)))
  }

  /**
    Lines 64-71: the second-order residual of the scope of `s`, taken with
    the parameters `p` at the masked genes, at full width.
   */
  function SecondResidual(inp: Inputs, s: Fitted, p: Pars, fitOffset: bool, fitOffset2: bool): (r: Matrix)
    requires ValidInputs(inp) && FittedShaped(s, inp.nObs, |inp.genes|) && s.residual.Some? && !EmptyMask(s)
    requires ParsShaped(p, |inp.genes|)
    ensures Shaped(r, inp.nObs, |inp.genes|)
  {
    var idx := s.pars.velocityGenes;
    var sc := ScopeOf(inp, s);
    var mo := MomentsOf(inp, sc);
    var res2 := Residual2(sc.ms, sc.mu, mo.varSS, mo.covUS,
                          Select(p.gamma, idx), Select(p.offset, idx), Select(p.offset2, idx),
                          fitOffset, fitOffset2);
    PlaceResidual2(idx, IsSubset(s), inp.nObs, res2)
  }

  /**
    Lines 57-71 for a single gene outside the mask (`Columnless`): the stage
    works on the whole one-gene data and its one-entry fit is broadcast onto
    no entry, so no parameter changes; the residual of lines 61-62 is
    recomputed with the kept parameters; the second-order residual has no
    column.
   */
  function ColumnlessStage(inp: Inputs, s: Fitted, fitOffset: bool): (r: Fitted)
    requires ValidInputs(inp) && FittedShaped(s, inp.nObs, |inp.genes|) && Columnless(s)
    ensures FittedShaped(r, inp.nObs, |inp.genes|) && r.pars == s.pars
    ensures r.residual.Some? && r.residual2 == Some([])
    ensures forall j, i :: 0 <= j < |inp.genes| && 0 <= i < inp.nObs ==>
              r.residual.value[j][i] == inp.mu[j][i] - s.pars.gamma[j] * inp.ms[j][i] - (if fitOffset then s.pars.offset[j] else 0.0)
  {
    Fitted(s.pars, Some(Residual1(inp.ms, inp.mu, s.pars.gamma, s.pars.offset, fitOffset)), Some([]))
  }

  /**
    When the deterministic stage left a single gene outside the mask, the
    stage that follows keeps the very residual the deterministic stage wrote.
   */
  lemma ColumnlessKeepsResidual(inp: Inputs, s: Fitted, fitOffset: bool)
    requires ValidInputs(inp) && FittedShaped(s, inp.nObs, |inp.genes|)
    requires Columnless(Deterministic(inp, s, fitOffset))
    ensures ColumnlessStage(inp, Deterministic(inp, s, fitOffset), fitOffset).residual
            == Deterministic(inp, s, fitOffset).residual
  {
  }

  /**
    Lines 61-62: a state whose residual was recomputed from its own
    parameters, as `StochasticStage` leaves it, has at every gene and cell
    the residual `Mu - gamma Ms`, minus `offset` when it is fitted.
   */
  lemma RefitResidual(inp: Inputs, r: Fitted, fitOffset: bool)
    requires ValidInputs(inp) && ParsShaped(r.pars, |inp.genes|)
    requires r.residual == Some(Residual1(inp.ms, inp.mu, r.pars.gamma, r.pars.offset, fitOffset))
    ensures forall j, i :: 0 <= j < |inp.genes| && 0 <= i < inp.nObs ==>
              r.residual.value[j][i] == inp.mu[j][i] - r.pars.gamma[j] * inp.ms[j][i] - (if fitOffset then r.pars.offset[j] else 0.0)
  {
  }

  /** The parts of the stochastic stage's result, one by one. */
  lemma StochasticStageParts(inp: Inputs, s: Fitted, fitOffset: bool, fitOffset2: bool, mode: Option<string>)
    requires ValidInputs(inp) && FittedShaped(s, inp.nObs, |inp.genes|) && s.residual.Some? && !EmptyMask(s)
    ensures var sc := ScopeOf(inp, s);
            var mo := MomentsOf(inp, sc);
            var pars := WriteJointFit(s.pars, JointFitOf(inp, sc, mo, fitOffset, fitOffset2, mode));
            var r := StochasticStage(inp, s, fitOffset, fitOffset2, mode);
            && r.pars == pars
            && r.residual == Some(Residual1(inp.ms, inp.mu, pars.gamma, pars.offset, fitOffset))
            && r.residual2 == Some(SecondResidual(inp, s, pars, fitOffset, fitOffset2))
  {
  }

  /** `self._offset[idx], self._offset2[idx], self._gamma[idx] = fit`. */
  function WriteJointFit(p: Pars, fit: JointFit): (r: Pars)
    requires ParsShaped(p, |p.velocityGenes|)
    requires |fit.offset| == |fit.offset2| == |fit.gamma| == Count(p.velocityGenes)
    ensures ParsShaped(r, |p.velocityGenes|)
  {
    var idx := p.velocityGenes;
    p.(offset := Scatter(p.offset, idx, fit.offset),
       offset2 := Scatter(p.offset2, idx, fit.offset2),
       gamma := Scatter(p.gamma, idx, fit.gamma))
  }

  /**
    Lines 67-71: on a proper subset, a zero matrix with the scoped residual
    placed at the masked genes; otherwise the scoped residual itself.
   */
  function PlaceResidual2(idx: seq<bool>, isSubset: bool, nObs: nat, res2: Matrix): (r: Matrix)
    requires Shaped(res2, nObs, Count(idx))
    requires !isSubset ==> Count(idx) == |idx|
    ensures Shaped(r, nObs, |idx|)
  {
    if isSubset then
      var z := Zeros(nObs, |idx|);
      var full := Scatter(z, idx, res2);
      assert Shaped(full, nObs, |idx|) by {
        forall j | 0 <= j < |idx| ensures |full[j]| == nObs {
          ScatterAt(z, idx, res2, j);
        }
      }
      full
    else
      res2
  }

  // ---------------------------------------------------------------------------
  // Properties of the two stages
  // ---------------------------------------------------------------------------

  /**
    The first-order residual is kept for every cell, fitting rows or not, and
    agrees with the stored parameters: `Mu - gamma Ms`, minus the offset
    exactly when it is fitted.
   */
  lemma DeterministicResidual(inp: Inputs, s: Fitted, fitOffset: bool)
    requires ValidInputs(inp) && FittedShaped(s, inp.nObs, |inp.genes|)
    ensures var r := Deterministic(inp, s, fitOffset);
            forall j, i :: 0 <= j < |inp.genes| && 0 <= i < inp.nObs ==>
              r.residual.value[j][i]
              == inp.mu[j][i] - r.pars.gamma[j] * inp.ms[j][i] - (if fitOffset then r.pars.offset[j] else 0.0)
  {
  }

  /** `compute_deterministic` keeps `offset2`, `beta` and the second residual, and running it twice changes nothing more. */
  lemma DeterministicKeeps(inp: Inputs, s: Fitted, fitOffset: bool)
    requires ValidInputs(inp) && FittedShaped(s, inp.nObs, |inp.genes|)
    ensures var r := Deterministic(inp, s, fitOffset);
            && r.pars.offset2 == s.pars.offset2 && r.pars.beta == s.pars.beta && r.residual2 == s.residual2
            && Deterministic(inp, r, fitOffset) == r
  {
  }

  /**
    Lines 37-43: the scope is a proper subset exactly when the mask holds both
    a true and a false entry; then the scoped genes, moments and residual are
    the masked columns, each at its rank, so in their original order. Otherwise
    the scope is the whole dataset.
   */
  lemma ScopeIsMaskedGenes(inp: Inputs, s: Fitted)
    requires ValidInputs(inp) && FittedShaped(s, inp.nObs, |inp.genes|) && s.residual.Some? && !EmptyMask(s)
    ensures IsSubset(s) <==> (true in s.pars.velocityGenes && false in s.pars.velocityGenes)
    ensures var idx := s.pars.velocityGenes;
            var sc := ScopeOf(inp, s);
            forall j :: 0 <= j < |idx| && idx[j] ==>
              var k := if IsSubset(s) then Rank(idx, j) else j;
              && k < |sc.genes|
              && sc.genes[k] == inp.genes[j] && sc.ms[k] == inp.ms[j]
              && sc.mu[k] == inp.mu[j] && sc.residual[k] == s.residual.value[j]
    ensures !IsSubset(s) ==> ScopeOf(inp, s) == Scope(inp.genes, inp.ms, inp.mu, s.residual.value)
  {
    var idx := s.pars.velocityGenes;
    ProperMaskIff(idx);
    if IsSubset(s) {
      forall j | 0 <= j < |idx| && idx[j]
        ensures Rank(idx, j) < Count(idx)
        ensures Select(inp.genes, idx)[Rank(idx, j)] == inp.genes[j]
        ensures Select(inp.ms, idx)[Rank(idx, j)] == inp.ms[j]
        ensures Select(inp.mu, idx)[Rank(idx, j)] == inp.mu[j]
        ensures Select(s.residual.value, idx)[Rank(idx, j)] == s.residual.value[j]
      {
        SelectAt(inp.genes, idx, j);
        SelectAt(inp.ms, idx, j);
        SelectAt(inp.mu, idx, j);
        SelectAt(s.residual.value, idx, j);
      }
    }
  }

  /**
    Lines 57-59: the stochastic stage writes `offset`, `offset2` and `gamma`
    only at masked genes, where they take the joint fit of the gene's scoped
    column; every other entry keeps its value.
   */
  lemma StochasticWritesOnlyMasked(inp: Inputs, s: Fitted, fitOffset: bool, fitOffset2: bool, mode: Option<string>)
    requires ValidInputs(inp) && FittedShaped(s, inp.nObs, |inp.genes|) && s.residual.Some? && !EmptyMask(s)
    ensures var r := StochasticStage(inp, s, fitOffset, fitOffset2, mode);
            var idx := s.pars.velocityGenes;
            forall j :: 0 <= j < |idx| && !idx[j] ==>
              && r.pars.offset[j] == s.pars.offset[j] && r.pars.offset2[j] == s.pars.offset2[j]
              && r.pars.gamma[j] == s.pars.gamma[j]
    ensures var r := StochasticStage(inp, s, fitOffset, fitOffset2, mode);
            var idx := s.pars.velocityGenes;
            var sc := ScopeOf(inp, s);
            var fit := JointFitOf(inp, sc, MomentsOf(inp, sc), fitOffset, fitOffset2, mode);
            forall j :: 0 <= j < |idx| && idx[j] ==>
              && Rank(idx, j) < |fit.gamma|
              && r.pars.offset[j] == fit.offset[Rank(idx, j)] && r.pars.offset2[j] == fit.offset2[Rank(idx, j)]
              && r.pars.gamma[j] == fit.gamma[Rank(idx, j)]
  {
    var idx := s.pars.velocityGenes;
    var sc := ScopeOf(inp, s);
    var fit := JointFitOf(inp, sc, MomentsOf(inp, sc), fitOffset, fitOffset2, mode);
    StochasticStageParts(inp, s, fitOffset, fitOffset2, mode);
    forall j | 0 <= j < |idx|
      ensures Rank(idx, j) + (if idx[j] then 1 else 0) <= |fit.gamma|
      ensures Scatter(s.pars.offset, idx, fit.offset)[j] == if idx[j] then fit.offset[Rank(idx, j)] else s.pars.offset[j]
      ensures Scatter(s.pars.offset2, idx, fit.offset2)[j] == if idx[j] then fit.offset2[Rank(idx, j)] else s.pars.offset2[j]
      ensures Scatter(s.pars.gamma, idx, fit.gamma)[j] == if idx[j] then fit.gamma[Rank(idx, j)] else s.pars.gamma[j]
    {
      ScatterAt(s.pars.offset, idx, fit.offset, j);
      ScatterAt(s.pars.offset2, idx, fit.offset2, j);
      ScatterAt(s.pars.gamma, idx, fit.gamma, j);
    }
  }

  /** An offset that is not fitted stays zero through both stages. */
  lemma UnfittedOffsetStaysZero(inp: Inputs, s: Fitted, fitOffset: bool, fitOffset2: bool, mode: Option<string>)
    requires ValidInputs(inp) && FittedShaped(s, inp.nObs, |inp.genes|) && s.residual.Some? && !EmptyMask(s)
    ensures !fitOffset ==> ZeroVector(Deterministic(inp, s, fitOffset).pars.offset)
    ensures !fitOffset && ZeroVector(s.pars.offset) ==>
              ZeroVector(StochasticStage(inp, s, fitOffset, fitOffset2, mode).pars.offset)
    ensures !fitOffset2 && ZeroVector(s.pars.offset2) ==>
              ZeroVector(StochasticStage(inp, s, fitOffset, fitOffset2, mode).pars.offset2)
  {
    StochasticWritesOnlyMasked(inp, s, fitOffset, fitOffset2, mode);
  }

  /**
    Lines 64-71: at every gene of the full width the second-order residual is
    `(cov_us - 2 Ms Mu) - gamma (var_ss - 2 Ms^2)` with `var_ss = 2 Mss - Ms`
    and `cov_us = 2 Mus + Mu` from the gene's own moments, plus `2 offset Ms`
    when the offset is fitted and minus `offset2` when the second offset is
    fitted, all with the newly written parameters; on a proper subset, every
    gene outside the mask is a column of zeros.
   */
  lemma Residual2Entries(inp: Inputs, s: Fitted, fitOffset: bool, fitOffset2: bool, mode: Option<string>)
    requires ValidInputs(inp) && FittedShaped(s, inp.nObs, |inp.genes|) && s.residual.Some? && !EmptyMask(s)
    ensures var r := StochasticStage(inp, s, fitOffset, fitOffset2, mode);
            var idx := s.pars.velocityGenes;
            forall j, i :: 0 <= j < |idx| && idx[j] && 0 <= i < inp.nObs ==>
              r.residual2.value[j][i]
              == Residual2At(inp.ms[j][i], inp.mu[j][i],
                             2.0 * inp.moments2(inp.genes[j], i).ss - inp.ms[j][i],
                             2.0 * inp.moments2(inp.genes[j], i).us + inp.mu[j][i],
                             r.pars.gamma[j], r.pars.offset[j], r.pars.offset2[j], fitOffset, fitOffset2)
    ensures var r := StochasticStage(inp, s, fitOffset, fitOffset2, mode);
            var idx := s.pars.velocityGenes;
            IsSubset(s) ==> forall j, i :: 0 <= j < |idx| && !idx[j] && 0 <= i < inp.nObs ==> r.residual2.value[j][i] == 0.0
  {
    var r := StochasticStage(inp, s, fitOffset, fitOffset2, mode);
    StochasticStageParts(inp, s, fitOffset, fitOffset2, mode);
    var idx := s.pars.velocityGenes;
    var full := SecondResidual(inp, s, r.pars, fitOffset, fitOffset2);
    forall j, i | 0 <= j < |idx| && idx[j] && 0 <= i < inp.nObs
      ensures full[j][i]
              == Residual2At(inp.ms[j][i], inp.mu[j][i],
                             2.0 * inp.moments2(inp.genes[j], i).ss - inp.ms[j][i],
                             2.0 * inp.moments2(inp.genes[j], i).us + inp.mu[j][i],
                             r.pars.gamma[j], r.pars.offset[j], r.pars.offset2[j], fitOffset, fitOffset2)
    {
      SecondResidualMasked(inp, s, r.pars, fitOffset, fitOffset2, j);
    }
    if IsSubset(s) {
      forall j, i | 0 <= j < |idx| && !idx[j] && 0 <= i < inp.nObs
        ensures full[j][i] == 0.0
      {
        SecondResidualUnmasked(inp, s, r.pars, fitOffset, fitOffset2, j);
      }
    }
  }

  /** A gene outside a proper-subset mask gets a column of zeros. */
  lemma SecondResidualUnmasked(inp: Inputs, s: Fitted, p: Pars, fitOffset: bool, fitOffset2: bool, j: nat)
    requires ValidInputs(inp) && FittedShaped(s, inp.nObs, |inp.genes|) && s.residual.Some? && !EmptyMask(s)
    requires ParsShaped(p, |inp.genes|) && j < |inp.genes| && IsSubset(s) && !s.pars.velocityGenes[j]
    ensures forall i :: 0 <= i < inp.nObs ==> SecondResidual(inp, s, p, fitOffset, fitOffset2)[j][i] == 0.0
  {
    var idx := s.pars.velocityGenes;
    var sc := ScopeOf(inp, s);
    var mo := MomentsOf(inp, sc);
    var res2 := Residual2(sc.ms, sc.mu, mo.varSS, mo.covUS,
                          Select(p.gamma, idx), Select(p.offset, idx), Select(p.offset2, idx),
                          fitOffset, fitOffset2);
    ScatterAt(Zeros(inp.nObs, |idx|), idx, res2, j);
  }

  /** A masked gene gets the element-wise formula over its own column and its own moments. */
  lemma SecondResidualMasked(inp: Inputs, s: Fitted, p: Pars, fitOffset: bool, fitOffset2: bool, j: nat)
    requires ValidInputs(inp) && FittedShaped(s, inp.nObs, |inp.genes|) && s.residual.Some? && !EmptyMask(s)
    requires ParsShaped(p, |inp.genes|) && j < |inp.genes| && s.pars.velocityGenes[j]
    ensures forall i :: 0 <= i < inp.nObs ==>
              SecondResidual(inp, s, p, fitOffset, fitOffset2)[j][i]
              == Residual2At(inp.ms[j][i], inp.mu[j][i],
                             2.0 * inp.moments2(inp.genes[j], i).ss - inp.ms[j][i],
                             2.0 * inp.moments2(inp.genes[j], i).us + inp.mu[j][i],
                             p.gamma[j], p.offset[j], p.offset2[j], fitOffset, fitOffset2)
  {
    var idx := s.pars.velocityGenes;
    var sc := ScopeOf(inp, s);
    var mo := MomentsOf(inp, sc);
    var gs, os, o2s := Select(p.gamma, idx), Select(p.offset, idx), Select(p.offset2, idx);
    var res2 := Residual2(sc.ms, sc.mu, mo.varSS, mo.covUS, gs, os, o2s, fitOffset, fitOffset2);
    var k := if IsSubset(s) then Rank(idx, j) else j;
    if IsSubset(s) {
      ScatterAt(Zeros(inp.nObs, |idx|), idx, res2, j);
      SelectAt(p.gamma, idx, j);
      SelectAt(p.offset, idx, j);
      SelectAt(p.offset2, idx, j);
      SelectAt(inp.genes, idx, j);
      SelectAt(inp.ms, idx, j);
      SelectAt(inp.mu, idx, j);
    } else {
      NotSubsetMeansAll(s);
      SelectAll(p.gamma, idx);
      SelectAll(p.offset, idx);
      SelectAll(p.offset2, idx);
    }
    assert k < |sc.genes|;
    assert SecondResidual(inp, s, p, fitOffset, fitOffset2)[j] == res2[k];
    assert sc.genes[k] == inp.genes[j] && sc.ms[k] == inp.ms[j] && sc.mu[k] == inp.mu[j];
    assert gs[k] == p.gamma[j] && os[k] == p.offset[j] && o2s[k] == p.offset2[j];
    forall i | 0 <= i < inp.nObs
      ensures res2[k][i]
              == Residual2At(inp.ms[j][i], inp.mu[j][i],
                             2.0 * inp.moments2(inp.genes[j], i).ss - inp.ms[j][i],
                             2.0 * inp.moments2(inp.genes[j], i).us + inp.mu[j][i],
                             p.gamma[j], p.offset[j], p.offset2[j], fitOffset, fitOffset2)
    {
      assert mo.mss[k][i] == inp.moments2(sc.genes[k], i).ss;
      assert mo.mus[k][i] == inp.moments2(sc.genes[k], i).us;
      assert mo.varSS[k][i] == 2.0 * mo.mss[k][i] - sc.ms[k][i];
      assert mo.covUS[k][i] == 2.0 * mo.mus[k][i] + sc.mu[k][i];
    }
  }

  /**
    The refit of the driver: an estimator built with a residual and run
    through the stochastic stage keeps its all-true mask and its zero `r2`
    and one-valued `beta`, so none of the three is non-constant.
   */
  lemma RefitKeepsConstants(inp: Inputs, res: Matrix, fitOffset: bool, fitOffset2: bool, mode: Option<string>)
    requires ValidInputs(inp) && Shaped(res, inp.nObs, |inp.genes|)
    ensures var s := Initial(|inp.genes|, Some(res));
            && PreStochastic(inp, s, fitOffset) == s && !EmptyMask(s)
            && var r := StochasticStage(inp, s, fitOffset, fitOffset2, mode);
               && !NonConstant(r.pars.velocityGenes) && !NonConstant(r.pars.r2) && !NonConstant(r.pars.beta)
  {
    var s := Initial(|inp.genes|, Some(res));
    if |inp.genes| > 0 {
      assert s.pars.velocityGenes[0];
    }
    var r := StochasticStage(inp, s, fitOffset, fitOffset2, mode);
    StochasticWritesOnlyMasked(inp, s, fitOffset, fitOffset2, mode);
    ConstantNotNonConstant(r.pars.velocityGenes, true);
    ConstantNotNonConstant(r.pars.r2, 0.0);
    ConstantNotNonConstant(r.pars.beta, 1.0);
  }

  // ---------------------------------------------------------------------------
  // Parameter names
  // ---------------------------------------------------------------------------

  /** `get_pars_names()`. */
  function ParNames(): seq<string>
  {
    ["_offset", "_offset2", "_beta", "_gamma", "_r2", "_genes"]
  }

  /** `get_pars()`: the six vectors in the order of `ParNames`. */
  function ParVectors(p: Pars): seq<Annotation>
  {
    [Reals(p.offset), Reals(p.offset2), Reals(p.beta), Reals(p.gamma), Reals(p.r2), Flags(p.velocityGenes)]
  }

  /** One vector per name, each of one entry per gene. */
  lemma ParVectorsShaped(p: Pars, n: nat)
    requires ParsShaped(p, n)
    ensures |ParVectors(p)| == |ParNames()|
    ensures forall i :: 0 <= i < |ParVectors(p)| ==> AnnotationLength(ParVectors(p)[i]) == n
  {
  }

  /** `get_pars()` and `get_pars_names()` agree: the i-th name stands for the i-th vector, and the names are distinct. */
  lemma ParNamesPickVectors(p: Pars)
    ensures |ParNames()| == |ParVectors(p)| == 6
    ensures forall i :: 0 <= i < 6 ==> ParByName(p, ParNames()[i]) == Some(ParVectors(p)[i])
    ensures forall i, j :: 0 <= i < j < 6 ==> ParNames()[i] != ParNames()[j]
  {
  }

  /** The vector each name stands for, looked up by name. */
  function ParByName(p: Pars, name: string): Option<Annotation>
  {
    if name == "_offset" then Some(Reals(p.offset))
    else if name == "_offset2" then Some(Reals(p.offset2))
    else if name == "_beta" then Some(Reals(p.beta))
    else if name == "_gamma" then Some(Reals(p.gamma))
    else if name == "_r2" then Some(Reals(p.r2))
    else if name == "_genes" then Some(Flags(p.velocityGenes))
    else None
  }

  /**
    Lines 68-69: `np.zeros(shape)` with the scoped residual assigned to the
    masked genes in place.
   */
  method ZeroPadded(idx: seq<bool>, nObs: nat, res2: Matrix) returns (full: Matrix)
    requires Shaped(res2, nObs, Count(idx))
    ensures full == PlaceResidual2(idx, true, nObs, res2)
  {
    var a := new Column[|idx|](_ => seq(nObs, _ => 0.0));
    assert a[..] == Zeros(nObs, |idx|);
    MaskedAssign(a, idx, res2);
    full := a[..];
  }

  /**
    Lines 64-71: the scoped second-order residual, then, on a proper subset,
    a zero matrix with it assigned to the masked genes in place.
   */
  method ComputeSecondResidual(inp: Inputs, s: Fitted, p: Pars, fitOffset: bool, fitOffset2: bool) returns (full: Matrix)
    requires ValidInputs(inp) && FittedShaped(s, inp.nObs, |inp.genes|) && s.residual.Some? && !EmptyMask(s)
    requires ParsShaped(p, |inp.genes|)
    ensures full == SecondResidual(inp, s, p, fitOffset, fitOffset2)
  {
    var idx := s.pars.velocityGenes;
    var sc := ScopeOf(inp, s);
    var mo := MomentsOf(inp, sc);
    var res2 := Residual2(sc.ms, sc.mu, mo.varSS, mo.covUS,
                          Select(p.gamma, idx), Select(p.offset, idx), Select(p.offset2, idx),
                          fitOffset, fitOffset2);
    if NonConstant(idx) {
      full := ZeroPadded(idx, inp.nObs, res2);
    } else {
      NotSubsetMeansAll(s);
      full := res2;
    }
  }

  // ---------------------------------------------------------------------------
  // The estimator object
  // ---------------------------------------------------------------------------

  /** A new array holding a copy of a vector. */
  method NewVector(v: seq<real>) returns (a: array<real>)
    ensures fresh(a) && a[..] == v
  {
    a := new real[|v|](i requires 0 <= i < |v| => v[i]);
  }

  class Velocity {
    const nObs: nat
    const genes: seq<string>
    const ms: Matrix
    const mu: Matrix
    const subset: Option<seq<bool>>
    const num: Numerics
    const moments2: (string, nat) -> Moment2

    var offset: array<real>
    var offset2: array<real>
    var beta: array<real>
    var gamma: array<real>
    var r2: array<real>
    var velocityGenes: array<bool>
    var residual: Option<Matrix>
    var residual2: Option<Matrix>

    function Given(): Inputs
    {
      Inputs(nObs, genes, ms, mu, subset, num, moments2)
    }

    function State(): Fitted
      reads this, offset, offset2, beta, gamma, r2, velocityGenes
    {
      Fitted(Pars(offset[..], offset2[..], beta[..], gamma[..], r2[..], velocityGenes[..]), residual, residual2)
    }

    ghost predicate Valid()
      reads this, offset, offset2, beta, gamma, r2, velocityGenes
    {
      && ValidInputs(Given())
      && offset != offset2 && offset != gamma && offset2 != gamma
      && beta != offset && beta != offset2 && beta != gamma
      && r2 != offset && r2 != offset2 && r2 != gamma && r2 != beta
      && FittedShaped(State(), nObs, |genes|)
    }

    /**
      `Velocity(adata, Ms, Mu, subset, residual)`: every parameter vector has
      one entry per gene; offsets, gamma and r2 are zero, beta is one, every
      gene is a velocity gene; the residual is the one handed in, if any.
     */
    constructor (nObs: nat, genes: seq<string>, ms: Matrix, mu: Matrix, subset: Option<seq<bool>>,
                 residual: Option<Matrix>, num: Numerics, moments2: (string, nat) -> Moment2)
      requires ValidInputs(Inputs(nObs, genes, ms, mu, subset, num, moments2))
      requires residual.Some? ==> Shaped(residual.value, nObs, |genes|)
      ensures Valid()
      ensures this.nObs == nObs && this.genes == genes && this.ms == ms && this.mu == mu
      ensures this.subset == subset && this.num == num && this.moments2 == moments2
      ensures State() == Initial(|genes|, residual)
      ensures fresh(offset) && fresh(offset2) && fresh(beta) && fresh(gamma) && fresh(r2) && fresh(velocityGenes)
    {
      this.nObs, this.genes, this.ms, this.mu := nObs, genes, ms, mu;
      this.subset, this.num, this.moments2 := subset, num, moments2;
      var n := |genes|;
      this.residual, this.residual2 := residual, None;
      offset := new real[n](_ => 0.0);
      offset2 := new real[n](_ => 0.0);
      gamma := new real[n](_ => 0.0);
      r2 := new real[n](_ => 0.0);
      beta := new real[n](_ => 1.0);
      velocityGenes := new bool[n](_ => true);
      new;
      assert State() == Initial(n, residual);
    }

    /** `compute_deterministic(fit_offset)`. */
    method ComputeDeterministic(fitOffset: bool)
      requires Valid()
      modifies this
      ensures Valid()
      ensures State() == Deterministic(Given(), old(State()), fitOffset)
      ensures offset2 == old(offset2) && beta == old(beta)
      ensures fresh(offset) && fresh(gamma) && fresh(r2) && fresh(velocityGenes)
    {
      var fit := DeterministicFit(Given(), fitOffset);
      var res := Residual1(ms, mu, fit.gamma, fit.offset, fitOffset);
      var rr := RSquared(num, res, Centered(mu));
      offset := NewVector(fit.offset);
      gamma := NewVector(fit.gamma);
      r2 := NewVector(rr);
      velocityGenes := new bool[|genes|](j requires 0 <= j < |genes| => rr[j] > 0.01 && fit.gamma[j] > 0.01);
      assert velocityGenes[..] == VelocityGenesRule(rr, fit.gamma);
      residual := Some(res);
    }

    /**
      `compute_stochastic(fit_offset, fit_offset2, mode)`. Returns whether
      numpy raises: with an all-false mask over two genes or more the first
      masked assignment (line 57) fails. Nothing between the deterministic
      stage and that assignment changes the object, so the check is made
      before the scoped work. A single gene outside the mask does not raise.
     */
    method ComputeStochastic(fitOffset: bool, fitOffset2: bool, mode: Option<string>) returns (raised: bool)
      requires Valid()
      modifies this, offset, offset2, gamma
      ensures Valid()
      ensures raised == Raises(PreStochastic(Given(), old(State()), fitOffset))
      ensures var pre := PreStochastic(Given(), old(State()), fitOffset);
              State() == if raised then pre
                         else if Columnless(pre) then ColumnlessStage(Given(), pre, fitOffset)
                         else StochasticStage(Given(), pre, fitOffset, fitOffset2, mode)
    {
      if residual.None? {
        ComputeDeterministic(fitOffset);
      }
      var pre := State();
      assert pre == PreStochastic(Given(), old(State()), fitOffset);
      var idx := velocityGenes[..];
      raised := |idx| >= 2 && true !in idx;
      if raised {
        return;
      }
      if |idx| == 1 && true !in idx {
        // the one-entry fit assigned at line 57 lands on no gene
        residual := Some(Residual1(ms, mu, gamma[..], offset[..], fitOffset));
        residual2 := Some([]);
        return;
      }
      StochasticStep(fitOffset, fitOffset2, mode);
    }

    /** Lines 37-71 once the mask is known to select something. */
    method StochasticStep(fitOffset: bool, fitOffset2: bool, mode: Option<string>)
      requires Valid() && residual.Some? && !EmptyMask(State())
      modifies this, offset, offset2, gamma
      ensures Valid()
      ensures State() == StochasticStage(Given(), old(State()), fitOffset, fitOffset2, mode)
    {
      var pre := State();
      var sc := ScopeOf(Given(), pre);
      var mo := MomentsOf(Given(), sc);
      var fit := JointFitOf(Given(), sc, mo, fitOffset, fitOffset2, mode);
      WriteFit(fit);
      residual := Some(Residual1(ms, mu, gamma[..], offset[..], fitOffset));
      var res2 := ComputeSecondResidual(Given(), pre, State().pars, fitOffset, fitOffset2);
      residual2 := Some(res2);
      StochasticStageParts(Given(), pre, fitOffset, fitOffset2, mode);
    }

    /** Line 57: `self._offset[idx], self._offset2[idx], self._gamma[idx] = fit`. */
    method WriteFit(fit: JointFit)
      requires Valid()
      requires |fit.offset| == |fit.offset2| == |fit.gamma| == Count(velocityGenes[..])
      modifies offset, offset2, gamma
      ensures Valid()
      ensures State() == old(State()).(pars := WriteJointFit(old(State().pars), fit))
    {
      var idx := velocityGenes[..];
      MaskedAssign(offset, idx, fit.offset);
      MaskedAssign(offset2, idx, fit.offset2);
      MaskedAssign(gamma, idx, fit.gamma);
    }

    /** `get_residuals()`. */
    method GetResiduals() returns (res: Option<Matrix>, res2: Option<Matrix>)
      requires Valid()
      ensures res == State().residual && res2 == State().residual2
    {
      res, res2 := residual, residual2;
    }

    /** `get_pars()`, paired with `get_pars_names()`. */
    method GetPars() returns (pars: seq<Annotation>)
      requires Valid()
      ensures |pars| == |ParNames()|
      ensures forall i :: 0 <= i < |pars| ==> ParByName(State().pars, ParNames()[i]) == Some(pars[i])
    {
      pars := ParVectors(State().pars);
    }
  }
}
