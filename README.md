# scvelo velocity bookkeeping, modelled in Dafny

This project models the part of scvelo that estimates RNA velocity gene by
gene, together with two preprocessing helpers. The regression arithmetic is
not modelled. What is modelled is the bookkeeping around it:

- the `Velocity` estimator (scvelo/tools/velocity.py):
  - It holds six per-gene parameter vectors: `offset`, `offset2`, `beta`, `gamma`, `r2` and the velocity-gene mask.
  - It holds two cells × genes residual matrices.
  - `compute_deterministic` fits every gene and marks the velocity genes.
  - `compute_stochastic` narrows its work to the velocity genes when they are a proper subset. It writes the joint fit back only at those genes and places the second-order residual into a zero matrix of full width.
- the `velocity` driver (same file):
  - It computes missing moments first.
  - It resolves the cell groups through the `groupby` → 'clusters' → 'louvain' fallback.
  - It picks the stochastic path by a substring test on `mode`.
  - It may narrow the genes and rebuild the estimator.
  - It writes the residual layers, restricted to the group's cells.
  - It writes every non-constant parameter vector to `var`.
  - It narrows the genes at the end when asked to.
- `cleanup` (scvelo/preprocessing/utils.py): deletes from the selected tables (`obs`, `var`, `uns`, `layers`) every key that `keep` does not mention.
- `filter_genes_u` (same file): keeps the genes whose unspliced total, or number of expressing cells, reaches a threshold.
- `filter_and_normalize` (same file): the order of its steps and the conditions under which each one runs.

Matrices are held gene-major (`m[j][i]` is gene j in cell i) with `real`
entries.

Code outside this model is passed in as function-valued parameters:

- the solvers `solve_cov`, `solve2_inv` and `solve2_mle`;
- `R_squared` and numpy's column `std`;
- the moment smoothing (`moments`, `second_order_moments`);
- the scanpy gene filters.

Each of these is constrained only by its shape, and by a zero offset when
the offset is not fitted.

The mutable objects are classes:

- `Estimator.Velocity` holds its parameter vectors in arrays.
- `Dataset.AnnData` holds its tables in fields that the driver and the preprocessing methods reassign.

Each method is proved against a function of the old state:

- `Estimator.Deterministic` and `Estimator.StochasticStage` for the estimator;
- `Driver.VelocityOutcome` for the driver;
- `Preprocessing.Cleaned`, `Preprocessing.FilterU` and `Preprocessing.Normalized` for the preprocessing.

Lemmas then state what the source promises about those functions.

Files:

- basics.dfy: options, errors and Python's substring `in`.
- masks.dfy: numpy boolean gathering and masked assignment, and `len(set(x)) > 1`.
- tables.dfy: matrices and `var` columns.
- anndata.dfy: the dataset snapshot and the mutable object.
- estimator.dfy: the estimator.
- driver.dfy: `velocity`.
- outcomes.dfy: properties of a whole `velocity` call.
- preprocessing.dfy: the utils.py functions.

## Where the code and its description differ

The model follows the code in each of these cases:

- Moments are computed at line 122 on the whole dataset, before the groups are resolved.
- With an all-false velocity-gene mask over two genes or more, the masked assignment at line 57 raises a ValueError.
  - No check in the driver comes first.
  - Everything written before it stays, such as the moment layers. No gene subset comes before it: the estimator rebuilt at line 145 starts with an all-true mask.
- With a single gene outside the mask, numpy broadcasts the one-entry fit onto the empty selection, and the stage completes.
  - Its second-order residual has no column (line 64).
  - The driver writes the velocity layer, and with groups creates the zero variance layer (line 151).
  - Storing the second residual then raises a ValueError. No parameter is written and no gene is removed.
- The same holds for a missing layer: a KeyError leaves earlier writes in place.
- The estimator rebuilt at line 145 is built without `use_raw`, so it reads 'Ms' and 'Mu' whatever `use_raw` says.
- Parameters outside the velocity-gene mask keep their deterministic values through the stochastic stage.
- Any `mode` that is a piece of 'stochastic', 'bayes' or 'alpha' selects the stochastic path. This includes the empty string and pieces such as 'sto'.
- The driver's docstring defaults (`mode='stochastic'`, `filter_genes=True`) are not the signature's (`None`, `False`). The model takes arguments explicitly.
- `filter_and_normalize`'s docstring defaults are not the signature's either. `Preprocessing.DefaultFilterArgs` uses the signature's: `min_counts=3`, `min_counts_u=3`.

## Model

| member | source | states |
|---|---|---|
| Masks.SelectAt | scvelo/tools/velocity.py:41-43 | gathering `x[:, idx]` puts a selected gene at its rank among the selected genes, with its own value |
| Masks.RankMonotone | scvelo/tools/velocity.py:41-43 | a selected gene before another gets a smaller rank, so gathering keeps the relative order |
| Masks.SelectFrom | scvelo/tools/velocity.py:144 | every gathered value comes from a selected position |
| Masks.SelectAll | scvelo/tools/velocity.py:40-43 | gathering with an all-true mask returns the vector unchanged |
| Masks.SelectAgree | scvelo/tools/velocity.py:28 | two vectors that agree at the selected positions gather to the same vector |
| Masks.ScatterAt | scvelo/tools/velocity.py:57 | after `x[idx] = v` a masked position holds `v` at its rank and every other position keeps its value |
| Masks.SelectScatter | scvelo/tools/velocity.py:57 | reading back the masked positions after `x[idx] = v` gives `v` |
| Masks.ScatterSelect | scvelo/tools/velocity.py:57 | assigning the masked positions their own values changes nothing |
| Masks.MaskedAssign | scvelo/tools/velocity.py:57 | the in-place loop leaves the array equal to the masked assignment of the old contents |
| Masks.NonConstantIff | scvelo/tools/velocity.py:162 | `len(set(x)) > 1` holds exactly when two entries differ |
| Masks.ProperMaskIff | scvelo/tools/velocity.py:38 | on a boolean mask, `len(set(idx)) > 1` holds exactly when it has both a true and a false entry |
| Masks.ConstantNotNonConstant | scvelo/tools/velocity.py:162 | a vector whose entries all equal one value fails `len(set(x)) > 1` |
| Masks.CountZeroIff | scvelo/tools/velocity.py:57 | a mask selects nothing exactly when it has no true entry |
| Tables.Zeros | scvelo/tools/velocity.py:68 | `np.zeros(shape)` has the shape asked for and every entry 0 |
| Dataset.SubsetVar | scvelo/tools/velocity.py:144 | narrowing the genes keeps the cells, `obs`, `uns` and the key sets of `var` and `layers`, leaves as many genes as the mask selects, and gathers the masked genes of the names, of every `var` column and of every layer |
| Dataset.SubsetVarKeepsAnnotation | scvelo/tools/velocity.py:144 | a kept gene's entry in every `var` column sits at its rank among the kept genes, so a narrowed `var` column still describes the same genes |
| Dataset.SubsetVarKeepsGene | scvelo/tools/velocity.py:144 | a kept gene sits at its rank among the kept genes, with its name and its column in every layer |
| Dataset.RowView | scvelo/tools/velocity.py:132 | `adata[groups]` has as many cells as the mask selects, the same genes, `var` and `uns`, and gathers the selected cells of every `obs` column and of every layer |
| Dataset.RowViewKeepsCell | scvelo/tools/velocity.py:132 | a selected cell sits at its rank among the selected cells, with its label in every `obs` column and its value in every layer and gene |
| Dataset.AnnData.Copy | scvelo/tools/velocity.py:121 | `copy()` is a new object with the same contents |
| Dataset.AnnData.InplaceSubsetVar | scvelo/tools/velocity.py:144 | the object afterwards is the gene subset of the object before |
| Dataset.AnnData.SetLayer | scvelo/tools/velocity.py:148 | only the assigned layer changes |
| Dataset.AnnData.SetVar | scvelo/tools/velocity.py:162 | only the assigned `var` column changes |
| Estimator.SolveCov | scvelo/tools/velocity.py:27-28 | `solve_cov` gives one offset and one gamma per gene, and zero offsets when the offset is not fitted |
| Estimator.JointFitFrom | scvelo/tools/velocity.py:58-59 | the joint solvers give one `offset`, `offset2` and `gamma` per gene, each offset zero when it is not fitted |
| Estimator.Initial | scvelo/tools/velocity.py:20-23 | after construction every vector has one entry per gene; `offset`, `offset2`, `gamma` and `r2` are zero, `beta` is one, every gene is a velocity gene, `residual2` is absent and `residual` is the one handed in |
| Estimator.Velocity.constructor | scvelo/tools/velocity.py:12-24 | the new estimator holds the given inputs and the initial state |
| Estimator.FitSeesOnlyFittingCells | scvelo/tools/velocity.py:27-28 | the fitted `offset` and `gamma` depend only on the cells of `subset` (all cells without one): inputs that agree there get the same values |
| Estimator.Deterministic | scvelo/tools/velocity.py:26-33 | after `compute_deterministic` a residual exists, the state keeps its shape, and gene j is a velocity gene exactly when `r2[j] > 0.01` and `gamma[j] > 0.01` |
| Estimator.Residual1 | scvelo/tools/velocity.py:29-30 | the first-order residual has the shape of `Ms`; its entries are stated by `Estimator.DeterministicResidual` |
| Estimator.DeterministicResidual | scvelo/tools/velocity.py:29-30 | in every cell and gene, `residual = Mu - gamma Ms`, minus `offset` exactly when the offset is fitted, computed on all cells even when the fit used a subset |
| Estimator.DeterministicKeeps | scvelo/tools/velocity.py:26-33 | `compute_deterministic` keeps `offset2`, `beta` and the second residual, and running it again gives the same state |
| Estimator.Velocity.ComputeDeterministic | scvelo/tools/velocity.py:26-33 | the new state is `Deterministic` of the old one; the `offset2` and `beta` arrays are kept |
| Estimator.NotSubsetMeansAll | scvelo/tools/velocity.py:38-43 | when the mask is not a proper subset and selects something, it selects every gene |
| Estimator.ScopeIsMaskedGenes | scvelo/tools/velocity.py:37-43 | `is_subset` holds exactly when the mask has both values; the scoped names, `Ms`, `Mu` and residual are then the masked genes at their ranks, and otherwise the whole data |
| Estimator.StochasticStage | scvelo/tools/velocity.py:35-71 | the stochastic stage leaves both residuals present, with the second one at full width; the first residual is recomputed from the newly written `gamma` and `offset`; `beta`, `r2` and the velocity-gene mask are kept |
| Estimator.RefitResidual | scvelo/tools/velocity.py:61-62 | once the residual is recomputed from the parameters, as the stage leaves it, every entry is `Mu - gamma Ms`, minus `offset` exactly when it is fitted |
| Estimator.ColumnlessStage | scvelo/tools/velocity.py:57-71 | with a single gene outside the mask no parameter changes, the residual is `Mu - gamma Ms` (minus the fitted offset) with the kept parameters, and the second residual has no column |
| Estimator.ColumnlessKeepsResidual | scvelo/tools/velocity.py:36-62 | after the deterministic stage leaves a single gene outside the mask, the stage keeps the residual that stage wrote |
| Estimator.StochasticWritesOnlyMasked | scvelo/tools/velocity.py:57-59 | `offset`, `offset2` and `gamma` change only at masked genes, where they take the fit of the gene's scoped column |
| Estimator.UnfittedOffsetStaysZero | scvelo/tools/velocity.py:57-59 | an offset that is not fitted stays zero through the deterministic and the stochastic stage |
| Estimator.SecondResidual | scvelo/tools/velocity.py:64-71 | the second residual has one column per gene of the full width; its entries are stated by `Estimator.Residual2Entries` |
| Estimator.Residual2Entries | scvelo/tools/velocity.py:47-71 | at a masked gene each entry is `(cov_us - 2 Ms Mu) - gamma (var_ss - 2 Ms^2)` with `var_ss = 2 Mss - Ms` and `cov_us = 2 Mus + Mu`, plus `2 offset Ms` when the offset is fitted and minus `offset2` when the second offset is fitted; on a proper subset every other gene is zero |
| Estimator.SecondResidualMasked | scvelo/tools/velocity.py:64-66 | the element-wise formula at one masked gene, from the gene's own moments |
| Estimator.SecondResidualUnmasked | scvelo/tools/velocity.py:67-69 | on a proper subset, a gene outside the mask gets a column of zeros |
| Estimator.ZeroPadded | scvelo/tools/velocity.py:68-69 | the zero matrix with the scoped columns assigned at the masked genes |
| Estimator.ComputeSecondResidual | scvelo/tools/velocity.py:64-71 | the computed second residual equals `SecondResidual` |
| Estimator.RefitKeepsConstants | scvelo/tools/velocity.py:145 | an estimator rebuilt with a residual skips the deterministic stage and does not raise; after the stochastic stage its mask, `r2` and `beta` are all constant |
| Estimator.Velocity.ComputeStochastic | scvelo/tools/velocity.py:35-71 | the deterministic stage runs first exactly when no residual exists; the call raises exactly when the mask then selects nothing among two genes or more; a single gene outside the mask gives `ColumnlessStage`; otherwise the new state is `StochasticStage` |
| Estimator.Velocity.StochasticStep | scvelo/tools/velocity.py:37-71 | with a mask that selects something, the new state is `StochasticStage` of the old one |
| Estimator.Velocity.WriteFit | scvelo/tools/velocity.py:57 | the joint fit is written at the masked genes of `offset`, `offset2` and `gamma`, and nothing else changes |
| Estimator.Velocity.GetResiduals | scvelo/tools/velocity.py:79-80 | the two residuals of the current state |
| Estimator.ParVectorsShaped | scvelo/tools/velocity.py:82-83 | `get_pars` gives six vectors of one entry per gene |
| Estimator.ParNamesPickVectors | scvelo/tools/velocity.py:82-86 | there are six distinct names, and the i-th name stands for the i-th vector of `get_pars` |
| Estimator.Velocity.GetPars | scvelo/tools/velocity.py:82-86 | each returned vector is the one its name stands for in the current state |
| Driver.GroupLabels | scvelo/tools/velocity.py:124 | a single label is wrapped into a one-element list |
| Driver.GroupBy | scvelo/tools/velocity.py:126-127 | the `groupby` column if it exists, else 'clusters', else 'louvain', else none; a resolved column exists |
| Driver.ResolveGroups | scvelo/tools/velocity.py:124-130 | no groups means no mask; a ValueError exactly when groups are given and no column resolves; otherwise cell i is in the mask exactly when its label is one of the groups |
| Driver.View | scvelo/tools/velocity.py:132 | without groups the estimator sees the whole dataset; with groups it sees one cell per group cell, each at its rank with its `obs` labels and its layer values, and the same genes and `var` |
| Driver.StochasticModes | scvelo/tools/velocity.py:139 | 'stochastic', 'bayes', 'alpha' and the empty string select the stochastic path; no mode, 'deterministic' and any mode longer than 'stochastic' do not |
| Driver.ModeBound | scvelo/tools/velocity.py:139 | a stochastic mode is no longer than 'stochastic' |
| Driver.StochasticPieces | scvelo/tools/velocity.py:139 | every piece of a stochastic mode is a stochastic mode |
| Driver.WriteRowsAt | scvelo/tools/velocity.py:152 | `layer[groups] = value`: a group cell takes the value's row at its rank; every other cell keeps its value |
| Driver.WriteRowsReadBack | scvelo/tools/velocity.py:152 | reading back the group's cells after the write gives the written value |
| Driver.WriteLayer | scvelo/tools/velocity.py:148-158 | writing a layer adds its key and leaves every other layer as it was |
| Driver.WriteLayerCells | scvelo/tools/velocity.py:150-152 | without groups the layer is the value; with groups a group cell takes the value at its rank and any other cell keeps the old layer, or 0 when the layer was missing |
| Driver.WrittenParsLengths | scvelo/tools/velocity.py:160-162 | every written `var` column has one entry per gene |
| Driver.WrittenParsSpec | scvelo/tools/velocity.py:160-162 | `var[vkey + name]` is written with the vector exactly when the vector is non-constant; otherwise its presence and value are unchanged; every other key is untouched |
| Driver.WriteParameters | scvelo/tools/velocity.py:160-162 | the loop leaves `var` equal to `WrittenPars` of the old `var` |
| Driver.WithMoments | scvelo/tools/velocity.py:122 | unless raw data is used, 'Ms' is present afterwards; nothing changes when raw data is used or 'Ms' exists; only 'Ms' and 'Mu' can be added |
| Driver.InputsOf | scvelo/tools/velocity.py:14-15 | a missing spliced layer is a KeyError, then a missing unspliced layer; the estimator can be built exactly when both exist and the fitting mask has one entry per cell, and its `Ms` and `Mu` are then the layers read ('spliced'/'unspliced' with `use_raw`, 'Ms'/'Mu' otherwise) |
| Driver.Finish | scvelo/tools/velocity.py:160-170 | the parameter write and the final narrowing never raise; what they change is stated by `Outcomes.FinishEffect` |
| Driver.WriteBack | scvelo/tools/velocity.py:147-170 | the write-back of a finished stochastic stage keeps the dataset well formed, also when a column-less second residual makes it raise; stated by `Outcomes.WriteBackEffect` and `Outcomes.OneGeneOutsideMask` |
| Driver.StochasticFinish | scvelo/tools/velocity.py:146-170 | the stochastic stage and its write-back keep the dataset well formed; stated by `Outcomes.StochasticFinishEffect` |
| Driver.StochasticOutcome | scvelo/tools/velocity.py:140-170 | the stochastic path, with or without the rebuild, keeps the dataset well formed; stated by `Outcomes.StochasticOutcomeEffect` |
| Driver.DeterministicWriteBack | scvelo/tools/velocity.py:153-170 | the deterministic write-back keeps the dataset well formed; stated by `Outcomes.FittingEffect` |
| Driver.Fitting | scvelo/tools/velocity.py:136-170 | estimation and write-back keep the dataset well formed; stated by `Outcomes.FittingEffect` |
| Driver.VelocityOutcome | scvelo/tools/velocity.py:121-172 | the whole call keeps the dataset well formed; stated by `Outcomes.LayersWritten` and `Outcomes.BetaNeverWritten` |
| Driver.EnsureMoments | scvelo/tools/velocity.py:122 | the object afterwards is `WithMoments` of the object before |
| Driver.WriteLayerIn | scvelo/tools/velocity.py:148-158 | the object's layers afterwards are `WriteLayer` of the old layers |
| Driver.WriteResidualLayers | scvelo/tools/velocity.py:147-152 | the velocity layer is written, then the variance layer |
| Driver.FinishIn | scvelo/tools/velocity.py:160-170 | the object afterwards is `Finish` of the object before |
| Driver.WriteBackIn | scvelo/tools/velocity.py:147-170 | the object and the raised error are `WriteBack` of the object before |
| Driver.StageWriteBackIn | scvelo/tools/velocity.py:147-170 | after a stage that did not raise, the object and the raised error are `StochasticFinish` of the object before |
| Driver.StochasticFinishIn | scvelo/tools/velocity.py:146-170 | the object and the raised error are `StochasticFinish` of the object and estimator before |
| Driver.StochasticPathIn | scvelo/tools/velocity.py:140-170 | the object and the raised error are `StochasticOutcome` of the object and estimator before |
| Driver.DeterministicWriteBackIn | scvelo/tools/velocity.py:153-170 | the object afterwards is `DeterministicWriteBack` of the object before |
| Driver.FittingIn | scvelo/tools/velocity.py:136-170 | the object and the raised error are `Fitting` of the object before |
| Driver.Apply | scvelo/tools/velocity.py:121-170 | the object and the raised error are `VelocityOutcome` of the object before |
| Driver.RunVelocity | scvelo/tools/velocity.py:121-172 | with `copy` the input is untouched and a new object holding the outcome is returned; otherwise the input holds the outcome and nothing is returned; the call fails exactly when the outcome has an error |
| Outcomes.FinishEffect | scvelo/tools/velocity.py:160-170 | cells, `obs`, `uns` and the layer keys are kept; the genes are narrowed to the mask exactly when `filter_genes` is set and the mask is non-constant; `var[vkey + name]` is present exactly when its vector is non-constant or it was present before |
| Outcomes.FinishSkipsBeta | scvelo/tools/velocity.py:160-162 | an all-ones `beta` is never written |
| Outcomes.WriteBackEffect | scvelo/tools/velocity.py:147-170 | a finished stochastic stage writes both residual layers and narrows the genes by its mask when asked to; an all-ones `beta` is not written |
| Outcomes.StochasticFinishEffect | scvelo/tools/velocity.py:146-170 | when no error is raised, both layers are written and the genes are narrowed by the stage's mask when asked to |
| Outcomes.OneGeneOutsideMask | scvelo/tools/velocity.py:57-71 | with a single gene outside the mask the call raises a ValueError after writing the velocity layer with the residual of the kept parameters; the variance layer is created exactly when groups are given and it is missing, and an existing one is unchanged; no parameter is written and the genes stay |
| Outcomes.StochasticFinishBeta | scvelo/tools/velocity.py:146-170 | an all-ones `beta` is not written, whether the stage raises or not |
| Outcomes.RefitEffect | scvelo/tools/velocity.py:142-170 | after the narrowing and the rebuild both layers are written, the genes are the masked genes of the input in order with no second narrowing, and `beta` is not written |
| Outcomes.StochasticOutcomeEffect | scvelo/tools/velocity.py:140-170 | on the stochastic path, with or without the rebuild, both layers are written, the genes are narrowed exactly once when asked to and the mask is non-constant, and `beta` is not written |
| Outcomes.FittingEffect | scvelo/tools/velocity.py:136-170 | a call without an error writes `vkey`, plus the variance layer on the stochastic path; the deterministic path adds exactly `vkey`; the genes are narrowed by the deterministic mask when asked to and it is non-constant; `beta` is not written |
| Outcomes.BetaNeverWritten | scvelo/tools/velocity.py:121-172 | whatever the arguments, `var[vkey + '_beta']` is present afterwards exactly when it was before |
| Outcomes.LayersWritten | scvelo/tools/velocity.py:121-172 | a call without an error has written `vkey`; the stochastic path also writes `'variance_' + vkey`, and the deterministic path leaves its presence as it was |
| Outcomes.VarianceKeyIsNew | scvelo/tools/velocity.py:141 | the variance key differs from the velocity key and from 'Ms' and 'Mu' |
| Preprocessing.DropUnkept | scvelo/preprocessing/utils.py:47-48 | the deletion loop leaves exactly the entries whose key `keep` mentions |
| Preprocessing.KeptEntries | scvelo/preprocessing/utils.py:47-60 | a key stays exactly when the table had it and `keep` mentions it, with its entry unchanged; keeping twice changes nothing more |
| Preprocessing.Cleaned | scvelo/preprocessing/utils.py:46-60 | cleaning keeps the cells and genes and a well-formed dataset; what it keeps is stated by `Preprocessing.CleanedTable` |
| Preprocessing.CleanedTable | scvelo/preprocessing/utils.py:46-60 | in a table selected by `clean` or 'all', a key stays exactly when `keep` mentions it, so kept keys are never deleted; an unselected table keeps all its keys; every entry left is unchanged |
| Preprocessing.CleanupIdempotent | scvelo/preprocessing/utils.py:46-60 | cleaning again with the same arguments changes nothing |
| Preprocessing.DefaultCleansLayersOnly | scvelo/preprocessing/utils.py:26 | with the default `clean='layers'` only the layers table is selected |
| Preprocessing.DefaultCleanup | scvelo/preprocessing/utils.py:26-60 | with the defaults only the 'spliced' and 'unspliced' layers are kept and the other tables are unchanged |
| Preprocessing.CleanIn | scvelo/preprocessing/utils.py:46-60 | the object afterwards is `Cleaned` of the object before |
| Preprocessing.Cleanup | scvelo/preprocessing/utils.py:44-62 | with `copy` the input is untouched and a new cleaned object is returned; otherwise the input is cleaned and nothing is returned |
| Preprocessing.Positives | scvelo/preprocessing/utils.py:103 | the number of expressing cells is at most the number of cells |
| Preprocessing.PassMask | scvelo/preprocessing/utils.py:105 | one entry per gene; which genes pass is stated by `Preprocessing.FilterUKeepsPassing` |
| Preprocessing.FilterU | scvelo/preprocessing/utils.py:105 | the narrowed dataset is well formed and keeps its 'unspliced' layer |
| Preprocessing.FilterUKeepsPassing | scvelo/preprocessing/utils.py:103-105 | a gene whose score reaches the threshold survives at its rank among the survivors, with its name and unspliced column; every gene left reaches it; the score is the unspliced total with `min_counts_u` and the number of expressing cells with `min_cells_u` |
| Preprocessing.TooManyCellsLeavesNone | scvelo/preprocessing/utils.py:103-105 | a cell threshold above the number of cells leaves no gene |
| Preprocessing.FilterGenesU | scvelo/preprocessing/utils.py:102-105 | the object afterwards is `FilterU` of the object before |
| Preprocessing.ScanpyFilters | scvelo/preprocessing/utils.py:107-108 | the scanpy gene filters keep the layer keys |
| Preprocessing.UnsplicedFilters | scvelo/preprocessing/utils.py:110-112 | the unspliced filters keep the layer keys |
| Preprocessing.DispersionStage | scvelo/preprocessing/utils.py:114-121 | the dispersion stage keeps the layer keys |
| Preprocessing.Normalized | scvelo/preprocessing/utils.py:99-127 | a run keeps the dataset well formed; its steps are stated by the gate lemmas below |
| Preprocessing.UnsplicedGate | scvelo/preprocessing/utils.py:110-112 | an unspliced filter runs exactly when the input has an 'unspliced' layer and its threshold is given |
| Preprocessing.DispersionGate | scvelo/preprocessing/utils.py:114-121 | the dispersion subset runs exactly when `n_top_genes` is given and is below the number of genes left by the earlier filters |
| Preprocessing.EndsNormalized | scvelo/preprocessing/utils.py:125-126 | a run ends by normalizing, then taking the logarithm exactly when `log` is set |
| Preprocessing.DefaultSteps | scvelo/preprocessing/utils.py:65-66 | with the signature defaults a run filters by counts, then by unspliced counts when the layer exists, then normalizes and takes the logarithm |
| Preprocessing.FiltersKeepCells | scvelo/preprocessing/utils.py:105-125 | the gene filters of lines 107-112 keep the cells, `obs`, `uns` and the layer keys and only remove genes; a whole run only removes genes and keeps the layer keys |
| Preprocessing.ScanpyFiltersIn | scvelo/preprocessing/utils.py:107-108 | the object and steps afterwards are `ScanpyFilters` of the object before |
| Preprocessing.UnsplicedFiltersIn | scvelo/preprocessing/utils.py:110-112 | the object and steps afterwards are `UnsplicedFilters` of the object before |
| Preprocessing.DispersionStageIn | scvelo/preprocessing/utils.py:114-121 | the object and steps afterwards are `DispersionStage` of the object before |
| Preprocessing.FilterAndNormalize | scvelo/preprocessing/utils.py:99-127 | with `copy` the input is untouched and a new object holding the run is returned; otherwise the input holds it and nothing is returned; the steps returned are the run's |

## Left out

- Floating point: entries are `real`, so float32 storage and rounding are not modelled, and the `.01` thresholds are exact comparisons.
- The regression and statistics code is not part of this model. This covers `solve_cov`, `solve2_inv`, `solve2_mle`, `R_squared` and numpy's column `std`. Each is a function parameter with only a shape contract.
- Estimator.SolveCov: states only the shape and the zero offset when not fitted, because the solver's arithmetic is not part of this model.
- Estimator.JointFitFrom: states only the shape and the zero offsets when not fitted, for the same reason.
- The moment smoothing (`moments`, `second_order_moments`) is a parameter: one value per gene and cell. Its neighbour graph and its failures are not modelled.
- Estimator.MomentsOf: the moments are looked up by gene name, so gene names are assumed unique. Two genes with the same name get the same moments here, while `second_order_moments` computes them per column. The same holds for `Driver.WithMoments`.
- `numpy.mean` of an empty column is NaN; here it is 0. This only matters when a group has no cells.
- Sparse matrices and their densification (`.A`, `.A1`) are the identity on values.
- Logging and hints are not modelled (lines 134 and 164-167 of velocity.py).
- The commented-out 'alpha' block is not modelled (lines 73-77 of velocity.py).
- AnnData view aliasing is not modelled. A view taken with `groups` is re-derived from the current data, not shared with it. This differs from the source only when the genes are narrowed under groups.
- `groups` other than a string or a list of strings is not modelled: a tuple, array or record of labels behaves as a list, and other values are not covered.
- `subset_for_fitting` is only a boolean row mask; integer indices are not modelled.
- The expression matrix `X` is not modelled, and neither are the values in `uns`: `uns` entries are kept as opaque strings.
- `show_proportions` only prints, so it is not modelled.
- `recipe_velocity` only chains the modelled functions, so it is not modelled.
- `filter_and_normalize` calls scanpy's `filter_genes`, `filter_genes_dispersion`, `normalize_per_cell` and `log1p`, which are not part of this model:
  - The two filters are given as the gene masks they leave.
  - The normalization and the logarithm are recorded as steps.
  - The `var` columns that scanpy adds (such as the counts per gene) are not modelled.
  - The change to `X` is not modelled, so the dispersion mask is computed from the dataset before normalization.
- Preprocessing.Normalized: `normalize_per_cell` (lines 115 and 125 of utils.py) leaves the data as it was in the model. scanpy's version also drops the cells with fewer than one count and writes `obs['n_counts']`, so the model's cells and `obs` after a normalizing step are not the source's, and `Preprocessing.FiltersKeepCells` states the cells only for the gene filters.
- The `plot` branch of `filter_and_normalize` is not modelled (lines 118-120 of utils.py).
