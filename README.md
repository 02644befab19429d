# pyqmc core: Slater expansions, the spin-resolved Jastrow factor, constrained VMC and ensemble optimisation

This project is a Dafny model of four parts of pyqmc, a quantum Monte Carlo package. It proves properties of that model.

- **`JAXSlater`** (`pyqmc/jax/slater.py`): a multi-determinant Slater wave function. Each CI term pairs one spin-up and one spin-down determinant. The wave function value is the CI-weighted sum of those products. It is kept as `(sign, log(abs(psi)))` around a reference log value. `testvalue` gives the ratio psi(new)/psi(old) when one electron moves, using the matrix determinant lemma. `_sherman_morrison_row` updates a cached inverse after one row changes. The parameters live in a `_parameterMap`, a dictionary that keeps a tuple of device arrays in sync with its entries.
- **`JAXJastrowSpin`** (`pyqmc/jax/jastrowspin.py`): the two-body/one-body Jastrow factor.
  - It uses the `polypade` and `cutoffcusp` radial bases, with their gradients.
  - There are one-body (electron-nucleus) sums per spin and two-body (electron-electron) sums per spin pair.
  - The same-spin self-pair correction is `compute_bdiag_corr`.
  - `evaluate_jastrow` gives the log value. `evaluate_testvalue` gives exp(Δ log J) for a single-electron move.
- **Constrained VMC** (`pyqmc/cvmc.py`):
  - `DescriptorFromOBDM` combines density-matrix elements into descriptors.
  - `PGradDescriptor` averages, using the nodal regularisation.
  - `get_obj_deriv` builds the penalised objective and its derivative.
  - The line search in `cvmc_optimize` runs on a `tau` grid, and `lm_cvmc` reweights the samples.
- **Ensemble optimisation** (`pyqmc/method/ensemble_optimization.py`):
  - `set_wf_params` writes parameters.
  - `renormalize` rescales determinant coefficients to matching norms.
  - `optimize_ensemble` controls the schedule of (iteration, sub-iteration) pairs, including restart from a saved run, and steps the parameters.

Module layout, one file per module:

| module | file | models |
|---|---|---|
| `Wrappers` | `wrappers.dfy` | the `Option` and `Result` types and the Python exceptions the core raises |
| `Analytic` | `analytic.dfy` | `exp`, `log` and `sqrt`, passed in as function values, with their laws stated as predicates; 3-vectors and distances |
| `RealSeq` | `real_seq.dfy` | sums, means, gathers (`x[idx]`), masks and element-wise vector arithmetic |
| `Matrices` | `matrix.dfy` | rows, columns, dot products and right inverses |
| `Slater` | `slater.dfy` | the pure functions of `slater.py` |
| `SlaterWaveFunction` | `slater_wavefunction.dfy` | the `JAXSlater` class |
| `ParameterMaps` | `parameter_map.dfy` | the `_parameterMap` class of both files |
| `JastrowBasis` | `jastrow_basis.dfy` | the radial basis |
| `JastrowSums` | `jastrow_sums.dfy` | the pair sums, generic over the pair function |
| `Jastrow` | `jastrow.dfy` | `evaluate_jastrow` and `evaluate_testvalue` as intended |
| `JastrowAsWritten` | `jastrow_as_written.dfy` | the same two functions with the source's broadcasting |
| `JastrowSpin` | `jastrow_spin.dfy` | the `JAXJastrowSpin` class and `_init_params` |
| `CvmcDescriptors` | `cvmc_descriptors.dfy` | the two descriptor classes |
| `CvmcOptimize` | `cvmc_optimize.dfy` | `get_obj_deriv`, `cvmc_optimize` and `lm_cvmc` |
| `Ensemble` | `ensemble.dfy` | `ensemble_optimization.py` |

Stateful objects are classes whose methods carry `modifies` clauses: the parameter map, the two wave-function objects, the descriptor objects and the wave functions whose parameters the ensemble rewrites. Loops in the source are `while` loops proved against specification functions. Everything else is functions and lemmas.

## Model

| member | source | states |
|---|---|---|
| Slater.EvaluateExpansion | pyqmc/jax/slater.py:76-104 | the combined sign is always -1, 0 or 1 |
| Slater.CombineTerms | pyqmc/jax/slater.py:98-104 | the sign of the shifted CI sum is -1, 0 or 1 |
| Slater.ExpansionRepresentsValue | pyqmc/jax/slater.py:76-104 | sign·exp(logabs) of `evaluate_expansion` equals the CI sum Σ c_i s_i exp(l_i) over the gathered up/down determinants, whatever reference log is chosen |
| Slater.CombinedRepresentsValue | pyqmc/jax/slater.py:98-104 | the shift by the reference log and the `log(abs(sum)) + ref` reconstruction represent exactly Σ c_i s_i exp(l_i) |
| Slater.ShiftedSumScales | pyqmc/jax/slater.py:102-104 | the sum of terms shifted by ref, times exp(ref), is the unshifted CI sum |
| Slater.RepresentsShifted | pyqmc/jax/slater.py:103-104 | sign(v)·exp(log(abs(v)) + ref) equals v·exp(ref) for every real v, zero included |
| Slater.SingleDeterminantExpansion | pyqmc/jax/slater.py:76-104 | with the single coefficient 1 and non-zero signs, the result is the product of the two signs and the sum of the two log-determinants |
| Slater.TermLogs | pyqmc/jax/slater.py:98-101 | one log-magnitude per CI term |
| Slater.TermSigns | pyqmc/jax/slater.py:98-101 | one sign per CI term |
| RealSeq.Max | pyqmc/jax/slater.py:102 | the reference log is an element of the term logs and no term exceeds it |
| Slater.DeterminantLemmaAtRow | pyqmc/jax/slater.py:115-120 | when the inverse is a right inverse of the determinant's orbital matrix, "moving" electron e to its own row j gives ratio 1 for j = e and 0 otherwise |
| Slater.MoRow | pyqmc/jax/slater.py:132-133 | the orbital row has one entry per molecular orbital |
| Slater.Ratios | pyqmc/jax/slater.py:134 | one determinant ratio per determinant of the spin |
| Slater.Moved | pyqmc/jax/slater.py:135-136 | the moved state keeps one sign and one log per determinant |
| Slater.MovedValue | pyqmc/jax/slater.py:135-136 | each moved determinant represents ratio times the old determinant |
| Slater.RepresentsScaled | pyqmc/jax/slater.py:135-136 | multiplying a sign by sign(r) and adding log(abs(r)) multiplies the represented value by r |
| Slater.UnitRatiosLeaveSpinUnchanged | pyqmc/jax/slater.py:135-136 | ratios that are all 1 leave the spin state unchanged |
| Slater.Quotient | pyqmc/jax/slater.py:147-150 | a quotient is defined exactly when the denominator is non-zero |
| Slater.RatioOfExpansionsIsValueRatio | pyqmc/jax/slater.py:147-150 | the exp-of-log-difference ratio equals the quotient of the two CI sums, and is undefined exactly when the old sum is 0 |
| Slater.RatioOfExpansionsUnmoved | pyqmc/jax/slater.py:147-150 | the ratio of an expansion to itself is 1 or undefined |
| Slater.TestValueUpIsWaveFunctionRatio | pyqmc/jax/slater.py:124-151 | `testvalue_up` returns psi(moved)/psi(old), where psi(moved) uses the determinants updated by the lemma ratios |
| Slater.TestValueDownIsWaveFunctionRatio | pyqmc/jax/slater.py:154-182 | the same for a spin-down electron |
| Slater.TestValueUpNoMove | pyqmc/jax/slater.py:124-151 | proposing an up electron's current position gives ratio exactly 1 when psi is non-zero, and an undefined ratio (None) exactly when psi is 0 |
| Slater.TestValueDownNoMove | pyqmc/jax/slater.py:154-182 | the same for a down electron |
| Slater.ShermanMorrisonRow | pyqmc/jax/slater.py:188-202 | the ratio is the determinant lemma; a new inverse exists exactly when the ratio is non-zero, and is square |
| Slater.ShermanMorrisonIsInverse | pyqmc/jax/slater.py:188-202 | after row e of the matrix is replaced by the new orbital row, the updated matrix is a right inverse of it |
| Slater.ShermanMorrisonEntry | pyqmc/jax/slater.py:188-202 | entry (i, j) of the new product is 1 on the diagonal and 0 elsewhere |
| Slater.ShermanMorrisonEntryAtE | pyqmc/jax/slater.py:198-201 | column e of the new inverse is column e of the old one divided by the ratio |
| Slater.ShermanMorrisonEntryOffE | pyqmc/jax/slater.py:196-200 | every other column j gets column e times -tmp[j]/ratio added |
| Slater.CommitSpin | pyqmc/jax/slater.py:372-388 | an unmasked configuration keeps its state; a masked one commits exactly when every ratio is non-zero, and its signs and logs become the moved ones, with the inverses kept valid |
| Slater.CommitSpinKeepsInverses | pyqmc/jax/slater.py:372-388 | each committed inverse is a right inverse of the orbital matrix with row e replaced |
| Slater.CommitMasked | pyqmc/jax/slater.py:376-378 | configurations outside the mask keep sign, log and inverse |
| Slater.SplitElectron | pyqmc/jax/slater.py:360-361 | electron e is spin 1 exactly when e ≥ nup, and its index within its spin block is e − nup·spin |
| SlaterWaveFunction.DeterminantParametersOf | pyqmc/jax/slater.py:303-305 | the parameter tuple is read only when it has the shape (vector, matrix, matrix), and then as (ci, mo alpha, mo beta) |
| SlaterWaveFunction.EvaluateBatch | pyqmc/jax/slater.py:268-276 | one value per configuration |
| SlaterWaveFunction.TestValues | pyqmc/jax/slater.py:392-405 | for each configuration, the electron's spin picks the up or down test value at its index in the block |
| SlaterWaveFunction.JaxSlater.constructor | pyqmc/jax/slater.py:339-347 | the object stores the expansion, electron counts and parameter map, and starts with empty caches |
| SlaterWaveFunction.JaxSlater.Recompute | pyqmc/jax/slater.py:349-352 | the cached determinant states are the given ones, and every cached (sign, logabs) is `evaluate_expansion` of its configuration |
| SlaterWaveFunction.JaxSlater.UpdateInternals | pyqmc/jax/slater.py:354-370 | whatever the mask, the caches end up exactly as after `recompute` |
| SlaterWaveFunction.JaxSlater.TestValue | pyqmc/jax/slater.py:392-405 | the returned ratios are the per-configuration test values, restricted to the mask |
| ParameterMaps.DistinctKeysCount | pyqmc/jax/slater.py:289-299 | a duplicate-free key order has as many keys as the map |
| ParameterMaps.Gather | pyqmc/jax/slater.py:303-305 | the device tuple has one array per field |
| ParameterMaps.ParameterMap.constructor | pyqmc/jax/slater.py:295-299 | every field maps to its array, the key order is the field order, and no other key exists |
| ParameterMaps.ParameterMap.Set | pyqmc/jax/slater.py:301-305 | the entry is replaced, a new key is appended to the order, and the device tuple is rebuilt from the fields |
| ParameterMaps.ParameterMap.Get | pyqmc/jax/slater.py:307-308 | the stored array, or KeyError for a missing key |
| ParameterMaps.ParameterMap.Len | pyqmc/jax/slater.py:313-314 | the number of keys |
| ParameterMaps.ParameterMap.HasKey | pyqmc/jax/slater.py:325-326 | true exactly for stored keys |
| ParameterMaps.ParameterMap.Keys | pyqmc/jax/slater.py:331-332 | the keys, each once, in the insertion order that `values()` follows |
| ParameterMaps.ParameterMap.Values | pyqmc/jax/slater.py:334-335 | the values, in key order |
| ParameterMaps.ParameterMap.Copy | pyqmc/jax/slater.py:322-323 | a copy of the entries |
| ParameterMaps.ParameterMap.Delete | pyqmc/jax/slater.py:316-317 | always NotImplementedError |
| ParameterMaps.ParameterMap.Clear | pyqmc/jax/slater.py:319-320 | always NotImplementedError |
| ParameterMaps.ParameterMap.Update | pyqmc/jax/slater.py:328-329 | always NotImplementedError |
| ParameterMaps.NewJastrowMapAsWritten | pyqmc/jax/jastrowspin.py:338-341 | the constructor as written always fails with NameError on `np` |
| ParameterMaps.NewJastrowMap | pyqmc/jax/jastrowspin.py:338-341 | the constructor as intended maps acoeff and bcoeff to the two arrays |
| JastrowBasis.ZRange | pyqmc/jax/jastrowspin.py:27 | z maps [0,1] into [0,1], with z(0)=0 and z(1)=1 |
| JastrowBasis.PRange | pyqmc/jax/jastrowspin.py:28 | p maps [0,1] into [0,1/3], with p(0)=0 and p(1)=1/3 |
| JastrowBasis.ZGradIsDerivative | pyqmc/jax/jastrowspin.py:27-30 | `z_grad` is the derivative of z: the exact Taylor expansion holds with remainder O(h²) |
| JastrowBasis.PGradIsDerivative | pyqmc/jax/jastrowspin.py:28-29 | `p_grad` is the derivative of p, exactly |
| JastrowBasis.GradsVanishAtOne | pyqmc/jax/jastrowspin.py:29-30 | both derivatives vanish at r=1, and z' vanishes at 0 |
| JastrowBasis.PadeDenominator | pyqmc/jax/jastrowspin.py:47 | for beta > -1 the polypade denominator is positive on the cutoff range |
| JastrowBasis.CuspDenominator | pyqmc/jax/jastrowspin.py:65 | for gamma > -3 the cusp denominator is positive on the cutoff range |
| JastrowBasis.PolypadeValues | pyqmc/jax/jastrowspin.py:33-48 | polypade is 1 at the origin, 0 beyond the cutoff, and within [0,1] for beta ≥ 0 |
| JastrowBasis.CutoffcuspValues | pyqmc/jax/jastrowspin.py:51-66 | cutoffcusp is rcut/(3+gamma) at the origin and 0 beyond the cutoff |
| JastrowBasis.GradsAtOrigin | pyqmc/jax/jastrowspin.py:69-84 | at the origin the polypade gradient is 0 and the cusp gradient is -1 (the slope that gives Kato's cusp) |
| JastrowBasis.PadeGradAtOrigin | pyqmc/jax/jastrowspin.py:74 | the polypade gradient at r=0 is 0 |
| JastrowBasis.CuspGradAtOrigin | pyqmc/jax/jastrowspin.py:83 | the cusp gradient at r=0 is -1 |
| JastrowBasis.GradsVanishAtCutoff | pyqmc/jax/jastrowspin.py:69-84 | both gradients are 0 beyond the cutoff |
| JastrowBasis.MobiusExpansion | pyqmc/jax/jastrowspin.py:47 | along a path x0 + h(g + hq), the form (a + bx)/(1 + βx) moves by h·(b − aβ)g/(1 + βx0)² plus h² times an explicit remainder |
| JastrowBasis.PadeGradAsSlope | pyqmc/jax/jastrowspin.py:69-75 | rcut times the polypade gradient is the slope of (1 − z)/(1 + βz) along z at speed z'(r) |
| JastrowBasis.PadeExpansion | pyqmc/jax/jastrowspin.py:33-48 | the Pade form at r + s is its value at r plus s times that slope plus s² times an explicit remainder |
| JastrowBasis.CuspExpansion | pyqmc/jax/jastrowspin.py:51-66 | the same exact expansion for −p/(1 + γp), the fractional part of the cusp form |
| JastrowBasis.PolypadeGradIsDerivative | pyqmc/jax/jastrowspin.py:69-75 | `polypade_grad` is the rij-derivative of `polypade`: inside the cutoff, polypade(rij + h) equals polypade(rij) + h·polypade_grad(rij) + h² times an explicit remainder |
| JastrowBasis.CutoffcuspGradIsDerivative | pyqmc/jax/jastrowspin.py:78-84 | `cutoffcusp_grad` is the rij-derivative of `cutoffcusp`, in the same exact form |
| JastrowSums.BasisValues | pyqmc/jax/jastrowspin.py:107-109 | one basis value per parameter |
| JastrowSums.PairFn | pyqmc/jax/jastrowspin.py:107-109 | the pair function is the coefficient-weighted basis sum at the pair's distance |
| JastrowSums.PairSymmetric | pyqmc/jax/jastrowspin.py:107-109 | the pair term does not depend on the order of the two electrons |
| JastrowSums.PairSelf | pyqmc/jax/jastrowspin.py:107-109 | the self-pair term is the same at every position |
| JastrowSums.SelfPairAtZero | pyqmc/jax/jastrowspin.py:107-109 | the self-pair term is the pair term at distance 0 |
| JastrowSums.PadeAtZero | pyqmc/jax/jastrowspin.py:107-109 | at distance 0 the polypade pair term is the sum of its coefficients |
| JastrowSums.CuspAtZero | pyqmc/jax/jastrowspin.py:107-109 | at distance 0 the cusp pair term is coefficient · rcut/(3+gamma) |
| JastrowSums.PairFnLaws | pyqmc/jax/jastrowspin.py:107-109 | every pair function is symmetric, and constant on the diagonal |
| JastrowSums.RowIsSum | pyqmc/jax/jastrowspin.py:107-109 | a row of `partial_basis_sum` is the sum of its pair terms |
| JastrowSums.Rows | pyqmc/jax/jastrowspin.py:291-295 | one row per electron |
| JastrowSums.RowReplace | pyqmc/jax/jastrowspin.py:229-236 | moving one centre changes a row by the new pair term minus the old |
| JastrowSums.FirstBlockMove | pyqmc/jax/jastrowspin.py:238-241 | moving an electron in the first block changes the block sum by its new row minus its old row |
| JastrowSums.SecondBlockMove | pyqmc/jax/jastrowspin.py:238-241 | moving an electron in the second block does the same, by symmetry |
| JastrowSums.SameBlockMove | pyqmc/jax/jastrowspin.py:238-241 | within one block the change is twice the row difference, which is why the same-spin sums are halved |
| JastrowSums.ColumnIsRow | pyqmc/jax/jastrowspin.py:238-241 | a column sum equals the corresponding row sum for a symmetric pair function |
| Jastrow.SelfTermIsSelfPair | pyqmc/jax/jastrowspin.py:136-145 | each term of `compute_bdiag_corr` is exactly the diagonal pair term of the two-body sum |
| Jastrow.BdiagIsSelfTerms | pyqmc/jax/jastrowspin.py:136-145 | the correction is nup up-up self terms plus ndn down-down self terms |
| Jastrow.APade | pyqmc/jax/jastrowspin.py:172-175 | the one-body polypade kernel reads acoeff[atom, 1:, spin] with betas_a |
| Jastrow.ACusp | pyqmc/jax/jastrowspin.py:172-175 | the one-body cusp kernel reads acoeff[atom, 0, spin] |
| Jastrow.BPade | pyqmc/jax/jastrowspin.py:179-184 | the two-body polypade kernel reads bcoeff[1:, column] with betas_b |
| Jastrow.BCusp | pyqmc/jax/jastrowspin.py:179-184 | the two-body cusp kernel reads bcoeff[0, column] |
| Jastrow.OneBodies | pyqmc/jax/jastrowspin.py:172-175 | one one-body value per electron |
| Jastrow.TwoBodies | pyqmc/jax/jastrowspin.py:179-184 | one two-body row per electron |
| Jastrow.OneBodyMove | pyqmc/jax/jastrowspin.py:222-225 | moving one electron changes the one-body sum by its new term minus its old term |
| Jastrow.SameSpinMove | pyqmc/jax/jastrowspin.py:229-240 | the same-spin two-body change is twice the difference of the moved electron's rows |
| Jastrow.CrossMoveUp | pyqmc/jax/jastrowspin.py:229-240 | moving an up electron changes the up-down sum by its row against the down block |
| Jastrow.CrossMoveDown | pyqmc/jax/jastrowspin.py:229-240 | moving a down electron changes the up-down sum by its row against the up block |
| Jastrow.SpinOf | pyqmc/jax/jastrowspin.py:441 | spin is 1 exactly for electrons at index nup or above |
| Jastrow.TestValueIsLogRatioUp | pyqmc/jax/jastrowspin.py:195-242 | for an up electron, the test-value exponent is logJ(after the move) − logJ(before) |
| Jastrow.TestValueIsLogRatioDown | pyqmc/jax/jastrowspin.py:195-242 | the same for a down electron |
| Jastrow.TestValueIsLogRatio | pyqmc/jax/jastrowspin.py:195-242 | for any electron, the test-value exponent is the change in `evaluate_jastrow`'s logj |
| Jastrow.TestValueIsRatio | pyqmc/jax/jastrowspin.py:238-242 | the test value times exp(logJ before) is exp(logJ after): it is the Jastrow ratio |
| Jastrow.TestValueUnmoved | pyqmc/jax/jastrowspin.py:195-242 | proposing the current position gives ratio 1 |
| JastrowAsWritten.TiledRow | pyqmc/jax/jastrowspin.py:179-184 | a cusp row tiled to m rows broadcasts only when m equals the count or 1, and otherwise raises a shape error |
| JastrowAsWritten.TwoBodyAsWritten | pyqmc/jax/jastrowspin.py:229-236 | the moved-electron pair term as written succeeds exactly when the tiled shapes broadcast |
| JastrowAsWritten.TwoBodyAsWrittenMatching | pyqmc/jax/jastrowspin.py:229-236 | when they broadcast, it equals the intended pair term |
| JastrowAsWritten.TwoBodiesAsWritten | pyqmc/jax/jastrowspin.py:179-184 | the two-body sum as written succeeds exactly when the shapes broadcast |
| JastrowAsWritten.TwoBodiesAsWrittenMatching | pyqmc/jax/jastrowspin.py:179-184 | with matching block sizes it equals the intended sum |
| JastrowAsWritten.BroadcastAdd | pyqmc/jax/jastrowspin.py:188-189 | adding a (nup,) vector to an (ndn,) vector succeeds only when they broadcast, and is element-wise addition for equal sizes |
| JastrowAsWritten.EvaluateJastrowAsWrittenAgrees | pyqmc/jax/jastrowspin.py:164-192 | when ndn = nup the source's `evaluate_jastrow` equals the intended one |
| JastrowAsWritten.TestValueDeltaAsWritten | pyqmc/jax/jastrowspin.py:195-242 | the source's test-value exponent is defined exactly when nup and ndn broadcast |
| JastrowAsWritten.TestValueAsWritten | pyqmc/jax/jastrowspin.py:195-242 | the source's test value is defined exactly when nup and ndn broadcast |
| JastrowAsWritten.TestValueAsWrittenAgrees | pyqmc/jax/jastrowspin.py:195-242 | when ndn = nup, or nup = 1, it equals the intended test value |
| JastrowAsWritten.EvaluateJastrowAsWrittenCounterexample | pyqmc/jax/jastrowspin.py:179-189 | for nup=2, ndn=1, the source's logj is twice the intended one (see Findings) |
| JastrowAsWritten.EvaluateJastrowAsWrittenSingleUp | pyqmc/jax/jastrowspin.py:179-189 | for nup=1, ndn=0 (hydrogen) the source's one-body term is 0 and its two-body term −bdiag/2 wherever the electron is, where the intended one-body term is the electron's own |
| JastrowSpin.WithoutEcp | pyqmc/jax/jastrowspin.py:402 | exactly the basis species without an ECP |
| JastrowSpin.ResolveIonCusp | pyqmc/jax/jastrowspin.py:393-404 | False gives no species, True all of them, None those without an ECP, and a list itself |
| JastrowSpin.DefaultRcut | pyqmc/jax/jastrowspin.py:408-412 | a given rcut wins; otherwise the lattice bound if there is one, else 7.5 |
| JastrowSpin.DefaultGamma | pyqmc/jax/jastrowspin.py:406-407 | a given gamma, else 24 |
| JastrowSpin.InitParams | pyqmc/jax/jastrowspin.py:386-428 | the basis carries the resolved species, rcut and gamma; acoeff and bcoeff have the documented shapes and are zero except for the cusp entries |
| JastrowSpin.DefaultCuspsMeetKato | pyqmc/jax/jastrowspin.py:419-426 | the initial cusp coefficients times the basis slope at 0 give −Z for the nuclei with a cusp and 1/4, 1/2, 1/4 for the electron pairs; the polypade slope there is 0 |
| JastrowSpin.SplitConfig | pyqmc/jax/jastrowspin.py:445-462 | the electron's spin and position, and the remaining electrons split into up and down blocks with the right sizes, in order |
| JastrowSpin.CoefficientsOf | pyqmc/jax/jastrowspin.py:345-346 | acoeff and bcoeff are read from the device tuple only when the ranks are 3 and 2 |
| JastrowSpin.JaxJastrowSpin.constructor | pyqmc/jax/jastrowspin.py:380-383 | the object stores the system and `_init_params` results, and its caches start empty |
| JastrowSpin.JaxJastrowSpin.Recompute | pyqmc/jax/jastrowspin.py:431-435 | the cached (a, b, logj) of every configuration is `evaluate_jastrow` of it; the gradient caches are untouched |
| JastrowSpin.JaxJastrowSpin.TestValue | pyqmc/jax/jastrowspin.py:438-442 | each returned value is the Jastrow ratio exp(logJ(moved)) / exp(logJ(current)), and 1 for an unmoved electron |
| JastrowSpin.JaxJastrowSpin.SplitConfigs | pyqmc/jax/jastrowspin.py:445-462 | each configuration is split as `SplitConfig` splits it |
| JastrowSpin.JaxJastrowSpin.GradientLaplacian | pyqmc/jax/jastrowspin.py:484-494 | the laplacian of J is the trace of the Hessian of log J plus the squared gradient, so it is at least the trace |
| CvmcDescriptors.DescriptorFromObdm.constructor | pyqmc/cvmc.py:11-27 | stores the mapping and the norm |
| CvmcDescriptors.DescriptorFromObdm.Call | pyqmc/cvmc.py:29-42 | exactly the mapping's keys, each with its descriptor |
| CvmcDescriptors.ComputeDescriptor | pyqmc/cvmc.py:35-40 | the per-key loop computes the descriptor function |
| CvmcDescriptors.AddListTerms | pyqmc/cvmc.py:38-39 | the inner loop adds each element's term to the running sum |
| CvmcDescriptors.AddListPointwise | pyqmc/cvmc.py:38-39 | per configuration, the accumulated value is the start value plus the list's value |
| CvmcDescriptors.AddPairsPointwise | pyqmc/cvmc.py:37-39 | the zip accumulation from zero is, per configuration, the sum of the list values |
| CvmcDescriptors.ListValues | pyqmc/cvmc.py:37-39 | one value per list |
| CvmcDescriptors.DescriptorTruncates | pyqmc/cvmc.py:37 | the descriptor sums only the first min(#density matrices, #lists) lists, as `zip` truncates |
| CvmcDescriptors.PGradDescriptor.constructor | pyqmc/cvmc.py:48-57 | stores the nodal cutoff |
| CvmcDescriptors.PGradDescriptor.NodeRegr | pyqmc/cvmc.py:59-80 | raises ZeroDivisionError exactly when there are no electrons or the cutoff is 0; otherwise returns the near-node mask and the weights |
| CvmcDescriptors.SquaredGradients | pyqmc/cvmc.py:66-69 | one squared gradient norm per configuration |
| CvmcDescriptors.NodeMask | pyqmc/cvmc.py:71 | one flag per configuration |
| CvmcDescriptors.NodeWeights | pyqmc/cvmc.py:77-78 | one weight per configuration |
| CvmcDescriptors.NodeWeightsRange | pyqmc/cvmc.py:71-78 | away from the node the weight is 1; near it the weight is the regularising polynomial at some r in (0, cutoff²) |
| CvmcDescriptors.CubicSlopeIsDerivative | pyqmc/cvmc.py:64 | the slope of the regularising cubic is its exact derivative |
| CvmcDescriptors.RegularizationBoundary | pyqmc/cvmc.py:73-77 | the regularisation is 0 at r=0, and 1 with zero slope at r = cutoff², so the weight joins 1 smoothly |
| CvmcDescriptors.PGradDescriptor.Call | pyqmc/cvmc.py:82-94 | always NotImplementedError |
| CvmcDescriptors.PGradDescriptor.Avg | pyqmc/cvmc.py:96-120 | KeyError when the energy accumulator has no "total"; otherwise fails exactly as `_node_regr` fails, and else returns the averages specified entry by entry below, with "total" as the energy |
| CvmcDescriptors.MeanEntries | pyqmc/cvmc.py:109-110 | each energy component is replaced by its mean |
| CvmcDescriptors.MeanMap | pyqmc/cvmc.py:109-110 | the same keys, each with its mean |
| CvmcDescriptors.AddDescriptorStats | pyqmc/cvmc.py:115-117 | the loop adds the "dp"+name and "avg"+name entries of every descriptor |
| CvmcDescriptors.DescriptorStats | pyqmc/cvmc.py:115-117 | the keys are exactly "dp"+name and "avg"+name for the descriptor names |
| CvmcDescriptors.DescriptorStatsInsert | pyqmc/cvmc.py:115-117 | one more descriptor adds exactly its two entries |
| CvmcDescriptors.DescriptorStatsEmpty | pyqmc/cvmc.py:115-117 | no descriptors, no entries |
| CvmcDescriptors.DescriptorStatsAt | pyqmc/cvmc.py:115-117 | "dp"+name holds the weighted derivative and "avg"+name the mean of that descriptor |
| CvmcDescriptors.Prefixed | pyqmc/cvmc.py:115-117 | prefixed keys are exactly prefix+name for the names |
| CvmcDescriptors.BaseStats | pyqmc/cvmc.py:108-113 | the energy keys plus dpH, dppsi and dpidpj |
| CvmcDescriptors.AvgStatsKeys | pyqmc/cvmc.py:108-118 | the result has exactly the energy keys, dpH, dppsi, dpidpj, nodal_cutoff and the two prefixed entries per descriptor |
| CvmcDescriptors.AvgStatsDescriptors | pyqmc/cvmc.py:115-118 | nodal_cutoff counts the masked configurations, and each descriptor's two entries are its derivative and mean |
| CvmcDescriptors.AvgStatsEnergy | pyqmc/cvmc.py:109-111 | dpH is the weighted energy derivative unless a descriptor overwrites it, and every other energy key holds its mean |
| CvmcOptimize.Gather | pyqmc/cvmc.py:193-196 | gathering the forced quantities gives one force, average, target and derivative per forced key |
| CvmcOptimize.GatherMeaning | pyqmc/cvmc.py:193-196 | entry i is the i-th forced key's force, average, objective and derivative; an error is the KeyError of one of the keys |
| CvmcOptimize.GatherFailsAt | pyqmc/cvmc.py:193-196 | a key missing from the averages, the derivatives or the objective makes the whole gather fail |
| CvmcOptimize.GatherErrorStays | pyqmc/cvmc.py:193-196 | once the gather has failed, later keys do not change the error |
| CvmcOptimize.Covariance | pyqmc/cvmc.py:185-195 | one covariance per parameter |
| CvmcOptimize.Qdp | pyqmc/cvmc.py:193-195 | row i is the covariance of the i-th forced quantity |
| CvmcOptimize.Derivative | pyqmc/cvmc.py:190-197 | one derivative entry per parameter |
| CvmcOptimize.DerivativeEntry | pyqmc/cvmc.py:190-197 | entry j is dE/dp_j plus the penalty slopes along column j |
| CvmcOptimize.PenaltyAppend | pyqmc/cvmc.py:196-199 | one more forced key adds its own penalty term |
| CvmcOptimize.DistanceAppend | pyqmc/cvmc.py:196-199 | one more forced key adds its own squared distance |
| CvmcOptimize.DerivativeAppend | pyqmc/cvmc.py:196-199 | one more forced key adds its own slope times its covariance |
| CvmcOptimize.RecordedStep | pyqmc/cvmc.py:194-211 | after a step the recorded qavg and qdp maps hold the new key's values, and the earlier ones are kept |
| CvmcOptimize.KeysForcedStep | pyqmc/cvmc.py:194-211 | the recorded maps have exactly the keys forced so far |
| CvmcOptimize.AccumulateStart | pyqmc/cvmc.py:181-191 | the state before the loop satisfies the loop invariant |
| CvmcOptimize.AccumulateStep | pyqmc/cvmc.py:193-199 | one loop step keeps the invariant |
| CvmcOptimize.AccumulatedDone | pyqmc/cvmc.py:201-212 | at the end the invariant is the specification of the result |
| CvmcOptimize.GetObjDeriv | pyqmc/cvmc.py:174-212 | fails exactly when a forced key is missing, with that KeyError; otherwise returns objfunc, objderiv, distfromobj and the recorded maps as specified, with dEdp the unforced energy covariance (the intended value; see Findings) |
| CvmcOptimize.AliasedEnergyDerivative | pyqmc/cvmc.py:188-206 | as written, the returned "dEdp" at parameter j is the covariance plus the forcing's slope along j, so it differs from the covariance exactly when that slope is non-zero |
| CvmcOptimize.PenaltyMoved | pyqmc/cvmc.py:199 | moving the averages by h·d changes the penalty by h·(slope) + h²·(curvature): a quadratic in h |
| CvmcOptimize.ObjectiveSlope | pyqmc/cvmc.py:185-199 | objderiv[j] is the first-order slope of objfunc along p_j, the quadratic term being the curvature |
| CvmcOptimize.Linspace | pyqmc/cvmc.py:233 | num points |
| CvmcOptimize.Taus | pyqmc/cvmc.py:233-234 | npts=1 raises ZeroDivisionError; otherwise there are npts+1 step sizes |
| CvmcOptimize.TausSinglePoint | pyqmc/cvmc.py:233-234 | npts=0 gives only tstep |
| CvmcOptimize.TausGrid | pyqmc/cvmc.py:233-234 | the grid is a negative step followed by k·tstep/npts for k=1..npts; for tstep>0 it ascends |
| CvmcOptimize.LineParams | pyqmc/cvmc.py:235 | one parameter vector per step size |
| CvmcOptimize.UpdateOnLine | pyqmc/cvmc.py:235-254 | the update x − est_min·objderiv is the line point at est_min |
| CvmcOptimize.LineParamsCollinear | pyqmc/cvmc.py:235 | all line points lie on one line along objderiv |
| CvmcOptimize.WeightedMeanUniform | pyqmc/cvmc.py:239-245 | with equal weights the weighted mean is the plain mean |
| CvmcOptimize.WeightedMeanScaleFree | pyqmc/cvmc.py:239-245 | scaling every weight by c > 0 leaves the weighted mean unchanged |
| CvmcOptimize.StepGather | pyqmc/cvmc.py:244-248 | succeeds exactly when every forced key is in the data and the objective; then holds the weighted averages |
| CvmcOptimize.StepObjective | pyqmc/cvmc.py:238-251 | fails exactly when total, weight or a forced key is missing |
| CvmcOptimize.StepObjectiveUniform | pyqmc/cvmc.py:238-251 | with uniform weights, the objective is the mean energy plus the penalty at the plain averages |
| CvmcOptimize.Collect | pyqmc/cvmc.py:238-252 | all first m results succeed, or the first failure is returned |
| CvmcOptimize.CollectErrorStays | pyqmc/cvmc.py:238-252 | a later failure does not replace the first |
| CvmcOptimize.LineSearch | pyqmc/cvmc.py:230-252 | xfit holds the first min(#steps, #taus) step sizes and yfit their objectives, or the loop stops at the first failure |
| CvmcOptimize.Weights | pyqmc/cvmc.py:306 | one weight per sample |
| CvmcOptimize.WeightsRatio | pyqmc/cvmc.py:306 | each weight is positive and equals psi²/psi0² |
| CvmcOptimize.WeightsAtSampling | pyqmc/cvmc.py:306 | the weights are all 1 at the sampled wave function |
| CvmcOptimize.WeightsSumPositive | pyqmc/cvmc.py:306 | the weights sum to a positive number, so the weighted means are defined |
| CvmcOptimize.StepFrame | pyqmc/cvmc.py:308-316 | the data frame has the energy, descriptor and weight columns |
| CvmcOptimize.StepFrameShaped | pyqmc/cvmc.py:308-316 | every column has one entry per sample |
| CvmcOptimize.WriteColumns | pyqmc/cvmc.py:314-315 | the descriptor columns are added, overriding columns with the same name |
| CvmcOptimize.LmCvmc | pyqmc/cvmc.py:270-319 | one data frame per parameter set, each the reweighted frame of that set |
| CvmcOptimize.DescendsStep | pyqmc/cvmc.py:254 | the update keeps the parameters on the descent path |
| CvmcOptimize.DescendsStart | pyqmc/cvmc.py:219 | the starting parameters are the start of the descent path |
| CvmcOptimize.IterationRecorded | pyqmc/cvmc.py:223-256 | a successful iteration records its gradient, parameters, step sizes and objectives |
| CvmcOptimize.CvmcOptimize | pyqmc/cvmc.py:219-262 | succeeds exactly when every iteration succeeds, and otherwise returns the error of the first failing iteration, every earlier one having succeeded; on success every iteration is recorded and each parameter update is x − est_min·objderiv |
| Ensemble.WithParameters | pyqmc/method/ensemble_optimization.py:39-43 | each wave function's keys are joined with the new ones, and new values override old ones |
| Ensemble.WriteParameters | pyqmc/method/ensemble_optimization.py:42-43 | the key writes merge the new parameters into the wave function |
| Ensemble.SetWfParams | pyqmc/method/ensemble_optimization.py:39-43 | every wave function now holds the merged parameters |
| Ensemble.CoefficientKey | pyqmc/method/ensemble_optimization.py:57-62 | wf1det_coeff if present, else det_coeff, else NotImplementedError |
| Ensemble.CoefficientKeyOfSameKeys | pyqmc/method/ensemble_optimization.py:57-62 | the key depends only on which keys exist |
| Ensemble.RenormMatchesPivot | pyqmc/method/ensemble_optimization.py:56 | after scaling by renorm, norm_i·renorm² equals the pivot's norm times the new normalisation |
| Ensemble.Stop | pyqmc/method/ensemble_optimization.py:53-62 | the loop stops at the first non-pivot wave function without a usable coefficient key |
| Ensemble.Renormalized | pyqmc/method/ensemble_optimization.py:46-62 | the renormalised parameters, one set per wave function |
| Ensemble.RenormalizedState | pyqmc/method/ensemble_optimization.py:53-62 | wave functions before the stop point and other than the pivot are scaled; the rest are unchanged |
| Ensemble.RenormalizedNone | pyqmc/method/ensemble_optimization.py:53-62 | before the loop nothing has changed |
| Ensemble.RenormalizedStep | pyqmc/method/ensemble_optimization.py:53-62 | one loop step skips the pivot, raises the missing-key error, or scales one coefficient vector |
| Ensemble.RenormalizeKeepsPivot | pyqmc/method/ensemble_optimization.py:53-55 | the pivot's parameters never change |
| Ensemble.RenormalizeMatchesNorms | pyqmc/method/ensemble_optimization.py:46-62 | succeeds exactly when every other wave function can be scaled; each is then scaled by the renorm that matches the pivot's norm |
| Ensemble.RenormalizeWithoutCoefficients | pyqmc/method/ensemble_optimization.py:61-62 | without coefficient keys, nothing changes and NotImplementedError is raised |
| Ensemble.RenormalizedErrorStays | pyqmc/method/ensemble_optimization.py:61-62 | after an error later wave functions are not touched |
| Ensemble.Renormalize | pyqmc/method/ensemble_optimization.py:46-62 | the wave functions' parameters and the error are those of the specification |
| Ensemble.OverlapPenalty | pyqmc/method/ensemble_optimization.py:87-89 | the given penalty, or an nwf×nwf matrix of 0.5 |
| Ensemble.WrapUpdater | pyqmc/method/ensemble_optimization.py:91-99 | a single updater becomes a list of one; a list is kept |
| Ensemble.Pairs | pyqmc/method/ensemble_optimization.py:116-120 | the k-th scheduled pair is the pair at linear position lo+k |
| Ensemble.PositionOfPair | pyqmc/method/ensemble_optimization.py:116-117 | position and pair are inverse to each other |
| Ensemble.PairPosition | pyqmc/method/ensemble_optimization.py:116-117 | pair and position are inverse to each other, in the other direction |
| Ensemble.PositionOrder | pyqmc/method/ensemble_optimization.py:116-117 | positions order pairs lexicographically |
| Ensemble.PairsAscending | pyqmc/method/ensemble_optimization.py:116-117 | the schedule is strictly ascending in (iteration, sub-iteration) |
| Ensemble.NextIteration | pyqmc/method/ensemble_optimization.py:116-117 | the position after an iteration's last sub-iteration is the next iteration's first |
| Ensemble.ScheduleMembers | pyqmc/method/ensemble_optimization.py:116-120 | (i, s) is scheduled exactly when offset ≤ i < max_iterations, s < n_sub, and s is not before the sub-iteration offset in the first iteration |
| Ensemble.RestartSchedule | pyqmc/method/ensemble_optimization.py:116-120 | the nested loop's pairs are the schedule |
| Ensemble.MaxOf | pyqmc/method/ensemble_optimization.py:111 | the maximum is an element and bounds all elements |
| Ensemble.MaxSavedIteration | pyqmc/method/ensemble_optimization.py:111 | in a file saved after p pairs, the largest iteration is (p−1) div n_sub |
| Ensemble.RestartOffsets | pyqmc/method/ensemble_optimization.py:101-113 | no file gives offsets 0; otherwise max(iteration)+1 and last(sub_iteration)+1 |
| Ensemble.SavedIterations | pyqmc/method/ensemble_optimization.py:160-161 | the saved iteration column of a run stopped after p pairs |
| Ensemble.SavedSubIterations | pyqmc/method/ensemble_optimization.py:160-161 | the saved sub-iteration column |
| Ensemble.RestartSkipsPairs | pyqmc/method/ensemble_optimization.py:110-120 | a restart as written resumes n_sub positions after the last saved pair, skipping n_sub pairs (see Findings) |
| Ensemble.RestartSkipsIterationOne | pyqmc/method/ensemble_optimization.py:110-120 | with one sub-iteration and iteration 0 saved, the restart runs only (2,0) instead of (1,0),(2,0) |
| Ensemble.ResumeCompletesRun | pyqmc/method/ensemble_optimization.py:110-120 | with the corrected offsets the restart resumes right after the last saved pair, and saved plus resumed pairs are the full schedule |
| Ensemble.ResumedSchedule | pyqmc/method/ensemble_optimization.py:101-120 | the pairs of the corrected restart |
| Ensemble.ParameterStep | pyqmc/method/ensemble_optimization.py:149-153 | each wave function's parameters move by the first row of its dp |
| Ensemble.ParameterStepUndone | pyqmc/method/ensemble_optimization.py:149-153 | a step by dp followed by a step by −dp restores the parameters |

## Left out

- `exp`, `log` and `sqrt` are function values passed in, and their laws are requirements of the lemmas that use them. Floating-point rounding, `nan` and `inf` are not modelled. `log|0|` would be −inf; the model keeps logs finite and marks a node by sign 0.
- `slogdet` and `inv` (slater.py:51-74) are external: the per-spin signs, log-determinants and inverses are inputs. When the proofs rely on the inverses, they take them as right inverses.
- The gradients and Hessians that automatic differentiation produces are not modelled: `gradient`, `gradient_value`, `laplacian` and `pgradient` of both wave functions, Slater's `gradient_laplacian` (slater.py:407-450, jastrowspin.py:465-503), and `partial_basis_sum_grad` and `evaluate_derivative` (jastrowspin.py:112-120, 245-281). JAXJastrowSpin's `gradient_laplacian` is modelled from its combination step onward (GradientLaplacian), with the gradient and Hessian as inputs. Instead the model proves that the closed-form basis gradients `polypade_grad` and `cutoffcusp_grad` are the rij-derivatives of `polypade` and `cutoffcusp` inside the cutoff. Each is an exact expansion with an explicit h² remainder.
- JastrowSpin.JaxJastrowSpin.GradientLaplacian: takes the gradient and Hessian of log J as inputs, because they come from automatic differentiation.
- `create_wf_evaluator` and `create_jastrow_evaluator` (slater.py:216-279, jastrowspin.py:284-330) are `jax.jit`/`vmap` wiring. The model evaluates per configuration instead (EvaluateBatch, Rows).
- SlaterWaveFunction.JaxSlater.UpdateInternals: the source returns early at slater.py:368 (`if True or …`), so the Sherman-Morrison commit after it is never reached. The method recomputes. The unreachable commit is modelled on its own as CommitSpin/CommitMasked, without aliasing between the cached arrays.
- CvmcDescriptors.PGradDescriptor.Call: the source always raises, and only the final NotImplementedError is modelled. Before it, the source can raise the KeyError of `d["total"]` (cvmc.py:85) or the ZeroDivisionError of `_node_regr` (cvmc.py:88, no electrons or a zero cutoff); the model does not put these first, though Avg models both.
- Slater.CommitMasked: selects per configuration. In the unreachable commit (slater.py:377-378, 386-387), `jnp.where` pairs the `(nconfig,)` mask with the determinant axis of the `(nconfig, ndet)` sign and log arrays. Only nconfig = 1 selects per configuration; otherwise the call raises, broadcasts to `(nconfig, nconfig)` when ndet = 1, or selects by determinant when ndet = nconfig. The model keeps the evident per-configuration intent because the branch is never reached.
- SlaterWaveFunction.JaxSlater.TestValue: only one proposed position per configuration is modelled. The 3-D `epos` branch (slater.py:396-402, several positions per configuration, returning `None` for `saved`) is left out. With `mask=None`, `np.array(newvals)[None]` adds a leading axis of length 1; the model returns the same values without that axis.
- JastrowSpin.JaxJastrowSpin.constructor: builds the parameter map with the corrected NewJastrowMap of the third Findings row. The class as written (jastrowspin.py:380-383) calls `_parameterMap.__init__` (jastrowspin.py:338-341), which raises NameError on `np` when the module is imported, so the source's constructor never completes; NewJastrowMapAsWritten models that.
- JastrowSpin.JaxJastrowSpin.Recompute: caches the corrected `evaluate_jastrow` of the first Findings row. The class as written (jastrowspin.py:431-435) runs the as-written evaluator. When nup ≠ ndn and one of the two is 1, numpy broadcasts a length-1 vector and that evaluator can give a different log J: with ndn = 1 < nup the up-down cusp term is counted nup times, with nup = 1 < ndn the single up electron's terms are counted ndn times, and with one electron and none of the other spin the sums are empty (EvaluateJastrowAsWrittenSingleUp). When nup ≠ ndn and neither is 1 it raises a shape error. JastrowAsWritten models it.
- JastrowSpin.JaxJastrowSpin.TestValue: returns the corrected ratio of the first Findings row. The class as written (jastrowspin.py:438-442) runs the as-written test value. That value is proved equal to the intended one when nup = ndn or nup = 1 (TestValueAsWrittenAgrees); it raises a shape error when the counts differ and neither is 1, and can differ when ndn = 1 < nup, where the cusp term against the single down electron is counted nup times.
- CvmcOptimize.GetObjDeriv: returns the intended dEdp, the unforced energy covariance. As written, the source returns the forced derivative under that key whenever forcing is non-empty; CvmcOptimize.AliasedEnergyDerivative states the difference (fourth Findings row).
- CvmcOptimize.AccumulatedDone: records the same intended dEdp as GetObjDeriv, for the same reason.
- CvmcDescriptors.DescriptorFromObdm.Call: requires a non-empty `rets` when the mapping is non-empty. The source raises IndexError at `rets[0]` (cvmc.py:35) in that case. Orbital indices are naturals, so Python's negative indexing of `ret["value"][:, i, j]` (cvmc.py:39) is not modelled. Indices at or beyond the orbital count, for which numpy raises IndexError there, are excluded by the requires as well (MappingFits).
- The Jastrow cutoff taken from a lattice (jastrowspin.py:410) is the input `latticeRcut`. The betas of `expand_beta_qwalk` (jastrowspin.py:414-415) are inputs.
- Sampling and file I/O are left out: VMC sampling and `enacc`/`dm_evaluators` in cvmc.py, and the HDF5 file writing and reading in ensemble_optimization.py (`hdf_save`, 24-36 and 103-114). Their results are inputs: run averages, data frames and the saved iteration columns.
- `sample_overlap`, `block_average`, `delta_p`, the GPU transfers and the progress prints of ensemble_optimization.py are left out. The `optimize_ensemble` loop is modelled as its schedule (RestartSchedule, ResumedSchedule), its parameter step (ParameterStep) and its renormalisation. The three are not composed into one method.
- Ensemble.Renormalize: the norms are required to be positive. The source divides by them and would produce `inf`/`nan` otherwise. The wave functions must also be distinct objects; aliasing two list entries to one object is not modelled.
- Ensemble.SetWfParams: the wave functions must be distinct objects. Aliasing two list entries to one object is not modelled.
- Ensemble.RestartOffsets: an empty saved dataset is excluded, because `max` of an empty array raises in the source.
- CvmcOptimize.CvmcOptimize: the estimated minimum `est_min` from the quadratic fit (`scipy`) is an input per iteration. The fit itself is not modelled. Also left out: the restart of `wf.parameters` from `hdf_file` (cvmc.py:214-218; the starting x0 is an input), the `grad["iteration"]` field of each record (cvmc.py:224; the record's position in the list is its iteration), the JSON `datafile` write, and the final write of x0 back into `wf.parameters` (cvmc.py:264-267; the method returns x).
- CvmcDescriptors.PGradDescriptor.Avg: the energy accumulator's values, parameter derivatives, descriptors and electron gradients are inputs. They are computed by other components.
- The `__repr__` methods, the module-level helpers and test functions, and the `__main__` blocks are not modelled.

## Findings

| source | as written | input that shows it | evidently intended | confidence | as-written member | corrected member |
|---|---|---|---|---|---|---|
| pyqmc/jax/jastrowspin.py:179-189 | the up-down cusp coefficient is tiled to `nup` rows but paired with the `ndn` down electrons (lines 182, 184, 232, 236), and a `(nup,)` vector is added to an `(ndn,)` vector (lines 188-189) | nup=2, ndn=1, all electrons at the origin, only the up-down cusp coefficient set to 1: logj = 4·(7.5/27) | logj = 2·(7.5/27), one cusp term per up-down pair (as written, log J also differs when nup = 1 ≠ ndn, as for hydrogen, and unequal counts neither of which is 1 raise a shape error) | not executed | JastrowAsWritten.EvaluateJastrowAsWrittenCounterexample | Jastrow.TestValueIsLogRatio |
| pyqmc/method/ensemble_optimization.py:110-120 | on restart, `iteration_offset` is max(iteration)+1 and `sub_iteration_offset` is last(sub_iteration)+1, and both are applied | n_sub=1, file holding iteration 0, sub-iteration 0: offsets (1, 1), schedule [(2, 0)] | resume at the pair after the last saved one: [(1, 0), (2, 0)] | not executed | Ensemble.RestartSkipsIterationOne | Ensemble.ResumeCompletesRun |
| pyqmc/jax/jastrowspin.py:338-341 | `_parameterMap.__init__` calls `np.…` but the file never imports `np` | constructing any JAXJastrowSpin when the module is imported (only running the file as a script imports numpy, at line 521) | build the map from the two arrays | not executed | ParameterMaps.NewJastrowMapAsWritten | ParameterMaps.NewJastrowMap |
| pyqmc/cvmc.py:190-197 | `objderiv = dEdp` binds both names to one array, so `objderiv += …` also changes the array returned as `dret["dEdp"]` | one forced key with force 1, average 1, target 0 and covariance 1 with the single parameter: the returned dEdp is the covariance plus 2 | dEdp is the unforced energy derivative dpH − dpavg·havg | not executed | CvmcOptimize.AliasedEnergyDerivative | CvmcOptimize.GetObjDeriv |
