# dinamica-molecular: the Python driver, modelled in Dafny

The repository simulates a Lennard-Jones fluid with velocity Verlet.  The
physics lives in a compiled library (`libmd.so`); the Python layer
(`src/md_class.py`, class `md`, and the free functions of `src/md.py`)
prepares the buffers, calls the library in a fixed order, counts steps and
reduces the observables it reads into averages and spreads.  This project
models that Python layer.

- `outcomes.dfy` (module `Outcomes`): the exceptions the layer can raise, as a
  `Fault` inside a `Result`.
- `stats.dfy` (module `Stats`): exact population mean and variance over reals,
  their laws under shifting and scaling, and `Numerics`, the float routines
  behind `np.mean`, `np.var` and `**0.5` as total maps.  `Exact(nm)` is the
  assumption that they compute the exact statistics.
- `layout.dfy` (module `Layout`): `transforma_1D` and `transforma_xyz`, the
  conversion between per-axis arrays and the interleaved `3N` layout the
  library uses, with their assertion failures.
- `setup.dfy` (module `Setup`): `llenar_pos` (cubic lattice of side `lado`,
  cell centres, truncated to `3N` coordinates) and `llenar_vel` (a velocity
  draw with its mean removed).
- `verlet.dfy` (module `Verlet`): the library routines as opaque fields of
  `Clib`, each buffer writer given by the contents it leaves in the buffer;
  one step (`primer_paso`, force refresh of the current mode, `ultimo_paso`,
  `c_cont`) as `Step`, `n` steps as `Run`; and the in-place `paso` /
  `paso_exacto` of `src/md.py` on caller-owned arrays.
- `sampling.dfy` (module `Sampling`): what `llenar_vectores`, `tomar_muestra`,
  `medir_temp` and `dist_radial` compute, as functions of the state the run
  starts from.
- `lindemann.dfy` (module `Lindemann`): the jump correction, the unwrapped
  trajectory and the Lindemann coefficients.
- `md_class.dfy` (module `MdClass`): class `Md`, whose `pos`, `vel`, `fza` and
  radial-histogram buffers are arrays the library overwrites in place, and
  whose step counter, mode flag, excess pressure and `_distrad` binding are
  fields.  Every analysis routine is a method with the source's loops, proved
  to leave the buffers at `Run(Stepper(), old(Current()), n)` for its exact
  step count `n`, to advance `cantPasos` by that `n`, and to return the value
  the matching function of `Sampling` or `Lindemann` computes.

`lindemann` takes the variance over rows `0..j` of the unwrapped trajectory
just after adding row `j + 1`, so each trial's coefficient lags one row and its
first value is 0.  The model keeps this as written; `LindFirstCoef` and
`LindFirstColumn` state the consequence.

## Model

| member | source | states |
|---|---|---|
| Layout.Transforma1D | src/md_class.py:130-136 | fails with the assertion exactly when the three axes differ in size; otherwise yields `3` times the axis length |
| Layout.TransformaXyz | src/md_class.py:138-147 | fails with the assertion exactly when the length is not a multiple of 3; otherwise three axes of a third of the length each |
| Layout.Interleave | src/md_class.py:135-136 | the interleaved vector has `3` entries per particle (its contents are stated by `InterleaveAt`) |
| Layout.Split | src/md_class.py:143-147 | each axis has a third of the interleaved length (its contents are stated by `XyzAfter1D` and `OneDAfterXyz`) |
| Layout.InterleaveAt | src/md_class.py:136 | entry `3i + k` of the interleaved vector is axis `k` of particle `i` |
| Layout.XyzAfter1D | src/md.py:69-81 | splitting an interleaved vector gives back the three axes it was built from |
| Layout.OneDAfterXyz | src/md_class.py:130-147 | interleaving the axes of a split vector gives back the vector: the two converters are mutual inverses |
| Setup.Lado | src/md_class.py:157-162 | the side chosen from the truncated cube root is the least with `lado^3 >= N` |
| Setup.LlenarPos | src/md.py:84-103 | exactly `3N` coordinates |
| Setup.LlenarPosAt | src/md_class.py:165-175 | coordinate `k` of particle `i` is the cell centre `(2a+1)L/(2 lado)` of digit `k` of `i` in base `lado`, x fastest as meshgrid with `indexing='ij'` then transposing lays them out |
| Setup.Aux | src/md_class.py:165-168 | cell centre `a` is entry `a` of `np.linspace(s, L - s, lado)` with `s = L / lado / 2`: `s` itself for a single cell, otherwise `s + a (L - 2s) / (lado - 1)` |
| Setup.Digit | src/md_class.py:170-172 | for a site below `lado^3` and an axis below 3, the digit is a valid cell index, below `lado` |
| Setup.GridAxis | src/md_class.py:168-172 | axis `k` of the meshgrid has `lado^3` entries, all strictly inside `(0, L)` when `L > 0` |
| Setup.AuxInBox | src/md_class.py:165-168 | every cell centre lies strictly inside `(0, L)` |
| Setup.AuxSpacing | src/md_class.py:168 | neighbouring cell centres are `L / lado` apart |
| Setup.AuxInjective | src/md_class.py:168 | distinct cells have distinct centres |
| Setup.LlenarPosInBox | src/md.py:84-103 | every initial coordinate is a cell centre with digit below `lado`, hence strictly inside `(0, L)` |
| Setup.SameCoordinateSameDigit | src/md_class.py:165-172 | two particles sharing coordinate `k` share digit `k` |
| Setup.SameSiteSameParticle | src/md.py:99-103 | no two of the first `N` particles share a lattice site |
| Setup.LlenarVel | src/md.py:106-111 | keeps the `3N` length of the draw |
| Setup.LlenarVelStats | src/md_class.py:185-190 | with exact routines the velocities are the draw centred on its mean: they sum to zero, keep the variance of the draw, and `np.var` of them (the recorded `_T`) is that variance |
| Stats.CentreStats | src/md_class.py:187 | subtracting the mean leaves sum and mean zero and the variance unchanged |
| Stats.VarianceShift | src/md_class.py:187 | shifting every component by the same amount keeps the population variance |
| Stats.VarianceScale | src/md_class.py:281-285 | multiplying every component by `c` multiplies the population variance by `c^2` |
| Stats.MeanNonNegative | src/md_class.py:421-424 | the mean of non-negative values is non-negative |
| Stats.ConstantStats | src/md_class.py:432-433 | a constant sequence has that constant as mean and variance zero |
| MdClass.RescaledTemp | src/md_class.py:281-291 | with exact routines, after rescaling by `(x)^(1/2)` with `x >= 0`, `calc_temp` reports `x` times the former temperature |
| MdClass.LongLut | src/md_class.py:58 | `int(g * 2.5)` truncates: `2r <= 5g < 2r + 2` |
| Verlet.LennardJonesTable | src/md_class.py:79-81 | the potential table has `long_lut` entries |
| Verlet.FuerzaTable | src/md_class.py:84-87 | the force table has as many entries as the potential table |
| Verlet.Fuerzas | src/md_class.py:226-233 | the force refresh of either mode keeps the `fza` length |
| Verlet.Step | src/md_class.py:217-239 | a step keeps the lengths of the three buffers; in exact mode it leaves the excess pressure as it was |
| Verlet.Run | src/md_class.py:243-248 | `n` steps keep the buffer lengths and the `3N` layout, and in exact mode the excess pressure |
| Verlet.RunStep | src/md_class.py:247-248 | `n + 1` steps are one step after `n` steps |
| Verlet.RunAdd | src/md_class.py:243-248 | `a` steps then `b` steps are `a + b` steps |
| Verlet.StepsIsProduct | src/md_class.py:316-317 | `n` rounds of `k` steps are `n * k` steps |
| Verlet.ModesDifferOnlyInForce | src/md.py:48-51 | `paso` and `paso_exacto` produce the same positions, and the same velocities and forces whenever their force routines agree on the drifted positions |
| Verlet.RunInBox | src/md_class.py:239 | assuming `c_cont` wraps into `[0, L)`, every position after one or more steps lies in the box |
| Verlet.CPrimerPaso | src/md_class.py:222-223 | `primer_paso` overwrites `pos` and `vel` with the library's results and touches nothing else |
| Verlet.CNuevaFza | src/md_class.py:231-233 | `nueva_fza` overwrites `fza` and returns the excess pressure |
| Verlet.CNuevaFzaExacto | src/md_class.py:227-228 | `nueva_fza_exacto` overwrites `fza` only |
| Verlet.CUltimoPaso | src/md_class.py:236 | `ultimo_paso` overwrites `vel` only |
| Verlet.CCCont | src/md_class.py:239 | `c_cont` overwrites `pos` only |
| Verlet.CDistribRadial | src/md_class.py:381-382 | `distrib_radial` accumulates into the histogram buffer only |
| Verlet.Paso | src/md.py:41-51 | the buffers end as one table-mode step of their old contents, in the order `primer_paso`, `nueva_fza`, `ultimo_paso`, `c_cont` |
| Verlet.PasoExacto | src/md.py:54-63 | the buffers end as one exact-mode step of their old contents |
| MdClass.Md.constructor | src/md_class.py:44-96 | new buffers, owned by the object, of `3N` (and `Q`) entries holding the lattice, the centred draw and zeros; tables of `int(2.5 g)` entries from the table routines; `_T` the temperature of the initial state; counter 0, table mode, excess pressure 0, `_distrad` still the buffer |
| MdClass.Md.Paso | src/md_class.py:217-241 | the buffers advance by one step of the current mode, the counter by exactly 1, and in exact mode the excess pressure, and so `calc_presion`, stays stale |
| MdClass.Md.NPasos | src/md_class.py:243-248 | the buffers advance by exactly `n` steps and the counter by `n` |
| MdClass.Md.CalcTemp | src/md_class.py:287-291 | with exact routines, the population variance of the velocities, never negative |
| MdClass.Md.CalcPresion | src/md_class.py:275-279 | three times the pressure is the excess recorded by the last table-mode force refresh |
| MdClass.Md.CalcEnergia | src/md_class.py:257-273 | returns an energy exactly in table mode; exact mode raises |
| MdClass.Md.Rescaling | src/md_class.py:281-285 | every velocity is multiplied by `(T_deseada / T_actual)^(1/2)`; `T_actual == 0` raises division by zero and a negative ratio raises the complex cast, both leaving the velocities as they were |
| MdClass.Md.LlenarVectores | src/md_class.py:308-329 | returns the series `Sampling.LlenarVectores` defines and advances buffers and counter by `subm k` steps (by `k` in exact mode, where the first energy raises) |
| MdClass.Md.TomarMuestra | src/md_class.py:331-358 | returns `Sampling.TomarMuestra` of the starting state and advances buffers and counter by `m (dc + subm k)` steps (by `dc + k` when exact mode raises) |
| MdClass.Md.MedirTemp | src/md_class.py:360-372 | returns `Sampling.MedirTemp` of the starting state and advances buffers and counter by `m (dc + subm k)` steps |
| MdClass.Md.DistRadial | src/md_class.py:374-386 | accumulates `n` histograms `m` steps apart, advances by `n m` steps, and returns the normalised buffer on the first call and the renormalised earlier list on later calls, which it binds to `_distrad` |
| MdClass.Md.Lindemann | src/md_class.py:388-447 | returns, for each of the `subm` columns, the average and spread over trials of the coefficients `Lindemann.LindMatrix` defines, and advances by `m subm k` steps; with `subm == 0` `np.average` raises |
| MdClass.Md.PruebaPiloto | src/md_class.py:293-306 | always raises: `int(NaN)` with no pilot block, otherwise the exact-mode energy error or the three-into-two unpacking, after `dc` steps and one `llenar_vectores` |
| Sampling.Temp | src/md_class.py:287-291 | with exact routines and at least one velocity, the temperature is the population variance of the velocities, never negative |
| Sampling.Presion | src/md_class.py:275-279 | the pressure is a third of the recorded excess: three times it gives the excess back |
| Sampling.PresionStale | src/md_class.py:226-228 | in exact mode no step writes the excess, so the pressure read after any number of steps is the one before them |
| Sampling.PresionAfterStep | src/md_class.py:231-233 | in table mode the pressure after a step is a third of what `nueva_fza` returned for the drifted positions |
| Sampling.EnergiaReadsPosVel | src/md_class.py:269-273 | the table-mode energy depends on the positions and velocities only: not on forces, excess pressure or mode |
| Sampling.Energia | src/md_class.py:257-273 | raises the argument-count error exactly in exact mode |
| Sampling.SeriesOf | src/md_class.py:312-320 | three series of length `n` |
| Sampling.SeriesOfAt | src/md_class.py:316-320 | entry `j` of each series is the temperature, energy or pressure of the state `j + 1` batches of `k` steps after the start |
| Sampling.SeriesNext | src/md_class.py:316-320 | one more pass appends the temperature, energy and pressure read after `k` further steps |
| Sampling.SeriesTempsNonNegative | src/md_class.py:318 | with exact routines every recorded temperature is non-negative |
| Sampling.LlenarVectores | src/md_class.py:308-329 | raises exactly when exact mode reads an energy; otherwise three series of length `subm` |
| Sampling.Estimar | src/md_class.py:347-352 | with exact routines and a non-empty list, the pair is the mean and a non-negative number whose square is the population variance |
| Sampling.Block | src/md_class.py:340-342 | block `i` has three series of length `subm` |
| Sampling.BlockMeans | src/md_class.py:343-345 | one mean per block, `n` of each observable |
| Sampling.BlockMeansNext | src/md_class.py:340-345 | one more block appends the means of its three series |
| Sampling.TomarMuestra | src/md_class.py:331-358 | raises exactly when exact mode runs at least one block with `subm > 0` |
| Sampling.TempRow | src/md_class.py:367-369 | row `i` holds `n` temperatures |
| Sampling.TempRowNext | src/md_class.py:367-369 | one more pass appends the temperature read after `k` further steps |
| Sampling.TempMatrixNext | src/md_class.py:365-369 | one more row appends row `n` of temperatures |
| Sampling.RowAverages | src/md_class.py:371 | one average per row |
| Sampling.MedirTemp | src/md_class.py:360-372 | raises exactly when there is no row |
| Sampling.MedirTempMatchesMuestra | src/md_class.py:360-372 | in table mode with at least one block, `medir_temp` returns the temperature estimate of `tomar_muestra` from the same state |
| Sampling.RadialAcc | src/md_class.py:380-383 | the accumulated histogram keeps the `Q` bins of the buffer |
| Sampling.Normalise | src/md_class.py:385 | each bin times `n 0.5 N` gives back the accumulated count |
| Lindemann.Correct | src/md_class.py:412-415 | a component of at most `L/2` is unchanged; with `L > 0`, one above `L/2` loses `L` and one below `-L/2` gains `L` |
| Lindemann.CorrectBounded | src/md_class.py:409-415 | between two positions in `[0, L)` the corrected jump is at most `L/2` |
| Lindemann.Jumps | src/md_class.py:409 | one corrected jump per coordinate |
| Lindemann.Unwrap | src/md_class.py:402-418 | as many rows as snapshots, all `3N` wide, row 0 zero |
| Lindemann.UnwrapStep | src/md_class.py:418 | row `j` is row `j - 1` plus the corrected jump into snapshot `j` |
| Lindemann.UnwrapRunningSum | src/md_class.py:418 | row `j` is the running sum of the corrected jumps |
| Lindemann.UnwrapWithoutJumps | src/md_class.py:409-418 | with no jump beyond `L/2` the unwrapped row is the plain displacement from the first snapshot |
| Lindemann.UnwrapPrefix | src/md_class.py:418 | unwrapping a prefix of the snapshots gives the prefix of the rows |
| Lindemann.Variances | src/md_class.py:421 | one variance per coordinate; with exact routines each is the population variance of that coordinate's column, never negative |
| Lindemann.MeanVar | src/md_class.py:421-424 | with exact routines and at least one coordinate, the mean of the per-coordinate variances is non-negative, so its root is real |
| Lindemann.MeanVarOneRow | src/md_class.py:421 | a single row has zero spread |
| Lindemann.Trajectory | src/md_class.py:402-418 | after `j` passes the trial holds `j + 1` rows, all `3N` wide, row 0 zero |
| Lindemann.LindCoef | src/md_class.py:421-424 | with exact routines and buffers of the `3N` layout, the coefficient is non-negative and its square is the mean variance of rows `0..j` |
| Lindemann.TrajectoryUnwraps | src/md_class.py:400-418 | the rows the trial loop builds are the unwrapped trajectory of the snapshots it sees |
| Lindemann.TrajectoryNext | src/md_class.py:418 | one more pass appends the last row plus the corrected jump of that pass |
| Lindemann.Trial | src/md_class.py:404-427 | a trial records `subm` coefficients |
| Lindemann.TrialNext | src/md_class.py:427 | one more pass appends its coefficient |
| Lindemann.LindFirstCoef | src/md_class.py:421-424 | with exact routines every trial's first coefficient is 0 |
| Lindemann.StaysInBox | src/md_class.py:239 | assuming `c_cont` wraps into `[0, L)`, a run that starts in the box stays there |
| Lindemann.SnapshotJumpsBounded | src/md_class.py:409-415 | under that assumption every corrected jump between two snapshots is at most `L/2` |
| Lindemann.LindMatrix | src/md_class.py:398-427 | `m` rows of `subm` coefficients |
| Lindemann.LindMatrixNext | src/md_class.py:400-427 | one more trial appends its row |
| Lindemann.LindAvg | src/md_class.py:432 | one average per column, `subm` in all |
| Lindemann.LindStd | src/md_class.py:433 | one spread per column, `subm` in all |
| Lindemann.LindFirstColumn | src/md_class.py:432-433 | with exact routines the first averaged coefficient and its spread are 0 |

## Left out

- The compiled library (`libmd.so`): every routine is an opaque function; nothing is claimed about the Verlet formulas, Lennard-Jones values, table contents or the histogram. Two things are assumed of it: a routine writing a buffer leaves a buffer of the same length, and each routine writes only the buffers that the comments beside its call describe it updating (src/md_class.py:221-238). So `primer_paso` writes `pos` and `vel`, `nueva_fza` and `nueva_fza_exacto` write `fza`, `ultimo_paso` writes `vel`, `c_cont` writes `pos`, and `distrib_radial` writes the histogram.
- `src/md.c` is not part of this model: it is a separate C driver.
- `c_float` storage: values are reals, and the rounding of `astype(C.c_float)` and of the library's single-precision arithmetic is not modelled.
- Float routines (`np.mean`, `np.var`, `np.std`, `**0.5`) are total maps with no claim about their values, except under the `Exact` assumption that lemmas state; NaN and infinity are not values of the model, so the mean of an empty list is some unspecified number.
- `(N / rho)^(1/3)`, `int(N^(1/3))` and the random normal draw are float or random results and enter the constructor as inputs (`L`, `cbrt`, `draw`); `cbrt` is assumed to be the floor of the cube root, or one less for a perfect cube.
- The ctypes pointers (`_p_pos` and the rest) are the arrays themselves. The argument types declare `N` a `c_int` for every routine except `distrib_radial`, which takes `N`, like `Q`, as a `c_float` (src/md_class.py:33-34); the model passes it there as a real.
- 2-D numpy arrays (`temp` in `medir_temp`, `lind_matriz`, `r`) are sequences of rows.
- `MdClass.Md.DistRadial`: requires `n >= 1`; with `n = 0` numpy divides by zero and yields infinities or NaN, which the model does not represent. `n` is a `nat`: a negative `n` runs no step and divides the untouched histogram by the negative `n 0.5 N`, a case the model does not cover.
- `MdClass.Md.constructor`: requires `N >= 1`. With `N = 0` the side `lado` is 0, and `L / lado` raises a division by zero (src/md_class.py:165). A negative `N` has a complex cube root, which `int` refuses (src/md_class.py:157). Neither error path is modelled.
- `MdClass.Md.constructor`: the default `T = 2` only sets the scale of the normal velocity draw (src/md_class.py:185), and that draw is an input here. The other defaults of `__init__` and of the analysis routines are the Dafny parameters' default values.
- `MdClass.Md.constructor`: `rho` and `T` are not checked. With `rho = 0`, `(N / rho)` raises a division by zero (src/md_class.py:56). A negative `rho` makes `L` complex, and the first library call taking `L` refuses it. A negative `T` makes `T**0.5` complex, and `np.random.normal` raises (src/md_class.py:185). The model takes `L` and the draw as inputs, so it builds the object in all three cases; none of these error paths is modelled.
- `MdClass.Md.constructor`: `g` and `Q` are `nat`. A negative `Q` or `lut_precision` makes `np.zeros` raise on a negative size (src/md_class.py:75, 79); that error path is not modelled.
- `Setup.Lado`: requires `n >= 1` for the same reasons (src/md.py:88, 96).
- `Setup.LlenarPos`: requires `n >= 1` for the same reasons (src/md.py:88, 96).
- `MdClass.Md.NPasos`: `n` is a `nat`. A negative `n` makes `range(n)` empty, so the call does what `NPasos(0)` does. The same holds wherever a negative step count (`k`, `dc`, or `m` of `dist_radial`) only reaches `n_pasos`: the model covers it as 0 steps.
- `MdClass.Md.PruebaPiloto`: `mPiloto`, `subm` and `dc` are `nat`. A negative `m_piloto` makes `np.zeros` raise on a negative size (src/md_class.py:297). With `m_piloto > 0`, a negative `subm` raises the same error inside `llenar_vectores` (src/md_class.py:312), after the first `dc` steps. Neither error path is modelled.
- `MdClass.Md.LlenarVectores`: `subm` is a `nat`; a negative `subm` makes `np.zeros` raise on a negative size (src/md_class.py:312) before any step, which is not modelled.
- `MdClass.Md.TomarMuestra`: `m` and `subm` are `nat`; a negative `m` makes `np.zeros` raise (src/md_class.py:336), and, when `m > 0`, a negative `subm` raises in `llenar_vectores` after the first `dc` steps; neither is modelled.
- `MdClass.Md.MedirTemp`: `m` and `subm` are `nat`; a negative one makes `np.zeros` raise (src/md_class.py:364), which is not modelled.
- `MdClass.Md.Lindemann`: `m` and `subm` are `nat`; a negative one makes `np.zeros` raise (src/md_class.py:398), which is not modelled.
- `Sampling.Normalise`: requires `n >= 1` and `N >= 1`; with either 0 numpy divides by zero and yields infinities or NaN, which the model does not represent.
- `MdClass.Md.Rescaling`: models the two temperatures as Python floats; when they are numpy scalars, numpy returns infinity or NaN instead of raising.
- `MdClass.Md.CalcEnergia`: in table mode the value is the library's kinetic plus potential energy, opaque here.
- The `T` property returns the bound method `calc_temp` instead of its value; it only feeds `save` and the plot label, both outside this model. The field `_T` is modelled.
- `_t_termalizacion` is stored (as `tTermalizacion`) but never read.
- `save`, `load`, `ver_pos`, `animacion`, the `plot` branches and the module-level script of `src/md.py` (lines 140-272): file I/O, plotting and printing.
- `prueba_piloto`'s final formula is never reached, so `precision` has no effect in the model.
- Helper methods of `Md` (`Avanzar`, `Lectura`, `LecturaTemp`, `Lecturas`, `LecturaSiguiente`, `Bloque`, `Bloques`, `FilaTemp`, `Salto`, `Ensayo`, `Submuestra`, `Ensayos`) split the source's loops for the proof; they carry contracts but are not separate operations of the source.
