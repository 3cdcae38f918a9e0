/** The observables of md_class.py and the values its sampling routines
    compute, as functions of the integrator and of the state they start from.
    Sub-sample j of a routine is read after (j + 1) batches of k steps. */
module Sampling {
  import opened Outcomes
  import opened Stats
  import opened Verlet

  /** calc_temp: np.var of the velocity components.  With exact statistics
      it is the population variance of the velocities, hence never
      negative. */
  function Temp(nm: Numerics, s: State): (t: real)
    ensures Exact(nm) && |s.vel| > 0 ==> t == Variance(s.vel) && t >= 0.0
  {
    nm.variance[s.vel]
  }

  /** calc_presion: a third of the recorded excess pressure. */
  function Presion(s: State): (p: real)
    ensures p * 3.0 == s.pExceso
  {
    s.pExceso / 3.0
  }

  /** In exact mode no step records a pressure, so calc_presion keeps
      reporting the value recorded before the run. */
  lemma PresionStale(e: Integrator, s: State, k: nat)
    requires e.exacto
    ensures Presion(Run(e, s, k)) == Presion(s)
  {
  }

  /** In table mode a step records what nueva_fza returns for the drifted
      positions, and calc_presion reports a third of it. */
  lemma PresionAfterStep(e: Integrator, s: State)
    requires !e.exacto
    ensures var pos1 := e.clib.primerPasoPos(s.pos, s.vel, s.fza, e.N, e.h);
      Presion(Step(e, s)) * 3.0 == e.clib.nuevaFzaPresion(pos1, s.fza, e.N, e.L, e.rc, e.fzaLut, e.g)
  {
  }

  /** calc_energia in table mode: kinetic plus table-driven potential energy. */
  function EnergiaLut(e: Integrator, s: State): real
  {
    e.clib.cinetica(s.vel, e.N) + e.clib.potencial(s.pos, e.N, e.L, e.ljLut, e.g, e.rc)
  }

  /** The energy reads the velocities and the positions only, and not the
      mode: calc_energia_potencial computes the table potential before it
      looks at the mode flag. */
  lemma EnergiaReadsPosVel(e: Integrator, s: State, t: State)
    requires s.pos == t.pos && s.vel == t.vel
    ensures EnergiaLut(e, s) == EnergiaLut(e.(exacto := !e.exacto), t)
  {
  }

  /** calc_energia: in exact mode the second call of CLIB.potencial passes 4
      of its 6 declared arguments, and ctypes raises. */
  function Energia(e: Integrator, s: State): (r: Result<real>)
    ensures r.Ok? <==> !e.exacto
    ensures r.Err? ==> r.fault == ArgumentCount
  {
    if e.exacto then Err(ArgumentCount) else Ok(EnergiaLut(e, s))
  }

  datatype Vectores = Vectores(temp: seq<real>, energia: seq<real>, presion: seq<real>)

  /** The state reading j of a series starts from, when the series starts
      `start` steps past s and reads after every k more steps. */
  function Reading(e: Integrator, s: State, start: nat, j: nat, k: nat): State
  {
    Run(e, s, start + Steps(j + 1, k))
  }

  /** The three series llenar_vectores records in table mode when it starts
      `start` steps past s, reading n times, each after k more steps. */
  function SeriesOf(e: Integrator, nm: Numerics, s: State, start: nat, n: nat, k: nat): (v: Vectores)
    ensures |v.temp| == n && |v.energia| == n && |v.presion| == n
  {
    Vectores(seq(n, j requires 0 <= j < n => Temp(nm, Reading(e, s, start, j, k))),
             seq(n, j requires 0 <= j < n => EnergiaLut(e, Reading(e, s, start, j, k))),
             seq(n, j requires 0 <= j < n => Presion(Reading(e, s, start, j, k))))
  }

  /** Entry j of each series is read from the state reached j + 1 batches
      of k steps after `start`. */
  lemma SeriesOfAt(e: Integrator, nm: Numerics, s: State, start: nat, n: nat, k: nat, j: nat)
    requires j < n
    ensures var v, r := SeriesOf(e, nm, s, start, n, k), Run(e, s, start + Steps(j + 1, k));
      v.temp[j] == Temp(nm, r) && v.energia[j] == EnergiaLut(e, r) && v.presion[j] == Presion(r)
  {
  }

  /** One more reading extends each series by the values of the state it
      is taken from. */
  lemma SeriesNext(e: Integrator, nm: Numerics, s: State, start: nat, n: nat, k: nat,
                   v: Vectores, k1: nat, t: real, en: real, p: real)
    requires v == SeriesOf(e, nm, s, start, n, k) && k1 == start + Steps(n + 1, k)
    requires t == Temp(nm, Run(e, s, k1)) && en == EnergiaLut(e, Run(e, s, k1)) && p == Presion(Run(e, s, k1))
    ensures SeriesOf(e, nm, s, start, n + 1, k) == Vectores(v.temp + [t], v.energia + [en], v.presion + [p])
  {
  }

  /** With exact statistics and buffers of the 3N layout every recorded
      temperature is non-negative. */
  lemma SeriesTempsNonNegative(e: Integrator, nm: Numerics, s: State, start: nat, n: nat, k: nat)
    requires Exact(nm) && Sized(e, s)
    ensures forall j :: 0 <= j < n ==> SeriesOf(e, nm, s, start, n, k).temp[j] >= 0.0
  {
    forall j | 0 <= j < n
      ensures SeriesOf(e, nm, s, start, n, k).temp[j] >= 0.0
    {
      assert Sized(e, Reading(e, s, start, j, k));
    }
  }

  /** llenar_vectores(subm, k): subm samples of temperature, energy and
      pressure, each after k more steps; in exact mode the first energy
      reading raises. */
  function LlenarVectores(e: Integrator, nm: Numerics, s: State, subm: nat, k: nat): (r: Result<Vectores>)
    ensures r.Err? <==> e.exacto && subm > 0
    ensures r.Err? ==> r.fault == ArgumentCount
    ensures r.Ok? ==> |r.value.temp| == subm && |r.value.energia| == subm && |r.value.presion| == subm
  {
    if e.exacto && subm > 0 then Err(ArgumentCount) else Ok(SeriesOf(e, nm, s, 0, subm, k))
  }

  /** Steps llenar_vectores performs before it returns or raises. */
  function LlenarVectoresSteps(e: Integrator, subm: nat, k: nat): nat
  {
    if e.exacto && subm > 0 then k else Steps(subm, k)
  }

  /** An [np.average, np.std] pair. */
  datatype Estimate = Estimate(avg: real, std: real)

  /** With exact statistics the pair is the mean and a non-negative number
      whose square is the population variance. */
  function Estimar(nm: Numerics, xs: seq<real>): (r: Estimate)
    ensures Exact(nm) && |xs| > 0 ==> r.avg == Mean(xs) && r.std >= 0.0 && Square(r.std) == Variance(xs)
  {
    Estimate(Avg(nm, xs), Std(nm, xs))
  }

  datatype Muestra = Muestra(temp: Estimate, energia: Estimate, presion: Estimate)

  /** Steps from the start of a sampling run to the start of block i. */
  function BlockStart(i: nat, subm: nat, dc: nat, k: nat): nat
  {
    Steps(i, dc + Steps(subm, k))
  }

  /** The series block i of tomar_muestra records, after its dc
      decorrelation steps. */
  function Block(e: Integrator, nm: Numerics, s: State, i: nat, subm: nat, dc: nat, k: nat): (v: Vectores)
    ensures |v.temp| == subm && |v.energia| == subm && |v.presion| == subm
  {
    SeriesOf(e, nm, s, BlockStart(i, subm, dc, k) + dc, subm, k)
  }

  /** The np.mean of each series of the first n blocks, one list per
      observable. */
  function BlockMeans(e: Integrator, nm: Numerics, s: State, n: nat, subm: nat, dc: nat, k: nat): (v: Vectores)
    ensures |v.temp| == n && |v.energia| == n && |v.presion| == n
  {
    Vectores(seq(n, i requires 0 <= i < n => Avg(nm, Block(e, nm, s, i, subm, dc, k).temp)),
             seq(n, i requires 0 <= i < n => Avg(nm, Block(e, nm, s, i, subm, dc, k).energia)),
             seq(n, i requires 0 <= i < n => Avg(nm, Block(e, nm, s, i, subm, dc, k).presion)))
  }

  /** One more block extends each list by the mean of its series. */
  lemma BlockMeansNext(e: Integrator, nm: Numerics, s: State, n: nat, subm: nat, dc: nat, k: nat, v: Vectores, b: Vectores)
    requires v == BlockMeans(e, nm, s, n, subm, dc, k) && b == Block(e, nm, s, n, subm, dc, k)
    ensures BlockMeans(e, nm, s, n + 1, subm, dc, k)
         == Vectores(v.temp + [Avg(nm, b.temp)], v.energia + [Avg(nm, b.energia)], v.presion + [Avg(nm, b.presion)])
  {
  }

  /** tomar_muestra(m, subm, dc, k): average and spread of the m block means of
      each observable; in exact mode the first block raises. */
  function TomarMuestra(e: Integrator, nm: Numerics, s: State, m: nat, subm: nat, dc: nat, k: nat): (r: Result<Muestra>)
    ensures r.Err? <==> e.exacto && subm > 0 && m > 0
    ensures r.Err? ==> r.fault == ArgumentCount
  {
    if e.exacto && subm > 0 && m > 0 then Err(ArgumentCount)
    else
      var v := BlockMeans(e, nm, s, m, subm, dc, k);
      Ok(Muestra(Estimar(nm, v.temp), Estimar(nm, v.energia), Estimar(nm, v.presion)))
  }

  function TomarMuestraSteps(e: Integrator, m: nat, subm: nat, dc: nat, k: nat): nat
  {
    if e.exacto && subm > 0 && m > 0 then dc + k else BlockStart(m, subm, dc, k)
  }

  /** The temperature medir_temp stores at row i, column j. */
  function TempAt(e: Integrator, nm: Numerics, s: State, i: nat, j: nat, subm: nat, dc: nat, k: nat): real
  {
    Temp(nm, Reading(e, s, BlockStart(i, subm, dc, k) + dc, j, k))
  }

  /** The first n temperatures of row i. */
  function TempRow(e: Integrator, nm: Numerics, s: State, i: nat, n: nat, subm: nat, dc: nat, k: nat): (r: seq<real>)
    ensures |r| == n
  {
    seq(n, j requires 0 <= j < n => TempAt(e, nm, s, i, j, subm, dc, k))
  }

  lemma TempRowNext(e: Integrator, nm: Numerics, s: State, i: nat, n: nat, subm: nat, dc: nat, k: nat,
                    row: seq<real>, k1: nat, t: real)
    requires row == TempRow(e, nm, s, i, n, subm, dc, k)
    requires k1 == BlockStart(i, subm, dc, k) + dc + Steps(n + 1, k) && t == Temp(nm, Run(e, s, k1))
    ensures TempRow(e, nm, s, i, n + 1, subm, dc, k) == row + [t]
  {
  }

  /** The first n rows of the temperature matrix. */
  function TempMatrix(e: Integrator, nm: Numerics, s: State, n: nat, subm: nat, dc: nat, k: nat): (r: seq<seq<real>>)
    ensures |r| == n
  {
    seq(n, i requires 0 <= i < n => TempRow(e, nm, s, i, subm, subm, dc, k))
  }

  lemma TempMatrixNext(e: Integrator, nm: Numerics, s: State, n: nat, subm: nat, dc: nat, k: nat)
    ensures TempMatrix(e, nm, s, n + 1, subm, dc, k)
         == TempMatrix(e, nm, s, n, subm, dc, k) + [TempRow(e, nm, s, n, subm, subm, dc, k)]
  {
  }

  /** np.average(temp, axis=1): the average of each row of the m by subm
      temperature matrix. */
  function RowAverages(e: Integrator, nm: Numerics, s: State, m: nat, subm: nat, dc: nat, k: nat): (r: seq<real>)
    ensures |r| == m
  {
    seq(m, i requires 0 <= i < m => Avg(nm, TempRow(e, nm, s, i, subm, subm, dc, k)))
  }

  /** medir_temp(m, subm, dc, k): the average and spread of the row averages
      of the temperature matrix.  With no rows, np.average over axis 1
      divides the element count 0 by the result size 0 and raises. */
  function MedirTemp(e: Integrator, nm: Numerics, s: State, m: nat, subm: nat, dc: nat, k: nat): (r: Result<Estimate>)
    ensures r.Err? <==> m == 0
    ensures r.Err? ==> r.fault == DivisionByZero
  {
    if m == 0 then Err(DivisionByZero) else Ok(Estimar(nm, RowAverages(e, nm, s, m, subm, dc, k)))
  }

  /** medir_temp measures the temperature with the same criterion as
      tomar_muestra: in table mode, with at least one block, both give the
      same estimate. */
  lemma MedirTempMatchesMuestra(e: Integrator, nm: Numerics, s: State, m: nat, subm: nat, dc: nat, k: nat)
    requires !e.exacto && m >= 1
    ensures MedirTemp(e, nm, s, m, subm, dc, k) == Ok(TomarMuestra(e, nm, s, m, subm, dc, k).value.temp)
  {
    var xs := BlockMeans(e, nm, s, m, subm, dc, k).temp;
    var ys := RowAverages(e, nm, s, m, subm, dc, k);
    forall i | 0 <= i < m
      ensures xs[i] == ys[i]
    {
      assert Block(e, nm, s, i, subm, dc, k).temp == TempRow(e, nm, s, i, subm, subm, dc, k);
    }
    assert xs == ys;
  }

  /** The histogram distrib_radial accumulates over n passes, with m steps
      between passes. */
  function RadialAcc(e: Integrator, s: State, buf: Vec, n: nat, m: nat, rho: real, Q: real): (r: Vec)
    ensures |r| == |buf|
  {
    if n == 0 then buf
    else
      var b := RadialAcc(e, s, buf, n - 1, m, rho, Q);
      e.clib.distribRadial(b, Run(e, s, Steps(n - 1, m)).pos, e.N as real, e.L, rho, Q)
  }

  /** Each bin divided by n * 0.5 * N. */
  function Normalise(xs: Vec, n: nat, N: nat): (r: Vec)
    requires n >= 1 && N >= 1
    ensures |r| == |xs|
    ensures forall i :: 0 <= i < |xs| ==> r[i] * ((n as real) * 0.5 * (N as real)) == xs[i]
  {
    var d := (n as real) * 0.5 * (N as real);
    seq(|xs|, i requires 0 <= i < |xs| => xs[i] / d)
  }
}
