/** The simulation object of md_class.py.  Its buffers are fixed-size arrays
    the compiled routines overwrite in place; the step counter, the mode flag,
    the excess pressure and the radial-distribution binding are fields the
    methods update. */
module MdClass {
  import opened Outcomes
  import opened Stats
  import opened Setup
  import opened Verlet
  import opened Lindemann
  import opened Sampling

  /** int(lut_precision * 2.5) for a non-negative precision. */
  function LongLut(g: nat): (r: nat)
    ensures 2 * r <= 5 * g < 2 * r + 2
  {
    (5 * g) / 2
  }

  /** With exact routines, scaling the velocities by the root of x, as
      rescaling does, multiplies the temperature np.var reports by x. */
  lemma RescaledTemp(nm: Numerics, v: seq<real>, x: real)
    requires Exact(nm) && |v| > 0 && x >= 0.0
    ensures nm.variance[Scale(v, nm.sqrt[x])] == x * nm.variance[v]
  {
    VarianceScale(v, nm.sqrt[x]);
  }

  method FromSeq(s: seq<real>) returns (a: array<real>)
    ensures fresh(a) && a[..] == s
  {
    a := new real[|s|](i requires 0 <= i < |s| => s[i]);
  }

  class Md {
    const N: nat
    const rho: real
    const h: real
    const g: nat
    const Q: nat
    const L: real
    const rc: real
    const longLut: nat
    const tTermalizacion: nat
    const clib: Clib
    /** The float routines behind np.mean, np.var and `**0.5`. */
    const nm: Numerics
    const pos: array<real>
    const vel: array<real>
    const fza: array<real>
    const distradBuf: array<real>
    /** The lookup tables, filled once by the constructor and only read
        afterwards. */
    const ljLut: seq<real>
    const fzaLut: seq<real>

    /** _T: after construction, the variance of the initial velocities. */
    var T: real
    var cantPasos: nat
    var exacto: bool
    var pExceso: real
    /** _distrad: None while it is still the buffer the histogram routine
        writes; Some(list) once dist_radial has rebound it to a list. */
    var distrad: Option<seq<real>>

    ghost predicate Valid()
    {
      N >= 1 && pos.Length == 3 * N && vel.Length == 3 * N && fza.Length == 3 * N
      && distradBuf.Length == Q && |ljLut| == longLut && |fzaLut| == longLut
      && pos != vel && pos != fza && vel != fza
      && distradBuf != pos && distradBuf != vel && distradBuf != fza
    }

    /** The buffers and the recorded pressure. */
    function Current(): State
      reads this`pExceso, pos, vel, fza
    {
      State(pos[..], vel[..], fza[..], pExceso)
    }

    /** What a step reads besides the buffers. */
    function Stepper(): Integrator
      reads this`exacto
    {
      Integrator(clib, N, L, h, rc, ljLut, fzaLut, g, exacto)
    }

    /** __init__: L = (N / rho)^(1/3) and the truncated cube root cbrt of N
        are float results and are passed in; `draw` is the normal draw of
        3N velocity components. */
    constructor (N: nat := 512, rho: real := 0.8442, h: real := 0.001, g: nat := 10000, Q: nat := 400,
                 L: real, cbrt: int, draw: seq<real>, clib: Clib, nm: Numerics)
      requires N >= 1 && IsTruncatedCubeRoot(N, cbrt) && |draw| == 3 * N
      ensures Valid() && fresh(pos) && fresh(vel) && fresh(fza) && fresh(distradBuf)
      ensures this.N == N && this.rho == rho && this.h == h && this.g == g && this.Q == Q
      ensures this.L == L && rc == 2.5 && longLut == LongLut(g) && tTermalizacion == 1000
      ensures this.clib == clib && this.nm == nm
      ensures pos[..] == LlenarPos(N, L, cbrt) && vel[..] == LlenarVel(nm, draw)
      ensures fza[..] == Zeros(3 * N) && distradBuf[..] == Zeros(Q)
      ensures ljLut == LennardJonesTable(clib, LongLut(g), 2.5)
      ensures fzaLut == FuerzaTable(clib, ljLut, 2.5)
      ensures T == Temp(nm, Current())
      ensures cantPasos == 0 && !exacto && pExceso == 0.0 && distrad == None
    {
      this.N, this.rho, this.h, this.g, this.Q, this.L := N, rho, h, g, Q, L;
      rc := 2.5;
      longLut := LongLut(g);
      cantPasos := 0;
      var v := LlenarVel(nm, draw);
      var lj := LennardJonesTable(clib, LongLut(g), 2.5);
      var p0 := FromSeq(LlenarPos(N, L, cbrt));
      var v0 := FromSeq(v);
      var f0 := FromSeq(Zeros(3 * N));
      var d0 := FromSeq(Zeros(Q));
      pos, vel, fza, distradBuf := p0, v0, f0, d0;
      ljLut, fzaLut := lj, FuerzaTable(clib, lj, 2.5);
      T := nm.variance[v];
      this.clib, this.nm := clib, nm;
      exacto := false;
      tTermalizacion := 1000;
      pExceso := 0.0;
      distrad := None;
    }

    /** paso: primer_paso, the force refresh of the current mode, ultimo_paso
        and c_cont on the object's buffers, then one more step counted. */
    method Paso()
      requires Valid()
      modifies pos, vel, fza, this`pExceso, this`cantPasos
      ensures Current() == Step(Stepper(), old(Current()))
      ensures cantPasos == old(cantPasos) + 1
      ensures exacto ==> pExceso == old(pExceso) && CalcPresion() == old(CalcPresion())
    {
      CPrimerPaso(clib, pos, vel, fza, N, h);
      if exacto {
        CNuevaFzaExacto(clib, pos, fza, N, L, rc);
      } else {
        pExceso := CNuevaFza(clib, pos, fza, N, L, rc, fzaLut, g);
      }
      CUltimoPaso(clib, vel, fza, N, h);
      CCCont(clib, pos, N, L);
      cantPasos := cantPasos + 1;
    }

    /** n_pasos(n): n steps. */
    method NPasos(n: nat := 5000)
      requires Valid()
      modifies pos, vel, fza, this`pExceso, this`cantPasos
      ensures Current() == Run(Stepper(), old(Current()), n)
      ensures cantPasos == old(cantPasos) + n
    {
      for i := 0 to n
        invariant Current() == Run(Stepper(), old(Current()), i)
        invariant cantPasos == old(cantPasos) + i
      {
        Paso();
        RunStep(Stepper(), old(Current()), i);
      }
    }

    /** n_pasos(k) from a state already k0 steps past s0, ending k1 steps
        past it. */
    method Avanzar(k: nat, ghost e: Integrator, ghost s0: State, ghost k0: nat, ghost k1: nat)
      requires Valid() && Stepper() == e && Current() == Run(e, s0, k0) && k1 == k0 + k
      modifies pos, vel, fza, this`pExceso, this`cantPasos
      ensures Stepper() == e && Current() == Run(e, s0, k1)
      ensures cantPasos == old(cantPasos) + k
    {
      NPasos(k);
      RunAdd(e, s0, k0, k);
    }

    /** One pass of the llenar_vectores loop: k steps, then the temperature,
        the energy and the pressure of the state reached. */
    method Lectura(k: nat, ghost e: Integrator, ghost s0: State, ghost k0: nat, ghost k1: nat)
      returns (t: real, en: Result<real>, p: real)
      requires Valid() && Stepper() == e && Current() == Run(e, s0, k0) && k1 == k0 + k
      modifies pos, vel, fza, this`pExceso, this`cantPasos
      ensures Stepper() == e && Current() == Run(e, s0, k1)
      ensures cantPasos == old(cantPasos) + k
      ensures t == Temp(nm, Current()) && en == Energia(e, Current()) && p == Presion(Current())
    {
      Avanzar(k, e, s0, k0, k1);
      t := CalcTemp();
      en := CalcEnergia();
      p := CalcPresion();
    }

    /** One pass of the medir_temp inner loop: k steps, then the temperature
        of the state reached. */
    method LecturaTemp(k: nat, ghost e: Integrator, ghost s0: State, ghost k0: nat, ghost k1: nat)
      returns (t: real)
      requires Valid() && Stepper() == e && Current() == Run(e, s0, k0) && k1 == k0 + k
      modifies pos, vel, fza, this`pExceso, this`cantPasos
      ensures Stepper() == e && Current() == Run(e, s0, k1)
      ensures cantPasos == old(cantPasos) + k
      ensures t == Temp(nm, Current())
    {
      Avanzar(k, e, s0, k0, k1);
      t := CalcTemp();
    }

    /** calc_temp. */
    function CalcTemp(): (t: real)
      requires Valid()
      reads vel
      ensures Exact(nm) ==> t == Variance(vel[..]) && t >= 0.0
    {
      nm.variance[vel[..]]
    }

    /** calc_presion: a third of the excess recorded by the last LUT force
        refresh (exact-mode steps leave it stale). */
    function CalcPresion(): (p: real)
      reads this`pExceso
      ensures p * 3.0 == pExceso
    {
      pExceso / 3.0
    }

    /** calc_energia: kinetic plus potential energy; raises in exact mode. */
    function CalcEnergia(): (r: Result<real>)
      reads this`exacto, this`pExceso, pos, vel, fza
      ensures r.Ok? <==> !exacto
    {
      Energia(Stepper(), Current())
    }

    /** rescaling(T_deseada, T_actual): multiplies the velocities in place by
        (T_deseada / T_actual)^(1/2). */
    method Rescaling(tDeseada: real, tActual: real) returns (r: Result<()>)
      requires Valid()
      modifies vel
      ensures r.Ok? <==> tActual != 0.0 && tDeseada / tActual >= 0.0
      ensures r.Err? ==> vel[..] == old(vel[..])
      ensures r.Ok? ==> vel[..] == Scale(old(vel[..]), nm.sqrt[tDeseada / tActual])
    {
      if tActual == 0.0 {
        return Err(DivisionByZero);
      }
      var x := tDeseada / tActual;
      if x < 0.0 {
        return Err(ComplexCast);
      }
      var c, v := nm.sqrt[x], vel[..];
      forall i | 0 <= i < vel.Length {
        vel[i] := c * v[i];
      }
      assert forall i :: 0 <= i < |v| ==> vel[..][i] == Scale(v, c)[i];
      assert vel[..] == Scale(v, c);
      r := Ok(());
    }

    /** llenar_vectores(subm, k): subm readings of temperature, energy and
        pressure, each after k more steps. */
    method LlenarVectores(subm: nat, k: nat := 10) returns (r: Result<Vectores>)
      requires Valid()
      modifies pos, vel, fza, this`pExceso, this`cantPasos
      ensures r == Sampling.LlenarVectores(Stepper(), nm, old(Current()), subm, k)
      ensures Current() == Run(Stepper(), old(Current()), LlenarVectoresSteps(Stepper(), subm, k))
      ensures cantPasos == old(cantPasos) + LlenarVectoresSteps(Stepper(), subm, k)
    {
      r := Lecturas(subm, k, Stepper(), Current(), 0, LlenarVectoresSteps(Stepper(), subm, k));
    }

    /** llenar_vectores(subm, k) begun `start` steps past s0. */
    method Lecturas(subm: nat, k: nat, ghost e: Integrator, ghost s0: State, ghost start: nat, ghost fin: nat)
      returns (r: Result<Vectores>)
      requires Valid() && Stepper() == e && Current() == Run(e, s0, start)
      requires fin == start + LlenarVectoresSteps(e, subm, k)
      modifies pos, vel, fza, this`pExceso, this`cantPasos
      ensures r == if e.exacto && subm > 0 then Err(ArgumentCount) else Ok(SeriesOf(e, nm, s0, start, subm, k))
      ensures Current() == Run(e, s0, fin)
      ensures cantPasos == old(cantPasos) + LlenarVectoresSteps(e, subm, k)
    {
      ghost var steps: nat := start;
      var v := Vectores([], [], []);
      for j := 0 to subm
        invariant steps == start + Steps(j, k)
        invariant Stepper() == e
        invariant Current() == Run(e, s0, steps)
        invariant cantPasos == old(cantPasos) + Steps(j, k)
        invariant e.exacto ==> j == 0
        invariant v == SeriesOf(e, nm, s0, start, j, k)
      {
        ghost var next := start + Steps(j + 1, k);
        var w := LecturaSiguiente(k, v, e, s0, start, j, steps, next);
        steps := next;
        if w.Err? {
          assert steps == fin;
          return w;
        }
        v := w.value;
      }
      assert steps == fin;
      r := Ok(v);
    }

    /** One pass of the llenar_vectores loop: a reading k steps on, appended
        to the three series recorded so far. */
    method LecturaSiguiente(k: nat, v: Vectores, ghost e: Integrator, ghost s0: State, ghost start: nat,
                            ghost j: nat, ghost k0: nat, ghost k1: nat)
      returns (r: Result<Vectores>)
      requires Valid() && Stepper() == e && k0 == start + Steps(j, k) && Current() == Run(e, s0, k0)
      requires k1 == start + Steps(j + 1, k) && v == SeriesOf(e, nm, s0, start, j, k)
      modifies pos, vel, fza, this`pExceso, this`cantPasos
      ensures Stepper() == e && Current() == Run(e, s0, k1)
      ensures cantPasos == old(cantPasos) + k
      ensures r == if e.exacto then Err(ArgumentCount) else Ok(SeriesOf(e, nm, s0, start, j + 1, k))
    {
      var t, en, p := Lectura(k, e, s0, k0, k1);
      if en.Err? {
        return Err(en.fault);
      }
      SeriesNext(e, nm, s0, start, j, k, v, k1, t, en.value, p);
      r := Ok(Vectores(v.temp + [t], v.energia + [en.value], v.presion + [p]));
    }

    /** Block i of tomar_muestra, begun where the earlier blocks stopped:
        dc decorrelation steps, then llenar_vectores(subm, k). */
    method Bloque(i: nat, subm: nat, dc: nat, k: nat, ghost e: Integrator, ghost s0: State, ghost k0: nat, ghost fin: nat)
      returns (v: Result<Vectores>)
      requires Valid() && Stepper() == e && k0 == BlockStart(i, subm, dc, k) && Current() == Run(e, s0, k0)
      requires fin == k0 + dc + LlenarVectoresSteps(e, subm, k)
      modifies pos, vel, fza, this`pExceso, this`cantPasos
      ensures v == if e.exacto && subm > 0 then Err(ArgumentCount) else Ok(Block(e, nm, s0, i, subm, dc, k))
      ensures Current() == Run(e, s0, fin)
      ensures cantPasos == old(cantPasos) + dc + LlenarVectoresSteps(e, subm, k)
    {
      ghost var mid := k0 + dc;
      Avanzar(dc, e, s0, k0, mid);
      v := Lecturas(subm, k, e, s0, mid, fin);
    }

    /** The block loop of tomar_muestra, from s0: the np.mean of each series
        of the m blocks, or the fault the first block raises in exact mode. */
    method Bloques(m: nat, subm: nat, dc: nat, k: nat, ghost e: Integrator, ghost s0: State)
      returns (r: Result<Vectores>)
      requires Valid() && Stepper() == e && Current() == s0
      modifies pos, vel, fza, this`pExceso, this`cantPasos
      ensures r == if e.exacto && subm > 0 && m > 0 then Err(ArgumentCount) else Ok(BlockMeans(e, nm, s0, m, subm, dc, k))
      ensures Current() == Run(e, s0, TomarMuestraSteps(e, m, subm, dc, k))
      ensures cantPasos == old(cantPasos) + TomarMuestraSteps(e, m, subm, dc, k)
    {
      ghost var pasos: nat := 0;
      var temp, energia, presion := [], [], [];
      for i := 0 to m
        invariant Stepper() == e
        invariant pasos == BlockStart(i, subm, dc, k)
        invariant Current() == Run(e, s0, pasos)
        invariant cantPasos == old(cantPasos) + pasos
        invariant e.exacto && subm > 0 ==> i == 0
        invariant Vectores(temp, energia, presion) == BlockMeans(e, nm, s0, i, subm, dc, k)
      {
        ghost var fin := pasos + dc + LlenarVectoresSteps(e, subm, k);
        var v := Bloque(i, subm, dc, k, e, s0, pasos, fin);
        if v.Err? {
          assert fin == TomarMuestraSteps(e, m, subm, dc, k);
          return Err(v.fault);
        }
        pasos := fin;
        BlockMeansNext(e, nm, s0, i, subm, dc, k, Vectores(temp, energia, presion), v.value);
        temp, energia, presion := temp + [Avg(nm, v.value.temp)], energia + [Avg(nm, v.value.energia)],
                                  presion + [Avg(nm, v.value.presion)];
      }
      assert pasos == TomarMuestraSteps(e, m, subm, dc, k);
      r := Ok(Vectores(temp, energia, presion));
    }

    /** tomar_muestra(m, subm, dc, k): m blocks of dc steps followed by
        llenar_vectores(subm, k), reduced to average and spread of the block
        means. */
    method TomarMuestra(m: nat := 20, subm: nat := 20, dc: nat := 200, k: nat := 50) returns (r: Result<Muestra>)
      requires Valid()
      modifies pos, vel, fza, this`pExceso, this`cantPasos
      ensures r == Sampling.TomarMuestra(Stepper(), nm, old(Current()), m, subm, dc, k)
      ensures Current() == Run(Stepper(), old(Current()), TomarMuestraSteps(Stepper(), m, subm, dc, k))
      ensures cantPasos == old(cantPasos) + TomarMuestraSteps(Stepper(), m, subm, dc, k)
    {
      var v := Bloques(m, subm, dc, k, Stepper(), Current());
      if v.Err? {
        return Err(v.fault);
      }
      r := Ok(Muestra(Estimar(nm, v.value.temp), Estimar(nm, v.value.energia), Estimar(nm, v.value.presion)));
    }

    /** Row i of medir_temp, begun after the dc steps that precede it: subm
        temperatures, each after k more steps. */
    method FilaTemp(i: nat, subm: nat, dc: nat, k: nat, ghost e: Integrator, ghost s0: State, ghost start: nat, ghost fin: nat)
      returns (row: seq<real>)
      requires Valid() && Stepper() == e && start == BlockStart(i, subm, dc, k) + dc && Current() == Run(e, s0, start)
      requires fin == start + Steps(subm, k)
      modifies pos, vel, fza, this`pExceso, this`cantPasos
      ensures row == TempRow(e, nm, s0, i, subm, subm, dc, k)
      ensures Current() == Run(e, s0, fin)
      ensures cantPasos == old(cantPasos) + Steps(subm, k)
    {
      ghost var steps := start;
      row := [];
      for j := 0 to subm
        invariant Stepper() == e
        invariant steps == start + Steps(j, k)
        invariant Current() == Run(e, s0, steps)
        invariant cantPasos == old(cantPasos) + Steps(j, k)
        invariant row == TempRow(e, nm, s0, i, j, subm, dc, k)
      {
        ghost var next := start + Steps(j + 1, k);
        var t := LecturaTemp(k, e, s0, steps, next);
        steps := next;
        TempRowNext(e, nm, s0, i, j, subm, dc, k, row, next, t);
        row := row + [t];
      }
      assert steps == fin;
    }

    /** medir_temp(m, subm, dc, k): the m by subm matrix of temperatures,
        each row after dc more steps and each entry after k more, reduced to
        the average and spread of its row averages; with no rows np.average
        raises. */
    method MedirTemp(m: nat := 20, subm: nat := 20, dc: nat := 200, k: nat := 50) returns (r: Result<Estimate>)
      requires Valid()
      modifies pos, vel, fza, this`pExceso, this`cantPasos
      ensures r == Sampling.MedirTemp(Stepper(), nm, old(Current()), m, subm, dc, k)
      ensures Current() == Run(Stepper(), old(Current()), BlockStart(m, subm, dc, k))
      ensures cantPasos == old(cantPasos) + BlockStart(m, subm, dc, k)
    {
      ghost var e, s0 := Stepper(), Current();
      ghost var pasos: nat := 0;
      var temp: seq<seq<real>> := [];
      for i := 0 to m
        invariant Stepper() == e
        invariant pasos == BlockStart(i, subm, dc, k)
        invariant Current() == Run(e, s0, pasos)
        invariant cantPasos == old(cantPasos) + pasos
        invariant temp == TempMatrix(e, nm, s0, i, subm, dc, k)
      {
        ghost var mid, fin := pasos + dc, pasos + dc + Steps(subm, k);
        Avanzar(dc, e, s0, pasos, mid);
        var row := FilaTemp(i, subm, dc, k, e, s0, mid, fin);
        pasos := fin;
        TempMatrixNext(e, nm, s0, i, subm, dc, k);
        temp := temp + [row];
      }
      if m == 0 {
        return Err(DivisionByZero);
      }
      var avgs := seq(m, i requires 0 <= i < m => Avg(nm, temp[i]));
      assert avgs == RowAverages(e, nm, s0, m, subm, dc, k);
      r := Ok(Estimar(nm, avgs));
    }

    /** dist_radial(n, m): n passes of distrib_radial over the current
        positions into the histogram buffer, each followed by m steps; then
        _distrad is rebound to the normalised list.  From the second call
        on, _distrad is that earlier list while the routine still writes the
        buffer, so the earlier list is normalised once more. */
    method DistRadial(n: nat := 100, m: nat := 100) returns (r: seq<real>)
      requires Valid() && n >= 1
      modifies pos, vel, fza, distradBuf, this`pExceso, this`cantPasos, this`distrad
      ensures distradBuf[..] == RadialAcc(Stepper(), old(Current()), old(distradBuf[..]), n, m, rho, Q as real)
      ensures Current() == Run(Stepper(), old(Current()), Steps(n, m))
      ensures cantPasos == old(cantPasos) + Steps(n, m)
      ensures old(distrad).None? ==> r == Normalise(distradBuf[..], n, N)
      ensures old(distrad).Some? ==> r == Normalise(old(distrad).value, n, N)
      ensures distrad == Some(r)
    {
      ghost var e, s0, buf0 := Stepper(), Current(), distradBuf[..];
      ghost var steps: nat := 0;
      for i := 0 to n
        invariant Stepper() == e
        invariant steps == Steps(i, m)
        invariant Current() == Run(e, s0, steps)
        invariant cantPasos == old(cantPasos) + steps
        invariant distradBuf[..] == RadialAcc(e, s0, buf0, i, m, rho, Q as real)
        invariant distrad == old(distrad)
      {
        CDistribRadial(clib, distradBuf, pos, N as real, L, rho, Q as real);
        Avanzar(m, e, s0, steps, steps + m);
        steps := steps + m;
      }
      assert steps == Steps(n, m);
      var list := if distrad.Some? then distrad.value else distradBuf[..];
      r := Normalise(list, n, N);
      distrad := Some(r);
    }

    /** One pass of a lindemann trial: k steps, then the corrected jump of
        every coordinate from the positions before them. */
    method Salto(k: nat, ghost e: Integrator, ghost s0: State, ghost k0: nat, ghost k1: nat, posAnterior: Vec)
      returns (dx: Vec)
      requires Valid() && Stepper() == e && Current() == Run(e, s0, k0) && k1 == k0 + k && posAnterior == pos[..]
      modifies pos, vel, fza, this`pExceso, this`cantPasos
      ensures Stepper() == e && Current() == Run(e, s0, k1)
      ensures cantPasos == old(cantPasos) + k
      ensures dx == Jumps(Run(e, s0, k0).pos, Run(e, s0, k1).pos, e.L)
    {
      Avanzar(k, e, s0, k0, k1);
      dx := Jumps(posAnterior, pos[..], L);
    }

    /** Trial i of lindemann, begun `start` steps past s0: subm passes of k
        steps, each recording the coefficient of the rows of r so far before
        adding the corrected jump as the next row. */
    method Ensayo(subm: nat, k: nat, ghost e: Integrator, ghost s0: State, ghost start: nat, ghost fin: nat)
      returns (row: seq<real>)
      requires Valid() && Stepper() == e && Current() == Run(e, s0, start) && fin == start + Steps(subm, k)
      modifies pos, vel, fza, this`pExceso, this`cantPasos
      ensures row == Trial(e, nm, s0, start, subm, k)
      ensures Current() == Run(e, s0, fin)
      ensures cantPasos == old(cantPasos) + Steps(subm, k)
    {
      ghost var steps := start;
      var posAnterior := pos[..];
      var r: seq<Vec> := [Zeros(3 * N)];
      row := [];
      for j := 0 to subm
        invariant Stepper() == e
        invariant steps == start + Steps(j, k)
        invariant Current() == Run(e, s0, steps)
        invariant cantPasos == old(cantPasos) + Steps(j, k)
        invariant posAnterior == pos[..]
        invariant r == Trajectory(e, s0, start, k, j)
        invariant row == Trial(e, nm, s0, start, j, k)
      {
        ghost var next := start + Steps(j + 1, k);
        r, row := Submuestra(k, r, row, posAnterior, e, s0, start, j, steps, next);
        steps := next;
        posAnterior := pos[..];
      }
      assert steps == fin;
    }

    /** Pass j of a trial: k steps, the coefficient of the rows so far
        appended to the row of coefficients, then the corrected jump of
        those k steps appended as the next row. */
    method Submuestra(k: nat, r: seq<Vec>, row: seq<real>, posAnterior: Vec, ghost e: Integrator, ghost s0: State,
                      ghost start: nat, j: nat, ghost k0: nat, ghost k1: nat)
      returns (r1: seq<Vec>, row1: seq<real>)
      requires Valid() && Stepper() == e && k0 == start + Steps(j, k) && Current() == Run(e, s0, k0)
      requires k1 == start + Steps(j + 1, k) && posAnterior == pos[..]
      requires r == Trajectory(e, s0, start, k, j) && row == Trial(e, nm, s0, start, j, k)
      modifies pos, vel, fza, this`pExceso, this`cantPasos
      ensures Stepper() == e && Current() == Run(e, s0, k1)
      ensures cantPasos == old(cantPasos) + k
      ensures r1 == Trajectory(e, s0, start, k, j + 1) && row1 == Trial(e, nm, s0, start, j + 1, k)
    {
      var dx := Salto(k, e, s0, k0, k1, posAnterior);
      TrajectoryNext(e, s0, start, k, j, r, k0, k1, dx);
      var lind := nm.sqrt[MeanVar(nm, r)];
      TrialNext(e, nm, s0, start, j, k);
      row1 := row + [lind];
      r1 := r + [Add(r[j], dx)];
    }

    /** The trial loop of lindemann, from s0: the m rows of coefficients. */
    method Ensayos(m: nat, subm: nat, k: nat, ghost e: Integrator, ghost s0: State) returns (matriz: seq<Vec>)
      requires Valid() && Stepper() == e && Current() == s0
      modifies pos, vel, fza, this`pExceso, this`cantPasos
      ensures matriz == LindMatrix(e, nm, s0, m, subm, k)
      ensures Current() == Run(e, s0, Steps(m, Steps(subm, k)))
      ensures cantPasos == old(cantPasos) + Steps(m, Steps(subm, k))
    {
      ghost var steps: nat := 0;
      matriz := [];
      for i := 0 to m
        invariant Stepper() == e
        invariant steps == Steps(i, Steps(subm, k))
        invariant Current() == Run(e, s0, steps)
        invariant cantPasos == old(cantPasos) + steps
        invariant matriz == LindMatrix(e, nm, s0, i, subm, k)
      {
        ghost var next := steps + Steps(subm, k);
        var row := Ensayo(subm, k, e, s0, steps, next);
        LindMatrixNext(e, nm, s0, i, subm, k, matriz, steps, row);
        steps := next;
        matriz := matriz + [row];
      }
      assert steps == Steps(m, Steps(subm, k));
    }

    /** lindemann(m, subm, k): m trials one after the other, then the average
        and the spread over trials of each column of coefficients.  With no
        column, np.average over axis 0 divides the element count 0 by the
        result size 0 and raises. */
    method Lindemann(m: nat := 10, subm: nat := 100, k: nat := 50) returns (r: Result<(seq<real>, seq<real>)>)
      requires Valid()
      modifies pos, vel, fza, this`pExceso, this`cantPasos
      ensures subm == 0 ==> r == Err(DivisionByZero)
      ensures subm > 0 ==> r == Ok((LindAvg(nm, LindMatrix(Stepper(), nm, old(Current()), m, subm, k), subm),
                                   LindStd(nm, LindMatrix(Stepper(), nm, old(Current()), m, subm, k), subm)))
      ensures Current() == Run(Stepper(), old(Current()), Steps(m, Steps(subm, k)))
      ensures cantPasos == old(cantPasos) + Steps(m, Steps(subm, k))
    {
      var matriz := Ensayos(m, subm, k, Stepper(), Current());
      if subm == 0 {
        return Err(DivisionByZero);
      }
      r := Ok((LindAvg(nm, matriz, subm), LindStd(nm, matriz, subm)));
    }

    /** prueba_piloto(precision, m_piloto, subm, dc) never returns.  With no
        pilot block np.var of the empty list is NaN and int() of it raises.
        Otherwise the first block runs dc steps and llenar_vectores(subm),
        which raises in exact mode as soon as it reads an energy; when it
        does return, its three lists are unpacked into two names, which
        raises. */
    method PruebaPiloto(precision: real, mPiloto: nat := 10, subm: nat := 50, dc: nat := 250)
      returns (r: Result<(int, real)>)
      requires Valid()
      modifies pos, vel, fza, this`pExceso, this`cantPasos
      ensures r.Err?
      ensures mPiloto == 0 ==> r.fault == NanToInt && Current() == old(Current()) && cantPasos == old(cantPasos)
      ensures mPiloto > 0 ==> r.fault == (if exacto && subm > 0 then ArgumentCount else UnpackMismatch)
      ensures mPiloto > 0 ==> Current() == Run(Stepper(), old(Current()), dc + LlenarVectoresSteps(Stepper(), subm, 10))
      ensures mPiloto > 0 ==> cantPasos == old(cantPasos) + dc + LlenarVectoresSteps(Stepper(), subm, 10)
    {
      if mPiloto == 0 {
        return Err(NanToInt);
      }
      ghost var s0 := Current();
      NPasos(dc);
      var v := Lecturas(subm, 10, Stepper(), s0, dc, dc + LlenarVectoresSteps(Stepper(), subm, 10));
      if v.Err? {
        return Err(v.fault);
      }
      r := Err(UnpackMismatch);
    }
  }
}
