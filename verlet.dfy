/** One velocity-Verlet step as the Python layer drives it through the
    compiled library.  The library's routines are not modelled: each one is an
    opaque field of `Clib`, and each routine that overwrites a buffer is given
    by the contents it leaves there, as a function of the buffers and scalars
    it is passed.  Nothing is claimed about the physics. */
module Verlet {
  type Vec = seq<real>

  /** The compiled routines the driver calls.  A buffer writer maps the
      contents of its argument buffers and its scalar arguments to the new
      contents of the buffer it writes. */
  datatype Kernels = Kernels(
    // primer_paso(pos, vel, fza, N, h): drift of pos, half kick of vel
    primerPasoPos: (Vec, Vec, Vec, int, real) -> Vec,
    primerPasoVel: (Vec, Vec, Vec, int, real) -> Vec,
    // nueva_fza(pos, fza, N, L, rc, FZA_LUT, g): new forces from the table,
    // and its return value, the excess pressure
    nuevaFza: (Vec, Vec, int, real, real, Vec, int) -> Vec,
    nuevaFzaPresion: (Vec, Vec, int, real, real, Vec, int) -> real,
    // nueva_fza_exacto(pos, fza, N, L, rc): new forces without the table
    nuevaFzaExacto: (Vec, Vec, int, real, real) -> Vec,
    // ultimo_paso(vel, fza, N, h): second half kick of vel
    ultimoPaso: (Vec, Vec, int, real) -> Vec,
    // c_cont(pos, N, L): periodic boundary conditions
    cCont: (Vec, int, real) -> Vec,
    // cinetica(vel, N) and potencial(pos, N, L, LJ_LUT, g, rc)
    cinetica: (Vec, int) -> real,
    potencial: (Vec, int, real, Vec, int, real) -> real,
    // distrib_radial(distrad, pos, N, L, rho, Q): histogram update; its
    // argtypes declare N, like the other scalars, a c_float
    distribRadial: (Vec, Vec, real, real, real, real) -> Vec,
    // lennardjones_lut(LJ_LUT, long_lut, rc) and fuerza_lut(FZA_LUT, LJ_LUT, long_lut, rc)
    lennardJonesLut: (Vec, int, real) -> Vec,
    fuerzaLut: (Vec, Vec, int, real) -> Vec)

  /** A routine writes through a pointer into an existing buffer, so what it
      leaves there has the buffer's length. */
  ghost predicate KeepsLengths(c: Kernels)
  {
    (forall p: Vec, v: Vec, f: Vec, N: int, h: real :: |c.primerPasoPos(p, v, f, N, h)| == |p|)
    && (forall p: Vec, v: Vec, f: Vec, N: int, h: real :: |c.primerPasoVel(p, v, f, N, h)| == |v|)
    && (forall p: Vec, f: Vec, N: int, L: real, rc: real, t: Vec, g: int ::
          |c.nuevaFza(p, f, N, L, rc, t, g)| == |f|)
    && (forall p: Vec, f: Vec, N: int, L: real, rc: real :: |c.nuevaFzaExacto(p, f, N, L, rc)| == |f|)
    && (forall v: Vec, f: Vec, N: int, h: real :: |c.ultimoPaso(v, f, N, h)| == |v|)
    && (forall p: Vec, N: int, L: real :: |c.cCont(p, N, L)| == |p|)
    && (forall b: Vec, p: Vec, N: real, L: real, rho: real, Q: real ::
          |c.distribRadial(b, p, N, L, rho, Q)| == |b|)
    && (forall t: Vec, n: int, rc: real :: |c.lennardJonesLut(t, n, rc)| == |t|)
    && (forall t: Vec, lj: Vec, n: int, rc: real :: |c.fuerzaLut(t, lj, n, rc)| == |t|)
  }

  type Clib = c: Kernels | KeepsLengths(c)
    witness Kernels((p, v, f, N, h) => p, (p, v, f, N, h) => v,
                    (p, f, N, L, rc, t, g) => f, (p, f, N, L, rc, t, g) => 0.0,
                    (p, f, N, L, rc) => f, (v, f, N, h) => v, (p, N, L) => p,
                    (v, N) => 0.0, (p, N, L, t, g, rc) => 0.0,
                    (b, p, N, L, rho, Q) => b, (t, n, rc) => t, (t, lj, n, rc) => t)

  /** Everything a step reads besides the buffers: the library, the sizes and
      constants passed to it, both lookup tables and the mode flag. */
  datatype Integrator = Integrator(
    clib: Clib, N: nat, L: real, h: real, rc: real,
    ljLut: Vec, fzaLut: Vec, g: int, exacto: bool)

  /** The buffers a step overwrites and the excess pressure it may record. */
  datatype State = State(pos: Vec, vel: Vec, fza: Vec, pExceso: real)

  /** The buffers have the 3N layout of the integrator's N particles. */
  predicate Sized(e: Integrator, s: State)
  {
    e.N >= 1 && |s.pos| == 3 * e.N && |s.vel| == 3 * e.N && |s.fza| == 3 * e.N
  }

  function Zeros(len: nat): (r: Vec)
    ensures |r| == len
  {
    seq(len, i => 0.0)
  }

  /** The table lennardjones_lut writes into a zeroed buffer of length len. */
  function LennardJonesTable(c: Clib, len: nat, rc: real): (r: Vec)
    ensures |r| == len
  {
    c.lennardJonesLut(Zeros(len), len, rc)
  }

  /** The table fuerza_lut writes into a zeroed buffer, from the potential table. */
  function FuerzaTable(c: Clib, lj: Vec, rc: real): (r: Vec)
    ensures |r| == |lj|
  {
    c.fuerzaLut(Zeros(|lj|), lj, |lj|, rc)
  }

  /** The forces after the force refresh of a step, in the integrator's mode. */
  function Fuerzas(e: Integrator, pos: Vec, fza: Vec): (r: Vec)
    ensures |r| == |fza|
  {
    if e.exacto then e.clib.nuevaFzaExacto(pos, fza, e.N, e.L, e.rc)
    else e.clib.nuevaFza(pos, fza, e.N, e.L, e.rc, e.fzaLut, e.g)
  }

  /** One `paso`: primer_paso, the force refresh, ultimo_paso, c_cont, in that
      order.  Only the table-driven force routine reports a pressure; in exact
      mode the recorded excess pressure is left as it was. */
  function Step(e: Integrator, s: State): (r: State)
    ensures |r.pos| == |s.pos| && |r.vel| == |s.vel| && |r.fza| == |s.fza|
    ensures e.exacto ==> r.pExceso == s.pExceso
  {
    var pos1 := e.clib.primerPasoPos(s.pos, s.vel, s.fza, e.N, e.h);
    var vel1 := e.clib.primerPasoVel(s.pos, s.vel, s.fza, e.N, e.h);
    var fza2 := Fuerzas(e, pos1, s.fza);
    var p2 := if e.exacto then s.pExceso
              else e.clib.nuevaFzaPresion(pos1, s.fza, e.N, e.L, e.rc, e.fzaLut, e.g);
    State(e.clib.cCont(pos1, e.N, e.L), e.clib.ultimoPaso(vel1, fza2, e.N, e.h), fza2, p2)
  }

  /** k successive steps: one step, then k - 1 more from the state reached. */
  function Run(e: Integrator, s: State, k: nat): (r: State)
    ensures |r.pos| == |s.pos| && |r.vel| == |s.vel| && |r.fza| == |s.fza|
    ensures Sized(e, s) ==> Sized(e, r)
    ensures e.exacto ==> r.pExceso == s.pExceso
    decreases k
  {
    if k == 0 then s else Run(e, Step(e, s), k - 1)
  }

  /** k + 1 steps are k steps followed by one more. */
  lemma {:induction false} RunStep(e: Integrator, s: State, k: nat)
    ensures Run(e, s, k + 1) == Step(e, Run(e, s, k))
    decreases k
  {
    if k > 0 {
      RunStep(e, Step(e, s), k - 1);
    }
  }

  /** The step count of n batches of k steps, by repeated addition. */
  function Steps(n: nat, k: nat): nat
  {
    if n == 0 then 0 else Steps(n - 1, k) + k
  }

  lemma {:induction false} StepsIsProduct(n: nat, k: nat)
    ensures Steps(n, k) == n * k
  {
    if n > 0 {
      StepsIsProduct(n - 1, k);
    }
  }

  /** Running a then b steps is running a + b steps. */
  lemma {:induction false} RunAdd(e: Integrator, s: State, a: nat, b: nat)
    ensures Run(e, Run(e, s, a), b) == Run(e, s, a + b)
    decreases a
  {
    if a > 0 {
      RunAdd(e, Step(e, s), a - 1, b);
    }
  }

  /** paso and paso_exacto differ only in the force routine: the positions
      they produce are the same, and so are the velocities and forces when the
      two force routines agree on the drifted positions. */
  lemma ModesDifferOnlyInForce(e: Integrator, s: State)
    ensures Step(e.(exacto := true), s).pos == Step(e.(exacto := false), s).pos
    ensures var pos1 := e.clib.primerPasoPos(s.pos, s.vel, s.fza, e.N, e.h);
      e.clib.nuevaFzaExacto(pos1, s.fza, e.N, e.L, e.rc)
        == e.clib.nuevaFza(pos1, s.fza, e.N, e.L, e.rc, e.fzaLut, e.g)
      ==> Step(e.(exacto := true), s).vel == Step(e.(exacto := false), s).vel
          && Step(e.(exacto := true), s).fza == Step(e.(exacto := false), s).fza
  {
  }

  predicate InBox(v: Vec, L: real)
  {
    forall i :: 0 <= i < |v| ==> 0.0 <= v[i] < L
  }

  /** The boundary routine puts every coordinate it writes into [0, L): the
      assumption about c_cont under which positions stay in the box. */
  ghost predicate WrapsIntoBox(e: Integrator)
  {
    forall pos: Vec :: InBox(e.clib.cCont(pos, e.N, e.L), e.L)
  }

  /** After at least one step every coordinate lies in [0, L). */
  lemma {:induction false} RunInBox(e: Integrator, s: State, k: nat)
    requires WrapsIntoBox(e) && k >= 1
    ensures InBox(Run(e, s, k).pos, e.L)
    decreases k
  {
    if k > 1 {
      RunInBox(e, Step(e, s), k - 1);
    }
  }

  /** Overwrites buf with the contents v of its own length. */
  method Store(buf: array<real>, v: Vec)
    requires |v| == buf.Length
    modifies buf
    ensures buf[..] == v
  {
    forall i | 0 <= i < buf.Length {
      buf[i] := v[i];
    }
  }

  /** Overwrites the buffers the way primer_paso does. */
  method CPrimerPaso(c: Clib, pos: array<real>, vel: array<real>, fza: array<real>, N: int, h: real)
    requires pos != vel && pos != fza && vel != fza
    modifies pos, vel
    ensures pos[..] == c.primerPasoPos(old(pos[..]), old(vel[..]), fza[..], N, h)
    ensures vel[..] == c.primerPasoVel(old(pos[..]), old(vel[..]), fza[..], N, h)
  {
    var p, v, f := pos[..], vel[..], fza[..];
    Store(pos, c.primerPasoPos(p, v, f, N, h));
    Store(vel, c.primerPasoVel(p, v, f, N, h));
  }

  /** Overwrites the forces the way nueva_fza does and returns its pressure. */
  method CNuevaFza(c: Clib, pos: array<real>, fza: array<real>, N: int, L: real, rc: real,
                   lut: Vec, g: int) returns (p: real)
    requires fza != pos
    modifies fza
    ensures fza[..] == c.nuevaFza(pos[..], old(fza[..]), N, L, rc, lut, g)
    ensures p == c.nuevaFzaPresion(pos[..], old(fza[..]), N, L, rc, lut, g)
  {
    p := c.nuevaFzaPresion(pos[..], fza[..], N, L, rc, lut, g);
    Store(fza, c.nuevaFza(pos[..], fza[..], N, L, rc, lut, g));
  }

  /** Overwrites the forces the way nueva_fza_exacto does. */
  method CNuevaFzaExacto(c: Clib, pos: array<real>, fza: array<real>, N: int, L: real, rc: real)
    requires fza != pos
    modifies fza
    ensures fza[..] == c.nuevaFzaExacto(pos[..], old(fza[..]), N, L, rc)
  {
    Store(fza, c.nuevaFzaExacto(pos[..], fza[..], N, L, rc));
  }

  /** Overwrites the velocities the way ultimo_paso does. */
  method CUltimoPaso(c: Clib, vel: array<real>, fza: array<real>, N: int, h: real)
    requires vel != fza
    modifies vel
    ensures vel[..] == c.ultimoPaso(old(vel[..]), fza[..], N, h)
  {
    Store(vel, c.ultimoPaso(vel[..], fza[..], N, h));
  }

  /** Overwrites the positions the way c_cont does. */
  method CCCont(c: Clib, pos: array<real>, N: int, L: real)
    modifies pos
    ensures pos[..] == c.cCont(old(pos[..]), N, L)
  {
    Store(pos, c.cCont(pos[..], N, L));
  }

  /** Accumulates into the histogram the way distrib_radial does. */
  method CDistribRadial(c: Clib, buf: array<real>, pos: array<real>, N: real, L: real, rho: real, Q: real)
    requires buf != pos
    modifies buf
    ensures buf[..] == c.distribRadial(old(buf[..]), pos[..], N, L, rho, Q)
  {
    Store(buf, c.distribRadial(buf[..], pos[..], N, L, rho, Q));
  }

  /** md.py `paso`: one table-driven step on three caller-owned buffers; the
      pressure nueva_fza returns is discarded. */
  method Paso(c: Clib, pos: array<real>, vel: array<real>, fza: array<real>, N: nat, L: real,
              h: real, rc: real, fzaLut: array<real>, g: int)
    requires pos != vel && pos != fza && vel != fza
    requires pos != fzaLut && vel != fzaLut && fza != fzaLut
    modifies pos, vel, fza
    ensures var e := Integrator(c, N, L, h, rc, [], old(fzaLut[..]), g, false);
      var s := Step(e, State(old(pos[..]), old(vel[..]), old(fza[..]), 0.0));
      pos[..] == s.pos && vel[..] == s.vel && fza[..] == s.fza
  {
    CPrimerPaso(c, pos, vel, fza, N, h);
    var _ := CNuevaFza(c, pos, fza, N, L, rc, fzaLut[..], g);
    CUltimoPaso(c, vel, fza, N, h);
    CCCont(c, pos, N, L);
  }

  /** md.py `paso_exacto`: the same step with the exact force routine. */
  method PasoExacto(c: Clib, pos: array<real>, vel: array<real>, fza: array<real>, N: nat,
                    L: real, h: real, rc: real)
    requires pos != vel && pos != fza && vel != fza
    modifies pos, vel, fza
    ensures var e := Integrator(c, N, L, h, rc, [], [], 0, true);
      var s := Step(e, State(old(pos[..]), old(vel[..]), old(fza[..]), 0.0));
      pos[..] == s.pos && vel[..] == s.vel && fza[..] == s.fza
  {
    CPrimerPaso(c, pos, vel, fza, N, h);
    CNuevaFzaExacto(c, pos, fza, N, L, rc);
    CUltimoPaso(c, vel, fza, N, h);
    CCCont(c, pos, N, L);
  }
}
