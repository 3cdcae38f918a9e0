/** The Lindemann analysis of md_class.py: raw displacements between two
    position snapshots are corrected for jumps through the periodic boundary,
    accumulated into an unwrapped trajectory, and reduced to the mean of the
    per-coordinate variances. */
module Lindemann {
  import opened Stats
  import opened Verlet

  function Abs(x: real): real
  {
    if x < 0.0 then -x else x
  }

  /** np.sign. */
  function Sign(x: real): real
  {
    if x > 0.0 then 1.0 else if x < 0.0 then -1.0 else 0.0
  }

  /** The corrected displacement of one component: a component longer than
      half a box loses L times its sign. */
  function Correct(dx: real, L: real): (r: real)
    ensures Abs(dx) <= L / 2.0 ==> r == dx
    ensures r == dx || r == dx - L || r == dx + L
    ensures L > 0.0 && dx > L / 2.0 ==> r == dx - L
    ensures L > 0.0 && dx < -L / 2.0 ==> r == dx + L
  {
    if Abs(dx) > L / 2.0 then dx - Sign(dx) * L else dx
  }

  /** When both positions lie in [0, L), the corrected displacement is at
      most half a box. */
  lemma CorrectBounded(a: real, b: real, L: real)
    requires 0.0 <= a < L && 0.0 <= b < L
    ensures Abs(Correct(b - a, L)) <= L / 2.0
  {
  }

  /** dx = pos - pos_anterior with the jumps corrected. */
  function Jumps(prev: Vec, cur: Vec, L: real): (r: Vec)
    requires |prev| == |cur|
    ensures |r| == |cur|
  {
    seq(|cur|, t requires 0 <= t < |cur| => Correct(cur[t] - prev[t], L))
  }

  function Add(a: Vec, b: Vec): (r: Vec)
    requires |a| == |b|
    ensures |r| == |a|
  {
    seq(|a|, t requires 0 <= t < |a| => a[t] + b[t])
  }

  /** All rows have width w. */
  predicate Rect(rows: seq<Vec>, w: nat)
  {
    forall j :: 0 <= j < |rows| ==> |rows[j]| == w
  }

  /** The unwrapped trajectory r of a list of snapshots: r[0] is zero and
      r[j + 1] = r[j] + dx, dx being the corrected jump from snapshot j to j + 1. */
  function Unwrap(snaps: seq<Vec>, L: real): (r: seq<Vec>)
    requires |snaps| >= 1 && Rect(snaps, |snaps[0]|)
    ensures |r| == |snaps| && Rect(r, |snaps[0]|)
    ensures r[0] == Zeros(|snaps[0]|)
  {
    if |snaps| == 1 then [Zeros(|snaps[0]|)]
    else
      var p := Unwrap(snaps[..|snaps| - 1], L);
      p + [Add(p[|p| - 1], Jumps(snaps[|snaps| - 2], snaps[|snaps| - 1], L))]
  }

  /** The corrected jumps of component t summed up to snapshot j. */
  function CorrectedSum(snaps: seq<Vec>, L: real, j: nat, t: nat): real
    requires j < |snaps| && Rect(snaps, |snaps[0]|) && t < |snaps[0]|
  {
    if j == 0 then 0.0
    else CorrectedSum(snaps, L, j - 1, t) + Correct(snaps[j][t] - snaps[j - 1][t], L)
  }

  /** Row j of the unwrapped trajectory is row j - 1 plus the corrected jump
      into snapshot j. */
  lemma UnwrapStep(snaps: seq<Vec>, L: real, j: nat)
    requires |snaps| >= 1 && Rect(snaps, |snaps[0]|)
    requires 1 <= j < |snaps|
    ensures Unwrap(snaps, L)[j] == Add(Unwrap(snaps, L)[j - 1], Jumps(snaps[j - 1], snaps[j], L))
  {
    var upto := snaps[..j + 1];
    UnwrapPrefix(snaps, L, j + 1);
    assert upto[..j] == snaps[..j];
    UnwrapPrefix(snaps, L, j);
  }

  /** r[j] is the running sum of the corrected jumps. */
  lemma {:induction false} UnwrapRunningSum(snaps: seq<Vec>, L: real, j: nat, t: nat)
    requires |snaps| >= 1 && Rect(snaps, |snaps[0]|)
    requires j < |snaps| && t < |snaps[0]|
    ensures Unwrap(snaps, L)[j][t] == CorrectedSum(snaps, L, j, t)
  {
    if j > 0 {
      UnwrapStep(snaps, L, j);
      UnwrapRunningSum(snaps, L, j - 1, t);
    }
  }

  /** Without jumps larger than L/2 the corrections change nothing, and the
      unwrapped trajectory is the raw displacement from the first snapshot. */
  lemma UnwrapWithoutJumps(snaps: seq<Vec>, L: real, j: nat, t: nat)
    requires |snaps| >= 1 && Rect(snaps, |snaps[0]|)
    requires j < |snaps| && t < |snaps[0]|
    requires forall i :: 1 <= i <= j ==> Abs(snaps[i][t] - snaps[i - 1][t]) <= L / 2.0
    ensures Unwrap(snaps, L)[j][t] == snaps[j][t] - snaps[0][t]
  {
    UnwrapRunningSum(snaps, L, j, t);
    CorrectedSumTelescopes(snaps, L, j, t);
  }

  lemma {:induction false} CorrectedSumTelescopes(snaps: seq<Vec>, L: real, j: nat, t: nat)
    requires j < |snaps| && Rect(snaps, |snaps[0]|) && t < |snaps[0]|
    requires forall i :: 1 <= i <= j ==> Abs(snaps[i][t] - snaps[i - 1][t]) <= L / 2.0
    ensures CorrectedSum(snaps, L, j, t) == snaps[j][t] - snaps[0][t]
  {
    if j > 0 {
      CorrectedSumTelescopes(snaps, L, j - 1, t);
    }
  }

  /** The unwrapped rows of a prefix are the prefix of the unwrapped rows. */
  lemma {:induction false} UnwrapPrefix(snaps: seq<Vec>, L: real, c: nat)
    requires |snaps| >= 1 && Rect(snaps, |snaps[0]|)
    requires 1 <= c <= |snaps|
    ensures Rect(snaps[..c], |snaps[0]|)
    ensures Unwrap(snaps[..c], L) == Unwrap(snaps, L)[..c]
  {
    if c < |snaps| {
      var init := snaps[..|snaps| - 1];
      assert init[..c] == snaps[..c];
      UnwrapPrefix(init, L, c);
    } else {
      assert snaps[..c] == snaps;
    }
  }

  /** One snapshot unwraps to the zero row alone. */
  lemma UnwrapOne(snaps: seq<Vec>, L: real)
    requires |snaps| == 1
    ensures Unwrap(snaps, L) == [Zeros(|snaps[0]|)]
  {
  }

  /** The last row of the unwrapped trajectory adds the corrected jump
      between the two newest snapshots to the rows of the shorter list. */
  lemma UnwrapLast(snaps: seq<Vec>, L: real)
    requires |snaps| >= 2 && Rect(snaps, |snaps[0]|)
    ensures Rect(snaps[..|snaps| - 1], |snaps[0]|)
    ensures (var p := Unwrap(snaps[..|snaps| - 1], L);
             Unwrap(snaps, L) == p + [Add(p[|p| - 1], Jumps(snaps[|snaps| - 2], snaps[|snaps| - 1], L))])
  {
  }

  /** Column t of a list of rows. */
  function Column(rows: seq<Vec>, t: nat): (r: seq<real>)
    requires forall j :: 0 <= j < |rows| ==> t < |rows[j]|
    ensures |r| == |rows|
    ensures forall j :: 0 <= j < |rows| ==> r[j] == rows[j][t]
  {
    seq(|rows|, j requires 0 <= j < |rows| => rows[j][t])
  }

  /** np.var(rows, axis=0): the variance of each coordinate across the rows,
      with exact statistics the population variance of each column. */
  function Variances(nm: Numerics, rows: seq<Vec>): (r: seq<real>)
    requires |rows| >= 1 && Rect(rows, |rows[0]|)
    ensures |r| == |rows[0]|
    ensures Exact(nm) ==> forall t :: 0 <= t < |r| ==> r[t] == Variance(Column(rows, t)) && r[t] >= 0.0
  {
    seq(|rows[0]|, t requires 0 <= t < |rows[0]| => nm.variance[Column(rows, t)])
  }

  /** np.mean(np.var(rows, axis=0)): the mean over coordinates of the
      variance of each coordinate across the rows; with exact statistics it
      is never negative, so its root is real. */
  function MeanVar(nm: Numerics, rows: seq<Vec>): (r: real)
    requires |rows| >= 1 && Rect(rows, |rows[0]|)
    ensures Exact(nm) && |rows[0]| >= 1 ==> r >= 0.0
  {
    var vars := Variances(nm, rows);
    MeanOfNonNegative(nm, vars);
    nm.mean[vars]
  }

  lemma MeanOfNonNegative(nm: Numerics, vars: seq<real>)
    ensures Exact(nm) && |vars| >= 1 && (forall t :: 0 <= t < |vars| ==> vars[t] >= 0.0) ==> nm.mean[vars] >= 0.0
  {
    if Exact(nm) && |vars| >= 1 && (forall t :: 0 <= t < |vars| ==> vars[t] >= 0.0) {
      MeanNonNegative(vars);
    }
  }

  /** A single row has no spread. */
  lemma MeanVarOneRow(nm: Numerics, row: Vec)
    requires Exact(nm) && |row| >= 1
    ensures MeanVar(nm, [row]) == 0.0
  {
    var rows := [row];
    var vars := Variances(nm, rows);
    forall t | 0 <= t < |row|
      ensures vars[t] == 0.0
    {
      ConstantStats(Column(rows, t), row[t]);
    }
    ConstantStats(vars, 0.0);
  }

  /** snaps holds the positions of a trial begun `start` steps past s, one
      snapshot after every k further steps. */
  ghost predicate SnapshotsOf(snaps: seq<Vec>, e: Integrator, s: State, start: nat, k: nat)
  {
    forall t :: 0 <= t < |snaps| ==> snaps[t] == Run(e, s, start + Steps(t, k)).pos
  }

  /** Rows 0..j of the unwrapped trajectory r of a trial begun `start` steps
      past s, built the way lindemann fills r: row 0 is zero, and row t + 1
      is row t plus the corrected jump between the positions after t and
      after t + 1 batches of k steps. */
  function Trajectory(e: Integrator, s: State, start: nat, k: nat, j: nat): (r: seq<Vec>)
    ensures |r| == j + 1 && Rect(r, |s.pos|)
    ensures r[0] == Zeros(|s.pos|)
    decreases j
  {
    if j == 0 then [Zeros(|s.pos|)]
    else
      var p := Trajectory(e, s, start, k, j - 1);
      p + [Add(p[j - 1], Jumps(Run(e, s, start + Steps(j - 1, k)).pos, Run(e, s, start + Steps(j, k)).pos, e.L))]
  }

  /** The rows the loop builds are the unwrapped trajectory of the first
      j + 1 snapshots of the trial. */
  lemma {:induction false} TrajectoryUnwraps(e: Integrator, s: State, start: nat, k: nat, snaps: seq<Vec>)
    requires |snaps| >= 1 && SnapshotsOf(snaps, e, s, start, k)
    ensures Rect(snaps, |snaps[0]|)
    ensures Trajectory(e, s, start, k, |snaps| - 1) == Unwrap(snaps, e.L)
    decreases |snaps|
  {
    SnapshotsRect(e, s, start, k, snaps);
    if |snaps| == 1 {
      UnwrapOne(snaps, e.L);
    } else {
      SnapshotsPrefix(e, s, start, k, snaps);
      TrajectoryUnwraps(e, s, start, k, snaps[..|snaps| - 1]);
      TrajectoryUnwrapsStep(e, s, start, k, snaps);
    }
  }

  lemma SnapshotsRect(e: Integrator, s: State, start: nat, k: nat, snaps: seq<Vec>)
    requires |snaps| >= 1 && SnapshotsOf(snaps, e, s, start, k)
    ensures |snaps[0]| == |s.pos| && Rect(snaps, |s.pos|)
  {
  }

  lemma SnapshotsPrefix(e: Integrator, s: State, start: nat, k: nat, snaps: seq<Vec>)
    requires |snaps| >= 1 && SnapshotsOf(snaps, e, s, start, k)
    ensures SnapshotsOf(snaps[..|snaps| - 1], e, s, start, k)
  {
    var init := snaps[..|snaps| - 1];
    forall t | 0 <= t < |init|
      ensures init[t] == Run(e, s, start + Steps(t, k)).pos
    {
      assert init[t] == snaps[t];
    }
  }

  lemma TrajectoryUnwrapsStep(e: Integrator, s: State, start: nat, k: nat, snaps: seq<Vec>)
    requires |snaps| >= 2 && SnapshotsOf(snaps, e, s, start, k)
    requires Rect(snaps, |s.pos|) && |snaps[0]| == |s.pos|
    requires Trajectory(e, s, start, k, |snaps| - 2) == Unwrap(snaps[..|snaps| - 1], e.L)
    ensures Trajectory(e, s, start, k, |snaps| - 1) == Unwrap(snaps, e.L)
  {
    var j := |snaps| - 1;
    var a, b := snaps[j - 1], snaps[j];
    assert a == Run(e, s, start + Steps(j - 1, k)).pos;
    assert b == Run(e, s, start + Steps(j, k)).pos;
    UnwrapLast(snaps, e.L);
  }

  /** The coefficient a trial begun `start` steps past s records at
      sub-sample j: the variance is taken over rows 0..j of its trajectory,
      that is over the snapshots taken before the j-th batch of k steps
      finished. */
  function LindCoef(e: Integrator, nm: Numerics, s: State, start: nat, k: nat, j: nat): (r: real)
    ensures Exact(nm) && Sized(e, s) ==> r >= 0.0 && Square(r) == MeanVar(nm, Trajectory(e, s, start, k, j))
  {
    var rows := Trajectory(e, s, start, k, j);
    CoefIsRoot(e, nm, s, rows);
    nm.sqrt[MeanVar(nm, rows)]
  }

  lemma CoefIsRoot(e: Integrator, nm: Numerics, s: State, rows: seq<Vec>)
    requires |rows| >= 1 && Rect(rows, |rows[0]|) && rows[0] == Zeros(|s.pos|)
    ensures var r := nm.sqrt[MeanVar(nm, rows)];
      Exact(nm) && Sized(e, s) ==> r >= 0.0 && Square(r) == MeanVar(nm, rows)
  {
    if Exact(nm) && Sized(e, s) {
      var v := MeanVar(nm, rows);
      assert v >= 0.0;
      SqrtSquare(nm, v);
    }
  }

  /** The first n coefficients a trial begun `start` steps past s records. */
  function Trial(e: Integrator, nm: Numerics, s: State, start: nat, n: nat, k: nat): (r: Vec)
    ensures |r| == n
  {
    seq(n, j requires 0 <= j < n => LindCoef(e, nm, s, start, k, j))
  }

  /** One more sub-sample appends its coefficient. */
  lemma TrialNext(e: Integrator, nm: Numerics, s: State, start: nat, n: nat, k: nat)
    ensures Trial(e, nm, s, start, n + 1, k) == Trial(e, nm, s, start, n, k) + [LindCoef(e, nm, s, start, k, n)]
  {
  }

  /** One more pass appends the corrected jump of that pass to the last row. */
  lemma TrajectoryNext(e: Integrator, s: State, start: nat, k: nat, j: nat, r: seq<Vec>, k0: nat, k1: nat, dx: Vec)
    requires r == Trajectory(e, s, start, k, j)
    requires k0 == start + Steps(j, k) && k1 == start + Steps(j + 1, k)
    requires dx == Jumps(Run(e, s, k0).pos, Run(e, s, k1).pos, e.L)
    ensures r + [Add(r[j], dx)] == Trajectory(e, s, start, k, j + 1)
  {
  }

  /** Because the newest row is left out, the first coefficient of every
      trial is zero. */
  lemma LindFirstCoef(e: Integrator, nm: Numerics, s: State, start: nat, k: nat)
    requires Exact(nm) && Sized(e, s)
    ensures LindCoef(e, nm, s, start, k, 0) == 0.0
  {
    MeanVarOneRow(nm, Zeros(|s.pos|));
  }

  /** A trajectory that starts inside the box stays inside it. */
  lemma StaysInBox(e: Integrator, s: State, t: nat)
    requires WrapsIntoBox(e) && InBox(s.pos, e.L)
    ensures InBox(Run(e, s, t).pos, e.L)
  {
    if t >= 1 {
      RunInBox(e, s, t);
    }
  }

  /** With c_cont wrapping into [0, L) and the run starting inside the box,
      every corrected jump between two snapshots k steps apart is at most
      L/2, so the unwrapped trajectory is the plain displacement. */
  lemma SnapshotJumpsBounded(e: Integrator, s: State, start: nat, k: nat, j: nat, t: nat)
    requires Sized(e, s) && WrapsIntoBox(e) && InBox(s.pos, e.L) && t < 3 * e.N
    ensures (var a, b := Run(e, s, start + Steps(j, k)).pos, Run(e, s, start + Steps(j + 1, k)).pos;
             Abs(Jumps(a, b, e.L)[t]) <= e.L / 2.0)
  {
    var a := Run(e, s, start + Steps(j, k)).pos;
    var b := Run(e, s, start + Steps(j + 1, k)).pos;
    StaysInBox(e, s, start + Steps(j, k));
    StaysInBox(e, s, start + Steps(j + 1, k));
    CorrectBounded(a[t], b[t], e.L);
  }

  /** The coefficients lindemann stores: trial i starts after i subm k steps,
      and column j is sub-sample j of that trial. */
  function LindMatrix(e: Integrator, nm: Numerics, s: State, m: nat, subm: nat, k: nat): (r: seq<Vec>)
    ensures |r| == m && Rect(r, subm)
  {
    seq(m, i requires 0 <= i < m => Trial(e, nm, s, Steps(i, Steps(subm, k)), subm, k))
  }

  /** One more trial adds its row of coefficients. */
  lemma LindMatrixNext(e: Integrator, nm: Numerics, s: State, m: nat, subm: nat, k: nat,
                       rows: seq<Vec>, start: nat, row: Vec)
    requires rows == LindMatrix(e, nm, s, m, subm, k)
    requires start == Steps(m, Steps(subm, k)) && row == Trial(e, nm, s, start, subm, k)
    ensures LindMatrix(e, nm, s, m + 1, subm, k) == rows + [row]
  {
    var a, b := LindMatrix(e, nm, s, m + 1, subm, k), LindMatrix(e, nm, s, m, subm, k);
    forall i | 0 <= i < m
      ensures a[i] == b[i]
    {
    }
  }

  /** lind_avg: np.average over trials of each column. */
  function LindAvg(nm: Numerics, rows: seq<Vec>, subm: nat): (r: Vec)
    requires Rect(rows, subm)
    ensures |r| == subm
  {
    seq(subm, j requires 0 <= j < subm => nm.mean[Column(rows, j)])
  }

  /** lind_std: np.std over trials of each column. */
  function LindStd(nm: Numerics, rows: seq<Vec>, subm: nat): (r: Vec)
    requires Rect(rows, subm)
    ensures |r| == subm
  {
    seq(subm, j requires 0 <= j < subm => Std(nm, Column(rows, j)))
  }

  /** Every trial records zero first, so the first averaged coefficient and
      its spread are zero. */
  lemma LindFirstColumn(e: Integrator, nm: Numerics, s: State, m: nat, subm: nat, k: nat)
    requires Exact(nm) && Sized(e, s) && m >= 1 && subm >= 1
    ensures LindAvg(nm, LindMatrix(e, nm, s, m, subm, k), subm)[0] == 0.0
    ensures LindStd(nm, LindMatrix(e, nm, s, m, subm, k), subm)[0] == 0.0
  {
    var rows := LindMatrix(e, nm, s, m, subm, k);
    var col := Column(rows, 0);
    forall i | 0 <= i < m
      ensures col[i] == 0.0
    {
      LindFirstCoef(e, nm, s, Steps(i, Steps(subm, k)), k);
    }
    ConstantStats(col, 0.0);
  }
}
