/** The interleaved 3N layout shared with the compiled kernels: particle i
    occupies entries 3i, 3i+1 and 3i+2 (its x, y and z components). */
module Layout {
  import opened Outcomes

  type Axes = (seq<real>, seq<real>, seq<real>)

  /** Axis k (0 = x, 1 = y, 2 = z) of three per-axis sequences. */
  function Component(x: seq<real>, y: seq<real>, z: seq<real>, k: nat): seq<real>
  {
    if k == 0 then x else if k == 1 then y else z
  }

  /** Entry j of the interleaved vector is component j % 3 of particle j / 3
      (numpy's `array([x, y, z]).T.reshape(3 n)`). */
  function Interleave(x: seq<real>, y: seq<real>, z: seq<real>): (r: seq<real>)
    requires |x| == |y| == |z|
    ensures |r| == 3 * |x|
  {
    seq(3 * |x|, j requires 0 <= j < 3 * |x| => Component(x, y, z, j % 3)[j / 3])
  }

  /** Component k of every particle of a 3N vector (row k of
      `reshape(v, (n, 3)).T`). */
  function Split(v: seq<real>, k: nat): (r: seq<real>)
    requires k < 3 && |v| % 3 == 0
    ensures |r| == |v| / 3
  {
    seq(|v| / 3, i requires 0 <= i < |v| / 3 => v[3 * i + k])
  }

  /** transforma_1D: the source asserts that the three inputs have the same size. */
  function Transforma1D(x: seq<real>, y: seq<real>, z: seq<real>): (r: Result<seq<real>>)
    ensures r.Ok? <==> |x| == |y| == |z|
    ensures r.Ok? ==> |r.value| == 3 * |x|
  {
    if |x| == |y| == |z| then Ok(Interleave(x, y, z)) else Err(AssertionFailed)
  }

  /** transforma_xyz: the source asserts that the length is a multiple of 3. */
  function TransformaXyz(v: seq<real>): (r: Result<Axes>)
    ensures r.Ok? <==> |v| % 3 == 0
    ensures r.Ok? ==> |r.value.0| == |r.value.1| == |r.value.2| == |v| / 3
  {
    if |v| % 3 == 0 then Ok((Split(v, 0), Split(v, 1), Split(v, 2))) else Err(AssertionFailed)
  }

  /** Entry 3i + k of the interleaved vector is component k of particle i. */
  lemma InterleaveAt(x: seq<real>, y: seq<real>, z: seq<real>, i: nat, k: nat)
    requires |x| == |y| == |z| && i < |x| && k < 3
    ensures Interleave(x, y, z)[3 * i + k] == Component(x, y, z, k)[i]
  {
    assert (3 * i + k) % 3 == k && (3 * i + k) / 3 == i;
  }

  /** Splitting an interleaved vector gives back the three axes. */
  lemma XyzAfter1D(x: seq<real>, y: seq<real>, z: seq<real>)
    requires |x| == |y| == |z|
    ensures TransformaXyz(Transforma1D(x, y, z).value) == Ok((x, y, z))
  {
    var v := Interleave(x, y, z);
    forall k | 0 <= k < 3
      ensures Split(v, k) == Component(x, y, z, k)
    {
      forall i | 0 <= i < |x|
        ensures Split(v, k)[i] == Component(x, y, z, k)[i]
      {
        InterleaveAt(x, y, z, i, k);
      }
    }
    assert Split(v, 0) == x && Split(v, 1) == y && Split(v, 2) == z;
  }

  /** Interleaving the three axes of a 3N vector gives back the vector. */
  lemma OneDAfterXyz(v: seq<real>)
    requires |v| % 3 == 0
    ensures var t := TransformaXyz(v).value; Transforma1D(t.0, t.1, t.2) == Ok(v)
  {
    var x, y, z := Split(v, 0), Split(v, 1), Split(v, 2);
    var w := Interleave(x, y, z);
    forall j | 0 <= j < |v|
      ensures w[j] == v[j]
    {
      var i, k := j / 3, j % 3;
      assert j == 3 * i + k;
      InterleaveAt(x, y, z, i, k);
      assert Component(x, y, z, k) == Split(v, k);
    }
    assert w == v;
  }
}
