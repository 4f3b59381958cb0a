/**
 * The few numpy operations the batching code uses, on arrays whose element
 * values are never computed with: two-dimensional feature arrays, one-dimensional
 * target arrays, constant padding at the end, `max` over a list of lengths,
 * and stacking equally shaped arrays into one.
 */
module Arrays {
  import opened Wrappers

  /** A two-dimensional array: its rows and its column count, kept also for an array with no rows. */
  datatype Mat = Mat(rows: seq<seq<real>>, cols: nat)

  predicate Rectangular(m: Mat)
  {
    forall i :: 0 <= i < |m.rows| ==> |m.rows[i]| == m.cols
  }

  /** A numpy array is rectangular by construction. */
  type Matrix = m: Mat | Rectangular(m) witness Mat([], 0)

  /** One-dimensional array of token ids. */
  type Vector = seq<int>

  function Zeros(n: nat): (z: seq<real>)
    ensures |z| == n && forall j :: 0 <= j < n ==> z[j] == 0.0
  {
    seq(n, _ => 0.0)
  }

  /** `np.pad(s, (0, width), mode='constant', constant_values=fill)` along the first axis. */
  function PadEnd<T>(s: seq<T>, width: int, fill: T): (r: Result<seq<T>>)
    ensures r.Ok? <==> width >= 0
    ensures r.Err? ==> r.error == ValueError
    ensures r.Ok? ==> |r.value| == |s| + width && r.value[..|s|] == s
    ensures r.Ok? ==> forall j :: |s| <= j < |r.value| ==> r.value[j] == fill
  {
    if width < 0 then Err(ValueError) else Ok(s + seq(width, _ => fill))
  }

  /** `np.pad(m, pad_width=((0, width), (0, 0)), mode='constant', constant_values=0)`. */
  function PadRows(m: Matrix, width: int): (r: Result<Matrix>)
    ensures r.Ok? <==> width >= 0
    ensures r.Ok? ==> r.value.cols == m.cols && |r.value.rows| == |m.rows| + width
    ensures r.Ok? ==> r.value.rows[..|m.rows|] == m.rows
    ensures r.Ok? ==> forall j :: |m.rows| <= j < |r.value.rows| ==> r.value.rows[j] == Zeros(m.cols)
  {
    match PadEnd(m.rows, width, Zeros(m.cols))
    case Err(e) => Err(e)
    case Ok(rows) =>
      assert forall i | 0 <= i < |m.rows| :: rows[i] == rows[..|m.rows|][i];
      Ok(Mat(rows, m.cols))
  }

  /** `np.pad(v, pad_width=(0, width), mode='constant', constant_values=0)`. */
  function PadVector(v: Vector, width: int): (r: Result<Vector>)
    ensures r.Ok? <==> width >= 0
    ensures r.Ok? ==> |r.value| == |v| + width && r.value[..|v|] == v
    ensures r.Ok? ==> forall j :: |v| <= j < |r.value| ==> r.value[j] == 0
  {
    PadEnd(v, width, 0)
  }

  /** Python's `max` over a list of integers; an empty list raises `ValueError`. */
  function Max(s: seq<int>): (r: Result<int>)
    ensures r.Ok? <==> |s| > 0
    ensures r.Err? ==> r.error == ValueError
    ensures r.Ok? ==> r.value in s && forall i :: 0 <= i < |s| ==> s[i] <= r.value
  {
    if |s| == 0 then Err(ValueError)
    else if |s| == 1 then Ok(s[0])
    else
      var m := Max(s[1..]).value;
      Ok(if s[0] >= m then s[0] else m)
  }

  predicate SameShape(ms: seq<Matrix>)
  {
    forall i :: 0 <= i < |ms| ==> |ms[i].rows| == |ms[0].rows| && ms[i].cols == ms[0].cols
  }

  /**
   * `np.stack` of two-dimensional arrays: the three-dimensional result is the list
   * of its slices. Fails on an empty list or on arrays of different shapes.
   */
  function StackMatrices(ms: seq<Matrix>): (r: Result<seq<Matrix>>)
    ensures r.Ok? <==> |ms| > 0 && SameShape(ms)
    ensures r.Err? ==> r.error == ValueError
    ensures r.Ok? ==> r.value == ms
  {
    if |ms| > 0 && SameShape(ms) then Ok(ms) else Err(ValueError)
  }

  predicate SameLength(vs: seq<Vector>)
  {
    forall i :: 0 <= i < |vs| ==> |vs[i]| == |vs[0]|
  }

  /** `np.stack` of one-dimensional arrays. */
  function StackVectors(vs: seq<Vector>): (r: Result<seq<Vector>>)
    ensures r.Ok? <==> |vs| > 0 && SameLength(vs)
    ensures r.Err? ==> r.error == ValueError
    ensures r.Ok? ==> r.value == vs
  {
    if |vs| > 0 && SameLength(vs) then Ok(vs) else Err(ValueError)
  }
}
