/**
 * Samples and the value held by the global `points`: a 3 x N array whose
 * rows are the x, y and z series, one column per recorded sample.
 */
module Samples {
  import opened Wrappers

  /** One observed position, in metres. */
  datatype Sample = Sample(x: real, y: real, z: real)

  /** Python's `float(text)`: a partial conversion, kept abstract. */
  type NumberParser = string -> Option<real>

  /** The three rows of `points`. */
  datatype Points = Points(xs: seq<real>, ys: seq<real>, zs: seq<real>)

  /** The shape invariant of a 3 x N array: all three rows have length N. */
  predicate Aligned(p: Points) {
    |p.xs| == |p.ys| == |p.zs|
  }

  /** `np.array([]).reshape(3, 0)`: three empty rows. */
  function Empty(): (p: Points)
    ensures Aligned(p)
    ensures |p.xs| == 0
  {
    Points([], [], [])
  }

  /** The number of samples, the N of the 3 x N array. */
  function Count(p: Points): nat
    requires Aligned(p)
  {
    |p.xs|
  }

  /** `np.append(points, [[x], [y], [z]], axis=1)`: one more column. */
  function Appended(p: Points, s: Sample): (q: Points)
    ensures |q.xs| == |p.xs| + 1 && |q.ys| == |p.ys| + 1 && |q.zs| == |p.zs| + 1
    ensures Aligned(p) ==> Aligned(q)
    ensures q.xs[..|p.xs|] == p.xs && q.ys[..|p.ys|] == p.ys && q.zs[..|p.zs|] == p.zs
    ensures q.xs[|p.xs|] == s.x && q.ys[|p.ys|] == s.y && q.zs[|p.zs|] == s.z
  {
    Points(p.xs + [s.x], p.ys + [s.y], p.zs + [s.z])
  }

  /** Column `i` of the array, read back as a sample. */
  function Column(p: Points, i: nat): Sample
    requires Aligned(p) && i < Count(p)
  {
    Sample(p.xs[i], p.ys[i], p.zs[i])
  }

  /** The samples of `points`, in arrival order. */
  function Columns(p: Points): (ss: seq<Sample>)
    requires Aligned(p)
    ensures |ss| == Count(p)
    ensures forall i :: 0 <= i < |ss| ==> ss[i] == Column(p, i)
  {
    seq(|p.xs|, i requires 0 <= i < |p.xs| => Column(p, i))
  }

  /** The array whose columns are the given samples. */
  function FromColumns(ss: seq<Sample>): (p: Points)
    ensures Aligned(p) && Count(p) == |ss|
  {
    Points(seq(|ss|, i requires 0 <= i < |ss| => ss[i].x),
           seq(|ss|, i requires 0 <= i < |ss| => ss[i].y),
           seq(|ss|, i requires 0 <= i < |ss| => ss[i].z))
  }

  /** Reading an array's columns and building it back gives the same array. */
  lemma FromColumnsOfColumns(p: Points)
    requires Aligned(p)
    ensures FromColumns(Columns(p)) == p
  {
  }

  /** Building an array from samples and reading its columns gives those samples. */
  lemma ColumnsOfFromColumns(ss: seq<Sample>)
    ensures Columns(FromColumns(ss)) == ss
  {
  }

  /**
   * A sample is never partially recorded: appending to an aligned array adds
   * exactly that sample after the ones already there.
   */
  lemma ColumnsOfAppended(p: Points, s: Sample)
    requires Aligned(p)
    ensures Columns(Appended(p, s)) == Columns(p) + [s]
  {
  }

  /**
   * The redraw loop's guards as written: it tests the length of row 0 for x,
   * of row 1 for y, and row 1 again for z. Because the rows are aligned, testing row 1 for z is the same as testing
   * z's own row, and all three axes are drawn exactly when a sample is held.
   */
  function AxesDrawn(p: Points): (d: (bool, bool, bool))
    ensures Aligned(p) ==> d == (|p.xs| > 0, |p.ys| > 0, |p.zs| > 0)
    ensures Aligned(p) ==> (d.2 <==> Count(p) > 0) && d.0 == d.1 == d.2
  {
    (|p.xs| > 0, |p.ys| > 0, |p.ys| > 0)
  }
}
