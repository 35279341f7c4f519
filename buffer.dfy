/**
 * The global `points` and the two operations that reassign it: the message
 * callback's append and `clear_histograms`. Both run under `points_mutex`,
 * so each is one atomic step here.
 */
module Buffer {
  import opened Samples
  import opened Messages

  class SampleBuffer {
    var xs: seq<real>
    var ys: seq<real>
    var zs: seq<real>

    /** The three series always have the same length. */
    ghost predicate Valid()
      reads this
    {
      |xs| == |ys| == |zs|
    }

    /** The value of `points`. */
    function Contents(): (p: Points)
      reads this
      ensures Valid() ==> Aligned(p)
    {
      Points(xs, ys, zs)
    }

    /** `len(points[0])`, the number of samples held. */
    function Size(): (n: nat)
      reads this
      requires Valid()
      ensures n == |Columns(Contents())|
    {
      |xs|
    }

    /** `points=np.array([]).reshape(3, 0)` at start-up. */
    constructor ()
      ensures Valid()
      ensures Contents() == Empty()
    {
      xs, ys, zs := [], [], [];
    }

    /** Appends one column, the three coordinates together. */
    method Append(s: Sample)
      requires Valid()
      modifies this
      ensures Valid()
      ensures Contents() == Appended(old(Contents()), s)
      ensures Columns(Contents()) == old(Columns(Contents())) + [s]
    {
      ColumnsOfAppended(Contents(), s);
      xs, ys, zs := xs + [s.x], ys + [s.y], zs + [s.z];
    }

    /**
     * `clear_histograms`: empties all three series, whatever they held, so
     * clearing twice leaves the same state as clearing once.
     */
    method Clear()
      modifies this
      ensures Valid()
      ensures Contents() == Empty()
    {
      xs, ys, zs := [], [], [];
    }

    /**
     * `on_mqtt_message` for the reference tag `tagRef`: the outcome is that
     * of Deliver, and only a recorded sample changes `points`; a message that
     * raises, or belongs to another tag, leaves it as it was.
     */
    method OnMessage(tagRef: string, m: Message, toReal: NumberParser) returns (d: Delivery)
      requires Valid()
      modifies this
      ensures Valid()
      ensures d == Deliver(tagRef, m, toReal)
      ensures Contents() == Apply(old(Contents()), d)
      ensures !d.Recorded? ==> Contents() == old(Contents())
      ensures d.Raises() ==> Contents() == old(Contents())
    {
      d := Deliver(tagRef, m, toReal);
      if d.Recorded? {
        Append(d.sample);
      }
    }
  }
}
