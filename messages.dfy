/**
 * The MQTT message callback `on_mqtt_message`: the tag id is the topic's
 * suffix after "bsp_", the payload is "x,y,z", and a sample is recorded only
 * for the reference tag.
 */
module Messages {
  import opened Wrappers
  import opened Text
  import opened Samples

  /** The marker that precedes the tag id in a topic such as "localisation/be_spoon/bsp_42". */
  const Marker: string := "bsp_"

  /** A received message: its topic and its payload, already decoded as UTF-8 text. */
  datatype Message = Message(topic: string, payload: string)

  /** What one call of the callback does. */
  datatype Delivery =
    | Recorded(sample: Sample)     // a column is appended to `points`
    | OtherTag(tagId: string)      // a different tag: nothing happens
    | NoMarker                     // `topic.index('bsp_')` raises ValueError
    | MissingField(index: nat)     // `data[index]` raises IndexError
    | NotANumber(index: nat)       // `float(data[index])` raises ValueError
  {
    /** The callback ends with an exception rather than returning. */
    predicate Raises() {
      NoMarker? || MissingField? || NotANumber?
    }
  }

  /**
   * `topic[topic.index('bsp_') + len('bsp_'):]`: the text after the first
   * occurrence of the marker, or None where `index` raises.
   */
  function TagIdOf(topic: string): (r: Option<string>)
    ensures r.None? <==> forall j :: !OccursAt(topic, Marker, j)
    ensures r.Some? ==> exists i :: OccursAt(topic, Marker, i) &&
                                    (forall j :: 0 <= j < i ==> !OccursAt(topic, Marker, j)) &&
                                    r.value == topic[i + |Marker|..]
  {
    match IndexOf(topic, Marker)
    case None => None
    case Some(i) => Some(topic[i + |Marker|..])
  }

  /** A topic made of a marker-free prefix, the marker and an id yields that id. */
  lemma TagIdOfTopic(prefix: string, id: string)
    requires forall j :: !OccursAt(prefix, Marker, j)
    ensures TagIdOf(prefix + Marker + id) == Some(id)
  {
    var topic := prefix + Marker + id;
    var n := |prefix|;
    assert topic[n..n + 4] == Marker;
    assert OccursAt(topic, Marker, n);
    forall j | 0 <= j < n ensures !OccursAt(topic, Marker, j) {
      if j + 4 <= n {
        assert topic[j..j + 4] == prefix[j..j + 4];
        assert !OccursAt(prefix, Marker, j);
      } else {
        // the window would start inside the prefix and cover the marker's 'b'
        var w := topic[j..j + 4];
        assert w[n - j] == topic[n] == 'b';
        assert Marker[n - j] != 'b';
        assert w != Marker;
      }
    }
    match IndexOf(topic, Marker)
    case Some(i) =>
      assert i == n;
      assert topic[n + 4..] == id;
  }

  /**
   * `[[float(data[0])], [float(data[1])], [float(data[2])]]`, evaluated from
   * left to right: the first missing or non-numeric field raises.
   */
  function ParseCoordinates(fields: seq<string>, toReal: NumberParser): (r: Delivery)
    ensures r.Recorded? || r.MissingField? || r.NotANumber?
    ensures r.Recorded? <==> |fields| >= 3 && forall i :: 0 <= i < 3 ==> toReal(fields[i]).Some?
    ensures r.Recorded? ==> r.sample == Sample(toReal(fields[0]).value, toReal(fields[1]).value, toReal(fields[2]).value)
    ensures r.MissingField? ==> r.index < 3 && r.index == |fields|
    ensures r.NotANumber? ==> r.index < 3 && r.index < |fields| && toReal(fields[r.index]).None?
    ensures r.MissingField? || r.NotANumber? ==> forall i :: 0 <= i < r.index ==> toReal(fields[i]).Some?
  {
    if |fields| < 1 then MissingField(0)
    else if toReal(fields[0]).None? then NotANumber(0)
    else if |fields| < 2 then MissingField(1)
    else if toReal(fields[1]).None? then NotANumber(1)
    else if |fields| < 3 then MissingField(2)
    else if toReal(fields[2]).None? then NotANumber(2)
    else Recorded(Sample(toReal(fields[0]).value, toReal(fields[1]).value, toReal(fields[2]).value))
  }

  /** One call of `on_mqtt_message` for the reference tag `tagRef`. */
  function Deliver(tagRef: string, m: Message, toReal: NumberParser): (r: Delivery)
    ensures r == NoMarker <==> forall j :: !OccursAt(m.topic, Marker, j)
    ensures r.OtherTag? <==> TagIdOf(m.topic).Some? && TagIdOf(m.topic).value != tagRef
    ensures r.OtherTag? ==> r.tagId == TagIdOf(m.topic).value
    ensures r.Recorded? || r.MissingField? || r.NotANumber? <==> TagIdOf(m.topic) == Some(tagRef)
    ensures TagIdOf(m.topic) == Some(tagRef) ==> r == ParseCoordinates(Split(m.payload), toReal)
    ensures r != MissingField(0)
  {
    var data := Split(m.payload);
    match TagIdOf(m.topic)
    case None => NoMarker
    case Some(tagId) =>
      if tagRef == tagId then ParseCoordinates(data, toReal) else OtherTag(tagId)
  }

  /** A well-formed message for the reference tag records exactly its three coordinates. */
  lemma DeliverWellFormed(tagRef: string, prefix: string, x: string, y: string, z: string, toReal: NumberParser)
    requires forall j :: !OccursAt(prefix, Marker, j)
    requires NoComma(x) && NoComma(y) && NoComma(z)
    requires toReal(x).Some? && toReal(y).Some? && toReal(z).Some?
    ensures Deliver(tagRef, Message(prefix + Marker + tagRef, Join([x, y, z])), toReal)
            == Recorded(Sample(toReal(x).value, toReal(y).value, toReal(z).value))
  {
    TagIdOfTopic(prefix, tagRef);
    SplitJoin([x, y, z]);
  }

  /** The effect of one delivery on `points`: only a recorded sample changes it. */
  function Apply(p: Points, d: Delivery): (q: Points)
    ensures Aligned(p) ==> Aligned(q)
    ensures d.Recorded? ==> q == Appended(p, d.sample)
    ensures !d.Recorded? ==> q == p
  {
    if d.Recorded? then Appended(p, d.sample) else p
  }

  /**
   * The callback run on each message of `msgs` in turn, starting from `p`; a
   * message that raises leaves `points` as it was and the next one is handled.
   */
  function Ingest(p: Points, tagRef: string, msgs: seq<Message>, toReal: NumberParser): (q: Points)
    ensures Aligned(p) ==> Aligned(q) && Count(p) <= Count(q) <= Count(p) + |msgs|
    decreases |msgs|
  {
    if |msgs| == 0 then p
    else Ingest(Apply(p, Deliver(tagRef, msgs[0], toReal)), tagRef, msgs[1..], toReal)
  }

  /** The samples that the messages of `msgs` record, in order. */
  function RecordedSamples(tagRef: string, msgs: seq<Message>, toReal: NumberParser): seq<Sample>
    decreases |msgs|
  {
    if |msgs| == 0 then []
    else
      var d := Deliver(tagRef, msgs[0], toReal);
      (if d.Recorded? then [d.sample] else []) + RecordedSamples(tagRef, msgs[1..], toReal)
  }

  /**
   * A stream of messages leaves the rows aligned and adds, after the samples
   * already held, exactly the samples of the recorded messages in their order;
   * every other message leaves `points` unchanged.
   */
  lemma {:induction false} IngestRecords(p: Points, tagRef: string, msgs: seq<Message>, toReal: NumberParser)
    requires Aligned(p)
    ensures Aligned(Ingest(p, tagRef, msgs, toReal))
    ensures Columns(Ingest(p, tagRef, msgs, toReal)) == Columns(p) + RecordedSamples(tagRef, msgs, toReal)
    decreases |msgs|
  {
    if |msgs| > 0 {
      var d := Deliver(tagRef, msgs[0], toReal);
      var q := Apply(p, d);
      IngestRecords(q, tagRef, msgs[1..], toReal);
      if d.Recorded? {
        ColumnsOfAppended(p, d.sample);
      }
    }
  }

  /** When every message is recorded, N messages add N samples. */
  lemma {:induction false} IngestAllRecorded(tagRef: string, msgs: seq<Message>, toReal: NumberParser)
    requires forall i :: 0 <= i < |msgs| ==> Deliver(tagRef, msgs[i], toReal).Recorded?
    ensures |RecordedSamples(tagRef, msgs, toReal)| == |msgs|
    decreases |msgs|
  {
    if |msgs| > 0 {
      assert forall i :: 0 <= i < |msgs[1..]| ==> msgs[1..][i] == msgs[i + 1];
      IngestAllRecorded(tagRef, msgs[1..], toReal);
    }
  }
}
