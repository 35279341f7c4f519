/**
 * The argument checks of `main`: `tag_id x y z`, with the three coordinates
 * of the reference point converted by `float`.
 */
module CommandLine {
  import opened Samples

  const Usage: string := "USAGE : python ./accuracy_precision_loc.py tag_id x y z"
  const ArityMessage: string := "a tag_id and 3d coordonate must be given as argument\n" + Usage

  /** How `main` ends up after looking at its arguments. */
  datatype Startup =
    | Raises(message: string)                     // ValueError, raised outside the try
    | Returns(status: int)                        // an exception caught by the try: `return 2`
    | Connects(tagRef: string, reference: Sample) // goes on to `init_loc_getter`

  /** The status `main` returns when a conversion inside its try block fails. */
  const ErrorStatus: int := 2

  function Main(argv: seq<string>, toReal: NumberParser): (r: Startup)
    ensures r.Raises? <==> |argv| != 4
    ensures r.Raises? ==> r.message == ArityMessage
    ensures r.Returns? <==> |argv| == 4 && exists i :: 1 <= i < 4 && toReal(argv[i]).None?
    ensures r.Returns? ==> r.status == ErrorStatus
    ensures r.Connects? <==> |argv| == 4 && forall i :: 1 <= i < 4 ==> toReal(argv[i]).Some?
    ensures r.Connects? ==> r.tagRef == argv[0]
    ensures r.Connects? ==>
      r.reference == Sample(toReal(argv[1]).value, toReal(argv[2]).value, toReal(argv[3]).value)
  {
    if |argv| != 4 then Raises(ArityMessage)
    else if toReal(argv[1]).None? || toReal(argv[2]).None? || toReal(argv[3]).None? then
      Returns(ErrorStatus)
    else
      Connects(argv[0], Sample(toReal(argv[1]).value, toReal(argv[2]).value, toReal(argv[3]).value))
  }

  /** Neither argument error reaches the connection set-up. */
  lemma BadArgumentsNeverConnect(argv: seq<string>, toReal: NumberParser)
    requires |argv| != 4 || toReal(argv[1]).None? || toReal(argv[2]).None? || toReal(argv[3]).None?
    ensures !Main(argv, toReal).Connects?
  {
  }
}
