/**
 * The camera frame analyzer of the home screen: an `isScanning` latch that
 * is cleared by the first successful detection and set again only by
 * `startScanning`. Each frame is handed to the decoder; the decoder's answer
 * arrives later as its own event.
 */
module QrCodeAnalyzer {
  import opened Wrappers
  import opened QrModel

  datatype Analyzer = Analyzer(
    scanning: bool,         // isScanning
    pending: nat,           // frames handed to the decoder whose answer has not arrived
    closed: nat,            // frames closed
    leaked: nat,            // frames without an image, which are never closed
    reported: seq<string>)  // the values passed to the callback, in order

  /** A new analyzer scans: `isScanning` starts true. */
  function NewAnalyzer(): (a: Analyzer)
    ensures a.scanning && a.pending == 0 && a.closed == 0 && a.leaked == 0 && a.reported == []
  {
    Analyzer(true, 0, 0, 0, [])
  }

  datatype Event =
    | Frame(hasImage: bool)        // analyze(imageProxy); `hasImage`: imageProxy.image is not null
    | DecodeDone(result: Detection) // the decoder's answer for the oldest pending frame
    | StartScanning                // startScanning()

  /** `analyze`: closed at once when not scanning; decoded when it has an image; otherwise left alone. */
  function FrameStep(a: Analyzer, hasImage: bool): Analyzer {
    if !a.scanning then a.(closed := a.closed + 1)
    else if hasImage then a.(pending := a.pending + 1)
    else a.(leaked := a.leaked + 1)
  }

  /**
   * The success and complete listeners: a non-empty detection clears the
   * latch and reports the first barcode's raw value when it is not null;
   * the frame is closed either way.
   */
  function DecodeDoneStep(a: Analyzer, d: Detection): Analyzer {
    if a.pending == 0 then a
    else
      var a1 := a.(pending := a.pending - 1, closed := a.closed + 1);
      if d.Detected? && |d.rawValues| > 0 then
        var first := FirstRawValue(d);
        a1.(scanning := false, reported := if first.Some? then a1.reported + [first.value] else a1.reported)
      else a1
  }

  function Step(a: Analyzer, e: Event): Analyzer {
    match e
    case Frame(hasImage) => FrameStep(a, hasImage)
    case DecodeDone(d) => DecodeDoneStep(a, d)
    case StartScanning => a.(scanning := true)
  }

  function Run(a: Analyzer, es: seq<Event>): Analyzer
    decreases |es|
  {
    if es == [] then a else Run(Step(a, es[0]), es[1..])
  }

  /** While the latch is clear every frame is closed at once and nothing is reported. */
  lemma NotScanningClosesFrame(a: Analyzer, hasImage: bool)
    requires !a.scanning
    ensures Step(a, Frame(hasImage)) == a.(closed := a.closed + 1)
  {
  }

  /** A frame without an image is neither decoded, reported nor closed. */
  lemma FrameWithoutImageIsLeft(a: Analyzer)
    requires a.scanning
    ensures var a' := Step(a, Frame(false));
            a'.pending == a.pending && a'.closed == a.closed && a'.reported == a.reported
            && a'.leaked == a.leaked + 1
  {
  }

  /**
   * A non-empty detection clears the latch and reports once, with the first
   * raw value when it is present; an empty or failed detection leaves the
   * latch and reports nothing. The frame is closed in every case.
   */
  lemma DecodeOutcome(a: Analyzer, d: Detection)
    requires a.pending > 0
    ensures var a' := Step(a, DecodeDone(d));
            a'.closed == a.closed + 1 && a'.pending == a.pending - 1
    ensures var a' := Step(a, DecodeDone(d));
            d.Detected? && |d.rawValues| > 0 ==>
              !a'.scanning && a'.reported == a.reported + (if FirstRawValue(d).Some? then [FirstRawValue(d).value] else [])
    ensures var a' := Step(a, DecodeDone(d));
            !(d.Detected? && |d.rawValues| > 0) ==> a'.scanning == a.scanning && a'.reported == a.reported
  {
  }

  /** Only `startScanning` sets the latch again. */
  lemma OnlyStartScanningReopens(a: Analyzer, e: Event)
    requires !a.scanning && Step(a, e).scanning
    ensures e == StartScanning
  {
  }

  /**
   * The frame source delivers a frame only after the previous one is closed,
   * and an answer arrives only for a pending frame.
   */
  predicate Serialised(a: Analyzer, e: Event) {
    (e.Frame? ==> a.pending == 0) && (e.DecodeDone? ==> a.pending > 0)
  }

  predicate SerialRun(a: Analyzer, es: seq<Event>)
    decreases |es|
  {
    es == [] || (Serialised(a, es[0]) && SerialRun(Step(a, es[0]), es[1..]))
  }

  predicate NoRestart(es: seq<Event>) {
    forall k :: 0 <= k < |es| ==> es[k] != StartScanning
  }

  /** At most one frame is in flight, and none once the latch is clear. */
  predicate SerialInv(a: Analyzer) {
    a.pending <= 1 && (!a.scanning ==> a.pending == 0)
  }

  /** How many more reports the analyzer can make without a restart. */
  function Budget(a: Analyzer): nat {
    if a.scanning then 1 else 0
  }

  /**
   * Without `startScanning`, an analyzer fed one frame at a time reports at
   * most once more, and not at all once its latch is clear.
   */
  lemma {:induction false} AtMostOneReportWithoutRestart(a: Analyzer, es: seq<Event>)
    requires SerialInv(a) && SerialRun(a, es) && NoRestart(es)
    ensures SerialInv(Run(a, es))
    ensures |Run(a, es).reported| + Budget(Run(a, es)) <= |a.reported| + Budget(a)
    decreases |es|
  {
    if es != [] {
      var a1 := Step(a, es[0]);
      assert es[0] != StartScanning;
      assert SerialInv(a1) && |a1.reported| + Budget(a1) <= |a.reported| + Budget(a);
      assert NoRestart(es[1..]) by {
        forall k | 0 <= k < |es[1..]| ensures es[1..][k] != StartScanning {
          assert es[1..][k] == es[k + 1];
        }
      }
      AtMostOneReportWithoutRestart(a1, es[1..]);
    }
  }

  /** A new analyzer reports at most one value over any serial run without a restart. */
  lemma NewAnalyzerReportsAtMostOnce(es: seq<Event>)
    requires SerialRun(NewAnalyzer(), es) && NoRestart(es)
    ensures |Run(NewAnalyzer(), es).reported| <= 1
  {
    AtMostOneReportWithoutRestart(NewAnalyzer(), es);
  }

  /**
   * The latch alone does not stop a second report: two frames decoded at
   * once both report, which is why one frame at a time is assumed above.
   */
  lemma OverlappingFramesReportTwice()
    ensures Run(NewAnalyzer(),
              [Frame(true), Frame(true), DecodeDone(Detected([Some("a")])), DecodeDone(Detected([Some("b")]))]).reported
            == ["a", "b"]
  {
  }

  /** The analyzer object, whose latch the decoder's listeners clear. */
  class FrameAnalyzer {
    var isScanning: bool
    var pending: nat
    var closed: nat
    var leaked: nat
    var reported: seq<string>

    function State(): Analyzer
      reads this
    {
      Analyzer(isScanning, pending, closed, leaked, reported)
    }

    constructor()
      ensures State() == NewAnalyzer()
    {
      isScanning := true;
      pending := 0;
      closed := 0;
      leaked := 0;
      reported := [];
    }

    method Analyze(hasImage: bool)
      modifies this
      ensures State() == Step(old(State()), Frame(hasImage))
    {
      if !isScanning {
        closed := closed + 1;
        return;
      }
      if hasImage {
        pending := pending + 1;
      } else {
        leaked := leaked + 1;
      }
    }

    /** The success listener followed by the complete listener of the oldest pending frame. */
    method OnDecodeDone(result: Detection)
      requires pending > 0
      modifies this
      ensures State() == Step(old(State()), DecodeDone(result))
      ensures closed == old(closed) + 1
    {
      if result.Detected? && |result.rawValues| > 0 {
        isScanning := false;
        var first := result.rawValues[0];
        if first.Some? {
          reported := reported + [first.value];
        }
      }
      pending := pending - 1;
      closed := closed + 1;
    }

    method StartScanning()
      modifies this
      ensures State() == Step(old(State()), Event.StartScanning)
      ensures isScanning
    {
      isScanning := true;
    }
  }
}
