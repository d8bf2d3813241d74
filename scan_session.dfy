/**
 * The home screen's camera path end to end: the frame analyzer feeding the
 * admission gate. The analyzer is created inline where the camera is bound
 * and no reference to it is kept, so nothing can call its `startScanning`;
 * once its latch is cleared by a detection, the camera never reports again.
 * `Step` is the corrected composition, in which the analyzer is re-enabled
 * whenever the gate is open again; `StepAsWritten` is the composition as the
 * fragment wires it.
 */
module ScanSession {
  import opened Wrappers
  import opened QrModel
  import HF = HomeFragment
  import QA = QrCodeAnalyzer

  datatype Session = Session(gate: HF.Gate, analyzer: QA.Analyzer)

  function InitialSession(): (s: Session)
    ensures s.gate == HF.InitialGate() && s.analyzer == QA.NewAnalyzer()
  {
    Session(HF.InitialGate(), QA.NewAnalyzer())
  }

  datatype Event =
    | CameraFrame(hasImage: bool)                 // a camera frame reaches the analyzer
    | CameraDecodeDone(result: Detection, now: int) // the decoder answers; `now` is the callback's clock reading
    | Fragment(e: HF.Event)                       // any other event of the fragment

  /** The composition as written: the analyzer's report goes to the gate's callback and nothing else links the two. */
  function StepAsWritten(s: Session, e: Event): Session {
    match e
    case CameraFrame(hasImage) => s.(analyzer := QA.Step(s.analyzer, QA.Frame(hasImage)))
    case CameraDecodeDone(d, now) =>
      var a := QA.Step(s.analyzer, QA.DecodeDone(d));
      if |a.reported| > |s.analyzer.reported| then
        Session(HF.Step(s.gate, HF.CameraDecode(a.reported[|a.reported| - 1], now)), a)
      else Session(s.gate, a)
    case Fragment(fe) =>
      if fe.CameraDecode? then s   // camera decodes only arrive through the analyzer
      else s.(gate := HF.Step(s.gate, fe))
  }

  /** The corrected composition: whenever the gate is open after a step, the analyzer scans again. */
  function Step(s: Session, e: Event): Session {
    var s1 := StepAsWritten(s, e);
    if !s1.gate.handled then s1.(analyzer := QA.Step(s1.analyzer, QA.StartScanning)) else s1
  }

  function RunAsWritten(s: Session, es: seq<Event>): Session
    decreases |es|
  {
    if es == [] then s else RunAsWritten(StepAsWritten(s, es[0]), es[1..])
  }

  function Run(s: Session, es: seq<Event>): Session
    decreases |es|
  {
    if es == [] then s else Run(Step(s, es[0]), es[1..])
  }

  /**
   * As written, once the analyzer's latch is clear and no frame is in the
   * decoder, no camera decode ever reaches the gate again, whatever happens
   * to the gate: no forwarded decode is added.
   */
  lemma {:induction false} AsWrittenCameraStaysQuiet(s: Session, es: seq<Event>)
    requires !s.analyzer.scanning && s.analyzer.pending == 0
    ensures RunAsWritten(s, es).gate.forwardTimes == s.gate.forwardTimes
    ensures !RunAsWritten(s, es).analyzer.scanning
    decreases |es|
  {
    if es != [] {
      var s1 := StepAsWritten(s, es[0]);
      assert !s1.analyzer.scanning && s1.analyzer.pending == 0;
      assert s1.gate.forwardTimes == s.gate.forwardTimes by {
        match es[0]
        case CameraFrame(_) =>
        case CameraDecodeDone(_, _) =>
        case Fragment(fe) =>
          if !fe.CameraDecode? {
            assert s1.gate == HF.Step(s.gate, fe);
          }
      }
      AsWrittenCameraStaysQuiet(s1, es[1..]);
    }
  }

  /** Dismissing the dialog, waiting out the reset, then showing the camera a new code. */
  function ScanAgain(v: string, now: int): seq<Event> {
    [Fragment(HF.DialogDismissed), Fragment(HF.DelayedReset),
     CameraFrame(true), CameraDecodeDone(Detected([Some(v)]), now)]
  }

  /**
   * As written, a second code is never forwarded after the first result: with
   * the latch cleared by the first detection, dismissing the dialog and
   * waiting for the reset leaves the camera silent.
   */
  lemma AsWrittenSecondCodeIgnored(s: Session, v: string, now: int)
    requires !s.analyzer.scanning && s.analyzer.pending == 0
    ensures RunAsWritten(s, ScanAgain(v, now)).gate.forwardTimes == s.gate.forwardTimes
  {
    AsWrittenCameraStaysQuiet(s, ScanAgain(v, now));
  }

  /**
   * With the correction, after the dialog is dismissed and its reset has
   * run, a new code seen by the camera past the cooldown is forwarded to the
   * gate and admitted, whatever the latch was before.
   */
  lemma CorrectedSecondCodeForwarded(s: Session, v: string, now: int)
    requires s.gate.dialogAdded && !s.gate.processing && s.analyzer.pending == 0
    requires now - s.gate.lastScanTime >= 500
    ensures Run(s, ScanAgain(v, now)).gate.forwardTimes == s.gate.forwardTimes + [now]
    ensures Run(s, ScanAgain(v, now)).gate.vibrations == s.gate.vibrations + 1
  {
    var s1 := Step(s, Fragment(HF.DialogDismissed));
    assert s1.gate.pendingResets > 0 && s1.analyzer.pending == 0;
    var s2 := Step(s1, Fragment(HF.DelayedReset));
    assert !s2.gate.handled && s2.analyzer.scanning && s2.analyzer.pending == 0;
    var s3 := Step(s2, CameraFrame(true));
    assert s3.analyzer.pending == 1 && s3.gate == s2.gate;
    var s4 := Step(s3, CameraDecodeDone(Detected([Some(v)]), now));
    assert s4.gate.forwardTimes == s.gate.forwardTimes + [now];
    var es := ScanAgain(v, now);
    assert Run(s3, es[3..]) == Run(s4, []) == s4;
    assert Run(s2, es[2..]) == Run(s3, es[3..]);
    assert Run(s1, es[1..]) == Run(s2, es[2..]);
    assert Run(s, es) == Run(s1, es[1..]);
  }

  /** The camera sees a first code at clock reading 1000 and its dialog is shown. */
  function FirstScan(): seq<Event> {
    [CameraFrame(true), CameraDecodeDone(Detected([Some("A")]), 1000), Fragment(HF.RunPosted(false))]
  }

  lemma {:induction false} FirstScanShowsDialog()
    ensures var s := RunAsWritten(InitialSession(), FirstScan());
            s == Run(InitialSession(), FirstScan())
            && !s.analyzer.scanning && s.analyzer.pending == 0
            && s.gate.handled && s.gate.dialogAdded && !s.gate.processing
            && s.gate.forwardTimes == [1000] && s.gate.lastScanTime == 1000
  {
    var es := FirstScan();
    var s0 := InitialSession();
    var s1 := StepAsWritten(s0, es[0]);
    var s2 := StepAsWritten(s1, es[1]);
    assert s2.gate.handled && s2.gate.posted == ["A"] && s2.gate.forwardTimes == [1000];
    var s3 := StepAsWritten(s2, es[2]);
    assert s3.gate.handled && s3.gate.dialogAdded;
    assert Step(s0, es[0]) == s1 && Step(s1, es[1]) == s2 && Step(s2, es[2]) == s3;
    assert RunAsWritten(s2, es[2..]) == s3 == Run(s2, es[2..]);
    assert RunAsWritten(s1, es[1..]) == s3 == Run(s1, es[1..]);
  }

  /**
   * The user-visible effect: after a first result is shown and dismissed, a
   * second code shown to the camera two seconds later is ignored as written
   * and forwarded with the correction.
   */
  lemma SecondCodeAfterFirstResult()
    ensures RunAsWritten(RunAsWritten(InitialSession(), FirstScan()), ScanAgain("B", 3000)).gate.forwardTimes == [1000]
    ensures Run(Run(InitialSession(), FirstScan()), ScanAgain("B", 3000)).gate.forwardTimes == [1000, 3000]
  {
    FirstScanShowsDialog();
    var s := RunAsWritten(InitialSession(), FirstScan());
    AsWrittenSecondCodeIgnored(s, "B", 3000);
    CorrectedSecondCodeForwarded(s, "B", 3000);
  }
}
