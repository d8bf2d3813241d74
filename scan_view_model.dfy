/**
 * The scan screen's view model: repeats of the same value within two
 * seconds are dropped, and each admitted scan moves the screen state through
 * Processing to Success (after saving a history record) or Error.
 * The coroutine body runs to completion as part of the call; the clock
 * readings and the new record's id are parameters.
 */
module ScanViewModel {
  import opened Wrappers
  import opened QrModel
  import QP = QrCodeProcessor

  const ScanThrottleMs: int := 2000

  datatype ScanUiState =
    | Idle
    | Processing
    | Scanned(content: string, qrType: QrCodeType, timestamp: int)  // ScanUiState.Success
    | Failed(message: string)                                       // ScanUiState.Error

  datatype ScanVm = ScanVm(
    uiState: ScanUiState,
    lastProcessedBarcode: Option<string>,
    lastProcessedTime: int,
    emitted: seq<ScanUiState>,  // every value assigned to the state, in order
    inserted: seq<QrData>)      // records handed to the repository, in order

  function NewScanVm(): (vm: ScanVm)
    ensures vm.uiState == Idle && vm.lastProcessedBarcode == None && vm.lastProcessedTime == 0
    ensures vm.emitted == [] && vm.inserted == []
  {
    ScanVm(Idle, None, 0, [], [])
  }

  /** A raw value is throttled when it repeats the last admitted one less than two seconds later. */
  predicate Throttled(vm: ScanVm, rawValue: string, now: int) {
    vm.lastProcessedBarcode == Some(rawValue) && now - vm.lastProcessedTime < ScanThrottleMs
  }

  /**
   * What one call does. `now` is the clock at the call, `savedAt` the clock
   * when the record is built, `id` the record's generated id and `thrown`
   * the processor's exception, if any.
   */
  function ProcessBarcodeStep(vm: ScanVm, b: QP.Barcode, now: int, thrown: Option<Option<string>>,
                              id: string, savedAt: int): ScanVm
  {
    if b.rawValue.None? || Throttled(vm, b.rawValue.value, now) then vm
    else
      var vm1 := vm.(lastProcessedBarcode := b.rawValue, lastProcessedTime := now,
                     uiState := Processing, emitted := vm.emitted + [Processing]);
      match QP.ProcessBarcode(b, thrown)
      case Success(content, t) =>
        var s := Scanned(content, t, savedAt);
        vm1.(inserted := vm1.inserted + [NewQrData(id, content, t, savedAt)], uiState := s, emitted := vm1.emitted + [s])
      case Error(message) =>
        vm1.(uiState := Failed(message), emitted := vm1.emitted + [Failed(message)])
  }

  function ResetStep(vm: ScanVm): ScanVm {
    vm.(uiState := Idle, emitted := vm.emitted + [Idle])
  }

  /** A barcode without a raw value changes nothing. */
  lemma NullRawValueIgnored(vm: ScanVm, b: QP.Barcode, now: int, thrown: Option<Option<string>>, id: string, savedAt: int)
    requires b.rawValue.None?
    ensures ProcessBarcodeStep(vm, b, now, thrown, id, savedAt) == vm
  {
  }

  /**
   * A call changes anything exactly when the barcode has a raw value that is
   * not throttled; a value other than the last admitted one is never throttled.
   */
  lemma AdmittedIff(vm: ScanVm, b: QP.Barcode, now: int, thrown: Option<Option<string>>, id: string, savedAt: int)
    ensures ProcessBarcodeStep(vm, b, now, thrown, id, savedAt) != vm
            <==> b.rawValue.Some? && !Throttled(vm, b.rawValue.value, now)
    ensures b.rawValue.Some? && vm.lastProcessedBarcode != b.rawValue ==> !Throttled(vm, b.rawValue.value, now)
  {
    var r := ProcessBarcodeStep(vm, b, now, thrown, id, savedAt);
    if b.rawValue.Some? && !Throttled(vm, b.rawValue.value, now) {
      assert |r.emitted| == |vm.emitted| + 2;
    }
  }

  /**
   * An admitted scan records its value and time whatever the outcome, shows
   * Processing first, and ends in Success with one saved record or in Error
   * with nothing saved.
   */
  lemma AdmittedScanOutcome(vm: ScanVm, b: QP.Barcode, now: int, thrown: Option<Option<string>>, id: string, savedAt: int)
    requires b.rawValue.Some? && !Throttled(vm, b.rawValue.value, now)
    ensures var r := ProcessBarcodeStep(vm, b, now, thrown, id, savedAt);
            r.lastProcessedBarcode == b.rawValue && r.lastProcessedTime == now
            && r.emitted == vm.emitted + [Processing, r.uiState]
    ensures var r := ProcessBarcodeStep(vm, b, now, thrown, id, savedAt);
            var res := QP.ProcessBarcode(b, thrown);
            res.Success? ==>
              r.inserted == vm.inserted + [NewQrData(id, res.content, res.qrType, savedAt)]
              && r.uiState == Scanned(res.content, res.qrType, savedAt)
    ensures var r := ProcessBarcodeStep(vm, b, now, thrown, id, savedAt);
            var res := QP.ProcessBarcode(b, thrown);
            res.Error? ==> r.inserted == vm.inserted && r.uiState == Failed(res.message)
    ensures var r := ProcessBarcodeStep(vm, b, now, thrown, id, savedAt);
            thrown.Some? ==> r.inserted == vm.inserted && r.uiState == Failed(thrown.value.GetOr("Unknown error processing QR code"))
  {
  }

  /**
   * Once a value is admitted at time `now`, the same value arriving again
   * less than two seconds later is ignored, even when the first one failed.
   */
  lemma RepeatWithinWindowIgnored(vm: ScanVm, b: QP.Barcode, now: int, thrown: Option<Option<string>>, id: string, savedAt: int,
                                  b2: QP.Barcode, now2: int, thrown2: Option<Option<string>>, id2: string, savedAt2: int)
    requires b.rawValue.Some? && !Throttled(vm, b.rawValue.value, now)
    requires b2.rawValue == b.rawValue && now <= now2 < now + ScanThrottleMs
    ensures var r := ProcessBarcodeStep(vm, b, now, thrown, id, savedAt);
            ProcessBarcodeStep(r, b2, now2, thrown2, id2, savedAt2) == r
  {
  }

  /** `resetState` returns to Idle and keeps the throttle and the saved records. */
  lemma ResetKeepsThrottle(vm: ScanVm)
    ensures ResetStep(vm).uiState == Idle
    ensures ResetStep(vm).lastProcessedBarcode == vm.lastProcessedBarcode
    ensures ResetStep(vm).lastProcessedTime == vm.lastProcessedTime
    ensures ResetStep(vm).inserted == vm.inserted
  {
  }

  /**
   * The state is the last value assigned, and a Success state always shows
   * the most recently saved record.
   */
  predicate Consistent(vm: ScanVm) {
    (vm.emitted == [] ==> vm.uiState == Idle)
    && (vm.emitted != [] ==> vm.uiState == vm.emitted[|vm.emitted| - 1])
    && (vm.uiState.Scanned? ==>
          vm.inserted != []
          && var last := vm.inserted[|vm.inserted| - 1];
          last.content == vm.uiState.content && last.qrType == vm.uiState.qrType
          && last.timestamp == vm.uiState.timestamp)
  }

  datatype Event =
    | Scan(b: QP.Barcode, now: int, thrown: Option<Option<string>>, id: string, savedAt: int)
    | Reset

  function Step(vm: ScanVm, e: Event): ScanVm {
    match e
    case Scan(b, now, thrown, id, savedAt) => ProcessBarcodeStep(vm, b, now, thrown, id, savedAt)
    case Reset => ResetStep(vm)
  }

  function Run(vm: ScanVm, es: seq<Event>): ScanVm
    decreases |es|
  {
    if es == [] then vm else Run(Step(vm, es[0]), es[1..])
  }

  lemma {:induction false} StepKeepsConsistent(vm: ScanVm, e: Event)
    requires Consistent(vm)
    ensures Consistent(Step(vm, e))
  {
    match e
    case Reset =>
    case Scan(b, now, thrown, id, savedAt) =>
      var r := ProcessBarcodeStep(vm, b, now, thrown, id, savedAt);
      if b.rawValue.Some? && !Throttled(vm, b.rawValue.value, now) {
        AdmittedScanOutcome(vm, b, now, thrown, id, savedAt);
      }
  }

  /** From a new view model, the screen state and the saved history never disagree. */
  lemma {:induction false} RunKeepsConsistent(vm: ScanVm, es: seq<Event>)
    requires Consistent(vm)
    ensures Consistent(Run(vm, es))
    ensures |Run(vm, es).inserted| >= |vm.inserted|
    decreases |es|
  {
    if es != [] {
      StepKeepsConsistent(vm, es[0]);
      assert |Step(vm, es[0]).inserted| >= |vm.inserted|;
      RunKeepsConsistent(Step(vm, es[0]), es[1..]);
    }
  }

  lemma NewScanVmConsistent()
    ensures Consistent(NewScanVm())
  {
  }

  /** The view model object with its three fields, plus the logs of what it emits and saves. */
  class ScanModel {
    var uiState: ScanUiState
    var lastProcessedBarcode: Option<string>
    var lastProcessedTime: int
    var emitted: seq<ScanUiState>
    var inserted: seq<QrData>

    function State(): ScanVm
      reads this
    {
      ScanVm(uiState, lastProcessedBarcode, lastProcessedTime, emitted, inserted)
    }

    constructor()
      ensures State() == NewScanVm()
    {
      uiState := Idle;
      lastProcessedBarcode := None;
      lastProcessedTime := 0;
      emitted := [];
      inserted := [];
    }

    method SetState(s: ScanUiState)
      modifies this
      ensures State() == old(State()).(uiState := s, emitted := old(emitted) + [s])
    {
      uiState := s;
      emitted := emitted + [s];
    }

    method ProcessBarcode(b: QP.Barcode, now: int, thrown: Option<Option<string>>, id: string, savedAt: int)
      modifies this
      ensures State() == ProcessBarcodeStep(old(State()), b, now, thrown, id, savedAt)
    {
      if b.rawValue.None? {
        return;
      }
      var rawValue := b.rawValue.value;
      if Some(rawValue) == lastProcessedBarcode && now - lastProcessedTime < ScanThrottleMs {
        return;
      }
      lastProcessedBarcode := Some(rawValue);
      lastProcessedTime := now;
      SetState(Processing);
      var result := QP.ProcessBarcode(b, thrown);
      match result
      case Success(content, t) =>
        var qrData := NewQrData(id, content, t, savedAt);
        inserted := inserted + [qrData];
        SetState(Scanned(content, t, qrData.timestamp));
      case Error(message) =>
        SetState(Failed(message));
    }

    method ResetState()
      modifies this
      ensures State() == ResetStep(old(State()))
    {
      SetState(Idle);
    }
  }
}
