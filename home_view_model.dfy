/**
 * The home screen's view model: saving a scanned payload moves the state
 * through Loading to Success (holding the saved record) or Error. The
 * coroutine body runs to completion as part of the call; the repository's
 * exception, the record's generated id and its creation time are parameters.
 */
module HomeViewModel {
  import opened Wrappers
  import opened QrModel

  datatype HomeUiState =
    | Initial
    | Loading
    | Saved(qrData: QrData)  // HomeUiState.Success
    | Failed(message: string) // HomeUiState.Error

  datatype HomeVm = HomeVm(
    uiState: HomeUiState,
    emitted: seq<HomeUiState>,  // every value assigned to the state, in order
    inserted: seq<QrData>)      // records the repository stored, in order

  function NewHomeVm(): (vm: HomeVm)
    ensures vm.uiState == Initial && vm.emitted == [] && vm.inserted == []
  {
    HomeVm(Initial, [], [])
  }

  /**
   * `processScannedContent`: Loading, then the insert; `insertThrew` is the
   * repository's exception (with its message, which may be null), if any.
   */
  function ProcessScannedContentStep(vm: HomeVm, content: string, t: QrCodeType, id: string, createdAt: int,
                                     insertThrew: Option<Option<string>>): HomeVm
  {
    var vm1 := vm.(uiState := Loading, emitted := vm.emitted + [Loading]);
    match insertThrew
    case None =>
      var d := NewQrData(id, content, t, createdAt);
      vm1.(inserted := vm1.inserted + [d], uiState := Saved(d), emitted := vm1.emitted + [Saved(d)])
    case Some(message) =>
      var s := Failed(message.GetOr("Unknown error occurred"));
      vm1.(uiState := s, emitted := vm1.emitted + [s])
  }

  function ResetStep(vm: HomeVm): HomeVm {
    vm.(uiState := Initial, emitted := vm.emitted + [Initial])
  }

  /**
   * Loading is shown first; a successful insert stores exactly one new,
   * non-favourite record with the given content and type and shows that very
   * record; a failed one stores nothing and shows the message or its default.
   */
  lemma ProcessScannedContentOutcome(vm: HomeVm, content: string, t: QrCodeType, id: string, createdAt: int,
                                     insertThrew: Option<Option<string>>)
    ensures var r := ProcessScannedContentStep(vm, content, t, id, createdAt, insertThrew);
            r.emitted == vm.emitted + [Loading, r.uiState]
    ensures var r := ProcessScannedContentStep(vm, content, t, id, createdAt, insertThrew);
            insertThrew.None? ==>
              |r.inserted| == |vm.inserted| + 1 && r.inserted[..|vm.inserted|] == vm.inserted
              && r.uiState == Saved(r.inserted[|vm.inserted|])
              && r.uiState.qrData.content == content && r.uiState.qrData.qrType == t
              && !r.uiState.qrData.isFavorite
    ensures var r := ProcessScannedContentStep(vm, content, t, id, createdAt, insertThrew);
            insertThrew.Some? ==>
              r.inserted == vm.inserted
              && r.uiState == Failed(if insertThrew.value.Some? then insertThrew.value.value else "Unknown error occurred")
  {
    var r := ProcessScannedContentStep(vm, content, t, id, createdAt, insertThrew);
    if insertThrew.None? {
      assert r.inserted[..|vm.inserted|] == vm.inserted;
    }
  }

  /** `resetState` returns to Initial and keeps the history. */
  lemma ResetReturnsToInitial(vm: HomeVm)
    ensures ResetStep(vm).uiState == Initial && ResetStep(vm).inserted == vm.inserted
  {
  }

  /** A Success state always holds the most recently stored record. */
  predicate Consistent(vm: HomeVm) {
    (vm.emitted == [] ==> vm.uiState == Initial)
    && (vm.emitted != [] ==> vm.uiState == vm.emitted[|vm.emitted| - 1])
    && (vm.uiState.Saved? ==> vm.inserted != [] && vm.uiState.qrData == vm.inserted[|vm.inserted| - 1])
  }

  datatype Event =
    | ProcessScanned(content: string, t: QrCodeType, id: string, createdAt: int, insertThrew: Option<Option<string>>)
    | Reset

  function Step(vm: HomeVm, e: Event): HomeVm {
    match e
    case ProcessScanned(content, t, id, createdAt, insertThrew) =>
      ProcessScannedContentStep(vm, content, t, id, createdAt, insertThrew)
    case Reset => ResetStep(vm)
  }

  function Run(vm: HomeVm, es: seq<Event>): HomeVm
    decreases |es|
  {
    if es == [] then vm else Run(Step(vm, es[0]), es[1..])
  }

  /** Over any sequence of calls the state and the stored history never disagree. */
  lemma {:induction false} RunKeepsConsistent(vm: HomeVm, es: seq<Event>)
    requires Consistent(vm)
    ensures Consistent(Run(vm, es))
    decreases |es|
  {
    if es != [] {
      match es[0] {
        case Reset =>
        case ProcessScanned(content, t, id, createdAt, insertThrew) =>
          ProcessScannedContentOutcome(vm, content, t, id, createdAt, insertThrew);
      }
      RunKeepsConsistent(Step(vm, es[0]), es[1..]);
    }
  }

  lemma NewHomeVmConsistent()
    ensures Consistent(NewHomeVm())
  {
  }

  /** The view model object, with the logs of what it emits and stores. */
  class HomeModel {
    var uiState: HomeUiState
    var emitted: seq<HomeUiState>
    var inserted: seq<QrData>

    function State(): HomeVm
      reads this
    {
      HomeVm(uiState, emitted, inserted)
    }

    constructor()
      ensures State() == NewHomeVm()
    {
      uiState := Initial;
      emitted := [];
      inserted := [];
    }

    method SetState(s: HomeUiState)
      modifies this
      ensures State() == old(State()).(uiState := s, emitted := old(emitted) + [s])
    {
      uiState := s;
      emitted := emitted + [s];
    }

    method ProcessScannedContent(content: string, t: QrCodeType, id: string, createdAt: int,
                                 insertThrew: Option<Option<string>>)
      modifies this
      ensures State() == ProcessScannedContentStep(old(State()), content, t, id, createdAt, insertThrew)
    {
      SetState(Loading);
      var qrData := NewQrData(id, content, t, createdAt);
      if insertThrew.None? {
        inserted := inserted + [qrData];
        SetState(Saved(qrData));
      } else {
        var message := insertThrew.value;
        SetState(Failed(if message.Some? then message.value else "Unknown error occurred"));
      }
    }

    method ResetState()
      modifies this
      ensures State() == ResetStep(old(State()))
    {
      SetState(Initial);
    }
  }
}
