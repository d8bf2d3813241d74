/**
 * The reusable camera controller: a busy flag that lets one frame at a time
 * reach the decoder, the torch toggle, and the lens switch.
 */
module CameraManager {
  import opened Wrappers
  import opened QrModel

  datatype LensFacing = Back | Front
  datatype FlashMode = FlashOff | FlashOn

  datatype Cam = Cam(
    isProcessing: bool,
    lensFacing: LensFacing,
    flashMode: FlashMode,
    cameraBound: bool,              // use cases have been bound once, so `camera` is not null
    boundLens: Option<LensFacing>,  // the lens the bound use cases use; None once they are unbound
    received: nat,                  // frames handed to the analyzer
    closed: nat,                    // frames closed
    reported: seq<string>,          // values passed to onBarcodeDetected, in order
    torchRequests: seq<bool>,       // enableTorch requests, in order
    thrown: nat)                    // IllegalStateExceptions thrown out of switchCamera

  /** The fields as initialised: back lens, flash off, not processing, nothing bound. */
  function NewCam(): (c: Cam)
    ensures !c.isProcessing && c.lensFacing == Back && c.flashMode == FlashOff
    ensures !c.cameraBound && c.boundLens == None && c.received == 0 && c.closed == 0
    ensures c.reported == [] && c.torchRequests == [] && c.thrown == 0
  {
    Cam(false, Back, FlashOff, false, None, 0, 0, [], [], 0)
  }

  /** A frame is open from the moment the analyzer gets it until it is closed; only a decoded frame stays open. */
  predicate FramesAccounted(c: Cam) {
    c.received == c.closed + (if c.isProcessing then 1 else 0)
  }

  /** Once bound, the use cases use the current lens. */
  predicate BindingCurrent(c: Cam) {
    c.cameraBound ==> c.boundLens == Some(c.lensFacing)
  }

  /** Use cases are bound only after the first binding, and then to the current lens; there may be none. */
  predicate NoStaleBinding(c: Cam) {
    c.boundLens.Some? ==> c.cameraBound && c.boundLens.value == c.lensFacing
  }

  datatype Event =
    | Frame(hasImage: bool)        // the analyzer lambda gets a frame
    | DecodeComplete(result: Detection) // the decoder's listeners for the frame in flight
    | ToggleFlash(torchOn: bool)   // toggleFlash(); `torchOn`: a camera, if there is one, reports its torch ON
    | SwitchCamera                 // switchCamera()
    | CameraBound                  // startCamera's listener binds the use cases

  /** The analyzer lambda: `getAndSet(true)`; a busy manager closes the frame; a frame without image is closed and released. */
  function FrameStep(c: Cam, hasImage: bool): Cam {
    var c1 := c.(received := c.received + 1);
    if c.isProcessing then c1.(closed := c1.closed + 1)
    else if hasImage then c1.(isProcessing := true)
    else c1.(closed := c1.closed + 1, isProcessing := false)
  }

  /** The success listener reports the first raw value, if any; the complete listener closes and releases. */
  function DecodeCompleteStep(c: Cam, d: Detection): Cam {
    if !c.isProcessing then c
    else
      var first := FirstRawValue(d);
      c.(reported := if first.Some? then c.reported + [first.value] else c.reported,
         closed := c.closed + 1, isProcessing := false)
  }

  /** `toggleFlash`: the flash is turned on exactly when the torch was not on. */
  function ToggleFlashResult(torchOn: bool): (on: bool)
    ensures on <==> !torchOn
  {
    if torchOn then false else true
  }

  /** `setFlashMode`: record the mode and ask a bound camera to switch its torch to match. */
  function SetFlashModeStep(c: Cam, mode: FlashMode): Cam {
    c.(flashMode := mode,
       torchRequests := if c.cameraBound then c.torchRequests + [mode == FlashOn] else c.torchRequests)
  }

  function Flip(l: LensFacing): (r: LensFacing)
    ensures r != l
  {
    if l == Back then Front else Back
  }

  /**
   * `toggleFlash` reads the torch of the camera; with no camera yet the torch
   * reads as not on.
   */
  predicate TorchReadsOn(c: Cam, torchOn: bool) {
    c.cameraBound && torchOn
  }

  /**
   * `switchCamera` as written: the lens is flipped; with a provider (present
   * once the use cases were bound), every use case is unbound, and the view
   * lookup then throws because the manager's `Context` is never a `Fragment`,
   * so nothing is bound again. The `camera` reference is not cleared.
   */
  function SwitchCameraAsWritten(c: Cam): Cam
  {
    var c1 := c.(lensFacing := Flip(c.lensFacing));
    if c.cameraBound then c1.(boundLens := None, thrown := c.thrown + 1) else c1
  }

  /** `switchCamera` as intended: the lens is flipped and a bound camera is rebound with it. */
  function SwitchCameraStep(c: Cam): (r: Cam)
    ensures r.lensFacing == Flip(c.lensFacing)
    ensures BindingCurrent(r)
  {
    var c1 := c.(lensFacing := Flip(c.lensFacing));
    if c.cameraBound then c1.(boundLens := Some(c1.lensFacing)) else c1
  }

  function Step(c: Cam, e: Event): Cam {
    match e
    case Frame(hasImage) => FrameStep(c, hasImage)
    case DecodeComplete(d) => DecodeCompleteStep(c, d)
    case ToggleFlash(torchOn) =>
      SetFlashModeStep(c, if ToggleFlashResult(TorchReadsOn(c, torchOn)) then FlashOn else FlashOff)
    case SwitchCamera => SwitchCameraAsWritten(c)
    case CameraBound => c.(cameraBound := true, boundLens := Some(c.lensFacing))
  }

  /** The manager with `switchCamera` rebinding the new lens, as intended. */
  function CorrectedStep(c: Cam, e: Event): Cam {
    if e.SwitchCamera? then SwitchCameraStep(c) else Step(c, e)
  }

  function Run(c: Cam, es: seq<Event>): Cam
    decreases |es|
  {
    if es == [] then c else Run(Step(c, es[0]), es[1..])
  }

  /**
   * A frame reaches the decoder only when the manager was idle, and that same
   * step marks it busy; otherwise the frame is closed undecoded.
   */
  lemma FrameGate(c: Cam, hasImage: bool)
    ensures var c' := Step(c, Frame(hasImage));
            c.isProcessing ==> c'.isProcessing && c'.closed == c.closed + 1 && c'.reported == c.reported
    ensures var c' := Step(c, Frame(hasImage));
            !c.isProcessing && hasImage ==> c'.isProcessing && c'.closed == c.closed
    ensures var c' := Step(c, Frame(hasImage));
            !c.isProcessing && !hasImage ==> !c'.isProcessing && c'.closed == c.closed + 1
  {
  }

  /** On completion the frame is closed, the flag released, and the first raw value reported when there is one. */
  lemma DecodeCompletion(c: Cam, d: Detection)
    requires c.isProcessing
    ensures var c' := Step(c, DecodeComplete(d));
            !c'.isProcessing && c'.closed == c.closed + 1
            && c'.reported == c.reported + (if FirstRawValue(d).Some? then [FirstRawValue(d).value] else [])
  {
  }

  lemma {:induction false} StepKeepsFramesAccounted(c: Cam, e: Event)
    requires FramesAccounted(c)
    ensures FramesAccounted(Step(c, e))
  {
    match e
    case Frame(h) =>
    case DecodeComplete(d) =>
    case ToggleFlash(t) =>
    case SwitchCamera =>
    case CameraBound =>
  }

  /** Every frame the manager receives is closed, except at most the one being decoded. */
  lemma {:induction false} RunKeepsFramesAccounted(c: Cam, es: seq<Event>)
    requires FramesAccounted(c)
    ensures FramesAccounted(Run(c, es))
    ensures Run(c, es).closed <= Run(c, es).received <= Run(c, es).closed + 1
    decreases |es|
  {
    if es != [] {
      StepKeepsFramesAccounted(c, es[0]);
      RunKeepsFramesAccounted(Step(c, es[0]), es[1..]);
    }
  }

  /**
   * `toggleFlash` turns the flash on exactly when a camera exists and its
   * torch was not on; the flash mode follows, and a bound camera is asked
   * to switch its torch to match.
   */
  lemma ToggleFlashMatchesMode(c: Cam, torchOn: bool)
    ensures var c' := Step(c, ToggleFlash(torchOn));
            c'.flashMode == (if ToggleFlashResult(TorchReadsOn(c, torchOn)) then FlashOn else FlashOff)
    ensures !c.cameraBound ==> Step(c, ToggleFlash(torchOn)).flashMode == FlashOn
    ensures !c.cameraBound ==> Step(c, ToggleFlash(torchOn)).torchRequests == c.torchRequests
    ensures c.cameraBound ==> Step(c, ToggleFlash(torchOn)).torchRequests == c.torchRequests + [!torchOn]
  {
  }

  /**
   * As written, two switches restore the lens, but a bound camera is left
   * with no use cases and each switch throws.
   */
  lemma SwitchTwiceRestores(c: Cam)
    ensures var c2 := Step(Step(c, SwitchCamera), SwitchCamera);
            c2.lensFacing == c.lensFacing && c2.cameraBound == c.cameraBound
    ensures c.cameraBound ==> Step(Step(c, SwitchCamera), SwitchCamera)
                              == c.(boundLens := None, thrown := c.thrown + 2)
    ensures !c.cameraBound ==> Step(Step(c, SwitchCamera), SwitchCamera) == c
  {
  }

  /** With the rebinding switch, two switches restore the whole state. */
  lemma CorrectedSwitchTwiceRestores(c: Cam)
    requires BindingCurrent(c)
    ensures CorrectedStep(CorrectedStep(c, SwitchCamera), SwitchCamera) == c
  {
  }

  /** As written, switching a bound camera leaves it with no use cases bound and throws. */
  lemma SwitchAsWrittenUnbinds(c: Cam)
    requires c.cameraBound
    ensures Step(c, SwitchCamera).thrown == c.thrown + 1
    ensures Step(c, SwitchCamera).boundLens == None
    ensures !BindingCurrent(Step(c, SwitchCamera))
  {
  }

  /** As written, the use cases are never bound to a lens other than the current one, but may be missing. */
  lemma {:induction false} StepKeepsNoStaleBinding(c: Cam, e: Event)
    requires NoStaleBinding(c)
    ensures NoStaleBinding(Step(c, e))
  {
    match e
    case Frame(h) =>
    case DecodeComplete(d) =>
    case ToggleFlash(t) =>
    case SwitchCamera =>
    case CameraBound =>
  }

  /** With the rebinding switch, a bound camera always uses the current lens. */
  lemma {:induction false} CorrectedStepKeepsBindingCurrent(c: Cam, e: Event)
    requires BindingCurrent(c)
    ensures BindingCurrent(CorrectedStep(c, e))
  {
    match e
    case Frame(h) =>
    case DecodeComplete(d) =>
    case ToggleFlash(t) =>
    case SwitchCamera =>
    case CameraBound =>
  }

  /** The camera path the manager serves: the controller's fields, with the frames and requests it handles. */
  class CameraController {
    var isProcessing: bool
    var lensFacing: LensFacing
    var flashMode: FlashMode
    var cameraBound: bool
    var boundLens: Option<LensFacing>
    var received: nat
    var closed: nat
    var reported: seq<string>
    var torchRequests: seq<bool>
    var thrown: nat

    function State(): Cam
      reads this
    {
      Cam(isProcessing, lensFacing, flashMode, cameraBound, boundLens, received, closed, reported, torchRequests, thrown)
    }

    constructor()
      ensures State() == NewCam()
    {
      isProcessing := false;
      lensFacing := Back;
      flashMode := FlashOff;
      cameraBound := false;
      boundLens := None;
      received := 0;
      closed := 0;
      reported := [];
      torchRequests := [];
      thrown := 0;
    }

    method OnFrame(hasImage: bool)
      modifies this
      ensures State() == Step(old(State()), Frame(hasImage))
    {
      received := received + 1;
      var wasProcessing := isProcessing;
      isProcessing := true;
      if wasProcessing {
        closed := closed + 1;
      } else {
        ProcessImageProxy(hasImage);
      }
    }

    /** `processImageProxy`: a frame without an image is closed and released at once. */
    method ProcessImageProxy(hasImage: bool)
      requires isProcessing
      modifies this
      ensures hasImage ==> State() == old(State())
      ensures !hasImage ==> State() == old(State()).(closed := old(closed) + 1, isProcessing := false)
    {
      if !hasImage {
        closed := closed + 1;
        isProcessing := false;
      }
    }

    method OnDecodeComplete(result: Detection)
      requires isProcessing
      modifies this
      ensures State() == Step(old(State()), DecodeComplete(result))
    {
      if result.Detected? && |result.rawValues| > 0 && result.rawValues[0].Some? {
        reported := reported + [result.rawValues[0].value];
      }
      closed := closed + 1;
      isProcessing := false;
    }

    method SetFlashMode(mode: FlashMode)
      modifies this
      ensures State() == SetFlashModeStep(old(State()), mode)
    {
      flashMode := mode;
      if cameraBound {
        torchRequests := torchRequests + [mode == FlashOn];
      }
    }

    method ToggleFlash(torchOn: bool) returns (on: bool)
      modifies this
      ensures State() == Step(old(State()), Event.ToggleFlash(torchOn))
      ensures on <==> !(old(cameraBound) && torchOn)
      ensures flashMode == (if on then FlashOn else FlashOff)
    {
      if cameraBound && torchOn {
        SetFlashMode(FlashOff);
        on := false;
      } else {
        SetFlashMode(FlashOn);
        on := true;
      }
    }

    /** `switchCamera` as written; the exception it throws for a bound camera is counted in `thrown`. */
    method SwitchCamera()
      modifies this
      ensures State() == Step(old(State()), Event.SwitchCamera)
      ensures lensFacing != old(lensFacing)
    {
      lensFacing := if lensFacing == Back then Front else Back;
      if cameraBound {
        boundLens := None;
        thrown := thrown + 1;
      }
    }

    method OnCameraBound()
      modifies this
      ensures State() == Step(old(State()), CameraBound)
    {
      cameraBound := true;
      boundLens := Some(lensFacing);
    }
  }
}
