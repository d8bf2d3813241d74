/**
 * The scan admission gate of the home screen. Three fields decide whether a
 * decoded payload is handled: `isQrCodeHandled`, `isProcessing` and
 * `lastScanTime` (with a 500 ms cooldown). Payloads that pass are vibrated
 * for and posted to the main thread, where the posted handler either opens
 * the UPI payment chooser or shows the result dialog for the payload's
 * category.
 *
 * The main thread runs one event at a time, so each event below is one
 * atomic step. Besides the fragment's own fields, the state records what the
 * environment holds: the handlers posted to the main looper and not yet run,
 * the resets scheduled 300 ms after a dismissal and not yet run, whether the
 * result dialog is on screen, and the effects the fragment asked for.
 */
module HomeFragment {
  import opened Wrappers
  import opened KotlinText
  import opened QrModel

  /** `scanCooldownMs`. */
  const ScanCooldownMs: int := 500

  // ----- the classifier -----

  /** A UPI payment link, recognised case-sensitively. */
  predicate IsUpiPayload(v: string) {
    StartsWith(v, "upi://")
  }

  predicate IsWebLink(v: string) {
    StartsWithIgnoreCase(v, "http://") || StartsWithIgnoreCase(v, "https://")
  }

  /** The `when` in `handleQRCode`: web link first, then Wi-Fi, then text; prefixes compared ignoring case. */
  function ClassifyPayload(v: string): (t: QrCodeType)
    ensures t == URL <==> IsWebLink(v)
    ensures t == WIFI <==> !IsWebLink(v) && StartsWithIgnoreCase(v, "WIFI:")
    ensures t == TEXT <==> !IsWebLink(v) && !StartsWithIgnoreCase(v, "WIFI:")
  {
    if IsWebLink(v) then URL
    else if StartsWithIgnoreCase(v, "WIFI:") then WIFI
    else TEXT
  }

  lemma {:induction false} StartsWithIgnoreCaseTransfer(a: string, b: string, p: string)
    requires EqualsIgnoreCase(a, b) && StartsWithIgnoreCase(a, p)
    ensures StartsWithIgnoreCase(b, p)
  {
    forall i | 0 <= i < |p| ensures CharEqualsIgnoreCase(b[i], p[i]) {
      assert CharEqualsIgnoreCase(a[i], b[i]) && CharEqualsIgnoreCase(a[i], p[i]);
    }
  }

  /** Payloads that differ only in letter case get the same category. */
  lemma {:induction false} ClassifyIgnoresCase(a: string, b: string)
    requires EqualsIgnoreCase(a, b)
    ensures ClassifyPayload(a) == ClassifyPayload(b)
  {
    assert EqualsIgnoreCase(b, a) by {
      forall i | 0 <= i < |b| ensures CharEqualsIgnoreCase(b[i], a[i]) {
        assert CharEqualsIgnoreCase(a[i], b[i]);
      }
    }
    forall p | p in ["http://", "https://", "WIFI:"]
      ensures StartsWithIgnoreCase(a, p) <==> StartsWithIgnoreCase(b, p)
    {
      if StartsWithIgnoreCase(a, p) { StartsWithIgnoreCaseTransfer(a, b, p); }
      if StartsWithIgnoreCase(b, p) { StartsWithIgnoreCaseTransfer(b, a, p); }
    }
  }

  // ----- the gate -----

  /** A result dialog shown with its payload and category. */
  datatype ResultDialog = ResultDialog(content: string, qrType: QrCodeType)

  datatype Gate = Gate(
    handled: bool,              // isQrCodeHandled
    processing: bool,           // isProcessing
    lastScanTime: int,          // lastScanTime
    dialogAdded: bool,          // a result dialog is on screen
    posted: seq<string>,        // handleQRCode runnables waiting on the main looper
    pendingResets: nat,         // 300 ms resets scheduled by dismissals, not yet run
    dialogs: seq<ResultDialog>, // every result dialog shown
    dismissals: nat,            // every dismissal of a result dialog
    upiLaunches: seq<string>,   // every UPI payment chooser opened
    forwardTimes: seq<int>,     // the clock readings at which a camera decode was forwarded
    vibrations: nat)            // every admission (vibratePhone)

  /** The fragment's fields as initialised: both flags false and no scan yet (`lastScanTime = 0`). */
  function InitialGate(): (g: Gate)
    ensures !g.handled && !g.processing && g.lastScanTime == 0
    ensures !g.dialogAdded && g.posted == [] && g.pendingResets == 0
    ensures g.dialogs == [] && g.upiLaunches == [] && g.forwardTimes == [] && g.vibrations == 0
  {
    Gate(false, false, 0, false, [], 0, [], 0, [], [], 0)
  }

  datatype Event =
    | Resume                             // onResume
    | Pause                              // onPause
    | DialogDismissed                    // the result dialog is dismissed; onDialogDismissed
    | DelayedReset                       // the reset posted 300 ms after a dismissal runs
    | CameraDecode(value: string, now: int) // the analyzer reports a payload at clock reading `now`
    | GalleryDecode(detection: Detection)   // the decoder's answer for a picked image
    | RunPosted(showThrows: bool)        // the oldest posted handler runs; `showThrows`: building or showing the dialog throws

  /** `handleQRCode`: compare-and-set the handled flag; on success vibrate and post the handler. */
  function HandleQrCodeStep(g: Gate, v: string): Gate {
    if g.handled then g
    else g.(handled := true, posted := g.posted + [v], vibrations := g.vibrations + 1)
  }

  /** The analyzer callback: forward only when not handled, not processing and past the cooldown. */
  function CameraDecodeStep(g: Gate, v: string, now: int): Gate {
    if !g.handled && !g.processing && now - g.lastScanTime >= ScanCooldownMs then
      HandleQrCodeStep(g.(lastScanTime := now, forwardTimes := g.forwardTimes + [now]), v)
    else g
  }

  /** The gallery path: the first barcode's raw value, if any, goes straight to `handleQRCode`. */
  function GalleryDecodeStep(g: Gate, d: Detection): Gate {
    var first := FirstRawValue(d);
    if first.Some? then HandleQrCodeStep(g, first.value) else g
  }

  /** The posted handler of `handleQRCode`, with `openUpiPayment`'s flag reset. */
  function RunPostedStep(g: Gate, showThrows: bool): Gate {
    if g.posted == [] then g
    else
      var v := g.posted[0];
      var g1 := g.(posted := g.posted[1..]);
      if g1.dialogAdded then g1.(handled := false)
      else if IsUpiPayload(v) then g1.(handled := false, upiLaunches := g1.upiLaunches + [v])
      else if showThrows then g1.(handled := false)
      else g1.(dialogAdded := true, dialogs := g1.dialogs + [ResultDialog(v, ClassifyPayload(v))])
  }

  function Step(g: Gate, e: Event): Gate {
    match e
    case Resume => g.(handled := false, processing := false)
    case Pause => g.(processing := true)
    case DialogDismissed =>
      if g.dialogAdded then
        g.(dialogAdded := false, dismissals := g.dismissals + 1, pendingResets := g.pendingResets + 1)
      else g
    case DelayedReset =>
      if g.pendingResets > 0 then g.(handled := false, pendingResets := g.pendingResets - 1) else g
    case CameraDecode(v, now) => CameraDecodeStep(g, v, now)
    case GalleryDecode(d) => GalleryDecodeStep(g, d)
    case RunPosted(showThrows) => RunPostedStep(g, showThrows)
  }

  function Run(g: Gate, es: seq<Event>): Gate
    decreases |es|
  {
    if es == [] then g else Run(Step(g, es[0]), es[1..])
  }

  // ----- one step at a time -----

  /**
   * `handleQRCode` admits at most once per reset: when the flag is already
   * set nothing happens; otherwise the flag is set, the payload is posted and
   * the phone vibrates, so a second call is a no-op.
   */
  lemma HandleQrCodeAdmitsOnce(g: Gate, v: string, w: string)
    ensures g.handled ==> HandleQrCodeStep(g, v) == g
    ensures !g.handled ==> HandleQrCodeStep(g, v).handled
                           && HandleQrCodeStep(g, v).posted == g.posted + [v]
                           && HandleQrCodeStep(g, v).vibrations == g.vibrations + 1
    ensures HandleQrCodeStep(HandleQrCodeStep(g, v), w) == HandleQrCodeStep(g, v)
  {
  }

  /**
   * A camera decode is forwarded exactly when the payload is not handled,
   * scanning is not paused and at least 500 ms have passed since the last
   * forwarded decode; only a forwarded decode moves `lastScanTime`.
   */
  lemma CameraDecodeGate(g: Gate, v: string, now: int)
    ensures var g' := Step(g, CameraDecode(v, now));
            (g'.vibrations == g.vibrations + 1 <==> !g.handled && !g.processing && now - g.lastScanTime >= 500)
    ensures var g' := Step(g, CameraDecode(v, now));
            g'.lastScanTime != g.lastScanTime ==> g'.lastScanTime == now && g'.forwardTimes == g.forwardTimes + [now]
    ensures var g' := Step(g, CameraDecode(v, now));
            !(!g.handled && !g.processing && now - g.lastScanTime >= 500) ==> g' == g
  {
  }

  /** Only a forwarded camera decode changes `lastScanTime`. */
  lemma OnlyForwardingMovesLastScanTime(g: Gate, e: Event)
    ensures Step(g, e).lastScanTime != g.lastScanTime ==>
              e.CameraDecode? && Step(g, e).lastScanTime == e.now && Step(g, e).vibrations == g.vibrations + 1
  {
  }

  /**
   * A gallery image skips the cooldown and the pause flag but passes the
   * same compare-and-set: its first raw value is admitted whenever the flag
   * is clear, even while scanning is paused, and the cooldown clock is untouched.
   */
  lemma GalleryBypassesCooldown(g: Gate, d: Detection)
    ensures Step(g, GalleryDecode(d)).lastScanTime == g.lastScanTime
    ensures Step(g, GalleryDecode(d)).processing == g.processing
    ensures FirstRawValue(d).Some? && !g.handled ==>
              Step(g, GalleryDecode(d)).posted == g.posted + [FirstRawValue(d).value]
    ensures FirstRawValue(d).None? || g.handled ==> Step(g, GalleryDecode(d)) == g
  {
  }

  /**
   * A UPI link is never classified or shown: its handler clears the flag and
   * opens the payment chooser instead (when no dialog is on screen).
   */
  lemma UpiBypassesDialog(g: Gate, showThrows: bool)
    requires g.posted != [] && IsUpiPayload(g.posted[0]) && !g.dialogAdded
    ensures var g' := Step(g, RunPosted(showThrows));
            !g'.handled && g'.dialogs == g.dialogs && !g'.dialogAdded
            && g'.upiLaunches == g.upiLaunches + [g.posted[0]]
  {
  }

  /**
   * When a result dialog is already on screen, or showing the new one throws,
   * the handler clears the flag and adds no dialog.
   */
  lemma BusyOrFailingDialogReleasesGate(g: Gate, showThrows: bool)
    requires g.posted != []
    requires g.dialogAdded || (showThrows && !IsUpiPayload(g.posted[0]))
    ensures var g' := Step(g, RunPosted(showThrows));
            !g'.handled && g'.dialogs == g.dialogs && g'.upiLaunches == g.upiLaunches
            && g'.dialogAdded == g.dialogAdded
  {
  }

  /**
   * Otherwise the handler shows one dialog for the payload with its category,
   * and the flag stays set.
   */
  lemma HandlerShowsDialog(g: Gate)
    requires g.posted != [] && !g.dialogAdded && !IsUpiPayload(g.posted[0])
    ensures var g' := Step(g, RunPosted(false));
            g'.handled == g.handled && g'.dialogAdded
            && g'.dialogs == g.dialogs + [ResultDialog(g.posted[0], ClassifyPayload(g.posted[0]))]
  {
  }

  /**
   * `onResume` clears both flags and `onPause` sets the pause flag; a
   * dismissal leaves the handled flag set and only schedules its reset, which
   * clears it when it runs.
   */
  lemma LifecycleAndDismissal(g: Gate)
    ensures !Step(g, Resume).handled && !Step(g, Resume).processing
    ensures Step(g, Pause).processing && Step(g, Pause).handled == g.handled
    ensures Step(g, DialogDismissed).handled == g.handled
    ensures g.dialogAdded ==> Step(g, DialogDismissed).pendingResets == g.pendingResets + 1
    ensures g.dialogAdded ==> !Step(Step(g, DialogDismissed), DelayedReset).handled
  {
  }

  // ----- over runs of events -----

  /** The events that can clear the handled flag. */
  predicate Reopens(e: Event) {
    e.Resume? || e.DelayedReset? || e.RunPosted?
  }

  /**
   * Between two resets at most one payload is admitted: over any run of
   * events none of which can clear the flag (pauses, dismissals, camera and
   * gallery decodes), the vibration count grows by at most one, by none when
   * the flag was set at the start, and the flag is set whenever it grew.
   */
  lemma {:induction false} AtMostOneAdmissionPerReset(g: Gate, es: seq<Event>)
    requires forall k :: 0 <= k < |es| ==> !Reopens(es[k])
    ensures Run(g, es).vibrations <= g.vibrations + (if g.handled then 0 else 1)
    ensures Run(g, es).vibrations > g.vibrations ==> Run(g, es).handled
    ensures g.handled ==> Run(g, es).handled
    decreases |es|
  {
    if es != [] {
      var g1 := Step(g, es[0]);
      assert !Reopens(es[0]);
      assert g.handled ==> g1.handled && g1.vibrations == g.vibrations;
      assert g1.vibrations > g.vibrations ==> g1.handled && g1.vibrations == g.vibrations + 1;
      assert g1.vibrations >= g.vibrations;
      AtMostOneAdmissionPerReset(g1, es[1..]);
    }
  }

  /** What every reachable gate satisfies. */
  predicate GateInv(g: Gate) {
    // dialogs are shown and dismissed one at a time
    && |g.dialogs| == g.dismissals + (if g.dialogAdded then 1 else 0)
    // a UPI link never reaches a dialog, and every dialog has its payload's category
    && (forall k :: 0 <= k < |g.dialogs| ==>
          !IsUpiPayload(g.dialogs[k].content) && g.dialogs[k].qrType == ClassifyPayload(g.dialogs[k].content))
    && (forall k :: 0 <= k < |g.upiLaunches| ==> IsUpiPayload(g.upiLaunches[k]))
    // forwarded camera decodes are at least the cooldown apart, the first one counted from time 0
    && (forall k :: 0 < k < |g.forwardTimes| ==> g.forwardTimes[k] - g.forwardTimes[k - 1] >= ScanCooldownMs)
    && (|g.forwardTimes| > 0 ==>
          g.forwardTimes[0] >= ScanCooldownMs && g.forwardTimes[|g.forwardTimes| - 1] == g.lastScanTime)
    && (|g.forwardTimes| == 0 ==> g.lastScanTime == 0)
  }

  lemma InitialGateInv()
    ensures GateInv(InitialGate())
  {
  }

  lemma {:induction false} StepPreservesGateInv(g: Gate, e: Event)
    requires GateInv(g)
    ensures GateInv(Step(g, e))
  {
    match e
    case CameraDecode(v, now) =>
      var g' := Step(g, e);
      if g'.forwardTimes != g.forwardTimes {
        var n := |g.forwardTimes|;
        assert g'.forwardTimes == g.forwardTimes + [now];
        assert n > 0 ==> now - g.forwardTimes[n - 1] >= ScanCooldownMs;
        assert n == 0 ==> now >= ScanCooldownMs;
        forall k | 0 < k < |g'.forwardTimes| ensures g'.forwardTimes[k] - g'.forwardTimes[k - 1] >= ScanCooldownMs {
          if k < n {
            assert g'.forwardTimes[k] == g.forwardTimes[k] && g'.forwardTimes[k - 1] == g.forwardTimes[k - 1];
          }
        }
      }
    case RunPosted(showThrows) =>
      var g' := Step(g, e);
      if g.posted != [] && g'.dialogs != g.dialogs {
        assert g'.dialogs == g.dialogs + [ResultDialog(g.posted[0], ClassifyPayload(g.posted[0]))];
      }
    case _ =>
  }

  /**
   * Every gate reached from the initial one keeps the invariant: dialogs
   * are balanced by dismissals, no dialog holds a UPI link and each has its
   * payload's category, every UPI launch is a UPI link, and forwarded camera
   * decodes are spaced by the cooldown.
   */
  lemma {:induction false} RunPreservesGateInv(g: Gate, es: seq<Event>)
    requires GateInv(g)
    ensures GateInv(Run(g, es))
    decreases |es|
  {
    if es != [] {
      StepPreservesGateInv(g, es[0]);
      RunPreservesGateInv(Step(g, es[0]), es[1..]);
    }
  }

  /** Consecutive forwarded camera decodes of any reachable gate are at least 500 ms apart. */
  lemma ForwardedDecodesRespectCooldown(es: seq<Event>, k: int)
    requires 0 < k < |Run(InitialGate(), es).forwardTimes|
    ensures Run(InitialGate(), es).forwardTimes[k] - Run(InitialGate(), es).forwardTimes[k - 1] >= 500
  {
    InitialGateInv();
    RunPreservesGateInv(InitialGate(), es);
  }

  // ----- the fragment -----

  /** The fragment's scanning state, with the main looper and dialog host it drives. */
  class ScanGate {
    var isQrCodeHandled: bool
    var isProcessing: bool
    var lastScanTime: int
    var dialogAdded: bool
    var posted: seq<string>
    var pendingResets: nat
    var dialogs: seq<ResultDialog>
    var dismissals: nat
    var upiLaunches: seq<string>
    var forwardTimes: seq<int>
    var vibrations: nat

    function State(): Gate
      reads this
    {
      Gate(isQrCodeHandled, isProcessing, lastScanTime, dialogAdded, posted, pendingResets,
           dialogs, dismissals, upiLaunches, forwardTimes, vibrations)
    }

    constructor()
      ensures State() == InitialGate()
    {
      isQrCodeHandled := false;
      isProcessing := false;
      lastScanTime := 0;
      dialogAdded := false;
      posted := [];
      pendingResets := 0;
      dialogs := [];
      dismissals := 0;
      upiLaunches := [];
      forwardTimes := [];
      vibrations := 0;
    }

    method OnResume()
      modifies this
      ensures State() == Step(old(State()), Resume)
      ensures !isQrCodeHandled && !isProcessing
    {
      isQrCodeHandled := false;
      isProcessing := false;
    }

    method OnPause()
      modifies this
      ensures State() == Step(old(State()), Pause)
      ensures isProcessing
    {
      isProcessing := true;
    }

    /** `onDialogDismissed`, run as the dialog goes away: only schedules the reset. */
    method OnDialogDismissed()
      modifies this
      ensures State() == Step(old(State()), DialogDismissed)
      ensures isQrCodeHandled == old(isQrCodeHandled)
    {
      if dialogAdded {
        dialogAdded := false;
        dismissals := dismissals + 1;
        pendingResets := pendingResets + 1;
      }
    }

    /** The reset posted by `onDialogDismissed`, run 300 ms later. */
    method RunDelayedReset()
      modifies this
      ensures State() == Step(old(State()), DelayedReset)
      ensures old(pendingResets) > 0 ==> !isQrCodeHandled
    {
      if pendingResets > 0 {
        isQrCodeHandled := false;
        pendingResets := pendingResets - 1;
      }
    }

    /** `handleQRCode` up to the post: the compare-and-set, the vibration and the post. */
    method HandleQrCode(qrValue: string)
      modifies this
      ensures State() == HandleQrCodeStep(old(State()), qrValue)
      ensures isQrCodeHandled
    {
      if !isQrCodeHandled {
        isQrCodeHandled := true;
        vibrations := vibrations + 1;
        posted := posted + [qrValue];
      }
    }

    /** The analyzer callback installed in `startCamera`, with the clock reading it takes. */
    method OnCameraDecode(qrValue: string, currentTime: int)
      modifies this
      ensures State() == Step(old(State()), CameraDecode(qrValue, currentTime))
    {
      if !isQrCodeHandled && !isProcessing && currentTime - lastScanTime >= ScanCooldownMs {
        lastScanTime := currentTime;
        forwardTimes := forwardTimes + [currentTime];
        HandleQrCode(qrValue);
      }
    }

    /** The success listener of `processImageFromGallery`. */
    method OnGalleryDecode(detection: Detection)
      modifies this
      ensures State() == Step(old(State()), GalleryDecode(detection))
    {
      if detection.Detected? && |detection.rawValues| > 0 {
        var first := detection.rawValues[0];
        if first.Some? {
          HandleQrCode(first.value);
        }
      }
    }

    /** The oldest posted handler of `handleQRCode` runs on the main thread. */
    method RunPostedHandler(showThrows: bool)
      modifies this
      ensures State() == Step(old(State()), RunPosted(showThrows))
    {
      if posted != [] {
        var qrValue := posted[0];
        posted := posted[1..];
        if dialogAdded {
          isQrCodeHandled := false;
        } else if IsUpiPayload(qrValue) {
          // openUpiPayment resets the flag before launching the chooser
          isQrCodeHandled := false;
          upiLaunches := upiLaunches + [qrValue];
        } else {
          var qrType := ClassifyPayload(qrValue);
          if showThrows {
            isQrCodeHandled := false;
          } else {
            dialogAdded := true;
            dialogs := dialogs + [ResultDialog(qrValue, qrType)];
          }
        }
      }
    }
  }
}
