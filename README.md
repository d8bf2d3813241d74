# QuickQR scanning core, modelled in Dafny

QuickQR is an Android QR-code scanner. This project models the app's own
sequential logic underneath the camera, decoder, database and UI libraries,
and proves properties about it:

- **Home screen admission gate** (`HomeFragment`). The fields
  `isQrCodeHandled`, `isProcessing` and `lastScanTime`, the 500 ms cooldown,
  the compare-and-set in `handleQRCode`, the posted handler that shows the
  result dialog, the `upi://` bypass, the 300 ms delayed reset after a
  dismissal, and the gallery path. There is a pure state `HomeFragment.Gate`,
  a step function over events and a class `HomeFragment.ScanGate` whose
  methods update the fields. The URL / WIFI / TEXT prefix classifier is a
  pure function.
- **Frame gates.** The `isScanning` latch of the home screen's analyzer
  (`QrCodeAnalyzer`). The `getAndSet` busy flag, torch toggle and lens
  switch of the reusable camera controller (`CameraManager`). Module
  `ScanSession` composes the latch with the admission gate.
- **Payload text.**
  - `SquareResultDialog`: Wi-Fi payload parsing (`substringAfter` /
    `substringBefore` / `trim`), the `openUrl` action choice and `https://`
    rule, the dialog title, and the Wi-Fi connect plan.
  - `QrCodeProcessor`: the string each barcode type is turned into. This
    includes the `WIFI:`, `mailto:`, `tel:` and `smsto:` payloads and the
    line-per-field summaries.
- **View models.** The scan screen's 2000 ms repeat throttle and its
  Idle / Processing / Success / Error states (`ScanViewModel`). The home
  screen's Initial / Loading / Success / Error states (`HomeViewModel`).
- **Utilities.** Relative-time bucketing (`DateTimeUtils`). File extension,
  file-name fallback, external-storage document paths and storage-state
  checks (`FileUtils`). The required-permission list and its queries
  (`PermissionManager`).

Kotlin's string functions are modelled once in `KotlinText`, with Kotlin's
semantics:

- `substringAfter` and `substringBefore` return the whole string when the
  delimiter is missing.
- `trim` uses Kotlin's whitespace set.
- `ignoreCase` comparison uses per-character case folding.

Platform behaviour enters as parameters:

- The email and phone patterns, and the permission grant check.
- The date formatter.
- Clock readings, generated ids, decoder results and thrown exceptions.

Threads, handlers and coroutines become sequences of atomic events.

Each stateful source class is modelled in two parts:

- A pure state datatype with a `Step` function over events, and a `Run`
  function over event sequences. The invariants and trace properties are
  proved on these.
- A Dafny class with the source's fields. Each method is proved to change
  the fields exactly as `Step` does.

The `parseWifiData` / `parseWifiSsid` try/catch is never taken, because
Kotlin's `substringAfter`, `substringBefore` and `trim` do not throw. The
model therefore has no exception path there.

## Model

| member | source | states |
|---|---|---|
| QrModel.NewQrData | app/src/main/java/com/example/quickqr/data/model/QrData.kt:9-15 | a new history record carries the given id, content, type and timestamp and is never a favourite |
| QrModel.FirstRawValue | app/src/main/java/com/example/quickqr/Fragment/QRCodeAnalyzer.kt:39 | the first barcode's raw value is present exactly when the detection succeeded, is non-empty and its first value is non-null |
| HomeFragment.ClassifyPayload | app/src/main/java/com/example/quickqr/Fragment/HomeFragment.kt:265-270 | total and ordered: URL iff an `http://`/`https://` prefix ignoring case, WIFI iff not that and a `WIFI:` prefix ignoring case, TEXT otherwise |
| HomeFragment.ClassifyIgnoresCase | app/src/main/java/com/example/quickqr/Fragment/HomeFragment.kt:265-270 | two payloads equal up to letter case get the same category |
| HomeFragment.InitialGate | app/src/main/java/com/example/quickqr/Fragment/HomeFragment.kt:51-60 | both flags start false and no scan has happened (`lastScanTime` 0) |
| HomeFragment.HandleQrCodeAdmitsOnce | app/src/main/java/com/example/quickqr/Fragment/HomeFragment.kt:241-250 | when the flag is already set a call changes nothing; otherwise it sets the flag, vibrates once and posts the payload; a second call is a no-op |
| HomeFragment.CameraDecodeGate | app/src/main/java/com/example/quickqr/Fragment/HomeFragment.kt:212-219 | a camera decode is admitted iff not handled, not processing and at least 500 ms after `lastScanTime`; otherwise nothing changes; `lastScanTime` moves only to the forwarded decode's time |
| HomeFragment.OnlyForwardingMovesLastScanTime | app/src/main/java/com/example/quickqr/Fragment/HomeFragment.kt:214-218 | no event except a forwarded camera decode changes `lastScanTime` |
| HomeFragment.GalleryBypassesCooldown | app/src/main/java/com/example/quickqr/Fragment/HomeFragment.kt:283-291 | a gallery decode ignores the cooldown and the processing flag but still goes through the compare-and-set |
| HomeFragment.UpiBypassesDialog | app/src/main/java/com/example/quickqr/Fragment/HomeFragment.kt:258-262 | a `upi://` payload (case-sensitive) opens the payment chooser, shows no dialog and clears the flag |
| HomeFragment.BusyOrFailingDialogReleasesGate | app/src/main/java/com/example/quickqr/Fragment/HomeFragment.kt:251-256 | with a dialog already shown, or when showing one throws, the flag is cleared and no dialog is added |
| HomeFragment.HandlerShowsDialog | app/src/main/java/com/example/quickqr/Fragment/HomeFragment.kt:264-275 | otherwise exactly one dialog is shown, with the payload and its category |
| HomeFragment.LifecycleAndDismissal | app/src/main/java/com/example/quickqr/Fragment/HomeFragment.kt:110-137 | resume clears both flags, pause sets processing, a dismissal leaves the flag set and only the delayed reset clears it |
| HomeFragment.AtMostOneAdmissionPerReset | app/src/main/java/com/example/quickqr/Fragment/HomeFragment.kt:241-245 | over any run without resume, delayed reset or posted handler, at most one payload is admitted, and none if the flag was set |
| HomeFragment.StepPreservesGateInv | app/src/main/java/com/example/quickqr/Fragment/HomeFragment.kt:212-279 | every event keeps the invariant: one dialog per shown-and-not-dismissed result, dialogs never show UPI payloads and carry their classifier category, forwarded decodes 500 ms apart |
| HomeFragment.RunPreservesGateInv | app/src/main/java/com/example/quickqr/Fragment/HomeFragment.kt:212-279 | the invariant holds after any sequence of events |
| HomeFragment.ForwardedDecodesRespectCooldown | app/src/main/java/com/example/quickqr/Fragment/HomeFragment.kt:215-217 | from the initial state, consecutive forwarded camera decodes are at least 500 ms apart |
| HomeFragment.ScanGate.OnResume | app/src/main/java/com/example/quickqr/Fragment/HomeFragment.kt:110-115 | clears both flags, as the resume step |
| HomeFragment.ScanGate.OnPause | app/src/main/java/com/example/quickqr/Fragment/HomeFragment.kt:117-121 | sets processing, as the pause step |
| HomeFragment.ScanGate.OnDialogDismissed | app/src/main/java/com/example/quickqr/Fragment/HomeFragment.kt:132-137 | schedules the delayed reset and leaves the flag set |
| HomeFragment.ScanGate.RunDelayedReset | app/src/main/java/com/example/quickqr/Fragment/HomeFragment.kt:134-136 | a scheduled reset clears the flag |
| HomeFragment.ScanGate.HandleQrCode | app/src/main/java/com/example/quickqr/Fragment/HomeFragment.kt:241-250 | the compare-and-set admission; the flag is set afterwards |
| HomeFragment.ScanGate.OnCameraDecode | app/src/main/java/com/example/quickqr/Fragment/HomeFragment.kt:212-219 | the analyzer callback's cooldown gate, as the camera-decode step |
| HomeFragment.ScanGate.OnGalleryDecode | app/src/main/java/com/example/quickqr/Fragment/HomeFragment.kt:287-291 | the gallery success listener, as the gallery step |
| HomeFragment.ScanGate.RunPostedHandler | app/src/main/java/com/example/quickqr/Fragment/HomeFragment.kt:250-280 | the posted handler with the UPI reset at line 308, as the handler step |
| QrCodeAnalyzer.NewAnalyzer | app/src/main/java/com/example/quickqr/Fragment/QRCodeAnalyzer.kt:16 | a new analyzer scans, with nothing pending, closed or reported |
| QrCodeAnalyzer.NotScanningClosesFrame | app/src/main/java/com/example/quickqr/Fragment/QRCodeAnalyzer.kt:26-29 | while the latch is clear every frame is closed at once and nothing else changes |
| QrCodeAnalyzer.FrameWithoutImageIsLeft | app/src/main/java/com/example/quickqr/Fragment/QRCodeAnalyzer.kt:31-43 | a frame without an image is neither decoded, reported nor closed |
| QrCodeAnalyzer.DecodeOutcome | app/src/main/java/com/example/quickqr/Fragment/QRCodeAnalyzer.kt:34-42 | a non-empty detection clears the latch and reports once (the first raw value if non-null); an empty or failed one leaves the latch and reports nothing; the frame is closed either way |
| QrCodeAnalyzer.OnlyStartScanningReopens | app/src/main/java/com/example/quickqr/Fragment/QRCodeAnalyzer.kt:47-49 | only `startScanning` sets the latch again |
| QrCodeAnalyzer.AtMostOneReportWithoutRestart | app/src/main/java/com/example/quickqr/Fragment/QRCodeAnalyzer.kt:35-40 | fed one frame at a time and never restarted, the analyzer reports at most once more, and not at all once its latch is clear |
| QrCodeAnalyzer.NewAnalyzerReportsAtMostOnce | app/src/main/java/com/example/quickqr/Fragment/QRCodeAnalyzer.kt:16-49 | a new analyzer reports at most one value without a restart |
| QrCodeAnalyzer.OverlappingFramesReportTwice | app/src/main/java/com/example/quickqr/Fragment/QRCodeAnalyzer.kt:34-40 | two frames decoded at once both report, so the latch alone does not make the report unique |
| QrCodeAnalyzer.FrameAnalyzer.Analyze | app/src/main/java/com/example/quickqr/Fragment/QRCodeAnalyzer.kt:24-44 | `analyze`, as the frame step |
| QrCodeAnalyzer.FrameAnalyzer.OnDecodeDone | app/src/main/java/com/example/quickqr/Fragment/QRCodeAnalyzer.kt:35-42 | the success and complete listeners, as the decode step; the frame is closed |
| QrCodeAnalyzer.FrameAnalyzer.StartScanning | app/src/main/java/com/example/quickqr/Fragment/QRCodeAnalyzer.kt:47-49 | sets the latch |
| ScanSession.AsWrittenCameraStaysQuiet | app/src/main/java/com/example/quickqr/Fragment/HomeFragment.kt:212-219 | with the analyzer created inline and its latch clear, no camera decode ever reaches the gate again |
| ScanSession.AsWrittenSecondCodeIgnored | app/src/main/java/com/example/quickqr/Fragment/HomeFragment.kt:212-219 | dismissing, waiting for the reset and showing a new code forwards nothing |
| ScanSession.CorrectedSecondCodeForwarded | app/src/main/java/com/example/quickqr/Fragment/QRCodeAnalyzer.kt:46-49 | with `startScanning` called when the gate reopens, a new code past the cooldown is forwarded and admitted |
| ScanSession.FirstScanShowsDialog | app/src/main/java/com/example/quickqr/Fragment/HomeFragment.kt:212-275 | a first camera scan shows its dialog and clears the latch, in both compositions |
| ScanSession.SecondCodeAfterFirstResult | app/src/main/java/com/example/quickqr/Fragment/HomeFragment.kt:212-219 | after a first result, a second code two seconds later is ignored as written and forwarded with the correction |
| CameraManager.NewCam | app/src/main/java/com/example/quickqr/util/CameraManager.kt:34-36 | starts with the back lens, flash off and not processing |
| CameraManager.FrameGate | app/src/main/java/com/example/quickqr/util/CameraManager.kt:80-85 | a frame is decoded only if the manager was idle, and the same step marks it busy; otherwise it is closed undecoded |
| CameraManager.DecodeCompletion | app/src/main/java/com/example/quickqr/util/CameraManager.kt:118-127 | completion closes the frame, releases the flag and reports the first raw value only when one is present |
| CameraManager.RunKeepsFramesAccounted | app/src/main/java/com/example/quickqr/util/CameraManager.kt:80-131 | every frame received is closed except at most the one being decoded |
| CameraManager.ToggleFlashResult | app/src/main/java/com/example/quickqr/util/CameraManager.kt:134-142 | returns true exactly when the torch was not read as on |
| CameraManager.ToggleFlashMatchesMode | app/src/main/java/com/example/quickqr/util/CameraManager.kt:134-147 | with no camera yet the torch reads as off, so the flash is turned on and no torch request is made; a bound camera gets a torch request matching the new mode |
| CameraManager.SwitchCameraStep | app/src/main/java/com/example/quickqr/util/CameraManager.kt:149-163 | the corrected switch: flips the lens, and a bound camera ends up bound to the new lens |
| CameraManager.SwitchTwiceRestores | app/src/main/java/com/example/quickqr/util/CameraManager.kt:149-163 | as written, two switches restore the lens, but a bound camera is left with no use cases and two exceptions thrown; an unbound manager is fully restored |
| CameraManager.CorrectedSwitchTwiceRestores | app/src/main/java/com/example/quickqr/util/CameraManager.kt:150-162 | with the corrected switch, two switches restore the whole state |
| CameraManager.SwitchAsWrittenUnbinds | app/src/main/java/com/example/quickqr/util/CameraManager.kt:156-161 | as written, switching a bound camera unbinds every use case and throws once |
| CameraManager.StepKeepsNoStaleBinding | app/src/main/java/com/example/quickqr/util/CameraManager.kt:98-163 | as written, use cases are bound only after the first binding and only to the current lens, though a switch can leave none |
| CameraManager.CorrectedStepKeepsBindingCurrent | app/src/main/java/com/example/quickqr/util/CameraManager.kt:149-163 | with the corrected switch, a bound camera always uses the current lens |
| CameraManager.CameraController.OnFrame | app/src/main/java/com/example/quickqr/util/CameraManager.kt:80-85 | the analyzer lambda, as the frame step |
| CameraManager.CameraController.ProcessImageProxy | app/src/main/java/com/example/quickqr/util/CameraManager.kt:110-132 | a frame without an image is closed and the flag released at once |
| CameraManager.CameraController.OnDecodeComplete | app/src/main/java/com/example/quickqr/util/CameraManager.kt:119-127 | the success and complete listeners, as the completion step |
| CameraManager.CameraController.SetFlashMode | app/src/main/java/com/example/quickqr/util/CameraManager.kt:144-147 | records the mode and requests the torch from a bound camera |
| CameraManager.CameraController.ToggleFlash | app/src/main/java/com/example/quickqr/util/CameraManager.kt:134-142 | returns true iff there is no camera or its torch was off; the flash mode matches the result |
| CameraManager.CameraController.SwitchCamera | app/src/main/java/com/example/quickqr/util/CameraManager.kt:149-163 | flips the lens; a bound camera has its use cases unbound and the exception is counted, as the as-written step |
| SquareResultDialog.WifiField | app/src/main/java/com/example/quickqr/Fragment/SquareResultDialogFragment.kt:291-294 | a field has no `;` and no surrounding whitespace; with its marker missing it is the payload's trimmed prefix before its first `;` |
| SquareResultDialog.ParseWifiData | app/src/main/java/com/example/quickqr/Fragment/SquareResultDialogFragment.kt:288-297 | the three text fields contain no `;` and are trimmed; hidden iff the `H:` field equals "true" ignoring case |
| SquareResultDialog.ParseWifiSsid | app/src/main/java/com/example/quickqr/Fragment/SquareResultDialogFragment.kt:273-279 | computes the same ssid as `parseWifiData` |
| SquareResultDialog.FieldAt | app/src/main/java/com/example/quickqr/Fragment/SquareResultDialogFragment.kt:291-294 | a field reads back the trimmed text between the first occurrence of its marker and the next `;`, so a value without surrounding whitespace reads back unchanged |
| SquareResultDialog.WifiPayloadRoundTrip | app/src/main/java/com/example/quickqr/Fragment/SquareResultDialogFragment.kt:290-297 | parsing a `WIFI:S:…;T:…;P:…;H:…;;` payload recovers its fields when no field contains `;` or a later marker and none has surrounding whitespace |
| SquareResultDialog.DocumentedWifiPayload | app/src/main/java/com/example/quickqr/Fragment/SquareResultDialogFragment.kt:290 | the payload builder produces `WIFI:S:MyNet;T:WPA;P:secret;H:false;;` |
| SquareResultDialog.DocumentedWifiExample | app/src/main/java/com/example/quickqr/Fragment/SquareResultDialogFragment.kt:290-297 | that payload parses to (MyNet, WPA, secret, false) |
| SquareResultDialog.MissingMarkerReadsPrefix | app/src/main/java/com/example/quickqr/Fragment/SquareResultDialogFragment.kt:291-294 | a missing marker yields the payload's text before its first `;`, not "" |
| SquareResultDialog.WifiDisplayText | app/src/main/java/com/example/quickqr/Fragment/SquareResultDialogFragment.kt:110-115 | shows "Network: " and the ssid when the ssid is non-empty, else the payload |
| SquareResultDialog.WebTargetAsWritten | app/src/main/java/com/example/quickqr/Fragment/SquareResultDialogFragment.kt:192-196 | the target always starts with `http://` or `https://`; content with one of them is kept, anything else gets `https://` |
| SquareResultDialog.WebTargetAsWrittenIdempotent | app/src/main/java/com/example/quickqr/Fragment/SquareResultDialogFragment.kt:192-196 | applying the rule twice changes nothing |
| SquareResultDialog.UpperCaseSchemeGetsSecondScheme | app/src/main/java/com/example/quickqr/Fragment/SquareResultDialogFragment.kt:192-196 | `HTTP://a.b`, a URL for the classifier, is opened as `https://HTTP://a.b` |
| SquareResultDialog.WebTarget | app/src/main/java/com/example/quickqr/Fragment/SquareResultDialogFragment.kt:192-196 | the corrected rule: a web scheme in any letter case is kept, anything else gets `https://` |
| SquareResultDialog.WebTargetAgreesOnLowerCase | app/src/main/java/com/example/quickqr/Fragment/SquareResultDialogFragment.kt:192-196 | the corrected rule is idempotent and agrees with the written one except on upper-case schemes |
| SquareResultDialog.OpenUrlIntent | app/src/main/java/com/example/quickqr/Fragment/SquareResultDialogFragment.kt:177-199 | email (checked first) gives `mailto:`, else phone gives `tel:`, else a web address: the content itself when it starts with `http://` or `https://` (case-sensitive), otherwise `https://` and the content |
| SquareResultDialog.CorrectedOpenUrlIntent | app/src/main/java/com/example/quickqr/Fragment/SquareResultDialogFragment.kt:177-199 | the corrected action opens the case-insensitive web target and agrees with the written one except for a scheme not in lower case |
| SquareResultDialog.TextDialogTitle | app/src/main/java/com/example/quickqr/Fragment/SquareResultDialogFragment.kt:121-142 | the text dialog's title is one of the three titles |
| SquareResultDialog.DialogTitle | app/src/main/java/com/example/quickqr/Fragment/SquareResultDialogFragment.kt:52-56 | URL gives "Website Link", WIFI gives "Wi-Fi Network", TEXT gives the text title |
| SquareResultDialog.TitleAgreesWithOpenAction | app/src/main/java/com/example/quickqr/Fragment/SquareResultDialogFragment.kt:128-141 | the title and the open action follow the same email-before-phone order |
| SquareResultDialog.ConnectToWifi | app/src/main/java/com/example/quickqr/Fragment/SquareResultDialogFragment.kt:213-239 | before Android 10 the payload is copied; an empty ssid is rejected; a passphrase is set iff the upper-cased security is WPA, WPA2 or WEP and the password is non-empty |
| QrCodeProcessor.WifiType | app/src/main/java/com/example/quickqr/util/QrCodeProcessor.kt:100-107 | total: open and unlisted give "nopass", the others their own names |
| QrCodeProcessor.WifiText | app/src/main/java/com/example/quickqr/util/QrCodeProcessor.kt:23-28 | `WIFI:S:<ssid>;T:<type>;P:<password>;;` with missing parts as "" |
| QrCodeProcessor.SerialisedWifiIsNotHidden | app/src/main/java/com/example/quickqr/util/QrCodeProcessor.kt:27 | a serialised Wi-Fi payload parses as not hidden |
| QrCodeProcessor.WifiParts | app/src/main/java/com/example/quickqr/util/QrCodeProcessor.kt:23-28 | the parts a Wi-Fi payload is built from: missing name or password as "", and a missing Wi-Fi value as "", "nopass", "" |
| QrCodeProcessor.WifiRoundTrip | app/src/main/java/com/example/quickqr/util/QrCodeProcessor.kt:23-28 | parsing the serialised payload recovers ssid, type name and password (absent parts as "" or "nopass"), with hidden false, under the stated side conditions |
| QrCodeProcessor.EmailParts | app/src/main/java/com/example/quickqr/util/QrCodeProcessor.kt:40-46 | address, subject and body of an email barcode, each "" when absent, all "" when the email is absent |
| QrCodeProcessor.MailtoText | app/src/main/java/com/example/quickqr/util/QrCodeProcessor.kt:40-46 | `mailto:<address>?subject=<subject>&body=<body>` with absent parts as "", so `mailto:?subject=&body=` for an absent email |
| QrCodeProcessor.MailtoRoundTrip | app/src/main/java/com/example/quickqr/util/QrCodeProcessor.kt:44 | address, subject and body, absent ones as "", are read back when the address has no `?` or `&` and the subject no `&` |
| QrCodeProcessor.MailtoNotInjective | app/src/main/java/com/example/quickqr/util/QrCodeProcessor.kt:44 | without percent-encoding two different emails give the same payload |
| QrCodeProcessor.TelText | app/src/main/java/com/example/quickqr/util/QrCodeProcessor.kt:47-50 | `tel:` followed by the number, or "" |
| QrCodeProcessor.SmsParts | app/src/main/java/com/example/quickqr/util/QrCodeProcessor.kt:51-55 | number and message of an SMS barcode, each "" when absent |
| QrCodeProcessor.SmsText | app/src/main/java/com/example/quickqr/util/QrCodeProcessor.kt:51-55 | `smsto:<number>:<message>` with absent parts as "", so `smsto::` for an absent SMS |
| QrCodeProcessor.SmstoRoundTrip | app/src/main/java/com/example/quickqr/util/QrCodeProcessor.kt:54 | number and message, absent ones as "", are read back when the number has no `:` |
| QrCodeProcessor.SummaryLines | app/src/main/java/com/example/quickqr/util/QrCodeProcessor.kt:32-37 | a summary is exactly one newline-terminated `Label: value` line per present field, in order |
| QrCodeProcessor.ContactSummaryLines | app/src/main/java/com/example/quickqr/util/QrCodeProcessor.kt:30-38 | the contact summary lists name, organisation, first email and first phone, each when present |
| QrCodeProcessor.CalendarSummaryLines | app/src/main/java/com/example/quickqr/util/QrCodeProcessor.kt:61-70 | the calendar summary lists event, description, location, start and end, each when present |
| QrCodeProcessor.LicenseSummaryLines | app/src/main/java/com/example/quickqr/util/QrCodeProcessor.kt:72-88 | the licence summary lists one line per present licence field, in the order of the fields |
| QrCodeProcessor.ProcessBarcode | app/src/main/java/com/example/quickqr/util/QrCodeProcessor.kt:15-98 | each value type gives its own text (URL, Wi-Fi payload, `mailto:`, `tel:`, `smsto:`, or the contact, calendar or licence summary) and category; any other type gives (raw value or "", TEXT); an exception gives Error(message or "Unknown error processing QR code") |
| QrCodeProcessor.ProcessedWifiReadsBack | app/src/main/java/com/example/quickqr/util/QrCodeProcessor.kt:23-29 | the dialog reads a processed Wi-Fi barcode back as its parts, not hidden |
| QrCodeProcessor.ProcessedEmailReadsBack | app/src/main/java/com/example/quickqr/util/QrCodeProcessor.kt:40-46 | a processed email barcode reads back as its parts |
| QrCodeProcessor.ProcessedPhoneReadsBack | app/src/main/java/com/example/quickqr/util/QrCodeProcessor.kt:47-50 | a processed phone barcode reads back as its number, or "" |
| QrCodeProcessor.ProcessedSmsReadsBack | app/src/main/java/com/example/quickqr/util/QrCodeProcessor.kt:51-55 | a processed SMS barcode reads back as its parts |
| ScanViewModel.NullRawValueIgnored | app/src/main/java/com/example/quickqr/ui/scan/ScanViewModel.kt:33 | a barcode without a raw value changes nothing |
| ScanViewModel.AdmittedIff | app/src/main/java/com/example/quickqr/ui/scan/ScanViewModel.kt:33-39 | a call changes state iff the raw value is present and not a repeat of the last one within 2000 ms; a different value is never throttled |
| ScanViewModel.AdmittedScanOutcome | app/src/main/java/com/example/quickqr/ui/scan/ScanViewModel.kt:41-67 | an admitted scan records (value, time) first, shows Processing, then inserts exactly one record and shows Success with its content, type and timestamp, or shows Error and inserts nothing |
| ScanViewModel.RepeatWithinWindowIgnored | app/src/main/java/com/example/quickqr/ui/scan/ScanViewModel.kt:36-42 | after admitting a value, the same value less than 2000 ms later is ignored, whatever the first outcome |
| ScanViewModel.ResetKeepsThrottle | app/src/main/java/com/example/quickqr/ui/scan/ScanViewModel.kt:71-73 | `resetState` gives Idle and keeps the throttle fields |
| ScanViewModel.RunKeepsConsistent | app/src/main/java/com/example/quickqr/ui/scan/ScanViewModel.kt:44-73 | over any calls the state is the last value assigned and a Success state shows the latest saved record |
| ScanViewModel.ScanModel.ProcessBarcode | app/src/main/java/com/example/quickqr/ui/scan/ScanViewModel.kt:31-69 | `processBarcode`, as the scan step |
| ScanViewModel.ScanModel.ResetState | app/src/main/java/com/example/quickqr/ui/scan/ScanViewModel.kt:71-73 | `resetState`, as the reset step |
| HomeViewModel.NewHomeVm | app/src/main/java/com/example/quickqr/ui/home/HomeViewModel.kt:20 | the state starts as Initial |
| HomeViewModel.ProcessScannedContentOutcome | app/src/main/java/com/example/quickqr/ui/home/HomeViewModel.kt:23-37 | Loading first; a successful insert stores one record with the given content and type and shows that very record; a failure stores nothing and shows the message or "Unknown error occurred" |
| HomeViewModel.ResetReturnsToInitial | app/src/main/java/com/example/quickqr/ui/home/HomeViewModel.kt:39-41 | `resetState` gives Initial |
| HomeViewModel.RunKeepsConsistent | app/src/main/java/com/example/quickqr/ui/home/HomeViewModel.kt:23-41 | a Success state always holds the most recently stored record |
| HomeViewModel.HomeModel.ProcessScannedContent | app/src/main/java/com/example/quickqr/ui/home/HomeViewModel.kt:23-37 | `processScannedContent`, as the step |
| HomeViewModel.HomeModel.ResetState | app/src/main/java/com/example/quickqr/ui/home/HomeViewModel.kt:39-41 | `resetState`, as the reset step |
| DateTimeUtils.Bucket | app/src/main/java/com/example/quickqr/util/DateTimeUtils.kt:44-50 | exactly one bucket applies per elapsed time; its count n satisfies n·unit ≤ diff < (n+1)·unit, in 1..59 minutes, 1..23 hours or 1..6 days |
| DateTimeUtils.RelativeTimeSpan | app/src/main/java/com/example/quickqr/util/DateTimeUtils.kt:40-51 | under a minute (negative included) gives "Just now", a week or more the formatted date, otherwise "<n>m/h/d ago" with n in range |
| DateTimeUtils.BucketMonotone | app/src/main/java/com/example/quickqr/util/DateTimeUtils.kt:44-50 | a longer elapsed time never gets a finer bucket or a smaller count within a bucket |
| DateTimeUtils.TextDeterminesSpan | app/src/main/java/com/example/quickqr/util/DateTimeUtils.kt:45-48 | below a week, the text determines the bucket and count |
| FileUtils.FileExtension | app/src/main/java/com/example/quickqr/util/FileUtils.kt:250-254 | "" when the name has no dot; otherwise the text after the last dot, which has no dot |
| FileUtils.ExtensionOfJoinedName | app/src/main/java/com/example/quickqr/util/FileUtils.kt:250-254 | `base.ext` has extension `ext` whenever `ext` has no dot |
| FileUtils.TrailingDotEmptyExtension | app/src/main/java/com/example/quickqr/util/FileUtils.kt:252-253 | a trailing dot gives the empty extension |
| FileUtils.LastSegment | app/src/main/java/com/example/quickqr/util/FileUtils.kt:168-174 | the fallback is null iff the path is; it is the text after the last `/`, or the whole path when there is none |
| FileUtils.GetFileName | app/src/main/java/com/example/quickqr/util/FileUtils.kt:153-177 | a display name from the content query is returned unchanged; otherwise the path's last segment |
| FileUtils.SdCardPath | app/src/main/java/com/example/quickqr/util/FileUtils.kt:47 | `/storage/` followed by the document id with every `:` made `/`; the result has no `:` |
| FileUtils.ExternalStorageDocumentPath | app/src/main/java/com/example/quickqr/util/FileUtils.kt:37-47 | a "primary" id (ignoring case) maps under the storage directory and fails without a second part; any other id maps to the SD-card path |
| FileUtils.PrimaryDocumentPath | app/src/main/java/com/example/quickqr/util/FileUtils.kt:42-44 | `primary:relative` resolves to the storage directory, `/`, and the relative part |
| FileUtils.SdCardDocumentPath | app/src/main/java/com/example/quickqr/util/FileUtils.kt:47 | `volume:relative` resolves to `/storage/volume/relative` |
| FileUtils.WritableImpliesReadable | app/src/main/java/com/example/quickqr/util/FileUtils.kt:235-245 | writable storage is readable; read-only storage is readable and not writable |
| PermissionManager.AllGranted | app/src/main/java/com/example/quickqr/util/PermissionManager.kt:123-127 | true exactly when every entry is granted, vacuously for an empty list |
| PermissionManager.FirstDenied | app/src/main/java/com/example/quickqr/util/PermissionManager.kt:129-133 | null exactly when all are granted; otherwise a listed, non-granted entry |
| PermissionManager.FirstDeniedIsEarliest | app/src/main/java/com/example/quickqr/util/PermissionManager.kt:129-133 | that entry is the earliest non-granted one |
| PermissionManager.FilterAppend | app/src/main/java/com/example/quickqr/util/PermissionManager.kt:135-145 | the granted and denied lists keep the list's order |
| PermissionManager.GrantedDeniedPartition | app/src/main/java/com/example/quickqr/util/PermissionManager.kt:135-145 | the granted and denied lists partition the required list, counting duplicates |
| PermissionManager.DeniedAgreesWithFirstDenied | app/src/main/java/com/example/quickqr/util/PermissionManager.kt:129-145 | nothing is denied iff all are granted, and the first denied entry heads the denied list |
| PermissionManager.CheckPermissions | app/src/main/java/com/example/quickqr/util/PermissionManager.kt:53-74 | notifies at once iff nothing is missing; otherwise requests exactly the missing entries, in order, when a launcher can be registered |
| PermissionManager.RequestOutcome | app/src/main/java/com/example/quickqr/util/PermissionManager.kt:64-71 | granted iff every answer is true; otherwise the denied callback gets the refused keys, and a key is reported iff it was answered false |
| PermissionManager.RefusedEmptyIff | app/src/main/java/com/example/quickqr/util/PermissionManager.kt:65 | nothing is refused iff every answer is true, and a key is reported iff it was answered false |
| PermissionManager.RefusedInOrder | app/src/main/java/com/example/quickqr/util/PermissionManager.kt:65 | the refused keys keep the order of the answers: refusing distributes over concatenation and one answer contributes its key iff it is false |
| PermissionManager.Permissions.WithPermissions | app/src/main/java/com/example/quickqr/util/PermissionManager.kt:43-51 | appends in argument order, keeps duplicates and returns the same object |
| PermissionManager.Permissions.Clear | app/src/main/java/com/example/quickqr/util/PermissionManager.kt:147-150 | empties the list and drops the pending request |
| PermissionManager.Permissions.Check | app/src/main/java/com/example/quickqr/util/PermissionManager.kt:76-98 | filters the list in a loop and returns the same decision as the specification |

## Left out

- Threads and atomics: `AtomicBoolean`s, `mainHandler.post` / `postDelayed`, coroutines and executors are modelled as a sequence of atomic events. Races between real threads are not modelled.
- Camera and decoder libraries: CameraX binding and preview, `ImageProxy` internals and ML Kit decoding are left out. Decoder answers are inputs. `CameraManager.startCamera` and `bindCameraUseCases` appear only as the `CameraBound` event, and `release` and `getOptimalPreviewSize` (floating point) are left out.
- CameraManager.CameraController.SwitchCamera: the `IllegalStateException` that `switchCamera` throws for a bound camera is counted in the `thrown` field, because Dafny methods do not throw. Its propagation to the caller is not modelled. The `cameraProvider` is taken to exist exactly when the use cases were bound once.
- Android UI: dialogs, toasts, vibration, view bindings, icons and the Compose screens. Only the dialog's title and the intent chosen are modelled; whether an app resolves the intent is not.
- The geo branch of `processBarcode`, because it formats doubles.
- QrCodeProcessor.WifiType: ML Kit's encryption constants are a datatype, because their integer values are not part of the source.
- Timestamps and clock readings are unbounded integers. Kotlin `Long` overflow in `now - timestamp` and `currentTime - lastScanTime` is not modelled.
- SquareResultDialog.ConnectToWifi: `uppercase()` is modelled for ASCII letters only. The Wi-Fi manager call and its status handling are left out.
- The letter-case folding behind `ignoreCase` covers ASCII and the few special Unicode folds in `KotlinText.FoldCase`, not the whole Unicode table.
- ScanViewModel.AdmittedScanOutcome: the repository insert is taken to succeed. In the source an exception there is not caught. The record's id and the second clock reading are parameters.
- `android.util.Patterns`, `checkSelfPermission` and the date formatter are uninterpreted parameters. `isValidUrl` and `processImageUri` are left out.
- DateTimeUtils: only `getRelativeTimeSpan` is modelled. The other functions depend on the JDK's calendar, time zone and locale.
- FileUtils: the downloads, media, content and file branches of `getPath`, and `getDataColumn`, `getMimeType`, `copyFile`, `createTempFile` and `getFileSize`, are content-resolver or I/O calls. The query in `getFileName` is an input.
- PermissionManager: `rememberPermissionState` (Compose), `shouldShowRequestPermissionRationale`, the empty `openAppSettings` and the permission-group constants are left out. The four query functions take the list as an argument and are not class members. Only the fragment variant of `checkPermissions` is a method. The activity variant is the decision with `canRegister` false when the activity cannot register a launcher.
- The other parts of `HomeFragment` are left out: permission requests, the scanner animation, the flashlight button and `onDestroyView`.
- QrCodeAnalyzer.FrameWithoutImageIsLeft: a frame without an image is counted as never closed. The consequences of that for CameraX's frame queue are not modelled.

## Findings

| source | as written | input that shows it | evidently intended | confidence | as-written member | corrected member |
|---|---|---|---|---|---|---|
| app/src/main/java/com/example/quickqr/Fragment/HomeFragment.kt:212-219 | the analyzer is created inline and no reference is kept, so nothing ever calls `startScanning` (QRCodeAnalyzer.kt:47-49); the first detection clears its latch for good | scan code A, dismiss the dialog, wait for the reset, show code B two seconds later: B is never forwarded | re-enable the analyzer once the gate is open again | not executed | ScanSession.AsWrittenSecondCodeIgnored | ScanSession.CorrectedSecondCodeForwarded |
| app/src/main/java/com/example/quickqr/util/CameraManager.kt:156-161 | `(context as? Fragment)` is always null because a `Context` is never a `Fragment`, so with a camera provider the use cases are unbound and `IllegalStateException("View not available")` is thrown | call `switchCamera()` after the camera started | rebind the use cases with the new lens | not executed | CameraManager.SwitchAsWrittenUnbinds | CameraManager.CorrectedStepKeepsBindingCurrent |
| app/src/main/java/com/example/quickqr/Fragment/SquareResultDialogFragment.kt:192-196 | the scheme test is case-sensitive, while the classifier (HomeFragment.kt:266-267) ignores case | the payload `HTTP://a.b` is classified URL and opened as `https://HTTP://a.b` | keep a payload that already has a web scheme in any letter case | not executed | SquareResultDialog.UpperCaseSchemeGetsSecondScheme | SquareResultDialog.CorrectedOpenUrlIntent |
