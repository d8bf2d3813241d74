/**
 * The result dialog's own logic: reading the fields of a `WIFI:` payload,
 * choosing what "open" does for a payload, choosing the dialog title, and
 * deciding what Wi-Fi suggestion to hand to the platform.
 */
module SquareResultDialog {
  import opened Wrappers
  import opened KotlinText
  import opened QrModel

  /** The fields read from a `WIFI:S:<ssid>;T:<security>;P:<password>;H:<hidden>;;` payload. */
  datatype WifiInfo = WifiInfo(ssid: string, security: string, password: string, hidden: bool)

  /**
   * One field of a Wi-Fi payload: the text after the first occurrence of
   * `marker`, up to the next `;`, trimmed. When the marker is missing,
   * `substringAfter` hands back the whole payload, so the field is the
   * payload's own text before its first `;`.
   */
  function WifiField(data: string, marker: string): (r: string)
    ensures ';' !in r && Trimmed(r)
    ensures !Contains(data, marker) ==> r == Trim(SubstringBefore(data, ";"))
  {
    var before := SubstringBefore(SubstringAfter(data, marker), ";");
    ContainsChar(before, ';');
    var r := Trim(before);
    var i :| TrimCut(before, r, i);
    assert forall k :: 0 <= k < |r| ==> r[k] == before[i + k];
    r
  }

  /** `parseWifiData`: every field read by substring search; `hidden` is the H field read as a boolean. */
  function ParseWifiData(data: string): (info: WifiInfo)
    ensures ';' !in info.ssid && ';' !in info.security && ';' !in info.password
    ensures Trimmed(info.ssid) && Trimmed(info.security) && Trimmed(info.password)
    ensures info.hidden <==> EqualsIgnoreCase(WifiField(data, "H:"), "true")
  {
    WifiInfo(
      WifiField(data, "S:"),
      WifiField(data, "T:"),
      WifiField(data, "P:"),
      EqualsIgnoreCase(WifiField(data, "H:"), "true"))
  }

  /** `parseWifiSsid`, the dialog's separate reading of the network name for its text line. */
  function ParseWifiSsid(data: string): (ssid: string)
    ensures ssid == ParseWifiData(data).ssid
    ensures ';' !in ssid && Trimmed(ssid)
  {
    Trim(SubstringBefore(SubstringAfter(data, "S:"), ";"))
  }

  /** The part of a Wi-Fi payload up to and including the `;` after the password. */
  function WifiHead(ssid: string, security: string, password: string): string {
    "WIFI:S:" + ssid + ";T:" + security + ";P:" + password + ";"
  }

  /** The payload the format comment of `parseWifiData` describes. */
  function WifiPayload(ssid: string, security: string, password: string, hidden: string): string {
    WifiHead(ssid, security, password) + "H:" + hidden + ";;"
  }

  /** A marker whose first character is missing from `s` does not occur in it. */
  lemma {:induction false} NoMarkerWithoutItsFirst(s: string, m: string)
    requires |m| == 2 && m[0] !in s
    ensures !Contains(s, m)
  {
    assert forall i :: 0 <= i < |s| ==> s[i] != m[0];
    NoPair(s, m);
  }

  /**
   * A field whose marker first occurs right before it reads back as the text
   * up to its terminating `;`, trimmed; a value without surrounding
   * whitespace reads back unchanged.
   */
  lemma {:induction false} FieldAt(pre: string, marker: string, value: string, post: string)
    requires |marker| == 2 && marker[0] != marker[1] && !Contains(pre, marker)
    requires ';' !in value
    ensures WifiField(pre + marker + value + ";" + post, marker) == Trim(value)
    ensures Trimmed(value) ==> WifiField(pre + marker + value + ";" + post, marker) == value
  {
    var data := pre + marker + value + ";" + post;
    var tail := value + ";" + post;
    assert data == pre + marker + tail;
    FirstPairAt(pre, marker, tail);
    assert SubstringAfter(data, marker) == tail;
    assert tail == value + [';'] + post;
    FirstCharAt(value, ';', post);
    assert SubstringBefore(tail, ";") == value;
  }

  /** The network name is read back from any text that starts like a Wi-Fi payload. */
  lemma {:induction false} SsidReadBack(ssid: string, security: string, password: string, tail: string)
    requires ';' !in ssid && Trimmed(ssid)
    ensures WifiField(WifiHead(ssid, security, password) + tail, "S:") == ssid
  {
    var post := "T:" + security + ";P:" + password + ";" + tail;
    NoMarkerWithoutItsFirst("WIFI:", "S:");
    assert WifiHead(ssid, security, password) + tail == "WIFI:" + "S:" + ssid + ";" + post;
    FieldAt("WIFI:", "S:", ssid, post);
  }

  /** The security type is read back when the network name does not contain `T:`. */
  lemma {:induction false} SecurityReadBack(ssid: string, security: string, password: string, tail: string)
    requires ';' !in security && Trimmed(security)
    requires !Contains(ssid, "T:")
    ensures WifiField(WifiHead(ssid, security, password) + tail, "T:") == security
  {
    var pre := "WIFI:S:" + ssid + ";";
    var post := "P:" + password + ";" + tail;
    NoMarkerWithoutItsFirst("WIFI:S:", "T:");
    NoPairInConcat("WIFI:S:", ssid, "T:");
    NoPairInConcat("WIFI:S:" + ssid, ";", "T:");
    assert WifiHead(ssid, security, password) + tail == pre + "T:" + security + ";" + post;
    FieldAt(pre, "T:", security, post);
  }

  /** No marker but `S:` occurs in the head before the password, when the fields do not contain it. */
  lemma {:induction false} NoMarkerBeforePassword(ssid: string, security: string, marker: string)
    requires marker == "P:" || marker == "H:"
    requires !Contains(ssid, marker) && !Contains(security, marker)
    ensures !Contains("WIFI:S:" + ssid + ";T:" + security + ";", marker)
  {
    var a := "WIFI:S:" + ssid;
    var b := a + ";T:";
    var c := b + security;
    NoMarkerWithoutItsFirst("WIFI:S:", marker);
    NoPairInConcat("WIFI:S:", ssid, marker);
    NoMarkerWithoutItsFirst(";T:", marker);
    NoPairInConcat(a, ";T:", marker);
    NoPairInConcat(b, security, marker);
    NoPairInConcat(c, ";", marker);
  }

  /** The password is read back when no earlier field contains `P:`. */
  lemma {:induction false} PasswordReadBack(ssid: string, security: string, password: string, tail: string)
    requires ';' !in password && Trimmed(password)
    requires !Contains(ssid, "P:") && !Contains(security, "P:")
    ensures WifiField(WifiHead(ssid, security, password) + tail, "P:") == password
  {
    var pre := "WIFI:S:" + ssid + ";T:" + security + ";";
    NoMarkerBeforePassword(ssid, security, "P:");
    assert WifiHead(ssid, security, password) + tail == pre + "P:" + password + ";" + tail;
    FieldAt(pre, "P:", password, tail);
  }

  /** No `H:` occurs in the head when no field contains it. */
  lemma {:induction false} NoHiddenMarkerInHead(ssid: string, security: string, password: string)
    requires !Contains(ssid, "H:") && !Contains(security, "H:") && !Contains(password, "H:")
    ensures !Contains(WifiHead(ssid, security, password), "H:")
  {
    var c := "WIFI:S:" + ssid + ";T:" + security + ";";
    var d := c + "P:";
    var e := d + password;
    NoMarkerBeforePassword(ssid, security, "H:");
    NoMarkerWithoutItsFirst("P:", "H:");
    NoPairInConcat(c, "P:", "H:");
    NoPairInConcat(d, password, "H:");
    NoPairInConcat(e, ";", "H:");
    assert WifiHead(ssid, security, password) == e + ";";
  }

  /** The hidden flag's text is read back when no earlier field contains `H:`. */
  lemma {:induction false} HiddenReadBack(ssid: string, security: string, password: string, hidden: string)
    requires ';' !in hidden && Trimmed(hidden)
    requires !Contains(ssid, "H:") && !Contains(security, "H:") && !Contains(password, "H:")
    ensures WifiField(WifiPayload(ssid, security, password, hidden), "H:") == hidden
  {
    var pre := WifiHead(ssid, security, password);
    NoHiddenMarkerInHead(ssid, security, password);
    assert WifiPayload(ssid, security, password, hidden) == pre + "H:" + hidden + ";" + ";";
    FieldAt(pre, "H:", hidden, ";");
  }

  /**
   * Round trip of the documented format: a payload built from four fields is
   * read back field by field, provided no field holds a `;`, no field has
   * surrounding whitespace, and no field holds the marker of a later field.
   */
  lemma {:induction false} WifiPayloadRoundTrip(ssid: string, security: string, password: string, hidden: string)
    requires ';' !in ssid && ';' !in security && ';' !in password && ';' !in hidden
    requires Trimmed(ssid) && Trimmed(security) && Trimmed(password) && Trimmed(hidden)
    requires !Contains(ssid, "T:") && !Contains(ssid, "P:") && !Contains(ssid, "H:")
    requires !Contains(security, "P:") && !Contains(security, "H:")
    requires !Contains(password, "H:")
    ensures ParseWifiData(WifiPayload(ssid, security, password, hidden))
            == WifiInfo(ssid, security, password, EqualsIgnoreCase(hidden, "true"))
  {
    var payload := WifiPayload(ssid, security, password, hidden);
    var tail := "H:" + hidden + ";;";
    assert payload == WifiHead(ssid, security, password) + tail;
    SsidReadBack(ssid, security, password, tail);
    assert WifiField(payload, "S:") == ssid;
    SecurityReadBack(ssid, security, password, tail);
    assert WifiField(payload, "T:") == security;
    PasswordReadBack(ssid, security, password, tail);
    assert WifiField(payload, "P:") == password;
    HiddenReadBack(ssid, security, password, hidden);
    assert WifiField(payload, "H:") == hidden;
  }

  /** The example in the format comment of `parseWifiData` is a payload of the documented shape. */
  lemma DocumentedWifiPayload()
    ensures WifiPayload("MyNet", "WPA", "secret", "false") == "WIFI:S:MyNet;T:WPA;P:secret;H:false;;"
  {
  }

  /** The example in the format comment of `parseWifiData` reads back as network MyNet, WPA, password secret, not hidden. */
  lemma DocumentedWifiExample()
    ensures ParseWifiData(WifiPayload("MyNet", "WPA", "secret", "false")) == WifiInfo("MyNet", "WPA", "secret", false)
  {
    NoMarkerWithoutItsFirst("MyNet", "T:");
    NoMarkerWithoutItsFirst("MyNet", "P:");
    NoMarkerWithoutItsFirst("MyNet", "H:");
    NoMarkerWithoutItsFirst("WPA", "H:");
    NoPair("WPA", "P:");
    NoMarkerWithoutItsFirst("secret", "H:");
    WifiPayloadRoundTrip("MyNet", "WPA", "secret", "false");
  }

  /**
   * A missing marker does not give an empty field: the field is then the
   * payload's own text before its first `;`.
   */
  lemma {:induction false} MissingMarkerReadsPrefix(head: string, rest: string, marker: string)
    requires !Contains(head + ";" + rest, marker)
    requires ';' !in head && Trimmed(head)
    ensures WifiField(head + ";" + rest, marker) == head
  {
    FirstCharAt(head, ';', rest);
  }

  /** `setupForWifi`: the text shown for a Wi-Fi result is the network name when one is found, else the payload. */
  function WifiDisplayText(data: string): (text: string)
    ensures ParseWifiSsid(data) != "" ==> text == "Network: " + ParseWifiData(data).ssid
    ensures ParseWifiSsid(data) == "" ==> text == data
  {
    var ssid := ParseWifiSsid(data);
    if ssid != "" then "Network: " + ssid else data
  }

  // ----- what "open" does -----

  /** The platform's `Patterns.EMAIL_ADDRESS` and `Patterns.PHONE` matchers, left uninterpreted. */
  datatype Matchers = Matchers(emailPattern: string -> bool, phonePattern: string -> bool)

  /** `isEmailAddress`: an `@`, a `.`, and the platform's email pattern. */
  predicate IsEmailAddress(m: Matchers, text: string) {
    Contains(text, "@") && Contains(text, ".") && m.emailPattern(text)
  }

  /** `isPhoneNumber`: the platform's phone pattern. */
  predicate IsPhoneNumber(m: Matchers, text: string) {
    m.phonePattern(text)
  }

  predicate HasWebScheme(url: string) {
    StartsWith(url, "http://") || StartsWith(url, "https://")
  }

  /**
   * The web address `openUrl` opens, as written: `https://` is put in front
   * unless the content already starts with `http://` or `https://`, compared
   * case-sensitively.
   */
  function WebTargetAsWritten(content: string): (url: string)
    ensures HasWebScheme(url)
    ensures HasWebScheme(content) ==> url == content
    ensures !HasWebScheme(content) ==> url == "https://" + content
  {
    if !StartsWith(content, "http://") && !StartsWith(content, "https://") then "https://" + content
    else content
  }

  /** Normalising twice is normalising once. */
  lemma WebTargetAsWrittenIdempotent(content: string)
    ensures WebTargetAsWritten(WebTargetAsWritten(content)) == WebTargetAsWritten(content)
  {
  }

  /**
   * The classifier accepts `HTTP://` in any letter case as a web link, but the
   * case-sensitive rule above treats an upper-case scheme as a bare host and
   * prefixes a second scheme.
   */
  lemma UpperCaseSchemeGetsSecondScheme()
    ensures StartsWithIgnoreCase("HTTP://a.b", "http://")
    ensures WebTargetAsWritten("HTTP://a.b") == "https://HTTP://a.b"
  {
    assert !StartsWith("HTTP://a.b", "http://");
    assert !StartsWith("HTTP://a.b", "https://");
  }

  predicate HasWebSchemeIgnoringCase(url: string) {
    StartsWithIgnoreCase(url, "http://") || StartsWithIgnoreCase(url, "https://")
  }

  /**
   * The web address to open, with the scheme test made case-insensitive like
   * the classifier's: a payload that already names a web scheme, in any
   * letter case, is opened as it is.
   */
  function WebTarget(content: string): (url: string)
    ensures HasWebSchemeIgnoringCase(url)
    ensures HasWebSchemeIgnoringCase(content) ==> url == content
    ensures !HasWebSchemeIgnoringCase(content) ==> url == "https://" + content
  {
    if HasWebSchemeIgnoringCase(content) then content
    else
      assert StartsWithIgnoreCase("https://" + content, "https://");
      "https://" + content
  }

  /** The corrected rule is idempotent and agrees with the written one wherever the scheme is lower case or absent. */
  lemma WebTargetAgreesOnLowerCase(content: string)
    ensures WebTarget(WebTarget(content)) == WebTarget(content)
    ensures HasWebScheme(content) || !HasWebSchemeIgnoringCase(content)
            ==> WebTarget(content) == WebTargetAsWritten(content)
  {
    if StartsWith(content, "http://") {
      assert StartsWithIgnoreCase(content, "http://");
    }
    if StartsWith(content, "https://") {
      assert StartsWithIgnoreCase(content, "https://");
    }
  }

  /** The intent `openUrl` builds. */
  datatype OpenIntent =
    | SendTo(mailto: string)   // ACTION_SENDTO with a mailto: URI
    | Dial(tel: string)        // ACTION_DIAL with a tel: URI
    | View(url: string)        // ACTION_VIEW with a web address

  /**
   * `openUrl`: an email address (checked first) is mailed, else a phone number
   * is dialled, else the content is opened as a web address by the
   * case-sensitive rule of `WebTargetAsWritten`.
   */
  function OpenUrlIntent(m: Matchers, content: string): (i: OpenIntent)
    ensures IsEmailAddress(m, content) ==> i == SendTo("mailto:" + content)
    ensures !IsEmailAddress(m, content) && IsPhoneNumber(m, content) ==> i == Dial("tel:" + content)
    ensures !IsEmailAddress(m, content) && !IsPhoneNumber(m, content) ==> i.View? && HasWebScheme(i.url)
    ensures !IsEmailAddress(m, content) && !IsPhoneNumber(m, content) && HasWebScheme(content) ==>
              i == View(content)
    ensures !IsEmailAddress(m, content) && !IsPhoneNumber(m, content) && !HasWebScheme(content) ==>
              i == View("https://" + content)
  {
    if IsEmailAddress(m, content) then SendTo("mailto:" + content)
    else if IsPhoneNumber(m, content) then Dial("tel:" + content)
    else View(WebTargetAsWritten(content))
  }

  /**
   * `openUrl` with the scheme test made case-insensitive: it differs from the
   * written one only for a web address whose scheme is not in lower case.
   */
  function CorrectedOpenUrlIntent(m: Matchers, content: string): (i: OpenIntent)
    ensures !IsEmailAddress(m, content) && !IsPhoneNumber(m, content) ==> i == View(WebTarget(content))
    ensures IsEmailAddress(m, content) || IsPhoneNumber(m, content) ==> i == OpenUrlIntent(m, content)
    ensures HasWebScheme(content) || !HasWebSchemeIgnoringCase(content) ==> i == OpenUrlIntent(m, content)
  {
    WebTargetAgreesOnLowerCase(content);
    if IsEmailAddress(m, content) then SendTo("mailto:" + content)
    else if IsPhoneNumber(m, content) then Dial("tel:" + content)
    else View(WebTarget(content))
  }

  /** `setupForText`: the title of a text result, email checked before phone. */
  function TextDialogTitle(m: Matchers, text: string): (title: string)
    ensures title in {"Email Address", "Phone Number", "Text Result"}
  {
    if IsEmailAddress(m, text) then "Email Address"
    else if IsPhoneNumber(m, text) then "Phone Number"
    else "Text Result"
  }

  /** The dialog title for each payload category (`onViewCreated` and the three setup functions). */
  function DialogTitle(m: Matchers, content: string, t: QrCodeType): (title: string)
    ensures t == URL ==> title == "Website Link"
    ensures t == WIFI ==> title == "Wi-Fi Network"
    ensures t == TEXT ==> title == TextDialogTitle(m, content)
  {
    match t
    case URL => "Website Link"
    case WIFI => "Wi-Fi Network"
    case TEXT => TextDialogTitle(m, content)
  }

  /** The title of a text result and the "open" action follow the same email-before-phone order. */
  lemma {:induction false} TitleAgreesWithOpenAction(m: Matchers, text: string)
    ensures TextDialogTitle(m, text) == "Email Address" <==> OpenUrlIntent(m, text).SendTo?
    ensures TextDialogTitle(m, text) == "Phone Number" <==> OpenUrlIntent(m, text).Dial?
    ensures TextDialogTitle(m, text) == "Text Result" <==> OpenUrlIntent(m, text).View?
  {
    if IsEmailAddress(m, text) {
    } else if IsPhoneNumber(m, text) {
    } else {
      assert OpenUrlIntent(m, text) == View(WebTargetAsWritten(text));
    }
  }

  // ----- connecting to a network -----

  /** What `connectToWifi` asks of the platform. */
  datatype ConnectPlan =
    | CopyAndOpenSettings(details: string)            // before Android 10: copy the payload, open settings
    | RejectInvalid                                   // empty SSID: "Invalid Wi-Fi QR code format"
    | Suggest(ssid: string, passphrase: Option<string>) // a network suggestion, with a WPA2 passphrase or none

  /** The security names for which a passphrase is set (WEP falls back to WPA2). */
  predicate NeedsPassphrase(security: string) {
    UpperAscii(security) in {"WPA", "WPA2", "WEP"}
  }

  /** `connectToWifi`: the network suggestion built for a payload. */
  function ConnectToWifi(data: string, atLeastAndroid10: bool): (p: ConnectPlan)
    ensures !atLeastAndroid10 ==> p == CopyAndOpenSettings(data)
    ensures atLeastAndroid10 ==> (p == RejectInvalid <==> ParseWifiData(data).ssid == "")
    ensures p.Suggest? ==> p.ssid == ParseWifiData(data).ssid && p.ssid != ""
    ensures p.Suggest? ==>
              (p.passphrase.Some? <==> NeedsPassphrase(ParseWifiData(data).security) && ParseWifiData(data).password != "")
    ensures p.Suggest? && p.passphrase.Some? ==> p.passphrase.value == ParseWifiData(data).password
  {
    if !atLeastAndroid10 then CopyAndOpenSettings(data)
    else
      var info := ParseWifiData(data);
      if info.ssid == "" then RejectInvalid
      else
        if NeedsPassphrase(info.security) && info.password != "" then
          Suggest(info.ssid, Some(info.password))
        else
          Suggest(info.ssid, None)
  }
}
