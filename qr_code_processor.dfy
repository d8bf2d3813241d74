/**
 * `QrCodeProcessor.processBarcode`: the text a decoded barcode is turned into,
 * chosen by the barcode's value type. Every builder is plain concatenation;
 * nothing is escaped.
 */
module QrCodeProcessor {
  import opened Wrappers
  import opened KotlinText
  import opened QrModel
  import SquareResultDialog

  // ----- the decoder's barcode -----

  /** The decoder's Wi-Fi encryption constants; `Unlisted` is any other number, including the 0 used for a missing Wi-Fi object. */
  datatype Encryption = Open | Wep | Wpa | Wpa2 | Wpa3 | Unlisted

  datatype WifiFields = WifiFields(ssid: Option<string>, password: Option<string>, encryption: Encryption)

  datatype ContactFields = ContactFields(
    formattedName: Option<string>,        // name?.formattedName
    organization: Option<string>,
    emailAddresses: seq<Option<string>>,  // emails, each with its address
    phoneNumbers: seq<Option<string>>)    // phones, each with its number

  datatype EmailFields = EmailFields(address: Option<string>, subject: Option<string>, body: Option<string>)

  datatype SmsFields = SmsFields(phoneNumber: Option<string>, message: Option<string>)

  /** A calendar date and time as the decoder reports it. */
  datatype DateTime = DateTime(year: int, month: int, day: int, hours: int, minutes: int)

  datatype CalendarFields = CalendarFields(
    summary: Option<string>,
    description: Option<string>,
    location: Option<string>,
    start: Option<DateTime>,
    end: Option<DateTime>)

  datatype LicenseFields = LicenseFields(
    licenseNumber: Option<string>,
    firstName: Option<string>,
    middleName: Option<string>,
    lastName: Option<string>,
    gender: Option<string>,
    birthDate: Option<string>,
    addressCity: Option<string>,
    addressState: Option<string>,
    addressZip: Option<string>,
    issueDate: Option<string>,
    expiryDate: Option<string>)

  /** The value type of a barcode with the matching structured value, which the decoder may leave null. */
  datatype Content =
    | UrlValue(url: Option<string>)          // url?.url
    | WifiValue(wifi: Option<WifiFields>)
    | ContactValue(contact: Option<ContactFields>)
    | EmailValue(email: Option<EmailFields>)
    | PhoneValue(number: Option<string>)     // phone?.number
    | SmsValue(sms: Option<SmsFields>)
    | CalendarValue(event: Option<CalendarFields>)
    | LicenseValue(license: Option<LicenseFields>)
    | OtherValue                             // plain text, ISBN, product and every other type

  datatype Barcode = Barcode(rawValue: Option<string>, content: Content)

  /** `QrCodeResult`. */
  datatype QrCodeResult = Success(content: string, qrType: QrCodeType) | Error(message: string)

  // ----- Wi-Fi -----

  /** `getWifiType`: the security name written into a Wi-Fi payload. */
  function WifiType(e: Encryption): (name: string)
    ensures name in {"nopass", "WEP", "WPA", "WPA2", "WPA3"}
    ensures name == "nopass" <==> e == Open || e == Unlisted
    ensures e == Wep ==> name == "WEP"
    ensures e == Wpa ==> name == "WPA"
    ensures e == Wpa2 ==> name == "WPA2"
    ensures e == Wpa3 ==> name == "WPA3"
  {
    match e
    case Open => "nopass"
    case Wep => "WEP"
    case Wpa => "WPA"
    case Wpa2 => "WPA2"
    case Wpa3 => "WPA3"
    case Unlisted => "nopass"
  }

  /** Every security name can sit in a Wi-Fi payload and be read back: no `;`, no surrounding blanks, no later marker. */
  lemma WifiTypeIsPlainField(e: Encryption)
    ensures ';' !in WifiType(e) && Trimmed(WifiType(e))
    ensures !Contains(WifiType(e), "P:") && !Contains(WifiType(e), "H:")
  {
    var name := WifiType(e);
    NoPair(name, "P:");
    NoPair(name, "H:");
  }

  /** The Wi-Fi payload built for a Wi-Fi barcode; a missing SSID or password becomes "". */
  function WifiText(w: Option<WifiFields>): (text: string)
    ensures w.None? ==> text == SquareResultDialog.WifiHead("", "nopass", "") + ";"
    ensures w.Some? ==>
              text == SquareResultDialog.WifiHead(w.value.ssid.GetOr(""), WifiType(w.value.encryption), w.value.password.GetOr("")) + ";"
  {
    var ssid := if w.Some? then w.value.ssid.GetOr("") else "";
    var password := if w.Some? then w.value.password.GetOr("") else "";
    var encryption := if w.Some? then w.value.encryption else Unlisted;
    "WIFI:S:" + ssid + ";T:" + WifiType(encryption) + ";P:" + password + ";;"
  }

  /**
   * The Wi-Fi payload written here has no `H:` field, so the dialog reads the
   * network as not hidden: the field then falls back to `WIFI:S:<ssid>`.
   */
  lemma {:induction false} SerialisedWifiIsNotHidden(ssid: string, security: string, password: string)
    requires ';' !in ssid && Trimmed(ssid)
    requires !Contains(ssid, "H:") && !Contains(security, "H:") && !Contains(password, "H:")
    ensures !SquareResultDialog.ParseWifiData(SquareResultDialog.WifiHead(ssid, security, password) + ";").hidden
  {
    var head := SquareResultDialog.WifiHead(ssid, security, password);
    var data := head + ";";
    SquareResultDialog.NoHiddenMarkerInHead(ssid, security, password);
    SquareResultDialog.NoMarkerWithoutItsFirst(";", "H:");
    NoPairInConcat(head, ";", "H:");
    var first := "WIFI:S:" + ssid;
    var rest := "T:" + security + ";P:" + password + ";;";
    assert data == first + ";" + rest;
    assert first[|first| - 1] == if ssid == [] then ':' else ssid[|ssid| - 1];
    SquareResultDialog.MissingMarkerReadsPrefix(first, rest, "H:");
    assert SquareResultDialog.WifiField(data, "H:") == first;
  }

  /** The network name, security name and password a Wi-Fi payload is built from; absent parts are "" and "nopass". */
  function WifiParts(w: Option<WifiFields>): (parts: (string, string, string))
    ensures w.None? ==> parts == ("", "nopass", "")
    ensures w.Some? ==> parts == (w.value.ssid.GetOr(""), WifiType(w.value.encryption), w.value.password.GetOr(""))
  {
    if w.Some? then (w.value.ssid.GetOr(""), WifiType(w.value.encryption), w.value.password.GetOr(""))
    else ("", WifiType(Unlisted), "")
  }

  /**
   * Round trip between the processor and the result dialog: the dialog reads
   * back the network name, the security name and the password of a
   * serialised Wi-Fi barcode (all "" or "nopass" when the decoder gave no
   * Wi-Fi value), as a network that is not hidden, provided the name holds
   * no `;`, `T:`, `P:` or `H:`, the password no `;` or `H:`, and neither has
   * surrounding whitespace.
   */
  lemma {:induction false} WifiRoundTrip(w: Option<WifiFields>)
    requires ';' !in WifiParts(w).0 && Trimmed(WifiParts(w).0)
    requires !Contains(WifiParts(w).0, "T:") && !Contains(WifiParts(w).0, "P:") && !Contains(WifiParts(w).0, "H:")
    requires ';' !in WifiParts(w).2 && Trimmed(WifiParts(w).2) && !Contains(WifiParts(w).2, "H:")
    ensures SquareResultDialog.ParseWifiData(WifiText(w))
            == SquareResultDialog.WifiInfo(WifiParts(w).0, WifiParts(w).1, WifiParts(w).2, false)
  {
    var (ssid, security, password) := WifiParts(w);
    WifiTypeIsPlainField(if w.Some? then w.value.encryption else Unlisted);
    assert WifiText(w) == SquareResultDialog.WifiHead(ssid, security, password) + ";";
    SquareResultDialog.SsidReadBack(ssid, security, password, ";");
    SquareResultDialog.SecurityReadBack(ssid, security, password, ";");
    SquareResultDialog.PasswordReadBack(ssid, security, password, ";");
    SerialisedWifiIsNotHidden(ssid, security, password);
  }

  // ----- mailto:, tel:, smsto: -----

  /** Address, subject and body of an email barcode; absent parts, or an absent email, are "". */
  function EmailParts(e: Option<EmailFields>): (parts: (string, string, string))
    ensures e.None? ==> parts == ("", "", "")
    ensures e.Some? ==> parts == (e.value.address.GetOr(""), e.value.subject.GetOr(""), e.value.body.GetOr(""))
  {
    if e.Some? then (e.value.address.GetOr(""), e.value.subject.GetOr(""), e.value.body.GetOr("")) else ("", "", "")
  }

  /** The `mailto:` text built for an email barcode; absent parts become "". */
  function MailtoText(e: Option<EmailFields>): (text: string)
    ensures StartsWith(text, "mailto:")
    ensures text == "mailto:" + EmailParts(e).0 + "?subject=" + EmailParts(e).1 + "&body=" + EmailParts(e).2
    ensures e.None? ==> text == "mailto:?subject=&body="
  {
    var address := if e.Some? then e.value.address.GetOr("") else "";
    var subject := if e.Some? then e.value.subject.GetOr("") else "";
    var body := if e.Some? then e.value.body.GetOr("") else "";
    "mailto:" + address + "?subject=" + subject + "&body=" + body
  }

  /** A reading of a `mailto:` text by the first `?`, the first `?subject=` and the first `&body=`. */
  function ParseMailto(text: string): (string, string, string) {
    (SubstringBefore(SubstringAfter(text, "mailto:"), "?"),
     SubstringBefore(SubstringAfter(text, "?subject="), "&"),
     SubstringAfter(text, "&body="))
  }

  lemma {:induction false} MailtoAddressReadBack(address: string, subject: string, body: string)
    requires '?' !in address
    ensures ParseMailto("mailto:" + address + "?subject=" + subject + "&body=" + body).0 == address
  {
    var rest := "subject=" + subject + "&body=" + body;
    assert "mailto:" + address + "?subject=" + subject + "&body=" + body == [] + "mailto:" + (address + "?" + rest);
    AfterFirst([], "mailto:", address + "?" + rest);
    assert address + "?" + rest == address + ['?'] + rest;
    BeforeFirst(address, '?', rest);
  }

  lemma {:induction false} MailtoSubjectReadBack(address: string, subject: string, body: string)
    requires '?' !in address && '&' !in subject
    ensures ParseMailto("mailto:" + address + "?subject=" + subject + "&body=" + body).1 == subject
  {
    var a := "mailto:" + address;
    assert '?' !in a by {
      assert forall k :: 0 <= k < |a| ==> a[k] == if k < 7 then "mailto:"[k] else address[k - 7];
    }
    var rest := "body=" + body;
    assert "mailto:" + address + "?subject=" + subject + "&body=" + body == a + "?subject=" + (subject + "&" + rest);
    AfterFirst(a, "?subject=", subject + "&" + rest);
    assert subject + "&" + rest == subject + ['&'] + rest;
    BeforeFirst(subject, '&', rest);
  }

  lemma {:induction false} MailtoBodyReadBack(address: string, subject: string, body: string)
    requires '&' !in address && '&' !in subject
    ensures ParseMailto("mailto:" + address + "?subject=" + subject + "&body=" + body).2 == body
  {
    var a := "mailto:" + address + "?subject=" + subject;
    assert '&' !in a by {
      assert forall k :: 0 <= k < |a| ==>
        a[k] == if k < 7 then "mailto:"[k]
                else if k < 7 + |address| then address[k - 7]
                else if k < 16 + |address| then "?subject="[k - 7 - |address|]
                else subject[k - 16 - |address|];
    }
    AfterFirst(a, "&body=", body);
  }

  /**
   * The address, subject and body (each "" when absent) are read back from
   * the `mailto:` text when the address holds no `?` or `&` and the subject
   * no `&`; without percent-encoding these are the characters that would
   * make it ambiguous.
   */
  lemma {:induction false} MailtoRoundTrip(e: Option<EmailFields>)
    requires '?' !in EmailParts(e).0 && '&' !in EmailParts(e).0 && '&' !in EmailParts(e).1
    ensures ParseMailto(MailtoText(e)) == EmailParts(e)
  {
    var (address, subject, body) := EmailParts(e);
    MailtoAddressReadBack(address, subject, body);
    MailtoSubjectReadBack(address, subject, body);
    MailtoBodyReadBack(address, subject, body);
  }

  /**
   * Without percent-encoding the `mailto:` text is ambiguous: a subject that
   * holds `&body=` gives the same text as a different subject and body.
   */
  lemma MailtoNotInjective()
    ensures MailtoText(Some(EmailFields(Some("a"), Some("x&body=y"), Some(""))))
            == MailtoText(Some(EmailFields(Some("a"), Some("x"), Some("y&body="))))
  {
  }

  /** The `tel:` text built for a phone barcode; an absent number becomes "". */
  function TelText(number: Option<string>): (text: string)
    ensures StartsWith(text, "tel:")
    ensures SubstringAfter(text, "tel:") == number.GetOr("")
  {
    FirstAt([], "tel:", number.GetOr(""));
    assert [] + "tel:" + number.GetOr("") == "tel:" + number.GetOr("");
    "tel:" + number.GetOr("")
  }

  /** Number and message of an SMS barcode; absent parts, or an absent SMS, are "". */
  function SmsParts(sms: Option<SmsFields>): (parts: (string, string))
    ensures sms.None? ==> parts == ("", "")
    ensures sms.Some? ==> parts == (sms.value.phoneNumber.GetOr(""), sms.value.message.GetOr(""))
  {
    if sms.Some? then (sms.value.phoneNumber.GetOr(""), sms.value.message.GetOr("")) else ("", "")
  }

  /** The `smsto:` text built for an SMS barcode; absent parts become "". */
  function SmsText(sms: Option<SmsFields>): (text: string)
    ensures StartsWith(text, "smsto:")
    ensures text == "smsto:" + SmsParts(sms).0 + ":" + SmsParts(sms).1
    ensures sms.None? ==> text == "smsto::"
  {
    var number := if sms.Some? then sms.value.phoneNumber.GetOr("") else "";
    var message := if sms.Some? then sms.value.message.GetOr("") else "";
    "smsto:" + number + ":" + message
  }

  /** A reading of an `smsto:` text: the number runs to the first `:` after the scheme. */
  function ParseSmsto(text: string): (r: (string, string))
    ensures ':' !in r.0
  {
    var rest := SubstringAfter(text, "smsto:");
    ContainsChar(SubstringBefore(rest, ":"), ':');
    (SubstringBefore(rest, ":"), SubstringAfter(rest, ":"))
  }

  /** The number and message (each "" when absent) are read back from the `smsto:` text when the number holds no `:`. */
  lemma {:induction false} SmstoRoundTrip(sms: Option<SmsFields>)
    requires ':' !in SmsParts(sms).0
    ensures ParseSmsto(SmsText(sms)) == SmsParts(sms)
  {
    var (number, message) := SmsParts(sms);
    var text := "smsto:" + number + ":" + message;
    assert SmsText(sms) == text;
    assert text == [] + "smsto:" + (number + [':'] + message);
    AfterFirst([], "smsto:", number + [':'] + message);
    BeforeFirst(number, ':', message);
    AfterFirst(number, ":", message);
  }

  // ----- multi-line summaries -----

  /** One `Label: value` line of a summary, or nothing when the value is absent. */
  datatype Entry = Entry(prefix: string, value: Option<string>)

  /** `buildString` over entries: one line ending in a newline per present value, in order. */
  function Summary(entries: seq<Entry>): (text: string)
    ensures entries == [] ==> text == ""
  {
    if entries == [] then ""
    else
      var e := entries[0];
      (if e.value.Some? then e.prefix + e.value.value + "\n" else "") + Summary(entries[1..])
  }

  /** The lines a summary is meant to hold: label and value of each present entry, in order. */
  function PresentLines(entries: seq<Entry>): (lines: seq<string>)
    ensures |lines| <= |entries|
  {
    if entries == [] then []
    else
      var e := entries[0];
      (if e.value.Some? then [e.prefix + e.value.value] else []) + PresentLines(entries[1..])
  }

  /** Splits a text made of newline-terminated lines into those lines. */
  function TerminatedLines(text: string): (lines: seq<string>)
    ensures forall k :: 0 <= k < |lines| ==> '\n' !in lines[k]
    decreases |text|
  {
    if text == [] then []
    else
      var i := IndexOf(text, "\n");
      if i == -1 then
        ContainsChar(text, '\n');
        [text]
      else
        var line := text[..i];
        assert '\n' !in line by {
          forall k | 0 <= k < |line| ensures line[k] != '\n' {
            assert !OccursAt(text, "\n", k);
            assert text[k..k + 1] == [line[k]];
          }
        }
        [line] + TerminatedLines(text[i + 1..])
  }

  /** A line followed by its newline is split off first. */
  lemma {:induction false} LinesOfCons(line: string, rest: string)
    requires '\n' !in line
    ensures TerminatedLines(line + "\n" + rest) == [line] + TerminatedLines(rest)
  {
    var text := line + "\n" + rest;
    assert text == line + ['\n'] + rest;
    FirstCharAt(line, '\n', rest);
    assert text[..|line|] == line;
    assert text[|line| + 1..] == rest;
  }

  predicate NoNewline(s: string) {
    '\n' !in s
  }

  predicate EntriesWithoutNewlines(entries: seq<Entry>) {
    forall k :: 0 <= k < |entries| ==>
      NoNewline(entries[k].prefix) && (entries[k].value.Some? ==> NoNewline(entries[k].value.value))
  }

  lemma TailWithoutNewlines(entries: seq<Entry>)
    requires EntriesWithoutNewlines(entries) && entries != []
    ensures EntriesWithoutNewlines(entries[1..])
  {
    forall k | 0 <= k < |entries[1..]| ensures
      NoNewline(entries[1..][k].prefix) && (entries[1..][k].value.Some? ==> NoNewline(entries[1..][k].value.value))
    {
      assert entries[1..][k] == entries[k + 1];
    }
  }

  /** The first present entry contributes its line, without a newline inside, to both sides. */
  lemma FirstEntryLine(entries: seq<Entry>)
    requires EntriesWithoutNewlines(entries) && entries != [] && entries[0].value.Some?
    ensures '\n' !in entries[0].prefix + entries[0].value.value
    ensures Summary(entries) == entries[0].prefix + entries[0].value.value + "\n" + Summary(entries[1..])
    ensures PresentLines(entries) == [entries[0].prefix + entries[0].value.value] + PresentLines(entries[1..])
  {
    assert NoNewline(entries[0].prefix);
  }

  /**
   * A summary is exactly its present lines: splitting it at its newlines
   * gives label and value of each present entry, in the order of the entries,
   * provided no label or value holds a newline itself.
   */
  lemma {:induction false} SummaryLines(entries: seq<Entry>)
    requires EntriesWithoutNewlines(entries)
    ensures TerminatedLines(Summary(entries)) == PresentLines(entries)
    decreases |entries|
  {
    if entries != [] {
      TailWithoutNewlines(entries);
      SummaryLines(entries[1..]);
      if entries[0].value.Some? {
        FirstEntryLine(entries);
        LinesOfCons(entries[0].prefix + entries[0].value.value, Summary(entries[1..]));
      } else {
        assert Summary(entries) == Summary(entries[1..]);
      }
    }
  }

  function DateTimeText(d: DateTime): (text: string)
    ensures NoNewline(text)
  {
    IntToString(d.year) + "/" + IntToString(d.month) + "/" + IntToString(d.day) + " "
      + IntToString(d.hours) + ":" + IntToString(d.minutes)
  }

  function MapOption(d: Option<DateTime>): (r: Option<string>)
    ensures r.Some? <==> d.Some?
    ensures r.Some? ==> NoNewline(r.value)
  {
    if d.Some? then Some(DateTimeText(d.value)) else None
  }

  /** `firstOrNull()?.x` over a list of nullable values. */
  function FirstOrNone(values: seq<Option<string>>): (r: Option<string>)
    ensures r.Some? <==> |values| > 0 && values[0].Some?
    ensures r.Some? ==> r == values[0]
  {
    if |values| > 0 then values[0] else None
  }

  function ContactEntries(c: ContactFields): seq<Entry> {
    [Entry("Name: ", c.formattedName),
     Entry("Org: ", c.organization),
     Entry("Email: ", FirstOrNone(c.emailAddresses)),
     Entry("Phone: ", FirstOrNone(c.phoneNumbers))]
  }

  function CalendarEntries(c: CalendarFields): seq<Entry> {
    [Entry("Event: ", c.summary),
     Entry("", c.description),
     Entry("Location: ", c.location),
     Entry("Start: ", MapOption(c.start)),
     Entry("End: ", MapOption(c.end))]
  }

  function LicenseEntries(l: LicenseFields): seq<Entry> {
    [Entry("License #: ", l.licenseNumber),
     Entry("First: ", l.firstName),
     Entry("Middle: ", l.middleName),
     Entry("Last: ", l.lastName),
     Entry("Gender: ", l.gender),
     Entry("DOB: ", l.birthDate),
     Entry("City: ", l.addressCity),
     Entry("State: ", l.addressState),
     Entry("ZIP: ", l.addressZip),
     Entry("Issued: ", l.issueDate),
     Entry("Expires: ", l.expiryDate)]
  }

  /** The summary of an optional structured value: nothing at all when the value is null. */
  function SummaryOf(entries: Option<seq<Entry>>): (text: string)
    ensures entries.None? ==> text == ""
  {
    if entries.Some? then Summary(entries.value) else ""
  }

  function ContactText(c: Option<ContactFields>): string {
    SummaryOf(if c.Some? then Some(ContactEntries(c.value)) else None)
  }

  function CalendarText(c: Option<CalendarFields>): string {
    SummaryOf(if c.Some? then Some(CalendarEntries(c.value)) else None)
  }

  function LicenseText(l: Option<LicenseFields>): string {
    SummaryOf(if l.Some? then Some(LicenseEntries(l.value)) else None)
  }

  /** A calendar summary reads back as its event, description, location, start and end lines. */
  lemma CalendarSummaryLines(c: CalendarFields)
    requires c.summary.Some? ==> NoNewline(c.summary.value)
    requires c.description.Some? ==> NoNewline(c.description.value)
    requires c.location.Some? ==> NoNewline(c.location.value)
    ensures TerminatedLines(CalendarText(Some(c))) == PresentLines(CalendarEntries(c))
  {
    SummaryLines(CalendarEntries(c));
  }

  /** A contact summary reads back as its name, organisation, first email and first phone lines. */
  lemma ContactSummaryLines(c: ContactFields)
    requires c.formattedName.Some? ==> NoNewline(c.formattedName.value)
    requires c.organization.Some? ==> NoNewline(c.organization.value)
    requires forall k :: 0 <= k < |c.emailAddresses| && c.emailAddresses[k].Some? ==> NoNewline(c.emailAddresses[k].value)
    requires forall k :: 0 <= k < |c.phoneNumbers| && c.phoneNumbers[k].Some? ==> NoNewline(c.phoneNumbers[k].value)
    ensures TerminatedLines(ContactText(Some(c))) == PresentLines(ContactEntries(c))
  {
    SummaryLines(ContactEntries(c));
  }

  /** A licence summary reads back as one line per present licence field, in the order of the fields. */
  lemma LicenseSummaryLines(l: LicenseFields)
    requires EntriesWithoutNewlines(LicenseEntries(l))
    ensures TerminatedLines(LicenseText(Some(l))) == PresentLines(LicenseEntries(l))
  {
    SummaryLines(LicenseEntries(l));
  }

  // ----- processBarcode -----

  /**
   * `processBarcode`. `thrown` is the exception the body raised, if any, with
   * its message (which may be null).
   */
  function ProcessBarcode(b: Barcode, thrown: Option<Option<string>>): (r: QrCodeResult)
    ensures thrown.Some? ==> r == Error(thrown.value.GetOr("Unknown error processing QR code"))
    ensures thrown.None? ==> r.Success?
    ensures thrown.None? && b.content.UrlValue? ==> r == Success(b.content.url.GetOr(""), URL)
    ensures thrown.None? && b.content.WifiValue? ==> r == Success(WifiText(b.content.wifi), WIFI)
    ensures thrown.None? && b.content.EmailValue? ==> r == Success(MailtoText(b.content.email), URL)
    ensures thrown.None? && b.content.PhoneValue? ==> r == Success(TelText(b.content.number), URL)
    ensures thrown.None? && b.content.SmsValue? ==> r == Success(SmsText(b.content.sms), URL)
    ensures thrown.None? && b.content.ContactValue? ==> r == Success(ContactText(b.content.contact), TEXT)
    ensures thrown.None? && b.content.CalendarValue? ==> r == Success(CalendarText(b.content.event), TEXT)
    ensures thrown.None? && b.content.LicenseValue? ==> r == Success(LicenseText(b.content.license), TEXT)
    ensures thrown.None? && b.content.OtherValue? ==> r == Success(b.rawValue.GetOr(""), TEXT)
  {
    if thrown.Some? then Error(thrown.value.GetOr("Unknown error processing QR code"))
    else
      match b.content
      case UrlValue(url) => Success(url.GetOr(""), URL)
      case WifiValue(w) => Success(WifiText(w), WIFI)
      case ContactValue(c) => Success(ContactText(c), TEXT)
      case EmailValue(e) => Success(MailtoText(e), URL)
      case PhoneValue(n) => Success(TelText(n), URL)
      case SmsValue(s) => Success(SmsText(s), URL)
      case CalendarValue(c) => Success(CalendarText(c), TEXT)
      case LicenseValue(l) => Success(LicenseText(l), TEXT)
      case OtherValue => Success(b.rawValue.GetOr(""), TEXT)
  }

  /** The dialog reads back the fields of a Wi-Fi barcode's processed text, as a network that is not hidden. */
  lemma ProcessedWifiReadsBack(raw: Option<string>, w: Option<WifiFields>)
    requires ';' !in WifiParts(w).0 && Trimmed(WifiParts(w).0)
    requires !Contains(WifiParts(w).0, "T:") && !Contains(WifiParts(w).0, "P:") && !Contains(WifiParts(w).0, "H:")
    requires ';' !in WifiParts(w).2 && Trimmed(WifiParts(w).2) && !Contains(WifiParts(w).2, "H:")
    ensures SquareResultDialog.ParseWifiData(ProcessBarcode(Barcode(raw, WifiValue(w)), None).content)
            == SquareResultDialog.WifiInfo(WifiParts(w).0, WifiParts(w).1, WifiParts(w).2, false)
  {
    WifiRoundTrip(w);
  }

  /** The parts of an email barcode are read back from its processed text. */
  lemma ProcessedEmailReadsBack(raw: Option<string>, e: Option<EmailFields>)
    requires '?' !in EmailParts(e).0 && '&' !in EmailParts(e).0 && '&' !in EmailParts(e).1
    ensures ParseMailto(ProcessBarcode(Barcode(raw, EmailValue(e)), None).content) == EmailParts(e)
  {
    MailtoRoundTrip(e);
  }

  /** The number of a phone barcode is read back from its processed text. */
  lemma ProcessedPhoneReadsBack(raw: Option<string>, number: Option<string>)
    ensures SubstringAfter(ProcessBarcode(Barcode(raw, PhoneValue(number)), None).content, "tel:") == number.GetOr("")
  {
  }

  /** The parts of an SMS barcode are read back from its processed text. */
  lemma ProcessedSmsReadsBack(raw: Option<string>, sms: Option<SmsFields>)
    requires ':' !in SmsParts(sms).0
    ensures ParseSmsto(ProcessBarcode(Barcode(raw, SmsValue(sms)), None).content) == SmsParts(sms)
  {
    SmstoRoundTrip(sms);
  }
}
