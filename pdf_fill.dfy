/** The PDF endpoint's placement decisions: which collected field is written
    into which slot of the appearance form, with the court header
    upper-cased, the mailing address broken into at most two lines, the
    notification box ticked and the defendant's name repeated at the
    signature. Coordinates, fonts and the document bytes are not part of
    this model; a placement names its slot. */
module PdfFill {
  import opened Wrappers
  import opened Text

  /** The collected form, every field optional as in the request body. */
  datatype PdfFormData = PdfFormData(
    county: Option<string>,
    court: Option<string>,
    caseNumber: Option<string>,
    plaintiff: Option<string>,
    defendant: Option<string>,
    agreeToNotify: Option<bool>,
    mailingAddress: Option<string>,
    phone: Option<string>,
    email: Option<string>)

  /** The places on the page the filler writes to, in drawing order. */
  datatype Slot =
    | CourtName | CountyName | PlaintiffName | CaseNumberBox | DefendantName
    | AddressLine1 | AddressLine2 | PhoneLine | EmailLine | NotifyBox
    | SignatureName | DateLine

  function SlotRank(s: Slot): nat {
    match s
    case CourtName => 0
    case CountyName => 1
    case PlaintiffName => 2
    case CaseNumberBox => 3
    case DefendantName => 4
    case AddressLine1 => 5
    case AddressLine2 => 6
    case PhoneLine => 7
    case EmailLine => 8
    case NotifyBox => 9
    case SignatureName => 10
    case DateLine => 11
  }

  /** One `doc.text(...)` call: what is written where. */
  datatype Placement = Placement(slot: Slot, text: string)

  // ---------------------------------------------------------------------
  // The check mark

  /** The mark the source writes into the box: the three characters that
      the UTF-8 bytes of U+2713 become when read as Windows-1252. */
  const MarkAsWritten: string := "\U{E2}\U{153}\U{201C}"

  /** The mark evidently intended, U+2713 CHECK MARK. */
  const CheckMark: string := "\U{2713}"

  /** The UTF-8 encoding of a character of the Basic Multilingual Plane
      outside ASCII and Latin-1's two-byte range: a lead byte 1110xxxx,
      then two continuation bytes 10xxxxxx, whose payload bits read back as
      the character. */
  function Utf8ThreeBytes(c: char): (r: seq<int>)
    requires 0x800 <= c as int < 0x10000
    ensures |r| == 3
    ensures 0xE0 <= r[0] < 0xF0 && 0x80 <= r[1] < 0xC0 && 0x80 <= r[2] < 0xC0
    ensures (r[0] - 0xE0) * 0x1000 + (r[1] - 0x80) * 0x40 + (r[2] - 0x80) == c as int
  {
    [0xE0 + c as int / 0x1000, 0x80 + (c as int / 0x40) % 0x40, 0x80 + c as int % 0x40]
  }

  /** The character Windows-1252 assigns to a byte; the five unassigned
      bytes map to the control character of the same number. */
  function Windows1252(b: int): char
    requires 0 <= b < 0x100
  {
    if b < 0x80 || b >= 0xA0 then b as char
    else
      var table := "\U{20AC}\U{81}\U{201A}\U{192}\U{201E}\U{2026}\U{2020}\U{2021}\U{2C6}\U{2030}\U{160}\U{2039}\U{152}\U{8D}\U{17D}\U{8F}"
                 + "\U{90}\U{2018}\U{2019}\U{201C}\U{201D}\U{2022}\U{2013}\U{2014}\U{2DC}\U{2122}\U{161}\U{203A}\U{153}\U{9D}\U{17E}\U{178}";
      table[b - 0x80]
  }

  /** The mark in the source is U+2713 encoded as UTF-8 and decoded as
      Windows-1252, and not the check mark itself. */
  lemma MarkAsWrittenIsMisdecoded()
    ensures |MarkAsWritten| == 3 && MarkAsWritten != CheckMark
    ensures Utf8ThreeBytes(CheckMark[0]) == [0xE2, 0x9C, 0x93]
    ensures forall k :: 0 <= k < 3 ==> MarkAsWritten[k] == Windows1252(Utf8ThreeBytes(CheckMark[0])[k])
  {
    assert Utf8ThreeBytes(CheckMark[0]) == [0xE2, 0x9C, 0x93];
  }

  // ---------------------------------------------------------------------
  // The mailing address

  /** The two address lines written for a mailing address: a single line
      longer than 60 characters is broken at its first comma when it has
      one; otherwise the first line (or, when that is empty, the whole
      address) and the second line when it is non-empty. */
  function AddressLines(address: string): (string, Option<string>)
  {
    var lines := Split(address, '\n');
    if |lines| == 1 && |address| > 60 then
      var parts := Split(address, ',');
      if |parts| >= 2 then (Trim(parts[0]), Some(Trim(Join(parts[1..], [',']))))
      else (address, None)
    else
      (if lines[0] != "" then lines[0] else address,
       if |lines| > 1 && lines[1] != "" then Some(lines[1]) else None)
  }

  /** A long single-line address with a comma: the text before the first
      comma, trimmed, then everything after it, trimmed. */
  lemma LongAddressBreaksAtFirstComma(address: string)
    requires '\n' !in address && |address| > 60 && ',' in address
    ensures var k := IndexOf(address, ',');
      AddressLines(address) == (Trim(address[..k]), Some(Trim(address[k + 1..])))
  {
    SplitOnePiece(address, '\n');
    SplitOnePiece(address, ',');
    JoinTailIsRest(address, ',');
  }

  /** A long single-line address without a comma goes whole on the first
      line. */
  lemma LongAddressWithoutCommaIsWhole(address: string)
    requires '\n' !in address && |address| > 60 && ',' !in address
    ensures AddressLines(address) == (address, None)
  {
    SplitOnePiece(address, '\n');
    SplitOnePiece(address, ',');
  }

  /** A short or multi-line address: its first line (the whole address when
      the first line is empty), then its second line when that is
      non-empty; any further lines are dropped. */
  lemma ShortOrMultilineAddress(address: string)
    requires '\n' in address || |address| <= 60
    ensures var first := if '\n' in address then address[..IndexOf(address, '\n')] else address;
      AddressLines(address).0 == (if first != "" then first else address)
    ensures '\n' !in address ==> AddressLines(address).1 == None
    ensures '\n' in address ==>
      var rest := address[IndexOf(address, '\n') + 1..];
      var second := if '\n' in rest then rest[..IndexOf(rest, '\n')] else rest;
      AddressLines(address).1 == (if second != "" then Some(second) else None)
  {
    SplitOnePiece(address, '\n');
    if '\n' in address {
      var k := IndexOf(address, '\n');
      assert Split(address, '\n') == [address[..k]] + Split(address[k + 1..], '\n');
    }
  }

  // ---------------------------------------------------------------------
  // The placements

  /** The text written into `slot`, if any (the last such placement). */
  function TextAt(ps: seq<Placement>, slot: Slot): Option<string>
    decreases |ps|
  {
    if ps == [] then None
    else if ps[|ps| - 1].slot == slot then Some(ps[|ps| - 1].text)
    else TextAt(ps[..|ps| - 1], slot)
  }

  lemma TextAtAppend(ps: seq<Placement>, p: Placement, slot: Slot)
    ensures TextAt(ps + [p], slot) == if p.slot == slot then Some(p.text) else TextAt(ps, slot)
  {
    assert (ps + [p])[..|ps|] == ps;
  }

  /** Placements are written in drawing order, each slot at most once. */
  predicate InDrawingOrder(ps: seq<Placement>) {
    forall i, j :: 0 <= i < j < |ps| ==> SlotRank(ps[i].slot) < SlotRank(ps[j].slot)
  }

  /** The optional text field rule: written exactly when present and
      non-empty. */
  function WhenPresent(o: Option<string>): Option<string> {
    if Truthy(o) then o else None
  }

  /** What the page must say: court and county upper-cased only when both
      are given; each optional text field in its slot exactly when given;
      the address lines from `AddressLines`; the box ticked only for an
      explicit `true`; the defendant repeated at the signature; the date
      always; and slots in drawing order, none twice. */
  ghost predicate Fills(fd: PdfFormData, date: string, ps: seq<Placement>) {
    var header := Truthy(fd.court) && Truthy(fd.county);
    && TextAt(ps, CourtName) == (if header then Some(ToUpper(fd.court.value)) else None)
    && TextAt(ps, CountyName) == (if header then Some(ToUpper(fd.county.value)) else None)
    && TextAt(ps, PlaintiffName) == WhenPresent(fd.plaintiff)
    && TextAt(ps, CaseNumberBox) == WhenPresent(fd.caseNumber)
    && TextAt(ps, DefendantName) == WhenPresent(fd.defendant)
    && TextAt(ps, AddressLine1) == (if Truthy(fd.mailingAddress) then Some(AddressLines(fd.mailingAddress.value).0) else None)
    && TextAt(ps, AddressLine2) == (if Truthy(fd.mailingAddress) then AddressLines(fd.mailingAddress.value).1 else None)
    && TextAt(ps, PhoneLine) == WhenPresent(fd.phone)
    && TextAt(ps, EmailLine) == WhenPresent(fd.email)
    && TextAt(ps, NotifyBox) == (if fd.agreeToNotify == Some(true) then Some(CheckMark) else None)
    && TextAt(ps, SignatureName) == WhenPresent(fd.defendant)
    && TextAt(ps, DateLine) == Some(date)
    && InDrawingOrder(ps)
  }

  /** Every placement so far is in a slot drawn before `rank`. */
  predicate Before(ps: seq<Placement>, rank: nat) {
    forall k :: 0 <= k < |ps| ==> SlotRank(ps[k].slot) < rank
  }

  lemma {:induction false} NoTextBefore(ps: seq<Placement>, rank: nat, slot: Slot)
    requires Before(ps, rank) && SlotRank(slot) >= rank
    ensures TextAt(ps, slot) == None
    decreases |ps|
  {
    if ps != [] {
      NoTextBefore(ps[..|ps| - 1], rank, slot);
    }
  }

  /** The slot drawn `i`-th. */
  function SlotAt(i: nat): (s: Slot)
    requires i < 12
    ensures SlotRank(s) == i
  {
    [CourtName, CountyName, PlaintiffName, CaseNumberBox, DefendantName, AddressLine1,
     AddressLine2, PhoneLine, EmailLine, NotifyBox, SignatureName, DateLine][i]
  }

  /** A conditional draw: one placement when there is text, none without. */
  function Draw(slot: Slot, text: Option<string>): seq<Placement> {
    if text.Some? then [Placement(slot, text.value)] else []
  }

  /** The draws for the first `|texts|` slots, `texts[i]` for slot `i`. */
  function Layout(texts: seq<Option<string>>): seq<Placement>
    requires |texts| <= 12
    decreases |texts|
  {
    if texts == [] then []
    else Layout(texts[..|texts| - 1]) + Draw(SlotAt(|texts| - 1), texts[|texts| - 1])
  }

  lemma LayoutNext(texts: seq<Option<string>>, k: nat)
    requires k < |texts| <= 12
    ensures Layout(texts[..k + 1]) == Layout(texts[..k]) + Draw(SlotAt(k), texts[k])
  {
    assert texts[..k + 1][..k] == texts[..k];
  }

  /** Laying out a table of slot texts keeps drawing order and uses only
      the slots of the table. */
  lemma {:induction false} LayoutInOrder(texts: seq<Option<string>>)
    requires |texts| <= 12
    ensures InDrawingOrder(Layout(texts)) && Before(Layout(texts), |texts|)
    decreases |texts|
  {
    if texts != [] {
      var n := |texts| - 1;
      LayoutInOrder(texts[..n]);
    }
  }

  /** Laying out a table of slot texts writes slot `i`'s text into it, and
      nothing for an absent one. */
  lemma {:induction false} LayoutText(texts: seq<Option<string>>, i: nat)
    requires i < |texts| <= 12
    ensures TextAt(Layout(texts), SlotAt(i)) == texts[i]
    decreases |texts|
  {
    var n := |texts| - 1;
    var prefix := Layout(texts[..n]);
    var d := Draw(SlotAt(n), texts[n]);
    assert Layout(texts) == prefix + d;
    if i == n {
      LayoutInOrder(texts[..n]);
      NoTextBefore(prefix, n, SlotAt(n));
    } else {
      LayoutText(texts[..n], i);
    }
    if d != [] {
      TextAtAppend(prefix, d[0], SlotAt(i));
    } else {
      assert prefix + d == prefix;
    }
  }

  /** Laying out a table of slot texts writes each slot's text, and nothing
      for an absent one, in drawing order. */
  lemma LayoutWritesTable(texts: seq<Option<string>>)
    requires |texts| <= 12
    ensures InDrawingOrder(Layout(texts))
    ensures forall i :: 0 <= i < |texts| ==> TextAt(Layout(texts), SlotAt(i)) == texts[i]
  {
    LayoutInOrder(texts);
    forall i | 0 <= i < |texts| ensures TextAt(Layout(texts), SlotAt(i)) == texts[i] {
      LayoutText(texts, i);
    }
  }

  /** What each slot receives, in drawing order: court and county
      upper-cased only when both are given; each optional text field
      exactly when given; the address lines from `AddressLines`; the check
      mark only for an explicit `true`; the defendant again at the
      signature; the date always. */
  function Wanted(fd: PdfFormData, date: string): (texts: seq<Option<string>>)
    ensures |texts| == 12
  {
    var header := Truthy(fd.court) && Truthy(fd.county);
    var address := if Truthy(fd.mailingAddress) then Some(AddressLines(fd.mailingAddress.value)) else None;
    [ if header then Some(ToUpper(fd.court.value)) else None,
      if header then Some(ToUpper(fd.county.value)) else None,
      WhenPresent(fd.plaintiff),
      WhenPresent(fd.caseNumber),
      WhenPresent(fd.defendant),
      if address.Some? then Some(address.value.0) else None,
      if address.Some? then address.value.1 else None,
      WhenPresent(fd.phone),
      WhenPresent(fd.email),
      if fd.agreeToNotify == Some(true) then Some(CheckMark) else None,
      WhenPresent(fd.defendant),
      Some(date) ]
  }

  /** `fillUserData`: the header, the caption, the address, the contact
      lines, the box, the signature name and the date, drawn one after
      another. */
  method FillUserData(fd: PdfFormData, date: string) returns (ps: seq<Placement>)
    ensures Fills(fd, date, ps)
  {
    ghost var w := Wanted(fd, date);
    ps := Header(fd, w);
    ps := Caption(fd, w, ps);
    ps := Address(fd, w, ps);
    ps := Contact(fd, w, ps);
    ps := Closing(fd, date, w, ps);
    assert w[..12] == w;
    WantedIsFilled(fd, date);
  }

  /** Court and county, upper-cased, only when both are given; `w` is the
      table of slot texts. */
  method Header(fd: PdfFormData, ghost w: seq<Option<string>>) returns (ps: seq<Placement>)
    requires |w| == 12
    requires var header := Truthy(fd.court) && Truthy(fd.county);
      && w[0] == (if header then Some(ToUpper(fd.court.value)) else None)
      && w[1] == (if header then Some(ToUpper(fd.county.value)) else None)
    ensures ps == Layout(w[..2])
  {
    ps := [];
    assert ps == Layout(w[..0]);
    if Truthy(fd.court) && Truthy(fd.county) {
      ps := ps + [Placement(CourtName, ToUpper(fd.court.value))];
      LayoutNext(w, 0);
      ps := ps + [Placement(CountyName, ToUpper(fd.county.value))];
      LayoutNext(w, 1);
    } else {
      LayoutNext(w, 0);
      LayoutNext(w, 1);
    }
  }

  /** Plaintiff, case number and defendant, each when given. */
  method Caption(fd: PdfFormData, ghost w: seq<Option<string>>, ps0: seq<Placement>) returns (ps: seq<Placement>)
    requires |w| == 12 && ps0 == Layout(w[..2])
    requires w[2] == WhenPresent(fd.plaintiff) && w[3] == WhenPresent(fd.caseNumber)
      && w[4] == WhenPresent(fd.defendant)
    ensures ps == Layout(w[..5])
  {
    ps := ps0;
    if Truthy(fd.plaintiff) {
      ps := ps + [Placement(PlaintiffName, fd.plaintiff.value)];
    }
    LayoutNext(w, 2);
    if Truthy(fd.caseNumber) {
      ps := ps + [Placement(CaseNumberBox, fd.caseNumber.value)];
    }
    LayoutNext(w, 3);
    if Truthy(fd.defendant) {
      ps := ps + [Placement(DefendantName, fd.defendant.value)];
    }
    LayoutNext(w, 4);
  }

  /** The mailing address on one or two lines, when given. */
  method Address(fd: PdfFormData, ghost w: seq<Option<string>>, ps0: seq<Placement>) returns (ps: seq<Placement>)
    requires |w| == 12 && ps0 == Layout(w[..5])
    requires w[5] == (if Truthy(fd.mailingAddress) then Some(AddressLines(fd.mailingAddress.value).0) else None)
    requires w[6] == (if Truthy(fd.mailingAddress) then AddressLines(fd.mailingAddress.value).1 else None)
    ensures ps == Layout(w[..7])
  {
    if Truthy(fd.mailingAddress) {
      var lines := AddressLines(fd.mailingAddress.value);
      ps := DrawAddress(Some(lines.0), lines.1, w, ps0);
    } else {
      ps := DrawAddress(None, None, w, ps0);
    }
  }

  /** The first address line when there is one, then the second when there
      is one. */
  method DrawAddress(first: Option<string>, second: Option<string>, ghost w: seq<Option<string>>,
                     ps0: seq<Placement>) returns (ps: seq<Placement>)
    requires |w| == 12 && ps0 == Layout(w[..5]) && w[5] == first && w[6] == second
    requires first.None? ==> second.None?
    ensures ps == Layout(w[..7])
  {
    ps := ps0;
    if first.Some? {
      ps := ps + [Placement(AddressLine1, first.value)];
    }
    LayoutNext(w, 5);
    if second.Some? {
      ps := ps + [Placement(AddressLine2, second.value)];
    }
    LayoutNext(w, 6);
  }

  /** Phone and email, each when given. */
  method Contact(fd: PdfFormData, ghost w: seq<Option<string>>, ps0: seq<Placement>) returns (ps: seq<Placement>)
    requires |w| == 12 && ps0 == Layout(w[..7])
    requires w[7] == WhenPresent(fd.phone) && w[8] == WhenPresent(fd.email)
    ensures ps == Layout(w[..9])
  {
    ps := ps0;
    if Truthy(fd.phone) {
      ps := ps + [Placement(PhoneLine, fd.phone.value)];
    }
    LayoutNext(w, 7);
    if Truthy(fd.email) {
      ps := ps + [Placement(EmailLine, fd.email.value)];
    }
    LayoutNext(w, 8);
  }

  /** The notification box, the signature name and the date. */
  method Closing(fd: PdfFormData, date: string, ghost w: seq<Option<string>>, ps0: seq<Placement>) returns (ps: seq<Placement>)
    requires |w| == 12 && ps0 == Layout(w[..9])
    requires w[9] == (if fd.agreeToNotify == Some(true) then Some(CheckMark) else None)
    requires w[10] == WhenPresent(fd.defendant) && w[11] == Some(date)
    ensures ps == Layout(w[..12])
  {
    ps := ps0;
    if fd.agreeToNotify == Some(true) {
      ps := ps + [Placement(NotifyBox, CheckMark)];
    }
    LayoutNext(w, 9);
    if Truthy(fd.defendant) {
      ps := ps + [Placement(SignatureName, fd.defendant.value)];
    }
    LayoutNext(w, 10);
    ps := ps + [Placement(DateLine, date)];
    LayoutNext(w, 11);
  }

  /** The table of slot texts, laid out, fills the form as required. */
  lemma WantedIsFilled(fd: PdfFormData, date: string)
    ensures Fills(fd, date, Layout(Wanted(fd, date)))
  {
    var w := Wanted(fd, date);
    LayoutWritesTable(w);
    var ps := Layout(w);
    assert TextAt(ps, SlotAt(0)) == w[0] && TextAt(ps, SlotAt(1)) == w[1] && TextAt(ps, SlotAt(2)) == w[2];
    assert TextAt(ps, SlotAt(3)) == w[3] && TextAt(ps, SlotAt(4)) == w[4] && TextAt(ps, SlotAt(5)) == w[5];
    assert TextAt(ps, SlotAt(6)) == w[6] && TextAt(ps, SlotAt(7)) == w[7] && TextAt(ps, SlotAt(8)) == w[8];
    assert TextAt(ps, SlotAt(9)) == w[9] && TextAt(ps, SlotAt(10)) == w[10] && TextAt(ps, SlotAt(11)) == w[11];
  }

  // ---------------------------------------------------------------------
  // The endpoint

  /** The request body: unreadable JSON, or a body whose `formData` is
      missing (None) or present. */
  datatype PdfRequest = Unreadable | Body(formData: Option<PdfFormData>)

  datatype PdfResponse = Pdf(placements: seq<Placement>) | JsonError(status: int, error: string)

  const FormDataRequired: string := "Form data is required"
  const PdfInternalError: string := "Internal server error"

  /** `POST /api/generate-pdf`: 400 without form data, 500 when the body
      cannot be read, otherwise the filled form. */
  method GeneratePdf(request: PdfRequest, date: string) returns (r: PdfResponse)
    ensures request == Unreadable <==> r == JsonError(500, PdfInternalError)
    ensures request == Body(None) <==> r == JsonError(400, FormDataRequired)
    ensures request.Body? && request.formData.Some? <==> r.Pdf?
    ensures r.Pdf? ==> Fills(request.formData.value, date, r.placements)
  {
    match request
    case Unreadable =>
      r := JsonError(500, PdfInternalError);
    case Body(None) =>
      r := JsonError(400, FormDataRequired);
    case Body(Some(fd)) =>
      var ps := FillUserData(fd, date);
      r := Pdf(ps);
  }
}
