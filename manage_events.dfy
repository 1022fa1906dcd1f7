/** The event-creation page: the form, its client-side validation into a
    field-error record, the submit handler with its backend error mapping,
    the image upload into the form, and cancel. */
module ManageEvents {
  import opened Text
  import opened Http
  import opened FieldErrors
  import opened DateTimeInput
  import opened ImageUpload
  import opened AuthContext
  import opened UseImageUpload
  import Dashboard

  /** `EventFormData`: every field is the text of its input. */
  datatype EventForm = EventForm(
    title: string, description: string, location: string,
    startDatetime: string, endDatetime: string, imageUrl: string,
    price: string, contactEmail: string, contactPhone: string, website: string)

  datatype Field =
    Title | Description | Location | StartDatetime | EndDatetime | ImageUrl
    | Price | ContactEmail | ContactPhone | Website

  /** The key a field has in the form record and in the field-error record. */
  function FieldName(f: Field): string {
    match f
    case Title => "title"
    case Description => "description"
    case Location => "location"
    case StartDatetime => "start_datetime"
    case EndDatetime => "end_datetime"
    case ImageUrl => "image_url"
    case Price => "price"
    case ContactEmail => "contact_email"
    case ContactPhone => "contact_phone"
    case Website => "website"
  }

  function Get(form: EventForm, f: Field): string {
    match f
    case Title => form.title
    case Description => form.description
    case Location => form.location
    case StartDatetime => form.startDatetime
    case EndDatetime => form.endDatetime
    case ImageUrl => form.imageUrl
    case Price => form.price
    case ContactEmail => form.contactEmail
    case ContactPhone => form.contactPhone
    case Website => form.website
  }

  /** `{ ...prev, [field]: value }`: only the named field changes. */
  function Set(form: EventForm, f: Field, value: string): (r: EventForm)
    ensures forall g :: Get(r, g) == if g == f then value else Get(form, g)
  {
    match f
    case Title => form.(title := value)
    case Description => form.(description := value)
    case Location => form.(location := value)
    case StartDatetime => form.(startDatetime := value)
    case EndDatetime => form.(endDatetime := value)
    case ImageUrl => form.(imageUrl := value)
    case Price => form.(price := value)
    case ContactEmail => form.(contactEmail := value)
    case ContactPhone => form.(contactPhone := value)
    case Website => form.(website := value)
  }

  /** `initialFormData` with the start set to the given input value. */
  function InitialForm(start: string): (form: EventForm)
    ensures forall f :: Get(form, f) == if f == StartDatetime then start else ""
  {
    EventForm("", "", "", start, "", "", "", "", "", "")
  }

  const TitleRequired := "Event title is required"
  const DescriptionRequired := "Event description is required"
  const ImageRequired := "Event image is required"
  const LocationRequired := "Event location is required"
  const StartRequired := "Start date and time is required"
  const EndRequired := "End date and time is required"
  const EndNotAfterStart := "End date and time must be after start date and time"
  const InvalidEmail := "Please enter a valid email address"
  const InvalidPrice := "Price must be a valid number greater than or equal to 0"
  const NoChurchMessage := "No church assignment found. Please contact your administrator."
  const CreateFailedMessage := "Failed to create event. Please check your input and try again."
  const NetworkMessage := "Network error. Please check your connection and try again."

  /** What the host reads from the form's strings: `new Date(...)` of the start
      and end, and `parseFloat(price)` (`None` for NaN). */
  datatype HostReadings = HostReadings(start: LocalDate, end: LocalDate, price: Option<real>)

  /** `endDate <= startDate` on two `Date`s: compared by time value, and false
      whenever either is invalid (NaN). Local components are compared in order. */
  predicate NotAfter(end: LocalDate, start: LocalDate) {
    end.LocalDate? && start.LocalDate? && (end == start || Earlier(end, start))
  }

  /** Strictly earlier, component by component from the year down. */
  predicate Earlier(a: LocalDate, b: LocalDate)
    requires a.LocalDate? && b.LocalDate?
  {
    a.year < b.year
    || (a.year == b.year && (a.month < b.month
    || (a.month == b.month && (a.day < b.day
    || (a.day == b.day && (a.hours < b.hours
    || (a.hours == b.hours && (a.minutes < b.minutes
    || (a.minutes == b.minutes && a.seconds < b.seconds)))))))))
  }

  /** A character `[^\s@]` accepts. */
  predicate EmailChar(c: char) {
    !IsJsWhitespace(c) && c != '@'
  }

  /** `[^\s@]+` */
  predicate EmailPart(s: string) {
    s != [] && forall k :: 0 <= k < |s| ==> EmailChar(s[k])
  }

  /** `/^[^\s@]+@[^\s@]+\.[^\s@]+$/.test(s)`, run the way a backtracking
      matcher runs it: try each `@` from the left as the end of the first part,
      and for each try each `.` after it as the end of the second. */
  predicate MatchesEmailPattern(s: string) {
    MatchesFrom(s, 0)
  }

  predicate MatchesFrom(s: string, i: nat)
    decreases |s| - i
  {
    i < |s| && ((s[i] == '@' && EmailPart(s[..i]) && DomainFrom(s[i + 1..], 0)) || MatchesFrom(s, i + 1))
  }

  /** `[^\s@]+\.[^\s@]+$` on what follows the `@`, trying each `.` from `j` on. */
  predicate DomainFrom(d: string, j: nat)
    decreases |d| - j
  {
    j < |d| && ((d[j] == '.' && EmailPart(d[..j]) && EmailPart(d[j + 1..])) || DomainFrom(d, j + 1))
  }

  /** The three parts of a match, as positions of its `@` and `.`. */
  predicate SplitsAsEmail(s: string) {
    exists i, j :: 0 <= i < j < |s| && s[i] == '@' && s[j] == '.'
      && EmailPart(s[..i]) && EmailPart(s[i + 1..j]) && EmailPart(s[j + 1..])
  }

  lemma {:induction false} DomainFromIff(d: string, j: nat)
    ensures DomainFrom(d, j) <==>
      exists m :: j <= m < |d| && d[m] == '.' && EmailPart(d[..m]) && EmailPart(d[m + 1..])
    decreases |d| - j
  {
    if j < |d| {
      DomainFromIff(d, j + 1);
    }
  }

  lemma {:induction false} MatchesFromIff(s: string, i: nat)
    ensures MatchesFrom(s, i) <==>
      exists k :: i <= k < |s| && s[k] == '@' && EmailPart(s[..k]) && DomainFrom(s[k + 1..], 0)
    decreases |s| - i
  {
    if i < |s| {
      MatchesFromIff(s, i + 1);
    }
  }

  /** The matcher accepts exactly the strings that split into the three parts. */
  lemma MatcherFindsSplit(s: string)
    ensures MatchesEmailPattern(s) <==> SplitsAsEmail(s)
  {
    if MatchesEmailPattern(s) {
      MatchYieldsSplit(s);
    }
    if SplitsAsEmail(s) {
      SplitYieldsMatch(s);
    }
  }

  lemma MatchYieldsSplit(s: string)
    requires MatchesEmailPattern(s)
    ensures SplitsAsEmail(s)
  {
    MatchesFromIff(s, 0);
    var k :| 0 <= k < |s| && s[k] == '@' && EmailPart(s[..k]) && DomainFrom(s[k + 1..], 0);
    var d := s[k + 1..];
    DomainFromIff(d, 0);
    var m :| 0 <= m < |d| && d[m] == '.' && EmailPart(d[..m]) && EmailPart(d[m + 1..]);
    SplitFromDomain(s, k, m);
  }

  /** An `@` at `k` and a `.` at `m` within the rest give the three parts. */
  lemma SplitFromDomain(s: string, k: nat, m: nat)
    requires k < |s| && s[k] == '@' && EmailPart(s[..k])
    requires m < |s| - k - 1 && s[k + 1..][m] == '.'
    requires EmailPart(s[k + 1..][..m]) && EmailPart(s[k + 1..][m + 1..])
    ensures SplitsAsEmail(s)
  {
    var j := k + 1 + m;
    assert s[k + 1..][..m] == s[k + 1..j];
    assert s[k + 1..][m + 1..] == s[j + 1..];
    assert s[j] == '.';
  }

  lemma SplitYieldsMatch(s: string)
    requires SplitsAsEmail(s)
    ensures MatchesEmailPattern(s)
  {
    var i, j :| 0 <= i < j < |s| && s[i] == '@' && s[j] == '.'
      && EmailPart(s[..i]) && EmailPart(s[i + 1..j]) && EmailPart(s[j + 1..]);
    DomainAfterAt(s, i, j);
    MatchesFromIff(s, 0);
  }

  /** The `.` at `j` ends the second part of what follows the `@` at `i`. */
  lemma DomainAfterAt(s: string, i: nat, j: nat)
    requires i < j < |s| && s[j] == '.'
    requires EmailPart(s[i + 1..j]) && EmailPart(s[j + 1..])
    ensures DomainFrom(s[i + 1..], 0)
  {
    var d := s[i + 1..];
    var m := j - i - 1;
    assert d[..m] == s[i + 1..j];
    assert d[m + 1..] == s[j + 1..];
    assert d[m] == '.';
    DomainFromIff(d, 0);
  }

  /** The same test in plain words: no whitespace, exactly one `@` and not
      first, and after it a `.` that is neither right after the `@` nor last. */
  predicate EmailShape(s: string) {
    (forall k :: 0 <= k < |s| ==> !IsJsWhitespace(s[k]))
    && (exists i :: 0 < i < |s| && s[i] == '@'
          && (forall k :: 0 <= k < |s| && k != i ==> s[k] != '@')
          && (exists j :: i + 1 < j < |s| - 1 && s[j] == '.'))
  }

  lemma EmailPatternIff(s: string)
    ensures MatchesEmailPattern(s) <==> EmailShape(s)
  {
    MatcherFindsSplit(s);
    SplitIffShape(s);
  }

  lemma SplitIffShape(s: string)
    ensures SplitsAsEmail(s) <==> EmailShape(s)
  {
    if SplitsAsEmail(s) {
      var i, j :| 0 <= i < j < |s| && s[i] == '@' && s[j] == '.'
        && EmailPart(s[..i]) && EmailPart(s[i + 1..j]) && EmailPart(s[j + 1..]);
      SplitHasShape(s, i, j);
    }
    if EmailShape(s) {
      var i :| 0 < i < |s| && s[i] == '@'
        && (forall k :: 0 <= k < |s| && k != i ==> s[k] != '@')
        && exists j :: i + 1 < j < |s| - 1 && s[j] == '.';
      var j :| i + 1 < j < |s| - 1 && s[j] == '.';
      ShapeSplits(s, i, j);
    }
  }

  /** The characters of the three parts are the whole string but the `@` and
      the `.`, so none of them is whitespace or another `@`. */
  lemma SplitHasShape(s: string, i: nat, j: nat)
    requires i < j < |s| && s[i] == '@' && s[j] == '.'
    requires EmailPart(s[..i]) && EmailPart(s[i + 1..j]) && EmailPart(s[j + 1..])
    ensures EmailShape(s)
  {
    forall k | 0 <= k < |s| && k != i
      ensures EmailChar(s[k]) || k == j
    {
      if k < i {
        assert s[..i][k] == s[k];
      } else if i < k < j {
        assert s[i + 1..j][k - i - 1] == s[k];
      } else if k > j {
        assert s[j + 1..][k - j - 1] == s[k];
      }
    }
    assert i + 1 < j < |s| - 1;
  }

  /** A lone `@` at `i` and a `.` at `j` strictly inside what follows it cut
      the string into three parts. */
  lemma ShapeSplits(s: string, i: nat, j: nat)
    requires 0 < i && i + 1 < j < |s| - 1 && s[i] == '@' && s[j] == '.'
    requires forall k :: 0 <= k < |s| ==> !IsJsWhitespace(s[k])
    requires forall k :: 0 <= k < |s| && k != i ==> s[k] != '@'
    ensures SplitsAsEmail(s)
  {
    assert EmailPart(s[..i]);
    assert EmailPart(s[i + 1..j]);
    assert EmailPart(s[j + 1..]);
  }

  /** What each check `validateForm` runs decides, in the order they run:
      which text fields are blank once trimmed, which date-times are missing,
      whether the end is not after the start (asked only when both are
      present), and whether a given email or price is malformed. */
  datatype Verdicts = Verdicts(
    titleBlank: bool, descriptionBlank: bool, imageBlank: bool, locationBlank: bool,
    startMissing: bool, endMissing: bool, endNotAfterStart: bool,
    emailInvalid: bool, priceInvalid: bool)

  function Judge(form: EventForm, host: HostReadings): Verdicts {
    Verdicts(
      IsBlank(form.title), IsBlank(form.description), IsBlank(form.imageUrl), IsBlank(form.location),
      form.startDatetime == "", form.endDatetime == "",
      form.startDatetime != "" && form.endDatetime != "" && NotAfter(host.end, host.start),
      form.contactEmail != "" && !MatchesEmailPattern(form.contactEmail),
      form.price != "" && (host.price.None? || host.price.value < 0.0))
  }

  /** The message a field is left with ("" for none). The order message on
      the end replaces its required message; phone and website are never
      checked. */
  function FieldError(v: Verdicts, f: Field): string {
    match f
    case Title => if v.titleBlank then TitleRequired else ""
    case Description => if v.descriptionBlank then DescriptionRequired else ""
    case ImageUrl => if v.imageBlank then ImageRequired else ""
    case Location => if v.locationBlank then LocationRequired else ""
    case StartDatetime => if v.startMissing then StartRequired else ""
    case EndDatetime => if v.endNotAfterStart then EndNotAfterStart else if v.endMissing then EndRequired else ""
    case ContactEmail => if v.emailInvalid then InvalidEmail else ""
    case Price => if v.priceInvalid then InvalidPrice else ""
    case ContactPhone => ""
    case Website => ""
  }

  /** The record the checks build, run in order, each failing check writing
      its message under its field's key. */
  function Record(v: Verdicts): Errors {
    var e: Errors := map[];
    var e := if v.titleBlank then e["title" := TitleRequired] else e;
    var e := if v.descriptionBlank then e["description" := DescriptionRequired] else e;
    var e := if v.imageBlank then e["image_url" := ImageRequired] else e;
    var e := if v.locationBlank then e["location" := LocationRequired] else e;
    var e := if v.startMissing then e["start_datetime" := StartRequired] else e;
    var e := if v.endMissing then e["end_datetime" := EndRequired] else e;
    var e := if v.endNotAfterStart then e["end_datetime" := EndNotAfterStart] else e;
    var e := if v.emailInvalid then e["contact_email" := InvalidEmail] else e;
    if v.priceInvalid then e["price" := InvalidPrice] else e
  }

  /** The record `validateForm` stores. */
  function ExpectedErrors(form: EventForm, host: HostReadings): Errors {
    Record(Judge(form, host))
  }

  /** The record field by field: a field's key is present exactly when the
      field is left with a message, and holds that message; no other key is
      ever present. */
  lemma RecordSpec(v: Verdicts)
    ensures forall f :: FieldName(f) in Record(v) <==> FieldError(v, f) != ""
    ensures forall f :: FieldName(f) in Record(v) ==> Record(v)[FieldName(f)] == FieldError(v, f)
    ensures forall k :: k in Record(v) ==> exists f :: FieldName(f) == k
  {
    forall f
      ensures FieldName(f) in Record(v) <==> FieldError(v, f) != ""
      ensures FieldName(f) in Record(v) ==> Record(v)[FieldName(f)] == FieldError(v, f)
    {
      RecordEntry(v, f);
    }
    forall k | k in Record(v)
      ensures exists f :: FieldName(f) == k
    {
      RecordKey(v, k);
    }
  }

  lemma RecordEntry(v: Verdicts, f: Field)
    ensures FieldName(f) in Record(v) <==> FieldError(v, f) != ""
    ensures FieldName(f) in Record(v) ==> Record(v)[FieldName(f)] == FieldError(v, f)
  {
    match f
    case Title => RecordTitle(v);
    case Description => RecordDescription(v);
    case ImageUrl => RecordImageUrl(v);
    case Location => RecordLocation(v);
    case StartDatetime => RecordStartDatetime(v);
    case EndDatetime => RecordEndDatetime(v);
    case ContactEmail => RecordContactEmail(v);
    case Price => RecordPrice(v);
    case ContactPhone => RecordContactPhone(v);
    case Website => RecordWebsite(v);
  }

  /* The entry of `Record` one field at a time. */

  lemma RecordTitle(v: Verdicts)
    ensures FieldName(Title) in Record(v) <==> FieldError(v, Title) != ""
    ensures FieldName(Title) in Record(v) ==> Record(v)[FieldName(Title)] == FieldError(v, Title)
  {
  }

  lemma RecordDescription(v: Verdicts)
    ensures FieldName(Description) in Record(v) <==> FieldError(v, Description) != ""
    ensures FieldName(Description) in Record(v) ==> Record(v)[FieldName(Description)] == FieldError(v, Description)
  {
  }

  lemma RecordImageUrl(v: Verdicts)
    ensures FieldName(ImageUrl) in Record(v) <==> FieldError(v, ImageUrl) != ""
    ensures FieldName(ImageUrl) in Record(v) ==> Record(v)[FieldName(ImageUrl)] == FieldError(v, ImageUrl)
  {
  }

  lemma RecordLocation(v: Verdicts)
    ensures FieldName(Location) in Record(v) <==> FieldError(v, Location) != ""
    ensures FieldName(Location) in Record(v) ==> Record(v)[FieldName(Location)] == FieldError(v, Location)
  {
  }

  lemma RecordStartDatetime(v: Verdicts)
    ensures FieldName(StartDatetime) in Record(v) <==> FieldError(v, StartDatetime) != ""
    ensures FieldName(StartDatetime) in Record(v) ==> Record(v)[FieldName(StartDatetime)] == FieldError(v, StartDatetime)
  {
  }

  lemma RecordEndDatetime(v: Verdicts)
    ensures FieldName(EndDatetime) in Record(v) <==> FieldError(v, EndDatetime) != ""
    ensures FieldName(EndDatetime) in Record(v) ==> Record(v)[FieldName(EndDatetime)] == FieldError(v, EndDatetime)
  {
  }

  lemma RecordContactEmail(v: Verdicts)
    ensures FieldName(ContactEmail) in Record(v) <==> FieldError(v, ContactEmail) != ""
    ensures FieldName(ContactEmail) in Record(v) ==> Record(v)[FieldName(ContactEmail)] == FieldError(v, ContactEmail)
  {
  }

  lemma RecordPrice(v: Verdicts)
    ensures FieldName(Price) in Record(v) <==> FieldError(v, Price) != ""
    ensures FieldName(Price) in Record(v) ==> Record(v)[FieldName(Price)] == FieldError(v, Price)
  {
  }

  lemma RecordContactPhone(v: Verdicts)
    ensures FieldName(ContactPhone) in Record(v) <==> FieldError(v, ContactPhone) != ""
    ensures FieldName(ContactPhone) in Record(v) ==> Record(v)[FieldName(ContactPhone)] == FieldError(v, ContactPhone)
  {
  }

  lemma RecordWebsite(v: Verdicts)
    ensures FieldName(Website) in Record(v) <==> FieldError(v, Website) != ""
    ensures FieldName(Website) in Record(v) ==> Record(v)[FieldName(Website)] == FieldError(v, Website)
  {
  }

  lemma RecordKey(v: Verdicts, k: string)
    requires k in Record(v)
    ensures exists f :: FieldName(f) == k
  {
    if k == "title" {
      assert FieldName(Title) == k;
    } else if k == "description" {
      assert FieldName(Description) == k;
    } else if k == "image_url" {
      assert FieldName(ImageUrl) == k;
    } else if k == "location" {
      assert FieldName(Location) == k;
    } else if k == "start_datetime" {
      assert FieldName(StartDatetime) == k;
    } else if k == "end_datetime" {
      assert FieldName(EndDatetime) == k;
    } else if k == "contact_email" {
      assert FieldName(ContactEmail) == k;
    } else {
      assert FieldName(Price) == k;
    }
  }

  /** The conditions under which a form passes, stated field by field. */
  predicate Acceptable(form: EventForm, host: HostReadings) {
    && !AllWhitespace(form.title) && !AllWhitespace(form.description)
    && !AllWhitespace(form.imageUrl) && !AllWhitespace(form.location)
    && form.startDatetime != "" && form.endDatetime != ""
    && !NotAfter(host.end, host.start)
    && (form.contactEmail == "" || EmailShape(form.contactEmail))
    && (form.price == "" || (host.price.Some? && host.price.value >= 0.0))
  }

  /** The form validates exactly when every field is acceptable: text fields
      hold something besides whitespace, both date-times are present and the
      end comes after the start, an email (when given) has the shape the
      pattern asks for, and a price (when given) is a number no less than 0.
      An empty email or price is never flagged. */
  lemma {:induction false} ValidIffAcceptable(form: EventForm, host: HostReadings)
    ensures ExpectedErrors(form, host) == map[] <==> Acceptable(form, host)
  {
    var v := Judge(form, host);
    NoErrorsIffAllPass(v);
    AllPassIffAcceptable(form, host);
  }

  /** The record is empty exactly when no field is left with a message. */
  lemma NoErrorsIffAllPass(v: Verdicts)
    ensures Record(v) == map[] <==> forall f :: FieldError(v, f) == ""
  {
    RecordSpec(v);
    if Record(v) != map[] {
      var k :| k in Record(v);
      var f :| FieldName(f) == k;
      assert FieldError(v, f) != "";
    } else {
      forall f ensures FieldError(v, f) == "" {
        assert FieldName(f) !in Record(v);
      }
    }
  }

  /** No field is left with a message exactly when the form is acceptable. */
  lemma AllPassIffAcceptable(form: EventForm, host: HostReadings)
    ensures (forall f :: FieldError(Judge(form, host), f) == "") <==> Acceptable(form, host)
  {
    var v := Judge(form, host);
    BlankIffAllWhitespace(form.title);
    BlankIffAllWhitespace(form.description);
    BlankIffAllWhitespace(form.imageUrl);
    BlankIffAllWhitespace(form.location);
    EmailPatternIff(form.contactEmail);
    assert (forall f :: FieldError(v, f) == "") <==>
      !v.titleBlank && !v.descriptionBlank && !v.imageBlank && !v.locationBlank
      && !v.startMissing && !v.endMissing && !v.endNotAfterStart && !v.emailInvalid && !v.priceInvalid
    by {
      if !v.titleBlank && !v.descriptionBlank && !v.imageBlank && !v.locationBlank
        && !v.startMissing && !v.endMissing && !v.endNotAfterStart && !v.emailInvalid && !v.priceInvalid
      {
        forall f ensures FieldError(v, f) == "" {
          match f
          case Title =>
          case Description =>
          case ImageUrl =>
          case Location =>
          case StartDatetime =>
          case EndDatetime =>
          case ContactEmail =>
          case Price =>
          case ContactPhone =>
          case Website =>
        }
      } else {
        assert FieldError(v, Title) != "" || FieldError(v, Description) != ""
          || FieldError(v, ImageUrl) != "" || FieldError(v, Location) != ""
          || FieldError(v, StartDatetime) != "" || FieldError(v, EndDatetime) != ""
          || FieldError(v, ContactEmail) != "" || FieldError(v, Price) != "";
      }
    }
  }

  /** The body of `validateForm` that fills its local `errors` record, one
      check after another, from the checks' verdicts. */
  method FillErrors(v: Verdicts) returns (errors: Errors)
    ensures errors == Record(v)
  {
    errors := map[];
    if v.titleBlank {
      errors := errors["title" := TitleRequired];
    }
    if v.descriptionBlank {
      errors := errors["description" := DescriptionRequired];
    }
    if v.imageBlank {
      errors := errors["image_url" := ImageRequired];
    }
    if v.locationBlank {
      errors := errors["location" := LocationRequired];
    }
    if v.startMissing {
      errors := errors["start_datetime" := StartRequired];
    }
    if v.endMissing {
      errors := errors["end_datetime" := EndRequired];
    }
    if v.endNotAfterStart {
      errors := errors["end_datetime" := EndNotAfterStart];
    }
    if v.emailInvalid {
      errors := errors["contact_email" := InvalidEmail];
    }
    if v.priceInvalid {
      errors := errors["price" := InvalidPrice];
    }
  }

  /** What the page schedules with `setTimeout` after a successful create. */
  datatype FollowUp = Nothing | ClearSuccessLater | ShowChurchLater

  /** The request body: the form, the two date-times in backend form, the
      price as a number, and the church it is posted to. */
  datatype Submission = Submission(form: EventForm, start: string, end: string, price: real, churchId: int)

  function SuccessMessage(title: string): string {
    "Event \"" + title + "\" created successfully!"
  }

  class ManageEventsPage {
    var formData: EventForm
    var createAnother: bool
    var loading: bool
    var error: string
    var success: string
    var fieldErrors: Errors
    /** The page's `useImageUpload` state. */
    const imageUpload: ImageUploadHook

    /** Mounting at time `now`: an empty form whose start is `now`. */
    constructor (now: LocalDate)
      ensures formData == InitialForm(FormatLocalDateTimeForInput(now))
      ensures !createAnother && !loading && error == "" && success == "" && fieldErrors == map[]
      ensures fresh(imageUpload)
      ensures !imageUpload.uploading && imageUpload.error == "" && imageUpload.success == ""
    {
      formData := InitialForm(FormatLocalDateTimeForInput(now));
      createAnother, loading := false, false;
      error, success := "", "";
      fieldErrors := map[];
      imageUpload := new ImageUploadHook();
    }

    /** `handleInputChange(field)`: the field takes the typed value, the page
        error goes, and so does the field's own error. */
    method HandleInputChange(f: Field, value: string)
      modifies this
      ensures formData == Set(old(formData), f, value)
      ensures error == "" && fieldErrors == ClearFieldError(old(fieldErrors), FieldName(f))
      ensures success == old(success) && loading == old(loading) && createAnother == old(createAnother)
    {
      formData := Set(formData, f, value);
      if error != "" {
        error := "";
      }
      fieldErrors := ClearFieldError(fieldErrors, FieldName(f));
    }

    /** `validateForm`: builds the record check by check and stores it. */
    method ValidateForm(host: HostReadings) returns (valid: bool)
      modifies this
      ensures fieldErrors == ExpectedErrors(formData, host)
      ensures valid <==> Acceptable(formData, host)
      ensures valid <==> fieldErrors == map[]
      ensures formData == old(formData) && error == old(error) && success == old(success)
      ensures loading == old(loading) && createAnother == old(createAnother)
    {
      // The conditions are pure, so they are judged once up front.
      var v := Judge(formData, host);
      var errors := FillErrors(v);
      fieldErrors := errors;
      ValidIffAcceptable(formData, host);
      valid := |errors| == 0;
    }

    /** `handleSubmit`. `user` is the signed-in user, `host` what the host
        reads from the form, `reply` the answer to the create request when one
        is made and `now` the time a reset form starts at. `sent` is the
        request body, `followUp` what is scheduled afterwards. */
    method HandleSubmit(user: Option<User>, host: HostReadings, reply: Reply<ErrorBody>, now: LocalDate)
      returns (sent: Option<Submission>, followUp: FollowUp)
      modifies this, imageUpload
      ensures imageUpload.error == "" && imageUpload.success == ""
      ensures imageUpload.uploading == old(imageUpload.uploading)
      ensures createAnother == old(createAnother)
      ensures loading == (if sent.Some? then false else old(loading))
      // Validation fails: the record says why, and nothing is sent.
      ensures !Acceptable(old(formData), host) ==>
        && sent.None? && followUp == Nothing && formData == old(formData)
        && fieldErrors == ExpectedErrors(old(formData), host) && error == "" && success == ""
      // No church to post to: the page says so, and nothing is sent.
      ensures Acceptable(old(formData), host) && Dashboard.FirstChurchId(user).None? ==>
        && sent.None? && followUp == Nothing && formData == old(formData)
        && fieldErrors == map[] && error == NoChurchMessage && success == ""
      // Sent: to the first church, with the converted date-times and price.
      ensures Acceptable(old(formData), host) && Dashboard.FirstChurchId(user).Some? ==>
        && sent == Some(Submission(old(formData),
             FormatDateTimeForBackend(old(formData).startDatetime, host.start),
             FormatDateTimeForBackend(old(formData).endDatetime, host.end),
             if old(formData).price == "" then 0.0 else host.price.value,
             Dashboard.FirstChurchId(user).value))
        && (reply.Responded? && reply.ok ==>
              && success == SuccessMessage(old(formData).title) && error == "" && fieldErrors == map[]
              && (createAnother ==> formData == InitialForm(FormatLocalDateTimeForInput(now)) && followUp == ClearSuccessLater)
              && (!createAnother ==> formData == old(formData) && followUp == ShowChurchLater))
        && (reply.Responded? && !reply.ok ==>
              && success == "" && formData == old(formData) && followUp == Nothing
              && error == FailureMessage(reply.status, reply.body, CreateFailedMessage)
              && fieldErrors == (match BackendFieldErrors(reply.status, reply.body)
                                 case Some(m) => m
                                 case None => map[]))
        && (reply.Threw? ==>
              success == "" && error == NetworkMessage && fieldErrors == map[]
              && formData == old(formData) && followUp == Nothing)
    {
      error := "";
      success := "";
      fieldErrors := map[];
      imageUpload.ClearMessages();
      var valid := ValidateForm(host);
      if !valid {
        return None, Nothing;
      }
      sent, followUp := SendSubmission(user, host, reply, now);
    }

    /** `handleSubmit` once the form has validated: the church check, then
        the request and its reply. */
    method SendSubmission(user: Option<User>, host: HostReadings, reply: Reply<ErrorBody>, now: LocalDate)
      returns (sent: Option<Submission>, followUp: FollowUp)
      requires error == "" && success == "" && fieldErrors == map[]
      requires imageUpload.error == "" && imageUpload.success == ""
      requires formData.price != "" ==> host.price.Some?
      modifies this, imageUpload
      ensures imageUpload.error == "" && imageUpload.success == ""
      ensures imageUpload.uploading == old(imageUpload.uploading)
      ensures createAnother == old(createAnother)
      ensures loading == (if sent.Some? then false else old(loading))
      ensures Dashboard.FirstChurchId(user).None? ==>
        && sent.None? && followUp == Nothing && formData == old(formData)
        && fieldErrors == map[] && error == NoChurchMessage && success == ""
      ensures Dashboard.FirstChurchId(user).Some? ==>
        && sent == Some(Submission(old(formData),
             FormatDateTimeForBackend(old(formData).startDatetime, host.start),
             FormatDateTimeForBackend(old(formData).endDatetime, host.end),
             if old(formData).price == "" then 0.0 else host.price.value,
             Dashboard.FirstChurchId(user).value))
        && (reply.Responded? && reply.ok ==>
              && success == SuccessMessage(old(formData).title) && error == "" && fieldErrors == map[]
              && (createAnother ==> formData == InitialForm(FormatLocalDateTimeForInput(now)) && followUp == ClearSuccessLater)
              && (!createAnother ==> formData == old(formData) && followUp == ShowChurchLater))
        && (reply.Responded? && !reply.ok ==>
              && success == "" && formData == old(formData) && followUp == Nothing
              && error == FailureMessage(reply.status, reply.body, CreateFailedMessage)
              && fieldErrors == (match BackendFieldErrors(reply.status, reply.body)
                                 case Some(m) => m
                                 case None => map[]))
        && (reply.Threw? ==>
              success == "" && error == NetworkMessage && fieldErrors == map[]
              && formData == old(formData) && followUp == Nothing)
    {
      var churchId := Dashboard.FirstChurchId(user);
      if churchId.None? {
        error := NoChurchMessage;
        return None, Nothing;
      }
      loading := true;
      // try {
      var submission := Submission(formData,
        FormatDateTimeForBackend(formData.startDatetime, host.start),
        FormatDateTimeForBackend(formData.endDatetime, host.end),
        if formData.price != "" then host.price.value else 0.0,
        churchId.value);
      sent := Some(submission);
      followUp := ApplySubmitReply(reply, now);
      // } finally {
      loading := false;
      // }
    }

    /** The body of `handleSubmit`'s request once it is sent: the messages,
        record and form the reply leaves, and what is scheduled next. */
    method ApplySubmitReply(reply: Reply<ErrorBody>, now: LocalDate) returns (followUp: FollowUp)
      requires error == "" && success == "" && fieldErrors == map[]
      requires imageUpload.error == "" && imageUpload.success == ""
      modifies this, imageUpload
      ensures imageUpload.error == "" && imageUpload.success == ""
      ensures imageUpload.uploading == old(imageUpload.uploading)
      ensures createAnother == old(createAnother) && loading == old(loading)
      ensures reply.Responded? && reply.ok ==>
        && success == SuccessMessage(old(formData).title) && error == "" && fieldErrors == map[]
        && (createAnother ==> formData == InitialForm(FormatLocalDateTimeForInput(now)) && followUp == ClearSuccessLater)
        && (!createAnother ==> formData == old(formData) && followUp == ShowChurchLater)
      ensures reply.Responded? && !reply.ok ==>
        && success == "" && formData == old(formData) && followUp == Nothing
        && error == FailureMessage(reply.status, reply.body, CreateFailedMessage)
        && fieldErrors == (match BackendFieldErrors(reply.status, reply.body)
                           case Some(m) => m
                           case None => map[])
      ensures reply.Threw? ==>
        success == "" && error == NetworkMessage && fieldErrors == map[]
        && formData == old(formData) && followUp == Nothing
    {
      followUp := Nothing;
      match reply {
        case Responded(ok, status, body) =>
          if ok {
            success := SuccessMessage(formData.title);
            if createAnother {
              formData := InitialForm(FormatLocalDateTimeForInput(now));
              imageUpload.ClearMessages();
              followUp := ClearSuccessLater;
            } else {
              followUp := ShowChurchLater;
            }
          } else {
            var backend := BackendFieldErrors(status, body);
            if backend.Some? {
              fieldErrors := backend.value;
            }
            error := FailureMessage(status, body, CreateFailedMessage);
          }
        case Threw =>
          error := NetworkMessage;
      }
    }

    /** The timer scheduled by `ClearSuccessLater`: only the success message goes. */
    method SuccessTimeout()
      modifies this
      ensures success == "" && error == old(error) && formData == old(formData)
      ensures fieldErrors == old(fieldErrors) && loading == old(loading) && createAnother == old(createAnother)
    {
      success := "";
    }

    /** `handleImageUpload`: with a chosen file, the page messages are cleared
        and an uploaded URL (when the hook returns a truthy one) goes into the form. */
    method HandleImageUpload(file: Option<File>, reply: Reply<UploadBody>) returns (clearLater: bool)
      modifies this, imageUpload
      ensures file.None? ==> !clearLater
      ensures file.Some? ==>
        imageUpload.State() == AfterUpload(old(imageUpload.State()), file.value, imageUpload.maxSizeInMB, imageUpload.acceptedTypes, reply)
      ensures file.Some? ==>
        var v := ValidateImageFile(file.value, imageUpload.maxSizeInMB, imageUpload.acceptedTypes);
        var r := UploadImageFile(reply);
        (clearLater <==> v.Valid? && r.success && r.imageUrl != "")
      ensures file.None? ==> formData == old(formData) && error == old(error) && success == old(success)
      ensures file.None? ==> imageUpload.State() == old(imageUpload.State())
      ensures file.Some? ==> error == "" && success == ""
      ensures file.Some? ==>
        var v := ValidateImageFile(file.value, imageUpload.maxSizeInMB, imageUpload.acceptedTypes);
        var r := UploadImageFile(reply);
        formData == (if v.Valid? && r.success && r.imageUrl != "" then old(formData).(imageUrl := r.imageUrl)
                     else old(formData))
      ensures fieldErrors == old(fieldErrors) && loading == old(loading) && createAnother == old(createAnother)
    {
      if file.None? {
        return false;
      }
      error := "";
      success := "";
      imageUpload.ClearMessages();
      var url;
      url, clearLater := imageUpload.UploadImage(file.value, reply);
      if url.Some? && url.value != "" {
        formData := formData.(imageUrl := url.value);
      }
    }

    /** `handleCancel`: a fresh form starting at `now`, no messages anywhere. */
    method HandleCancel(now: LocalDate)
      modifies this, imageUpload
      ensures formData == InitialForm(FormatLocalDateTimeForInput(now))
      ensures error == "" && success == "" && fieldErrors == map[]
      ensures imageUpload.error == "" && imageUpload.success == ""
      ensures imageUpload.uploading == old(imageUpload.uploading)
      ensures loading == old(loading) && createAnother == old(createAnother)
    {
      formData := InitialForm(FormatLocalDateTimeForInput(now));
      error := "";
      success := "";
      fieldErrors := map[];
      imageUpload.ClearMessages();
    }
  }
}
