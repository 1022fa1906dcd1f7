/** The announcement-creation page: its form, the three client-side checks,
    the submit handler, the image upload into the form, and what the form
    shows for each announcement type. */
module ManageAnnouncements {
  import opened Text
  import opened Http
  import opened FieldErrors
  import opened DateTimeInput
  import opened ImageUpload
  import opened AuthContext
  import opened UseImageUpload
  import Dashboard

  /** The page's form state. `kind` is the announcement's `type`; `day` is
      0 for Sunday through 6 for Saturday. */
  datatype AnnouncementForm = AnnouncementForm(
    title: string, description: string, imageUrl: string, kind: string,
    subcategory: string, startTime: string, endTime: string,
    recurrenceRule: string, isSpecial: bool, postedAt: string, day: int)

  /** The text fields an input edits. */
  datatype Field =
    Title | Description | ImageUrl | Kind | Subcategory | StartTime | EndTime | RecurrenceRule | PostedAt

  /** The key a field has in the form record and in the field-error record. */
  function FieldName(f: Field): string {
    match f
    case Title => "title"
    case Description => "description"
    case ImageUrl => "image_url"
    case Kind => "type"
    case Subcategory => "subcategory"
    case StartTime => "start_time"
    case EndTime => "end_time"
    case RecurrenceRule => "recurrence_rule"
    case PostedAt => "posted_at"
  }

  function Get(form: AnnouncementForm, f: Field): string {
    match f
    case Title => form.title
    case Description => form.description
    case ImageUrl => form.imageUrl
    case Kind => form.kind
    case Subcategory => form.subcategory
    case StartTime => form.startTime
    case EndTime => form.endTime
    case RecurrenceRule => form.recurrenceRule
    case PostedAt => form.postedAt
  }

  /** `{ ...prev, [field]: value }` */
  function Set(form: AnnouncementForm, f: Field, value: string): (r: AnnouncementForm)
    ensures forall g :: Get(r, g) == if g == f then value else Get(form, g)
    ensures r.isSpecial == form.isSpecial && r.day == form.day
  {
    match f
    case Title => form.(title := value)
    case Description => form.(description := value)
    case ImageUrl => form.(imageUrl := value)
    case Kind => form.(kind := value)
    case Subcategory => form.(subcategory := value)
    case StartTime => form.(startTime := value)
    case EndTime => form.(endTime := value)
    case RecurrenceRule => form.(recurrenceRule := value)
    case PostedAt => form.(postedAt := value)
  }

  /** The fields whose input also clears that field's error. */
  predicate ClearsOwnError(f: Field) {
    f == Title || f == Description || f == PostedAt
  }

  /** The form on mount and after a reset: a weekly announcement on Sunday,
      not special, posted `postedAt`, everything else empty. */
  function InitialForm(postedAt: string): (form: AnnouncementForm)
    ensures form.kind == "weekly" && form.day == 0 && !form.isSpecial && form.postedAt == postedAt
    ensures forall f :: f != Kind && f != PostedAt ==> Get(form, f) == ""
  {
    AnnouncementForm("", "", "", "weekly", "", "", "", "", false, postedAt, 0)
  }

  const TitleRequired := "Title is required"
  const DescriptionRequired := "Description is required"
  const PostedAtRequired := "Posted date and time is required"
  const CreatedMessage := "Announcement created successfully!"
  const NoChurchMessage := "No church assignment found. Please contact your administrator."
  const CreateFailedMessage := "Failed to create announcement. Please check your input and try again."
  const NetworkMessage := "Network error. Please check your connection and try again."

  /** The record `validateForm` builds: the title and description must hold
      something besides whitespace and the posted date-time must be present;
      each failing field is reported under its own key. */
  function ExpectedErrors(form: AnnouncementForm): (r: Errors)
    ensures "title" in r <==> AllWhitespace(form.title)
    ensures "description" in r <==> AllWhitespace(form.description)
    ensures "posted_at" in r <==> form.postedAt == ""
    ensures forall k :: k in r ==> k in {"title", "description", "posted_at"}
    ensures "title" in r ==> r["title"] == TitleRequired
    ensures "description" in r ==> r["description"] == DescriptionRequired
    ensures "posted_at" in r ==> r["posted_at"] == PostedAtRequired
  {
    BlankIffAllWhitespace(form.title);
    BlankIffAllWhitespace(form.description);
    var e: Errors := map[];
    var e := if IsBlank(form.title) then e["title" := TitleRequired] else e;
    var e := if IsBlank(form.description) then e["description" := DescriptionRequired] else e;
    if form.postedAt == "" then e["posted_at" := PostedAtRequired] else e
  }

  /** A form validates exactly when the title and description hold something
      besides whitespace and a posted date-time is present. */
  lemma ValidIffComplete(form: AnnouncementForm)
    ensures ExpectedErrors(form) == map[] <==>
      !AllWhitespace(form.title) && !AllWhitespace(form.description) && form.postedAt != ""
  {
    var r := ExpectedErrors(form);
    if r != map[] {
      var k :| k in r;
      assert k == "title" || k == "description" || k == "posted_at";
    }
  }

  /** The type menu's values, in order. */
  const Kinds: seq<string> := ["weekly", "special", "yearly", "general"]

  /** The day menu's labels: `day` is the index into this list. */
  const DayLabels: seq<string> := ["Sunday", "Monday", "Tuesday", "Wednesday", "Thursday", "Friday", "Saturday"]

  /** The day selector shows for weekly announcements only. */
  function ShowsDaySelector(kind: string): (shown: bool)
    ensures shown <==> kind == Kinds[0]
  {
    kind == "weekly"
  }

  /** The recurrence field shows for weekly and yearly announcements. */
  function ShowsRecurrence(kind: string): (shown: bool)
    ensures shown <==> kind == Kinds[0] || kind == Kinds[2]
  {
    kind == "weekly" || kind == "yearly"
  }

  /** Submitting is possible only when not already submitting and the title
      is not empty (whitespace alone enables the button; validation then
      rejects it). */
  function SubmitDisabled(submitting: bool, title: string): (disabled: bool)
    ensures !disabled <==> !submitting && title != ""
  {
    submitting || title == ""
  }

  /** Whatever is typed, the recurrence field accompanies the day selector,
      and the special and general types show neither. */
  lemma ConditionalFields(kind: string)
    ensures ShowsDaySelector(kind) ==> ShowsRecurrence(kind)
    ensures kind == Kinds[1] || kind == Kinds[3] ==> !ShowsDaySelector(kind) && !ShowsRecurrence(kind)
  {
  }

  /** What the page schedules with `setTimeout` after a successful create. */
  datatype FollowUp = Nothing | BackLater

  /** The request body: the form as it stands, with the church it is posted to. */
  datatype Post = Post(form: AnnouncementForm, churchId: int)

  class ManageAnnouncementsPage {
    var formData: AnnouncementForm
    var createAnother: bool
    var submitting: bool
    var submitError: string
    var submitSuccess: string
    var fieldErrors: Errors

    /** The page's `useImageUpload` state. */
    const imageUpload: ImageUploadHook

    /** Mounting at time `now`. */
    constructor (now: LocalDate)
      ensures formData == InitialForm(FormatLocalDateTimeForInput(now))
      ensures !createAnother && !submitting && submitError == "" && submitSuccess == "" && fieldErrors == map[]
      ensures fresh(imageUpload)
      ensures !imageUpload.uploading && imageUpload.error == "" && imageUpload.success == ""
    {
      formData := InitialForm(FormatLocalDateTimeForInput(now));
      createAnother, submitting := false, false;
      submitError, submitSuccess := "", "";
      fieldErrors := map[];
      imageUpload := new ImageUploadHook();
    }

    /** An input's `onChange`: the field takes the value; the title,
        description and posted inputs also clear their own error. */
    method HandleChange(f: Field, value: string)
      modifies this
      ensures formData == Set(old(formData), f, value)
      ensures fieldErrors == if ClearsOwnError(f) then ClearFieldError(old(fieldErrors), FieldName(f)) else old(fieldErrors)
      ensures submitError == old(submitError) && submitSuccess == old(submitSuccess)
      ensures submitting == old(submitting) && createAnother == old(createAnother)
    {
      formData := Set(formData, f, value);
      if ClearsOwnError(f) {
        fieldErrors := ClearFieldError(fieldErrors, FieldName(f));
      }
    }

    /** The day selector's `onChange`. */
    method HandleDayChange(day: int)
      modifies this
      ensures formData == old(formData).(day := day)
      ensures fieldErrors == old(fieldErrors) && submitError == old(submitError) && submitSuccess == old(submitSuccess)
      ensures submitting == old(submitting) && createAnother == old(createAnother)
    {
      formData := formData.(day := day);
    }

    /** The special checkbox's `onChange`. */
    method HandleSpecialChange(checked: bool)
      modifies this
      ensures formData == old(formData).(isSpecial := checked)
      ensures fieldErrors == old(fieldErrors) && submitError == old(submitError) && submitSuccess == old(submitSuccess)
      ensures submitting == old(submitting) && createAnother == old(createAnother)
    {
      formData := formData.(isSpecial := checked);
    }

    /** `validateForm`: builds the record check by check and stores it. */
    method ValidateForm() returns (valid: bool)
      modifies this
      ensures fieldErrors == ExpectedErrors(formData)
      ensures valid <==> !AllWhitespace(formData.title) && !AllWhitespace(formData.description) && formData.postedAt != ""
      ensures valid <==> fieldErrors == map[]
      ensures formData == old(formData) && submitError == old(submitError) && submitSuccess == old(submitSuccess)
      ensures submitting == old(submitting) && createAnother == old(createAnother)
    {
      var errors: Errors := map[];
      if IsBlank(formData.title) {
        errors := errors["title" := TitleRequired];
      }
      if IsBlank(formData.description) {
        errors := errors["description" := DescriptionRequired];
      }
      if formData.postedAt == "" {
        errors := errors["posted_at" := PostedAtRequired];
      }
      fieldErrors := errors;
      ValidIffComplete(formData);
      valid := |errors| == 0;
    }

    /** `handleSubmit`. `user` is the signed-in user, `reply` the answer to the
        create request when one is made and `now` the time a reset form is
        posted at. `sent` is the request body, `followUp` what is scheduled
        afterwards. */
    method HandleSubmit(user: User, reply: Reply<ErrorBody>, now: LocalDate)
      returns (sent: Option<Post>, followUp: FollowUp)
      modifies this, imageUpload
      ensures imageUpload.error == "" && imageUpload.success == ""
      ensures imageUpload.uploading == old(imageUpload.uploading)
      ensures createAnother == old(createAnother)
      ensures submitting == (if ExpectedErrors(old(formData)) == map[] then false else old(submitting))
      // Validation fails: the record says why, and nothing is sent.
      ensures ExpectedErrors(old(formData)) != map[] ==>
        && sent.None? && followUp == Nothing && formData == old(formData)
        && fieldErrors == ExpectedErrors(old(formData)) && submitError == "" && submitSuccess == ""
      // No church to post to: the page says so, and nothing is sent.
      ensures ExpectedErrors(old(formData)) == map[] && Dashboard.FirstChurchId(Some(user)).None? ==>
        && sent.None? && followUp == Nothing && formData == old(formData)
        && fieldErrors == map[] && submitError == NoChurchMessage && submitSuccess == ""
      // Sent: the form as it stands, to the first church.
      ensures ExpectedErrors(old(formData)) == map[] && Dashboard.FirstChurchId(Some(user)).Some? ==>
        && sent == Some(Post(old(formData), Dashboard.FirstChurchId(Some(user)).value))
        && (reply.Responded? && reply.ok ==>
              && submitSuccess == CreatedMessage && submitError == "" && fieldErrors == map[]
              && (createAnother ==> formData == InitialForm(FormatLocalDateTimeForInput(now)) && followUp == Nothing)
              && (!createAnother ==> formData == old(formData) && followUp == BackLater))
        && (reply.Responded? && !reply.ok ==>
              && submitSuccess == "" && formData == old(formData) && followUp == Nothing
              && submitError == FailureMessage(reply.status, reply.body, CreateFailedMessage)
              && fieldErrors == (match BackendFieldErrors(reply.status, reply.body)
                                 case Some(m) => m
                                 case None => map[]))
        && (reply.Threw? ==>
              submitSuccess == "" && submitError == NetworkMessage && fieldErrors == map[]
              && formData == old(formData) && followUp == Nothing)
    {
      submitError := "";
      submitSuccess := "";
      fieldErrors := map[];
      imageUpload.ClearMessages();
      var valid := ValidateForm();
      if !valid {
        return None, Nothing;
      }
      submitting := true;
      followUp := Nothing;
      // try {
      var churchId := Dashboard.FirstChurchId(Some(user));
      if churchId.None? {
        submitError := NoChurchMessage;
        sent := None;
      } else {
        sent := Some(Post(formData, churchId.value));
        match reply {
          case Responded(ok, status, body) =>
            if ok {
              submitSuccess := CreatedMessage;
              if createAnother {
                formData := InitialForm(FormatLocalDateTimeForInput(now));
              } else {
                followUp := BackLater;
              }
            } else {
              var backend := BackendFieldErrors(status, body);
              if backend.Some? {
                fieldErrors := backend.value;
              }
              submitError := FailureMessage(status, body, CreateFailedMessage);
            }
          case Threw =>
            submitError := NetworkMessage;
        }
      }
      // } finally {
      submitting := false;
      // }
    }

    /** `handleImageUpload(file)`: an uploaded URL, when the hook returns a
        truthy one, goes into the form; the page's own messages are left alone. */
    method HandleImageUpload(file: File, reply: Reply<UploadBody>) returns (clearLater: bool)
      modifies this, imageUpload
      ensures imageUpload.State() == AfterUpload(old(imageUpload.State()), file, imageUpload.maxSizeInMB, imageUpload.acceptedTypes, reply)
      ensures clearLater <==> var v := ValidateImageFile(file, imageUpload.maxSizeInMB, imageUpload.acceptedTypes);
        var r := UploadImageFile(reply);
        v.Valid? && r.success && r.imageUrl != ""
      ensures var v := ValidateImageFile(file, imageUpload.maxSizeInMB, imageUpload.acceptedTypes);
        var r := UploadImageFile(reply);
        formData == (if v.Valid? && r.success && r.imageUrl != "" then old(formData).(imageUrl := r.imageUrl)
                     else old(formData))
      ensures fieldErrors == old(fieldErrors) && submitError == old(submitError) && submitSuccess == old(submitSuccess)
      ensures submitting == old(submitting) && createAnother == old(createAnother)
    {
      var url;
      url, clearLater := imageUpload.UploadImage(file, reply);
      if url.Some? && url.value != "" {
        formData := formData.(imageUrl := url.value);
      }
    }
  }
}
