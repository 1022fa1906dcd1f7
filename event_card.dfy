/** One event in a church's list: how its price is shown, and the card's
    edit, update, delete and image-upload handlers. */
module EventCard {
  import opened Http
  import opened DateTimeInput
  import opened ImageUpload
  import opened UseImageUpload

  /** An event as the backend returns it. An optional string that is missing
      is ""; the price may be missing. */
  datatype Event = Event(
    id: int, churchId: int, title: string, description: string,
    startDatetime: string, endDatetime: string, location: string, imageUrl: string,
    price: Option<real>, contactEmail: string, contactPhone: string, website: string)

  /** What the card shows for a price. */
  datatype PriceShown = Amount(value: real) | FreeChip | NoPrice

  /** A positive price is shown as an amount, a price of exactly zero as a
      'Free' chip, and a missing or negative price not at all. */
  function PriceDisplay(price: Option<real>): (shown: PriceShown)
    ensures shown.Amount? <==> price.Some? && price.value > 0.0
    ensures shown.Amount? ==> shown.value == price.value
    ensures shown.FreeChip? <==> price == Some(0.0)
  {
    match price
    case None => NoPrice
    case Some(p) => if p > 0.0 then Amount(p) else if p == 0.0 then FreeChip else NoPrice
  }

  /** The edit form. */
  datatype EditForm = EditForm(
    title: string, description: string, location: string, startDatetime: string,
    endDatetime: string, price: real, contactEmail: string, contactPhone: string,
    website: string, imageUrl: string)

  /** The edit form an event opens with: its own values, a missing optional
      string as "" and a missing price as 0. */
  function EditFormOf(e: Event): (form: EditForm)
    ensures form.price == (if e.price.Some? then e.price.value else 0.0)
    ensures form.title == e.title && form.startDatetime == e.startDatetime && form.imageUrl == e.imageUrl
  {
    EditForm(e.title, e.description, e.location, e.startDatetime, e.endDatetime,
             match e.price case Some(p) => p case None => 0.0,
             e.contactEmail, e.contactPhone, e.website, e.imageUrl)
  }

  /** The form's price starts at zero exactly for an event the card shows
      as free or with a missing price. */
  lemma FormPriceZeroIff(e: Event)
    ensures EditFormOf(e).price == 0.0 <==> PriceDisplay(e.price).FreeChip? || e.price.None?
  {
  }

  /** The text inputs of the edit form. */
  datatype Field = Title | Description | Location | StartDatetime | EndDatetime | ContactEmail | ContactPhone | Website | ImageUrl

  function Get(form: EditForm, f: Field): string {
    match f
    case Title => form.title
    case Description => form.description
    case Location => form.location
    case StartDatetime => form.startDatetime
    case EndDatetime => form.endDatetime
    case ContactEmail => form.contactEmail
    case ContactPhone => form.contactPhone
    case Website => form.website
    case ImageUrl => form.imageUrl
  }

  /** `{ ...prev, [field]: value }` */
  function Set(form: EditForm, f: Field, value: string): (r: EditForm)
    ensures forall g :: Get(r, g) == if g == f then value else Get(form, g)
    ensures r.price == form.price
  {
    match f
    case Title => form.(title := value)
    case Description => form.(description := value)
    case Location => form.(location := value)
    case StartDatetime => form.(startDatetime := value)
    case EndDatetime => form.(endDatetime := value)
    case ContactEmail => form.(contactEmail := value)
    case ContactPhone => form.(contactPhone := value)
    case Website => form.(website := value)
    case ImageUrl => form.(imageUrl := value)
  }

  /** The price input's `parseFloat(value) || 0`, `parsed` being what
      `parseFloat` gives (None for NaN): NaN and zero both become 0. */
  function PriceInput(parsed: Option<real>): (price: real)
    ensures parsed.None? ==> price == 0.0
    ensures parsed.Some? ==> price == parsed.value
  {
    match parsed
    case None => 0.0
    case Some(p) => p
  }

  /** `formatDateTimeForBackend` of this card: "" for an empty string or an
      invalid date, else `toISOString()` of the parsed date (`iso`, None when
      the date is invalid). */
  function BackendDatetime(s: string, iso: Option<string>): (r: string)
    ensures s == "" || iso.None? ==> r == ""
    ensures s != "" && iso.Some? ==> r == iso.value
  {
    if s == "" then "" else match iso case None => "" case Some(t) => t
  }

  /** The update request body: the form with both date-times converted. */
  function Submission(form: EditForm, startIso: Option<string>, endIso: Option<string>): (body: EditForm)
    ensures body.(startDatetime := form.startDatetime, endDatetime := form.endDatetime) == form
    ensures body.startDatetime == BackendDatetime(form.startDatetime, startIso)
    ensures body.endDatetime == BackendDatetime(form.endDatetime, endIso)
  {
    form.(startDatetime := BackendDatetime(form.startDatetime, startIso),
          endDatetime := BackendDatetime(form.endDatetime, endIso))
  }

  /** Saving is possible when not updating and both the title and the image
      URL are filled in. */
  function SaveDisabled(updating: bool, form: EditForm): (disabled: bool)
    ensures !disabled <==> !updating && form.title != "" && form.imageUrl != ""
  {
    updating || form.title == "" || form.imageUrl == ""
  }

  /** A card that opens on an event with a title and an image can be saved
      straight away, and so can one just cancelled back to it. */
  lemma OpenFormSavable(e: Event)
    requires e.title != "" && e.imageUrl != ""
    ensures !SaveDisabled(false, EditFormOf(e))
  {
  }

  class EventCardView {
    /** The event the list passes in. */
    const event: Event
    var deleteDialogOpen: bool
    var deleting: bool
    var isEditing: bool
    var editForm: EditForm
    var updating: bool

    const imageUpload: ImageUploadHook

    constructor (e: Event)
      ensures event == e && editForm == EditFormOf(e)
      ensures !deleteDialogOpen && !deleting && !isEditing && !updating
      ensures fresh(imageUpload)
    {
      event := e;
      deleteDialogOpen, deleting, isEditing, updating := false, false, false, false;
      editForm := EditFormOf(e);
      imageUpload := new ImageUploadHook();
    }

    /** The edit button. */
    method StartEditing()
      modifies this
      ensures isEditing && editForm == old(editForm)
      ensures deleteDialogOpen == old(deleteDialogOpen) && deleting == old(deleting) && updating == old(updating)
    {
      isEditing := true;
    }

    method SetDeleteDialogOpen(open: bool)
      modifies this
      ensures deleteDialogOpen == open && editForm == old(editForm) && isEditing == old(isEditing)
      ensures deleting == old(deleting) && updating == old(updating)
    {
      deleteDialogOpen := open;
    }

    method HandleChange(f: Field, value: string)
      modifies this
      ensures editForm == Set(old(editForm), f, value)
      ensures isEditing == old(isEditing) && deleteDialogOpen == old(deleteDialogOpen)
      ensures deleting == old(deleting) && updating == old(updating)
    {
      editForm := Set(editForm, f, value);
    }

    method HandlePriceChange(parsed: Option<real>)
      modifies this
      ensures editForm == old(editForm).(price := PriceInput(parsed))
      ensures isEditing == old(isEditing) && deleteDialogOpen == old(deleteDialogOpen)
      ensures deleting == old(deleting) && updating == old(updating)
    {
      editForm := editForm.(price := PriceInput(parsed));
    }

    /** `handleDelete`: `refreshed` says whether `onUpdate` was called. */
    method HandleDelete(reply: Reply<()>) returns (refreshed: bool)
      modifies this
      ensures !deleting
      ensures refreshed <==> reply.Responded? && reply.ok
      ensures deleteDialogOpen == (if refreshed then false else old(deleteDialogOpen))
      ensures editForm == old(editForm) && isEditing == old(isEditing) && updating == old(updating)
    {
      deleting := true;
      refreshed := false;
      match reply {
        case Responded(ok, _, _) =>
          if ok {
            refreshed := true;
            deleteDialogOpen := false;
          }
        case Threw =>
      }
      deleting := false;
    }

    /** `handleUpdate`: `startIso` and `endIso` are what `toISOString` gives
        for the two date-times; `sent` is the request body and `refreshed`
        whether `onUpdate` was called. */
    method HandleUpdate(startIso: Option<string>, endIso: Option<string>, reply: Reply<()>)
      returns (sent: EditForm, refreshed: bool)
      modifies this, imageUpload
      ensures !updating
      ensures sent == Submission(old(editForm), startIso, endIso)
      ensures refreshed <==> reply.Responded? && reply.ok
      ensures isEditing == (if refreshed then false else old(isEditing))
      ensures editForm == old(editForm) && deleteDialogOpen == old(deleteDialogOpen) && deleting == old(deleting)
      ensures imageUpload.error == "" && imageUpload.success == "" && imageUpload.uploading == old(imageUpload.uploading)
    {
      updating := true;
      imageUpload.ClearMessages();
      sent := Submission(editForm, startIso, endIso);
      refreshed := false;
      match reply {
        case Responded(ok, _, _) =>
          if ok {
            refreshed := true;
            isEditing := false;
          }
        case Threw =>
      }
      updating := false;
    }

    /** Cancel puts back the values the card opened with and leaves edit mode. */
    method HandleCancel()
      modifies this, imageUpload
      ensures editForm == EditFormOf(event) && !isEditing
      ensures deleteDialogOpen == old(deleteDialogOpen) && deleting == old(deleting) && updating == old(updating)
      ensures imageUpload.error == "" && imageUpload.success == "" && imageUpload.uploading == old(imageUpload.uploading)
    {
      editForm := EditFormOf(event);
      isEditing := false;
      imageUpload.ClearMessages();
    }

    /** `handleImageUpload`: a truthy uploaded URL becomes the form's image. */
    method HandleImageUpload(file: File, reply: Reply<UploadBody>) returns (clearLater: bool)
      modifies this, imageUpload
      ensures imageUpload.State() == AfterUpload(old(imageUpload.State()), file, imageUpload.maxSizeInMB, imageUpload.acceptedTypes, reply)
      ensures clearLater <==> var v := ValidateImageFile(file, imageUpload.maxSizeInMB, imageUpload.acceptedTypes);
        var r := UploadImageFile(reply);
        v.Valid? && r.success && r.imageUrl != ""
      ensures var v := ValidateImageFile(file, imageUpload.maxSizeInMB, imageUpload.acceptedTypes);
        var r := UploadImageFile(reply);
        editForm == (if v.Valid? && r.success && r.imageUrl != "" then old(editForm).(imageUrl := r.imageUrl)
                     else old(editForm))
      ensures isEditing == old(isEditing) && deleteDialogOpen == old(deleteDialogOpen)
      ensures deleting == old(deleting) && updating == old(updating)
    {
      var url;
      url, clearLater := imageUpload.UploadImage(file, reply);
      if url.Some? && url.value != "" {
        editForm := editForm.(imageUrl := url.value);
      }
    }

    /** The start input shows the stored start date-time in input form; the
        end input does the same when an end is set. `startParsed` and
        `endParsed` are what `new Date` reads back. */
    function ShownDatetimes(startParsed: LocalDate, endParsed: LocalDate): (shown: (string, string))
      reads this
      ensures shown.1 == "" <==> editForm.endDatetime == "" || endParsed.InvalidDate?
      ensures shown.0 == "" <==> editForm.startDatetime == "" || startParsed.InvalidDate?
    {
      (FormatDateTimeForInput(editForm.startDatetime, startParsed),
       if editForm.endDatetime != "" then FormatDateTimeForInput(editForm.endDatetime, endParsed) else "")
    }
  }
}
