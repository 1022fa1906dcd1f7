/** One announcement in a church's list: how its type, day and times are
    shown, and the card's edit, save, delete and image-upload handlers. */
module AnnouncementCard {
  import opened Text
  import opened Http
  import opened ImageUpload
  import opened UseImageUpload

  /** An announcement as the backend returns it. An optional string that is
      missing is ""; `day` (0 for Sunday through 6 for Saturday) may be missing. */
  datatype Announcement = Announcement(
    id: int, churchId: int, title: string, description: string, imageUrl: string,
    postedAt: string, kind: string, subcategory: string, startTime: string,
    endTime: string, recurrenceRule: string, isSpecial: bool, day: Option<int>)

  /** The day names, indexed by `day`. */
  const Days: seq<string> := ["Sunday", "Monday", "Tuesday", "Wednesday", "Thursday", "Friday", "Saturday"]

  /** `getDayName`: the name of a day number, or null when the number is
      missing or names no day. */
  function DayName(day: Option<int>): (name: Option<string>)
    ensures name.Some? <==> day.Some? && 0 <= day.value < |Days|
    ensures name.Some? ==> name.value == Days[day.value]
  {
    match day
    case None => None
    case Some(d) => if 0 <= d < |Days| then Some(Days[d]) else None
  }

  /** Distinct day numbers are shown as distinct names. */
  lemma DayNamesDistinct(d: int, e: int)
    requires DayName(Some(d)).Some? && DayName(Some(e)).Some?
    ensures DayName(Some(d)) == DayName(Some(e)) <==> d == e
  {
  }

  /** `getTypeColor`: the chip colour of an announcement type. */
  function TypeColor(kind: string): (color: string)
    ensures color == "primary" <==> kind == "weekly"
    ensures color == "error" <==> kind == "special"
    ensures color == "warning" <==> kind == "yearly"
    ensures color == "default" <==> kind != "weekly" && kind != "special" && kind != "yearly"
  {
    match kind
    case "weekly" => "primary"
    case "special" => "error"
    case "yearly" => "warning"
    case _ => "default"
  }

  /** `AM` or `PM` in any letter case. */
  predicate IsMeridiem(s: string) {
    |s| == 2 && (UpperChar(s[0]) == 'A' || UpperChar(s[0]) == 'P') && UpperChar(s[1]) == 'M'
  }

  /** One or two digits, a colon, two digits: `\d{1,2}:\d{2}` over the whole string. */
  predicate IsClockDigits(s: string) {
    (|s| == 4 || |s| == 5) && s[|s| - 3] == ':' && AllDigits(s[..|s| - 3]) && AllDigits(s[|s| - 2..])
  }

  /** `/^\d{1,2}:\d{2}\s?(AM|PM)$/i` read from the end: the meridiem, then an
      optional whitespace character, then the clock digits. */
  predicate MatchesClockPattern(s: string) {
    |s| >= 6 && IsMeridiem(s[|s| - 2..]) &&
    var rest := s[..|s| - 2];
    IsClockDigits(rest) || (IsJsWhitespace(rest[|rest| - 1]) && IsClockDigits(rest[..|rest| - 1]))
  }

  /** The same pattern read from the start: `hourLen` hour digits, a colon,
      two minute digits, `gap` whitespace characters, the meridiem. */
  predicate Layout(s: string, hourLen: nat, gap: nat) {
    && |s| == hourLen + gap + 5
    && AllDigits(s[..hourLen])
    && s[hourLen] == ':'
    && AllDigits(s[hourLen + 1..hourLen + 3])
    && AllWhitespace(s[hourLen + 3..hourLen + 3 + gap])
    && IsMeridiem(s[hourLen + 3 + gap..])
  }

  /** The strings the pattern describes: one or two hour digits and at most
      one whitespace character before the meridiem. */
  predicate ClockShape(s: string) {
    exists hourLen: nat, gap: nat | 1 <= hourLen <= 2 && gap <= 1 :: Layout(s, hourLen, gap)
  }

  /** The end-first matcher accepts exactly the strings of the pattern. */
  lemma ClockPatternIff(s: string)
    ensures MatchesClockPattern(s) <==> ClockShape(s)
  {
    if MatchesClockPattern(s) {
      var rest := s[..|s| - 2];
      var gap: nat := if IsClockDigits(rest) then 0 else 1;
      var digits := rest[..|rest| - gap];
      var hourLen: nat := |digits| - 3;
      assert digits == s[..hourLen + 3];
      assert s[..hourLen] == digits[..|digits| - 3];
      assert s[hourLen + 1..hourLen + 3] == digits[|digits| - 2..];
      assert s[hourLen + 3 + gap..] == s[|s| - 2..];
      assert Layout(s, hourLen, gap);
    }
    if ClockShape(s) {
      var hourLen: nat, gap: nat :| 1 <= hourLen <= 2 && gap <= 1 && Layout(s, hourLen, gap);
      var rest := s[..|s| - 2];
      assert s[hourLen + 3 + gap..] == s[|s| - 2..];
      var digits := rest[..|rest| - gap];
      assert digits == s[..hourLen + 3];
      assert digits[..|digits| - 3] == s[..hourLen];
      assert digits[|digits| - 2..] == s[hourLen + 1..hourLen + 3];
      assert IsClockDigits(digits);
      if gap == 1 {
        assert rest[|rest| - 1] == s[hourLen + 3..hourLen + 4][0];
      } else {
        assert rest == digits;
      }
    }
  }

  /** `formatTimeForDisplay`: "" for an empty time; a time already written
      like "8:00 AM" unchanged; otherwise what the browser renders for it
      when it reads as a date (`converted`), or the text itself. */
  function FormatTimeForDisplay(time: string, converted: Option<string>): (shown: string)
  {
    if time == "" then ""
    else if MatchesClockPattern(time) then time
    else if converted.Some? then converted.value
    else time
  }

  /** A time written as hours, minutes and AM or PM is shown exactly as
      written, whatever the browser would make of it; empty shows empty. */
  lemma DisplayKeepsClockTimes(time: string, converted: Option<string>)
    ensures ClockShape(time) ==> FormatTimeForDisplay(time, converted) == time
    ensures time == "" ==> FormatTimeForDisplay(time, converted) == ""
    ensures !ClockShape(time) && time != "" && converted.None? ==> FormatTimeForDisplay(time, converted) == time
  {
    ClockPatternIff(time);
  }

  /** Once a time has been turned into clock form, showing it again changes nothing. */
  lemma DisplayIdempotent(time: string, converted: Option<string>, again: Option<string>)
    requires converted.Some? ==> ClockShape(converted.value)
    ensures var shown := FormatTimeForDisplay(time, converted);
      shown != time ==> FormatTimeForDisplay(shown, again) == shown
  {
    var shown := FormatTimeForDisplay(time, converted);
    if shown != time {
      ClockPatternIff(shown);
    }
  }

  /** The day chip shows for a weekly announcement whose day has a name. */
  function ShowsDayChip(a: Announcement): (shown: bool)
    ensures shown <==> a.kind == "weekly" && a.day.Some? && 0 <= a.day.value <= 6
  {
    a.kind == "weekly" && DayName(a.day).Some?
  }

  /** The edit form. */
  datatype EditForm = EditForm(
    title: string, description: string, imageUrl: string, kind: string,
    subcategory: string, startTime: string, endTime: string,
    recurrenceRule: string, isSpecial: bool, day: int)

  /** The edit form an announcement opens with: its own values, a missing
      optional string as "" and a missing day as Sunday. */
  function EditFormOf(a: Announcement): (form: EditForm)
    ensures form.day == (if a.day.Some? then a.day.value else 0)
    ensures form.isSpecial == a.isSpecial && form.kind == a.kind
  {
    EditForm(a.title, a.description, a.imageUrl, a.kind, a.subcategory,
             a.startTime, a.endTime, a.recurrenceRule, a.isSpecial,
             match a.day case Some(d) => d case None => 0)
  }

  /** The text inputs of the edit form. */
  datatype Field = Title | Description | ImageUrl | Kind | Subcategory | StartTime | EndTime | RecurrenceRule

  function Get(form: EditForm, f: Field): string {
    match f
    case Title => form.title
    case Description => form.description
    case ImageUrl => form.imageUrl
    case Kind => form.kind
    case Subcategory => form.subcategory
    case StartTime => form.startTime
    case EndTime => form.endTime
    case RecurrenceRule => form.recurrenceRule
  }

  /** `{ ...prev, [field]: value }` */
  function Set(form: EditForm, f: Field, value: string): (r: EditForm)
    ensures forall g :: Get(r, g) == if g == f then value else Get(form, g)
    ensures r.isSpecial == form.isSpecial && r.day == form.day
  {
    match f
    case Title => form.(title := value)
    case Description => form.(description := value)
    case ImageUrl => form.(imageUrl := value)
    case Kind => form.(kind := value)
    case Subcategory => form.(subcategory := value)
    case StartTime => form.(startTime := value)
    case EndTime => form.(endTime := value)
    case RecurrenceRule => form.(recurrenceRule := value)
  }

  /** Saving is possible when not saving already and the title holds
      something besides whitespace. */
  function SaveDisabled(loading: bool, title: string): (disabled: bool)
    ensures !disabled <==> !loading && !AllWhitespace(title)
  {
    BlankIffAllWhitespace(title);
    loading || IsBlank(title)
  }

  const TitleRequired := "Title is required"
  const UpdatedMessage := "Announcement updated successfully!"
  const UpdateFailedMessage := "Failed to update announcement"
  const UpdateNetworkMessage := "Network error while updating announcement"
  const DeleteFailedMessage := "Failed to delete announcement"
  const DeleteNetworkMessage := "Network error while deleting announcement"

  /** The JSON of an update reply, read as the stored announcement when the
      reply is OK and for its `error` member otherwise. */
  datatype UpdateBody = UpdateBody(announcement: Announcement, error: string)

  class AnnouncementCardView {
    /** The announcement the list passes in. */
    var announcement: Announcement
    var isEditing: bool
    var deleteDialogOpen: bool
    var loading: bool
    var error: string
    var success: string
    var editForm: EditForm

    const imageUpload: ImageUploadHook

    constructor (a: Announcement)
      ensures announcement == a && editForm == EditFormOf(a)
      ensures !isEditing && !deleteDialogOpen && !loading && error == "" && success == ""
      ensures fresh(imageUpload)
    {
      announcement := a;
      isEditing, deleteDialogOpen, loading := false, false, false;
      error, success := "", "";
      editForm := EditFormOf(a);
      imageUpload := new ImageUploadHook();
    }

    /** The list re-renders the card with a new record (after a save it
        replaces the announcement in place): only the prop changes, the card's
        own state, its form included, stays as it was. */
    method ReceiveProps(a: Announcement)
      modifies this
      ensures announcement == a
      ensures editForm == old(editForm) && isEditing == old(isEditing) && loading == old(loading)
      ensures error == old(error) && success == old(success) && deleteDialogOpen == old(deleteDialogOpen)
    {
      announcement := a;
    }

    method HandleEdit()
      modifies this
      ensures announcement == old(announcement)
      ensures isEditing && error == "" && success == ""
      ensures editForm == old(editForm) && loading == old(loading) && deleteDialogOpen == old(deleteDialogOpen)
    {
      isEditing := true;
      error, success := "", "";
    }

    /** Cancel leaves edit mode and puts back the values of the announcement the
        card currently holds. */
    method HandleCancel()
      modifies this
      ensures announcement == old(announcement)
      ensures !isEditing && editForm == EditFormOf(announcement) && error == "" && success == ""
      ensures loading == old(loading) && deleteDialogOpen == old(deleteDialogOpen)
    {
      isEditing := false;
      editForm := EditFormOf(announcement);
      error, success := "", "";
    }

    method HandleChange(f: Field, value: string)
      modifies this
      ensures announcement == old(announcement)
      ensures editForm == Set(old(editForm), f, value)
      ensures isEditing == old(isEditing) && loading == old(loading) && error == old(error) && success == old(success)
      ensures deleteDialogOpen == old(deleteDialogOpen)
    {
      editForm := Set(editForm, f, value);
    }

    method HandleDayChange(day: int)
      modifies this
      ensures announcement == old(announcement)
      ensures editForm == old(editForm).(day := day)
      ensures isEditing == old(isEditing) && loading == old(loading) && error == old(error) && success == old(success)
      ensures deleteDialogOpen == old(deleteDialogOpen)
    {
      editForm := editForm.(day := day);
    }

    method HandleSpecialChange(checked: bool)
      modifies this
      ensures announcement == old(announcement)
      ensures editForm == old(editForm).(isSpecial := checked)
      ensures isEditing == old(isEditing) && loading == old(loading) && error == old(error) && success == old(success)
      ensures deleteDialogOpen == old(deleteDialogOpen)
    {
      editForm := editForm.(isSpecial := checked);
    }

    /** `handleSave`. `sent` is the request body when a request is made,
        `updated` what `onUpdate` receives, and `clearLater` whether the
        success message is scheduled to disappear. */
    method HandleSave(reply: Reply<UpdateBody>) returns (sent: Option<EditForm>, updated: Option<Announcement>, clearLater: bool)
      modifies this
      ensures announcement == old(announcement)
      ensures editForm == old(editForm) && deleteDialogOpen == old(deleteDialogOpen)
      // A whitespace-only title is refused before any request.
      ensures AllWhitespace(old(editForm).title) ==>
        && sent.None? && updated.None? && !clearLater
        && error == TitleRequired && isEditing == old(isEditing)
        && loading == old(loading) && success == old(success)
      ensures !AllWhitespace(old(editForm).title) ==>
        && sent == Some(old(editForm)) && !loading
        && (reply.Responded? && reply.ok ==>
              && updated == Some(reply.body.announcement) && clearLater
              && !isEditing && error == "" && success == UpdatedMessage)
        && (reply.Responded? && !reply.ok ==>
              && updated.None? && !clearLater && isEditing == old(isEditing) && success == old(success)
              && error == Or(reply.body.error, UpdateFailedMessage))
        && (reply.Threw? ==>
              && updated.None? && !clearLater && isEditing == old(isEditing) && success == old(success)
              && error == UpdateNetworkMessage)
    {
      BlankIffAllWhitespace(editForm.title);
      updated, clearLater := None, false;
      if IsBlank(editForm.title) {
        error := TitleRequired;
        return None, None, false;
      }
      loading := true;
      error := "";
      sent := Some(editForm);
      match reply {
        case Responded(ok, _, body) =>
          if ok {
            updated := Some(body.announcement);
            isEditing := false;
            success := UpdatedMessage;
            clearLater := true;
          } else {
            error := Or(body.error, UpdateFailedMessage);
          }
        case Threw =>
          error := UpdateNetworkMessage;
      }
      loading := false;
    }

    /** The timer a successful save schedules. */
    method SuccessTimeout()
      modifies this
      ensures announcement == old(announcement)
      ensures success == "" && error == old(error) && isEditing == old(isEditing)
      ensures editForm == old(editForm) && loading == old(loading) && deleteDialogOpen == old(deleteDialogOpen)
    {
      success := "";
    }

    method SetDeleteDialogOpen(open: bool)
      modifies this
      ensures announcement == old(announcement)
      ensures deleteDialogOpen == open
      ensures editForm == old(editForm) && loading == old(loading) && isEditing == old(isEditing)
      ensures error == old(error) && success == old(success)
    {
      deleteDialogOpen := open;
    }

    /** `handleDelete`: `deleted` is the id passed to `onDelete`. */
    method HandleDelete(reply: Reply<()>) returns (deleted: Option<int>)
      modifies this
      ensures announcement == old(announcement)
      ensures !loading && editForm == old(editForm) && isEditing == old(isEditing) && success == old(success)
      ensures reply.Responded? && reply.ok ==>
        deleted == Some(announcement.id) && !deleteDialogOpen && error == old(error)
      ensures reply.Responded? && !reply.ok ==>
        deleted.None? && deleteDialogOpen == old(deleteDialogOpen) && error == DeleteFailedMessage
      ensures reply.Threw? ==>
        deleted.None? && deleteDialogOpen == old(deleteDialogOpen) && error == DeleteNetworkMessage
    {
      loading := true;
      deleted := None;
      match reply {
        case Responded(ok, _, _) =>
          if ok {
            deleted := Some(announcement.id);
            deleteDialogOpen := false;
          } else {
            error := DeleteFailedMessage;
          }
        case Threw =>
          error := DeleteNetworkMessage;
      }
      loading := false;
    }

    /** `handleImageUpload`: a truthy uploaded URL becomes the form's image. */
    method HandleImageUpload(file: File, reply: Reply<UploadBody>) returns (clearLater: bool)
      modifies this, imageUpload
      ensures imageUpload.State() == AfterUpload(old(imageUpload.State()), file, imageUpload.maxSizeInMB, imageUpload.acceptedTypes, reply)
      ensures announcement == old(announcement)
      ensures clearLater <==> var v := ValidateImageFile(file, imageUpload.maxSizeInMB, imageUpload.acceptedTypes);
        var r := UploadImageFile(reply);
        v.Valid? && r.success && r.imageUrl != ""
      ensures var v := ValidateImageFile(file, imageUpload.maxSizeInMB, imageUpload.acceptedTypes);
        var r := UploadImageFile(reply);
        editForm == (if v.Valid? && r.success && r.imageUrl != "" then old(editForm).(imageUrl := r.imageUrl)
                     else old(editForm))
      ensures isEditing == old(isEditing) && loading == old(loading) && error == old(error) && success == old(success)
      ensures deleteDialogOpen == old(deleteDialogOpen)
    {
      var url;
      url, clearLater := imageUpload.UploadImage(file, reply);
      if url.Some? && url.value != "" {
        editForm := editForm.(imageUrl := url.value);
      }
    }
  }
}
