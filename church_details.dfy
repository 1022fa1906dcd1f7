/** The church details page: the church's profile (view and edit), and its
    events, announcements and donation methods, each list loaded from the
    backend and kept in step with what the cards report. */
module ChurchDetails {
  import opened Http
  import opened ImageUpload
  import opened UseImageUpload
  import opened EventCard
  import opened AnnouncementCard
  import opened DonationCard

  /** `prev.map(x => key(x) === key(updated) ? updated : x)` */
  function ReplaceById<T>(xs: seq<T>, key: T -> int, updated: T): (r: seq<T>)
    ensures |r| == |xs|
    ensures forall i :: 0 <= i < |xs| ==> r[i] == if key(xs[i]) == key(updated) then updated else xs[i]
  {
    if xs == [] then []
    else [if key(xs[0]) == key(updated) then updated else xs[0]] + ReplaceById(xs[1..], key, updated)
  }

  /** `prev.filter(x => key(x) !== id)` */
  function RemoveById<T(!new)>(xs: seq<T>, key: T -> int, id: int): (r: seq<T>)
    ensures |r| <= |xs|
    ensures forall x :: x in r <==> x in xs && key(x) != id
  {
    if xs == [] then []
    else (if key(xs[0]) != id then [xs[0]] else []) + RemoveById(xs[1..], key, id)
  }

  /** Removal keeps the survivors in their order: it works part by part. */
  lemma {:induction false} RemoveConcat<T(!new)>(a: seq<T>, b: seq<T>, key: T -> int, id: int)
    ensures RemoveById(a + b, key, id) == RemoveById(a, key, id) + RemoveById(b, key, id)
  {
    if a != [] {
      var head := if key(a[0]) != id then [a[0]] else [];
      TailOfConcat(a, b);
      assert RemoveById(a + b, key, id) == head + RemoveById(a[1..] + b, key, id);
      assert RemoveById(a, key, id) == head + RemoveById(a[1..], key, id);
      RemoveConcat(a[1..], b, key, id);
      var ra, rb := RemoveById(a[1..], key, id), RemoveById(b, key, id);
      assert head + (ra + rb) == (head + ra) + rb;
    } else {
      assert a + b == b;
    }
  }

  /** The tail of a concatenation whose first part is not empty. */
  lemma TailOfConcat<T>(a: seq<T>, b: seq<T>)
    requires a != []
    ensures (a + b)[0] == a[0] && (a + b)[1..] == a[1..] + b
  {
  }

  /** Removing an id no element has changes nothing; removing twice is removing once. */
  lemma {:induction false} RemoveAbsent<T(!new)>(xs: seq<T>, key: T -> int, id: int)
    ensures (forall x :: x in xs ==> key(x) != id) ==> RemoveById(xs, key, id) == xs
    ensures RemoveById(RemoveById(xs, key, id), key, id) == RemoveById(xs, key, id)
  {
    if xs != [] {
      assert forall x :: x in xs[1..] ==> x in xs;
      RemoveAbsent(xs[1..], key, id);
      var r := RemoveById(xs, key, id);
      var rest := RemoveById(xs[1..], key, id);
      if key(xs[0]) != id {
        RemoveConcat([xs[0]], rest, key, id);
        assert [xs[0]] + rest == r;
      } else {
        assert r == rest;
      }
    }
  }

  /** Replacing an element and then deleting its id is the same as deleting it. */
  lemma {:induction false} ReplaceThenRemove<T(!new)>(xs: seq<T>, key: T -> int, updated: T)
    ensures RemoveById(ReplaceById(xs, key, updated), key, key(updated)) == RemoveById(xs, key, key(updated))
  {
    if xs != [] {
      ReplaceThenRemove(xs[1..], key, updated);
      var ys := ReplaceById(xs, key, updated);
      assert ys[1..] == ReplaceById(xs[1..], key, updated);
    }
  }

  /** An update for an id no element has leaves the list as it was. */
  lemma ReplaceAbsent<T>(xs: seq<T>, key: T -> int, updated: T)
    requires forall x :: x in xs ==> key(x) != key(updated)
    ensures ReplaceById(xs, key, updated) == xs
  {
    var r := ReplaceById(xs, key, updated);
    assert forall i :: 0 <= i < |xs| ==> r[i] == xs[i];
  }

  function AnnouncementKey(a: Announcement): int { a.id }

  function DonationKey(d: Donation): int { d.id }

  /** The church's profile fields. */
  datatype ChurchField =
    | Name | SeniorPastor | Pastor | AssistantPastor
    | SeniorPastorAvatar | PastorAvatar | AssistantPastorAvatar
    | Address | City | State | Zip | ContactEmail | ContactPhone | Website
    | LogoUrl | BannerUrl | Description

  /** A church record, whole as the backend returns it or partial as the edit
      form holds it: the fields it has, with their values. */
  datatype ChurchRecord = ChurchRecord(id: Option<int>, fields: map<ChurchField, string>)

  /** `{}` */
  const EmptyRecord := ChurchRecord(None, map[])

  /** The JSON of a save reply: the stored church when OK, `error` otherwise. */
  datatype SaveBody = SaveBody(church: ChurchRecord, error: string)

  const LoadFailedMessage := "Failed to load church details"
  const LoadNetworkMessage := "Network error while loading church details"
  const SavedMessage := "Church details updated successfully!"
  const SaveFailedMessage := "Failed to update church details"
  const SaveNetworkMessage := "Network error while updating church details"

  /** What the page shows. */
  datatype Screen = Loading | NotFound | Details

  /** The loading text while the church loads, 'Church not found' when none
      was loaded, and the details otherwise. */
  function ScreenFor(loading: bool, church: Option<ChurchRecord>): (s: Screen)
    ensures s == Details <==> !loading && church.Some?
    ensures s == Loading <==> loading
  {
    if loading then Loading else if church.None? then NotFound else Details
  }

  /** Once `loadChurchDetails` has run, the details show exactly when a
      church was loaded, by this call or an earlier one; otherwise the page
      says the church was not found. */
  lemma LoadDecidesScreen(s: PageState, reply: Reply<ChurchRecord>)
    ensures var t := LoadOutcome(s, reply);
      ScreenFor(t.loading, t.church) == (if s.church.Some? || (reply.Responded? && reply.ok) then Details else NotFound)
  {
  }

  /** `church || {}`: the form's contents when editing ends. */
  function LoadedOrEmpty(church: Option<ChurchRecord>): (r: ChurchRecord)
    ensures church.Some? ==> r == church.value
    ensures church.None? ==> r.id.None? && r.fields == map[]
  {
    if church.Some? then church.value else EmptyRecord
  }

  /** The message a failed load of the church leaves: its own for a
      refusal, another for a request that throws. */
  function LoadError(reply: Reply<ChurchRecord>): (e: string)
    ensures reply.Responded? ==> e == LoadFailedMessage
    ensures reply.Threw? ==> e == LoadNetworkMessage
    ensures e != ""
  {
    if reply.Responded? then LoadFailedMessage else LoadNetworkMessage
  }

  /** The page after `loadChurchDetails`: a loaded church goes into both the
      page and the form, a failure only sets its message, and loading is
      over either way. */
  function LoadOutcome(s: PageState, reply: Reply<ChurchRecord>): (t: PageState)
    ensures !t.loading
    ensures t.church.Some? <==> s.church.Some? || (reply.Responded? && reply.ok)
    ensures !(reply.Responded? && reply.ok) ==> t.error != "" && t.church == s.church && t.formData == s.formData
    ensures reply.Responded? && reply.ok ==>
      t == s.(church := Some(reply.body), formData := reply.body, loading := false)
    ensures !(reply.Responded? && reply.ok) ==>
      t == s.(error := LoadError(reply), loading := false)
  {
    if reply.Responded? && reply.ok then s.(church := Some(reply.body), formData := reply.body, loading := false)
    else s.(error := LoadError(reply), loading := false)
  }

  /** The message a failed save leaves: the backend's `error` or a fixed
      one for a refusal, another for a request that throws. */
  function SaveError(reply: Reply<SaveBody>): (e: string)
    ensures reply.Responded? ==> e == Or(reply.body.error, SaveFailedMessage)
    ensures reply.Threw? ==> e == SaveNetworkMessage
    ensures e != ""
  {
    if reply.Responded? then Or(reply.body.error, SaveFailedMessage) else SaveNetworkMessage
  }

  /** The page after `handleSave`: the stored church replaces both page and
      form, edit mode ends and the success shows when the save is accepted;
      a failure only sets its message; saving is over either way. */
  function SaveOutcome(s: PageState, reply: Reply<SaveBody>): (t: PageState)
    ensures !t.saving
    ensures reply.Responded? && reply.ok ==> !t.editing && t.church == Some(t.formData) && t.error == ""
    ensures !(reply.Responded? && reply.ok) ==>
      t.error != "" && t.editing == s.editing && t.church == s.church && t.formData == s.formData
    ensures reply.Responded? && reply.ok ==>
      t == s.(church := Some(reply.body.church), formData := reply.body.church,
              editing := false, success := SavedMessage, error := "", saving := false)
    ensures !(reply.Responded? && reply.ok) ==>
      t == s.(error := SaveError(reply), saving := false)
  {
    if reply.Responded? && reply.ok then
      s.(church := Some(reply.body.church), formData := reply.body.church,
         editing := false, success := SavedMessage, error := "", saving := false)
    else s.(error := SaveError(reply), saving := false)
  }

  /** Every state cell of the page. */
  datatype PageState = PageState(
    church: Option<ChurchRecord>, events: seq<Event>, announcements: seq<Announcement>,
    donations: seq<Donation>, loading: bool, eventsLoading: bool, announcementsLoading: bool,
    donationsLoading: bool, editing: bool, saving: bool, error: string, success: string,
    addDonationOpen: bool, formData: ChurchRecord)

  class ChurchDetailsPage {
    const churchId: int
    var church: Option<ChurchRecord>
    var events: seq<Event>
    var announcements: seq<Announcement>
    var donations: seq<Donation>
    var loading: bool
    var eventsLoading: bool
    var announcementsLoading: bool
    var donationsLoading: bool
    var editing: bool
    var saving: bool
    var error: string
    var success: string
    var addDonationOpen: bool
    var formData: ChurchRecord

    const imageUpload: ImageUploadHook

    function State(): PageState
      reads this
    {
      PageState(church, events, announcements, donations, loading, eventsLoading,
                announcementsLoading, donationsLoading, editing, saving, error, success,
                addDonationOpen, formData)
    }

    function Shown(): Screen
      reads this
    {
      ScreenFor(loading, church)
    }

    constructor (churchId: int)
      ensures this.churchId == churchId
      ensures State() == PageState(None, [], [], [], true, true, true, true, false, false, "", "", false, EmptyRecord)
      ensures fresh(imageUpload)
    {
      this.churchId := churchId;
      church, events, announcements, donations := None, [], [], [];
      loading, eventsLoading, announcementsLoading, donationsLoading := true, true, true, true;
      editing, saving, addDonationOpen := false, false, false;
      error, success := "", "";
      formData := EmptyRecord;
      imageUpload := new ImageUploadHook();
    }

    /** A church from the backend becomes both the page's church and the
        form's contents. */
    method Adopt(record: ChurchRecord)
      modifies this
      ensures State() == old(State()).(church := Some(record), formData := record)
    {
      church := Some(record);
      formData := record;
    }

    /** A save the backend accepted: the stored church is adopted, edit mode
        ends and the success shows. */
    method AcceptSaved(record: ChurchRecord)
      modifies this
      ensures State() == old(State()).(church := Some(record), formData := record,
                                       editing := false, success := SavedMessage)
    {
      Adopt(record);
      editing := false;
      success := SavedMessage;
    }

    /** `loadChurchDetails`: the church and the form both take the loaded
        record; a failure only sets the error. */
    method LoadChurchDetails(reply: Reply<ChurchRecord>)
      modifies this
      ensures State() == LoadOutcome(old(State()), reply)
    {
      loading := true;
      match reply {
        case Responded(ok, _, body) =>
          if ok {
            Adopt(body);
          } else {
            error := LoadFailedMessage;
          }
        case Threw =>
          error := LoadNetworkMessage;
      }
      loading := false;
    }

    /** `loadEvents`: a failure leaves the list as it was. */
    method LoadEvents(reply: Reply<seq<Event>>)
      modifies this
      ensures State() == old(State()).(
        events := if reply.Responded? && reply.ok then reply.body else old(events),
        eventsLoading := false)
    {
      eventsLoading := true;
      if reply.Responded? && reply.ok {
        events := reply.body;
      }
      eventsLoading := false;
    }

    /** `loadAnnouncements`: a failure leaves the list as it was. */
    method LoadAnnouncements(reply: Reply<seq<Announcement>>)
      modifies this
      ensures State() == old(State()).(
        announcements := if reply.Responded? && reply.ok then reply.body else old(announcements),
        announcementsLoading := false)
    {
      announcementsLoading := true;
      if reply.Responded? && reply.ok {
        announcements := reply.body;
      }
      announcementsLoading := false;
    }

    /** `loadDonations`: a failure leaves the list as it was. */
    method LoadDonations(reply: Reply<seq<Donation>>)
      modifies this
      ensures State() == old(State()).(
        donations := if reply.Responded? && reply.ok then reply.body else old(donations),
        donationsLoading := false)
    {
      donationsLoading := true;
      if reply.Responded? && reply.ok {
        donations := reply.body;
      }
      donationsLoading := false;
    }

    /** An announcement card's `onUpdate`: every announcement with the same id
        becomes the updated one, in place. */
    method HandleAnnouncementUpdate(updated: Announcement)
      modifies this
      ensures State() == old(State()).(announcements := ReplaceById(old(announcements), AnnouncementKey, updated))
      ensures |announcements| == |old(announcements)|
    {
      announcements := ReplaceById(announcements, AnnouncementKey, updated);
    }

    /** An announcement card's `onDelete`. */
    method HandleAnnouncementDelete(id: int)
      modifies this
      ensures State() == old(State()).(announcements := RemoveById(old(announcements), AnnouncementKey, id))
      ensures forall a :: a in announcements <==> a in old(announcements) && a.id != id
    {
      announcements := RemoveById(announcements, AnnouncementKey, id);
    }

    /** `handleDonationDelete`: the list loses that id only when the backend agrees. */
    method HandleDonationDelete(id: int, reply: Reply<()>)
      modifies this
      ensures State() == old(State()).(
        donations := if reply.Responded? && reply.ok then RemoveById(old(donations), DonationKey, id) else old(donations))
    {
      if reply.Responded? && reply.ok {
        donations := RemoveById(donations, DonationKey, id);
      }
    }

    /** `handleDonationAdd`: on OK the stored record goes at the end;
        `failed` says whether the returned promise rejects. */
    method HandleDonationAdd(data: NewDonation, reply: Reply<Donation>) returns (failed: bool)
      modifies this
      ensures failed <==> !(reply.Responded? && reply.ok)
      ensures State() == old(State()).(donations := if failed then old(donations) else old(donations) + [reply.body])
    {
      if reply.Responded? && reply.ok {
        donations := donations + [reply.body];
        failed := false;
      } else {
        failed := true;
      }
    }

    /** `handleDonationUpdate`: on OK every donation with the id of the
        record the backend returns is replaced by it. */
    method HandleDonationUpdate(updated: Donation, reply: Reply<Donation>) returns (failed: bool)
      modifies this
      ensures failed <==> !(reply.Responded? && reply.ok)
      ensures State() == old(State()).(
        donations := if failed then old(donations) else ReplaceById(old(donations), DonationKey, reply.body))
    {
      if reply.Responded? && reply.ok {
        donations := ReplaceById(donations, DonationKey, reply.body);
        failed := false;
      } else {
        failed := true;
      }
    }

    method HandleEdit()
      modifies this
      ensures State() == old(State()).(editing := true, error := "", success := "")
    {
      editing := true;
      error := "";
      success := "";
    }

    /** Cancel leaves edit mode and puts the loaded church back in the form. */
    method HandleCancel()
      modifies this
      ensures State() == old(State()).(
        editing := false, formData := LoadedOrEmpty(old(church)),
        error := "", success := "")
    {
      editing := false;
      formData := LoadedOrEmpty(church);
      error := "";
      success := "";
    }

    /** `handleSave`: `sent` is the request body. */
    method HandleSave(reply: Reply<SaveBody>) returns (sent: ChurchRecord)
      modifies this
      ensures sent == old(formData)
      ensures State() == SaveOutcome(old(State()), reply)
    {
      saving := true;
      error := "";
      sent := formData;
      match reply {
        case Responded(ok, _, body) =>
          if ok {
            AcceptSaved(body.church);
          } else {
            error := Or(body.error, SaveFailedMessage);
          }
        case Threw =>
          error := SaveNetworkMessage;
      }
      saving := false;
    }

    /** `handleInputChange`: only the named field of the form changes. */
    method HandleInputChange(field: ChurchField, value: string)
      modifies this
      ensures State() == old(State()).(formData := old(formData).(fields := old(formData).fields[field := value]))
      ensures forall g :: g != field ==> (g in formData.fields <==> g in old(formData).fields)
      ensures forall g :: g != field && g in formData.fields ==> formData.fields[g] == old(formData).fields[g]
    {
      formData := formData.(fields := formData.fields[field := value]);
    }

    method SetAddDonationOpen(open: bool)
      modifies this
      ensures State() == old(State()).(addDonationOpen := open)
    {
      addDonationOpen := open;
    }

    /** `handleImageUpload(file, field)`: the page's and the hook's messages
        are cleared, then a truthy uploaded URL goes into the named field. */
    method HandleImageUpload(file: File, field: ChurchField, reply: Reply<UploadBody>) returns (clearLater: bool)
      modifies this, imageUpload
      ensures imageUpload.State() == AfterUpload(old(imageUpload.State()), file, imageUpload.maxSizeInMB, imageUpload.acceptedTypes, reply)
      ensures clearLater <==> var v := ValidateImageFile(file, imageUpload.maxSizeInMB, imageUpload.acceptedTypes);
        var r := UploadImageFile(reply);
        v.Valid? && r.success && r.imageUrl != ""
      ensures State() == old(State()).(error := "", success := "", formData := formData)
      ensures var v := ValidateImageFile(file, imageUpload.maxSizeInMB, imageUpload.acceptedTypes);
        var r := UploadImageFile(reply);
        formData == if v.Valid? && r.success && r.imageUrl != ""
                    then old(formData).(fields := old(formData).fields[field := r.imageUrl])
                    else old(formData)
    {
      error := "";
      success := "";
      imageUpload.ClearMessages();
      var url;
      url, clearLater := imageUpload.UploadImage(file, reply);
      PutImage(field, url);
    }

    /** `if (imageUrl) handleInputChange(field, imageUrl)` */
    method PutImage(field: ChurchField, url: Option<string>)
      modifies this
      ensures State() == old(State()).(formData := formData)
      ensures formData == if url.Some? && url.value != ""
                          then old(formData).(fields := old(formData).fields[field := url.value])
                          else old(formData)
    {
      if url.Some? && url.value != "" {
        formData := formData.(fields := formData.fields[field := url.value]);
      }
    }
  }
}
