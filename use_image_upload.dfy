/** `useImageUpload`: three state cells (`uploading`, `error`, `success`)
    written by `clearMessages` and by the callbacks `uploadImage` hands to the
    upload workflow. */
module UseImageUpload {
  import opened Http
  import opened ImageUpload

  const UploadedMessage := "Image uploaded successfully!"

  datatype HookState = HookState(uploading: bool, error: string, success: string)

  /** The state write performed by each callback `uploadImage` supplies. */
  function OnCallback(s: HookState, c: Callback): HookState {
    match c
    case Start => s.(uploading := true)
    case Success(_) => s.(success := UploadedMessage)
    case Error(m) => s.(error := m)
    case Complete => s.(uploading := false)
  }

  /** The state after the given callbacks have run, first to last. */
  function Replay(s: HookState, calls: seq<Callback>): HookState
    decreases |calls|
  {
    if calls == [] then s else Replay(OnCallback(s, calls[0]), calls[1..])
  }

  /** A run that passed validation: `uploading` is raised, the report writes
      its message cell and leaves the other as it was, and `uploading` ends
      lowered whatever the report. */
  lemma {:induction false} ReplayUpload(s: HookState, report: Callback)
    requires report.Success? || report.Error?
    ensures var t := Replay(s, [Start, report, Complete]);
      && !t.uploading
      && (report.Success? ==> t.success == UploadedMessage && t.error == s.error)
      && (report.Error? ==> t.error == report.message && t.success == s.success)
  {
    var s1 := OnCallback(s, Start);
    var s2 := OnCallback(s1, report);
    assert [Start, report, Complete][1..] == [report, Complete];
    assert [report, Complete][1..] == [Complete];
    assert [Complete][1..] == [];
    assert Replay(s2, [Complete]) == OnCallback(s2, Complete);
    assert Replay(s1, [report, Complete]) == Replay(s2, [Complete]);
  }

  /** The hook's state once `uploadImage(file)` has settled, from state `s`:
      both messages are cleared first; a rejected file leaves only its
      validation error, with `uploading` as it was; an upload that ran leaves
      `uploading` lowered and either the success message or the reported
      error. */
  function AfterUpload(s: HookState, file: File, maxSizeInMB: nat, acceptedTypes: seq<string>,
                       reply: Reply<UploadBody>): HookState
  {
    var v := ValidateImageFile(file, maxSizeInMB, acceptedTypes);
    var r := UploadImageFile(reply);
    if v.Invalid? then HookState(s.uploading, v.error, "")
    else if r.success && r.imageUrl != "" then HookState(false, "", UploadedMessage)
    else HookState(false, Or(r.error, ReportFallbackMessage), "")
  }

  /** `AfterUpload` is what the callbacks the workflow invokes write, one
      after another, over the cleared messages. */
  lemma {:induction false} AfterUploadReplays(s: HookState, file: File, maxSizeInMB: nat, acceptedTypes: seq<string>,
                                              reply: Reply<UploadBody>)
    ensures var v := ValidateImageFile(file, maxSizeInMB, acceptedTypes);
      var cleared := HookState(s.uploading, "", "");
      var calls := if v.Invalid? then [Error(v.error)] else [Start, Report(UploadImageFile(reply)), Complete];
      AfterUpload(s, file, maxSizeInMB, acceptedTypes, reply) == Replay(cleared, calls)
  {
    var v := ValidateImageFile(file, maxSizeInMB, acceptedTypes);
    var cleared := HookState(s.uploading, "", "");
    if v.Invalid? {
      assert [Error(v.error)][1..] == [];
    } else {
      ReplayUpload(cleared, Report(UploadImageFile(reply)));
    }
  }

  class ImageUploadHook {
    var uploading: bool
    var error: string
    var success: string
    /** The options the hook was created with (the callbacks excluded). */
    const maxSizeInMB: nat
    const acceptedTypes: seq<string>

    function State(): HookState
      reads this
    {
      HookState(uploading, error, success)
    }

    /** `useImageUpload(token)`: not uploading, no messages, default options. */
    constructor ()
      ensures !uploading && error == "" && success == ""
      ensures maxSizeInMB == DefaultMaxSizeInMB && acceptedTypes == DefaultAcceptedTypes
    {
      uploading, error, success := false, "", "";
      maxSizeInMB, acceptedTypes := DefaultMaxSizeInMB, DefaultAcceptedTypes;
    }

    /** `clearMessages`: both messages emptied, `uploading` untouched. */
    method ClearMessages()
      modifies this
      ensures error == "" && success == "" && uploading == old(uploading)
    {
      error := "";
      success := "";
    }

    /** The timer a successful upload schedules: only the success message goes. */
    method SuccessTimeout()
      modifies this
      ensures success == "" && error == old(error) && uploading == old(uploading)
    {
      success := "";
    }

    /** `uploadImage(file)`. `reply` is how the upload request is answered. The
        result is the uploaded URL when the workflow reports success (an OK reply
        that named no URL gives the empty string, JavaScript's `undefined`), and
        `None` (`null`) otherwise. `clearLater` says whether the success
        callback scheduled the timer that clears the success message again. */
    method UploadImage(file: File, reply: Reply<UploadBody>) returns (url: Option<string>, clearLater: bool)
      modifies this
      ensures var v := ValidateImageFile(file, maxSizeInMB, acceptedTypes);
        v.Invalid? ==> uploading == old(uploading) && error == v.error && success == "" && url == None
      ensures var v := ValidateImageFile(file, maxSizeInMB, acceptedTypes);
        var r := UploadImageFile(reply);
        v.Valid? ==>
          && !uploading
          && (r.success && r.imageUrl != "" ==> success == UploadedMessage && error == "")
          && (!(r.success && r.imageUrl != "") ==> success == "" && error == Or(r.error, ReportFallbackMessage))
          && url == (if r.success then Some(r.imageUrl) else None)
      ensures State() == AfterUpload(old(State()), file, maxSizeInMB, acceptedTypes, reply)
      ensures clearLater <==> ValidateImageFile(file, maxSizeInMB, acceptedTypes).Valid?
                              && UploadImageFile(reply).success && UploadImageFile(reply).imageUrl != ""
    {
      ClearMessages();
      ghost var cleared := State();
      var completion, calls, _ := HandleImageUpload(file, Options(maxSizeInMB, acceptedTypes, Hooks(true, true, true, true)), reply, Hooks(false, false, false, false));
      // The workflow invokes the supplied callbacks in the order of `calls`.
      clearLater := false;
      var i := 0;
      while i < |calls|
        invariant 0 <= i <= |calls|
        invariant clearLater <==> exists j :: 0 <= j < i && calls[j].Success?
        invariant Replay(State(), calls[i..]) == Replay(cleared, calls)
        decreases |calls| - i
      {
        assert calls[i..][1..] == calls[i + 1..];
        match calls[i] {
          case Start => uploading := true;
          case Success(_) =>
            success := UploadedMessage;
            clearLater := true;
          case Error(m) => error := m;
          case Complete => uploading := false;
        }
        i := i + 1;
      }
      assert calls[i..] == [];
      var v := ValidateImageFile(file, maxSizeInMB, acceptedTypes);
      if v.Invalid? {
        assert calls == [Error(v.error)];
        assert calls[1..] == [];
      } else {
        var report := Report(UploadImageFile(reply));
        assert calls == [Start, report, Complete];
        ReplayUpload(cleared, report);
      }
      assert completion.Returned?;
      url := if completion.result.success then Some(completion.result.imageUrl) else None;
    }
  }
}
