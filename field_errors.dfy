/** The field-error record the create forms keep (`Record<string, string>`), the
    mapping from a backend 400 `details` array into it, and `clearFieldError`.
    The event and announcement forms carry identical copies of this code; it is
    modelled once here. */
module FieldErrors {
  import opened Http

  type Errors = map<string, string>

  const FixValidationErrors := "Please fix the validation errors below."

  /** `detail.field && detail.message`: only entries with both are used. */
  predicate Kept(d: Detail) {
    d.field != "" && d.message != ""
  }

  /** The record that the `forEach` over `details` builds: entries in order,
      each kept entry writing its message under its field. */
  function DetailsMap(items: seq<Detail>): Errors {
    if items == [] then map[]
    else
      var m := DetailsMap(items[..|items| - 1]);
      var d := items[|items| - 1];
      if Kept(d) then m[d.field := d.message] else m
  }

  /** A field is reported exactly when some kept entry names it, and its message
      is that of the LAST such entry: later duplicates overwrite earlier ones. */
  lemma DetailsMapSpec(items: seq<Detail>, k: string)
    ensures k in DetailsMap(items) <==>
      exists i :: 0 <= i < |items| && Kept(items[i]) && items[i].field == k
    ensures k in DetailsMap(items) ==>
      exists i :: 0 <= i < |items| && Kept(items[i]) && items[i].field == k
        && DetailsMap(items)[k] == items[i].message
        && forall j :: i < j < |items| ==> !(Kept(items[j]) && items[j].field == k)
  {
    DetailsMapKeys(items, k);
    if k in DetailsMap(items) {
      DetailsMapLast(items, k);
    }
  }

  /** The fields reported are exactly those some kept entry names. */
  lemma {:induction false} DetailsMapKeys(items: seq<Detail>, k: string)
    ensures k in DetailsMap(items) <==>
      exists i :: 0 <= i < |items| && Kept(items[i]) && items[i].field == k
  {
    if items != [] {
      var n := |items|;
      var p := items[..n - 1];
      DetailsMapKeys(p, k);
      assert forall i :: 0 <= i < n - 1 ==> p[i] == items[i];
    }
  }

  /** A reported field carries the message of the last kept entry naming it. */
  lemma {:induction false} DetailsMapLast(items: seq<Detail>, k: string)
    requires k in DetailsMap(items)
    ensures exists i ::
      && 0 <= i < |items| && Kept(items[i]) && items[i].field == k
      && DetailsMap(items)[k] == items[i].message
      && forall j :: i < j < |items| ==> !(Kept(items[j]) && items[j].field == k)
  {
    var n := |items|;
    var p := items[..n - 1];
    var d := items[n - 1];
    if Kept(d) && d.field == k {
      assert DetailsMap(items)[k] == items[n - 1].message;
    } else {
      assert k in DetailsMap(p) && DetailsMap(items)[k] == DetailsMap(p)[k];
      DetailsMapLast(p, k);
      var i :| 0 <= i < |p| && Kept(p[i]) && p[i].field == k
        && DetailsMap(p)[k] == p[i].message
        && forall j :: i < j < |p| ==> !(Kept(p[j]) && p[j].field == k);
      assert items[i] == p[i];
      assert forall j :: i < j < n - 1 ==> items[j] == p[j];
    }
  }

  /** The `forEach` loop of the submit handlers, entry by entry. */
  method MapBackendDetails(items: seq<Detail>) returns (m: Errors)
    ensures m == DetailsMap(items)
  {
    m := map[];
    var i := 0;
    while i < |items|
      invariant 0 <= i <= |items|
      invariant m == DetailsMap(items[..i])
    {
      assert items[..i + 1][..i] == items[..i];
      var d := items[i];
      if d.field != "" && d.message != "" {
        m := m[d.field := d.message];
      }
      i := i + 1;
    }
    assert items[..i] == items;
  }

  /** The field errors a non-OK reply installs: only a 400 whose body carries
      `details` (any truthy value, an empty array included) does; an array is
      mapped entry by entry, any other value gives an empty record. */
  function BackendFieldErrors(status: int, body: ErrorBody): (r: Option<Errors>)
    ensures r.Some? <==> status == 400 && !body.details.Absent?
    ensures r.Some? && body.details.Entries? ==> r.value == DetailsMap(body.details.items)
    ensures r.Some? && body.details.NotAnArray? ==> r.value == map[]
  {
    if status == 400 && !body.details.Absent? then
      match body.details
      case Entries(items) => Some(DetailsMap(items))
      case _ => Some(map[])
    else None
  }

  /** The message a non-OK reply sets: the validation notice for a 400 with
      `details`, else the body's `error`, else its `message`, else `fallback`. */
  function FailureMessage(status: int, body: ErrorBody, fallback: string): (r: string)
    ensures status == 400 && !body.details.Absent? ==> r == FixValidationErrors
    ensures !(status == 400 && !body.details.Absent?) ==>
      (body.error != "" ==> r == body.error)
      && (body.error == "" && body.message != "" ==> r == body.message)
      && (body.error == "" && body.message == "" ==> r == fallback)
  {
    if status == 400 && !body.details.Absent? then FixValidationErrors
    else Or(Or(body.error, body.message), fallback)
  }

  /** `clearFieldError(name)`: when the record holds a non-empty message for
      `name`, that one key is deleted; otherwise the record is unchanged. */
  function ClearFieldError(errors: Errors, name: string): (r: Errors)
    ensures name in errors && errors[name] != "" ==> r.Keys == errors.Keys - {name}
    ensures !(name in errors && errors[name] != "") ==> r == errors
    ensures forall k :: k in r ==> k in errors && r[k] == errors[k]
  {
    if name in errors && errors[name] != "" then errors - {name} else errors
  }

  /** Clearing a field twice is the same as clearing it once, and a field that
      is not reported leaves the record as it was. */
  lemma ClearFieldErrorIdempotent(errors: Errors, name: string)
    ensures ClearFieldError(ClearFieldError(errors, name), name) == ClearFieldError(errors, name)
    ensures name !in errors ==> ClearFieldError(errors, name) == errors
  {
  }
}
