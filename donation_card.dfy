/** A church's donation methods: the style each payment method is shown
    with, the card that edits or deletes one, and the dialog that adds one. */
module DonationCard {
  import opened Text
  import opened Http

  /** A donation method as the backend returns it; a missing optional string
      is "". */
  datatype Donation = Donation(
    id: int, churchId: int, payment: string, contactName: string,
    contactInfo: string, note: string, createdAt: string, updatedAt: string)

  datatype PaymentStyle = PaymentStyle(color: string, icon: string, bgColor: string)

  /** `PAYMENT_METHODS` */
  const PaymentMethods: map<string, PaymentStyle> := map[
    "Cash App" := PaymentStyle("#00D632", "$", "#E8F5E8"),
    "Zelle" := PaymentStyle("#6D1ED4", "Z", "#F0E8FF"),
    "Venmo" := PaymentStyle("#3D95CE", "V", "#E8F4FF"),
    "PayPal" := PaymentStyle("#0070BA", "P", "#E8F2FF"),
    "Bank Transfer" := PaymentStyle("#666666", "B", "#F5F5F5"),
    "Other" := PaymentStyle("#FF6B35", "?", "#FFF0E8")]

  /** `Object.keys(PAYMENT_METHODS)`: the menu of methods, in declaration order. */
  const MethodMenu: seq<string> := ["Cash App", "Zelle", "Venmo", "PayPal", "Bank Transfer", "Other"]

  /** The menu lists every method of the table once, and nothing else. */
  lemma MenuListsTable()
    ensures forall m :: m in MethodMenu <==> m in PaymentMethods
    ensures forall i, j :: 0 <= i < j < |MethodMenu| ==> MethodMenu[i] != MethodMenu[j]
  {
  }

  /** `getPaymentMethodStyle`, as intended: the table's entry for a method it
      names, and the 'Other' entry for any other string. */
  function PaymentMethodStyle(payment: string): (style: PaymentStyle)
    ensures style in PaymentMethods.Values
    ensures payment in PaymentMethods ==> style == PaymentMethods[payment]
    ensures payment !in PaymentMethods ==> style == PaymentMethods["Other"]
  {
    if payment in PaymentMethods then PaymentMethods[payment] else PaymentMethods["Other"]
  }

  /** Each of the six methods is drawn differently, and any method outside
      the table is drawn exactly as 'Other'. */
  lemma StyleIdentifiesMethod(m: string, n: string)
    requires m in PaymentMethods && n in PaymentMethods
    ensures PaymentMethodStyle(m) == PaymentMethodStyle(n) <==> m == n
    ensures forall u :: u !in PaymentMethods ==> PaymentMethodStyle(u) == PaymentMethodStyle("Other")
  {
  }

  /** The names every JavaScript object inherits from `Object.prototype`. */
  const PrototypeMembers: set<string> := {
    "constructor", "hasOwnProperty", "isPrototypeOf", "propertyIsEnumerable",
    "toLocaleString", "toString", "valueOf", "__proto__", "__defineGetter__",
    "__defineSetter__", "__lookupGetter__", "__lookupSetter__"}

  /** What `PAYMENT_METHODS[method]` yields: an own entry, an inherited
      member (a function or the prototype object, both truthy), or undefined. */
  datatype Lookup = Own(style: PaymentStyle) | Inherited(name: string) | Missing

  /** `getPaymentMethodStyle` as written: an inherited member is truthy, so
      `|| PAYMENT_METHODS['Other']` does not replace it, and the card reads
      `color` and `icon` from it, both undefined. */
  function PaymentMethodStyleAsWritten(payment: string): (found: Lookup)
    ensures found.Own? <==> payment in PaymentMethods || payment !in PrototypeMembers
  {
    if payment in PaymentMethods then Own(PaymentMethods[payment])
    else if payment in PrototypeMembers then Inherited(payment)
    else Own(PaymentMethods["Other"])
  }

  /** A stored method called "constructor" gets no style at all as written,
      where the 'Other' style was meant; everywhere else the two agree. */
  lemma PrototypeNameLosesStyle(payment: string)
    ensures PaymentMethodStyleAsWritten("constructor").Inherited?
    ensures PaymentMethodStyle("constructor") == PaymentMethods["Other"]
    ensures payment !in PrototypeMembers ==> PaymentMethodStyleAsWritten(payment) == Own(PaymentMethodStyle(payment))
  {
  }

  /** The inputs of a donation form. */
  datatype Field = Method | ContactName | ContactInfo | Note

  function Get(d: Donation, f: Field): string {
    match f
    case Method => d.payment
    case ContactName => d.contactName
    case ContactInfo => d.contactInfo
    case Note => d.note
  }

  /** `{ ...prev, [field]: value }` on the card's copy of the donation. */
  function Set(d: Donation, f: Field, value: string): (r: Donation)
    ensures forall g :: Get(r, g) == if g == f then value else Get(d, g)
    ensures r.id == d.id && r.churchId == d.churchId && r.createdAt == d.createdAt && r.updatedAt == d.updatedAt
  {
    match f
    case Method => d.(payment := value)
    case ContactName => d.(contactName := value)
    case ContactInfo => d.(contactInfo := value)
    case Note => d.(note := value)
  }

  /** The card's save button needs contact info (whitespace counts) and no
      save in progress. */
  function CardSaveDisabled(saving: bool, form: Donation): (disabled: bool)
    ensures !disabled <==> !saving && form.contactInfo != ""
  {
    saving || form.contactInfo == ""
  }

  class DonationCardView {
    /** The donation the list passes in. */
    var donation: Donation
    /** Whether the list supplied `onUpdate`. */
    const canUpdate: bool
    var editing: bool
    var formData: Donation
    var saving: bool

    constructor (d: Donation, canUpdate: bool)
      ensures donation == d && this.canUpdate == canUpdate
      ensures !editing && formData == d && !saving
    {
      donation := d;
      this.canUpdate := canUpdate;
      editing, formData, saving := false, d, false;
    }

    /** The list re-renders the card with a new record (after a save it
        replaces the donation in place): only the prop changes, the card's own
        state stays as it was. */
    method ReceiveProps(d: Donation)
      modifies this
      ensures donation == d
      ensures editing == old(editing) && formData == old(formData) && saving == old(saving)
    {
      donation := d;
    }

    method HandleEdit()
      modifies this
      ensures donation == old(donation)
      ensures editing && formData == donation && saving == old(saving)
    {
      editing := true;
      formData := donation;
    }

    method HandleCancel()
      modifies this
      ensures donation == old(donation)
      ensures !editing && formData == donation && saving == old(saving)
    {
      editing := false;
      formData := donation;
    }

    method HandleChange(f: Field, value: string)
      modifies this
      ensures donation == old(donation)
      ensures formData == Set(old(formData), f, value)
      ensures editing == old(editing) && saving == old(saving)
    {
      formData := Set(formData, f, value);
    }

    /** `handleSave`: `updated` is what `onUpdate` receives; `updateFailed`
        says whether the promise it returned rejected. */
    method HandleSave(updateFailed: bool) returns (updated: Option<Donation>)
      modifies this
      ensures donation == old(donation)
      ensures formData == old(formData)
      ensures !canUpdate ==> updated.None? && editing == old(editing) && saving == old(saving)
      ensures canUpdate ==> updated == Some(old(formData)) && !saving
      ensures canUpdate ==> editing == (if updateFailed then old(editing) else false)
    {
      if !canUpdate {
        return None;
      }
      saving := true;
      updated := Some(formData);
      if !updateFailed {
        editing := false;
      }
      saving := false;
    }

    /** `handleDelete`: `confirmed` is the answer to the confirmation dialog;
        `deleted` is the id passed to `onDelete`. */
    method HandleDelete(confirmed: bool) returns (deleted: Option<int>)
      ensures deleted.Some? <==> confirmed
      ensures confirmed ==> deleted.value == donation.id
    {
      deleted := if confirmed then Some(donation.id) else None;
    }
  }

  /** The add dialog's form. */
  datatype AddForm = AddForm(payment: string, contactName: string, contactInfo: string, note: string)

  /** The add dialog's form on open and after a successful add. */
  const EmptyAddForm := AddForm("Cash App", "", "", "")

  /** `s || undefined` */
  function OrUndefined(s: string): (o: Option<string>)
    ensures o.None? <==> s == ""
  {
    if s == "" then None else Some(s)
  }

  /** `o ?? ''`, how the backend's record shows a missing optional string. */
  function OrEmpty(o: Option<string>): string {
    match o
    case None => ""
    case Some(s) => s
  }

  /** An empty optional field is sent as missing and read back as empty, and
      any other value travels unchanged. */
  lemma OptionalRoundTrip(s: string, o: Option<string>)
    ensures OrEmpty(OrUndefined(s)) == s
    ensures o != Some("") ==> OrUndefined(OrEmpty(o)) == o
  {
  }

  /** The payload of `onAdd`. */
  datatype NewDonation = NewDonation(
    payment: string, contactName: Option<string>, contactInfo: string, note: Option<string>, churchId: int)

  /** `{ ...formData, church_id, contact_name: … || undefined, note: … || undefined }` */
  function NewDonationOf(form: AddForm, churchId: int): (d: NewDonation)
    ensures d.contactName.None? <==> form.contactName == ""
    ensures d.note.None? <==> form.note == ""
    ensures AddForm(d.payment, OrEmpty(d.contactName), d.contactInfo, OrEmpty(d.note)) == form
    ensures d.churchId == churchId
  {
    OptionalRoundTrip(form.contactName, None);
    OptionalRoundTrip(form.note, None);
    NewDonation(form.payment, OrUndefined(form.contactName), form.contactInfo, OrUndefined(form.note), churchId)
  }

  /** Adding is possible when not adding already and the contact info holds
      something besides whitespace. */
  function AddDisabled(adding: bool, form: AddForm): (disabled: bool)
    ensures !disabled <==> !adding && !AllWhitespace(form.contactInfo)
  {
    BlankIffAllWhitespace(form.contactInfo);
    adding || IsBlank(form.contactInfo)
  }

  const ContactInfoRequired := "Contact info is required"
  const AddFailedMessage := "Failed to add donation method"

  class AddDonationDialog {
    const churchId: int
    var formData: AddForm
    var adding: bool
    var error: string

    constructor (churchId: int)
      ensures this.churchId == churchId && formData == EmptyAddForm && !adding && error == ""
    {
      this.churchId := churchId;
      formData, adding, error := EmptyAddForm, false, "";
    }

    method HandleChange(f: Field, value: string)
      modifies this
      ensures formData == match f
        case Method => old(formData).(payment := value)
        case ContactName => old(formData).(contactName := value)
        case ContactInfo => old(formData).(contactInfo := value)
        case Note => old(formData).(note := value)
      ensures adding == old(adding) && error == old(error)
    {
      match f {
        case Method => formData := formData.(payment := value);
        case ContactName => formData := formData.(contactName := value);
        case ContactInfo => formData := formData.(contactInfo := value);
        case Note => formData := formData.(note := value);
      }
    }

    /** The error alert's close button. */
    method DismissError()
      modifies this
      ensures error == "" && formData == old(formData) && adding == old(adding)
    {
      error := "";
    }

    /** `handleAdd`: `sent` is what `onAdd` receives; `addFailed` says whether
        the promise it returned rejected; `closed` whether `onClose` was called. */
    method HandleAdd(addFailed: bool) returns (sent: Option<NewDonation>, closed: bool)
      modifies this
      ensures AllWhitespace(old(formData).contactInfo) ==>
        sent.None? && !closed && error == ContactInfoRequired && formData == old(formData) && adding == old(adding)
      ensures !AllWhitespace(old(formData).contactInfo) ==>
        && sent == Some(NewDonationOf(old(formData), churchId)) && !adding
        && closed == !addFailed
        && formData == (if addFailed then old(formData) else EmptyAddForm)
        && error == (if addFailed then AddFailedMessage else "")
    {
      BlankIffAllWhitespace(formData.contactInfo);
      closed := false;
      if IsBlank(formData.contactInfo) {
        error := ContactInfoRequired;
        return None, false;
      }
      adding := true;
      error := "";
      sent := Some(NewDonationOf(formData, churchId));
      if !addFailed {
        formData := EmptyAddForm;
        closed := true;
      } else {
        error := AddFailedMessage;
      }
      adding := false;
    }
  }
}
