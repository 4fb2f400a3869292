/** The new-customer form: its fields, the checks run before anything is sent,
    and what the screen shows after the create request. */
module AddCustomer {
  import opened Common
  import opened Text

  datatype CustomerForm = CustomerForm(name: string, email: string, phone: string, isActive: bool)

  /** The inputs of the form, by their `name` attribute. */
  datatype Field = Name | Email | Phone | IsActive

  datatype Request = PostCustomer(customer: CustomerForm)

  const InitialForm := CustomerForm("", "", "", true)
  const HomePath := "/"

  /** The three checks a submitted form can fail. */
  datatype Problem = NameRequired | EmailRequired | InvalidEmail
  {
    /** The text the screen shows for the failed check. */
    function Message(): string
    {
      match this
      case NameRequired => "Name is required"
      case EmailRequired => "Email is required"
      case InvalidEmail => "Please enter a valid email address"
    }
  }
  const SubmitFallback := "Failed to add customer. Please check your connection and try again."

  /** One change event: the checkbox stores its `checked` flag, every text input
      its `value`; the other fields stay as they were. */
  function Change(f: CustomerForm, field: Field, value: string, checked: bool): (r: CustomerForm)
    ensures r.name == (if field == Name then value else f.name)
    ensures r.email == (if field == Email then value else f.email)
    ensures r.phone == (if field == Phone then value else f.phone)
    ensures r.isActive == (if field == IsActive then checked else f.isActive)
  {
    match field
    case Name => f.(name := value)
    case Email => f.(email := value)
    case Phone => f.(phone := value)
    case IsActive => f.(isActive := checked)
  }

  /** The checks made on submit, in order: a name that is not blank, an email
      that is not blank, an email containing "@". Phone and active flag are not checked. */
  function Validate(f: CustomerForm): (r: Option<Problem>)
    ensures r == Some(NameRequired) <==> IsBlank(f.name)
    ensures r == Some(EmailRequired) <==> !IsBlank(f.name) && IsBlank(f.email)
    ensures r == Some(InvalidEmail) <==>
              !IsBlank(f.name) && !IsBlank(f.email) && !Includes(f.email, "@")
    ensures r.None? <==> !IsBlank(f.name) && Includes(f.email, "@")
  {
    AtSignNotBlank(f.email);
    if IsBlank(f.name) then Some(NameRequired)
    else if IsBlank(f.email) then Some(EmailRequired)
    else if !Includes(f.email, "@") then Some(InvalidEmail)
    else None
  }

  /** An email containing "@" is never blank, so the third check is reached
      only by emails with visible characters. */
  lemma AtSignNotBlank(s: string)
    ensures Includes(s, "@") ==> !IsBlank(s)
  {
    if Includes(s, "@") {
      IncludesNonWhitespace(s, '@');
    }
  }

  /** The checks as the screen writes them, on trimmed copies of name and email. */
  lemma ValidateTrims(f: CustomerForm)
    ensures Validate(f) == Some(NameRequired) <==> Trim(f.name) == ""
    ensures Validate(f) == Some(EmailRequired) <==> Trim(f.name) != "" && Trim(f.email) == ""
    ensures Validate(f) == Some(InvalidEmail) <==>
              Trim(f.name) != "" && Trim(f.email) != "" && !Includes(f.email, "@")
  {
    TrimEmptyIffBlank(f.name);
    TrimEmptyIffBlank(f.email);
  }

  /** Any name with one visible character and any email with an "@" pass,
      whatever surrounds them. */
  lemma VisibleNameAndAtSignPass(f: CustomerForm, k: nat, j: nat)
    requires k < |f.name| && !IsWhitespace(f.name[k])
    requires j < |f.email| && f.email[j] == '@'
    ensures Validate(f).None?
  {
    assert OccursAt(f.email, "@", j);
  }

  /** The message of a rejected create call: the server's `message` when it sent
      a non-empty one, the fixed fallback otherwise. */
  function SubmitErrorMessage(e: HttpError): (m: string)
    ensures e.response.Some? && Truthy(e.response.value.message) ==> m == e.response.value.message.value
    ensures m == SubmitFallback || (e.response.Some? && e.response.value.message == Some(m))
    ensures m != ""
  {
    if e.response.Some? && Truthy(e.response.value.message) then e.response.value.message.value
    else SubmitFallback
  }

  /** What one submit does: the message shown (if any), whether the form was posted,
      and whether the screen went home. `reply` carries whether the response body
      was truthy. */
  datatype SubmitOutcome = SubmitOutcome(error: Option<string>, posted: bool, goesHome: bool)

  /** A form that fails a check shows that check's message and sends nothing;
      a form that passes is posted, and the screen goes home when the response
      has a body, or shows the server's message or the fallback when the call fails. */
  function SubmitPlan(f: CustomerForm, reply: Reply<bool>): (o: SubmitOutcome)
    ensures o.posted <==> Validate(f).None?
    ensures Validate(f).Some? ==> o.error == Some(Validate(f).value.Message()) && !o.goesHome
    ensures o.goesHome <==> Validate(f).None? && reply.Ok? && reply.data
    ensures Validate(f).None? && reply.Ok? ==> o.error.None?
    ensures Validate(f).None? && reply.Fail? ==> o.error == Some(SubmitErrorMessage(reply.err))
  {
    match Validate(f)
    case Some(p) => SubmitOutcome(Some(p.Message()), false, false)
    case None =>
      match reply
      case Ok(bodyPresent) => SubmitOutcome(None, true, bodyPresent)
      case Fail(e) => SubmitOutcome(Some(SubmitErrorMessage(e)), true, false)
  }

  /** The new-customer screen. */
  class CustomerEntry {
    var form: CustomerForm
    var error: Option<string>
    var loading: bool
    var navigatedTo: Option<string>
    var requests: seq<Request>

    constructor()
      ensures form == InitialForm && error.None? && !loading && navigatedTo.None? && requests == []
    {
      form := InitialForm;
      error := None;
      loading := false;
      navigatedTo := None;
      requests := [];
    }

    method HandleChange(field: Field, value: string, checked: bool)
      modifies this`form
      ensures form == Change(old(form), field, value, checked)
    {
      form := Change(form, field, value, checked);
    }

    /** Submitting runs the checks, then posts the form as entered (untrimmed). */
    method HandleSubmit(reply: Reply<bool>)
      modifies this`error, this`loading, this`navigatedTo, this`requests
      ensures error == SubmitPlan(form, reply).error && !loading
      ensures requests == old(requests) + (if SubmitPlan(form, reply).posted then [PostCustomer(form)] else [])
      ensures navigatedTo == (if SubmitPlan(form, reply).goesHome then Some(HomePath) else old(navigatedTo))
    {
      var o := SubmitPlan(form, reply);
      loading := true;
      error := None;
      if o.posted {
        requests := requests + [PostCustomer(form)];
      }
      if o.goesHome {
        navigatedTo := Some(HomePath);
      }
      error := o.error;
      loading := false;
    }
  }
}
