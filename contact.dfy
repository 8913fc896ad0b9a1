/** The contact page: a three-field form sent as JSON together with the page path,
    guarded by an `isSubmitting` flag. */
module Contact {

  /** The values of the form's three inputs. */
  datatype ContactForm = ContactForm(name: string, email: string, message: string)

  /** What `form.reset()` restores: the inputs have no default values. */
  const EmptyForm := ContactForm("", "", "")

  datatype ContactField = Name | Email | Message

  const RequiredAlert := "All fields are required"
  const SuccessAlert := "Message sent successfully. Thank you!"
  const FailureAlert := "Something went wrong. Please try again."
  const NetworkAlert := "Network error. Please try again."

  /** The four keys of the JSON body. */
  const PayloadKeys: set<string> := {"name", "email", "message", "source_page"}

  /** The JSON body: the form's values unchanged, plus the current pathname. */
  function BuildPayload(form: ContactForm, pathname: string): (p: map<string, string>)
    ensures p.Keys == PayloadKeys
    ensures p["name"] == form.name && p["email"] == form.email && p["message"] == form.message
    ensures p["source_page"] == pathname
  {
    map["name" := form.name, "email" := form.email, "message" := form.message,
        "source_page" := pathname]
  }

  /** The form a payload was built from: the payload loses nothing. */
  function FormOf(p: map<string, string>): ContactForm
    requires PayloadKeys <= p.Keys
  {
    ContactForm(p["name"], p["email"], p["message"])
  }

  lemma PayloadRoundTrip(form: ContactForm, pathname: string)
    ensures FormOf(BuildPayload(form, pathname)) == form
  {
  }

  /** The client-side check: every required value of the payload is non-empty. */
  predicate HasRequiredFields(p: map<string, string>)
  {
    PayloadKeys <= p.Keys && p["name"] != "" && p["email"] != "" && p["message"] != ""
  }

  /** A payload built from a form passes the check exactly when no field is empty. */
  lemma RequiredFieldsIff(form: ContactForm, pathname: string)
    ensures HasRequiredFields(BuildPayload(form, pathname))
      <==> form.name != "" && form.email != "" && form.message != ""
  {
  }

  /** How the POST resolves: a response (`res.ok` or not), or an exception. */
  datatype ContactOutcome = Responded(ok: bool) | Threw(message: string)

  /** The alert shown when the request resolves. */
  function OutcomeAlert(o: ContactOutcome): (m: string)
    ensures o == Responded(true) <==> m == SuccessAlert
    ensures o == Responded(false) <==> m == FailureAlert
    ensures o.Threw? <==> m == NetworkAlert
  {
    match o
    case Responded(ok) => if ok then SuccessAlert else FailureAlert
    case Threw(_) => NetworkAlert
  }

  /** The state of one contact page. */
  class ContactPage {
    var isSubmitting: bool
    var form: ContactForm
    /** Every `alert` raised, oldest first. */
    var alerts: seq<string>
    /** Every JSON body posted to the contact endpoint, oldest first. */
    var requests: seq<map<string, string>>

    /** No request with a missing field is ever issued, and a submission in progress
        has issued its request. */
    ghost predicate Valid()
      reads this
    {
      (forall k :: 0 <= k < |requests| ==> HasRequiredFields(requests[k])) &&
      (isSubmitting ==> |requests| > 0)
    }

    constructor ()
      ensures Valid()
      ensures !isSubmitting && form == EmptyForm && alerts == [] && requests == []
    {
      isSubmitting, form, alerts, requests := false, EmptyForm, [], [];
    }

    /** The send button is disabled exactly while a submission is in progress. */
    function SendDisabled(): (disabled: bool)
      reads this
      ensures disabled <==> isSubmitting
    {
      isSubmitting
    }

    /** The user types into one input; only that input changes. */
    method Edit(field: ContactField, value: string)
      requires Valid()
      modifies this`form
      ensures Valid()
      ensures field == Name ==> form == old(form).(name := value)
      ensures field == Email ==> form == old(form).(email := value)
      ensures field == Message ==> form == old(form).(message := value)
    {
      match field
      case Name => form := form.(name := value);
      case Email => form := form.(email := value);
      case Message => form := form.(message := value);
    }

    /** The synchronous half of `handleSubmit`: raise the flag, build the payload, and
        either refuse it with an alert (no request, flag lowered again) or post it once.
        The disabled button keeps a second submit out while one is in progress. */
    method BeginSubmit(pathname: string) returns (sent: bool)
      requires Valid() && !SendDisabled()
      modifies this
      ensures Valid()
      ensures SendDisabled() <==> sent
      ensures sent <==> form.name != "" && form.email != "" && form.message != ""
      ensures !sent ==> (!isSubmitting && alerts == old(alerts) + [RequiredAlert] &&
                         requests == old(requests))
      ensures sent ==> (isSubmitting && alerts == old(alerts) &&
                        requests == old(requests) + [BuildPayload(form, pathname)])
      ensures form == old(form)
    {
      isSubmitting := true;
      var payload := BuildPayload(form, pathname);
      if payload["name"] == "" || payload["email"] == "" || payload["message"] == "" {
        alerts := alerts + [RequiredAlert];
        isSubmitting := false;
        return false;
      }
      requests := requests + [payload];
      sent := true;
    }

    /** The asynchronous half of `handleSubmit`: alert the outcome, reset the form only
        on an ok response, and lower the flag in every case. No second request is made. */
    method CompleteSubmit(outcome: ContactOutcome)
      requires Valid() && isSubmitting
      modifies this
      ensures Valid()
      ensures !isSubmitting && !SendDisabled()
      ensures alerts == old(alerts) + [OutcomeAlert(outcome)]
      ensures form == if outcome == Responded(true) then EmptyForm else old(form)
      ensures requests == old(requests)
    {
      match outcome {
        case Responded(ok) =>
          if ok {
            alerts := alerts + [SuccessAlert];
            form := EmptyForm;
          } else {
            alerts := alerts + [FailureAlert];
          }
        case Threw(_) =>
          alerts := alerts + [NetworkAlert];
      }
      isSubmitting := false;
    }
  }
  /** A client run: the button is locked while a send is outstanding and free again after a
      failed one; the fields survive the failure, so sending again posts the same body; an ok
      reply then empties the form. */
  method ResendAfterFailure(name: string, email: string, message: string, pathname: string)
    returns (first: map<string, string>, second: map<string, string>, after: ContactForm,
             lockedWhileSending: bool, lockedAfterFailure: bool)
    requires name != "" && email != "" && message != ""
    ensures first == second == BuildPayload(ContactForm(name, email, message), pathname)
    ensures after == EmptyForm
    ensures lockedWhileSending && !lockedAfterFailure
  {
    var page := new ContactPage();
    page.Edit(Name, name);
    page.Edit(Email, email);
    page.Edit(Message, message);
    var sent := page.BeginSubmit(pathname);
    lockedWhileSending := page.SendDisabled();
    page.CompleteSubmit(Responded(false));
    lockedAfterFailure := page.SendDisabled();
    sent := page.BeginSubmit(pathname);
    page.CompleteSubmit(Responded(true));
    first, second, after := page.requests[0], page.requests[1], page.form;
  }
}
