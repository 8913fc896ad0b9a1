/** The Titanic prediction page: seven form fields posted as JSON, the parsed reply
    stored as the result. */
module Titanic {
  import opened Wrappers

  /** The form's values as `Number(...)` and `.checked` yield them. */
  datatype TitanicForm = TitanicForm(
    pclass: real, age: real, sibsp: real, parch: real,
    adultMale: bool, alone: bool, male: bool)

  /** The seven keys of the JSON body. */
  const PayloadKeys: set<string> :=
    {"pclass", "age", "sibsp", "parch", "adult_male", "alone", "male"}

  const FailureAlert := "Something went wrong. Please try again."

  /** A checkbox sent as a number: 1 when checked, 0 otherwise. */
  function Flag(checked: bool): (n: real)
    ensures n == 1.0 <==> checked
    ensures n == 0.0 <==> !checked
  {
    if checked then 1.0 else 0.0
  }

  /** The JSON body: the four numbers unchanged and each checkbox as its own 0/1 flag. */
  function EncodePayload(f: TitanicForm): (p: map<string, real>)
    ensures p.Keys == PayloadKeys
    ensures p["pclass"] == f.pclass && p["age"] == f.age
    ensures p["sibsp"] == f.sibsp && p["parch"] == f.parch
    ensures p["adult_male"] == 1.0 <==> f.adultMale
    ensures p["alone"] == 1.0 <==> f.alone
    ensures p["male"] == 1.0 <==> f.male
    ensures p["adult_male"] in {0.0, 1.0} && p["alone"] in {0.0, 1.0} && p["male"] in {0.0, 1.0}
  {
    map["pclass" := f.pclass, "age" := f.age, "sibsp" := f.sibsp, "parch" := f.parch,
        "adult_male" := Flag(f.adultMale), "alone" := Flag(f.alone), "male" := Flag(f.male)]
  }

  /** A body of the shape the page sends: the seven keys, and 0/1 flags. */
  predicate WellFormed(p: map<string, real>)
  {
    p.Keys == PayloadKeys &&
    p["adult_male"] in {0.0, 1.0} && p["alone"] in {0.0, 1.0} && p["male"] in {0.0, 1.0}
  }

  /** Reads a form back from a body. */
  function DecodePayload(p: map<string, real>): TitanicForm
    requires WellFormed(p)
  {
    TitanicForm(p["pclass"], p["age"], p["sibsp"], p["parch"],
                p["adult_male"] == 1.0, p["alone"] == 1.0, p["male"] == 1.0)
  }

  /** Encoding loses nothing: the form can be read back from its body. */
  lemma DecodeEncode(f: TitanicForm)
    ensures WellFormed(EncodePayload(f)) && DecodePayload(EncodePayload(f)) == f
  {
  }

  /** Every body of the page's shape is the encoding of exactly one form. */
  lemma EncodeDecode(p: map<string, real>)
    requires WellFormed(p)
    ensures EncodePayload(DecodePayload(p)) == p
  {
  }

  /** Each flag depends on its own checkbox only. */
  lemma FlagsIndependent(f: TitanicForm, g: TitanicForm)
    ensures f.adultMale == g.adultMale ==> EncodePayload(f)["adult_male"] == EncodePayload(g)["adult_male"]
    ensures f.alone == g.alone ==> EncodePayload(f)["alone"] == EncodePayload(g)["alone"]
    ensures f.male == g.male ==> EncodePayload(f)["male"] == EncodePayload(g)["male"]
  {
  }

  /** The parsed reply; each field may be absent (a reply to a failed request carries
      `error` instead of a prediction). */
  datatype PredictionBody = PredictionBody(
    survived: Option<bool>, probability: Option<real>, error: Option<string>)

  /** How the POST resolves: a parsed reply with its status, or an exception
      (transport failure or a reply that is not JSON). */
  datatype PredictionOutcome = Parsed(ok: bool, body: PredictionBody) | Threw(message: string)

  /** The headline shown for a stored result. */
  function Label(r: PredictionBody): (s: string)
    ensures s == "Survived" <==> r.survived == Some(true)
    ensures s == "Survived" || s == "Did Not Survive"
  {
    if r.survived == Some(true) then "Survived" else "Did Not Survive"
  }

  /** A reply without `survived`, such as a server error's, is shown as a prediction
      that the passenger did not survive. */
  lemma ErrorReplyShownAsDidNotSurvive(message: string)
    ensures Label(PredictionBody(None, None, Some(message))) == "Did Not Survive"
  {
  }

  /** The state of one Titanic page. */
  class TitanicPage {
    var loading: bool
    var result: Option<PredictionBody>
    /** Every `alert` raised, oldest first. */
    var alerts: seq<string>
    /** Every JSON body posted to the prediction endpoint, oldest first. */
    var requests: seq<map<string, real>>

    /** No stale result is shown while a request is outstanding, and every request
        body has the page's shape. */
    ghost predicate Valid()
      reads this
    {
      (loading ==> result.None?) &&
      (forall k :: 0 <= k < |requests| ==> WellFormed(requests[k]))
    }

    constructor ()
      ensures Valid()
      ensures !loading && result == None && alerts == [] && requests == []
    {
      loading, result, alerts, requests := false, None, [], [];
    }

    /** The run button is disabled exactly while a request is outstanding. */
    function RunDisabled(): (disabled: bool)
      reads this
      ensures disabled <==> loading
    {
      loading
    }

    /** The headline on screen, if a result is shown. */
    function Displayed(): (s: Option<string>)
      reads this
      ensures s.Some? <==> result.Some?
      ensures s == Some("Survived") <==> result.Some? && result.value.survived == Some(true)
    {
      if result.Some? then Some(Label(result.value)) else None
    }

    /** The synchronous half of `handleSubmit`: enter the loading state, drop the previous
        result and post the encoded form once. The disabled button keeps a second
        submit out while one is outstanding. */
    method BeginSubmit(form: TitanicForm)
      requires Valid() && !RunDisabled()
      modifies this
      ensures Valid()
      ensures loading && result == None
      ensures RunDisabled() && Displayed() == None
      ensures requests == old(requests) + [EncodePayload(form)]
      ensures alerts == old(alerts)
    {
      loading := true;
      result := None;
      var payload := EncodePayload(form);
      requests := requests + [payload];
    }

    /** The asynchronous half of `handleSubmit`: a parsed reply becomes the result unchanged
        whatever its status; an exception raises an alert and leaves no result; the loading
        state ends in every case. */
    method CompleteSubmit(outcome: PredictionOutcome)
      requires Valid() && loading
      modifies this
      ensures Valid()
      ensures !loading
      ensures !RunDisabled()
      ensures outcome.Parsed? ==> result == Some(outcome.body) && alerts == old(alerts)
      ensures outcome.Parsed? ==> Displayed() == Some(Label(outcome.body))
      ensures outcome.Threw? ==> Displayed() == None
      ensures outcome.Threw? ==> result == None && alerts == old(alerts) + [FailureAlert]
      ensures requests == old(requests)
    {
      match outcome {
        case Parsed(_, body) =>
          result := Some(body);
        case Threw(_) =>
          alerts := alerts + [FailureAlert];
      }
      loading := false;
    }
  }
  /** A client run: while the prediction is outstanding the button is locked and no
      headline is shown; afterwards the button is free and a parsed reply's headline,
      whatever its status, is shown. */
  method RunLocksUntilResolved(form: TitanicForm, outcome: PredictionOutcome)
    returns (during: bool, shownDuring: Option<string>, after: bool, shownAfter: Option<string>)
    ensures during && shownDuring == None && !after
    ensures outcome.Parsed? ==> shownAfter == Some(Label(outcome.body))
    ensures outcome.Threw? ==> shownAfter == None
  {
    var page := new TitanicPage();
    page.BeginSubmit(form);
    during, shownDuring := page.RunDisabled(), page.Displayed();
    page.CompleteSubmit(outcome);
    after, shownAfter := page.RunDisabled(), page.Displayed();
  }
}
