/** The credit-scoring page: form edits under literal key names, a submit
    that keeps the previous score on any failure, and the score band. */
module CreditScoring {
  import opened Js
  import opened Services

  const PhoneData: map<string, Value> :=
    map["callFrequency" := Str(""), "avgCallDuration" := Str(""), "contactsCount" := Str("")]

  const TransactionData: map<string, Value> :=
    map["avgMonthlyTransactions" := Str(""), "lastTransactionAmount" := Str(""), "transactionHistory" := Str("")]

  const InitialForm: map<string, Value> :=
    map[
      "monthlyIncome" := Str(""),
      "employmentDuration" := Str(""),
      "phoneData" := Obj(PhoneData),
      "transactionData" := Obj(TransactionData),
      "amount" := Str(""),
      "frequency" := Str("1"),
      "newAccount" := Bool(true)]

  /** The `name` attributes of the page's text fields; six of them are dotted. */
  const FieldNames: set<string> := {
    "monthlyIncome", "employmentDuration",
    "phoneData.callFrequency", "phoneData.avgCallDuration", "phoneData.contactsCount",
    "transactionData.avgMonthlyTransactions", "transactionData.lastTransactionAmount",
    "transactionData.transactionHistory"}

  /** A run of `handleInputChange` calls, each a (name, text) pair. */
  function ApplyEdits(form: map<string, Value>, edits: seq<(string, string)>): map<string, Value>
    decreases |edits|
  {
    if edits == [] then form else ApplyEdits(Assign(form, edits[0].0, Str(edits[0].1)), edits[1..])
  }

  /** Whatever is typed into the page's fields, the nested `phoneData` and
      `transactionData` objects keep their initial empty texts: each dotted
      name only adds a flat key of its own. */
  lemma {:induction false} NestedObjectsNeverFilled(form: map<string, Value>, edits: seq<(string, string)>)
    requires "phoneData" in form && "transactionData" in form
    requires forall e :: e in edits ==> e.0 in FieldNames
    ensures var after := ApplyEdits(form, edits);
      && form.Keys <= after.Keys
      && "phoneData" in after && after["phoneData"] == form["phoneData"]
      && "transactionData" in after && after["transactionData"] == form["transactionData"]
      && forall e :: e in edits ==> e.0 in after
    decreases |edits|
  {
    if edits != [] {
      var next := Assign(form, edits[0].0, Str(edits[0].1));
      assert edits[0] in edits;
      NestedObjectsNeverFilled(next, edits[1..]);
      forall e | e in edits ensures e.0 in ApplyEdits(form, edits) {
        if e != edits[0] {
          assert e in edits[1..];
        }
      }
    }
  }

  /** The request body: `JSON.stringify(formData)`, every key as it stands. */
  function RequestOf(form: map<string, Value>): (request: CreditRequest)
    ensures request.body.Keys == form.Keys
    ensures forall k :: k in form ==> request.body[k] == AsIs(form[k])
  {
    CreditRequest(map k | k in form :: AsIs(form[k]))
  }

  /** Whatever the user types into the form's fields, the request sends the
      nested `phoneData` and `transactionData` objects exactly as they were
      initialised: the dotted field names become new top-level keys. */
  lemma RequestSendsInitialNested(edits: seq<(string, string)>)
    requires forall e :: e in edits ==> e.0 in FieldNames
    ensures var body := RequestOf(ApplyEdits(InitialForm, edits)).body;
      && "phoneData" in body && body["phoneData"] == AsIs(Obj(PhoneData))
      && "transactionData" in body && body["transactionData"] == AsIs(Obj(TransactionData))
  {
    var form := ApplyEdits(InitialForm, edits);
    NestedObjectsNeverFilled(InitialForm, edits);
    assert "phoneData" in form && "transactionData" in form;
    var body := RequestOf(form).body;
    assert body["phoneData"] == AsIs(form["phoneData"]);
    assert body["transactionData"] == AsIs(form["transactionData"]);
  }

  /** Only an ok reply whose status is `success` is used. */
  predicate Accepted(resp: Response<CreditBody>)
  {
    resp.Reply? && resp.ok && resp.body.status == Some("success")
  }

  /** The score after a submit: an accepted reply's `score` (absent stays
      absent), otherwise the previous score; failures are only logged. */
  function ScoreAfter(previous: Option<real>, resp: Response<CreditBody>): (next: Option<real>)
    ensures Accepted(resp) ==> next == resp.body.score
    ensures !Accepted(resp) ==> next == previous
  {
    match resp
    case NoResponse => previous
    case Reply(ok, body) =>
      if !ok then previous
      else if body.status == Some("success") then body.score
      else previous
  }

  const Excellent := "Excellent credit score! High chance of loan approval."
  const Fair := "Fair credit score. Moderate chance of loan approval."
  const Poor := "Poor credit score. Low chance of loan approval."

  /** The alert's severity: above 650 success, above 550 warning, otherwise error. */
  function ScoreBand(score: real): (tone: Tone)
    ensures tone == Success <==> score > 650.0
    ensures tone == Warning <==> 550.0 < score <= 650.0
    ensures tone == Error <==> score <= 550.0
  {
    if score > 650.0 then Success else if score > 550.0 then Warning else Error
  }

  /** The alert's text, chosen by its own copy of the two thresholds. */
  function ScoreMessage(score: real): (message: string)
    ensures message == Excellent <==> score > 650.0
    ensures message == Fair <==> 550.0 < score <= 650.0
    ensures message == Poor <==> score <= 550.0
  {
    if score > 650.0 then Excellent else if score > 550.0 then Fair else Poor
  }

  /** Severity and text always agree. */
  lemma BandAndMessageAgree(score: real)
    ensures ScoreBand(score) == Success <==> ScoreMessage(score) == Excellent
    ensures ScoreBand(score) == Warning <==> ScoreMessage(score) == Fair
    ensures ScoreBand(score) == Error <==> ScoreMessage(score) == Poor
  {
  }

  /** A higher score never gets a worse band. */
  lemma ScoreBandMonotone(a: real, b: real)
    requires a <= b
    ensures ScoreBand(b).Rank() <= ScoreBand(a).Rank()
  {
  }

  /** The result panel, shown only while `score` is truthy: a null, absent
      or zero score shows nothing. */
  function ScorePanel(score: Option<real>): (panel: Option<(Tone, string)>)
    ensures panel.Some? <==> score.Some? && score.value != 0.0
    ensures panel.Some? ==> panel.value.0 == ScoreBand(score.value) && panel.value.1 == ScoreMessage(score.value)
  {
    if score.Some? && score.value != 0.0 then Some((ScoreBand(score.value), ScoreMessage(score.value))) else None
  }

  /** The component's state: `formData`, `loading` and `score`, with a ghost
      record of every request sent. */
  class CreditForm {
    var formData: map<string, Value>
    var loading: bool
    var score: Option<real>
    ghost var sent: seq<Call<CreditRequest, Option<real>>>

    constructor ()
      ensures formData == InitialForm && !loading && score == None && sent == []
    {
      formData := InitialForm;
      loading := false;
      score := None;
      sent := [];
    }

    /** `handleInputChange`: the value goes under the literal `name`; every
        other key, the nested objects included, is unchanged. */
    method HandleInputChange(name: string, value: string)
      modifies this
      ensures formData == Assign(old(formData), name, Str(value))
      ensures forall k :: k in old(formData) && k != name ==> k in formData && formData[k] == old(formData)[k]
      ensures loading == old(loading) && score == old(score) && sent == old(sent)
    {
      formData := Assign(formData, name, Str(value));
    }

    /** `handleSubmit`, with the endpoint as `service`: one request leaves
        while `loading` is set; afterwards `loading` is off and the score is
        replaced only by an accepted reply. */
    method HandleSubmit(service: CreditRequest -> Response<CreditBody>)
      modifies this
      ensures formData == old(formData) && !loading
      ensures sent == old(sent) + [Call(RequestOf(formData), true, old(score))]
      ensures score == ScoreAfter(old(score), service(RequestOf(formData)))
    {
      loading := true;
      var request := RequestOf(formData);
      sent := sent + [Call(request, loading, score)];
      var response := service(request);
      if response.Reply? && response.ok {
        if response.body.status == Some("success") {
          score := response.body.score;
        }
      }
      loading := false;
    }
  }
}
