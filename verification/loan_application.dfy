/** The loan-application page: it asks the credit-score endpoint, then the
    fraud-check endpoint, and folds the two replies into approved, rejected
    or error. */
module LoanApplication {
  import opened Js
  import opened Services
  import FraudRules

  datatype Status = Approved | Rejected

  /** The page's `result`: both raw scores with the status, or an error message. */
  datatype Outcome = Scored(creditScore: Option<real>, riskScore: real, status: Status) | Failed(message: Message)

  /** Which endpoint a request went to. */
  datatype Contact = ToCredit(credit: CreditRequest) | ToFraud(fraud: FraudRequest)

  const CreditFailure := "Failed to calculate credit score"
  const FraudFailure := "Failed to perform fraud check"

  /** The decision rule: approved only when the credit score is present and
      above 600 and the risk score is below 50 (an absent score compares false). */
  function Decide(creditScore: Option<real>, riskScore: real): (status: Status)
    ensures status == Approved <==> creditScore.Some? && creditScore.value > 600.0 && riskScore < 50.0
  {
    if creditScore.Some? && creditScore.value > 600.0 && riskScore < 50.0 then Approved else Rejected
  }

  /** The credit reply counts as a success on the HTTP `ok` flag alone. */
  predicate CreditOk(resp: Response<CreditBody>)
  {
    resp.Reply? && resp.ok
  }

  /** The credit request: income, employment, the loan amount as text, a
      frequency of 1 and the new-account flag. */
  function CreditRequestOf(form: map<string, Value>): CreditRequest
  {
    CreditRequest(map[
      "monthlyIncome" := AsIs(Get(form, "monthlyIncome")),
      "employmentDuration" := AsIs(Get(form, "employmentDuration")),
      "amount" := AsIs(Get(form, "loanAmount")),
      "frequency" := Literal(1.0),
      "newAccount" := AsIs(Get(form, "newAccount"))])
  }

  /** The fraud request: the loan amount as text, a frequency of 1 and the
      new-account flag. */
  function FraudRequestOf(form: map<string, Value>): FraudRequest
  {
    FraudRequest(AsIs(Get(form, "loanAmount")), Literal(1.0), AsIs(Get(form, "newAccount")))
  }

  /** Both requests carry the same amount (the loan amount text as typed),
      the same frequency, always 1, and the same new-account flag. */
  lemma RequestsAgree(form: map<string, Value>)
    ensures var f := FraudRequestOf(form); var c := CreditRequestOf(form).body;
      && f.frequency == Literal(1.0) && c["frequency"] == Literal(1.0)
      && f.amount == c["amount"] == AsIs(Get(form, "loanAmount"))
      && f.newAccount == c["newAccount"] == AsIs(Get(form, "newAccount"))
  {
  }

  /** Both requests read only the income, employment, loan-amount and
      new-account keys: an edit to any other key (the name, the e-mail, the
      purpose) changes neither, and the credit body always has the same five
      keys. */
  lemma RequestsReadFourKeys(form: map<string, Value>, name: string, v: Value)
    ensures CreditRequestOf(form).body.Keys == {"monthlyIncome", "employmentDuration", "amount", "frequency", "newAccount"}
    ensures name !in {"monthlyIncome", "employmentDuration", "loanAmount", "newAccount"} ==>
      && CreditRequestOf(Assign(form, name, v)) == CreditRequestOf(form)
      && FraudRequestOf(Assign(form, name, v)) == FraudRequestOf(form)
    ensures name == "loanAmount" ==>
      && CreditRequestOf(Assign(form, name, v)).body["amount"] == AsIs(v)
      && FraudRequestOf(Assign(form, name, v)).amount == AsIs(v)
  {
  }

  /** The outcome of `handleSubmit` for the two replies; the fraud reply is
      only looked at after an ok credit reply. A missing `risk_assessment`
      makes the property read throw, with a browser-made message. */
  function Underwrite(credit: Response<CreditBody>, fraud: Response<FraudBody>): (r: Outcome)
    ensures credit.NoResponse? ==> r == Failed(EngineText)
    ensures credit.Reply? && !credit.ok ==> r == Failed(Text(CreditFailure))
    ensures CreditOk(credit) && fraud.NoResponse? ==> r == Failed(EngineText)
    ensures CreditOk(credit) && fraud.Reply? && !fraud.ok ==> r == Failed(Text(FraudFailure))
    ensures CreditOk(credit) && fraud.Reply? && fraud.ok && fraud.body.assessment.None? ==> r == Failed(EngineText)
    ensures r.Scored? <==> CreditOk(credit) && fraud.Reply? && fraud.ok && fraud.body.assessment.Some?
    ensures r.Scored? ==>
      && r.creditScore == credit.body.score
      && r.riskScore == fraud.body.assessment.value.riskScore
      && (r.status == Approved <==>
            credit.body.score.Some? && credit.body.score.value > 600.0 && r.riskScore < 50.0)
  {
    match credit
    case NoResponse => Failed(EngineText)
    case Reply(creditOk, creditData) =>
      if !creditOk then Failed(Text(CreditFailure))
      else match fraud
        case NoResponse => Failed(EngineText)
        case Reply(fraudOk, fraudData) =>
          if !fraudOk then Failed(Text(FraudFailure))
          else if fraudData.assessment.None? then Failed(EngineText)
          else
            var risk := fraudData.assessment.value.riskScore;
            Scored(creditData.score, risk, Decide(creditData.score, risk))
  }

  /** After a failed credit reply the fraud reply cannot change the outcome. */
  lemma FraudIgnoredAfterCreditFailure(credit: Response<CreditBody>, fraud: Response<FraudBody>, other: Response<FraudBody>)
    requires !CreditOk(credit)
    ensures Underwrite(credit, fraud) == Underwrite(credit, other)
  {
  }

  /** The credit body's `status` is never consulted: an ok reply whose status
      says `error` is scored just like one that says `success`. */
  lemma CreditStatusIgnored(ok: bool, body: CreditBody, status: Option<string>, fraud: Response<FraudBody>)
    ensures Underwrite(Reply(ok, body.(status := status)), fraud) == Underwrite(Reply(ok, body), fraud)
  {
  }

  /** For any credit service that answers ok: with the fraud endpoint as the
      backend defines it, the risk score is always below 50, so the decision
      rests on the credit score alone. */
  lemma BackendRiskNeverRejects(credit: Response<CreditBody>, amount: real, frequency: int, newAccount: bool)
    requires CreditOk(credit)
    ensures var r := Underwrite(credit, FraudRules.FraudCheckReply(amount, frequency, newAccount));
      r.Scored? && (r.status == Approved <==> credit.body.score.Some? && credit.body.score.value > 600.0)
  {
    FraudRules.EndpointRisk(amount, frequency, newAccount);
  }

  const InitialForm: map<string, Value> :=
    map[
      "fullName" := Str(""),
      "email" := Str(""),
      "monthlyIncome" := Str(""),
      "employmentDuration" := Str(""),
      "loanAmount" := Str(""),
      "purpose" := Str(""),
      "newAccount" := Bool(true)]

  /** The component's state: `formData`, `loading` and `result`, with a ghost
      record of every endpoint contacted. */
  class LoanForm {
    var formData: map<string, Value>
    var loading: bool
    var result: Option<Outcome>
    ghost var contacted: seq<Call<Contact, Option<Outcome>>>

    constructor ()
      ensures formData == InitialForm && !loading && result == None && contacted == []
    {
      formData := InitialForm;
      loading := false;
      result := None;
      contacted := [];
    }

    /** `handleInputChange`: only the named key changes, to the text. */
    method HandleInputChange(name: string, value: string)
      modifies this
      ensures formData == Assign(old(formData), name, Str(value))
      ensures loading == old(loading) && result == old(result) && contacted == old(contacted)
    {
      formData := Assign(formData, name, Str(value));
    }

    /** `handleCheckboxChange`: only the named key changes, to the flag. */
    method HandleCheckboxChange(name: string, checked: bool)
      modifies this
      ensures formData == Assign(old(formData), name, Bool(checked))
      ensures loading == old(loading) && result == old(result) && contacted == old(contacted)
    {
      formData := Assign(formData, name, Bool(checked));
    }

    /** `handleSubmit`, with the endpoints as `credit` and `fraud`. The credit
        request goes first, while `loading` is set and the previous result is
        still shown; the fraud request follows only after an ok credit reply.
        Afterwards `loading` is off and the result is the outcome of the replies. */
    method HandleSubmit(credit: CreditRequest -> Response<CreditBody>, fraud: FraudRequest -> Response<FraudBody>)
      modifies this
      ensures formData == old(formData) && !loading
      ensures var creditReply := credit(CreditRequestOf(formData));
        && contacted == old(contacted) + [Call(ToCredit(CreditRequestOf(formData)), true, old(result))]
             + (if CreditOk(creditReply) then [Call(ToFraud(FraudRequestOf(formData)), true, old(result))] else [])
        && result == Some(Underwrite(creditReply, fraud(FraudRequestOf(formData))))
    {
      loading := true;
      var creditRequest := CreditRequestOf(formData);
      contacted := contacted + [Call(ToCredit(creditRequest), loading, result)];
      var creditResponse := credit(creditRequest);
      var outcome: Outcome;
      if creditResponse.NoResponse? {
        outcome := Failed(EngineText);
      } else if !creditResponse.ok {
        outcome := Failed(Text(CreditFailure));
      } else {
        var creditData := creditResponse.body;
        var fraudRequest := FraudRequestOf(formData);
        contacted := contacted + [Call(ToFraud(fraudRequest), loading, result)];
        var fraudResponse := fraud(fraudRequest);
        if fraudResponse.NoResponse? {
          outcome := Failed(EngineText);
        } else if !fraudResponse.ok {
          outcome := Failed(Text(FraudFailure));
        } else if fraudResponse.body.assessment.None? {
          outcome := Failed(EngineText);
        } else {
          var riskScore := fraudResponse.body.assessment.value.riskScore;
          outcome := Scored(creditData.score, riskScore, Decide(creditData.score, riskScore));
        }
      }
      result := Some(outcome);
      loading := false;
    }
  }
}
