/** The fraud-check page: amount validation, form state, how a reply becomes
    a shown result, the colour bands and the risk-factor labels. */
module FraudDetection {
  import opened Js
  import opened Services
  import FraudRules

  const AmountRequired := "Amount is required"
  const NotANumber := "Please enter a valid number"
  const NotPositive := "Amount must be greater than 0"
  const OverLimit := "Amount exceeds maximum limit"

  /** `validateAmount`: the checks run in order (empty, not a number, not
      positive, over 1,000,000) and the first that fails names the error;
      `toNumber` is the runtime's string-to-number coercion, which `isNaN` and
      the comparisons apply to the text. */
  function ValidateAmount(value: string, toNumber: string -> Number): (error: string)
    ensures error == AmountRequired <==> value == ""
    ensures error == NotANumber <==> value != "" && toNumber(value) == NaN
    ensures error == NotPositive <==> value != "" && AtMost(toNumber(value), 0.0)
    ensures error == OverLimit <==> value != "" && Above(toNumber(value), 1000000.0)
    ensures error == "" <==>
      value != "" && toNumber(value).Finite? && 0.0 < toNumber(value).x <= 1000000.0
  {
    if value == "" then AmountRequired
    else if toNumber(value) == NaN then NotANumber
    else if AtMost(toNumber(value), 0.0) then NotPositive
    else if Above(toNumber(value), 1000000.0) then OverLimit
    else ""
  }

  const DefaultFailure := "Failed to perform fraud check"
  const InvalidFormat := "Invalid response format"
  const Unexpected := "An unexpected error occurred"

  /** The page's `result`: the four fields of the assessment, or an error message. */
  datatype FraudResult = Assessed(assessment: Assessment) | Failed(message: Message)

  /** `data.error || 'Failed to perform fraud check'`. */
  function ErrorText(error: Option<string>): string
  {
    if error.Some? && error.value != "" then error.value else DefaultFailure
  }

  /** `error.message || 'An unexpected error occurred'` in the catch block. */
  function Shown(m: Message): Message
  {
    if m == Text("") then Text(Unexpected) else m
  }

  /** The message the page throws for a reply it does not accept. */
  function Thrown(resp: Response<FraudBody>): Message
  {
    match resp
    case NoResponse => EngineText
    case Reply(ok, body) => if !ok then Text(ErrorText(body.error)) else Text(InvalidFormat)
  }

  /** The try/catch of `handleSubmit`: a reply is accepted only when it is ok,
      its status is `success` and it carries an assessment, and then exactly
      that assessment is shown; a non-ok reply shows the server's error, or the
      fixed text when the server gave none; any other ok reply shows the
      invalid-format text. No thrown text is ever empty, so the catch block's
      own fallback text is never shown. */
  function Classify(resp: Response<FraudBody>): (r: FraudResult)
    ensures r.Assessed? <==>
      resp.Reply? && resp.ok && resp.body.status == Some("success") && resp.body.assessment.Some?
    ensures r.Assessed? ==> resp.body.assessment == Some(r.assessment)
    ensures resp.Reply? && !resp.ok ==> r == Failed(Text(ErrorText(resp.body.error)))
    ensures resp.Reply? && resp.ok && !r.Assessed? ==> r == Failed(Text(InvalidFormat))
    ensures resp.NoResponse? ==> r == Failed(EngineText)
    ensures r.Failed? ==> r.message == Thrown(resp) && r.message != Text("")
  {
    match resp
    case NoResponse => Failed(Shown(Thrown(resp)))
    case Reply(ok, body) =>
      if !ok then Failed(Shown(Thrown(resp)))
      else if body.status == Some("success") && body.assessment.Some? then Assessed(body.assessment.value)
      else Failed(Shown(Thrown(resp)))
  }

  /** The backend's reply is shown as it is: its assessment, whose level is
      never `high`, so the score's colour is never the error colour. */
  lemma BackendReplyShown(amount: real, frequency: int, newAccount: bool)
    ensures var a := FraudRules.DetectFraud(FraudRules.EndpointTransaction(amount, frequency, newAccount));
      && Classify(FraudRules.FraudCheckReply(amount, frequency, newAccount)) == Assessed(a)
      && a.riskLevel != "high"
      && RiskColor(a.riskScore) != Error
  {
    FraudRules.EndpointRisk(amount, frequency, newAccount);
  }

  /** `getRiskColor`: above 70 error, above 40 warning, otherwise success. */
  function RiskColor(score: real): (tone: Tone)
    ensures tone == Error <==> score > 70.0
    ensures tone == Warning <==> 40.0 < score <= 70.0
    ensures tone == Success <==> score <= 40.0
  {
    if score > 70.0 then Error else if score > 40.0 then Warning else Success
  }

  /** `getRiskFactorSeverity`: above 1.3 error, above 1.0 warning, otherwise success. */
  function RiskFactorSeverity(value: real): (tone: Tone)
    ensures tone == Error <==> value > 1.3
    ensures tone == Warning <==> 1.0 < value <= 1.3
    ensures tone == Success <==> value <= 1.0
  {
    if value > 1.3 then Error else if value > 1.0 then Warning else Success
  }

  /** A higher score never gets a milder colour. */
  lemma RiskColorMonotone(a: real, b: real)
    requires a <= b
    ensures RiskColor(a).Rank() <= RiskColor(b).Rank()
  {
  }

  /** A higher value never gets a milder severity. */
  lemma RiskFactorSeverityMonotone(a: real, b: real)
    requires a <= b
    ensures RiskFactorSeverity(a).Rank() <= RiskFactorSeverity(b).Rank()
  {
  }

  /** The recommendation banner is coloured by `getRiskFactorSeverity(score / 50)`,
      which puts its bands at 65 and 50 rather than the 70 and 40 of the score's
      own colour: a score in (65, 70] shows a warning colour with an error banner. */
  lemma BannerBands(score: real)
    ensures RiskFactorSeverity(score / 50.0) == Error <==> score > 65.0
    ensures RiskFactorSeverity(score / 50.0) == Warning <==> 50.0 < score <= 65.0
    ensures 65.0 < score <= 70.0 ==> RiskFactorSeverity(score / 50.0) == Error && RiskColor(score) == Warning
  {
  }

  /** `toUpperCase` on one character, for ASCII letters. */
  function Upper(c: char): char
  {
    if 'a' <= c <= 'z' then (c as int - 32) as char else c
  }

  /** `s.split('_')`: the pieces between underscores, empty ones included;
      never an empty list. */
  function Split(s: string): (parts: seq<string>)
    ensures |parts| >= 1
  {
    if s == "" then [""]
    else if s[0] == '_' then [""] + Split(s[1..])
    else
      var rest := Split(s[1..]);
      [[s[0]] + rest[0]] + rest[1..]
  }

  /** `word.charAt(0).toUpperCase() + word.slice(1)`. */
  function Capitalize(word: string): string
  {
    if word == "" then "" else [Upper(word[0])] + word[1..]
  }

  /** `words.map(...)` with the function above. */
  function CapitalizeAll(words: seq<string>): (r: seq<string>)
    ensures |r| == |words|
  {
    if words == [] then [] else [Capitalize(words[0])] + CapitalizeAll(words[1..])
  }

  /** `words.join(' ')`. */
  function Join(words: seq<string>): string
  {
    if |words| == 0 then ""
    else if |words| == 1 then words[0]
    else words[0] + " " + Join(words[1..])
  }

  /** Reference definition, one character at a time: an underscore becomes a
      space, a character that starts a word (at the front when `atStart`, or
      right after an underscore) is upper-cased, every other one is kept. */
  function Titled(s: string, atStart: bool): string
  {
    if s == "" then ""
    else if s[0] == '_' then " " + Titled(s[1..], true)
    else [if atStart then Upper(s[0]) else s[0]] + Titled(s[1..], false)
  }

  /** The split/map/join pipeline, with the first word capitalised or not. */
  function Assemble(parts: seq<string>, capitalizeFirst: bool): string
    requires |parts| >= 1
  {
    Join([if capitalizeFirst then Capitalize(parts[0]) else parts[0]] + CapitalizeAll(parts[1..]))
  }

  lemma JoinFront(c: char, w: string, rest: seq<string>)
    ensures Join([[c] + w] + rest) == [c] + Join([w] + rest)
  {
  }

  lemma {:induction false} AssembleIsTitled(s: string, capitalizeFirst: bool)
    ensures Assemble(Split(s), capitalizeFirst) == Titled(s, capitalizeFirst)
  {
    if s == "" {
    } else if s[0] == '_' {
      var parts := Split(s[1..]);
      AssembleIsTitled(s[1..], true);
      assert Split(s) == [""] + parts;
      assert CapitalizeAll(parts) == [Capitalize(parts[0])] + CapitalizeAll(parts[1..]);
      var words := [""] + CapitalizeAll(parts);
      assert words[1..] == CapitalizeAll(parts);
      assert Split(s)[1..] == parts;
    } else {
      var parts := Split(s[1..]);
      AssembleIsTitled(s[1..], false);
      var first := [s[0]] + parts[0];
      assert Split(s) == [first] + parts[1..];
      assert Split(s)[1..] == parts[1..];
      var c := if capitalizeFirst then Upper(s[0]) else s[0];
      assert (if capitalizeFirst then Capitalize(first) else first) == [c] + parts[0] by {
        assert first[1..] == parts[0];
      }
      JoinFront(c, parts[0], CapitalizeAll(parts[1..]));
    }
  }

  /** The label of a risk factor, `factor.split('_').map(...).join(' ')`: it
      is the character-by-character reference definition, starting at a word. */
  function FactorLabel(factor: string): (text: string)
    ensures text == Titled(factor, true)
  {
    AssembleIsTitled(factor, true);
    var parts := Split(factor);
    assert CapitalizeAll(parts) == [Capitalize(parts[0])] + CapitalizeAll(parts[1..]);
    Join(CapitalizeAll(parts))
  }

  lemma {:induction false} TitledAt(s: string, atStart: bool, i: nat)
    requires i < |s|
    ensures |Titled(s, atStart)| == |s|
    ensures Titled(s, atStart)[i] ==
      if s[i] == '_' then ' '
      else if (i == 0 && atStart) || (i > 0 && s[i - 1] == '_') then Upper(s[i])
      else s[i]
  {
    var rest := Titled(s[1..], s[0] == '_');
    assert Titled(s, atStart)[1..] == rest;
    if |s| > 1 {
      TitledAt(s[1..], s[0] == '_', if i == 0 then 0 else i - 1);
    }
    if i > 0 {
      assert s[1..][i - 1] == s[i];
      assert i - 1 > 0 ==> s[1..][i - 2] == s[i - 1];
    }
  }

  /** The label is as long as the factor name; each underscore becomes a
      space, each character that opens a word is upper-cased, and every other
      character is kept. */
  lemma FactorLabelAt(factor: string, i: nat)
    requires i < |factor|
    ensures |FactorLabel(factor)| == |factor|
    ensures FactorLabel(factor)[i] ==
      if factor[i] == '_' then ' '
      else if i == 0 || factor[i - 1] == '_' then Upper(factor[i])
      else factor[i]
  {
    TitledAt(factor, true, i);
  }

  /** No underscore survives in a label. */
  lemma FactorLabelHasNoUnderscore(factor: string)
    ensures '_' !in FactorLabel(factor)
  {
    if factor == "" {
      assert FactorLabel(factor) == "";
    } else {
      FactorLabelAt(factor, 0);
      forall i | 0 <= i < |factor| ensures FactorLabel(factor)[i] != '_' {
        FactorLabelAt(factor, i);
      }
    }
  }

  /** The request `handleSubmit` sends: `parseFloat` of the amount text,
      `parseInt` of the frequency text, and the new-account flag. */
  function RequestOf(form: map<string, Value>): FraudRequest
  {
    FraudRequest(ParseFloat(Get(form, "amount")), ParseInt(Get(form, "frequency")), AsIs(Get(form, "newAccount")))
  }

  /** The request reads only the amount, frequency and new-account keys:
      an edit to any other key leaves it as it was, and an edit to one of
      them is what the request then sends, through `parseFloat`/`parseInt`
      for the two texts. */
  lemma RequestReadsThreeKeys(form: map<string, Value>, name: string, v: Value)
    ensures name !in {"amount", "frequency", "newAccount"} ==> RequestOf(Assign(form, name, v)) == RequestOf(form)
    ensures name == "amount" ==> RequestOf(Assign(form, name, v)).amount == ParseFloat(v)
    ensures name == "frequency" ==> RequestOf(Assign(form, name, v)).frequency == ParseInt(v)
    ensures name == "newAccount" ==> RequestOf(Assign(form, name, v)).newAccount == AsIs(v)
  {
  }

  const InitialForm: map<string, Value> :=
    map["amount" := Str(""), "frequency" := Str("1"), "newAccount" := Bool(true)]

  /** The component's state: `formData`, `errors.amount`, `loading` and `result`,
      with a ghost record of every request sent. */
  class FraudForm {
    var formData: map<string, Value>
    var amountError: string
    var loading: bool
    var result: Option<FraudResult>
    ghost var sent: seq<Call<FraudRequest, Option<FraudResult>>>

    /** The state on first render. The amount starts empty with no error
        recorded, since validation runs only on edits. */
    constructor ()
      ensures formData == InitialForm && amountError == ""
      ensures !loading && result == None && sent == []
    {
      formData := InitialForm;
      amountError := "";
      loading := false;
      result := None;
      sent := [];
    }

    /** `handleInputChange`: the edited key takes the text, and the amount
        error is recomputed only when that key is `amount`. */
    method HandleInputChange(name: string, value: string, toNumber: string -> Number)
      modifies this
      ensures formData == Assign(old(formData), name, Str(value))
      ensures amountError == if name == "amount" then ValidateAmount(value, toNumber) else old(amountError)
      ensures loading == old(loading) && result == old(result) && sent == old(sent)
    {
      if name == "amount" {
        var error := ValidateAmount(value, toNumber);
        amountError := error;
      }
      formData := Assign(formData, name, Str(value));
    }

    /** `handleCheckboxChange`: the named key takes the flag, nothing else changes. */
    method HandleCheckboxChange(name: string, checked: bool)
      modifies this
      ensures formData == Assign(old(formData), name, Bool(checked))
      ensures amountError == old(amountError) && loading == old(loading)
      ensures result == old(result) && sent == old(sent)
    {
      formData := Assign(formData, name, Bool(checked));
    }

    /** `handleSubmit`, with the endpoint as `service`. A recorded amount
        error stops it before anything happens. Otherwise one request leaves
        while `loading` is set and the old result is cleared, and afterwards
        `loading` is off and the result is the classified reply. */
    method HandleSubmit(service: FraudRequest -> Response<FraudBody>)
      modifies this
      ensures formData == old(formData) && amountError == old(amountError)
      ensures old(amountError) != "" ==>
        loading == old(loading) && result == old(result) && sent == old(sent)
      ensures old(amountError) == "" ==>
        && sent == old(sent) + [Call(RequestOf(formData), true, None)]
        && result == Some(Classify(service(RequestOf(formData))))
        && !loading
    {
      if amountError != "" {
        return;
      }
      loading := true;
      result := None;
      var request := RequestOf(formData);
      sent := sent + [Call(request, loading, result)];
      var response := service(request);
      var outcome := Classify(response);
      result := Some(outcome);
      loading := false;
    }
  }
}
