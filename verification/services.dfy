/** The request/response contract of the two scoring endpoints, as the pages
    see it through `fetch` and `response.json()`. */
module Services {
  import opened Js

  /** What a `fetch` comes back with: nothing (the promise rejected, e.g. the
      server is down), or an HTTP response with its `ok` flag and its JSON body. */
  datatype Response<B> = NoResponse | Reply(ok: bool, body: B)

  /** Body of `/api/credit-score`: `status`, `score` and `error`, each possibly absent. */
  datatype CreditBody = CreditBody(status: Option<string>, score: Option<real>, error: Option<string>)

  /** `risk_assessment` of `/api/fraud-check`, as `detect_fraud` builds it. */
  datatype Assessment = Assessment(riskScore: real, riskLevel: string, riskFactors: map<string, real>, recommendation: string)

  /** Body of `/api/fraud-check`: `status`, `risk_assessment` and `error`, each possibly absent. */
  datatype FraudBody = FraudBody(status: Option<string>, assessment: Option<Assessment>, error: Option<string>)

  /** One value a page puts in a request body: a form value as it stands, a
      numeric literal, or `parseFloat`/`parseInt` of a form value (whose number
      the runtime computes). */
  datatype Sent = AsIs(v: Value) | Literal(x: real) | ParseFloat(arg: Value) | ParseInt(arg: Value)

  datatype CreditRequest = CreditRequest(body: map<string, Sent>)

  datatype FraudRequest = FraudRequest(amount: Sent, frequency: Sent, newAccount: Sent)

  /** One request as it leaves the page, with what the page shows meanwhile:
      its `loading` flag and its current result. */
  datatype Call<R, S> = Call(request: R, loading: bool, shown: S)
}
