/** Outcomes of the request checks, the responses a route produces, and the
    ordered check chain that stops at the first failure (the middleware
    arrays each controller exports). */
module Pipeline {
  import opened Js
  import opened Records

  /** What one check decides: pass on, report `{ status, message }` through
      `next(err)`, or throw a TypeError while reading the payload (the
      framework then answers 500). Each check yields exactly one outcome. */
  datatype Outcome = Pass | Fail(status: int, message: string) | TypeError

  /** What a route sends back. */
  datatype Response =
    | One(status: int, record: Record)         // res.status(s).json({ data: record })
    | All(records: seq<Record>)                // res.json({ data: store })
    | NoContent                                // res.sendStatus(204)
    | Error(status: int, message: string)      // next({ status, message })
    | ServerError                              // an uncaught TypeError: 500

  /** The response for a failed chain. */
  function Rejected(o: Outcome): (r: Response)
    requires o != Pass
    ensures r.Error? <==> o.Fail?
    ensures o.Fail? ==> r.status == o.status && r.message == o.message
    ensures r.ServerError? <==> o.TypeError?
  {
    match o
    case Fail(s, m) => Error(s, m)
    case TypeError => ServerError
  }

  /** Run the checks in order; the first one that does not pass decides. */
  function RunChecks<C>(checks: seq<C>, check: C -> Outcome): (o: Outcome)
    ensures o == Pass <==> forall i :: 0 <= i < |checks| ==> check(checks[i]) == Pass
    ensures o != Pass ==> exists k :: 0 <= k < |checks| && check(checks[k]) == o &&
                                      forall j :: 0 <= j < k ==> check(checks[j]) == Pass
  {
    if |checks| == 0 then Pass
    else if check(checks[0]) != Pass then check(checks[0])
    else RunChecks(checks[1..], check)
  }

  /** The existence check that starts a route's chain: pass when some stored
      record has the route id, otherwise report 404 with the given message. */
  function Existence(store: seq<Record>, routeId: string, notFound: string): (o: Outcome)
    ensures o == Pass <==> ContainsId(store, routeId)
    ensures o != Pass ==> o == Fail(404, notFound)
  {
    if FindById(store, routeId).Some? then Pass else Fail(404, notFound)
  }

  /** The first failing check decides the outcome, whatever the checks after it say. */
  lemma FirstFailureDecides<C>(checks: seq<C>, check: C -> Outcome, k: nat)
    requires k < |checks| && check(checks[k]) != Pass
    requires forall j :: 0 <= j < k ==> check(checks[j]) == Pass
    ensures RunChecks(checks, check) == check(checks[k])
  {
  }
}
