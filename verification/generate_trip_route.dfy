/** `POST /api/generate-trip-with-experts` and its `GET`
    (src/app/api/generate-trip-with-experts/route.ts): request checks, the
    status chosen for a failed plan, and the fixed answers for an exception. */
module GenerateTripRoute {
  import opened Js
  import opened ExpertSelection
  import opened TripPlanner
  import opened ErrorRules

  /** A JSON reply of the route and its HTTP status. */
  datatype PlanResponse =
    | Planned(tripGuide: Option<TripGuide>, selectedIds: Option<SelectedIds>, timing: Timing)  // 200, success: true
    | PlanFailed(status: nat, error: string, reported: Option<Timing>)                          // success: false
    | NotAllowed(error: string)                                                                // 405

  function Status(r: PlanResponse): nat {
    match r
    case Planned(_, _, _) => 200
    case PlanFailed(status, _, _) => status
    case NotAllowed(_) => 405
  }

  const MissingFields := "Missing required fields: flowType or answers"
  const InvalidFlow := "Invalid flow type. Must be \"inspire-me\" or \"i-know-where\""
  const UnexpectedOutcome := "An unexpected error occurred"
  const DatabaseWords: seq<string> := ["Airtable", "database"]

  /** The status and error kind computed for a failed plan. */
  datatype Verdict = Verdict(status: nat, errorType: string)

  const OutcomeRules: seq<Rule<Verdict>> := [
    Rule(QuotaWords, Verdict(429, "quota_exceeded")),
    Rule(RateWords, Verdict(429, "rate_limited")),
    Rule(AuthWords, Verdict(401, "auth_error")),
    Rule(NetworkWords, Verdict(503, "network_error")),
    Rule(DatabaseWords, Verdict(503, "database_error"))]

  /** The classification of a failed plan by its error text: the first
      keyword group it mentions decides, and a missing or empty text, or one
      that mentions none, is a 500. */
  function OutcomeVerdict(error: Option<string>): (v: Verdict)
    ensures var e := if error.Some? then error.value else "";
            && (Mentions(e, QuotaWords) ==> v == Verdict(429, "quota_exceeded"))
            && (!Mentions(e, QuotaWords) && Mentions(e, RateWords) ==> v == Verdict(429, "rate_limited"))
            && (!Mentions(e, QuotaWords) && !Mentions(e, RateWords) && Mentions(e, AuthWords) ==>
                  v == Verdict(401, "auth_error"))
            && ((!Mentions(e, QuotaWords) && !Mentions(e, RateWords) && !Mentions(e, AuthWords) &&
                 Mentions(e, NetworkWords)) ==> v == Verdict(503, "network_error"))
            && ((!Mentions(e, QuotaWords) && !Mentions(e, RateWords) && !Mentions(e, AuthWords) &&
                 !Mentions(e, NetworkWords) && Mentions(e, DatabaseWords)) ==> v == Verdict(503, "database_error"))
            && ((!Mentions(e, QuotaWords) && !Mentions(e, RateWords) && !Mentions(e, AuthWords) &&
                 !Mentions(e, NetworkWords) && !Mentions(e, DatabaseWords)) ==> v == Verdict(500, "unknown"))
  {
    if error.None? || error.value == [] then
      assert forall j :: 0 <= j < |OutcomeRules| ==> !Mentions("", OutcomeRules[j].keywords) by {
        EmptyMentionsNothing(OutcomeRules);
      }
      Verdict(500, "unknown")
    else
      var e := error.value;
      assert OutcomeRules[0].keywords == QuotaWords && OutcomeRules[1].keywords == RateWords &&
             OutcomeRules[2].keywords == AuthWords && OutcomeRules[3].keywords == NetworkWords &&
             OutcomeRules[4].keywords == DatabaseWords;
      Classify(OutcomeRules, e, Verdict(500, "unknown"))
  }

  /** No keyword of these rules is empty, so the empty text mentions none. */
  lemma EmptyMentionsNothing<T>(rules: seq<Rule<T>>)
    requires forall j, i :: 0 <= j < |rules| && 0 <= i < |rules[j].keywords| ==> rules[j].keywords[i] != []
    ensures forall j :: 0 <= j < |rules| ==> !Mentions("", rules[j].keywords)
  {
  }

  // The route's own fixed answers to an exception.
  const PartialMessage := "\U{1F4CA} Expert database temporarily unavailable. Trip guide generated without expert matching."
  const UnexpectedPlanning := "\U{274C} An unexpected error occurred during trip planning. Please try again."

  const ThrownRules: seq<Rule<(nat, string)>> := [
    Rule(QuotaWords, (429, QuotaMessage)),
    Rule(RateWords, (429, BusyMessage)),
    Rule(AuthWords, (401, AuthMessage)),
    Rule(DatabaseWords, (206, PartialMessage)),
    Rule(NetworkWords, (503, NetworkMessage))]

  /** The `catch` block. Only an `Error` is classified, by its message, and
      here the store is checked before the network; anything else thrown is
      a 500. The answer is always one of the fixed texts. */
  function ThrownReply(t: Thrown): (r: PlanResponse)
    ensures r.PlanFailed? && r.reported.None?
    ensures r.error in {QuotaMessage, BusyMessage, AuthMessage, PartialMessage, NetworkMessage, UnexpectedPlanning}
    ensures t.OtherValue? ==> r == PlanFailed(500, UnexpectedPlanning, None)
    ensures t.ErrorValue? ==>
              var m := t.message;
              && (Mentions(m, QuotaWords) ==> r == PlanFailed(429, QuotaMessage, None))
              && (!Mentions(m, QuotaWords) && Mentions(m, RateWords) ==> r == PlanFailed(429, BusyMessage, None))
              && (!Mentions(m, QuotaWords) && !Mentions(m, RateWords) && Mentions(m, AuthWords) ==>
                    r == PlanFailed(401, AuthMessage, None))
              && ((!Mentions(m, QuotaWords) && !Mentions(m, RateWords) && !Mentions(m, AuthWords) &&
                   Mentions(m, DatabaseWords)) ==> r == PlanFailed(206, PartialMessage, None))
              && ((!Mentions(m, QuotaWords) && !Mentions(m, RateWords) && !Mentions(m, AuthWords) &&
                   !Mentions(m, DatabaseWords) && Mentions(m, NetworkWords)) ==> r == PlanFailed(503, NetworkMessage, None))
              && ((!Mentions(m, QuotaWords) && !Mentions(m, RateWords) && !Mentions(m, AuthWords) &&
                   !Mentions(m, DatabaseWords) && !Mentions(m, NetworkWords)) ==> r == PlanFailed(500, UnexpectedPlanning, None))
  {
    match t
    case OtherValue(_) => PlanFailed(500, UnexpectedPlanning, None)
    case ErrorValue(_, m) =>
      assert ThrownRules[0].keywords == QuotaWords && ThrownRules[1].keywords == RateWords &&
             ThrownRules[2].keywords == AuthWords && ThrownRules[3].keywords == DatabaseWords &&
             ThrownRules[4].keywords == NetworkWords;
      var (status, message) := Classify(ThrownRules, m, (500, UnexpectedPlanning));
      assert forall k :: 0 <= k < |ThrownRules| ==>
               ThrownRules[k].verdict.1 in {QuotaMessage, BusyMessage, AuthMessage, PartialMessage, NetworkMessage};
      PlanFailed(status, message, None)
  }

  /** The error `body.flowType` raises when the body is `null`. */
  function NullBodyError(): Thrown {
    ErrorValue("TypeError", "Cannot read properties of null (reading 'flowType')")
  }

  /** The body passes both checks: `flowType` and `answers` are truthy, and
      `flowType` is one of the two flows (`includes` compares without
      conversion, so only those strings pass). */
  predicate Accepted(body: Json) {
    && body != JNull
    && Truthy(Get(body, "answers"))
    && (Get(body, "flowType") == Some(JString(InspireMe)) || Get(body, "flowType") == Some(JString(IKnowWhere)))
  }

  /** `POST`. `body` is what `request.json()` gives (a value, or what it
      throws), and `plan` is what `generateTripWithExperts` resolves to for
      an accepted body (it never rejects: its failures are outcomes). */
  function Post(body: Result<Json, Thrown>, plan: Json -> IntegratedTripResult): (r: PlanResponse)
    ensures body.Err? ==> r == ThrownReply(body.error)
    // Checks, in order, before anything is generated.
    ensures body == Ok(JNull) ==> r == ThrownReply(NullBodyError())
    ensures body.Ok? && body.value != JNull && !(Truthy(Get(body.value, "flowType")) && Truthy(Get(body.value, "answers"))) ==>
              r == PlanFailed(400, MissingFields, None)
    ensures body.Ok? && body.value != JNull && Truthy(Get(body.value, "flowType")) && Truthy(Get(body.value, "answers")) &&
            !Accepted(body.value) ==>
              r == PlanFailed(400, InvalidFlow, None)
    // Any successful plan, the degraded one included, is a 200 with the
    // guide, the ids and the timing.
    ensures body.Ok? && Accepted(body.value) && plan(body.value).success ==>
              var out := plan(body.value);
              r == Planned(out.tripGuide, out.selectedIds, out.timing)
    // A failed plan keeps its own error text (or a generic one when it has
    // none) and its timing; the error kind is not sent.
    ensures body.Ok? && Accepted(body.value) && !plan(body.value).success ==>
              var out := plan(body.value);
              && r.PlanFailed? && r.status == OutcomeVerdict(out.error).status && r.reported == Some(out.timing)
              && r.error == (if out.error.Some? && out.error.value != [] then out.error.value else UnexpectedOutcome)
    ensures Status(r) == 200 <==> body.Ok? && Accepted(body.value) && plan(body.value).success
  {
    match body
    case Err(t) => ThrownReply(t)
    case Ok(v) =>
      if v == JNull then ThrownReply(NullBodyError())
      else if !Truthy(Get(v, "flowType")) || !Truthy(Get(v, "answers")) then PlanFailed(400, MissingFields, None)
      else if !Accepted(v) then PlanFailed(400, InvalidFlow, None)
      else
        var out := plan(v);
        if out.success then Planned(out.tripGuide, out.selectedIds, out.timing)
        else
          var message := if out.error.Some? && out.error.value != [] then out.error.value else UnexpectedOutcome;
          PlanFailed(OutcomeVerdict(out.error).status, message, Some(out.timing))
  }

  /** `GET`: the method is refused, with a note on how to call the route. */
  function GetRequest(): (r: PlanResponse)
    ensures Status(r) == 405 && r.error == "Method not allowed. Use POST to generate trip with experts."
  {
    NotAllowed("Method not allowed. Use POST to generate trip with experts.")
  }

  /** A rejected request never reaches the planner: whatever it would have
      produced, the answer is the same. */
  lemma RejectedBeforePlanning(body: Result<Json, Thrown>, plan1: Json -> IntegratedTripResult, plan2: Json -> IntegratedTripResult)
    requires !(body.Ok? && Accepted(body.value))
    ensures Post(body, plan1) == Post(body, plan2)
    ensures Status(Post(body, plan1)) != 200
  {
  }

  /** The two classifiers disagree on an error that names both the store and
      the network: a failed plan is a 503 network error, while the same text
      thrown is a 206 with the partial-content message. */
  lemma StoreAndNetworkDisagree(e: string)
    requires !Mentions(e, QuotaWords) && !Mentions(e, RateWords) && !Mentions(e, AuthWords)
    requires Mentions(e, DatabaseWords) && Mentions(e, NetworkWords)
    ensures OutcomeVerdict(Some(e)) == Verdict(503, "network_error")
    ensures ThrownReply(Error(e)) == PlanFailed(206, PartialMessage, None)
  {
  }

  /** The planner's unknown-id error quotes the id the model returned, so an
      id containing "429" turns a wrong pick into a rate-limit answer. */
  lemma QuotedIdCanReadAsRateLimit(id: string)
    requires Includes(id, "429")
    requires !Mentions("Selected expert ID " + id + " not found", QuotaWords)
    ensures OutcomeVerdict(Some("Selected expert ID " + id + " not found")) == Verdict(429, "rate_limited")
  {
    IncludedInConcat("Selected expert ID ", id, " not found", "429");
    assert RateWords[1] == "429";
  }
}
