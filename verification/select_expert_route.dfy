/** `POST /api/select-expert` and its `GET` (src/app/api/select-expert/route.ts):
    the checks on the posted guide, the empty-pool answer, the hand-off to
    the selector, and the fixed answers for an exception. */
module SelectExpertRoute {
  import opened Js
  import opened ExpertDirectory
  import opened ExpertSelection
  import opened ErrorRules

  /** A JSON reply of the route and its HTTP status. */
  datatype SelectResponse =
    | Chosen(selectedIds: SelectedIds)                        // 200, success: true
    | Refused(status: nat, error: string, errorType: string)  // success: false
    | NotAllowed(error: string)                               // 405

  function Status(r: SelectResponse): nat {
    match r
    case Chosen(_) => 200
    case Refused(status, _, _) => status
    case NotAllowed(_) => 405
  }

  const MissingGuide := "Missing required field: tripGuide"
  const IncompleteGuide := "Trip guide must contain flowType and content"
  const InvalidFlow := "Invalid flowType. Must be \"inspire-me\" or \"i-know-where\""
  const EmptyPool := "No experts available for selection"
  const SelectionFailed := "Expert selection failed"

  // The route's own fixed answers to an exception.
  const StoreWords: seq<string> := ["Airtable", "AIRTABLE"]
  const StoreMessage := "\U{1F4CA} Expert database temporarily unavailable. Please try again later."
  const UnexpectedSelection := "\U{274C} An unexpected error occurred during expert selection. Please try again."

  const ThrownRules: seq<Rule<SelectResponse>> := [
    Rule(QuotaWords, Refused(429, QuotaMessage, "quota_exceeded")),
    Rule(RateWords, Refused(429, BusyMessage, "rate_limited")),
    Rule(AuthWords, Refused(401, AuthMessage, "auth_error")),
    Rule(StoreWords, Refused(503, StoreMessage, "database_error")),
    Rule(NetworkWords, Refused(503, NetworkMessage, "network_error"))]

  /** The `catch` block: an `Error` is classified by the first keyword group
      its message mentions; anything else thrown, or a message mentioning
      none, is a 500. The raw text never reaches the reply. */
  function ThrownReply(t: Thrown): (r: SelectResponse)
    ensures r.Refused?
    ensures r.error in {QuotaMessage, BusyMessage, AuthMessage, StoreMessage, NetworkMessage, UnexpectedSelection}
    ensures t.OtherValue? ==> r == Refused(500, UnexpectedSelection, "unknown")
    ensures t.ErrorValue? ==>
              var m := t.message;
              && (Mentions(m, QuotaWords) ==> r == Refused(429, QuotaMessage, "quota_exceeded"))
              && (!Mentions(m, QuotaWords) && Mentions(m, RateWords) ==> r == Refused(429, BusyMessage, "rate_limited"))
              && (!Mentions(m, QuotaWords) && !Mentions(m, RateWords) && Mentions(m, AuthWords) ==>
                    r == Refused(401, AuthMessage, "auth_error"))
              && ((!Mentions(m, QuotaWords) && !Mentions(m, RateWords) && !Mentions(m, AuthWords) &&
                   Mentions(m, StoreWords)) ==> r == Refused(503, StoreMessage, "database_error"))
              && ((!Mentions(m, QuotaWords) && !Mentions(m, RateWords) && !Mentions(m, AuthWords) &&
                   !Mentions(m, StoreWords) && Mentions(m, NetworkWords)) ==> r == Refused(503, NetworkMessage, "network_error"))
              && ((!Mentions(m, QuotaWords) && !Mentions(m, RateWords) && !Mentions(m, AuthWords) &&
                   !Mentions(m, StoreWords) && !Mentions(m, NetworkWords)) ==> r == Refused(500, UnexpectedSelection, "unknown"))
  {
    match t
    case OtherValue(_) => Refused(500, UnexpectedSelection, "unknown")
    case ErrorValue(_, m) =>
      assert ThrownRules[0].keywords == QuotaWords && ThrownRules[1].keywords == RateWords &&
             ThrownRules[2].keywords == AuthWords && ThrownRules[3].keywords == StoreWords &&
             ThrownRules[4].keywords == NetworkWords;
      assert forall k :: 0 <= k < |ThrownRules| ==>
               ThrownRules[k].verdict.Refused? &&
               ThrownRules[k].verdict.error in {QuotaMessage, BusyMessage, AuthMessage, StoreMessage, NetworkMessage};
      Classify(ThrownRules, m, Refused(500, UnexpectedSelection, "unknown"))
  }

  /** The error `body.tripGuide` raises when the body is `null`. */
  function NullBodyError(): Thrown {
    ErrorValue("TypeError", "Cannot read properties of null (reading 'tripGuide')")
  }

  /** `body.tripGuide`, which the checks require to be truthy. */
  function GuideField(body: Json, key: string): Option<Json> {
    match Get(body, "tripGuide")
    case None => None
    case Some(guide) => Get(guide, key)
  }

  /** The body passes every check: a truthy `tripGuide` whose `content` is
      truthy and whose `flowType` is one of the two flows. */
  predicate Admitted(body: Json) {
    && body != JNull
    && Truthy(Get(body, "tripGuide"))
    && Truthy(GuideField(body, "content"))
    && (GuideField(body, "flowType") == Some(JString(InspireMe)) || GuideField(body, "flowType") == Some(JString(IKnowWhere)))
  }

  /** The checks, in order, before the store is touched: `None` when the
      body passes, else the answer. */
  function CheckBody(body: Json): (r: Option<SelectResponse>)
    ensures r.None? <==> Admitted(body)
    ensures body == JNull ==> r == Some(ThrownReply(NullBodyError()))
    ensures body != JNull && !Truthy(Get(body, "tripGuide")) ==> r == Some(Refused(400, MissingGuide, "validation_error"))
    ensures body != JNull && Truthy(Get(body, "tripGuide")) &&
            !(Truthy(GuideField(body, "flowType")) && Truthy(GuideField(body, "content"))) ==>
              r == Some(Refused(400, IncompleteGuide, "validation_error"))
    ensures body != JNull && Truthy(Get(body, "tripGuide")) &&
            Truthy(GuideField(body, "flowType")) && Truthy(GuideField(body, "content")) && !Admitted(body) ==>
              r == Some(Refused(400, InvalidFlow, "validation_error"))
  {
    if body == JNull then Some(ThrownReply(NullBodyError()))
    else if !Truthy(Get(body, "tripGuide")) then Some(Refused(400, MissingGuide, "validation_error"))
    else if !Truthy(GuideField(body, "flowType")) || !Truthy(GuideField(body, "content")) then
      Some(Refused(400, IncompleteGuide, "validation_error"))
    else if !Admitted(body) then Some(Refused(400, InvalidFlow, "validation_error"))
    else None
  }

  /** `${v}` of a property that may be `undefined`. */
  function TextOf(v: Option<Json>): string {
    match v
    case None => "undefined"
    case Some(x) => Render(x)
  }

  /** The posted guide as the selector sees it: the posted flow and the
      posted content value, which the checks have found truthy. */
  function GuideOf(body: Json): (g: TripGuide)
    requires Admitted(body)
    ensures g.flowType == InspireMe || g.flowType == IKnowWhere
    ensures GuideField(body, "flowType") == Some(JString(g.flowType))
    ensures GuideField(body, "content") == Some(g.content) && Truthy(Some(g.content))
  {
    TripGuide(TextOf(GuideField(body, "id")), GuideField(body, "flowType").value.s,
              TextOf(GuideField(body, "title")), GuideField(body, "content").value)
  }

  /** What `POST` answers. `body` is what `request.json()` gives, `pool` what
      the route's `fetchAllExperts()` yields, and `reply`, `instructions` and
      `parse` are the selector's collaborators. The selector is called on
      the same list: its own fetch is answered from the cache the route's
      fetch has just filled. */
  function Answer(body: Result<Json, Thrown>, pool: Result<seq<Expert>, Thrown>, reply: Result<Option<string>, Thrown>,
                  instructions: string, parse: string -> Result<Json, string>): (r: SelectResponse)
    ensures body.Err? ==> r == ThrownReply(body.error)
    ensures body.Ok? && !Admitted(body.value) ==> r == CheckBody(body.value).value && r.Refused?
    ensures body.Ok? && Admitted(body.value) && pool.Err? ==> r == ThrownReply(pool.error)
    ensures body.Ok? && Admitted(body.value) && pool == Ok([]) ==> r == Refused(404, EmptyPool, "no_experts")
    // An admitted body with a non-empty pool always reaches the model.
    ensures body.Ok? && Admitted(body.value) && pool.Ok? && pool.value != [] ==>
              SelectBestExpert(GuideOf(body.value), pool, reply, instructions, parse).request ==
                Some(BuildRequest(instructions, GuideOf(body.value), pool.value))
    ensures body.Ok? && Admitted(body.value) && pool.Ok? && pool.value != [] ==>
              var result := SelectBestExpert(GuideOf(body.value), pool, reply, instructions, parse).result;
              && (result.success ==> r == Chosen(result.selectedIds))
              && (!result.success ==>
                    r == Refused(500, if result.error.Some? && result.error.value != [] then result.error.value else SelectionFailed,
                                 "selection_error"))
    // Whatever the model says, a 200 carries ids that keep the flow's contract.
    ensures r.Chosen? ==>
              body.Ok? && Admitted(body.value) && pool.Ok? && pool.value != [] &&
              KeepsFlowContract(GuideOf(body.value).flowType, r.selectedIds, pool.value)
  {
    match body
    case Err(t) => ThrownReply(t)
    case Ok(v) =>
      if !Admitted(v) then CheckBody(v).value
      else
        match pool
        case Err(t) => ThrownReply(t)
        case Ok(experts) =>
          if experts == [] then Refused(404, EmptyPool, "no_experts")
          else
            var guide := GuideOf(v);
            var result := SelectBestExpert(guide, pool, reply, instructions, parse).result;
            if result.success then
              SuccessfulSelectionIsValid(guide, pool, reply, instructions, parse);
              Chosen(result.selectedIds)
            else
              var message := if result.error.Some? && result.error.value != [] then result.error.value else SelectionFailed;
              Refused(500, message, "selection_error")
  }

  /** `POST` over the shared expert cache: the route fetches the experts,
      and the selector fetches them again through the same cache. */
  method Post(cache: ExpertCache, body: Result<Json, Thrown>, store: Result<seq<ExpertRecord>, Thrown>,
              reply: Result<Option<string>, Thrown>, instructions: string, parse: string -> Result<Json, string>)
    returns (r: SelectResponse)
    modifies cache
    ensures r == Answer(body, Fetched(old(cache.cached), store), reply, instructions, parse)
    // A refused body leaves the cache alone; an admitted one fills it if the store answers.
    ensures !(body.Ok? && Admitted(body.value)) ==> cache.cached == old(cache.cached)
    ensures body.Ok? && Admitted(body.value) ==>
              cache.cached == match Fetched(old(cache.cached), store)
                              case Ok(experts) => Some(experts)
                              case Err(_) => None
  {
    if body.Err? {
      return ThrownReply(body.error);
    }
    var refusal := CheckBody(body.value);
    if refusal.Some? {
      return refusal.value;
    }
    var experts, _ := cache.FetchAll(store);
    if experts.Err? {
      return ThrownReply(experts.error);
    }
    if experts.value == [] {
      return Refused(404, EmptyPool, "no_experts");
    }
    // The selector's own `fetchAllExperts()`: a cache hit, the same list.
    var again, queried := cache.FetchAll(store);
    assert !queried && again == experts;
    var guide := GuideOf(body.value);
    var result := SelectBestExpert(guide, again, reply, instructions, parse).result;
    if result.success {
      r := Chosen(result.selectedIds);
    } else {
      var message := if result.error.Some? && result.error.value != [] then result.error.value else SelectionFailed;
      r := Refused(500, message, "selection_error");
    }
  }

  /** `GET`: the method is refused. */
  function GetRequest(): (r: SelectResponse)
    ensures Status(r) == 405 && r.error == "Method not allowed. Use POST to select experts."
  {
    NotAllowed("Method not allowed. Use POST to select experts.")
  }

  /** A refused body or an empty pool never reaches the model: whatever it
      would have replied, the answer is the same. */
  lemma RefusedBeforeSelection(body: Result<Json, Thrown>, pool: Result<seq<Expert>, Thrown>,
                               reply1: Result<Option<string>, Thrown>, reply2: Result<Option<string>, Thrown>,
                               instructions: string, parse: string -> Result<Json, string>)
    requires !(body.Ok? && Admitted(body.value) && pool.Ok? && pool.value != [])
    ensures Answer(body, pool, reply1, instructions, parse) == Answer(body, pool, reply2, instructions, parse)
    ensures Status(Answer(body, pool, reply1, instructions, parse)) != 200
  {
  }
}
