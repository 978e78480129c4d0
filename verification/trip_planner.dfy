/** One planning request end to end (src/lib/integratedTripPlannerWithExperts.ts):
    the guide and the expert pool are requested together; once both have
    settled, a guide failure fails the request, a pool failure degrades it
    to the guide alone, and otherwise the model's choice of experts is
    checked against the pool. */
module TripPlanner {
  import opened Js
  import opened ExpertDirectory
  import opened ExpertSelection

  /** Milliseconds spent generating the guide, selecting experts, and in all. */
  datatype Timing = Timing(tripGuideGeneration: int, expertSelection: int, total: int)

  /** `IntegratedTripResult`; this function always fills in `timing`. */
  datatype IntegratedTripResult = IntegratedTripResult(
    success: bool,
    tripGuide: Option<TripGuide>,
    selectedIds: Option<SelectedIds>,
    error: Option<string>,
    timing: Timing)

  /** Which guide generator a flow calls. */
  datatype Generator = InspireGuide | PlanningGuide

  const DegradedNote := "Experts unavailable - guide generated successfully"

  /** The message a failed guide generation is reported with. */
  function GuideFailure(error: Thrown): string {
    "Trip guide generation failed: " + Show(error)
  }

  /** The planner's own copy of the reply checks. Unlike the selector's, it
      sends every flow other than single-destination down the three-id path,
      and its errors are the bare messages thrown (a `SyntaxError`'s message
      for a reply that does not parse). */
  function ValidateReply(flow: string, reply: string, pool: seq<Expert>, parse: string -> Result<Json, string>)
    : (r: Result<SelectedIds, string>)
    ensures flow == IKnowWhere ==>
              (r.Ok? <==> CleanId(reply) == NoMatch || IsPoolId(pool, CleanId(reply))) &&
              (r.Ok? ==> r.value == One(CleanId(reply)))
    ensures flow != IKnowWhere ==>
              (r.Ok? <==> parse(reply).Ok? && IsValidTriple(parse(reply).value, pool)) &&
              (r.Ok? ==> r.value.Many? && ParsedAs(parse(reply).value, r.value.ids))
    ensures flow != IKnowWhere && parse(reply).Err? ==> r == Err(parse(reply).error)
  {
    if flow == IKnowWhere then
      match CheckSingle(CleanId(reply), pool)
      case Ok(id) => Ok(One(id))
      case Err(id) => Err("Selected expert ID " + id + " not found")
    else
      match parse(reply)
      case Err(m) => Err(m)
      case Ok(v) =>
        match CheckTriple(v, pool)
        case Ok(ids) => Ok(Many(ids))
        case Err(NotThree) => Err("Expected array of 3 expert IDs for inspire-me flow")
        case Err(Duplicate) => Err("Expert IDs must be unique")
        case Err(Unknown(id)) => Err("Selected expert ID " + Render(id) + " not found")
  }

  /** On the two supported flows the planner and the selector accept the
      same replies and read the same ids from them; only their error texts
      differ. On any other flow the selector refuses while the planner
      still reads three ids. */
  lemma {:induction false} ValidatorsAgree(flow: string, reply: string, pool: seq<Expert>, parse: string -> Result<Json, string>)
    ensures flow == IKnowWhere || flow == InspireMe ==>
              ValidateReply(flow, reply, pool, parse).Ok? == ParseSelection(flow, reply, pool, parse).Ok? &&
              (ValidateReply(flow, reply, pool, parse).Ok? ==>
                 ValidateReply(flow, reply, pool, parse).value == ParseSelection(flow, reply, pool, parse).value)
    ensures flow != IKnowWhere && flow != InspireMe ==>
              ParseSelection(flow, reply, pool, parse).Err? &&
              (ValidateReply(flow, reply, pool, parse).Ok? <==> parse(reply).Ok? && IsValidTriple(parse(reply).value, pool))
  {
    if flow == InspireMe {
      var a := ValidateReply(flow, reply, pool, parse);
      var b := ParseSelection(flow, reply, pool, parse);
      if a.Ok? {
        var v := parse(reply).value;
        assert a.value.ids == b.value.ids by {
          assert ParsedAs(v, a.value.ids) && ParsedAs(v, b.value.ids);
          assert |a.value.ids| == |b.value.ids|;
          forall i | 0 <= i < |a.value.ids| ensures a.value.ids[i] == b.value.ids[i] {
            assert JString(a.value.ids[i]) == v.items[i] == JString(b.value.ids[i]);
          }
        }
      }
    }
  }

  /** With an empty pool the only reply the planner can accept is the
      single-destination sentinel. */
  lemma EmptyPoolOnlyNoMatch(flow: string, reply: string, parse: string -> Result<Json, string>)
    requires ValidateReply(flow, reply, [], parse).Ok?
    ensures flow == IKnowWhere && ValidateReply(flow, reply, [], parse).value == One(NoMatch)
  {
  }

  /** `generateTripWithExperts(questionnaireData)` once both requests have
      settled. `guide` is the outcome of the generator chosen for `flowType`
      (returned as `generator`), `experts` that of `fetchAllExperts()`,
      `reply` that of the model call (its message content, `None` when there
      is none), `instructions` the fixed selection prompt. The clock
      readings are taken at the start, once both settle, when selection
      starts, when the model replies, and at the end. `request` is what was
      sent to the model, `None` when it was not called. */
  method GenerateTripWithExperts(
    flowType: string,
    guide: Result<TripGuide, Thrown>,
    experts: Result<seq<Expert>, Thrown>,
    reply: Result<Option<string>, Thrown>,
    instructions: string,
    parse: string -> Result<Json, string>,
    start: int, settled: int, selectionStart: int, replied: int, finish: int)
    returns (generator: Generator, request: Option<string>, out: IntegratedTripResult)
    ensures generator == if flowType == InspireMe then InspireGuide else PlanningGuide
    // The model is asked only when both the guide and the pool are there.
    ensures request.Some? <==> guide.Ok? && experts.Ok?
    ensures request.Some? ==> request.value == BuildRequest(instructions, guide.value, experts.value)
    // Guide failed: a failure, whatever became of the pool.
    ensures guide.Err? ==>
              out == IntegratedTripResult(false, None, None, Some(GuideFailure(guide.error)),
                                          Timing(0, 0, finish - start))
    // Pool failed: the guide alone, with the flow's degraded sentinel.
    ensures guide.Ok? && experts.Err? ==>
              out == IntegratedTripResult(true, Some(guide.value),
                                          Some(if flowType == InspireMe then Many([]) else One(NoExperts)),
                                          Some(DegradedNote), Timing(settled - start, 0, finish - start))
    // Both there: the model's reply decides, and a call that throws fails
    // the request with its message.
    ensures guide.Ok? && experts.Ok? && reply.Err? ==> out == Failed(reply.error, start, finish)
    ensures guide.Ok? && experts.Ok? && reply.Ok? ==>
              out == SelectionOutcome(guide.value, experts.value, ReplyText(reply), parse,
                                      settled - start, replied - selectionStart, finish - start)
    // Every failure drops the guide and reports both phases as 0.
    ensures !out.success ==>
              out.tripGuide.None? && out.selectedIds.None? && out.error.Some? && out.timing == Timing(0, 0, finish - start)
  {
    generator := if flowType == InspireMe then InspireGuide else PlanningGuide;
    request := None;
    var tripGuideTime := settled - start;
    if guide.Err? {
      out := Failed(Error(GuideFailure(guide.error)), start, finish);
      return;
    }
    var tripGuide := guide.value;
    if experts.Err? {
      var sentinel := if flowType == InspireMe then Many([]) else One(NoExperts);
      out := IntegratedTripResult(true, Some(tripGuide), Some(sentinel), Some(DegradedNote),
                                  Timing(tripGuideTime, 0, finish - start));
      return;
    }
    var sent;
    sent, out := AskForExperts(tripGuide, experts.value, reply, instructions, parse,
                               start, settled, selectionStart, replied, finish);
    request := Some(sent);
  }

  /** The selection phase, with the guide and the pool both there: the
      request is sent, a call that throws fails the request with its
      message, and otherwise the reply decides. */
  method AskForExperts(
    tripGuide: TripGuide,
    pool: seq<Expert>,
    reply: Result<Option<string>, Thrown>,
    instructions: string,
    parse: string -> Result<Json, string>,
    start: int, settled: int, selectionStart: int, replied: int, finish: int)
    returns (request: string, out: IntegratedTripResult)
    ensures request == BuildRequest(instructions, tripGuide, pool)
    ensures reply.Err? ==> out == Failed(reply.error, start, finish)
    ensures reply.Ok? ==>
              out == SelectionOutcome(tripGuide, pool, ReplyText(reply), parse,
                                      settled - start, replied - selectionStart, finish - start)
    ensures !out.success ==>
              out.tripGuide.None? && out.selectedIds.None? && out.error.Some? && out.timing == Timing(0, 0, finish - start)
  {
    request := BuildRequest(instructions, tripGuide, pool);
    if reply.Err? {
      out := Failed(reply.error, start, finish);
    } else {
      out := SelectionOutcome(tripGuide, pool, ReplyText(reply), parse,
                              settled - start, replied - selectionStart, finish - start);
    }
  }

  /** The tail of the request once the model has replied with `result`
      (already trimmed): an empty reply and a reply that fails the checks
      are failures carrying their message; otherwise the guide comes back
      with the ids read from the reply. */
  function SelectionOutcome(tripGuide: TripGuide, pool: seq<Expert>, result: string, parse: string -> Result<Json, string>,
                            tripGuideTime: int, expertSelectionTime: int, total: int)
    : (out: IntegratedTripResult)
    ensures out.success <==> result != [] && ValidateReply(tripGuide.flowType, result, pool, parse).Ok?
    ensures out.success ==>
              out.tripGuide == Some(tripGuide) && out.error.None? &&
              out.selectedIds == Some(ValidateReply(tripGuide.flowType, result, pool, parse).value) &&
              out.timing == Timing(tripGuideTime, expertSelectionTime, total)
    ensures !out.success ==>
              out.tripGuide.None? && out.selectedIds.None? && out.timing == Timing(0, 0, total)
    ensures result == [] ==> out.error == Some("No response from AI expert selection")
    ensures result != [] && !out.success ==> out.error == Some(ValidateReply(tripGuide.flowType, result, pool, parse).error)
  {
    if result == [] then
      Failed(Error("No response from AI expert selection"), 0, total)
    else
      match ValidateReply(tripGuide.flowType, result, pool, parse)
      // A `SyntaxError` from the parser or an `Error` of the checks: either
      // way the outcome carries its message.
      case Err(m) => Failed(Error(m), 0, total)
      case Ok(ids) => IntegratedTripResult(true, Some(tripGuide), Some(ids), None,
                                           Timing(tripGuideTime, expertSelectionTime, total))
  }

  /** `completion.choices[0]?.message?.content?.trim()`, with a missing
      content read as the empty text (both fail the `!result` test). */
  function ReplyText(reply: Result<Option<string>, Thrown>): (r: string)
    ensures r != [] ==> reply.Ok? && reply.value.Some? && r == Trim(reply.value.value)
  {
    if reply.Ok? && reply.value.Some? then Trim(reply.value.value) else []
  }

  /** The `catch` block: the error's message, no guide, both phases 0. */
  function Failed(error: Thrown, start: int, finish: int): (r: IntegratedTripResult)
    ensures !r.success && r.tripGuide.None? && r.selectedIds.None?
    ensures r.error == Some(MessageOr(error, "Unknown error occurred"))
    ensures r.timing == Timing(0, 0, finish - start)
  {
    IntegratedTripResult(false, None, None, Some(MessageOr(error, "Unknown error occurred")), Timing(0, 0, finish - start))
  }

  /** `getSelectedExpertsDetails` of the planner, over the pool its own
      `fetchAllExperts()` yields (a failed fetch rejects): drops both
      sentinels and unknown ids, keeping the order of the ids. */
  function PlannerExpertsDetails(selected: SelectedIds, pool: Result<seq<Expert>, Thrown>): (r: Result<seq<Expert>, Thrown>)
    ensures pool.Err? ==> r == Err(pool.error)
    ensures r.Ok? ==> |r.value| <= |IdList(selected)| &&
                      forall e :: e in r.value ==> e in pool.value && e.id != NoMatch && e.id != NoExperts
    ensures pool.Ok? && selected.One? ==>
              var id := selected.id;
              r == Ok(if id != NoMatch && id != NoExperts && IsPoolId(pool.value, id) then [Find(pool.value, id).value] else [])
  {
    match pool
    case Err(t) => Err(t)
    case Ok(experts) =>
      if selected.One? then DetailsOfOne(selected.id, experts, {NoMatch, NoExperts}); Ok(Details(IdList(selected), experts, {NoMatch, NoExperts}))
      else Ok(Details(IdList(selected), experts, {NoMatch, NoExperts}))
  }

  /** Over a pool that arrived, a list of ids names the experts each of its
      ids names on its own, in the order of the ids: both sentinels and
      unknown ids are skipped, the others kept. */
  lemma PlannerDetailsInOrder(a: seq<string>, b: seq<string>, id: string, pool: seq<Expert>)
    ensures PlannerExpertsDetails(Many(a + b), Ok(pool)) ==
              Ok(PlannerExpertsDetails(Many(a), Ok(pool)).value + PlannerExpertsDetails(Many(b), Ok(pool)).value)
    ensures PlannerExpertsDetails(Many([id]), Ok(pool)) == PlannerExpertsDetails(One(id), Ok(pool))
  {
    DetailsConcat(a, b, pool, {NoMatch, NoExperts});
  }

  /** A degraded outcome names no expert at all. */
  lemma DegradedNamesNoExpert(flowType: string, pool: seq<Expert>)
    ensures var ids := if flowType == InspireMe then Many([]) else One(NoExperts);
            PlannerExpertsDetails(ids, Ok(pool)) == Ok([])
  {
  }
}
