/** Choosing experts for a guide (src/lib/expertSelector.ts): the matching
    request sent to the language model, the checks its free-text reply must
    pass, and the lookup of the chosen experts. The parts the planner in
    src/lib/integratedTripPlannerWithExperts.ts shares with it are defined
    here once. */
module ExpertSelection {
  import opened Js
  import opened ExpertDirectory

  const IKnowWhere := "i-know-where"
  const InspireMe := "inspire-me"
  const NoMatch := "NO_MATCH"
  const NoExperts := "NO_EXPERTS"

  /** `TripGuide`; `flowType` is whatever text the guide carries, and
      `content` is the value the guide holds (text for a generated guide,
      any JSON value for a posted one). */
  datatype TripGuide = TripGuide(id: string, flowType: string, title: string, content: Json)

  /** `string | string[]`. */
  datatype SelectedIds = One(id: string) | Many(ids: seq<string>)

  /** `ExpertSelectionResult`. */
  datatype SelectionResult = SelectionResult(success: bool, selectedIds: SelectedIds, error: Option<string>)

  predicate IsPoolId(pool: seq<Expert>, id: string) {
    exists i :: 0 <= i < |pool| && pool[i].id == id
  }

  /** `experts.find(e => e.id === id)`. */
  function Find(pool: seq<Expert>, id: string): (r: Option<Expert>)
    ensures r.Some? <==> IsPoolId(pool, id)
    ensures r.Some? ==> r.value in pool && r.value.id == id
    // The first pool member with the id, as `find` returns.
    ensures r.Some? ==> exists i :: 0 <= i < |pool| && pool[i] == r.value && forall j :: 0 <= j < i ==> pool[j].id != id
  {
    if pool == [] then None
    else if pool[0].id == id then Some(pool[0])
    else
      var r := Find(pool[1..], id);
      assert IsPoolId(pool, id) && pool[0].id != id ==> IsPoolId(pool[1..], id) by {
        if IsPoolId(pool, id) && pool[0].id != id {
          var i :| 0 <= i < |pool| && pool[i].id == id;
          assert pool[1..][i - 1].id == id;
        }
      }
      assert r.Some? ==> exists i :: 0 <= i < |pool| && pool[i] == r.value && forall j :: 0 <= j < i ==> pool[j].id != id by {
        if r.Some? {
          var i :| 0 <= i < |pool[1..]| && pool[1..][i] == r.value && forall j :: 0 <= j < i ==> pool[1..][j].id != id;
          assert pool[i + 1] == r.value;
          forall j | 0 <= j < i + 1 ensures pool[j].id != id {
            if j > 0 { assert pool[j] == pool[1..][j - 1]; }
          }
        }
      }
      r
  }

  // ---------------------------------------------------------------- request

  /** The line the request shows for one expert: id, profession, one-line bio. */
  function ExpertLine(e: Expert): string {
    "ID: " + e.id + " | Profession: " + e.profession + " | Bio: " + e.onelineBio
  }

  function ExpertLines(pool: seq<Expert>): (lines: seq<string>)
    ensures |lines| == |pool|
    ensures forall i :: 0 <= i < |pool| ==> lines[i] == ExpertLine(pool[i])
  {
    seq(|pool|, i requires 0 <= i < |pool| => ExpertLine(pool[i]))
  }

  const GuideBanner := "\n\n\U{1F5FA}\U{FE0F} TRIP GUIDE TO ANALYZE:\nFlow Type: "
  const ContentLabel := "\nContent: "
  const ExpertsBanner := "\n\n\U{1F465} AVAILABLE EXPERTS:\n"

  function RequestHead(instructions: string, guide: TripGuide): string {
    instructions + GuideBanner + guide.flowType + ContentLabel + Render(guide.content) + ExpertsBanner
  }

  const RequestTail := "\n\nSelect the best expert(s) and return only the ID(s) in the specified format."

  /** The matching request: the fixed selection instructions, the guide's
      flow type and content, then one line per expert, in pool order. */
  function BuildRequest(instructions: string, guide: TripGuide, pool: seq<Expert>): (r: string)
    ensures instructions <= r
    ensures |RequestTail| <= |r| && r[|r| - |RequestTail|..] == RequestTail
  {
    var list := Join(ExpertLines(pool), "\n");
    var rendered := Render(guide.content);
    Regroup(instructions, GuideBanner, guide.flowType, ContentLabel, rendered, ExpertsBanner, list, RequestTail);
    Ends(instructions, GuideBanner + guide.flowType + ContentLabel + rendered + ExpertsBanner + list, RequestTail);
    RequestHead(instructions, guide) + list + RequestTail
  }

  /** The request shows the guide: its flow type after the guide banner,
      and its content, as `String` renders it, after its label. */
  lemma RequestShowsGuide(instructions: string, guide: TripGuide, pool: seq<Expert>)
    ensures Includes(BuildRequest(instructions, guide, pool), GuideBanner + guide.flowType)
    ensures Includes(BuildRequest(instructions, guide, pool), ContentLabel + Render(guide.content))
  {
    var list := Join(ExpertLines(pool), "\n");
    var rendered := Render(guide.content);
    Regroup(instructions, GuideBanner, guide.flowType, ContentLabel, rendered, ExpertsBanner, list, RequestTail);
    IncludesMiddle(instructions, GuideBanner + guide.flowType, ContentLabel + rendered + ExpertsBanner + list + RequestTail);
    IncludesMiddle(instructions + GuideBanner + guide.flowType, ContentLabel + rendered, ExpertsBanner + list + RequestTail);
  }

  /** Two ways of grouping the eight pieces of a request. */
  lemma Regroup(a: string, b: string, c: string, d: string, e: string, f: string, g: string, h: string)
    ensures a + b + c + d + e + f + g + h == a + (b + c) + (d + e + f + g + h)
    ensures a + b + c + d + e + f + g + h == (a + b + c) + (d + e) + (f + g + h)
    ensures a + b + c + d + e + f + g + h == a + (b + c + d + e + f + g) + h
  {
  }

  /** A text made of three pieces starts with the first and ends with the
      last. */
  lemma Ends(a: string, m: string, z: string)
    ensures a <= a + m + z
    ensures (a + m + z)[|a + m|..] == z
  {
  }

  /** A text occurs in any text that has it between two others. */
  lemma IncludesMiddle(a: string, b: string, c: string)
    ensures Includes(a + b + c, b)
  {
    OccursInside(a, b, c, b, 0);
    IncludesIff(a + b + c, b);
  }

  /** Every part of a joined list occurs in the joined text, after the
      parts before it and their separators. */
  lemma {:induction false} JoinedPartAt(parts: seq<string>, sep: string, k: nat)
    requires k < |parts|
    ensures exists off :: OccursAt(Join(parts, sep), parts[k], off)
  {
    if |parts| == 1 {
      assert OccursAt(Join(parts, sep), parts[0], 0);
    } else if k == 0 {
      assert Join(parts, sep) == parts[0] + (sep + Join(parts[1..], sep));
      assert OccursAt(Join(parts, sep), parts[0], 0);
    } else {
      JoinedPartAt(parts[1..], sep, k - 1);
      var off :| OccursAt(Join(parts[1..], sep), parts[1..][k - 1], off);
      var pre := parts[0] + sep;
      var whole := Join(parts, sep);
      assert whole == pre + Join(parts[1..], sep);
      assert whole[|pre| + off..|pre| + off + |parts[k]|] == Join(parts[1..], sep)[off..off + |parts[k]|];
      assert OccursAt(whole, parts[k], |pre| + off);
    }
  }

  lemma OccursInside(a: string, b: string, c: string, sub: string, off: int)
    requires OccursAt(b, sub, off)
    ensures OccursAt(a + b + c, sub, |a| + off)
  {
    assert (a + b + c)[|a| + off..|a| + off + |sub|] == b[off..off + |sub|];
  }

  /** The request names every expert of the pool by its line, and its text
      depends on nothing but the instructions, the guide and the pool. */
  lemma RequestListsEveryExpert(instructions: string, guide: TripGuide, pool: seq<Expert>, i: nat)
    requires i < |pool|
    ensures Includes(BuildRequest(instructions, guide, pool), ExpertLine(pool[i]))
  {
    var lines := ExpertLines(pool);
    JoinedPartAt(lines, "\n", i);
    var off :| OccursAt(Join(lines, "\n"), lines[i], off);
    OccursInside(RequestHead(instructions, guide), Join(lines, "\n"), RequestTail, lines[i], off);
    IncludesIff(BuildRequest(instructions, guide, pool), ExpertLine(pool[i]));
  }

  // ------------------------------------------------------------ single id

  /** `s.replace(/[`"]/g, '')`. */
  function StripQuotes(s: string): (r: string)
    ensures '`' !in r && '"' !in r
    ensures |r| <= |s|
    ensures '`' !in s && '"' !in s ==> r == s
    ensures forall c :: c in r ==> c in s
  {
    if s == [] then []
    else if s[0] == '`' || s[0] == '"' then StripQuotes(s[1..])
    else [s[0]] + StripQuotes(s[1..])
  }

  /** The identifier read from a single-destination reply. */
  function CleanId(reply: string): (id: string)
    ensures '`' !in id && '"' !in id
    ensures id == [] || (!IsSpace(id[0]) && !IsSpace(id[|id| - 1]))
  {
    TrimKeepsCharacters(StripQuotes(reply));
    Trim(StripQuotes(reply))
  }

  /** A single-destination reply is accepted when its identifier is the
      sentinel or the id of a pool expert; the error names the identifier. */
  function CheckSingle(id: string, pool: seq<Expert>): (r: Result<string, string>)
    ensures r.Ok? <==> id == NoMatch || IsPoolId(pool, id)
    ensures r.Ok? ==> r.value == id
    ensures r.Err? ==> r.error == id
  {
    if id != NoMatch && Find(pool, id).None? then Err(id) else Ok(id)
  }

  // ------------------------------------------------------------ three ids

  /** Why a parsed multi-idea reply is refused, in the order the checks run. */
  datatype TripleError = NotThree | Duplicate | Unknown(id: Json)

  predicate PairwiseDistinct(items: seq<Json>) {
    forall i, j :: 0 <= i < j < |items| ==> !SameValueZero(items[i], items[j])
  }

  /** What a multi-idea reply must parse to: an array of exactly three
      distinct texts, each the id of a pool expert. */
  predicate IsValidTriple(v: Json, pool: seq<Expert>) {
    && v.JArray? && |v.items| == 3
    && (forall i :: 0 <= i < 3 ==> v.items[i].JString? && IsPoolId(pool, v.items[i].s))
    && PairwiseDistinct(v.items)
  }

  /** `v` is the array of the texts `ids`, in that order. */
  predicate ParsedAs(v: Json, ids: seq<string>) {
    v.JArray? && |v.items| == |ids| && forall i :: 0 <= i < |ids| ==> v.items[i] == JString(ids[i])
  }

  /** Position of the first element that no pool expert has as its id. */
  function FirstUnknown(items: seq<Json>, pool: seq<Expert>): (r: Option<nat>)
    ensures r.None? <==> forall i :: 0 <= i < |items| ==> items[i].JString? && IsPoolId(pool, items[i].s)
    ensures r.Some? ==> r.value < |items| && !(items[r.value].JString? && IsPoolId(pool, items[r.value].s))
    ensures r.Some? ==> forall i :: 0 <= i < r.value ==> items[i].JString? && IsPoolId(pool, items[i].s)
  {
    if items == [] then None
    else if !(items[0].JString? && Find(pool, items[0].s).Some?) then Some(0)
    else match FirstUnknown(items[1..], pool)
      case None => None
      case Some(k) => Some(k + 1)
  }

  /** The checks on the parsed reply: array of three (else `NotThree`), all
      distinct as a `Set` counts them (else `Duplicate`), then each one
      looked up in the pool, in order (else `Unknown` of the first miss).
      On success the ids come back in the model's order. */
  function CheckTriple(v: Json, pool: seq<Expert>): (r: Result<seq<string>, TripleError>)
    ensures r.Ok? <==> IsValidTriple(v, pool)
    ensures r.Ok? ==> |r.value| == 3 && ParsedAs(v, r.value)
    ensures r == Err(NotThree) <==> !(v.JArray? && |v.items| == 3)
    ensures r == Err(Duplicate) <==> v.JArray? && |v.items| == 3 && !PairwiseDistinct(v.items)
    ensures r.Err? && r.error.Unknown? ==>
              FirstUnknown(v.items, pool).Some? && r.error.id == v.items[FirstUnknown(v.items, pool).value]
  {
    if !(v.JArray? && |v.items| == 3) then Err(NotThree)
    else if !PairwiseDistinct(v.items) then Err(Duplicate)
    else match FirstUnknown(v.items, pool)
      case Some(k) => Err(Unknown(v.items[k]))
      case None => Ok([v.items[0].s, v.items[1].s, v.items[2].s])
  }

  /** A valid triple consists of three different pool ids. */
  lemma TripleIdsDistinct(v: Json, pool: seq<Expert>)
    requires IsValidTriple(v, pool)
    ensures var ids := CheckTriple(v, pool).value;
            ids[0] != ids[1] && ids[0] != ids[2] && ids[1] != ids[2] &&
            IsPoolId(pool, ids[0]) && IsPoolId(pool, ids[1]) && IsPoolId(pool, ids[2])
  {
    assert !SameValueZero(v.items[0], v.items[1]);
    assert !SameValueZero(v.items[0], v.items[2]);
    assert !SameValueZero(v.items[1], v.items[2]);
  }

  // --------------------------------------------------------- the selector

  /** The message the selector's own checks throw for a triple, as
      `String(error)` renders it inside the wrapping message. */
  function TripleErrorText(e: TripleError): string {
    match e
    case NotThree => "Expected array of 3 expert IDs for inspire-me flow"
    case Duplicate => "Expert IDs must be unique"
    case Unknown(id) => "Selected expert ID " + Render(id) + " not found in experts list"
  }

  const ParsePrefix := "Failed to parse expert IDs array: "

  /** `selectBestExpert`'s parse step on a trimmed, non-empty reply: the
      single-destination and multi-idea contracts, and any other flow
      refused. `parse` is `JSON.parse`: a value, or the message of the
      `SyntaxError` it throws. The error is the message thrown. */
  function ParseSelection(flow: string, reply: string, pool: seq<Expert>, parse: string -> Result<Json, string>)
    : (r: Result<SelectedIds, string>)
    ensures flow == IKnowWhere ==>
              (r.Ok? <==> CleanId(reply) == NoMatch || IsPoolId(pool, CleanId(reply))) &&
              (r.Ok? ==> r.value == One(CleanId(reply)))
    ensures flow == InspireMe ==>
              (r.Ok? <==> parse(reply).Ok? && IsValidTriple(parse(reply).value, pool)) &&
              (r.Ok? ==> r.value.Many? && ParsedAs(parse(reply).value, r.value.ids)) &&
              (r.Err? ==> StartsWith(r.error, ParsePrefix))
    ensures flow != IKnowWhere && flow != InspireMe ==> r == Err("Unsupported flow type: " + flow)
  {
    if flow == IKnowWhere then
      match CheckSingle(CleanId(reply), pool)
      case Ok(id) => Ok(One(id))
      case Err(id) => Err("Selected expert ID " + id + " not found in experts list")
    else if flow == InspireMe then
      var r := match parse(reply)
        case Err(m) => Err(ParsePrefix + Show(ErrorValue("SyntaxError", m)))
        case Ok(v) =>
          match CheckTriple(v, pool)
          case Ok(ids) => Ok(Many(ids))
          case Err(e) => Err(ParsePrefix + Show(Error(TripleErrorText(e))));
      r
    else
      Err("Unsupported flow type: " + flow)
  }

  /** The answer for a failed selection: an empty list for multi-idea, the
      sentinel for any other flow. */
  function FailedSelection(flow: string, message: string): (r: SelectionResult)
    ensures !r.success && r.error == Some(message)
    ensures flow == InspireMe ==> r.selectedIds == Many([])
    ensures flow != InspireMe ==> r.selectedIds == One(NoMatch)
  {
    SelectionResult(false, if flow == InspireMe then Many([]) else One(NoMatch), Some(message))
  }

  /** What one call of `selectBestExpert` does, and the request it sent to
      the model if it got that far. */
  datatype SelectionCall = SelectionCall(result: SelectionResult, request: Option<string>)

  /** `selectBestExpert(tripGuide)`. The collaborators' outcomes are inputs:
      `pool` is what the selector's own `fetchAllExperts()` yields, `reply`
      is the model's message content (`None` when there is none) or what the
      model call throws, and `instructions` is the fixed selection prompt. */
  function SelectBestExpert(guide: TripGuide, pool: Result<seq<Expert>, Thrown>, reply: Result<Option<string>, Thrown>,
                            instructions: string, parse: string -> Result<Json, string>): (c: SelectionCall)
    ensures !Truthy(Some(guide.content)) ==>
              c == SelectionCall(FailedSelection(guide.flowType, "Trip guide content is required"), None)
    ensures Truthy(Some(guide.content)) && pool.Err? ==>
              c == SelectionCall(FailedSelection(guide.flowType, MessageOr(pool.error, "Unknown error occurred")), None)
    ensures Truthy(Some(guide.content)) && pool.Ok? && pool.value == [] ==>
              c == SelectionCall(FailedSelection(guide.flowType, "No experts available in database"), None)
    ensures c.request.Some? <==> Truthy(Some(guide.content)) && pool.Ok? && pool.value != []
    ensures c.request.Some? ==> c.request.value == BuildRequest(instructions, guide, pool.value)
    // Once the model is asked: what it throws, an empty reply, or the parse
    // step's own message.
    ensures c.request.Some? && reply.Err? ==>
              c.result == FailedSelection(guide.flowType, MessageOr(reply.error, "Unknown error occurred"))
    ensures c.request.Some? && reply.Ok? && (reply.value.None? || Trim(reply.value.value) == []) ==>
              c.result == FailedSelection(guide.flowType, "No response from AI expert selection")
    ensures c.request.Some? && reply.Ok? && reply.value.Some? && Trim(reply.value.value) != [] &&
            ParseSelection(guide.flowType, Trim(reply.value.value), pool.value, parse).Err? ==>
              c.result == FailedSelection(guide.flowType, ParseSelection(guide.flowType, Trim(reply.value.value), pool.value, parse).error)
    ensures c.result.success <==>
              c.request.Some? && reply.Ok? && reply.value.Some? && Trim(reply.value.value) != [] &&
              ParseSelection(guide.flowType, Trim(reply.value.value), pool.value, parse).Ok?
    ensures c.result.success ==>
              c.result == SelectionResult(true, ParseSelection(guide.flowType, Trim(reply.value.value), pool.value, parse).value, None)
    ensures !c.result.success ==> c.result.error.Some? && c.result.selectedIds == FailedSelection(guide.flowType, "").selectedIds
  {
    if !Truthy(Some(guide.content)) then
      SelectionCall(FailedSelection(guide.flowType, "Trip guide content is required"), None)
    else if pool.Err? then
      SelectionCall(FailedSelection(guide.flowType, MessageOr(pool.error, "Unknown error occurred")), None)
    else if pool.value == [] then
      SelectionCall(FailedSelection(guide.flowType, "No experts available in database"), None)
    else
      var request := Some(BuildRequest(instructions, guide, pool.value));
      match reply
      case Err(t) => SelectionCall(FailedSelection(guide.flowType, MessageOr(t, "Unknown error occurred")), request)
      case Ok(content) =>
        var text := if content.Some? then Trim(content.value) else [];
        if text == [] then
          SelectionCall(FailedSelection(guide.flowType, "No response from AI expert selection"), request)
        else
          match ParseSelection(guide.flowType, text, pool.value, parse)
          case Ok(ids) => SelectionCall(SelectionResult(true, ids, None), request)
          case Err(m) => SelectionCall(FailedSelection(guide.flowType, m), request)
  }

  /** The contract a successful selection keeps for its flow: one id that
      is the sentinel or a pool id, or three different pool ids. */
  predicate KeepsFlowContract(flow: string, ids: SelectedIds, pool: seq<Expert>) {
    && (flow == IKnowWhere || flow == InspireMe)
    && (flow == IKnowWhere ==> ids.One? && (ids.id == NoMatch || IsPoolId(pool, ids.id)))
    && (flow == InspireMe ==>
          ids.Many? && |ids.ids| == 3 &&
          ids.ids[0] != ids.ids[1] && ids.ids[0] != ids.ids[2] && ids.ids[1] != ids.ids[2] &&
          forall i :: 0 <= i < 3 ==> IsPoolId(pool, ids.ids[i]))
  }

  /** Whatever the model replies, a successful selection keeps the contract
      of its flow, and any flow other than the two never succeeds. */
  lemma {:induction false} SuccessfulSelectionIsValid(guide: TripGuide, pool: Result<seq<Expert>, Thrown>,
                                                      reply: Result<Option<string>, Thrown>, instructions: string,
                                                      parse: string -> Result<Json, string>)
    requires SelectBestExpert(guide, pool, reply, instructions, parse).result.success
    ensures pool.Ok? && KeepsFlowContract(guide.flowType, SelectBestExpert(guide, pool, reply, instructions, parse).result.selectedIds, pool.value)
  {
    var text := Trim(reply.value.value);
    if guide.flowType == InspireMe {
      var v := parse(text).value;
      TripleIdsDistinct(v, pool.value);
    }
  }

  // -------------------------------------------------------------- details

  /** The experts a selection names, in the order named: the ids in
      `dropped` are skipped first, then every id found in the pool gives
      its first expert, and ids found nowhere are skipped. */
  function Details(ids: seq<string>, pool: seq<Expert>, dropped: set<string>): (r: seq<Expert>)
    ensures |r| <= |ids|
    ensures forall e :: e in r ==> e in pool && e.id !in dropped
    ensures (forall i :: 0 <= i < |ids| ==> ids[i] !in dropped && IsPoolId(pool, ids[i])) ==>
              |r| == |ids| && forall i :: 0 <= i < |ids| ==> r[i].id == ids[i]
  {
    if ids == [] then []
    else
      var rest := Details(ids[1..], pool, dropped);
      if ids[0] in dropped || Find(pool, ids[0]).None? then rest
      else [Find(pool, ids[0]).value] + rest
  }

  /** The experts of a list of ids are those of its parts, in order: each id
      is looked up on its own. */
  lemma {:induction false} DetailsConcat(a: seq<string>, b: seq<string>, pool: seq<Expert>, dropped: set<string>)
    ensures Details(a + b, pool, dropped) == Details(a, pool, dropped) + Details(b, pool, dropped)
    decreases |a|
  {
    if a == [] {
      assert a + b == b;
    } else {
      assert (a + b)[0] == a[0] && (a + b)[1..] == a[1..] + b;
      DetailsConcat(a[1..], b, pool, dropped);
    }
  }

  /** One id gives its first pool expert, or nothing when it is dropped or
      no expert has it. */
  lemma DetailsOfOne(id: string, pool: seq<Expert>, dropped: set<string>)
    ensures Details([id], pool, dropped) ==
              if id !in dropped && IsPoolId(pool, id) then [Find(pool, id).value] else []
  {
    assert [id][1..] == [];
  }

  function IdList(selected: SelectedIds): seq<string> {
    match selected
    case One(id) => [id]
    case Many(ids) => ids
  }

  /** `getSelectedExpertsDetails` of the selector: drops `NO_MATCH`. */
  function SelectedExpertsDetails(selected: SelectedIds, pool: seq<Expert>): (r: seq<Expert>)
    ensures |r| <= |IdList(selected)|
    ensures forall e :: e in r ==> e in pool && e.id != NoMatch
    ensures selected.One? ==>
              r == if selected.id != NoMatch && IsPoolId(pool, selected.id) then [Find(pool, selected.id).value] else []
  {
    if selected.One? then DetailsOfOne(selected.id, pool, {NoMatch}); Details(IdList(selected), pool, {NoMatch})
    else Details(IdList(selected), pool, {NoMatch})
  }

  /** A list of ids names the experts each of its ids names on its own, in
      the order of the ids: `NO_MATCH` and unknown ids are skipped, the others
      kept. */
  lemma SelectedDetailsInOrder(a: seq<string>, b: seq<string>, id: string, pool: seq<Expert>)
    ensures SelectedExpertsDetails(Many(a + b), pool) ==
              SelectedExpertsDetails(Many(a), pool) + SelectedExpertsDetails(Many(b), pool)
    ensures SelectedExpertsDetails(Many([id]), pool) == SelectedExpertsDetails(One(id), pool)
  {
    DetailsConcat(a, b, pool, {NoMatch});
  }

  /** A successful selection names as many experts as it has ids, in the
      same order, unless it is `NO_MATCH`, which names none (given that no
      expert of the pool has the sentinel as its id). */
  lemma {:induction false} DetailsOfValidSelection(flow: string, ids: SelectedIds, pool: seq<Expert>)
    requires KeepsFlowContract(flow, ids, pool)
    ensures var details := SelectedExpertsDetails(ids, pool);
            && (ids == One(NoMatch) ==> details == [])
            && (ids != One(NoMatch) && !IsPoolId(pool, NoMatch) ==>
                  |details| == |IdList(ids)| && forall i :: 0 <= i < |details| ==> details[i].id == IdList(ids)[i])
  {
    if ids != One(NoMatch) && !IsPoolId(pool, NoMatch) {
      assert forall i :: 0 <= i < |IdList(ids)| ==> IsPoolId(pool, IdList(ids)[i]);
    }
  }
}
