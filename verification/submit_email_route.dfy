/** `POST /api/submit-email` and its `GET` (src/app/api/submit-email/route.ts):
    the required-field and e-mail checks, and the contact built for the CRM
    from the questionnaire with its `||` fallback chains. */
module SubmitEmailRoute {
  import opened Js

  const MissingFields := "Missing required fields: email, questionnaireSummary, flowType, or tripGuideId"
  const InvalidEmail := "Invalid email format"
  const NotSpecified := "Not specified"
  const SaveFailed := "Failed to save contact information. Please try again."
  const Unexpected := "An unexpected error occurred. Please try again."
  const Submitted := "Email submitted successfully and trip guide unlocked!"

  // ------------------------------------------------------------ e-mail check

  /** No character is whitespace (`\s`) or '@': the class `[^\s@]`. */
  predicate Plain(s: string) {
    forall i :: 0 <= i < |s| ==> !IsSpace(s[i]) && s[i] != '@'
  }

  /** `s` matches `^[^\s@]+@[^\s@]+\.[^\s@]+$` with the '@' at `at` and the
      literal '.' at `dot`. */
  predicate MatchesAt(s: string, at: int, dot: int) {
    && 0 < at && at + 1 < dot && dot + 1 < |s|
    && s[at] == '@' && s[dot] == '.'
    && Plain(s[..at]) && Plain(s[at + 1..dot]) && Plain(s[dot + 1..])
  }

  /** The pattern's meaning: some way of splitting `s` fits it. */
  ghost predicate MatchesEmailPattern(s: string) {
    exists at, dot :: MatchesAt(s, at, dot)
  }

  /** `emailRegex.test(s)`, decided by looking at the first '@': a non-empty
      part before it, no whitespace and no second '@' after it, and a '.'
      in the domain that is neither its first nor its last character. */
  function EmailTest(s: string): (ok: bool)
    ensures ok <==> MatchesEmailPattern(s)
  {
    match IndexOf(s, '@')
    case None =>
      false
    case Some(at) =>
      EmailTestAt(s, at);
      ChecksAt(s, at)
  }

  /** The checks `EmailTest` makes around the '@' at `at`. */
  predicate ChecksAt(s: string, at: nat)
    requires at < |s|
  {
    var domain := s[at + 1..];
    at > 0 && Plain(s[..at]) && Plain(domain) && |domain| >= 3 && '.' in domain[1..|domain| - 1]
  }

  /** The pattern holds exactly when the checks at the first '@' pass. */
  lemma EmailTestAt(s: string, at: nat)
    requires at < |s| && s[at] == '@' && '@' !in s[..at]
    ensures ChecksAt(s, at) <==> MatchesEmailPattern(s)
  {
    if ChecksAt(s, at) {
      ChecksGiveMatch(s, at);
    }
    if MatchesEmailPattern(s) {
      var a, dot :| MatchesAt(s, a, dot);
      MatchGivesChecks(s, at, a, dot);
    }
  }

  lemma ChecksGiveMatch(s: string, at: nat)
    requires at < |s| && s[at] == '@' && ChecksAt(s, at)
    ensures MatchesEmailPattern(s)
  {
    var domain := s[at + 1..];
    var j :| 0 <= j < |domain[1..|domain| - 1]| && domain[1..|domain| - 1][j] == '.';
    var dot := at + 2 + j;
    assert s[at + 1..dot] == domain[..j + 1];
    assert s[dot + 1..] == domain[j + 2..];
    assert Plain(domain[..j + 1]) && Plain(domain[j + 2..]);
    assert MatchesAt(s, at, dot);
  }

  lemma MatchGivesChecks(s: string, at: nat, a: int, dot: int)
    requires at < |s| && s[at] == '@' && '@' !in s[..at]
    requires MatchesAt(s, a, dot)
    ensures ChecksAt(s, at)
  {
    assert a == at;
    var domain := s[at + 1..];
    assert domain == s[at + 1..dot] + [s[dot]] + s[dot + 1..];
    assert domain[1..|domain| - 1][dot - at - 2] == '.';
  }

  // ----------------------------------------------------------- field mapping

  /** `q.k1 || q.k2 || … || q.kn`: the first truthy property, else the last one. */
  function Pick(q: Json, keys: seq<string>): (r: Option<Json>)
    requires keys != []
    ensures Truthy(r) <==> exists i :: 0 <= i < |keys| && Truthy(Get(q, keys[i]))
    ensures forall i :: 0 <= i < |keys| && Truthy(Get(q, keys[i])) && FalsyBefore(q, keys, i) ==> r == Get(q, keys[i])
    decreases |keys|
  {
    if |keys| == 1 then Get(q, keys[0])
    else
      var rest := Pick(q, keys[1..]);
      assert forall i :: 1 <= i < |keys| ==> keys[i] == keys[1..][i - 1];
      Or(Get(q, keys[0]), rest)
  }

  /** None of the first `i` keys names a truthy property. */
  predicate FalsyBefore(q: Json, keys: seq<string>, i: int) {
    forall j :: 0 <= j < i && j < |keys| ==> !Truthy(Get(q, keys[j]))
  }

  /** `q.k1 || … || q.kn || 'Not specified'`. */
  function Chain(q: Json, keys: seq<string>): (v: Json)
    requires keys != []
    ensures Truthy(Some(v))
    ensures (forall i :: 0 <= i < |keys| ==> !Truthy(Get(q, keys[i]))) ==> v == JString(NotSpecified)
    ensures forall i :: 0 <= i < |keys| && Truthy(Get(q, keys[i])) && FalsyBefore(q, keys, i) ==> Some(v) == Get(q, keys[i])
  {
    Or(Pick(q, keys), Some(JString(NotSpecified))).value
  }

  // The fallback chains, first key first.
  const PlaceKeys: seq<string> := ["regions_interest", "destination_main", "destination"]
  const TravelerKeys: seq<string> := ["party_type", "party_type_shared", "travel_party"]
  const LevelKeys: seq<string> := ["fitness_level", "fitness_level_shared", "activity_level"]
  const BudgetKeys: seq<string> := ["budget", "budget_range"]
  const DatesKeys: seq<string> := ["travel_dates", "when_travel", "season_window_shared"]
  const ActivityKeys: seq<string> := ["activities_interest", "activities"]
  const GuidedKeys: seq<string> := ["guided_preference", "guided_prefs"]

  /** `activity_preferences`: the JSON of the chosen value, made a list
      when it is not one. */
  function ActivityPreferences(q: Json, stringify: Json -> string): (v: Json)
    ensures !Truthy(Pick(q, ActivityKeys)) ==> v == JString(NotSpecified)
    ensures Truthy(Pick(q, ActivityKeys)) ==>
              var a := Pick(q, ActivityKeys).value;
              v == JString(stringify(if a.JArray? then a else JArray([a])))
    ensures (forall w :: stringify(w) != []) ==> Truthy(Some(v))
  {
    var a := Pick(q, ActivityKeys);
    if Truthy(a) then JString(stringify(if a.value.JArray? then a.value else JArray([a.value])))
    else JString(NotSpecified)
  }

  /** `guided_preferences`: `travel_style` is used only when both guided
      keys are falsy, and only a list held by a guided key is kept as it is;
      anything else is wrapped in a one-element list. */
  function GuidedPreferences(q: Json, stringify: Json -> string): (v: Json)
    ensures !Truthy(Pick(q, GuidedKeys + ["travel_style"])) ==> v == JString(NotSpecified)
    ensures Truthy(Pick(q, GuidedKeys)) ==>
              var g := Pick(q, GuidedKeys).value;
              v == JString(stringify(if g.JArray? then g else JArray([g])))
    ensures !Truthy(Pick(q, GuidedKeys)) && Truthy(Get(q, "travel_style")) ==>
              v == JString(stringify(JArray([Get(q, "travel_style").value])))
    ensures (forall w :: stringify(w) != []) ==> Truthy(Some(v))
  {
    var keys := GuidedKeys + ["travel_style"];
    assert keys[0] == GuidedKeys[0] && keys[1] == GuidedKeys[1] && keys[2] == "travel_style";
    var g := Pick(q, keys);
    var guided := Pick(q, GuidedKeys);
    if Truthy(g) then
      JString(stringify(if guided.Some? && guided.value.JArray? then guided.value else JArray([g.value])))
    else JString(NotSpecified)
  }

  /** The nine custom fields, in the order they are written: planning_stage,
      place_of_interest, traveler_type, activity_level, activity_preferences,
      guided_preferences, travel_budget, travel_dates, full_survey_data. */
  datatype CustomFields = CustomFields(
    planningStage: Json,
    placeOfInterest: Json,
    travelerType: Json,
    activityLevel: Json,
    activityPreferences: Json,
    guidedPreferences: Json,
    travelBudget: Json,
    travelDates: Json,
    fullSurveyData: Json)

  /** Every field holds a truthy value, so none is empty. */
  predicate AllFilled(f: CustomFields) {
    && Truthy(Some(f.planningStage)) && Truthy(Some(f.placeOfInterest)) && Truthy(Some(f.travelerType))
    && Truthy(Some(f.activityLevel)) && Truthy(Some(f.activityPreferences)) && Truthy(Some(f.guidedPreferences))
    && Truthy(Some(f.travelBudget)) && Truthy(Some(f.travelDates)) && Truthy(Some(f.fullSurveyData))
  }

  /** The fields for questionnaire `q` of a guide of flow `flowType`. */
  function FieldsOf(flowType: Json, q: Json, stringify: Json -> string): (f: CustomFields)
    ensures f.planningStage == flowType && f.fullSurveyData == JString(stringify(q))
    // None is ever empty, given a truthy flow and that `JSON.stringify` never yields the empty text.
    ensures Truthy(Some(flowType)) && (forall v :: stringify(v) != []) ==> AllFilled(f)
  {
    CustomFields(flowType, Chain(q, PlaceKeys), Chain(q, TravelerKeys), Chain(q, LevelKeys),
                 ActivityPreferences(q, stringify), GuidedPreferences(q, stringify),
                 Chain(q, BudgetKeys), Chain(q, DatesKeys), JString(stringify(q)))
  }

  /** `GoHighLevelContact`; `None` is a property left `undefined`. */
  datatype Contact = Contact(email: Json, firstName: Option<Json>, lastName: Option<Json>, customFields: CustomFields)

  /** The contact built from a body that passed the checks. */
  function ContactOf(body: Json, stringify: Json -> string): (c: Contact)
    requires HasRequired(body)
    ensures Some(c.email) == Get(body, "email") && c.firstName == Get(body, "firstName") && c.lastName == Get(body, "lastName")
    ensures Some(c.customFields.planningStage) == Get(body, "flowType")
    ensures (forall v :: stringify(v) != []) ==> AllFilled(c.customFields)
  {
    Contact(Get(body, "email").value, Get(body, "firstName"), Get(body, "lastName"),
            FieldsOf(Get(body, "flowType").value, Get(body, "questionnaireSummary").value, stringify))
  }

  // ------------------------------------------------------------------ route

  /** What the CRM client answers for a contact. */
  datatype CrmResult = CrmResult(success: bool, id: Option<string>)

  /** A JSON reply of the route and its HTTP status. */
  datatype EmailResponse =
    | Saved(contactId: Option<string>, message: string)  // 200, success: true
    | EmailRefused(status: nat, error: string)           // success: false
    | NotAllowed(error: string)                          // 405

  /** The four required properties are truthy. */
  predicate HasRequired(body: Json) {
    && Truthy(Get(body, "email")) && Truthy(Get(body, "questionnaireSummary"))
    && Truthy(Get(body, "flowType")) && Truthy(Get(body, "tripGuideId"))
  }

  /** `POST`. `body` is what `request.json()` gives, `stringify` is
      `JSON.stringify`, and `crm` is what `createContact` resolves to, or
      throws, for the contact it is given. The e-mail is checked as the text
      `String(email)`. Any exception, a `null` body's included, is a 500. */
  function Post(body: Result<Json, Thrown>, stringify: Json -> string, crm: Contact -> Result<CrmResult, Thrown>)
    : (r: EmailResponse)
    ensures body.Err? || body == Ok(JNull) ==> r == EmailRefused(500, Unexpected)
    ensures body.Ok? && body.value != JNull && !HasRequired(body.value) ==> r == EmailRefused(400, MissingFields)
    ensures body.Ok? && body.value != JNull && HasRequired(body.value) && !MatchesEmailPattern(Render(Get(body.value, "email").value)) ==>
              r == EmailRefused(400, InvalidEmail)
    ensures r.Saved? <==>
              && body.Ok? && body.value != JNull && HasRequired(body.value)
              && MatchesEmailPattern(Render(Get(body.value, "email").value))
              && crm(ContactOf(body.value, stringify)).Ok? && crm(ContactOf(body.value, stringify)).value.success
    ensures r.Saved? ==> r == Saved(crm(ContactOf(body.value, stringify)).value.id, Submitted)
    ensures r.EmailRefused? && r.status == 500 ==> r.error in {SaveFailed, Unexpected}
  {
    match body
    case Err(_) => EmailRefused(500, Unexpected)
    case Ok(v) =>
      if v == JNull then EmailRefused(500, Unexpected)
      else if !HasRequired(v) then EmailRefused(400, MissingFields)
      else if !EmailTest(Render(Get(v, "email").value)) then EmailRefused(400, InvalidEmail)
      else
        match crm(ContactOf(v, stringify))
        case Err(_) => EmailRefused(500, Unexpected)
        case Ok(result) =>
          if !result.success then EmailRefused(500, SaveFailed)
          else Saved(result.id, Submitted)
  }

  /** `GET`: the method is refused. */
  function GetRequest(): (r: EmailResponse)
    ensures r == NotAllowed("Method not allowed")
  {
    NotAllowed("Method not allowed")
  }

  /** A `travel_style` list, with both guided keys falsy, is sent nested one
      level deeper than the same list under `guided_preference`. */
  lemma TravelStyleListIsNested(q: Json, stringify: Json -> string, styles: seq<Json>)
    requires !Truthy(Get(q, "guided_preference")) && !Truthy(Get(q, "guided_prefs"))
    requires Get(q, "travel_style") == Some(JArray(styles))
    ensures GuidedPreferences(q, stringify) == JString(stringify(JArray([JArray(styles)])))
  {
    assert GuidedKeys[0] == "guided_preference" && GuidedKeys[1] == "guided_prefs";
  }
}
