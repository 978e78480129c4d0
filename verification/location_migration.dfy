/** `POST /api/migrate-expert-locations`
    (src/app/api/migrate-expert-locations/route.ts): destination records are
    grouped by expert, then each expert record is given the locations of its
    group. Both tables are read once, as inputs; each update's outcome is an
    input too. */
module LocationMigration {
  import opened Js

  /** A record of either table: its id and its fields as an object (a field
      left empty in the table is absent). */
  datatype AirtableRecord = AirtableRecord(id: string, fields: Json)

  /** `record.get(name)`. */
  function Field(r: AirtableRecord, name: string): Option<Json> {
    Get(r.fields, name)
  }

  /** `a || b || ''`. */
  function OrEmpty(a: Option<Json>, b: Option<Json>): (v: Json)
    ensures Truthy(a) ==> v == a.value
    ensures !Truthy(a) && Truthy(b) ==> v == b.value
    ensures !Truthy(a) && !Truthy(b) ==> v == JString("")
  {
    var r := Or(a, b);
    if Truthy(r) then r.value else JString("")
  }

  function ExpertIdOf(r: AirtableRecord): Json {
    OrEmpty(Field(r, "Expert ID"), Field(r, "Expert"))
  }

  function ExpertNameOf(r: AirtableRecord): Json {
    OrEmpty(Field(r, "Expert Name"), Field(r, "Author Name"))
  }

  /** The property name a destination record is grouped under: the expert
      id when it is truthy, else the expert name, as `String` shows it; no
      name when both are falsy and the record is skipped. */
  function GroupKey(r: AirtableRecord): (k: Option<string>)
    ensures k.None? <==> !Truthy(Some(ExpertIdOf(r))) && !Truthy(Some(ExpertNameOf(r)))
    ensures Truthy(Some(ExpertIdOf(r))) ==> k == Some(Render(ExpertIdOf(r)))
    ensures !Truthy(Some(ExpertIdOf(r))) && Truthy(Some(ExpertNameOf(r))) ==> k == Some(Render(ExpertNameOf(r)))
  {
    var id := ExpertIdOf(r);
    var name := ExpertNameOf(r);
    if !Truthy(Some(id)) && !Truthy(Some(name)) then None
    else Some(Render(if Truthy(Some(id)) then id else name))
  }

  // ------------------------------------------------------------------ sets

  /** No two members are the same value for a `Set`. */
  predicate Distinct(s: seq<Json>) {
    forall i, j :: 0 <= i < j < |s| ==> !SameValueZero(s[i], s[j])
  }

  predicate AllTruthy(s: seq<Json>) {
    forall i :: 0 <= i < |s| ==> Truthy(Some(s[i]))
  }

  /** For the values a `Set` can tell apart by content, the same value is
      the equal value. */
  lemma SameValueIsEqual(a: Json, b: Json)
    requires SameValueZero(a, b)
    ensures a == b
  {
  }

  /** `if (v) set.add(v)`, a `Set` held as its members in insertion order. */
  function Add(s: seq<Json>, v: Option<Json>): (r: seq<Json>)
    ensures Truthy(v) ==> v.value in r
    ensures forall x :: x in r ==> x in s || (Truthy(v) && x == v.value)
    ensures s <= r && |r| <= |s| + 1
    ensures Distinct(s) ==> Distinct(r)
    ensures AllTruthy(s) ==> AllTruthy(r)
  {
    if !Truthy(v) then s
    else if exists i :: 0 <= i < |s| && SameValueZero(s[i], v.value) then
      var i :| 0 <= i < |s| && SameValueZero(s[i], v.value);
      SameValueIsEqual(s[i], v.value);
      s
    else s + [v.value]
  }

  /** Each value added in turn. */
  function AddAll(s: seq<Json>, vs: seq<Option<Json>>): (r: seq<Json>)
    ensures forall v :: v in r <==> v in s || (Some(v) in vs && Truthy(Some(v)))
    ensures Distinct(s) ==> Distinct(r)
    ensures AllTruthy(s) ==> AllTruthy(r)
    decreases |vs|
  {
    if vs == [] then s
    else
      var r := AddAll(Add(s, vs[0]), vs[1..]);
      assert forall v :: Some(v) in vs <==> Some(v) == vs[0] || Some(v) in vs[1..];
      r
  }

  /** A group of destinations: the first record's expert id and name, and
      the five location sets. */
  datatype Group = Group(expertId: Json, expertName: Json,
                         countries: seq<Json>, states: seq<Json>, regions: seq<Json>,
                         specificAreas: seq<Json>, cities: seq<Json>)

  datatype Slot = Countries | States | Regions | SpecificAreas | Cities

  function SetOf(g: Group, slot: Slot): seq<Json> {
    match slot
    case Countries => g.countries
    case States => g.states
    case Regions => g.regions
    case SpecificAreas => g.specificAreas
    case Cities => g.cities
  }

  /** The values one record offers to a set, in the order they are added:
      the sub-region and the specific location both go to the specific
      areas. */
  function Offered(r: AirtableRecord, slot: Slot): seq<Option<Json>> {
    match slot
    case Countries => [Field(r, "Country")]
    case States => [Field(r, "State")]
    case Regions => [Field(r, "Region")]
    case SpecificAreas => [Or(Field(r, "Subregion/Area"), Field(r, "Sub-Region")),
                           Or(Field(r, "Specific Location"), Field(r, "Specific Area / Notes"))]
    case Cities => [Or(Field(r, "City/Town"), Field(r, "City"))]
  }

  /** Every set of the group holds only truthy values, each once. */
  predicate WellFormed(g: Group) {
    forall slot :: Distinct(SetOf(g, slot)) && AllTruthy(SetOf(g, slot))
  }

  function EmptyGroup(r: AirtableRecord): (g: Group)
    ensures WellFormed(g)
    ensures forall slot :: SetOf(g, slot) == []
  {
    Group(ExpertIdOf(r), ExpertNameOf(r), [], [], [], [], [])
  }

  /** The record's values added to the group's sets. */
  function Fill(g: Group, r: AirtableRecord): (f: Group)
    ensures f.expertId == g.expertId && f.expertName == g.expertName
  {
    Group(g.expertId, g.expertName,
          AddAll(g.countries, Offered(r, Countries)),
          AddAll(g.states, Offered(r, States)),
          AddAll(g.regions, Offered(r, Regions)),
          AddAll(g.specificAreas, Offered(r, SpecificAreas)),
          AddAll(g.cities, Offered(r, Cities)))
  }

  /** Each set of the filled group is the old set with the record's
      offers added. */
  lemma FillSlot(g: Group, r: AirtableRecord, slot: Slot)
    ensures SetOf(Fill(g, r), slot) == AddAll(SetOf(g, slot), Offered(r, slot))
  {
    match slot
    case Countries =>
    case States =>
    case Regions =>
    case SpecificAreas =>
    case Cities =>
  }

  /** Adding keeps every set free of falsy values and repeats. */
  lemma FillKeepsWellFormed(g: Group, r: AirtableRecord)
    requires WellFormed(g)
    ensures WellFormed(Fill(g, r))
  {
    forall slot ensures Distinct(SetOf(Fill(g, r), slot)) && AllTruthy(SetOf(Fill(g, r), slot)) {
      FillSlot(g, r, slot);
      assert Distinct(SetOf(g, slot)) && AllTruthy(SetOf(g, slot));
    }
  }

  /** One iteration of the grouping `forEach`. */
  function AddRecord(groups: map<string, Group>, r: AirtableRecord): (next: map<string, Group>)
    ensures GroupKey(r).None? ==> next == groups
    ensures GroupKey(r).Some? ==> next.Keys == groups.Keys + {GroupKey(r).value}
    ensures forall k :: k in groups && GroupKey(r) != Some(k) ==> next[k] == groups[k]
  {
    match GroupKey(r)
    case None => groups
    case Some(k) =>
      var g := if k in groups then groups[k] else EmptyGroup(r);
      groups[k := Fill(g, r)]
  }

  /** The groups after the first records. */
  function GroupAll(records: seq<AirtableRecord>): map<string, Group>
    decreases |records|
  {
    if records == [] then map[]
    else AddRecord(GroupAll(records[..|records| - 1]), records[|records| - 1])
  }

  /** The grouping loop, filling the dictionary in place. */
  method GroupDestinations(records: seq<AirtableRecord>) returns (groups: map<string, Group>)
    ensures groups == GroupAll(records)
  {
    groups := map[];
    for n := 0 to |records|
      invariant groups == GroupAll(records[..n])
    {
      assert records[..n + 1][..n] == records[..n];
      assert GroupAll(records[..n + 1]) == AddRecord(groups, records[n]);
      var record := records[n];
      var expertId := ExpertIdOf(record);
      var expertName := ExpertNameOf(record);
      if !Truthy(Some(expertId)) && !Truthy(Some(expertName)) {
        continue;
      }
      var key := Render(if Truthy(Some(expertId)) then expertId else expertName);
      assert GroupKey(record) == Some(key);
      var group := if key in groups then groups[key] else Group(expertId, expertName, [], [], [], [], []);
      assert group == if key in groups then groups[key] else EmptyGroup(record);
      groups := groups[key := Fill(group, record)];
    }
    assert records[..|records|] == records;
  }

  /** Some record among `records` has the key `k`. */
  predicate KeyedBy(records: seq<AirtableRecord>, k: string)
    decreases |records|
  {
    records != [] && (KeyedBy(records[..|records| - 1], k) || GroupKey(records[|records| - 1]) == Some(k))
  }

  /** The groups are exactly the keys of the records not skipped. */
  lemma {:induction false} GroupKeys(records: seq<AirtableRecord>, k: string)
    ensures k in GroupAll(records) <==> KeyedBy(records, k)
    decreases |records|
  {
    if records != [] {
      GroupKeys(records[..|records| - 1], k);
    }
  }

  /** No set of any group holds a falsy value or a value twice. */
  lemma {:induction false} GroupsWellFormed(records: seq<AirtableRecord>)
    ensures forall k :: k in GroupAll(records) ==> WellFormed(GroupAll(records)[k])
    decreases |records|
  {
    if records != [] {
      var init := records[..|records| - 1];
      var r := records[|records| - 1];
      GroupsWellFormed(init);
      match GroupKey(r)
      case None =>
      case Some(k) =>
        var g := if k in GroupAll(init) then GroupAll(init)[k] else EmptyGroup(r);
        FillKeepsWellFormed(g, r);
    }
  }

  /** Record `r` belongs to group `k` and offers the truthy `v` to its set `slot`. */
  predicate Offers(r: AirtableRecord, k: string, slot: Slot, v: Json) {
    GroupKey(r) == Some(k) && Some(v) in Offered(r, slot) && Truthy(Some(v))
  }

  /** Some record among `records` offers `v` to the set `slot` of group `k`. */
  predicate OfferedBy(records: seq<AirtableRecord>, k: string, slot: Slot, v: Json)
    decreases |records|
  {
    records != [] && (OfferedBy(records[..|records| - 1], k, slot, v) || Offers(records[|records| - 1], k, slot, v))
  }

  /** A record that offers to group `k` has the key `k`. */
  lemma {:induction false} OfferedIsKeyed(records: seq<AirtableRecord>, k: string, slot: Slot, v: Json)
    requires OfferedBy(records, k, slot, v)
    ensures KeyedBy(records, k)
    decreases |records|
  {
    if OfferedBy(records[..|records| - 1], k, slot, v) {
      OfferedIsKeyed(records[..|records| - 1], k, slot, v);
    }
  }

  /** A group no record belongs to is offered nothing. */
  lemma NotGroupedNotOffered(records: seq<AirtableRecord>, k: string, slot: Slot, v: Json)
    requires k !in GroupAll(records)
    ensures !OfferedBy(records, k, slot, v)
  {
    GroupKeys(records, k);
    if OfferedBy(records, k, slot, v) {
      OfferedIsKeyed(records, k, slot, v);
    }
  }

  /** Each set of a group holds exactly the truthy values its records offer
      to it. */
  lemma {:induction false} GroupsCollectOffers(records: seq<AirtableRecord>, k: string, slot: Slot, v: Json)
    requires k in GroupAll(records)
    ensures v in SetOf(GroupAll(records)[k], slot) <==> OfferedBy(records, k, slot, v)
    decreases |records|
  {
    assert records != [];
    var init := records[..|records| - 1];
    var r := records[|records| - 1];
    if GroupKey(r) == Some(k) {
      var g := if k in GroupAll(init) then GroupAll(init)[k] else EmptyGroup(r);
      FillSlot(g, r, slot);
      if k in GroupAll(init) {
        GroupsCollectOffers(init, k, slot, v);
      } else {
        NotGroupedNotOffered(init, k, slot, v);
      }
    } else {
      GroupsCollectOffers(init, k, slot, v);
    }
  }

  // --------------------------------------------------------------- updates

  /** The fields of an update, in the order they are set. */
  type Payload = seq<(string, seq<Json>)>

  /** A field set only when its set is not empty. */
  function Entry(name: string, values: seq<Json>): (p: Payload)
    ensures values == [] ==> p == []
    ensures values != [] ==> p == [(name, values)]
  {
    if values == [] then [] else [(name, values)]
  }

  /** Where a field comes in an update: Country, State, Region, Specific
      area, then City / Town. */
  function FieldRank(name: string): (r: nat)
    ensures r < 5
  {
    if name == "Country" then 0
    else if name == "State" then 1
    else if name == "Region" then 2
    else if name == "Specific area" then 3
    else 4
  }

  /** The five fields an update can set, each with its set. */
  function Fields(g: Group): Payload {
    [("Country", g.countries), ("State", g.states), ("Region", g.regions),
     ("Specific area", g.specificAreas), ("City / Town", g.cities)]
  }

  /** Each field of `fields` sits at its own rank. */
  predicate RankedByPosition(fields: Payload) {
    forall m :: 0 <= m < |fields| ==> FieldRank(fields[m].0) == m
  }

  lemma FieldsRanked(g: Group)
    ensures RankedByPosition(Fields(g)) && |Fields(g)| == 5
  {
    var fs := Fields(g);
    assert FieldRank(fs[0].0) == 0 && FieldRank(fs[1].0) == 1 && FieldRank(fs[2].0) == 2 &&
           FieldRank(fs[3].0) == 3 && FieldRank(fs[4].0) == 4;
  }

  /** The entries of `fields` from the `k`-th on whose set is not empty, in
      order: the route's `if (set.size > 0)` tests from that field on. */
  function NonEmptyFrom(fields: Payload, k: nat): (p: Payload)
    requires k <= |fields| && RankedByPosition(fields)
    ensures forall i :: 0 <= i < |p| ==>
              && p[i].1 != [] && k <= FieldRank(p[i].0) < |fields|
              && p[i] == fields[FieldRank(p[i].0)]
    ensures forall i, j :: 0 <= i < j < |p| ==> FieldRank(p[i].0) < FieldRank(p[j].0)
    decreases |fields| - k
  {
    if k == |fields| then []
    else
      var rest := NonEmptyFrom(fields, k + 1);
      var head := Entry(fields[k].0, fields[k].1);
      assert forall i :: 0 <= i < |rest| ==> (head + rest)[|head| + i] == rest[i];
      assert head != [] ==> (head + rest)[0] == fields[k];
      head + rest
  }

  /** Every field from the `k`-th on with a non-empty set is kept. */
  lemma {:induction false} NonEmptyFromKeeps(fields: Payload, k: nat, m: nat)
    requires k <= m < |fields| && RankedByPosition(fields) && fields[m].1 != []
    ensures fields[m] in NonEmptyFrom(fields, k)
    decreases m - k
  {
    var head := Entry(fields[k].0, fields[k].1);
    assert NonEmptyFrom(fields, k) == head + NonEmptyFrom(fields, k + 1);
    if m == k {
      assert NonEmptyFrom(fields, k)[0] == fields[k];
    } else {
      NonEmptyFromKeeps(fields, k + 1, m);
    }
  }

  /** Each of the five fields is set exactly when its set is not empty. */
  lemma FieldsKept(g: Group)
    ensures RankedByPosition(Fields(g))
    ensures forall m :: 0 <= m < 5 ==> (Fields(g)[m] in NonEmptyFrom(Fields(g), 0) <==> Fields(g)[m].1 != [])
  {
    FieldsRanked(g);
    var p := NonEmptyFrom(Fields(g), 0);
    forall m | 0 <= m < 5 ensures Fields(g)[m] in p <==> Fields(g)[m].1 != [] {
      if Fields(g)[m].1 != [] {
        NonEmptyFromKeeps(Fields(g), 0, m);
      }
      if Fields(g)[m] in p {
        var i :| 0 <= i < |p| && p[i] == Fields(g)[m];
      }
    }
  }

  /** The update for a group: one field per non-empty set, and nothing else,
      in the order the route sets them. */
  function PayloadOf(g: Group): (p: Payload)
    ensures forall i :: 0 <= i < |p| ==> p[i].1 != [] && p[i] == Fields(g)[FieldRank(p[i].0)]
    ensures forall i, j :: 0 <= i < j < |p| ==> FieldRank(p[i].0) < FieldRank(p[j].0)
    ensures ("Country", g.countries) in p <==> g.countries != []
    ensures ("State", g.states) in p <==> g.states != []
    ensures ("Region", g.regions) in p <==> g.regions != []
    ensures ("Specific area", g.specificAreas) in p <==> g.specificAreas != []
    ensures ("City / Town", g.cities) in p <==> g.cities != []
  {
    FieldsKept(g);
    var fs := Fields(g);
    assert fs[0] == ("Country", g.countries) && fs[1] == ("State", g.states) && fs[2] == ("Region", g.regions) &&
           fs[3] == ("Specific area", g.specificAreas) && fs[4] == ("City / Town", g.cities);
    NonEmptyFrom(fs, 0)
  }

  /** An update sets nothing exactly when all five sets are empty. */
  lemma PayloadEmpty(g: Group)
    ensures PayloadOf(g) == [] <==> forall slot :: SetOf(g, slot) == []
  {
    var p := PayloadOf(g);
    var fs := Fields(g);
    if p != [] {
      var r := FieldRank(p[0].0);
      assert p[0] == fs[r] && fs[r].1 != [];
      var slot := if r == 0 then Countries else if r == 1 then States else if r == 2 then Regions
                  else if r == 3 then SpecificAreas else Cities;
      assert SetOf(g, slot) != [];
    } else {
      forall slot ensures SetOf(g, slot) == [] {
        match slot
        case Countries => assert ("Country", g.countries) !in p;
        case States => assert ("State", g.states) !in p;
        case Regions => assert ("Region", g.regions) !in p;
        case SpecificAreas => assert ("Specific area", g.specificAreas) !in p;
        case Cities => assert ("City / Town", g.cities) !in p;
      }
    }
  }

  /** The group for an expert record: by its record id, and by its
      'Author Name' only when the id finds none and the name is truthy. */
  function LocationFor(groups: map<string, Group>, expert: AirtableRecord): (g: Option<Group>)
    ensures expert.id in groups ==> g == Some(groups[expert.id])
    ensures expert.id !in groups ==>
              var name := Field(expert, "Author Name");
              g == if Truthy(name) && Render(name.value) in groups then Some(groups[Render(name.value)]) else None
  {
    if expert.id in groups then Some(groups[expert.id])
    else
      var name := Field(expert, "Author Name");
      if Truthy(name) && Render(name.value) in groups then Some(groups[Render(name.value)]) else None
  }

  const NoDestinationData := "No destination data found"
  const NoLocationData := "No location data to migrate"
  const UnknownError := "Unknown error"

  datatype Status = Updated(data: Payload) | Skipped(reason: string) | Failed(error: string)

  /** One entry of `results`. */
  datatype UpdateResult = UpdateResult(expertName: Option<Json>, expertId: string, status: Status)

  /** What happens to one expert. `update` is what the store's update of
      the record with this payload throws, if anything; it is asked only for
      a non-empty payload. */
  function ExpertOutcome(groups: map<string, Group>, expert: AirtableRecord,
                         update: (string, Payload) -> Option<Thrown>): (r: UpdateResult)
    ensures r.expertId == expert.id && r.expertName == Field(expert, "Author Name")
    ensures LocationFor(groups, expert).None? ==> r.status == Skipped(NoDestinationData)
    ensures LocationFor(groups, expert).Some? ==>
              var p := PayloadOf(LocationFor(groups, expert).value);
              && (p == [] ==> r.status == Skipped(NoLocationData))
              && (p != [] && update(expert.id, p).None? ==> r.status == Updated(p))
              && (p != [] && update(expert.id, p).Some? ==>
                    r.status == Failed(MessageOr(update(expert.id, p).value, UnknownError)))
    ensures r.status.Updated? ==> r.status.data != []
  {
    var name := Field(expert, "Author Name");
    match LocationFor(groups, expert)
    case None => UpdateResult(name, expert.id, Skipped(NoDestinationData))
    case Some(g) =>
      var p := PayloadOf(g);
      if p == [] then UpdateResult(name, expert.id, Skipped(NoLocationData))
      else
        match update(expert.id, p)
        case None => UpdateResult(name, expert.id, Updated(p))
        case Some(t) => UpdateResult(name, expert.id, Failed(MessageOr(t, UnknownError)))
  }

  /** The update the store is asked for on behalf of one expert, if any. */
  function UpdateCall(groups: map<string, Group>, expert: AirtableRecord): (c: Option<(string, Payload)>)
    ensures c.Some? ==> c.value.0 == expert.id && c.value.1 != []
    ensures c.Some? ==> LocationFor(groups, expert).Some? && c.value.1 == PayloadOf(LocationFor(groups, expert).value)
    ensures c.None? <==> LocationFor(groups, expert).None? || PayloadOf(LocationFor(groups, expert).value) == []
  {
    match LocationFor(groups, expert)
    case None => None
    case Some(g) => if PayloadOf(g) == [] then None else Some((expert.id, PayloadOf(g)))
  }

  /** The updates asked for, in expert order. */
  function UpdateCalls(groups: map<string, Group>, experts: seq<AirtableRecord>): (calls: seq<(string, Payload)>)
    ensures |calls| <= |experts|
    ensures forall i :: 0 <= i < |calls| ==> calls[i].1 != []
  {
    if experts == [] then []
    else
      var init := UpdateCalls(groups, experts[..|experts| - 1]);
      match UpdateCall(groups, experts[|experts| - 1])
      case None => init
      case Some(c) => init + [c]
  }

  function CountUpdated(results: seq<UpdateResult>): nat {
    if results == [] then 0 else CountUpdated(results[..|results| - 1]) + (if results[|results| - 1].status.Updated? then 1 else 0)
  }

  function CountSkipped(results: seq<UpdateResult>): nat {
    if results == [] then 0 else CountSkipped(results[..|results| - 1]) + (if results[|results| - 1].status.Skipped? then 1 else 0)
  }

  function CountFailed(results: seq<UpdateResult>): nat {
    if results == [] then 0 else CountFailed(results[..|results| - 1]) + (if results[|results| - 1].status.Failed? then 1 else 0)
  }

  /** Every result is counted once: updated, skipped (for either reason) or
      failed. */
  lemma {:induction false} CountsAddUp(results: seq<UpdateResult>)
    ensures CountUpdated(results) + CountSkipped(results) + CountFailed(results) == |results|
    decreases |results|
  {
    if results != [] {
      CountsAddUp(results[..|results| - 1]);
    }
  }

  /** One pass of the update loop: the expert's group, its payload, and
      the store call when there is something to write. */
  method UpdateOne(groups: map<string, Group>, expert: AirtableRecord, update: (string, Payload) -> Option<Thrown>)
    returns (entry: UpdateResult, call: Option<(string, Payload)>)
    ensures entry == ExpertOutcome(groups, expert, update)
    ensures call == UpdateCall(groups, expert)
  {
    var expertName := Field(expert, "Author Name");
    var locationData := LocationFor(groups, expert);
    if locationData.None? {
      return UpdateResult(expertName, expert.id, Skipped(NoDestinationData)), None;
    }
    var updateData := PayloadOf(locationData.value);
    if updateData != [] {
      call := Some((expert.id, updateData));
      match update(expert.id, updateData) {
        case None =>
          entry := UpdateResult(expertName, expert.id, Updated(updateData));
        case Some(error) =>
          entry := UpdateResult(expertName, expert.id, Failed(MessageOr(error, UnknownError)));
      }
    } else {
      call := None;
      entry := UpdateResult(expertName, expert.id, Skipped(NoLocationData));
    }
  }

  /** The results of the update loop, in expert order. */
  function Outcomes(groups: map<string, Group>, experts: seq<AirtableRecord>,
                    update: (string, Payload) -> Option<Thrown>): (results: seq<UpdateResult>)
    ensures |results| == |experts|
  {
    if experts == [] then []
    else Outcomes(groups, experts[..|experts| - 1], update) + [ExpertOutcome(groups, experts[|experts| - 1], update)]
  }

  /** Result `i` is the outcome for expert `i`: one result per expert, in
      order, none depending on another. */
  lemma {:induction false} OutcomesAt(groups: map<string, Group>, experts: seq<AirtableRecord>,
                                      update: (string, Payload) -> Option<Thrown>)
    ensures forall i :: 0 <= i < |experts| ==> Outcomes(groups, experts, update)[i] == ExpertOutcome(groups, experts[i], update)
    decreases |experts|
  {
    if experts != [] {
      var init := experts[..|experts| - 1];
      OutcomesAt(groups, init, update);
      forall i | 0 <= i < |init| ensures Outcomes(groups, experts, update)[i] == ExpertOutcome(groups, experts[i], update) {
        assert init[i] == experts[i];
      }
    }
  }

  /** The update loop over the expert records. */
  method UpdateExperts(groups: map<string, Group>, experts: seq<AirtableRecord>,
                       update: (string, Payload) -> Option<Thrown>)
    returns (results: seq<UpdateResult>, updatedCount: nat, skippedCount: nat, calls: seq<(string, Payload)>)
    ensures results == Outcomes(groups, experts, update)
    ensures updatedCount == CountUpdated(results) && skippedCount == CountSkipped(results)
    ensures calls == UpdateCalls(groups, experts)
  {
    results := [];
    updatedCount := 0;
    skippedCount := 0;
    calls := [];
    for n := 0 to |experts|
      invariant results == Outcomes(groups, experts[..n], update)
      invariant updatedCount == CountUpdated(results) && skippedCount == CountSkipped(results)
      invariant calls == UpdateCalls(groups, experts[..n])
    {
      var entry, call := UpdateOne(groups, experts[n], update);
      PrefixStep(groups, experts, n, update);
      CountStep(results, entry);
      updatedCount := updatedCount + if entry.status.Updated? then 1 else 0;
      skippedCount := skippedCount + if entry.status.Skipped? then 1 else 0;
      calls := calls + match call case None => [] case Some(c) => [c];
      results := results + [entry];
    }
    assert experts[..|experts|] == experts;
  }

  /** The results and the calls after one more expert. */
  lemma PrefixStep(groups: map<string, Group>, experts: seq<AirtableRecord>, n: nat,
                   update: (string, Payload) -> Option<Thrown>)
    requires n < |experts|
    ensures Outcomes(groups, experts[..n + 1], update) ==
              Outcomes(groups, experts[..n], update) + [ExpertOutcome(groups, experts[n], update)]
    ensures UpdateCalls(groups, experts[..n + 1]) ==
              UpdateCalls(groups, experts[..n]) +
              (match UpdateCall(groups, experts[n]) case None => [] case Some(c) => [c])
  {
    assert experts[..n + 1][..n] == experts[..n];
  }

  /** The counts after one more result. */
  lemma CountStep(results: seq<UpdateResult>, entry: UpdateResult)
    ensures CountUpdated(results + [entry]) == CountUpdated(results) + (if entry.status.Updated? then 1 else 0)
    ensures CountSkipped(results + [entry]) == CountSkipped(results) + (if entry.status.Skipped? then 1 else 0)
  {
    assert (results + [entry])[..|results|] == results;
  }

  /** An expert is asked to be updated exactly when its outcome is updated
      or failed. */
  lemma CallMeansAttempt(groups: map<string, Group>, expert: AirtableRecord,
                         update: (string, Payload) -> Option<Thrown>)
    ensures UpdateCall(groups, expert).Some? <==>
              ExpertOutcome(groups, expert, update).status.Updated? || ExpertOutcome(groups, expert, update).status.Failed?
  {
  }

  /** The store is asked for one update per expert whose outcome is updated
      or failed, and for no other. */
  lemma {:induction false} UpdateCallsCounted(groups: map<string, Group>, experts: seq<AirtableRecord>,
                                              update: (string, Payload) -> Option<Thrown>)
    ensures var rs := Outcomes(groups, experts, update);
            |UpdateCalls(groups, experts)| == CountUpdated(rs) + CountFailed(rs)
    decreases |experts|
  {
    if experts != [] {
      var init := experts[..|experts| - 1];
      var last := experts[|experts| - 1];
      UpdateCallsCounted(groups, init, update);
      CallMeansAttempt(groups, last, update);
      var rs := Outcomes(groups, experts, update);
      assert rs[..|rs| - 1] == Outcomes(groups, init, update);
      assert rs[|rs| - 1] == ExpertOutcome(groups, last, update);
    }
  }

  /** The calls after one more expert: that expert's call, if any, comes
      last. */
  lemma UpdateCallsStep(groups: map<string, Group>, experts: seq<AirtableRecord>)
    requires experts != []
    ensures var u := UpdateCall(groups, experts[|experts| - 1]);
            var before := UpdateCalls(groups, experts[..|experts| - 1]);
            UpdateCalls(groups, experts) == if u.Some? then before + [u.value] else before
  {
  }

  /** Every call was asked for on behalf of some expert. */
  lemma {:induction false} CallFromExpert(groups: map<string, Group>, experts: seq<AirtableRecord>,
                                          c: (string, Payload))
    requires c in UpdateCalls(groups, experts)
    ensures exists i :: 0 <= i < |experts| && UpdateCall(groups, experts[i]) == Some(c)
    decreases |experts|
  {
    var n := |experts| - 1;
    var init := experts[..n];
    UpdateCallsStep(groups, experts);
    if c in UpdateCalls(groups, init) {
      CallFromExpert(groups, init, c);
      var i :| 0 <= i < |init| && UpdateCall(groups, init[i]) == Some(c);
      assert experts[i] == init[i];
    } else {
      assert UpdateCall(groups, experts[n]) == Some(c);
    }
  }

  /** The last expert's call, if it has one, is the last call. */
  lemma LastCallListed(groups: map<string, Group>, experts: seq<AirtableRecord>)
    requires experts != [] && UpdateCall(groups, experts[|experts| - 1]).Some?
    ensures UpdateCall(groups, experts[|experts| - 1]).value in UpdateCalls(groups, experts)
  {
  }

  /** One more expert keeps the calls made before it. */
  lemma EarlierCallKept(groups: map<string, Group>, experts: seq<AirtableRecord>, c: (string, Payload))
    requires experts != [] && c in UpdateCalls(groups, experts[..|experts| - 1])
    ensures c in UpdateCalls(groups, experts)
  {
    UpdateCallsStep(groups, experts);
  }

  /** Every expert's call, if it has one, is among the calls. */
  lemma {:induction false} ExpertCallListed(groups: map<string, Group>, experts: seq<AirtableRecord>, i: nat)
    requires i < |experts| && UpdateCall(groups, experts[i]).Some?
    ensures UpdateCall(groups, experts[i]).value in UpdateCalls(groups, experts)
    decreases |experts|
  {
    var n := |experts| - 1;
    if i < n {
      var init := experts[..n];
      assert init[i] == experts[i];
      ExpertCallListed(groups, init, i);
      EarlierCallKept(groups, experts, UpdateCall(groups, experts[i]).value);
    } else {
      assert i == n;
      LastCallListed(groups, experts);
    }
  }

  /** The calls are the updates the experts' groups ask for, and nothing
      else. */
  lemma UpdateCallsExact(groups: map<string, Group>, experts: seq<AirtableRecord>, c: (string, Payload))
    ensures c in UpdateCalls(groups, experts) <==>
              exists i :: 0 <= i < |experts| && UpdateCall(groups, experts[i]) == Some(c)
  {
    if c in UpdateCalls(groups, experts) {
      CallFromExpert(groups, experts, c);
    }
    if exists i :: 0 <= i < |experts| && UpdateCall(groups, experts[i]) == Some(c) {
      var i :| 0 <= i < |experts| && UpdateCall(groups, experts[i]) == Some(c);
      ExpertCallListed(groups, experts, i);
    }
  }

  /** The route's counts. */
  datatype Summary = Summary(totalDestinations: nat, expertLocationSets: nat, totalExperts: nat,
                             updated: nat, skipped: nat)

  datatype MigrationResponse =
    | Migrated(timestamp: string, summary: Summary, results: seq<UpdateResult>)  // success: true
    | MigrationFailed(error: string)                                            // 500

  /** `POST`. `destinations` and `experts` are what the two table reads
      gave, `timestamp` the time of the answer. A failed read is a 500 with
      its message; otherwise every expert has exactly one result. */
  method Post(destinations: Result<seq<AirtableRecord>, Thrown>, experts: Result<seq<AirtableRecord>, Thrown>,
              update: (string, Payload) -> Option<Thrown>, timestamp: string)
    returns (r: MigrationResponse, calls: seq<(string, Payload)>)
    ensures destinations.Err? ==> r == MigrationFailed(MessageOr(destinations.error, UnknownError)) && calls == []
    ensures destinations.Ok? && experts.Err? ==> r == MigrationFailed(MessageOr(experts.error, UnknownError)) && calls == []
    ensures destinations.Ok? && experts.Ok? ==>
              var groups := GroupAll(destinations.value);
              && r.Migrated? && r.timestamp == timestamp
              && |r.results| == |experts.value|
              && (forall i :: 0 <= i < |experts.value| ==> r.results[i] == ExpertOutcome(groups, experts.value[i], update))
              && r.summary == Summary(|destinations.value|, |groups|, |experts.value|,
                                      CountUpdated(r.results), CountSkipped(r.results))
              && r.summary.updated + r.summary.skipped + CountFailed(r.results) == r.summary.totalExperts
              && calls == UpdateCalls(groups, experts.value)
  {
    calls := [];
    if destinations.Err? {
      return MigrationFailed(MessageOr(destinations.error, UnknownError)), calls;
    }
    var groups := GroupDestinations(destinations.value);
    if experts.Err? {
      return MigrationFailed(MessageOr(experts.error, UnknownError)), calls;
    }
    var results, updatedCount, skippedCount;
    results, updatedCount, skippedCount, calls := UpdateExperts(groups, experts.value, update);
    CountsAddUp(results);
    OutcomesAt(groups, experts.value, update);
    r := Migrated(timestamp, Summary(|destinations.value|, |groups|, |experts.value|, updatedCount, skippedCount), results);
  }
}
