/** The expert directory: the mapping from record-store rows to experts and
    the process-wide single-slot cache in front of the store
    (src/lib/simpleExpertFetcher.ts). */
module ExpertDirectory {
  import opened Js

  /** `SimpleExpert`. */
  datatype Expert = Expert(
    id: string,
    name: string,
    profession: string,
    onelineBio: string,
    avatar: Option<string>,
    link: Option<string>,
    bio: string)

  /** One row of the experts table as the record store returns it: the
      record id, each requested text cell (`None` where the cell is absent),
      and the urls of the "Profile Picture 600 x 600" attachments. */
  datatype ExpertRecord = ExpertRecord(
    id: string,
    authorName: Option<string>,
    professions: Option<string>,
    onelineBio: Option<string>,
    photoUrls: Option<seq<string>>,
    profileLink: Option<string>)

  /** `(cell as string) || fallback`: an absent or empty cell gives the fallback. */
  function CellOr(cell: Option<string>, fallback: string): (r: string)
    ensures cell.Some? && cell.value != [] ==> r == cell.value
    ensures cell.None? || cell.value == [] ==> r == fallback
  {
    if cell.Some? && cell.value != [] then cell.value else fallback
  }

  /** The `records.map` callback: defaults for empty cells, the first
      photo as avatar, and the one-line bio doubling as the bio. */
  function FromRecord(rec: ExpertRecord): (e: Expert)
    ensures e.id == rec.id
    ensures e.name != [] && e.profession != []
    ensures e.bio == e.onelineBio
    ensures e.name == CellOr(rec.authorName, "Expert")
    ensures e.profession == CellOr(rec.professions, "Professional Guide")
    ensures e.onelineBio == CellOr(rec.onelineBio, "")
    ensures e.avatar.Some? <==> rec.photoUrls.Some? && |rec.photoUrls.value| > 0
    ensures e.avatar.Some? ==> e.avatar.value == rec.photoUrls.value[0]
    ensures e.link.Some? <==> rec.profileLink.Some? && rec.profileLink.value != []
  {
    var avatar := if rec.photoUrls.Some? && |rec.photoUrls.value| > 0 then Some(rec.photoUrls.value[0]) else None;
    var link := if rec.profileLink.Some? && rec.profileLink.value != [] then rec.profileLink else None;
    Expert(rec.id, CellOr(rec.authorName, "Expert"), CellOr(rec.professions, "Professional Guide"),
           CellOr(rec.onelineBio, ""), avatar, link, CellOr(rec.onelineBio, ""))
  }

  /** One expert per record, in record order. */
  function FromRecords(recs: seq<ExpertRecord>): (experts: seq<Expert>)
    ensures |experts| == |recs|
    ensures forall i :: 0 <= i < |recs| ==> experts[i] == FromRecord(recs[i])
  {
    seq(|recs|, i requires 0 <= i < |recs| => FromRecord(recs[i]))
  }

  /** What `fetchAllExperts` yields with the slot holding `cached` and the
      store answering `store`: the cached list when there is one, else the
      mapped records, else what the store threw. */
  function Fetched(cached: Option<seq<Expert>>, store: Result<seq<ExpertRecord>, Thrown>): (r: Result<seq<Expert>, Thrown>)
    ensures cached.Some? ==> r == Ok(cached.value)
    ensures cached.None? && store.Ok? ==> r == Ok(FromRecords(store.value)) && |r.value| == |store.value|
    ensures cached.None? && store.Err? ==> r == Err(store.error)
  {
    if cached.Some? then Ok(cached.value)
    else if store.Ok? then Ok(FromRecords(store.value))
    else Err(store.error)
  }

  /** The module-level `cachedExperts` slot and the three functions that use it. */
  class ExpertCache {
    /** `None` is `null`; any list, even an empty one, is a populated slot
        (an array is truthy). */
    var cached: Option<seq<Expert>>

    constructor ()
      ensures cached == None
    {
      cached := None;
    }

    /** `fetchAllExperts`. `store` is what querying the experts table would
        give: its records, or what it throws. `queried` tells whether the
        store was contacted at all. */
    method FetchAll(store: Result<seq<ExpertRecord>, Thrown>) returns (r: Result<seq<Expert>, Thrown>, queried: bool)
      modifies this
      ensures queried <==> old(cached).None?
      ensures r == Fetched(old(cached), store)
      ensures old(cached).Some? ==> r == Ok(old(cached).value) && cached == old(cached)
      ensures old(cached).None? && store.Ok? ==> r == Ok(FromRecords(store.value)) && cached == Some(r.value)
      ensures old(cached).None? && store.Err? ==> r == Err(store.error) && cached == None
    {
      if cached.Some? {
        return Ok(cached.value), false;
      }
      queried := true;
      match store {
        case Err(e) =>
          r := Err(e);
        case Ok(records) =>
          var experts := FromRecords(records);
          cached := Some(experts);
          r := Ok(experts);
      }
    }

    /** `getCachedExperts`: reads the slot and changes nothing. */
    method GetCached() returns (r: Option<seq<Expert>>)
      ensures r == cached
    {
      r := cached;
    }

    /** `clearExpertsCache`. */
    method Clear()
      modifies this
      ensures cached == None
    {
      cached := None;
    }
  }

  /** Two fetches in a row from a fresh process: the second one answers from
      the cache with the same list, whatever the store would now say. */
  method FetchTwice(first: Result<seq<ExpertRecord>, Thrown>, second: Result<seq<ExpertRecord>, Thrown>)
    returns (r1: Result<seq<Expert>, Thrown>, r2: Result<seq<Expert>, Thrown>, queriedAgain: bool)
    ensures first.Ok? ==> r1 == r2 == Ok(FromRecords(first.value)) && !queriedAgain
    ensures first.Err? ==> r1 == Err(first.error) && queriedAgain
    ensures first.Err? && second.Ok? ==> r2 == Ok(FromRecords(second.value))
  {
    var cache := new ExpertCache();
    var q1;
    r1, q1 := cache.FetchAll(first);
    r2, queriedAgain := cache.FetchAll(second);
  }
}
