/** The collection of records: lookup by id, the edit submit's in-place
    replacement, the delete filter, the list view's search filter, and the
    storage slot that holds the collection. */
module Repository {
  import opened Seqs
  import opened Text
  import opened Entities

  /** `Array.prototype.find` by id: the position of the first record with `id`. */
  function FirstWithId(all: seq<Record>, id: string): (r: Option<nat>)
    ensures r.Some? ==> r.value < |all| && all[r.value].id == id
    ensures r.Some? ==> forall j :: 0 <= j < r.value ==> all[j].id != id
    ensures r.None? <==> forall j :: 0 <= j < |all| ==> all[j].id != id
    decreases |all|
  {
    if |all| == 0 then None
    else if all[0].id == id then Some(0)
    else match FirstWithId(all[1..], id)
      case None => None
      case Some(k) => Some(k + 1)
  }

  /** `Array.prototype.findIndex` by id, as the submit handler runs it. */
  method FindIndex(all: seq<Record>, id: string) returns (idx: int)
    ensures -1 <= idx < |all|
    ensures idx >= 0 ==> all[idx].id == id && forall j :: 0 <= j < idx ==> all[j].id != id
    ensures idx == -1 ==> forall j :: 0 <= j < |all| ==> all[j].id != id
  {
    var i := 0;
    while i < |all|
      invariant 0 <= i <= |all|
      invariant forall j :: 0 <= j < i ==> all[j].id != id
    {
      if all[i].id == id {
        return i;
      }
      i := i + 1;
    }
    return -1;
  }

  /** The edit submit's update of the collection: the first record whose id
      is `id` is overwritten by `payload`, which takes over that record's
      `createdAt`; every other record stays where it was. */
  function ReplaceFirst(all: seq<Record>, id: string, payload: Record): (r: seq<Record>)
    ensures |r| == |all|
    decreases |all|
  {
    if |all| == 0 then []
    else if all[0].id == id then [payload.(createdAt := all[0].createdAt)] + all[1..]
    else [all[0]] + ReplaceFirst(all[1..], id, payload)
  }

  /** `ReplaceFirst` changes exactly the position `FirstWithId` finds, and
      nothing at all when no record has the id. */
  lemma {:induction false} ReplaceFirstAt(all: seq<Record>, id: string, payload: Record)
    ensures FirstWithId(all, id).None? ==> ReplaceFirst(all, id, payload) == all
    ensures FirstWithId(all, id).Some? ==>
      var k := FirstWithId(all, id).value;
      ReplaceFirst(all, id, payload) == all[k := payload.(createdAt := all[k].createdAt)]
    decreases |all|
  {
    if |all| > 0 && all[0].id != id {
      ReplaceFirstAt(all[1..], id, payload);
      assert [all[0]] + all[1..] == all;
    }
  }

  /** After an edit the record at the replaced position carries the edited
      values, the original `createdAt`, and the id it had before. */
  lemma ReplaceFirstKeepsIdentity(all: seq<Record>, id: string, payload: Record)
    requires payload.id == id
    ensures FirstWithId(all, id).Some? ==>
      var k := FirstWithId(all, id).value;
      var r := ReplaceFirst(all, id, payload);
      r[k].id == all[k].id && r[k].createdAt == all[k].createdAt &&
      r[k] == payload.(createdAt := all[k].createdAt) &&
      forall j :: 0 <= j < |all| && j != k ==> r[j] == all[j]
  {
    ReplaceFirstAt(all, id, payload);
  }

  /** The predicate of the delete handler's filter. */
  function OtherId(id: string): Record -> bool {
    (c: Record) => c.id != id
  }

  /** The delete handler's `filter(c => c.id !== id)`. */
  function Without(all: seq<Record>, id: string): (r: seq<Record>)
    ensures |r| <= |all|
    ensures forall c :: c in r ==> c in all && c.id != id
  {
    Filter(all, OtherId(id))
  }

  /** Delete removes every record with the id, keeps every copy of every
      other record, keeps their order, and is the identity when no record
      has the id. */
  lemma WithoutSpec(all: seq<Record>, id: string)
    ensures forall c :: c in Without(all, id) <==> c in all && c.id != id
    ensures forall c :: multiset(Without(all, id))[c] == if c.id != id then multiset(all)[c] else 0
    ensures IsSubsequence(Without(all, id), all)
    ensures (forall j :: 0 <= j < |all| ==> all[j].id != id) ==> Without(all, id) == all
    ensures Without(Without(all, id), id) == Without(all, id)
  {
    forall c ensures c in Without(all, id) <==> c in all && c.id != id {
      FilterMembership(all, OtherId(id), c);
    }
    forall c ensures multiset(Without(all, id))[c] == if c.id != id then multiset(all)[c] else 0 {
      FilterCount(all, OtherId(id), c);
    }
    FilterIsSubsequence(all, OtherId(id));
    if forall j :: 0 <= j < |all| ==> all[j].id != id {
      FilterKeepsAll(all, OtherId(id));
    }
    FilterIdempotent(all, OtherId(id));
  }

  /** The list view's match test: the lower-cased company name, email or
      phone contains the query. */
  predicate Matches(c: Record, q: string) {
    Includes(ToLower(c.companyName), q) ||
    Includes(ToLower(c.companyEmail), q) ||
    Includes(ToLower(c.companyPhone), q)
  }

  function MatchesQuery(q: string): Record -> bool {
    (c: Record) => Matches(c, q)
  }

  /** The search box's handler: lower-case the query, trim it, and filter. */
  function Search(all: seq<Record>, query: string): (r: seq<Record>)
    ensures |r| <= |all|
    ensures forall c :: c in r ==> c in all && Matches(c, Trim(ToLower(query)))
  {
    Filter(all, MatchesQuery(Trim(ToLower(query))))
  }

  /** Search keeps exactly the matching records, every copy of each, in
      their original order, and a query that is empty after trimming keeps
      them all. */
  lemma SearchSpec(all: seq<Record>, query: string)
    ensures forall c :: c in Search(all, query) <==> c in all && Matches(c, Trim(ToLower(query)))
    ensures forall c :: multiset(Search(all, query))[c] == (if Matches(c, Trim(ToLower(query))) then multiset(all)[c] else 0)
    ensures IsSubsequence(Search(all, query), all)
    ensures Trim(ToLower(query)) == "" ==> Search(all, query) == all
  {
    var q := Trim(ToLower(query));
    forall c ensures c in Search(all, query) <==> c in all && Matches(c, q) {
      FilterMembership(all, MatchesQuery(q), c);
    }
    forall c ensures multiset(Search(all, query))[c] == if Matches(c, q) then multiset(all)[c] else 0 {
      FilterCount(all, MatchesQuery(q), c);
    }
    FilterIsSubsequence(all, MatchesQuery(q));
    if q == "" {
      forall i | 0 <= i < |all| ensures MatchesQuery(q)(all[i]) {
        IncludesEmpty(ToLower(all[i].companyName));
      }
      FilterKeepsAll(all, MatchesQuery(q));
    }
  }

  /** A query longer than all three searched fields finds nothing. */
  lemma SearchTooLong(all: seq<Record>, query: string)
    requires forall i :: 0 <= i < |all| ==>
      |Trim(ToLower(query))| > |all[i].companyName| &&
      |Trim(ToLower(query))| > |all[i].companyEmail| &&
      |Trim(ToLower(query))| > |all[i].companyPhone|
    ensures Search(all, query) == []
  {
    var q := Trim(ToLower(query));
    forall i | 0 <= i < |all| ensures !MatchesQuery(q)(all[i]) {
      var c := all[i];
      if Includes(ToLower(c.companyName), q) { IncludesBound(ToLower(c.companyName), q); }
      if Includes(ToLower(c.companyEmail), q) { IncludesBound(ToLower(c.companyEmail), q); }
      if Includes(ToLower(c.companyPhone), q) { IncludesBound(ToLower(c.companyPhone), q); }
    }
    FilterEmpty(all, MatchesQuery(q));
  }

  /** The single storage slot holding the whole collection; reading it is
      reading `records`, saving it is assigning `records`. */
  class Storage {
    var records: seq<Record>

    constructor (initial: seq<Record>)
      ensures records == initial
    {
      records := initial;
    }

    /** A click on a row's delete button: when the user confirms, every
        record with the id is removed and the collection saved back;
        otherwise nothing changes. */
    method Delete(id: string, confirmed: bool)
      modifies this
      ensures records == if confirmed then Without(old(records), id) else old(records)
    {
      if confirmed {
        records := Without(records, id);
      }
    }
  }
}
