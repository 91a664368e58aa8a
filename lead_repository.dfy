/**
 * `LeadRepository`: the `leads` table as a map from id to row, with the four
 * operations the service uses. `commit` says what the database does with the
 * commit and the refresh after it, apart from the primary-key constraint, which
 * the model checks itself: a refused commit is rolled back (the table left as it
 * was) and re-raised; a refresh that fails after the commit is re-raised with the
 * change already stored.
 */
module LeadStore {
  import opened Wrappers
  import opened Uuids
  import opened LeadModel
  import opened Effects
  import opened Database

  type Table = map<Uuid, Lead>

  /** Every row is stored under its own id. */
  ghost predicate WellKeyed(t: Table) {
    forall id | id in t :: t[id].id == id
  }

  /** The optional `state` filter of `get_all`: no filter matches every lead. */
  predicate Matches(l: Lead, state: Option<LeadState>) {
    state.None? || l.state == state.value
  }

  /** The ids of the rows the filtered query selects. */
  function MatchingIds(t: Table, state: Option<LeadState>): (ids: set<Uuid>)
    ensures forall id :: id in ids <==> id in t && Matches(t[id], state)
  {
    set id | id in t && Matches(t[id], state)
  }

  /** The table after one row's `state` and `updated_at` are overwritten. */
  function WithState(t: Table, id: Uuid, state: LeadState, now: Time): (t': Table)
    requires id in t
    ensures t'.Keys == t.Keys
    ensures t'[id].state == state && t'[id].updatedAt == now
    ensures forall other | other in t && other != id :: t'[other] == t[other]
  {
    t[id := t[id].(state := state, updatedAt := now)]
  }

  /** The ids of a sequence of rows. */
  function IdsOf(s: seq<Lead>): (ids: set<Uuid>)
  {
    if s == [] then {} else IdsOf(s[..|s| - 1]) + {s[|s| - 1].id}
  }

  ghost predicate DistinctIds(s: seq<Lead>) {
    forall i, j | 0 <= i < j < |s| :: s[i].id != s[j].id
  }

  /** `ORDER BY created_at DESC`. */
  ghost predicate NewestFirst(s: seq<Lead>) {
    forall i, j | 0 <= i < j < |s| :: s[i].createdAt >= s[j].createdAt
  }

  /**
   * `s` lists the rows the filter selects, each once, newest first
   * (rows with equal creation times in any order).
   */
  ghost predicate IsListing(t: Table, state: Option<LeadState>, s: seq<Lead>) {
    && (forall i | 0 <= i < |s| :: s[i].id in t && t[s[i].id] == s[i])
    && DistinctIds(s)
    && IdsOf(s) == MatchingIds(t, state)
    && NewestFirst(s)
  }

  function Min(a: nat, b: nat): nat {
    if a <= b then a else b
  }

  /** `OFFSET skip LIMIT limit`. */
  function Window(s: seq<Lead>, skip: nat, limit: nat): (w: seq<Lead>)
    ensures |w| == Min(limit, if skip <= |s| then |s| - skip else 0)
    ensures forall k | 0 <= k < |w| :: w[k] == s[skip + k]
  {
    if skip >= |s| then []
    else if limit >= |s| - skip then s[skip..]
    else s[skip..skip + limit]
  }

  lemma {:induction false} InIdsOf(s: seq<Lead>, id: Uuid)
    ensures id in IdsOf(s) <==> exists i :: 0 <= i < |s| && s[i].id == id
  {
    if s != [] {
      var p := s[..|s| - 1];
      InIdsOf(p, id);
      if id in IdsOf(p) {
        var i :| 0 <= i < |p| && p[i].id == id;
        assert s[i].id == id;
      }
      if i :| 0 <= i < |s| && s[i].id == id {
        if i < |p| {
          assert p[i].id == id;
        }
      }
    }
  }

  /** Distinct ids: the set of ids is as large as the sequence. */
  lemma {:induction false} DistinctIdsCount(s: seq<Lead>)
    requires DistinctIds(s)
    ensures |IdsOf(s)| == |s|
  {
    if s != [] {
      var p := s[..|s| - 1];
      assert DistinctIds(p);
      DistinctIdsCount(p);
      InIdsOf(p, s[|s| - 1].id);
    }
  }

  /** A listing has exactly as many rows as the filter selects. */
  lemma ListingCount(t: Table, state: Option<LeadState>, s: seq<Lead>)
    requires IsListing(t, state, s)
    ensures |s| == |MatchingIds(t, state)|
  {
    DistinctIdsCount(s);
  }

  /** Every row of a listing passes the filter. */
  lemma ListingMatches(t: Table, state: Option<LeadState>, s: seq<Lead>)
    requires IsListing(t, state, s)
    ensures forall i | 0 <= i < |s| :: Matches(s[i], state)
  {
    forall i | 0 <= i < |s|
      ensures Matches(s[i], state)
    {
      InIdsOf(s, s[i].id);
    }
  }

  /** A finite non-empty set of rows has a newest one. */
  lemma {:induction false} NewestExists(t: Table, ids: set<Uuid>)
    requires ids != {} && ids <= t.Keys
    ensures exists id :: id in ids && forall j | j in ids :: t[j].createdAt <= t[id].createdAt
  {
    var x :| x in ids;
    if ids != {x} {
      NewestExists(t, ids - {x});
      var y :| y in ids - {x} && forall j | j in ids - {x} :: t[j].createdAt <= t[y].createdAt;
      if t[x].createdAt <= t[y].createdAt {
        assert forall j | j in ids :: t[j].createdAt <= t[y].createdAt;
      } else {
        assert forall j | j in ids :: t[j].createdAt <= t[x].createdAt;
      }
    } else {
      assert forall j | j in ids :: j == x;
    }
  }

  /** A prefix of a listing: the rows taken so far, and the ids not yet taken, all no newer. */
  ghost predicate PartialListing(t: Table, state: Option<LeadState>, s: seq<Lead>, remaining: set<Uuid>) {
    && remaining <= MatchingIds(t, state)
    && (forall i | 0 <= i < |s| :: s[i].id in t && t[s[i].id] == s[i])
    && DistinctIds(s)
    && IdsOf(s) == MatchingIds(t, state) - remaining
    && NewestFirst(s)
    && (forall i, id | 0 <= i < |s| && id in remaining :: t[id].createdAt <= s[i].createdAt)
  }

  /** Taking a newest remaining row extends the prefix. */
  lemma ExtendListing(t: Table, state: Option<LeadState>, s: seq<Lead>, remaining: set<Uuid>, id: Uuid)
    requires WellKeyed(t) && PartialListing(t, state, s, remaining)
    requires id in remaining && forall j | j in remaining :: t[j].createdAt <= t[id].createdAt
    ensures PartialListing(t, state, s + [t[id]], remaining - {id})
  {
    var s', rest := s + [t[id]], remaining - {id};
    InIdsOf(s, id);
    assert IdsOf(s') == IdsOf(s) + {id} by {
      assert s'[..|s'| - 1] == s;
      assert s'[|s'| - 1].id == id;
    }
    assert IdsOf(s') == MatchingIds(t, state) - rest;
    assert forall i | 0 <= i < |s| :: s'[i] == s[i];
    assert forall i | 0 <= i < |s'| :: s'[i].id in t && t[s'[i].id] == s'[i];
    assert DistinctIds(s') by {
      forall i, j | 0 <= i < j < |s'|
        ensures s'[i].id != s'[j].id
      {
        if j == |s| {
          assert s'[i].id in IdsOf(s) by { InIdsOf(s, s'[i].id); }
        }
      }
    }
    assert NewestFirst(s') by {
      forall i, j | 0 <= i < j < |s'|
        ensures s'[i].createdAt >= s'[j].createdAt
      {
        if j == |s| {
          assert s'[i] == s[i];
        }
      }
    }
    assert forall i, k | 0 <= i < |s'| && k in rest :: t[k].createdAt <= s'[i].createdAt;
  }

  class LeadRepository {
    var table: Table
    const log: EffectLog

    ghost predicate Valid()
      reads this
    {
      WellKeyed(table)
    }

    constructor (log: EffectLog)
      ensures Valid() && table == map[] && this.log == log
    {
      table := map[];
      this.log := log;
    }

    /**
     * `create`: inserts the draft under `id`, with the two clock readings the timestamp
     * defaults take. A refused commit is rolled back and raised; a refresh failure after
     * the commit raises with the row stored.
     */
    method Create(draft: LeadDraft, id: Uuid, createdAt: Time, updatedAt: Time, commit: CommitOutcome)
      returns (r: Result<Lead, DbError>)
      requires Valid()
      modifies this, log
      ensures Valid()
      ensures r.Success? <==> id !in old(table) && commit == Committed
      ensures id in old(table) ==> r == Failure(IntegrityViolation)
      ensures id !in old(table) && commit == CommitRefused ==> r == Failure(CommitFailed)
      ensures id !in old(table) && commit == RefreshFailed ==> r == Failure(RefreshError)
      ensures r.Success? ==> r.value == Insert(draft, id, createdAt, updatedAt)
      ensures id !in old(table) && Persisted(commit) ==>
                && table == old(table)[id := Insert(draft, id, createdAt, updatedAt)]
                && GetById(id) == Some(Insert(draft, id, createdAt, updatedAt))
                && log.events == old(log.events) + [Inserted(Insert(draft, id, createdAt, updatedAt))]
      ensures !(id !in old(table) && Persisted(commit)) ==> table == old(table) && log.events == old(log.events)
    {
      if id in table {
        return Failure(IntegrityViolation);
      }
      if commit == CommitRefused {
        return Failure(CommitFailed);
      }
      var lead := Insert(draft, id, createdAt, updatedAt);
      table := table[id := lead];
      log.events := log.events + [Inserted(lead)];
      if commit == RefreshFailed {
        return Failure(RefreshError);
      }
      r := Success(lead);
    }

    /** `get_by_id`: the row with that id, or None when there is none. */
    function GetById(id: Uuid): (r: Option<Lead>)
      reads this
      requires Valid()
      ensures r.None? <==> id !in table
      ensures r.Some? ==> r.value.id == id && r.value == table[id]
    {
      if id in table then Some(table[id]) else None
    }

    /**
     * `get_all`: the count of filtered rows, taken before paging, and the page
     * `OFFSET skip LIMIT limit` of the filtered rows ordered newest first.
     * `ordered` is the full ordered listing the page was cut from.
     */
    method GetAll(skip: nat := 0, limit: nat := 100, state: Option<LeadState> := None)
      returns (leads: seq<Lead>, total: nat, ghost ordered: seq<Lead>)
      requires Valid()
      ensures total == |MatchingIds(table, state)|
      ensures IsListing(table, state, ordered) && leads == Window(ordered, skip, limit)
      ensures |leads| == Min(limit, if skip <= total then total - skip else 0)
      ensures forall k | 0 <= k < |leads| :: leads[k].id in table && table[leads[k].id] == leads[k]
      ensures forall k | 0 <= k < |leads| :: Matches(leads[k], state)
      ensures NewestFirst(leads)
    {
      total := |MatchingIds(table, state)|;
      var listing := OrderByNewest(state);
      ordered := listing;
      ListingCount(table, state, ordered);
      ListingMatches(table, state, ordered);
      leads := Window(listing, skip, limit);
    }

    /** The filtered rows, newest first: the rows are taken out one newest row at a time. */
    method OrderByNewest(state: Option<LeadState>) returns (listing: seq<Lead>)
      requires Valid()
      ensures IsListing(table, state, listing)
    {
      var remaining := MatchingIds(table, state);
      listing := [];
      while remaining != {}
        invariant PartialListing(table, state, listing, remaining)
        decreases |remaining|
      {
        NewestExists(table, remaining);
        var id :| id in remaining && forall j | j in remaining :: table[j].createdAt <= table[id].createdAt;
        ExtendListing(table, state, listing, remaining, id);
        listing := listing + [table[id]];
        remaining := remaining - {id};
      }
    }

    /**
     * `update_state`: None for an unknown id; otherwise writes exactly `state`,
     * whatever the current state is, and refreshes `updated_at`. A refused commit is
     * rolled back and raised; a refresh failure after the commit raises with the new
     * state stored.
     */
    method UpdateState(id: Uuid, state: LeadState, now: Time, commit: CommitOutcome)
      returns (r: Result<Option<Lead>, DbError>)
      requires Valid()
      modifies this, log
      ensures Valid()
      ensures id !in old(table) ==> r == Success(None)
      ensures id in old(table) && commit == Committed ==>
                r == Success(Some(old(table)[id].(state := state, updatedAt := now)))
      ensures id in old(table) && commit == CommitRefused ==> r == Failure(CommitFailed)
      ensures id in old(table) && commit == RefreshFailed ==> r == Failure(RefreshError)
      ensures id in old(table) && Persisted(commit) ==>
                && table == WithState(old(table), id, state, now)
                && log.events == old(log.events) + [StateWritten(old(table)[id].(state := state, updatedAt := now))]
      ensures !(id in old(table) && Persisted(commit)) ==> table == old(table) && log.events == old(log.events)
    {
      var found := GetById(id);
      if found.None? {
        return Success(None);
      }
      if commit == CommitRefused {
        return Failure(CommitFailed);
      }
      var lead := found.value.(state := state, updatedAt := now);
      table := table[id := lead];
      log.events := log.events + [StateWritten(lead)];
      if commit == RefreshFailed {
        return Failure(RefreshError);
      }
      r := Success(Some(lead));
    }
  }

  /** An update touches one row, and in it only `state` and `updated_at`. */
  lemma WithStateFrame(t: Table, id: Uuid, state: LeadState, now: Time)
    requires WellKeyed(t) && id in t
    ensures var t' := WithState(t, id, state, now);
      && WellKeyed(t')
      && t'.Keys == t.Keys
      && (forall other | other in t && other != id :: t'[other] == t[other])
      && t'[id].state == state && t'[id].updatedAt == now
      && t'[id].id == id && t'[id].firstName == t[id].firstName && t'[id].lastName == t[id].lastName
      && t'[id].email == t[id].email && t'[id].resumeUrl == t[id].resumeUrl
      && t'[id].createdAt == t[id].createdAt
  {
  }

  /** Writing the same state twice: the state is that value and only `updated_at` moved. */
  lemma WithStateTwice(t: Table, id: Uuid, state: LeadState, now1: Time, now2: Time)
    requires id in t
    ensures WithState(WithState(t, id, state, now1), id, state, now2) == WithState(t, id, state, now2)
    ensures WithState(WithState(t, id, state, now1), id, state, now2)[id].state == state
  {
  }

  /**
   * An update moves the row into the target state's filter and out of the other's;
   * the unfiltered count is unchanged.
   */
  lemma WithStateFilters(t: Table, id: Uuid, state: LeadState, other: LeadState, now: Time)
    requires id in t && other != state
    ensures MatchingIds(WithState(t, id, state, now), Some(state)) == MatchingIds(t, Some(state)) + {id}
    ensures MatchingIds(WithState(t, id, state, now), Some(other)) == MatchingIds(t, Some(other)) - {id}
    ensures MatchingIds(WithState(t, id, state, now), None) == MatchingIds(t, None)
  {
  }

  /** The repository's page sizes for 15 leads and pages of 10: 10, then 5. */
  lemma PagesOfFifteen(t: Table, state: Option<LeadState>, s1: seq<Lead>, s2: seq<Lead>)
    requires |MatchingIds(t, state)| == 15
    requires IsListing(t, state, s1) && IsListing(t, state, s2)
    ensures |Window(s1, 0, 10)| == 10 && |Window(s2, 10, 10)| == 5
  {
    ListingCount(t, state, s1);
    ListingCount(t, state, s2);
  }
}
