/**
 * The transcript store: a key-value database holding, per conversation id,
 * the delivery metadata (`transcript:<id>:metadata`) and the transcript text
 * (`transcript:<id>:content`), plus the id lists of `StatusIndex`.
 *
 * The database is a `Store` object whose three maps are the three families of
 * keys; every operation rewrites them step by step as the source does.
 * Clock readings are whole milliseconds passed in by the caller, and the
 * generated id of a new transcript is a parameter too.
 */
module TranscriptStore {
  import opened Wrappers
  import opened StatusIndex

  /** The delivery status of a transcript. */
  datatype Status = Pending | Sent | Failed

  /** The status list an id of this status belongs in. */
  function IndexFor(st: Status): (n: IndexName)
    ensures n != AllIndex
  {
    match st
    case Pending => PendingIndex
    case Sent => SentIndex
    case Failed => FailedIndex
  }

  /** What the delivery routes record about the last webhook attempt. */
  datatype ResponseDetails =
    | HttpResponse(status: int, statusText: string, body: Option<string>, isRetry: bool)
    | NetworkFailure(message: string, isRetry: bool)

  datatype Metadata = Metadata(
    conversationId: string,
    fileName: string,
    createdAt: int,
    updatedAt: int,
    status: Status,
    zapierAttempts: nat,
    lastZapierAttempt: Option<int>,
    lastZapierResponse: Option<ResponseDetails>)

  datatype Content = Content(text: string, timestamp: int)

  datatype Transcript = Transcript(metadata: Metadata, content: Content)

  /** The transcript stored under `id`: present exactly when both of its keys exist. */
  function Stored(md: map<string, Metadata>, ct: map<string, Content>, id: string): (t: Option<Transcript>)
    ensures t.Some? <==> id in md && id in ct
    ensures t.Some? ==> t.value == Transcript(md[id], ct[id])
  {
    if id in md && id in ct then Some(Transcript(md[id], ct[id])) else None
  }

  /** 24 hours in milliseconds: how long a delivered transcript is kept. */
  const OneDayMs: int := 24 * 60 * 60 * 1000

  // ---------------------------------------------------------------------------
  // Specification of the store's state.

  /** Every stored id is listed in one status list, the one matching its status, and in no other. */
  ghost predicate IndexMatches(md: map<string, Metadata>, ix: map<IndexName, seq<string>>, st: Status) {
    forall id :: id in Lookup(ix, IndexFor(st)) <==> id in md && md[id].status == st
  }

  /**
   * The invariant the store keeps for ids created by `saveTranscript`:
   * metadata and content exist together, no list repeats an id, `all` lists
   * exactly the stored ids, and each status list lists exactly the stored ids
   * of that status.
   */
  ghost predicate Consistent(md: map<string, Metadata>, ct: map<string, Content>, ix: map<IndexName, seq<string>>) {
    && md.Keys == ct.Keys
    && NoDup(Lookup(ix, AllIndex))
    && NoDup(Lookup(ix, PendingIndex))
    && NoDup(Lookup(ix, SentIndex))
    && NoDup(Lookup(ix, FailedIndex))
    && (forall id :: id in Lookup(ix, AllIndex) <==> id in md)
    && IndexMatches(md, ix, Pending)
    && IndexMatches(md, ix, Sent)
    && IndexMatches(md, ix, Failed)
  }

  /** The record `updateTranscriptStatus` writes back after a delivery attempt at time `now`. */
  function Attempted(m: Metadata, status: Status, details: Option<ResponseDetails>, now: int): (r: Metadata)
    ensures r.status == status && r.zapierAttempts == m.zapierAttempts + 1
    ensures r.conversationId == m.conversationId && r.fileName == m.fileName && r.createdAt == m.createdAt
    ensures r.updatedAt == now && r.lastZapierAttempt == Some(now) && r.lastZapierResponse == details
  {
    m.(status := status, updatedAt := now, zapierAttempts := m.zapierAttempts + 1,
       lastZapierAttempt := Some(now), lastZapierResponse := details)
  }

  /** The lists after a status change of `id` from `from` to `to`: rewritten only when the status differs. */
  function StatusMoved(ix: map<IndexName, seq<string>>, id: string, from: Status, to: Status): map<IndexName, seq<string>>
  {
    if from == to then ix else AddTo(RemoveFrom(ix, IndexFor(from), id), IndexFor(to), id)
  }

  /** Whether a record is old enough to be cleaned up at time `now`: strictly more than a day since its last update. */
  predicate IsStale(m: Metadata, now: int) {
    now - m.updatedAt > OneDayMs
  }

  /**
   * The ids the cleanup deletes: listed in the `sent` index, with a stored
   * record whose status is `sent` and which is stale.
   */
  function Expired(sentIndex: seq<string>, md: map<string, Metadata>, now: int): set<string>
  {
    if sentIndex == [] then {}
    else
      var id := sentIndex[|sentIndex| - 1];
      Expired(sentIndex[..|sentIndex| - 1], md, now)
        + (if id in md && md[id].status == Sent && IsStale(md[id], now) then {id} else {})
  }

  /** The lists after the cleanup removed the ids `gone` from `sent` and `all`; no key is created or dropped. */
  function Purged(ix: map<IndexName, seq<string>>, gone: set<string>): map<IndexName, seq<string>>
  {
    map n | n in ix :: if n == SentIndex || n == AllIndex then Without(ix[n], gone) else ix[n]
  }

  /** The expired ids are exactly the listed ids whose stored record is `sent` and stale. */
  lemma {:induction false} ExpiredMembers(sentIndex: seq<string>, md: map<string, Metadata>, now: int)
    ensures forall id :: id in Expired(sentIndex, md, now) <==>
      id in sentIndex && id in md && md[id].status == Sent && IsStale(md[id], now)
  {
    if sentIndex != [] {
      var front := sentIndex[..|sentIndex| - 1];
      ExpiredMembers(front, md, now);
      assert sentIndex == front + [sentIndex[|sentIndex| - 1]];
    }
  }

  /** The purge rewrites `sent` and `all` only, and creates or drops no key. */
  lemma PurgedLists(ix: map<IndexName, seq<string>>, gone: set<string>)
    ensures Purged(ix, gone).Keys == ix.Keys
    ensures forall n :: Lookup(Purged(ix, gone), n) == (if n == SentIndex || n == AllIndex then Without(Lookup(ix, n), gone) else Lookup(ix, n))
  {
  }

  // ---------------------------------------------------------------------------
  // The invariant and the operations.

  /** Under the invariant a stored id lies in exactly one status list: the one matching its status. */
  lemma {:induction false} ExactlyOneStatusIndex(md: map<string, Metadata>, ct: map<string, Content>, ix: map<IndexName, seq<string>>, id: string)
    requires Consistent(md, ct, ix) && id in md
    ensures id in Lookup(ix, IndexFor(md[id].status))
    ensures forall st :: st != md[id].status ==> id !in Lookup(ix, IndexFor(st))
  {
    var st0 := md[id].status;
    forall st | st != st0 ensures id !in Lookup(ix, IndexFor(st)) {
      assert IndexMatches(md, ix, st);
    }
    assert IndexMatches(md, ix, st0);
  }

  /**
   * One record written: list `st` still matches when it lists every other id
   * as before and lists `id` exactly when the new record has status `st`.
   */
  lemma {:induction false} MatchesAfterWrite(md: map<string, Metadata>, ix: map<IndexName, seq<string>>, ix': map<IndexName, seq<string>>,
                          st: Status, id: string, m: Metadata)
    requires IndexMatches(md, ix, st)
    requires forall x :: x != id ==> (x in Lookup(ix', IndexFor(st)) <==> x in Lookup(ix, IndexFor(st)))
    requires id in Lookup(ix', IndexFor(st)) <==> m.status == st
    ensures IndexMatches(md[id := m], ix', st)
  {
  }

  /**
   * Records deleted: list `st` still matches when it lists exactly the ids it
   * listed before minus the deleted ones.
   */
  lemma {:induction false} MatchesAfterDelete(md: map<string, Metadata>, ix: map<IndexName, seq<string>>, ix': map<IndexName, seq<string>>,
                           st: Status, gone: set<string>)
    requires IndexMatches(md, ix, st)
    requires forall x :: x in Lookup(ix', IndexFor(st)) <==> x in Lookup(ix, IndexFor(st)) && x !in gone
    ensures IndexMatches(md - gone, ix', st)
  {
  }

  /**
   * Saving a new transcript as pending keeps the invariant, and so does
   * saving over an id that is still pending. (Saving over a sent or failed id
   * does not: the id stays in its old list and is added to `pending` too.)
   */
  lemma {:induction false} SavePreservesConsistency(md: map<string, Metadata>, ct: map<string, Content>, ix: map<IndexName, seq<string>>,
                                 id: string, m: Metadata, c: Content)
    requires Consistent(md, ct, ix)
    requires m.status == Pending
    requires id !in md || md[id].status == Pending
    ensures Consistent(md[id := m], ct[id := c], AddTo(AddTo(ix, AllIndex, id), PendingIndex, id))
  {
    assert IndexFor(Pending) == PendingIndex && IndexFor(Sent) == SentIndex && IndexFor(Failed) == FailedIndex;
    SaveKeepsAllList(md, ct, ix, id, m);
    SaveKeepsStatusList(md, ct, ix, id, m, Pending);
    SaveKeepsStatusList(md, ct, ix, id, m, Sent);
    SaveKeepsStatusList(md, ct, ix, id, m, Failed);
  }

  /** After a save, `all` still lists every stored id once. */
  lemma {:induction false} SaveKeepsAllList(md: map<string, Metadata>, ct: map<string, Content>, ix: map<IndexName, seq<string>>,
                                            id: string, m: Metadata)
    requires Consistent(md, ct, ix)
    ensures var ix' := AddTo(AddTo(ix, AllIndex, id), PendingIndex, id);
      NoDup(Lookup(ix', AllIndex)) && forall x :: x in Lookup(ix', AllIndex) <==> x in md[id := m]
  {
  }

  /** After a save of a pending record over a new or pending id, each status list still matches and repeats no id. */
  lemma {:induction false} SaveKeepsStatusList(md: map<string, Metadata>, ct: map<string, Content>, ix: map<IndexName, seq<string>>,
                                               id: string, m: Metadata, st: Status)
    requires Consistent(md, ct, ix)
    requires m.status == Pending
    requires id !in md || md[id].status == Pending
    ensures var ix' := AddTo(AddTo(ix, AllIndex, id), PendingIndex, id);
      NoDup(Lookup(ix', IndexFor(st))) && IndexMatches(md[id := m], ix', st)
  {
    var ix' := AddTo(AddTo(ix, AllIndex, id), PendingIndex, id);
    assert IndexMatches(md, ix, st);
    if st == Pending {
      assert Lookup(ix', IndexFor(st)) == Added(Lookup(ix, IndexFor(st)), id);
    } else {
      assert Lookup(ix', IndexFor(st)) == Lookup(ix, IndexFor(st));
    }
    MatchesAfterWrite(md, ix, ix', st, id, m);
  }

  /**
   * A status update keeps the invariant: the record gets the new status, and
   * the id moves from the old status list to the new one.
   */
  lemma {:induction false} StatusUpdatePreservesConsistency(md: map<string, Metadata>, ct: map<string, Content>, ix: map<IndexName, seq<string>>,
                                         id: string, status: Status, details: Option<ResponseDetails>, now: int)
    requires Consistent(md, ct, ix) && id in md
    ensures Consistent(md[id := Attempted(md[id], status, details, now)], ct, StatusMoved(ix, id, md[id].status, status))
  {
    var m := Attempted(md[id], status, details, now);
    var from := md[id].status;
    var md', ix' := md[id := m], StatusMoved(ix, id, from, status);
    assert m.status == status;
    assert IndexFor(Pending) == PendingIndex && IndexFor(Sent) == SentIndex && IndexFor(Failed) == FailedIndex;
    StatusUpdateKeepsAllList(md, ct, ix, id, m, from, status);
    StatusUpdateKeepsStatusList(md, ix, id, m, Pending);
    assert NoDup(Lookup(ix', PendingIndex)) && IndexMatches(md', ix', Pending);
    StatusUpdateKeepsStatusList(md, ix, id, m, Sent);
    assert NoDup(Lookup(ix', SentIndex)) && IndexMatches(md', ix', Sent);
    StatusUpdateKeepsStatusList(md, ix, id, m, Failed);
    assert NoDup(Lookup(ix', FailedIndex)) && IndexMatches(md', ix', Failed);
  }

  /** The lists after a status move, name by name. */
  lemma StatusMovedLookup(ix: map<IndexName, seq<string>>, id: string, from: Status, to: Status, n: IndexName)
    ensures Lookup(StatusMoved(ix, id, from, to), n) ==
      if from == to then Lookup(ix, n)
      else if n == IndexFor(from) then Without(Lookup(ix, n), {id})
      else if n == IndexFor(to) then Added(Lookup(ix, n), id)
      else Lookup(ix, n)
  {
  }

  /** A status update neither adds nor removes a stored id, and leaves `all` as it was. */
  lemma {:induction false} StatusUpdateKeepsAllList(md: map<string, Metadata>, ct: map<string, Content>, ix: map<IndexName, seq<string>>,
                                                    id: string, m: Metadata, from: Status, to: Status)
    requires md.Keys == ct.Keys && id in md
    requires NoDup(Lookup(ix, AllIndex)) && forall x :: x in Lookup(ix, AllIndex) <==> x in md
    ensures var ix' := StatusMoved(ix, id, from, to);
      && md[id := m].Keys == ct.Keys
      && NoDup(Lookup(ix', AllIndex))
      && forall x :: x in Lookup(ix', AllIndex) <==> x in md[id := m]
  {
    assert md[id := m].Keys == md.Keys;
    StatusMovedLookup(ix, id, from, to, AllIndex);
  }

  /**
   * After a status update from the stored status to `m.status`, the list of
   * status `st` still matches and repeats no id.
   */
  lemma {:induction false} StatusUpdateKeepsStatusList(md: map<string, Metadata>, ix: map<IndexName, seq<string>>,
                                                       id: string, m: Metadata, st: Status)
    requires id in md && IndexMatches(md, ix, st) && NoDup(Lookup(ix, IndexFor(st)))
    ensures var ix' := StatusMoved(ix, id, md[id].status, m.status);
      NoDup(Lookup(ix', IndexFor(st))) && IndexMatches(md[id := m], ix', st)
  {
    var from, to := md[id].status, m.status;
    var ix' := StatusMoved(ix, id, from, to);
    assert id in Lookup(ix, IndexFor(st)) <==> from == st;
    MovedMembership(ix, id, from, to, st);
    MovedNoDup(ix, id, from, to, st);
    MatchesAfterWrite(md, ix, ix', st, id, m);
  }

  /**
   * A status move changes list `st` only at `id`; when the status changes,
   * `id` ends up in the list exactly when `st` is the new status.
   */
  lemma {:induction false} MovedMembership(ix: map<IndexName, seq<string>>, id: string, from: Status, to: Status, st: Status)
    ensures var before, after := Lookup(ix, IndexFor(st)), Lookup(StatusMoved(ix, id, from, to), IndexFor(st));
      && (forall x :: x != id ==> (x in after <==> x in before))
      && (from != to ==> (id in after <==> st == to || (st != from && id in before)))
      && (from == to ==> after == before)
  {
    var before, after := Lookup(ix, IndexFor(st)), Lookup(StatusMoved(ix, id, from, to), IndexFor(st));
    StatusMovedLookup(ix, id, from, to, IndexFor(st));
    if from != to && st == from {
      assert after == Without(before, {id});
    } else if from != to && st == to {
      assert after == Added(before, id);
    } else {
      assert after == before;
    }
  }

  /** A status move repeats no id in a list that repeated none. */
  lemma {:induction false} MovedNoDup(ix: map<IndexName, seq<string>>, id: string, from: Status, to: Status, st: Status)
    requires NoDup(Lookup(ix, IndexFor(st)))
    ensures NoDup(Lookup(StatusMoved(ix, id, from, to), IndexFor(st)))
  {
    var before, after := Lookup(ix, IndexFor(st)), Lookup(StatusMoved(ix, id, from, to), IndexFor(st));
    StatusMovedLookup(ix, id, from, to, IndexFor(st));
    if from != to && st == from {
      WithoutNoDup(before, {id});
    }
  }

  /**
   * After a status update under the invariant, the id is listed under its
   * new status and under no other.
   */
  lemma {:induction false} UpdatedIdListedUnderNewStatus(md: map<string, Metadata>, ct: map<string, Content>, ix: map<IndexName, seq<string>>,
                                                         id: string, status: Status, details: Option<ResponseDetails>, now: int)
    requires Consistent(md, ct, ix) && id in md
    ensures var ix' := StatusMoved(ix, id, md[id].status, status);
      && id in Lookup(ix', IndexFor(status))
      && forall st :: st != status ==> id !in Lookup(ix', IndexFor(st))
  {
    var md' := md[id := Attempted(md[id], status, details, now)];
    StatusUpdatePreservesConsistency(md, ct, ix, id, status, details, now);
    ExactlyOneStatusIndex(md', ct, StatusMoved(ix, id, md[id].status, status), id);
  }

  /**
   * Under the invariant, the cleanup deletes exactly the stored records that
   * are `sent` and stale: the `sent` list adds no further restriction.
   */
  lemma {:induction false} ExpiredUnderConsistency(md: map<string, Metadata>, ct: map<string, Content>, ix: map<IndexName, seq<string>>, now: int)
    requires Consistent(md, ct, ix)
    ensures forall id :: id in Expired(Lookup(ix, SentIndex), md, now) <==> id in md && md[id].status == Sent && IsStale(md[id], now)
  {
    ExpiredMembers(Lookup(ix, SentIndex), md, now);
    assert IndexMatches(md, ix, Sent);
  }

  /** The cleanup keeps the invariant. */
  lemma {:induction false} CleanupPreservesConsistency(md: map<string, Metadata>, ct: map<string, Content>, ix: map<IndexName, seq<string>>, now: int)
    requires Consistent(md, ct, ix)
    ensures var gone := Expired(Lookup(ix, SentIndex), md, now);
      Consistent(md - gone, ct - gone, Purged(ix, gone))
  {
    var gone := Expired(Lookup(ix, SentIndex), md, now);
    ExpiredMembers(Lookup(ix, SentIndex), md, now);
    assert IndexFor(Pending) == PendingIndex && IndexFor(Sent) == SentIndex && IndexFor(Failed) == FailedIndex;
    PurgeKeepsAllList(md, ct, ix, gone);
    PurgeKeepsStatusList(md, ix, gone, Pending);
    PurgeKeepsStatusList(md, ix, gone, Sent);
    PurgeKeepsStatusList(md, ix, gone, Failed);
  }

  /** Deleting records and purging their ids keeps `all` listing each stored id once. */
  lemma {:induction false} PurgeKeepsAllList(md: map<string, Metadata>, ct: map<string, Content>, ix: map<IndexName, seq<string>>,
                                             gone: set<string>)
    requires md.Keys == ct.Keys
    requires NoDup(Lookup(ix, AllIndex)) && forall x :: x in Lookup(ix, AllIndex) <==> x in md
    ensures var ix' := Purged(ix, gone);
      && (md - gone).Keys == (ct - gone).Keys
      && NoDup(Lookup(ix', AllIndex))
      && forall x :: x in Lookup(ix', AllIndex) <==> x in md - gone
  {
    PurgedLists(ix, gone);
    WithoutNoDup(Lookup(ix, AllIndex), gone);
  }

  /**
   * Deleting `sent` records and purging their ids from `sent` keeps each
   * status list matching and free of repeats.
   */
  lemma {:induction false} PurgeKeepsStatusList(md: map<string, Metadata>, ix: map<IndexName, seq<string>>, gone: set<string>, st: Status)
    requires IndexMatches(md, ix, st) && NoDup(Lookup(ix, IndexFor(st)))
    requires forall x :: x in gone ==> x in md && md[x].status == Sent
    ensures NoDup(Lookup(Purged(ix, gone), IndexFor(st))) && IndexMatches(md - gone, Purged(ix, gone), st)
  {
    var before, after := Lookup(ix, IndexFor(st)), Lookup(Purged(ix, gone), IndexFor(st));
    PurgedLists(ix, gone);
    if st == Sent {
      assert after == Without(before, gone);
      WithoutNoDup(before, gone);
    } else {
      assert after == before;
    }
    MatchesAfterDelete(md, ix, Purged(ix, gone), st, gone);
  }

  /**
   * A sent record is cleaned up exactly when more than 24 hours passed since
   * its last update: 25 hours old goes, 23 hours old and exactly 24 hours old
   * stay. Records that are pending or failed never go, however old.
   */
  lemma CleanupBoundary(id: string, m: Metadata, now: int)
    ensures var md := map[id := m];
      && (m.status == Sent && m.updatedAt == now - 25 * 60 * 60 * 1000 ==> Expired([id], md, now) == {id})
      && (m.updatedAt == now - 23 * 60 * 60 * 1000 ==> Expired([id], md, now) == {})
      && (m.updatedAt == now - OneDayMs ==> Expired([id], md, now) == {})
      && (m.status != Sent ==> Expired([id], md, now) == {})
  {
  }

  /** `current.filter(x => x !== id)`: the list without `id`, in order. */
  method FilterOut(current: seq<string>, id: string) returns (updated: seq<string>)
    ensures updated == Without(current, {id})
  {
    updated := [];
    var i := 0;
    while i < |current|
      invariant 0 <= i <= |current|
      invariant updated == Without(current[..i], {id})
    {
      assert current[..i + 1][..i] == current[..i];
      if current[i] != id {
        updated := updated + [current[i]];
      }
      i := i + 1;
    }
    assert current[..i] == current;
  }

  class Store {
    /** `transcript:<id>:metadata` */
    var metadata: map<string, Metadata>
    /** `transcript:<id>:content` */
    var content: map<string, Content>
    /** `transcript:index:<name>` */
    var indexes: map<IndexName, seq<string>>

    /** An empty database. */
    constructor ()
      ensures metadata == map[] && content == map[] && indexes == map[]
      ensures Valid()
    {
      metadata, content, indexes := map[], map[], map[];
    }

    ghost predicate Valid()
      reads this
    {
      Consistent(metadata, content, indexes)
    }

    /** The stored list `name`, empty when its key is missing. */
    function Index(name: IndexName): seq<string>
      reads this
    {
      Lookup(indexes, name)
    }

    /** `updateIndex`: appends `id` to list `name` unless it is already there; nothing else changes. */
    method UpdateIndex(name: IndexName, id: string)
      modifies this
      ensures indexes == AddTo(old(indexes), name, id)
      ensures Index(name) == Added(old(Index(name)), id)
      ensures metadata == old(metadata) && content == old(content)
    {
      var current := Index(name);
      if id !in current {
        indexes := indexes[name := current + [id]];
      }
    }

    /** `removeFromIndex`: rebuilds list `name` without `id` when it is listed; nothing else changes. */
    method RemoveFromIndex(name: IndexName, id: string)
      modifies this
      ensures indexes == RemoveFrom(old(indexes), name, id)
      ensures Index(name) == Without(old(Index(name)), {id})
      ensures metadata == old(metadata) && content == old(content)
    {
      var current := Index(name);
      if id in current {
        var updated := FilterOut(current, id);
        indexes := indexes[name := updated];
      }
    }

    /** `getTranscript`: the record and text of `id` when both keys exist. */
    function GetTranscript(id: string): (r: Option<Transcript>)
      reads this
      ensures r.Some? <==> id in metadata && id in content
      ensures r.Some? ==> r.value.metadata == metadata[id] && r.value.content == content[id]
    {
      Stored(metadata, content, id)
    }

    /** `getTranscriptsByStatus`: the status list, `[]` when its key is missing. */
    function GetTranscriptsByStatus(status: Status): (ids: seq<string>)
      reads this
      ensures IndexFor(status) !in indexes ==> ids == []
      ensures Valid() ==> forall id :: id in ids <==> id in metadata && metadata[id].status == status
    {
      assert Valid() ==> IndexMatches(metadata, indexes, status);
      Index(IndexFor(status))
    }

    /**
     * `saveTranscript`: stores a new pending record and its text under
     * `conversationId` (or under `freshId` when that is absent or empty) and
     * lists the id in `all` and `pending`.
     */
    method SaveTranscript(conversationId: Option<string>, freshId: string, text: string, fileName: string, now: int)
      returns (m: Metadata)
      modifies this
      ensures m.conversationId == if conversationId.Some? && conversationId.value != "" then conversationId.value else freshId
      ensures m.fileName == fileName && m.status == Pending && m.zapierAttempts == 0 && m.lastZapierAttempt.None?
      ensures m.createdAt == now && m.updatedAt == m.createdAt && m.lastZapierResponse.None?
      ensures metadata == old(metadata)[m.conversationId := m]
      ensures content == old(content)[m.conversationId := Content(text, now)]
      ensures indexes == AddTo(AddTo(old(indexes), AllIndex, m.conversationId), PendingIndex, m.conversationId)
      ensures old(Valid()) && (m.conversationId !in old(metadata) || old(metadata)[m.conversationId].status == Pending) ==> Valid()
    {
      var id := if conversationId.Some? && conversationId.value != "" then conversationId.value else freshId;
      m := Metadata(id, fileName, now, now, Pending, 0, None, None);
      ghost var md0, ct0, ix0 := metadata, content, indexes;
      metadata := metadata[id := m];
      content := content[id := Content(text, now)];
      UpdateIndex(AllIndex, id);
      UpdateIndex(PendingIndex, id);
      if Consistent(md0, ct0, ix0) && (id !in md0 || md0[id].status == Pending) {
        SavePreservesConsistency(md0, ct0, ix0, id, m, Content(text, now));
      }
    }

    /**
     * `updateTranscriptStatus`: records a delivery attempt on `id`. Without a
     * stored record it returns `None` and writes nothing. Otherwise the record
     * takes the new status, one more attempt, the attempt time and the
     * response details, and keeps its id, file name and creation time; when
     * the status changed, the id moves from the old status list to the new one.
     */
    method UpdateTranscriptStatus(id: string, status: Status, details: Option<ResponseDetails>, now: int)
      returns (r: Option<Metadata>)
      modifies this
      ensures r.None? <==> id !in old(metadata)
      ensures r.None? ==> metadata == old(metadata) && content == old(content) && indexes == old(indexes)
      ensures r.Some? ==>
        var was := old(metadata)[id];
        && r.value == Attempted(was, status, details, now)
        && metadata == old(metadata)[id := r.value]
        && content == old(content)
        && indexes == StatusMoved(old(indexes), id, was.status, status)
      ensures old(Valid()) ==> Valid()
    {
      if id !in metadata {
        return None;
      }
      var was := metadata[id];
      var updated := Attempted(was, status, details, now);
      ghost var md0, ix0 := metadata, indexes;
      metadata := metadata[id := updated];
      if was.status != status {
        RemoveFromIndex(IndexFor(was.status), id);
        UpdateIndex(IndexFor(status), id);
      }
      if Consistent(md0, content, ix0) {
        StatusUpdatePreservesConsistency(md0, content, ix0, id, status, details, now);
      }
      r := Some(updated);
    }

    /**
     * The deletion step of `cleanupOldTranscripts`: both keys of `id` are
     * deleted and `id` is filtered out of `sent`, then out of `all`.
     */
    method DeleteTranscript(id: string)
      modifies this
      ensures metadata == old(metadata) - {id} && content == old(content) - {id}
      ensures indexes == RemoveFrom(RemoveFrom(old(indexes), SentIndex, id), AllIndex, id)
    {
      metadata := metadata - {id};
      content := content - {id};
      RemoveFromIndex(SentIndex, id);
      RemoveFromIndex(AllIndex, id);
    }

    /**
     * `cleanupOldTranscripts`: walks a snapshot of the `sent` list and
     * deletes every record that is still `sent` and stale, removing its id
     * from `sent` and `all`. Returns the number deleted; pending and failed
     * records, and the `pending` and `failed` lists, are untouched.
     */
    method CleanupOldTranscripts(now: int) returns (count: nat)
      modifies this
      ensures var gone := Expired(old(Index(SentIndex)), old(metadata), now);
        && count == |gone|
        && metadata == old(metadata) - gone
        && content == old(content) - gone
        && indexes == Purged(old(indexes), gone)
      ensures old(Valid()) ==> Valid()
    {
      var sentIndex := Index(SentIndex);
      ghost var md0, ct0, ix0 := metadata, content, indexes;
      count := 0;
      ghost var gone: set<string> := {};
      var i := 0;
      assert Expired(sentIndex[..0], md0, now) == {};
      PurgedNothing(ix0);
      while i < |sentIndex|
        invariant 0 <= i <= |sentIndex|
        invariant gone == Expired(sentIndex[..i], md0, now)
        invariant count == |gone|
        invariant metadata == md0 - gone && content == ct0 - gone
        invariant indexes == Purged(ix0, gone)
      {
        var id := sentIndex[i];
        ExpiredStep(sentIndex, i, md0, gone, now);
        if id in metadata && metadata[id].status == Sent && IsStale(metadata[id], now) {
          MinusStep(md0, gone, id);
          MinusStep(ct0, gone, id);
          PurgeStep(ix0, gone, id);
          DeleteTranscript(id);
          gone := gone + {id};
          count := count + 1;
        }
        i := i + 1;
      }
      assert sentIndex[..i] == sentIndex;
      if Consistent(md0, ct0, ix0) {
        CleanupPreservesConsistency(md0, ct0, ix0, now);
      }
    }
  }

  /** Purging no ids leaves the lists as they were. */
  lemma PurgedNothing(ix: map<IndexName, seq<string>>)
    ensures Purged(ix, {}) == ix
  {
    PurgedLists(ix, {});
    forall n ensures Lookup(Purged(ix, {}), n) == Lookup(ix, n) {
      WithoutAbsent(Lookup(ix, n), {});
    }
    LookupExtensional(Purged(ix, {}), ix);
  }

  /**
   * One more id of the `sent` snapshot, checked against the records still
   * stored: the expired set grows by that id exactly when the cleanup deletes it.
   */
  lemma {:induction false} ExpiredStep(sentIndex: seq<string>, i: nat, md: map<string, Metadata>, gone: set<string>, now: int)
    requires i < |sentIndex| && gone == Expired(sentIndex[..i], md, now)
    ensures var id, left := sentIndex[i], md - gone;
      if id in left && left[id].status == Sent && IsStale(left[id], now)
      then id !in gone && Expired(sentIndex[..i + 1], md, now) == gone + {id} && |gone + {id}| == |gone| + 1
      else Expired(sentIndex[..i + 1], md, now) == gone
  {
    var id, pre := sentIndex[i], sentIndex[..i + 1];
    assert pre[..|pre| - 1] == sentIndex[..i] && pre[|pre| - 1] == id;
    var qualifies := id in md && md[id].status == Sent && IsStale(md[id], now);
    assert Expired(pre, md, now) == gone + (if qualifies then {id} else {});
    if id in gone {
      assert gone + {id} == gone;
    } else if id in md {
      assert (md - gone)[id] == md[id];
    }
  }

  /** Deleting one more key is deleting the union. */
  lemma MinusStep<K, V>(m: map<K, V>, gone: set<K>, id: K)
    ensures (m - gone) - {id} == m - (gone + {id})
  {
  }

  /** Removing one more id from `sent` and `all` extends the purge by that id. */
  lemma {:induction false} PurgeStep(ix: map<IndexName, seq<string>>, gone: set<string>, id: string)
    ensures RemoveFrom(RemoveFrom(Purged(ix, gone), SentIndex, id), AllIndex, id) == Purged(ix, gone + {id})
  {
    var r := RemoveFrom(RemoveFrom(Purged(ix, gone), SentIndex, id), AllIndex, id);
    var q := Purged(ix, gone + {id});
    PurgedLists(ix, gone);
    PurgedLists(ix, gone + {id});
    WithoutTwice(Lookup(ix, SentIndex), gone, {id});
    WithoutTwice(Lookup(ix, AllIndex), gone, {id});
    assert forall n :: Lookup(r, n) == Lookup(q, n);
    LookupExtensional(r, q);
  }
}
