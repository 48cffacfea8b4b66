/**
 * The transcript-status endpoint: with a conversation id it returns that
 * transcript; without one it returns how many transcripts are pending,
 * failed and sent, with the pending and failed ids.
 */
module TranscriptStatusRoute {
  import opened Wrappers
  import opened StatusIndex
  import opened TranscriptStore

  /** The JSON summary of the store. */
  datatype Summary = Summary(
    pending: nat,
    failed: nat,
    sent: nat,
    total: nat,
    pendingIds: seq<string>,
    failedIds: seq<string>,
    timestamp: string)

  datatype StatusBody =
    | NotFoundBody(error: string)
    | TranscriptBody(transcript: Transcript)
    | SummaryBody(summary: Summary)

  datatype StatusResponse = StatusResponse(status: int, body: StatusBody)

  const NotFound := "Transcript not found"

  /** The summary read from the three status lists at the clock reading `nowIso`. */
  function SummaryOf(store: Store, nowIso: string): (s: Summary)
    reads store
    ensures s.pendingIds == store.GetTranscriptsByStatus(Pending) && s.failedIds == store.GetTranscriptsByStatus(Failed)
    ensures s.total == s.pending + s.failed + s.sent
  {
    var pending := store.GetTranscriptsByStatus(Pending);
    var failed := store.GetTranscriptsByStatus(Failed);
    var sent := store.GetTranscriptsByStatus(Sent);
    Summary(|pending|, |failed|, |sent|, |pending| + |failed| + |sent|, pending, failed, nowIso)
  }

  /**
   * `GET /api/transcript-status`. `conversationId` is the query parameter
   * (`None` when absent); an empty one counts as absent, as in JavaScript.
   */
  function Get(store: Store, conversationId: Option<string>, nowIso: string): (r: StatusResponse)
    reads store
    ensures conversationId.Some? && conversationId.value != "" ==>
      var t := store.GetTranscript(conversationId.value);
      && (r.status == 404 <==> t.None?)
      && (t.Some? ==> r == StatusResponse(200, TranscriptBody(t.value)))
    ensures (conversationId.None? || conversationId.value == "") ==> r == StatusResponse(200, SummaryBody(SummaryOf(store, nowIso)))
  {
    if conversationId.Some? && conversationId.value != "" then
      var t := store.GetTranscript(conversationId.value);
      if t.None? then StatusResponse(404, NotFoundBody(NotFound))
      else StatusResponse(200, TranscriptBody(t.value))
    else
      StatusResponse(200, SummaryBody(SummaryOf(store, nowIso)))
  }

  // ---------------------------------------------------------------------------
  // Counting.

  /** The ids a list holds. */
  function Elements(s: seq<string>): (e: set<string>)
    ensures forall x :: x in e <==> x in s
  {
    set x | x in s
  }

  /** A list without repeats has as many entries as distinct ids. */
  lemma {:induction false} NoDupCount(s: seq<string>)
    requires NoDup(s)
    ensures |Elements(s)| == |s|
  {
    if s != [] {
      var front := s[..|s| - 1];
      var last := s[|s| - 1];
      NoDupCount(front);
      assert Elements(s) == Elements(front) + {last};
    }
  }

  /** The stored ids of one status. */
  function WithStatus(md: map<string, Metadata>, st: Status): (ids: set<string>)
    ensures forall x :: x in ids <==> x in md && md[x].status == st
  {
    set x | x in md && md[x].status == st
  }

  /**
   * Under the store invariant each count is the number of stored records
   * with that status, and the total is the number of stored transcripts.
   */
  lemma {:induction false} SummaryCountsRecords(store: Store, nowIso: string)
    requires store.Valid()
    ensures var s := SummaryOf(store, nowIso);
      && s.pending == |WithStatus(store.metadata, Pending)|
      && s.failed == |WithStatus(store.metadata, Failed)|
      && s.sent == |WithStatus(store.metadata, Sent)|
      && s.total == |store.metadata|
  {
    CountMatches(store, Pending);
    CountMatches(store, Failed);
    CountMatches(store, Sent);
    StatusesPartitionRecords(store.metadata);
  }

  /** Every stored record has exactly one of the three statuses, so their counts add up to the number of records. */
  lemma StatusesPartitionRecords(md: map<string, Metadata>)
    ensures |md| == |WithStatus(md, Pending)| + |WithStatus(md, Failed)| + |WithStatus(md, Sent)|
  {
    var p, f, t := WithStatus(md, Pending), WithStatus(md, Failed), WithStatus(md, Sent);
    assert md.Keys == p + f + t;
    DisjointUnionCount(p, f, t);
  }

  /** Three pairwise disjoint sets have as many elements together as apart. */
  lemma DisjointUnionCount(p: set<string>, f: set<string>, t: set<string>)
    requires p !! f && p !! t && f !! t
    ensures |p + f + t| == |p| + |f| + |t|
  {
    assert |p + f| == |p| + |f|;
  }

  /** Under the invariant, the list of a status has one entry per record of that status. */
  lemma CountMatches(store: Store, st: Status)
    requires store.Valid()
    ensures |store.GetTranscriptsByStatus(st)| == |WithStatus(store.metadata, st)|
  {
    var ids := store.GetTranscriptsByStatus(st);
    assert IndexMatches(store.metadata, store.indexes, st);
    assert NoDup(ids);
    NoDupCount(ids);
    assert Elements(ids) == WithStatus(store.metadata, st);
  }

  /**
   * Without an id the route answers 200 with a summary that counts the
   * stored records of each status and all of them, and lists exactly the
   * pending and the failed ones.
   */
  lemma SummaryReportsRecords(store: Store, nowIso: string)
    requires store.Valid()
    ensures var r := Get(store, None, nowIso);
      && r.status == 200 && r.body.SummaryBody?
      && r.body.summary.pending == |WithStatus(store.metadata, Pending)|
      && r.body.summary.failed == |WithStatus(store.metadata, Failed)|
      && r.body.summary.sent == |WithStatus(store.metadata, Sent)|
      && r.body.summary.total == |store.metadata|
      && (forall id :: id in r.body.summary.pendingIds <==> id in store.metadata && store.metadata[id].status == Pending)
      && (forall id :: id in r.body.summary.failedIds <==> id in store.metadata && store.metadata[id].status == Failed)
  {
    SummaryCountsRecords(store, nowIso);
  }

  /** A lookup never changes the answer's kind: an id that is stored is found, one that is not gives 404. */
  lemma LookupAnswers(store: Store, id: string, nowIso: string)
    requires id != ""
    ensures Get(store, Some(id), nowIso).status == 200 <==> id in store.metadata && id in store.content
    ensures Get(store, Some(id), nowIso).status == 404 <==> !(id in store.metadata && id in store.content)
  {
  }
}
