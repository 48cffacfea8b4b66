/**
 * The id lists the transcript store keeps under `transcript:index:<name>`,
 * and the two helpers that rewrite them: `updateIndex` appends an id that is
 * not yet listed, `removeFromIndex` filters an id out. A list whose key was
 * never written reads as the empty list.
 */
module StatusIndex {

  /** The four lists: every transcript, and one list per delivery status. */
  datatype IndexName = AllIndex | PendingIndex | SentIndex | FailedIndex

  /** No id is listed twice: each id differs from every id before it. */
  predicate NoDup(s: seq<string>) {
    s == [] || (s[|s| - 1] !in s[..|s| - 1] && NoDup(s[..|s| - 1]))
  }

  /** The list `updateIndex` computes: `s` with `id` appended when absent. */
  function Added(s: seq<string>, id: string): (r: seq<string>)
    ensures forall x :: x in r <==> x in s || x == id
    ensures |s| <= |r| <= |s| + 1 && r[..|s|] == s
    ensures NoDup(s) ==> NoDup(r)
  {
    if id in s then s else
      assert (s + [id])[..|s|] == s;
      s + [id]
  }

  /** The list `filter(x => x !== id)` leaves, generalised to a set of ids: `s` without any of `gone`. */
  function Without(s: seq<string>, gone: set<string>): (r: seq<string>)
    ensures forall x :: x in r <==> x in s && x !in gone
    ensures |r| <= |s|
  {
    if s == [] then []
    else
      var last := s[|s| - 1];
      Without(s[..|s| - 1], gone) + (if last in gone then [] else [last])
  }

  /** Appending an id twice is appending it once. */
  lemma AddedIdempotent(s: seq<string>, id: string)
    ensures Added(Added(s, id), id) == Added(s, id)
  {
  }

  /** Filtering keeps the relative order of what stays: it distributes over concatenation. */
  lemma {:induction false} WithoutOfConcat(a: seq<string>, b: seq<string>, gone: set<string>)
    ensures Without(a + b, gone) == Without(a, gone) + Without(b, gone)
  {
    if b == [] {
      assert a + b == a;
    } else {
      assert (a + b)[..|a + b| - 1] == a + b[..|b| - 1];
      WithoutOfConcat(a, b[..|b| - 1], gone);
    }
  }

  /**
   * Filtering removes every occurrence of the ids in `gone` and keeps every
   * other occurrence: counted with multiplicity, nothing else is lost.
   */
  lemma {:induction false} WithoutCounts(s: seq<string>, gone: set<string>, x: string)
    ensures multiset(Without(s, gone))[x] == if x in gone then 0 else multiset(s)[x]
  {
    if s != [] {
      var front := s[..|s| - 1];
      assert s == front + [s[|s| - 1]];
      WithoutCounts(front, gone, x);
    }
  }

  /** Filtering out ids that are not listed is a no-op. */
  lemma {:induction false} WithoutAbsent(s: seq<string>, gone: set<string>)
    requires forall x :: x in gone ==> x !in s
    ensures Without(s, gone) == s
  {
    if s != [] {
      var front := s[..|s| - 1];
      assert s == front + [s[|s| - 1]];
      assert s[|s| - 1] !in gone;
      WithoutAbsent(front, gone);
    }
  }

  /** Filtering one set of ids and then another is filtering their union. */
  lemma {:induction false} WithoutTwice(s: seq<string>, a: set<string>, b: set<string>)
    ensures Without(Without(s, a), b) == Without(s, a + b)
  {
    if s != [] {
      var front := s[..|s| - 1];
      var last := s[|s| - 1];
      WithoutTwice(front, a, b);
      WithoutOfConcat(Without(front, a), if last in a then [] else [last], b);
    }
  }

  /** Filtering never introduces a duplicate. */
  lemma {:induction false} WithoutNoDup(s: seq<string>, gone: set<string>)
    requires NoDup(s)
    ensures NoDup(Without(s, gone))
  {
    if s != [] {
      var front := s[..|s| - 1];
      var last := s[|s| - 1];
      WithoutNoDup(front, gone);
      var w := Without(front, gone);
      assert last !in front;
      if last !in gone {
        assert Without(s, gone) == w + [last];
        assert (w + [last])[..|w|] == w;
        assert last !in w;
      } else {
        assert Without(s, gone) == w;
      }
    }
  }

  // ---------------------------------------------------------------------------
  // The index lists as key-value entries.

  /** `await db.get(key) || []`: the stored list, or the empty list for a missing key. */
  function Lookup(ix: map<IndexName, seq<string>>, name: IndexName): (s: seq<string>)
    ensures name !in ix ==> s == []
  {
    if name in ix then ix[name] else []
  }

  /** The store after `updateIndex(name, id)`: the key is written only when `id` was absent. */
  function AddTo(ix: map<IndexName, seq<string>>, name: IndexName, id: string): (r: map<IndexName, seq<string>>)
    ensures forall n :: Lookup(r, n) == if n == name then Added(Lookup(ix, name), id) else Lookup(ix, n)
    ensures id in Lookup(ix, name) ==> r == ix
  {
    var current := Lookup(ix, name);
    if id !in current then ix[name := current + [id]] else ix
  }

  /** The store after `removeFromIndex(name, id)`: the key is written only when `id` was listed. */
  function RemoveFrom(ix: map<IndexName, seq<string>>, name: IndexName, id: string): (r: map<IndexName, seq<string>>)
    ensures forall n :: Lookup(r, n) == if n == name then Without(Lookup(ix, name), {id}) else Lookup(ix, n)
    ensures id !in Lookup(ix, name) ==> r == ix
    ensures r.Keys == ix.Keys
  {
    var current := Lookup(ix, name);
    if id in current then
      assert name in ix;
      ix[name := Without(current, {id})]
    else
      WithoutAbsent(current, {id});
      ix
  }

  /** Two stores of lists with the same keys and the same lists are the same. */
  lemma LookupExtensional(ix: map<IndexName, seq<string>>, iy: map<IndexName, seq<string>>)
    requires ix.Keys == iy.Keys
    requires forall n :: Lookup(ix, n) == Lookup(iy, n)
    ensures ix == iy
  {
    forall n | n in ix ensures ix[n] == iy[n] {
      assert Lookup(ix, n) == Lookup(iy, n);
    }
  }
}
