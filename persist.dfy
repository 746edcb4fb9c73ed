/**
 * Revision history of meeting results: each meeting has one document holding
 * its latest revision number and a bounded list of revisions, oldest first.
 * The document updates are pure; `RevisionStore` holds the key-value store
 * they are written to.
 */
module Persist {
  import opened Wrappers

  datatype Revision = Revision(meetingId: string, rev: int, timestamp: int, content: string)

  datatype RevisionDoc = RevisionDoc(meetingId: string, latestRev: int, items: seq<Revision>)

  /** The default bound on kept revisions. */
  const DefaultMaxKeep: int := 100

  /**
   * A document as the store keeps it: revision numbers strictly increase along
   * `items`, none exceeds `latestRev`, the last one is `latestRev`, and every
   * item belongs to the document's meeting.
   */
  ghost predicate WellFormed(d: RevisionDoc) {
    && d.latestRev >= 0
    && (forall i, j :: 0 <= i < j < |d.items| ==> d.items[i].rev < d.items[j].rev)
    && (forall i :: 0 <= i < |d.items| ==> d.items[i].rev <= d.latestRev && d.items[i].meetingId == d.meetingId)
    && (d.items != [] ==> d.items[|d.items| - 1].rev == d.latestRev)
  }

  /** `items.length > maxKeep ? items.slice(items.length - maxKeep) : items`. */
  function KeepNewest(items: seq<Revision>, maxKeep: int): (r: seq<Revision>)
    ensures |items| <= maxKeep ==> r == items
    ensures |items| > maxKeep ==> |r| == (if maxKeep < 0 then 0 else maxKeep)
    ensures |r| <= |items| && r == items[|items| - |r|..]
  {
    if |items| > maxKeep then
      if maxKeep <= 0 then [] else items[|items| - maxKeep..]
    else items
  }

  /**
   * The document a save starts from: the stored one, or else an empty,
   * well-formed document for the meeting with no revision yet.
   */
  function Existing(stored: Option<RevisionDoc>, meetingId: string): (d: RevisionDoc)
    ensures stored.Some? ==> d == stored.value
    ensures stored.None? ==> d.meetingId == meetingId && d.latestRev == 0 && d.items == [] && WellFormed(d)
  {
    stored.GetOr(RevisionDoc(meetingId, 0, []))
  }

  /** The content of the newest revision, if any. */
  predicate LastContentIs(items: seq<Revision>, content: string) {
    items != [] && items[|items| - 1].content == content
  }

  /** The document a save writes over `existing`: the next revision appended, then trimmed. */
  function Written(existing: RevisionDoc, meetingId: string, content: string, timestamp: int, maxKeep: int): (d: RevisionDoc)
    ensures d.meetingId == meetingId && d.latestRev == existing.latestRev + 1
  {
    var rev := existing.latestRev + 1;
    RevisionDoc(meetingId, rev, KeepNewest(existing.items + [Revision(meetingId, rev, timestamp, content)], maxKeep))
  }

  /**
   * `saveResultRevision`: the document to write, or `None` when the content
   * equals the newest revision's and nothing is written.
   */
  function SaveRevision(stored: Option<RevisionDoc>, meetingId: string, content: string, timestamp: int, maxKeep: int): (r: Option<RevisionDoc>)
    ensures r.None? <==> LastContentIs(Existing(stored, meetingId).items, content)
    ensures r.Some? ==> r.value.meetingId == meetingId && r.value.latestRev == Existing(stored, meetingId).latestRev + 1
  {
    var existing := Existing(stored, meetingId);
    if LastContentIs(existing.items, content) then None
    else Some(Written(existing, meetingId, content, timestamp, maxKeep))
  }

  /** `loadLatestResult`: the newest revision's content, or `""`. */
  function LoadLatest(stored: Option<RevisionDoc>): (r: string)
    ensures stored.None? || stored.value.items == [] ==> r == ""
    ensures stored.Some? && stored.value.items != [] ==> LastContentIs(stored.value.items, r)
  {
    if stored.Some? && stored.value.items != [] then stored.value.items[|stored.value.items| - 1].content
    else ""
  }

  // ---------------------------------------------------------------------------
  // Properties of a save

  /** Appending the next revision to a well-formed document keeps it well formed. */
  lemma AppendNextWellFormed(d: RevisionDoc, x: Revision)
    requires WellFormed(d) && x.rev == d.latestRev + 1 && x.meetingId == d.meetingId
    ensures WellFormed(RevisionDoc(d.meetingId, x.rev, d.items + [x]))
  {
    var all := d.items + [x];
    forall i, j | 0 <= i < j < |all| ensures all[i].rev < all[j].rev {
      assert all[i] == d.items[i];
      if j < |d.items| {
        assert all[j] == d.items[j];
      }
    }
    forall i | 0 <= i < |all| ensures all[i].rev <= x.rev && all[i].meetingId == d.meetingId {
      if i < |d.items| {
        assert all[i] == d.items[i];
      }
    }
  }

  /** Dropping the oldest revisions keeps a document well formed. */
  lemma SuffixWellFormed(d: RevisionDoc, k: int)
    requires WellFormed(d) && 0 <= k <= |d.items|
    ensures WellFormed(RevisionDoc(d.meetingId, d.latestRev, d.items[k..]))
  {
    var kept := d.items[k..];
    assert forall i :: 0 <= i < |kept| ==> kept[i] == d.items[k + i];
  }

  /** Trimming to the bound keeps a document well formed. */
  lemma KeepNewestWellFormed(d: RevisionDoc, maxKeep: int)
    requires WellFormed(d)
    ensures WellFormed(RevisionDoc(d.meetingId, d.latestRev, KeepNewest(d.items, maxKeep)))
  {
    var kept := KeepNewest(d.items, maxKeep);
    SuffixWellFormed(d, |d.items| - |kept|);
    assert d.items[|d.items| - |kept|..] == kept;
  }

  /** A save keeps every well-formedness condition, whatever the bound. */
  lemma WrittenWellFormed(existing: RevisionDoc, meetingId: string, content: string, timestamp: int, maxKeep: int)
    requires WellFormed(existing) && existing.meetingId == meetingId
    ensures WellFormed(Written(existing, meetingId, content, timestamp, maxKeep))
  {
    var x := Revision(meetingId, existing.latestRev + 1, timestamp, content);
    AppendNextWellFormed(existing, x);
    var full := RevisionDoc(meetingId, x.rev, existing.items + [x]);
    KeepNewestWellFormed(full, maxKeep);
    assert Written(existing, meetingId, content, timestamp, maxKeep)
        == RevisionDoc(full.meetingId, full.latestRev, KeepNewest(full.items, maxKeep));
  }

  /** Whatever was stored (a well-formed document of this meeting, or nothing), what a save writes is well formed. */
  lemma SavePreservesWellFormed(stored: Option<RevisionDoc>, meetingId: string, content: string, timestamp: int, maxKeep: int)
    requires stored.Some? ==> WellFormed(stored.value) && stored.value.meetingId == meetingId
    ensures var r := SaveRevision(stored, meetingId, content, timestamp, maxKeep);
      r.Some? ==> WellFormed(r.value)
  {
    WrittenWellFormed(Existing(stored, meetingId), meetingId, content, timestamp, maxKeep);
  }

  /** Trimming after an append keeps the appended item last, behind the newest of the rest. */
  lemma KeepNewestOfAppend(items: seq<Revision>, x: Revision, maxKeep: int)
    requires maxKeep >= 1
    ensures var k := KeepNewest(items + [x], maxKeep);
      && 1 <= |k| <= maxKeep
      && k[|k| - 1] == x
      && k[..|k| - 1] == items[|items| + 1 - |k|..]
  {
    var all := items + [x];
    var k := KeepNewest(all, maxKeep);
    assert k[..|k| - 1] == all[|all| - |k|..|all| - 1];
    assert all[..|all| - 1] == items;
  }

  /**
   * With a positive bound the written document keeps at most `maxKeep` items:
   * the new revision last, behind the newest of the previous ones.
   */
  lemma WrittenKeepsNewest(existing: RevisionDoc, meetingId: string, content: string, timestamp: int, maxKeep: int)
    requires maxKeep >= 1
    ensures var d := Written(existing, meetingId, content, timestamp, maxKeep);
      && 1 <= |d.items| <= maxKeep
      && d.items[|d.items| - 1] == Revision(meetingId, d.latestRev, timestamp, content)
      && d.items[..|d.items| - 1] == existing.items[|existing.items| + 1 - |d.items|..]
  {
    var x := Revision(meetingId, existing.latestRev + 1, timestamp, content);
    var d := Written(existing, meetingId, content, timestamp, maxKeep);
    assert d == RevisionDoc(meetingId, x.rev, KeepNewest(existing.items + [x], maxKeep));
    KeepNewestOfAppend(existing.items, x, maxKeep);
  }

  /** A bound of zero or less empties the history but still advances `latestRev`. */
  lemma NonPositiveBoundEmpties(existing: RevisionDoc, meetingId: string, content: string, timestamp: int, maxKeep: int)
    requires maxKeep <= 0
    ensures Written(existing, meetingId, content, timestamp, maxKeep).items == []
  {
  }

  /** Round trip: whatever was there, loading after a save of `content` with a positive bound gives `content`. */
  lemma SaveThenLoad(stored: Option<RevisionDoc>, meetingId: string, content: string, timestamp: int, maxKeep: int)
    requires maxKeep >= 1
    ensures var r := SaveRevision(stored, meetingId, content, timestamp, maxKeep);
      LoadLatest(if r.Some? then r else stored) == content
  {
    WrittenKeepsNewest(Existing(stored, meetingId), meetingId, content, timestamp, maxKeep);
  }

  /** Saving the same content twice writes once: the second save is a no-op. */
  lemma SaveIdempotent(stored: Option<RevisionDoc>, meetingId: string, content: string, t1: int, t2: int, maxKeep: int)
    requires maxKeep >= 1
    requires !LastContentIs(Existing(stored, meetingId).items, content)
    ensures SaveRevision(SaveRevision(stored, meetingId, content, t1, maxKeep), meetingId, content, t2, maxKeep).None?
  {
    WrittenKeepsNewest(Existing(stored, meetingId), meetingId, content, t1, maxKeep);
  }

  // ---------------------------------------------------------------------------
  // Listing newest first

  ghost predicate SortedByRevDesc(s: seq<Revision>) {
    forall i, j :: 0 <= i < j < |s| ==> s[i].rev >= s[j].rev
  }

  /** Inserts `x` before the first element whose rev is not bigger, keeping earlier equals first. */
  function InsertByRevDesc(x: Revision, s: seq<Revision>): (r: seq<Revision>)
    ensures multiset(r) == multiset(s) + multiset{x}
    ensures |r| == |s| + 1
  {
    if s == [] || s[0].rev <= x.rev then [x] + s
    else
      assert s == [s[0]] + s[1..];
      [s[0]] + InsertByRevDesc(x, s[1..])
  }

  /** Insertion keeps a descending sequence descending. */
  /** Inserting under a bound every element respects keeps every element under it. */
  lemma {:induction false} InsertBounded(x: Revision, s: seq<Revision>, b: int)
    requires x.rev <= b && forall k :: 0 <= k < |s| ==> s[k].rev <= b
    ensures forall k :: 0 <= k < |InsertByRevDesc(x, s)| ==> InsertByRevDesc(x, s)[k].rev <= b
  {
    var r := InsertByRevDesc(x, s);
    if s == [] || s[0].rev <= x.rev {
      assert r == [x] + s;
      forall k | 0 <= k < |r| ensures r[k].rev <= b {
        if k > 0 {
          assert r[k] == s[k - 1];
        }
      }
    } else {
      var rest := InsertByRevDesc(x, s[1..]);
      assert forall k :: 0 <= k < |s[1..]| ==> s[1..][k] == s[k + 1];
      InsertBounded(x, s[1..], b);
      assert r == [s[0]] + rest;
      forall k | 0 <= k < |r| ensures r[k].rev <= b {
        if k > 0 {
          assert r[k] == rest[k - 1];
        }
      }
    }
  }

  lemma {:induction false} InsertKeepsSorted(x: Revision, s: seq<Revision>)
    requires SortedByRevDesc(s)
    ensures SortedByRevDesc(InsertByRevDesc(x, s))
  {
    var r := InsertByRevDesc(x, s);
    if s != [] && s[0].rev > x.rev {
      var tail := s[1..];
      assert forall k :: 0 <= k < |tail| ==> tail[k] == s[k + 1];
      assert SortedByRevDesc(tail);
      InsertKeepsSorted(x, tail);
      var rest := InsertByRevDesc(x, tail);
      InsertBounded(x, tail, s[0].rev);
      assert r == [s[0]] + rest;
      forall i, j | 0 <= i < j < |r| ensures r[i].rev >= r[j].rev {
        assert r[j] == rest[j - 1];
        if i > 0 {
          assert r[i] == rest[i - 1];
        }
      }
    } else {
      assert r == [x] + s;
      forall i, j | 0 <= i < j < |r| ensures r[i].rev >= r[j].rev {
        assert r[j] == s[j - 1];
        if i > 0 {
          assert r[i] == s[i - 1];
        }
      }
    }
  }

  /**
   * `[...items].sort((a, b) => b.rev - a.rev)`: a stable sort by descending
   * revision number, on a copy.
   */
  function SortByRevDesc(items: seq<Revision>): (r: seq<Revision>)
    ensures SortedByRevDesc(r)
    ensures multiset(r) == multiset(items)
  {
    if items == [] then []
    else
      assert items == [items[0]] + items[1..];
      var rest := SortByRevDesc(items[1..]);
      InsertKeepsSorted(items[0], rest);
      InsertByRevDesc(items[0], rest)
  }

  function Reverse(s: seq<Revision>): (r: seq<Revision>)
    ensures |r| == |s|
    ensures forall i :: 0 <= i < |s| ==> r[i] == s[|s| - 1 - i]
  {
    if s == [] then [] else Reverse(s[1..]) + [s[0]]
  }

  /** Each element already ordered after `x` leaves `x` at the end. */
  lemma {:induction false} InsertSmallestAtEnd(x: Revision, s: seq<Revision>)
    requires forall i :: 0 <= i < |s| ==> s[i].rev > x.rev
    ensures InsertByRevDesc(x, s) == s + [x]
  {
    if s != [] {
      InsertSmallestAtEnd(x, s[1..]);
      assert s == [s[0]] + s[1..];
    }
  }

  /** After the first of strictly increasing revisions, every later one, reversed, is bigger. */
  lemma ReverseOfLaterRevs(items: seq<Revision>)
    requires items != []
    requires forall i, j :: 0 <= i < j < |items| ==> items[i].rev < items[j].rev
    ensures forall i :: 0 <= i < |Reverse(items[1..])| ==> Reverse(items[1..])[i].rev > items[0].rev
  {
    var rest := Reverse(items[1..]);
    forall i | 0 <= i < |rest| ensures rest[i].rev > items[0].rev {
      assert rest[i] == items[1..][|items| - 2 - i] == items[|items| - 1 - i];
    }
  }

  /** On a well-formed document, newest first is exactly the stored order reversed. */
  lemma {:induction false} SortOfIncreasingIsReverse(items: seq<Revision>)
    requires forall i, j :: 0 <= i < j < |items| ==> items[i].rev < items[j].rev
    ensures SortByRevDesc(items) == Reverse(items)
  {
    if items != [] {
      SortOfIncreasingIsReverse(items[1..]);
      var rest := Reverse(items[1..]);
      ReverseOfLaterRevs(items);
      InsertSmallestAtEnd(items[0], rest);
    }
  }

  /** `listRevisions`: the stored items newest first, or `[]` without a document. */
  function ListRevisions(stored: Option<RevisionDoc>): (r: seq<Revision>)
    ensures stored.None? ==> r == []
    ensures stored.Some? ==> multiset(r) == multiset(stored.value.items) && SortedByRevDesc(r)
  {
    if stored.Some? then SortByRevDesc(stored.value.items) else []
  }

  /** The listing of a well-formed document is its items reversed. */
  lemma ListOfWellFormedIsReverse(d: RevisionDoc)
    requires WellFormed(d)
    ensures ListRevisions(Some(d)) == Reverse(d.items)
  {
    SortOfIncreasingIsReverse(d.items);
  }

  // ---------------------------------------------------------------------------
  // The store

  function Lookup(docs: map<string, RevisionDoc>, meetingId: string): Option<RevisionDoc> {
    if meetingId in docs then Some(docs[meetingId]) else None
  }

  /** The revisions object store, keyed by meeting ID; `Date.now()` is a parameter. */
  class RevisionStore {
    var docs: map<string, RevisionDoc>

    ghost predicate Valid()
      reads this
    {
      forall id :: id in docs ==> docs[id].meetingId == id && WellFormed(docs[id])
    }

    constructor()
      ensures Valid() && docs == map[]
    {
      docs := map[];
    }

    method SaveResultRevision(meetingId: string, content: string, now: int, maxKeep: int)
      requires Valid()
      modifies this
      ensures Valid()
      ensures var r := SaveRevision(Lookup(old(docs), meetingId), meetingId, content, now, maxKeep);
        docs == if r.Some? then old(docs)[meetingId := r.value] else old(docs)
    {
      var r := SaveRevision(Lookup(docs, meetingId), meetingId, content, now, maxKeep);
      SavePreservesWellFormed(Lookup(docs, meetingId), meetingId, content, now, maxKeep);
      if r.Some? {
        docs := docs[meetingId := r.value];
      }
    }

    method LoadLatestResult(meetingId: string) returns (content: string)
      ensures content == LoadLatest(Lookup(docs, meetingId))
    {
      content := LoadLatest(Lookup(docs, meetingId));
    }

    method ListRevisionsOf(meetingId: string) returns (revisions: seq<Revision>)
      requires Valid()
      ensures revisions == ListRevisions(Lookup(docs, meetingId))
      ensures meetingId in docs ==> revisions == Reverse(docs[meetingId].items)
      ensures meetingId !in docs ==> revisions == []
    {
      revisions := ListRevisions(Lookup(docs, meetingId));
      if meetingId in docs {
        ListOfWellFormedIsReverse(docs[meetingId]);
      }
    }
  }
}
