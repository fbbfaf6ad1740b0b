/** Short note hashes and the in-memory note index: a map from hash to note
    metadata that remembers the order in which hashes were first stored, as
    a JavaScript `Map` does. */
module HashUtil {
  import opened Wrappers
  import opened Text
  import Ordering

  predicate IsHexDigit(c: char) {
    '0' <= c <= '9' || 'a' <= c <= 'f'
  }

  /** What the SHA-256 hex digest promises: 64 lower-case hex digits. */
  predicate IsHexDigest(d: string) {
    |d| == 64 && forall i :: 0 <= i < |d| ==> IsHexDigit(d[i])
  }

  /** `generateHash`: "p-" and the first seven hex digits of the digest of
      "<recordingId>-<timestamp>". The digest is a parameter. */
  function GenerateHash(recordingId: Option<string>, timestamp: Option<string>, digest: string -> string): (r: string)
    requires forall s :: IsHexDigest(digest(s))
    ensures |r| == 9 && r[..2] == "p-"
    ensures var d := digest(Interp(recordingId) + "-" + Interp(timestamp)); |d| == 64 && r[2..] == d[..7]
    ensures forall i :: 2 <= i < 9 ==> IsHexDigit(r[i])
  {
    var d := digest(Interp(recordingId) + "-" + Interp(timestamp));
    assert IsHexDigest(d);
    "p-" + d[..7]
  }

  /** One note's metadata. `timestamp` is the note's time as a time value. */
  datatype IndexEntry = IndexEntry(
    hash: string,
    recordingId: Option<string>,
    timestamp: int,
    bucket: string,
    filePath: string,
    summary: string,
    createdAt: string)

  /** The fields of the note data that `storeNoteIndex` reads. */
  datatype NoteData = NoteData(recordingId: Option<string>, timestamp: int, summary: Option<string>)

  /** The entry `storeNoteIndex` builds; `now` stands for the clock. */
  function NewIndexEntry(hash: string, data: NoteData, bucket: string, filePath: string, now: string): (e: IndexEntry)
    ensures e.hash == hash && e.recordingId == data.recordingId && e.timestamp == data.timestamp
    ensures e.bucket == bucket && e.filePath == filePath && e.createdAt == now
    ensures |e.summary| <= 200
    ensures data.summary.None? ==> e.summary == ""
    ensures data.summary.Some? ==> StartsWith(data.summary.value, e.summary)
    ensures data.summary.Some? && |data.summary.value| <= 200 ==> e.summary == data.summary.value
    ensures data.summary.Some? && |data.summary.value| > 200 ==> e.summary == data.summary.value[..200]
  {
    var summary := match data.summary
      case Some(s) => Take(s, 200)
      case None => "";
    IndexEntry(hash, data.recordingId, data.timestamp, bucket, filePath, summary, now)
  }

  predicate NoDup(s: seq<string>) {
    forall i, j :: 0 <= i < j < |s| ==> s[i] != s[j]
  }

  /** A duplicate-free list has as many elements as its set. */
  lemma {:induction false} NoDupCard(s: seq<string>)
    requires NoDup(s)
    ensures |set h | h in s| == |s|
  {
    if s != [] {
      var init := s[..|s| - 1];
      NoDupCard(init);
      assert (set h | h in s) == (set h | h in init) + {s[|s| - 1]};
      assert s[|s| - 1] !in (set h | h in init);
    }
  }

  /** The entries of `notes` in the order of `order`. */
  function Listing(order: seq<string>, notes: map<string, IndexEntry>): (r: seq<IndexEntry>)
    requires forall h :: h in order ==> h in notes
    ensures |r| == |order|
    ensures forall i :: 0 <= i < |order| ==> r[i] == notes[order[i]]
  {
    if order == [] then []
    else Listing(order[..|order| - 1], notes) + [notes[order[|order| - 1]]]
  }

  /** The bucket filter: an absent or empty filter lets every entry through. */
  predicate InBucket(e: IndexEntry, bucket: Option<string>) {
    !Truthy(bucket) || e.bucket == bucket.value
  }

  /** The keyword filter on an already lower-cased query. */
  predicate MatchesQuery(e: IndexEntry, q: string) {
    Contains(Lower(e.summary), q) || (e.recordingId.Some? && Contains(Lower(e.recordingId.value), q))
  }

  /** The entries that pass the bucket filter, in order. */
  function InBucketOf(es: seq<IndexEntry>, bucket: Option<string>): seq<IndexEntry> {
    if es == [] then []
    else InBucketOf(es[..|es| - 1], bucket) + (if InBucket(es[|es| - 1], bucket) then [es[|es| - 1]] else [])
  }

  /** The bucket filter keeps exactly the entries in the bucket, and keeps
      everything when no bucket is given. */
  lemma {:induction false} InBucketOfFacts(es: seq<IndexEntry>, bucket: Option<string>)
    ensures |InBucketOf(es, bucket)| <= |es|
    ensures forall e :: e in InBucketOf(es, bucket) <==> e in es && InBucket(e, bucket)
    ensures !Truthy(bucket) ==> InBucketOf(es, bucket) == es
  {
    if es != [] {
      var init := es[..|es| - 1];
      InBucketOfFacts(init, bucket);
      assert es == init + [es[|es| - 1]];
    }
  }

  /** The entries that pass both filters, in order. */
  function SearchHits(es: seq<IndexEntry>, q: string, bucket: Option<string>): seq<IndexEntry> {
    if es == [] then []
    else
      var last := es[|es| - 1];
      SearchHits(es[..|es| - 1], q, bucket) + (if InBucket(last, bucket) && MatchesQuery(last, q) then [last] else [])
  }

  /** The search keeps exactly the entries that pass both filters. */
  lemma {:induction false} SearchHitsFacts(es: seq<IndexEntry>, q: string, bucket: Option<string>)
    ensures |SearchHits(es, q, bucket)| <= |es|
    ensures forall e :: e in SearchHits(es, q, bucket) <==> e in es && InBucket(e, bucket) && MatchesQuery(e, q)
  {
    if es != [] {
      var init := es[..|es| - 1];
      SearchHitsFacts(init, q, bucket);
      assert es == init + [es[|es| - 1]];
    }
  }

  function TimeOf(e: IndexEntry): int { e.timestamp }

  /** The limit `getRecentNotes` uses when the caller gives none. */
  const DefaultRecentLimit := 10

  /** JavaScript's `slice(0, n)`, a negative `n` counting from the end. */
  function SliceTo<T>(s: seq<T>, n: int): (r: seq<T>)
    ensures r <= s
    ensures n >= 0 ==> |r| == if |s| < n then |s| else n
    ensures n < 0 ==> |r| == if |s| + n < 0 then 0 else |s| + n
  {
    if n >= 0 then Ordering.Prefix(s, n)
    else if |s| + n < 0 then []
    else s[..|s| + n]
  }

  /** The newest first: a stable sort of the selected entries. */
  lemma NewestFirst(es: seq<IndexEntry>)
    ensures Ordering.SortedDesc(Ordering.SortDesc(es, TimeOf), TimeOf)
    ensures multiset(Ordering.SortDesc(es, TimeOf)) == multiset(es)
    ensures |Ordering.SortDesc(es, TimeOf)| == |es|
  {
    Ordering.SortDescFacts(es, TimeOf);
  }

  /** The note index. `order` lists the keys in first-insertion order. */
  class NoteIndex {
    var order: seq<string>
    var notes: map<string, IndexEntry>

    ghost predicate Valid()
      reads this
    {
      (forall h :: h in order <==> h in notes) && NoDup(order)
    }

    constructor ()
      ensures Valid() && order == [] && notes == map[]
    {
      order := [];
      notes := map[];
    }

    /** The entries in iteration order. */
    function Entries(): (r: seq<IndexEntry>)
      reads this
      requires Valid()
      ensures |r| == |notes|
      ensures forall h :: h in notes ==> notes[h] in r
      ensures forall k :: 0 <= k < |r| ==> exists h :: h in notes && r[k] == notes[h]
    {
      NoDupCard(order);
      assert notes.Keys == set h | h in order;
      var r := Listing(order, notes);
      assert forall h :: h in notes ==> exists i :: 0 <= i < |order| && order[i] == h;
      r
    }

    /** `storeNoteIndex`: sets the entry under `hash`, overwriting any old one
        in place; a new hash goes last in iteration order. */
    method Store(hash: string, data: NoteData, bucket: string, filePath: string, now: string)
      returns (e: IndexEntry)
      requires Valid()
      modifies this
      ensures Valid()
      ensures e == NewIndexEntry(hash, data, bucket, filePath, now) && e.hash == hash
      ensures notes == old(notes)[hash := e]
      ensures order == if hash in old(notes) then old(order) else old(order) + [hash]
      ensures forall h :: h != hash && h in old(notes) ==> h in notes && notes[h] == old(notes)[h]
      ensures |notes| == if hash in old(notes) then |old(notes)| else |old(notes)| + 1
    {
      e := NewIndexEntry(hash, data, bucket, filePath, now);
      if hash !in notes {
        order := order + [hash];
      }
      notes := notes[hash := e];
    }

    /** `getNoteByHash`. */
    function Get(hash: string): (r: Option<IndexEntry>)
      reads this
      ensures r.Some? <==> hash in notes
      ensures r.Some? ==> r.value == notes[hash]
    {
      if hash in notes then Some(notes[hash]) else None
    }

    /** `searchNotes`: the entries in the bucket (when one is given) whose
        summary or recording id contains the query, in any case; newest first. */
    method Search(query: string, bucket: Option<string>) returns (r: seq<IndexEntry>)
      requires Valid()
      ensures r == Ordering.SortDesc(SearchHits(Entries(), Lower(query), bucket), TimeOf)
    {
      var q := Lower(query);
      var results: seq<IndexEntry> := [];
      var es := Listing(order, notes);
      for i := 0 to |order|
        invariant results == SearchHits(es[..i], q, bucket)
      {
        assert es[..i + 1][..i] == es[..i];
        var info := notes[order[i]];
        if InBucket(info, bucket) && MatchesQuery(info, q) {
          results := results + [info];
        }
      }
      assert es[..|order|] == es;
      r := Ordering.SortDesc(results, TimeOf);
    }

    /** `getRecentNotes`: the first `limit` entries in the bucket, newest first. */
    method Recent(limit: int, bucket: Option<string>) returns (r: seq<IndexEntry>)
      requires Valid()
      ensures r == SliceTo(Ordering.SortDesc(InBucketOf(Entries(), bucket), TimeOf), limit)
    {
      var selected: seq<IndexEntry> := [];
      var es := Listing(order, notes);
      for i := 0 to |order|
        invariant selected == InBucketOf(es[..i], bucket)
      {
        assert es[..i + 1][..i] == es[..i];
        var info := notes[order[i]];
        if InBucket(info, bucket) {
          selected := selected + [info];
        }
      }
      assert es[..|order|] == es;
      r := SliceTo(Ordering.SortDesc(selected, TimeOf), limit);
    }

    /** `getRecentNotes()` called without a limit takes the ten newest. */
    method RecentDefault(bucket: Option<string>) returns (r: seq<IndexEntry>)
      requires Valid()
      ensures r == SliceTo(Ordering.SortDesc(InBucketOf(Entries(), bucket), TimeOf), DefaultRecentLimit)
      ensures |r| <= DefaultRecentLimit
    {
      r := Recent(DefaultRecentLimit, bucket);
    }
  }

  /** The search result is newest first and holds exactly the matching
      entries of the index. */
  lemma SearchFacts(es: seq<IndexEntry>, q: string, bucket: Option<string>)
    ensures Ordering.SortedDesc(Ordering.SortDesc(SearchHits(es, q, bucket), TimeOf), TimeOf)
    ensures forall e :: e in Ordering.SortDesc(SearchHits(es, q, bucket), TimeOf) <==>
              e in es && InBucket(e, bucket) && MatchesQuery(e, q)
  {
    var hits := SearchHits(es, q, bucket);
    SearchHitsFacts(es, q, bucket);
    NewestFirst(hits);
    forall e ensures e in Ordering.SortDesc(hits, TimeOf) <==> e in hits {
      assert e in Ordering.SortDesc(hits, TimeOf) <==> e in multiset(Ordering.SortDesc(hits, TimeOf));
    }
  }

  /** The recent list is newest first, holds at most `limit` entries of the
      bucket, and without a bucket filter holds min(limit, index size) of them. */
  lemma RecentFacts(es: seq<IndexEntry>, limit: nat, bucket: Option<string>)
    ensures Ordering.SortedDesc(SliceTo(Ordering.SortDesc(InBucketOf(es, bucket), TimeOf), limit), TimeOf)
    ensures |SliceTo(Ordering.SortDesc(InBucketOf(es, bucket), TimeOf), limit)| <= limit
    ensures forall e :: e in SliceTo(Ordering.SortDesc(InBucketOf(es, bucket), TimeOf), limit) ==>
              e in es && InBucket(e, bucket)
    ensures !Truthy(bucket) ==>
              |SliceTo(Ordering.SortDesc(InBucketOf(es, bucket), TimeOf), limit)| == if |es| < limit then |es| else limit
  {
    var sel := InBucketOf(es, bucket);
    var sorted := Ordering.SortDesc(sel, TimeOf);
    var r := SliceTo(sorted, limit);
    InBucketOfFacts(es, bucket);
    NewestFirst(sel);
    assert r == sorted[..|r|];
    forall e | e in r ensures e in es && InBucket(e, bucket) {
      assert e in multiset(sorted);
    }
  }
}
