/** The review queue for voice notes that could not be matched to a
    business: entries are appended, resolved in place (assigned or
    dismissed), listed and counted; a scorer proposes candidate businesses
    for a note. */
module ReviewQueue {
  import opened Wrappers
  import opened Text
  import Ordering

  /** The note fields copied into a queue entry; any may be absent. */
  datatype NoteData = NoteData(
    hash: Option<string>,
    recordingId: Option<string>,
    timestamp: Option<string>,
    summary: Option<string>,
    transcription: Option<string>,
    bucket: Option<string>)

  /** A visit record as the scorer reads it. */
  datatype Visit = Visit(
    mongoId: Option<string>,
    id: Option<string>,
    businessName: Option<string>,
    address: Option<string>,
    zip: Option<string>,
    ghlUrl: Option<string>)

  /** A proposed match. `visitId` is `visit._id || visit.id`. */
  datatype Candidate = Candidate(
    visitId: Option<string>,
    businessName: string,
    address: Option<string>,
    zip: Option<string>,
    score: int,
    ghlUrl: Option<string>)

  datatype Assignee = Assignee(visitId: string, businessName: string)

  datatype ReviewEntry = ReviewEntry(
    id: string,
    hash: Option<string>,
    recordingId: Option<string>,
    timestamp: Option<string>,
    summary: Option<string>,
    transcription: Option<string>,
    bucket: Option<string>,
    reason: string,
    status: string,
    suggestedMatches: seq<Candidate>,
    assignedTo: Option<Assignee>,
    assignedAt: Option<string>,
    createdAt: string)

  datatype QueueStats = QueueStats(total: nat, pending: nat, assignedCount: nat, dismissed: nat)

  // ---------------------------------------------------------------------
  // Filters and lookups over the entries

  /** The positions of the entries whose status is `st`, in increasing
      order: every such position once, and no other. */
  function StatusIndices(s: seq<ReviewEntry>, st: string): (ix: seq<nat>)
    ensures forall j :: 0 <= j < |ix| ==> ix[j] < |s| && s[ix[j]].status == st
    ensures forall j, k :: 0 <= j < k < |ix| ==> ix[j] < ix[k]
    ensures forall i :: 0 <= i < |s| && s[i].status == st ==> i in ix
  {
    if s == [] then []
    else
      var ix := StatusIndices(s[..|s| - 1], st);
      IndexedSnoc(s, st, ix);
      ix + (if s[|s| - 1].status == st then [|s| - 1] else [])
  }

  /** `ix` lists, in increasing order, exactly the positions of `s` whose
      entry has status `st`. */
  predicate Indexed(s: seq<ReviewEntry>, st: string, ix: seq<nat>) {
    && (forall j :: 0 <= j < |ix| ==> ix[j] < |s| && s[ix[j]].status == st)
    && (forall j, k :: 0 <= j < k < |ix| ==> ix[j] < ix[k])
    && (forall i :: 0 <= i < |s| && s[i].status == st ==> i in ix)
  }

  /** One more entry: its position is appended when it has the status. */
  lemma IndexedSnoc(s: seq<ReviewEntry>, st: string, ix: seq<nat>)
    requires s != [] && Indexed(s[..|s| - 1], st, ix)
    ensures Indexed(s, st, ix + (if s[|s| - 1].status == st then [|s| - 1] else []))
  {
    var front := s[..|s| - 1];
    assert forall j :: 0 <= j < |ix| ==> s[ix[j]] == front[ix[j]];
    assert forall i :: 0 <= i < |front| ==> s[i] == front[i];
  }

  /** `filter` on the status: the entries at `StatusIndices`, in queue order
      and each once. */
  function WithStatus(s: seq<ReviewEntry>, st: string): (r: seq<ReviewEntry>)
    ensures |r| == |StatusIndices(s, st)|
    ensures forall j :: 0 <= j < |r| ==> r[j] == s[StatusIndices(s, st)[j]]
  {
    if s == [] then []
    else
      var front := s[..|s| - 1];
      var r := WithStatus(front, st);
      assert forall j :: 0 <= j < |r| ==> r[j] == s[StatusIndices(front, st)[j]];
      r + (if s[|s| - 1].status == st then [s[|s| - 1]] else [])
  }

  /** Hence the filter keeps exactly the entries with that status. */
  lemma WithStatusMembers(s: seq<ReviewEntry>, st: string)
    ensures |WithStatus(s, st)| <= |s|
    ensures forall k :: 0 <= k < |WithStatus(s, st)| ==> WithStatus(s, st)[k].status == st && WithStatus(s, st)[k] in s
    ensures forall k :: 0 <= k < |s| && s[k].status == st ==> s[k] in WithStatus(s, st)
  {
    var ix := StatusIndices(s, st);
    var r := WithStatus(s, st);
    IncreasingBound(ix, |s|);
    forall k | 0 <= k < |s| && s[k].status == st
      ensures s[k] in r
    {
      var j :| 0 <= j < |ix| && ix[j] == k;
      assert r[j] == s[k];
    }
  }

  /** A strictly increasing list of positions below `n` has at most `n` entries. */
  lemma {:induction false} IncreasingBound(ix: seq<nat>, n: nat)
    requires forall j :: 0 <= j < |ix| ==> ix[j] < n
    requires forall j, k :: 0 <= j < k < |ix| ==> ix[j] < ix[k]
    ensures |ix| <= n
    decreases n
  {
    if ix != [] {
      var last := ix[|ix| - 1];
      IncreasingBound(ix[..|ix| - 1], last);
    }
  }

  /** The statuses the queue itself writes. */
  predicate KnownStatus(st: string) {
    st == "pending" || st == "assigned" || st == "dismissed"
  }

  predicate AllKnown(s: seq<ReviewEntry>) {
    forall k :: 0 <= k < |s| ==> KnownStatus(s[k].status)
  }

  /** With every status one of the three, the three counts add up to the length. */
  lemma {:induction false} CountsSum(s: seq<ReviewEntry>)
    ensures AllKnown(s) ==>
              |WithStatus(s, "pending")| + |WithStatus(s, "assigned")| + |WithStatus(s, "dismissed")| == |s|
  {
    if s != [] {
      var front := s[..|s| - 1];
      CountsSum(front);
      assert AllKnown(s) ==> AllKnown(front);
    }
  }

  lemma {:induction false} WithStatusAppend(a: seq<ReviewEntry>, b: seq<ReviewEntry>, st: string)
    ensures WithStatus(a + b, st) == WithStatus(a, st) + WithStatus(b, st)
    decreases |b|
  {
    if b == [] {
      assert a + b == a;
    } else {
      var front := b[..|b| - 1];
      assert (a + b)[..|a + b| - 1] == a + front;
      assert (a + b)[|a + b| - 1] == b[|b| - 1];
      WithStatusAppend(a, front, st);
    }
  }

  /** Replacing one entry changes each status count by the old and the new status only. */
  lemma {:induction false} CountAfterReplace(s: seq<ReviewEntry>, i: nat, e: ReviewEntry, st: string)
    requires i < |s|
    ensures |WithStatus(s[i := e], st)| ==
            |WithStatus(s, st)| - (if s[i].status == st then 1 else 0) + (if e.status == st then 1 else 0)
    decreases |s|
  {
    var n := |s| - 1;
    if i == n {
      assert s[i := e][..n] == s[..n];
    } else {
      assert s[i := e][..n] == s[..n][i := e];
      CountAfterReplace(s[..n], i, e, st);
    }
  }

  /** The index of the first entry with the given id (`Array.prototype.find`). */
  function FindIndex(s: seq<ReviewEntry>, id: string): (r: Option<nat>)
    ensures r.Some? ==> r.value < |s| && s[r.value].id == id
    ensures r.Some? ==> forall j :: 0 <= j < r.value ==> s[j].id != id
    ensures r.None? <==> forall j :: 0 <= j < |s| ==> s[j].id != id
  {
    if s == [] then None
    else if s[0].id == id then Some(0)
    else match FindIndex(s[1..], id)
      case None => None
      case Some(i) => Some(i + 1)
  }

  // ---------------------------------------------------------------------
  // Entry construction and resolution

  /** The entry `addToReviewQueue` builds; `id` and `now` stand for the
      generated id and the clock. */
  function NewEntry(note: NoteData, reason: string, id: string, now: string): (e: ReviewEntry)
    ensures e.id == id && e.reason == reason && e.createdAt == now
    ensures e.status == "pending" && e.suggestedMatches == []
    ensures e.assignedTo.None? && e.assignedAt.None?
    ensures e.hash == note.hash && e.recordingId == note.recordingId && e.timestamp == note.timestamp
    ensures e.summary == note.summary && e.transcription == note.transcription && e.bucket == note.bucket
  {
    ReviewEntry(id, note.hash, note.recordingId, note.timestamp, note.summary, note.transcription,
                note.bucket, reason, "pending", [], None, None, now)
  }

  /** `assignNote`'s change to an entry: every other field is kept. */
  function Assigned(e: ReviewEntry, visitId: string, businessName: string, now: string): (r: ReviewEntry)
    ensures r.status == "assigned" && r.assignedTo == Some(Assignee(visitId, businessName))
    ensures r.assignedAt == Some(now)
    ensures r.(status := e.status, assignedTo := e.assignedTo, assignedAt := e.assignedAt) == e
  {
    e.(status := "assigned", assignedTo := Some(Assignee(visitId, businessName)), assignedAt := Some(now))
  }

  /** `dismissReview`'s change to an entry: `assignedTo` is left alone. */
  function Dismissed(e: ReviewEntry, now: string): (r: ReviewEntry)
    ensures r.status == "dismissed" && r.assignedAt == Some(now) && r.assignedTo == e.assignedTo
    ensures r.(status := e.status, assignedAt := e.assignedAt) == e
  {
    e.(status := "dismissed", assignedAt := Some(now))
  }

  /** The queue: one list of entries, appended to and updated in place. */
  class Queue {
    var entries: seq<ReviewEntry>

    constructor ()
      ensures entries == []
    {
      entries := [];
    }

    /** `addToReviewQueue`: exactly one pending entry at the end. */
    method Add(note: NoteData, reason: string, id: string, now: string) returns (e: ReviewEntry)
      modifies this
      ensures e == NewEntry(note, reason, id, now)
      ensures entries == old(entries) + [e]
      ensures WithStatus(entries, "pending") == WithStatus(old(entries), "pending") + [e]
      ensures old(AllKnown(entries)) ==> AllKnown(entries)
    {
      e := NewEntry(note, reason, id, now);
      WithStatusAppend(entries, [e], "pending");
      entries := entries + [e];
    }

    /** `getPendingReviews`. */
    function PendingReviews(): (r: seq<ReviewEntry>)
      reads this
      ensures |r| == |StatusIndices(entries, "pending")|
      ensures forall j :: 0 <= j < |r| ==> r[j] == entries[StatusIndices(entries, "pending")[j]]
      ensures forall k :: 0 <= k < |r| ==> r[k].status == "pending" && r[k] in entries
      ensures forall k :: 0 <= k < |entries| && entries[k].status == "pending" ==> entries[k] in r
    {
      WithStatusMembers(entries, "pending");
      WithStatus(entries, "pending")
    }

    /** `getReviewById`: the first entry with that id, or `null`. */
    function GetById(id: string): (r: Option<ReviewEntry>)
      reads this
      ensures r.Some? <==> FindIndex(entries, id).Some?
      ensures r.Some? ==> r == Some(entries[FindIndex(entries, id).value]) && r.value.id == id
      ensures r.Some? ==> forall j :: 0 <= j < |entries| && entries[j].id == id ==> FindIndex(entries, id).value <= j
      ensures r.None? <==> forall j :: 0 <= j < |entries| ==> entries[j].id != id
    {
      match FindIndex(entries, id)
      case None => None
      case Some(i) => Some(entries[i])
    }

    /** `assignNote`: an unknown id changes nothing; otherwise the first entry
        with that id is assigned, whatever its previous status. */
    method Assign(reviewId: string, visitId: string, businessName: string, now: string)
      returns (r: Option<ReviewEntry>)
      modifies this
      ensures FindIndex(old(entries), reviewId).None? ==> r.None? && entries == old(entries)
      ensures FindIndex(old(entries), reviewId).Some? ==>
                var i := FindIndex(old(entries), reviewId).value;
                r == Some(Assigned(old(entries)[i], visitId, businessName, now))
                && entries == old(entries)[i := r.value]
      ensures |entries| == |old(entries)|
      ensures old(AllKnown(entries)) ==> AllKnown(entries)
    {
      var found := FindIndex(entries, reviewId);
      if found.None? {
        return None;
      }
      var i := found.value;
      var e := Assigned(entries[i], visitId, businessName, now);
      entries := entries[i := e];
      r := Some(e);
    }

    /** `dismissReview`: as `Assign`, with status "dismissed". */
    method Dismiss(reviewId: string, now: string) returns (r: Option<ReviewEntry>)
      modifies this
      ensures FindIndex(old(entries), reviewId).None? ==> r.None? && entries == old(entries)
      ensures FindIndex(old(entries), reviewId).Some? ==>
                var i := FindIndex(old(entries), reviewId).value;
                r == Some(Dismissed(old(entries)[i], now))
                && entries == old(entries)[i := r.value]
      ensures |entries| == |old(entries)|
      ensures old(AllKnown(entries)) ==> AllKnown(entries)
    {
      var found := FindIndex(entries, reviewId);
      if found.None? {
        return None;
      }
      var i := found.value;
      var e := Dismissed(entries[i], now);
      entries := entries[i := e];
      r := Some(e);
    }

    /** `getQueueStats`. */
    function Stats(): (r: QueueStats)
      reads this
      ensures r.total == |entries|
      ensures AllKnown(entries) ==> r.pending + r.assignedCount + r.dismissed == r.total
    {
      CountsSum(entries);
      QueueStats(|entries|, |WithStatus(entries, "pending")|,
                 |WithStatus(entries, "assigned")|, |WithStatus(entries, "dismissed")|)
    }
  }

  /** Assigning a pending entry moves one count from pending to assigned. */
  lemma AssignPendingCounts(s: seq<ReviewEntry>, i: nat, visitId: string, businessName: string, now: string)
    requires i < |s| && s[i].status == "pending"
    ensures |WithStatus(s[i := Assigned(s[i], visitId, businessName, now)], "pending")| == |WithStatus(s, "pending")| - 1
    ensures |WithStatus(s[i := Assigned(s[i], visitId, businessName, now)], "assigned")| == |WithStatus(s, "assigned")| + 1
  {
    var e := Assigned(s[i], visitId, businessName, now);
    CountAfterReplace(s, i, e, "pending");
    CountAfterReplace(s, i, e, "assigned");
  }

  /** Dismissing a pending entry moves one count from pending to dismissed. */
  lemma DismissPendingCounts(s: seq<ReviewEntry>, i: nat, now: string)
    requires i < |s| && s[i].status == "pending"
    ensures |WithStatus(s[i := Dismissed(s[i], now)], "pending")| == |WithStatus(s, "pending")| - 1
    ensures |WithStatus(s[i := Dismissed(s[i], now)], "dismissed")| == |WithStatus(s, "dismissed")| + 1
  {
    var e := Dismissed(s[i], now);
    CountAfterReplace(s, i, e, "pending");
    CountAfterReplace(s, i, e, "dismissed");
  }

  // ---------------------------------------------------------------------
  // Match scoring

  /** The lower-cased note text: summary and transcription as a template
      literal writes them. */
  function NoteText(note: NoteData): string {
    Lower(Interp(note.summary) + " " + Interp(note.transcription))
  }

  /** Words of more than three characters of the lower-cased string, split on white space. */
  function LongWords(s: string): seq<string> {
    LongerThan(Tokens(Lower(s), IsJsSpace), 3)
  }

  /** Neither the whole name, nor any long word of it, nor the zip, nor any
      long word of the address occurs in the text. */
  predicate NothingMatches(text: string, v: Visit)
    requires Truthy(v.businessName)
  {
    && !Contains(text, Lower(v.businessName.value))
    && (forall k :: 0 <= k < |LongWords(v.businessName.value)| ==> !Contains(text, LongWords(v.businessName.value)[k]))
    && !(Truthy(v.zip) && Contains(text, v.zip.value))
    && (Truthy(v.address) ==>
          forall k :: 0 <= k < |LongWords(v.address.value)| ==> !Contains(text, LongWords(v.address.value)[k]))
  }

  /** The additive score of one visit with a business name: zero exactly
      when nothing matches, at least 10 when the whole name occurs, and
      bounded by the number of words. */
  function MatchScore(text: string, v: Visit): (score: int)
    requires Truthy(v.businessName)
    ensures 0 <= score
    ensures score <= 13 + 2 * |LongWords(v.businessName.value)|
              + (if Truthy(v.address) then |LongWords(v.address.value)| else 0)
    ensures Contains(text, Lower(v.businessName.value)) ==> score >= 10
    ensures score == 0 <==> NothingMatches(text, v)
  {
    CountInZero(LongWords(v.businessName.value), text);
    if Truthy(v.address) then
      CountInZero(LongWords(v.address.value), text);
      (if Contains(text, Lower(v.businessName.value)) then 10 else 0)
      + 2 * CountIn(LongWords(v.businessName.value), text)
      + (if Truthy(v.zip) && Contains(text, v.zip.value) then 3 else 0)
      + CountIn(LongWords(v.address.value), text)
    else
      (if Contains(text, Lower(v.businessName.value)) then 10 else 0)
      + 2 * CountIn(LongWords(v.businessName.value), text)
      + (if Truthy(v.zip) && Contains(text, v.zip.value) then 3 else 0)
  }

  function CandidateOf(v: Visit, score: int): Candidate
    requires Truthy(v.businessName)
  {
    Candidate(if Truthy(v.mongoId) then v.mongoId else v.id, v.businessName.value, v.address, v.zip, score, v.ghlUrl)
  }

  predicate Scores(text: string, v: Visit) {
    Truthy(v.businessName) && MatchScore(text, v) > 0
  }

  /** The candidates in visit order, before sorting. */
  function Candidates(text: string, visits: seq<Visit>): (r: seq<Candidate>)
    ensures |r| <= |visits|
    ensures forall k :: 0 <= k < |r| ==> r[k].score > 0
  {
    if visits == [] then []
    else
      var rest := Candidates(text, visits[..|visits| - 1]);
      var v := visits[|visits| - 1];
      if Scores(text, v) then rest + [CandidateOf(v, MatchScore(text, v))] else rest
  }

  /** `c` is the candidate built from visit `v`. */
  predicate CandidateAt(text: string, v: Visit, c: Candidate) {
    Scores(text, v) && c == CandidateOf(v, MatchScore(text, v))
  }

  /** A candidate is exactly a visit with a business name and a positive score. */
  lemma {:induction false} CandidatesExactly(text: string, visits: seq<Visit>, c: Candidate)
    ensures c in Candidates(text, visits) <==> exists j :: 0 <= j < |visits| && CandidateAt(text, visits[j], c)
  {
    if visits != [] {
      var init := visits[..|visits| - 1];
      CandidatesExactly(text, init, c);
      if c in Candidates(text, visits) && c !in Candidates(text, init) {
        assert CandidateAt(text, visits[|visits| - 1], c);
      }
      if j :| 0 <= j < |visits| && CandidateAt(text, visits[j], c) {
        if j < |visits| - 1 {
          assert visits[j] == init[j];
        }
      }
    }
  }

  /** Every candidate comes from a visit with a business name and a
      positive score. */
  lemma CandidatesFrom(text: string, visits: seq<Visit>)
    ensures forall c :: c in Candidates(text, visits) ==>
              c.score > 0 && exists j :: 0 <= j < |visits| && Scores(text, visits[j])
                                         && c == CandidateOf(visits[j], MatchScore(text, visits[j]))
  {
    forall c | c in Candidates(text, visits)
      ensures c.score > 0 && exists j :: 0 <= j < |visits| && Scores(text, visits[j])
                                         && c == CandidateOf(visits[j], MatchScore(text, visits[j]))
    {
      CandidatesExactly(text, visits, c);
      var j :| 0 <= j < |visits| && CandidateAt(text, visits[j], c);
    }
  }

  function ScoreOf(c: Candidate): int { c.score }

  /** The candidate list `findPotentialMatches` returns: at most five
      candidates, by non-increasing score, each a visit with a business name
      and a positive score; a candidate left out scores no more than the
      fifth; among equal scores the visit order is kept. */
  function TopMatches(note: NoteData, visits: seq<Visit>): (r: seq<Candidate>)
    ensures |r| <= 5
    ensures Ordering.SortedDesc(r, ScoreOf)
    ensures forall c :: c in r ==>
              c.score > 0 && exists j :: 0 <= j < |visits| && Scores(NoteText(note), visits[j])
                                         && c == CandidateOf(visits[j], MatchScore(NoteText(note), visits[j]))
    ensures forall c :: c in Candidates(NoteText(note), visits) && c !in r ==>
              |r| == 5 && c.score <= r[4].score
    ensures forall k :: Ordering.WithKey(r, ScoreOf, k) <= Ordering.WithKey(Candidates(NoteText(note), visits), ScoreOf, k)
  {
    var cands := Candidates(NoteText(note), visits);
    TopFive(cands);
    CandidatesFrom(NoteText(note), visits);
    Ordering.Prefix(Ordering.SortDesc(cands, ScoreOf), 5)
  }

  /** Computes one visit's score word by word. */
  method ScoreVisit(text: string, v: Visit) returns (score: int)
    requires Truthy(v.businessName)
    ensures score == MatchScore(text, v)
  {
    var biz := Lower(v.businessName.value);
    score := 0;
    if Contains(text, biz) {
      score := score + 10;
    }
    var bizHits := CountOccurring(LongWords(v.businessName.value), text);
    score := score + 2 * bizHits;
    if Truthy(v.zip) && Contains(text, v.zip.value) {
      score := score + 3;
    }
    if Truthy(v.address) {
      var addrHits := CountOccurring(LongWords(v.address.value), text);
      score := score + addrHits;
    }
  }

  /** `findPotentialMatches`. */
  method FindPotentialMatches(note: NoteData, visits: seq<Visit>) returns (r: seq<Candidate>)
    ensures r == TopMatches(note, visits)
  {
    var text := NoteText(note);
    var matches: seq<Candidate> := [];
    for i := 0 to |visits|
      invariant matches == Candidates(text, visits[..i])
    {
      var v := visits[i];
      assert visits[..i + 1][..i] == visits[..i];
      if Truthy(v.businessName) {
        var score := ScoreVisit(text, v);
        if score > 0 {
          matches := matches + [CandidateOf(v, score)];
        }
      }
    }
    assert visits[..|visits|] == visits;
    r := Ordering.Prefix(Ordering.SortDesc(matches, ScoreOf), 5);
  }

  lemma {:induction false} WithKeyPrefix<T>(s: seq<T>, n: nat, key: T -> int, k: int)
    requires n <= |s|
    ensures Ordering.WithKey(s[..n], key, k) <= Ordering.WithKey(s, key, k)
  {
    if n == 0 {
      assert s[..n] == [];
    } else {
      assert s[..n][0] == s[0];
      assert s[..n][1..] == s[1..][..n - 1];
      WithKeyPrefix(s[1..], n - 1, key, k);
    }
  }

  /** The first five of the stable sort: by non-increasing score, each from
      the input, any element left out scoring no more than the last one kept,
      and equal scores in input order. */
  lemma TopFive(cands: seq<Candidate>)
    ensures |Ordering.Prefix(Ordering.SortDesc(cands, ScoreOf), 5)| == if |cands| < 5 then |cands| else 5
    ensures Ordering.SortedDesc(Ordering.Prefix(Ordering.SortDesc(cands, ScoreOf), 5), ScoreOf)
    ensures forall c :: c in Ordering.Prefix(Ordering.SortDesc(cands, ScoreOf), 5) ==> c in cands
    ensures forall c :: c in cands && c !in Ordering.Prefix(Ordering.SortDesc(cands, ScoreOf), 5) ==>
              |Ordering.Prefix(Ordering.SortDesc(cands, ScoreOf), 5)| == 5
              && c.score <= Ordering.Prefix(Ordering.SortDesc(cands, ScoreOf), 5)[4].score
    ensures forall k :: Ordering.WithKey(Ordering.Prefix(Ordering.SortDesc(cands, ScoreOf), 5), ScoreOf, k) <=
              Ordering.WithKey(cands, ScoreOf, k)
  {
    var sorted := Ordering.SortDesc(cands, ScoreOf);
    var r := Ordering.Prefix(sorted, 5);
    Ordering.SortDescFacts(cands, ScoreOf);
    forall c | c in r ensures c in cands {
      assert c in multiset(sorted);
    }
    forall c | c in cands && c !in r ensures |r| == 5 && c.score <= r[4].score {
      assert c in multiset(sorted);
      var j :| 0 <= j < |sorted| && sorted[j] == c;
      assert forall m :: 0 <= m < |r| ==> r[m] != c;
      assert ScoreOf(sorted[4]) >= ScoreOf(sorted[j]);
    }
    forall k ensures Ordering.WithKey(r, ScoreOf, k) <= Ordering.WithKey(cands, ScoreOf, k) {
      WithKeyPrefix(sorted, |r|, ScoreOf, k);
      Ordering.SortDescStable(cands, ScoreOf, k);
    }
  }

}
