/** The content classifier of the voice-memo webhook: explicit keyword tags
    first (prefix of the first line, then suffix of the last line, then
    content patterns over the whole text), and a keyword-counting heuristic
    as the fallback. */
module Classifier {
  import opened Wrappers
  import opened Text
  import opened Regex
  import Ordering

  datatype Bucket = PERSONAL | TTL | COMCAST

  /** The bucket's name as the webhook reports it. */
  function Name(b: Bucket): string {
    match b
    case PERSONAL => "PERSONAL"
    case TTL => "TTL"
    case COMCAST => "COMCAST"
  }

  /** Declaration order of the keyword table, which is the order in which
      every phase tries the buckets. */
  function Rank(b: Bucket): nat {
    match b
    case PERSONAL => 0
    case TTL => 1
    case COMCAST => 2
  }

  const Buckets: seq<Bucket> := [PERSONAL, TTL, COMCAST]

  /** The anchored words of the prefix patterns (`^WORD`, case-insensitive).
      The words of every case-insensitive pattern are written here in lower
      case and compared with the lower-cased text, which is the same test. */
  function Prefixes(b: Bucket): seq<string> {
    match b
    case PERSONAL => ["personal", "life", "home", "family", "private", "me", "my"]
    case TTL => ["ttl", "traffic", "client", "trina", "business", "work"]
    case COMCAST => ["comcast", "sales", "territory", "prospect", "business", "b2b"]
  }

  /** The anchored words of the suffix patterns (`WORD$`, case-insensitive). */
  function Suffixes(b: Bucket): seq<string> {
    match b
    case PERSONAL => ["personal", "life", "home", "family", "private"]
    case TTL => ["ttl", "traffic", "client", "work", "business"]
    case COMCAST => ["comcast", "sales", "territory", "prospect"]
  }

  /** The content patterns, in declaration order. */
  function ContentPatterns(b: Bucket): seq<Pattern> {
    match b
    case PERSONAL => [
      Words(["remind me to", "remember to", "don't forget", "call my", "text my"], true),
      Words(["birthday", "anniversary", "wedding", "party", "dinner", "lunch"], true),
      Words(["grocery", "shopping", "buy", "pick up", "get from"], true),
      Words(["dentist", "doctor", "appointment", "checkup"], true),
      Words(["kid", "kids", "children", "wife", "husband", "spouse", "partner", "mom", "dad"], true),
      Opaque("\\b(personal|life|home|family)\\s+(task|note|reminder)\\b"),
      Words(["wedding", "vacation", "trip", "travel", "hotel", "flight"], true),
      Words(["bank account", "credit card", "bill pay", "mortgage", "rent"], true)]
    case TTL => [
      Words(["the traffic link", "traffic link", "ttl"], true),
      Words(["client", "project", "campaign", "email", "marketing", "lead"], true),
      Words(["trina", "fallardo", "consulting", "consultant"], true),
      Words(["ghl", "go high level", "highlevel", "crm"], true),
      Words(["proposal", "contract", "invoice", "payment", "billing"], true),
      Words(["cold email", "warmup", "deliverability", "domain"], true),
      Words(["subaccount", "sub-account", "location", "agency"], true),
      Words(["website", "funnel", "landing page", "optin", "opt-in"], true)]
    case COMCAST => [
      Words(["comcast", "xfinity", "cable", "internet", "triple play"], true),
      Words(["territory", "zip", "zipcode", "area", "zone", "route"], true),
      Words(["prospect", "lead", "business", "owner", "manager", "decision maker"], true),
      Words(["visit", "door knock", "walkin", "walk-in", "cold call", "followup", "follow-up"], true),
      Words(["business card", "card scan", "ocr", "extracted"], true),
      Words(["gigabit", "business internet", "voice", "tv", "phone service"], true),
      Words(["contract", "install", "installation", "tech", "technician"], true),
      Words(["tacoma", "puyallup", "federal way", "auburn", "kent"], true)]
  }

  datatype Phase = PrefixPhase | SuffixPhase | ContentPhase

  /** Some pattern of bucket `b` for this phase matches `s`. */
  predicate Hit(eng: Engine, b: Bucket, phase: Phase, s: string) {
    match phase
    case PrefixPhase => PrefixHit(b, s)
    case SuffixPhase => SuffixHit(b, s)
    case ContentPhase => ContentHit(eng, b, s)
  }

  predicate PrefixHit(b: Bucket, s: string) {
    exists k | 0 <= k < |Prefixes(b)| :: StartsWith(Lower(s), Prefixes(b)[k])
  }

  predicate SuffixHit(b: Bucket, s: string) {
    exists k | 0 <= k < |Suffixes(b)| :: EndsWith(Lower(s), Suffixes(b)[k])
  }

  predicate ContentHit(eng: Engine, b: Bucket, s: string) {
    exists k | 0 <= k < |ContentPatterns(b)| :: Test(eng, ContentPatterns(b)[k], s)
  }

  /** No bucket has a hit in this phase. */
  predicate NoHit(eng: Engine, phase: Phase, s: string) {
    forall b :: !Hit(eng, b, phase, s)
  }

  /** `b` has a hit in this phase and no bucket declared before it has one. */
  predicate FirstHit(eng: Engine, phase: Phase, s: string, b: Bucket) {
    Hit(eng, b, phase, s) && forall x :: Rank(x) < Rank(b) ==> !Hit(eng, x, phase, s)
  }

  /** One phase: the first bucket, in declaration order, with a hit. It
      finds nothing exactly when no bucket has a hit. */
  function ScanPhase(eng: Engine, phase: Phase, s: string): (r: Option<Bucket>)
    ensures r.None? <==> NoHit(eng, phase, s)
    ensures r.Some? ==> FirstHit(eng, phase, s, r.value)
  {
    if Hit(eng, PERSONAL, phase, s) then Some(PERSONAL)
    else if Hit(eng, TTL, phase, s) then Some(TTL)
    else if Hit(eng, COMCAST, phase, s) then Some(COMCAST)
    else None
  }

  /** The text before the first newline (`split('\n')[0]`). */
  function FirstLine(s: string): (r: string)
    ensures StartsWith(s, r) && '\n' !in r
    ensures |r| == |s| || s[|r|] == '\n'
  {
    if s == [] || s[0] == '\n' then [] else [s[0]] + FirstLine(s[1..])
  }

  /** The text after the last newline (`split('\n').pop()`). */
  function LastLine(s: string): (r: string)
    ensures EndsWith(s, r) && '\n' !in r
    ensures |r| == |s| || s[|s| - |r| - 1] == '\n'
  {
    if s == [] || s[|s| - 1] == '\n' then [] else LastLine(s[..|s| - 1]) + [s[|s| - 1]]
  }

  /** For one-line input the first and the last line are the whole input. */
  lemma OneLine(s: string)
    requires '\n' !in s
    ensures FirstLine(s) == s && LastLine(s) == s
  {
  }

  /** The lines the prefix and suffix phases look at, and the text the
      content phase looks at. */
  function Normalized(text: string): string { Trim(text) }
  function FirstLineOf(text: string): string { Trim(FirstLine(Trim(text))) }
  function LastLineOf(text: string): string { Trim(LastLine(Trim(text))) }

  /** `checkKeywords`: three phases, each a first-match search over the
      buckets; `None` is JavaScript's `null`. The phases decide in order: a
      prefix hit on the first line, whatever else matches; otherwise a
      suffix hit on the last line; otherwise the content patterns. `null`
      comes only when no pattern of any phase matches. */
  function CheckKeywords(eng: Engine, text: string): (r: Option<Bucket>)
    ensures !NoHit(eng, PrefixPhase, FirstLineOf(text)) ==>
              r.Some? && FirstHit(eng, PrefixPhase, FirstLineOf(text), r.value)
    ensures NoHit(eng, PrefixPhase, FirstLineOf(text)) && !NoHit(eng, SuffixPhase, LastLineOf(text)) ==>
              r.Some? && FirstHit(eng, SuffixPhase, LastLineOf(text), r.value)
    ensures NoHit(eng, PrefixPhase, FirstLineOf(text)) && NoHit(eng, SuffixPhase, LastLineOf(text)) ==>
              (r.Some? <==> !NoHit(eng, ContentPhase, Normalized(text)))
              && (r.Some? ==> FirstHit(eng, ContentPhase, Normalized(text), r.value))
    ensures r.None? <==>
              NoHit(eng, PrefixPhase, FirstLineOf(text)) && NoHit(eng, SuffixPhase, LastLineOf(text))
              && NoHit(eng, ContentPhase, Normalized(text))
  {
    var p := ScanPhase(eng, PrefixPhase, FirstLineOf(text));
    if p.Some? then p
    else
      var q := ScanPhase(eng, SuffixPhase, LastLineOf(text));
      if q.Some? then q
      else ScanPhase(eng, ContentPhase, Normalized(text))
  }

  /** A first line beginning "business" in any case is tagged TTL, although
      COMCAST lists the same prefix: TTL is declared first. */
  lemma BusinessPrefixIsTtl(eng: Engine, text: string)
    requires StartsWith(Lower(FirstLineOf(text)), "business")
    ensures CheckKeywords(eng, text) == Some(TTL)
  {
    var line := Lower(FirstLineOf(text));
    assert line[..8] == "business";
    forall k | 0 <= k < |Prefixes(PERSONAL)|
      ensures !StartsWith(line, Prefixes(PERSONAL)[k])
    {
      DifferentFirstChar(line, Prefixes(PERSONAL)[k]);
    }
    assert StartsWith(line, Prefixes(TTL)[4]);
    assert PrefixHit(TTL, FirstLineOf(text));
  }

  /** A string does not start with a word whose first letter differs from
      its own. */
  lemma DifferentFirstChar(s: string, w: string)
    requires s != [] && w != [] && s[0] != w[0]
    ensures !StartsWith(s, w)
  {
  }

  /** No word boundary follows the prefix: any first line beginning "me" or
      "my" in any case ("Meeting with the client") is tagged PERSONAL. */
  lemma MePrefixIsPersonal(eng: Engine, text: string)
    requires StartsWith(Lower(FirstLineOf(text)), "me") || StartsWith(Lower(FirstLineOf(text)), "my")
    ensures CheckKeywords(eng, text) == Some(PERSONAL)
  {
    var line := Lower(FirstLineOf(text));
    assert StartsWith(line, Prefixes(PERSONAL)[5]) || StartsWith(line, Prefixes(PERSONAL)[6]);
    assert PrefixHit(PERSONAL, FirstLineOf(text));
  }

  // ---- Fallback heuristic ----

  /** The indicator words of each bucket, counted as plain substrings. */
  function Indicators(b: Bucket): seq<string> {
    match b
    case PERSONAL => ["remind", "remember", "forget", "family", "home", "wife", "kids",
                      "appointment", "doctor", "dentist", "grocery", "shopping", "birthday",
                      "party", "dinner", "personal", "my", "i need to", "call my", "text my"]
    case TTL => ["client", "trina", "traffic link", "consulting", "campaign", "marketing",
                 "ghl", "crm", "project", "proposal", "contract", "invoice", "business"]
    case COMCAST => ["comcast", "xfinity", "territory", "zip", "prospect", "visit", "door",
                     "business card", "install", "internet", "cable", "gigabit", "sales"]
  }

  function BucketScore(b: Bucket, text: string): nat {
    CountIn(Indicators(b), text)
  }

  /** Each score is bounded by the length of its word list. */
  lemma ScoreBounds(text: string)
    ensures BucketScore(PERSONAL, text) <= 20
    ensures BucketScore(TTL, text) <= 13
    ensures BucketScore(COMCAST, text) <= 13
  {
  }

  /** The fallback's choice: a bucket with the highest score, the earliest in
      declaration order among equals; with all scores zero that is PERSONAL. */
  predicate IsFallbackWinner(b: Bucket, text: string) {
    (forall x :: BucketScore(x, text) <= BucketScore(b, text))
    && (forall x :: Rank(x) < Rank(b) ==> BucketScore(x, text) < BucketScore(b, text))
  }

  /** The fallback's choice is determined by the scores. */
  lemma FallbackWinnerUnique(b1: Bucket, b2: Bucket, text: string)
    requires IsFallbackWinner(b1, text) && IsFallbackWinner(b2, text)
    ensures b1 == b2
  {
    assert BucketScore(b1, text) == BucketScore(b2, text);
    assert Rank(b1) == Rank(b2);
  }

  /** With no indicator word anywhere, the fallback chooses PERSONAL. */
  lemma FallbackDefault(text: string)
    requires forall x :: BucketScore(x, text) == 0
    ensures IsFallbackWinner(PERSONAL, text)
  {
  }

  /** The text the fallback counts in: summary and transcription interpolated
      (an absent field reads "undefined"), lower-cased. */
  function FallbackText(summary: Option<string>, transcription: Option<string>): string {
    Lower(Interp(summary) + " " + Interp(transcription))
  }

  function Tally(e: (Bucket, int)): int { e.1 }

  /** `classifyWithAI`: count the indicator words, sort the three
      (bucket, score) entries by score with a stable sort, take the first;
      a zero top score gives PERSONAL. */
  method ClassifyWithAI(summary: Option<string>, transcription: Option<string>) returns (b: Bucket)
    ensures IsFallbackWinner(b, FallbackText(summary, transcription))
  {
    var text := FallbackText(summary, transcription);
    var personal := CountOccurring(Indicators(PERSONAL), text);
    var ttl := CountOccurring(Indicators(TTL), text);
    var comcast := CountOccurring(Indicators(COMCAST), text);
    var entries: seq<(Bucket, int)> := [(PERSONAL, personal), (TTL, ttl), (COMCAST, comcast)];
    assert forall i :: 0 <= i < 3 ==> entries[i] == (BucketAt(i), BucketScore(BucketAt(i), text));
    WinnerFromSort(entries, text);
    var winner := Ordering.SortDesc(entries, Tally)[0];
    if winner.1 == 0 {
      FallbackDefault(text);
      b := PERSONAL;
    } else {
      b := winner.0;
    }
  }

  /** The bucket declared at position `i`. */
  function BucketAt(i: nat): (b: Bucket)
    requires i < 3
    ensures Rank(b) == i
  {
    if i == 0 then PERSONAL else if i == 1 then TTL else COMCAST
  }

  /** The first entry of the stable sort is the earliest entry with the top score. */
  lemma WinnerFromSort(entries: seq<(Bucket, int)>, text: string)
    requires |entries| == 3
    requires forall i :: 0 <= i < 3 ==> entries[i] == (BucketAt(i), BucketScore(BucketAt(i), text))
    ensures |Ordering.SortDesc(entries, Tally)| == 3
    ensures IsFallbackWinner(Ordering.SortDesc(entries, Tally)[0].0, text)
  {
    Ordering.SortDescFacts(entries, Tally);
    var i := Ordering.SortDescHead(entries, Tally);
    var b := entries[i].0;
    forall x ensures BucketScore(x, text) <= BucketScore(b, text) {
      assert BucketAt(Rank(x)) == x;
      assert Tally(entries[Rank(x)]) <= Tally(entries[i]);
    }
    forall x | Rank(x) < Rank(b) ensures BucketScore(x, text) < BucketScore(b, text) {
      assert BucketAt(Rank(x)) == x;
      assert Tally(entries[Rank(x)]) < Tally(entries[i]);
    }
  }

  /** Every bucket's name is valid. */
  lemma NameValid(b: Bucket)
    ensures IsValidBucket(Name(b))
  {
  }

  /** `isValidBucket`: exactly the three bucket names are valid. */
  predicate IsValidBucket(s: string)
    ensures IsValidBucket(s) <==> exists b :: Name(b) == s
  {
    assert Name(PERSONAL) == "PERSONAL" && Name(TTL) == "TTL" && Name(COMCAST) == "COMCAST";
    s == "PERSONAL" || s == "TTL" || s == "COMCAST"
  }

  /** The text the keyword phases look at: summary and transcription with an
      absent one read as empty. */
  function CombinedText(summary: Option<string>, transcription: Option<string>): string {
    Or(summary, "") + " " + Or(transcription, "")
  }

  /** `classifyContent`: the keyword result when there is one, the fallback
      otherwise. The result is always a valid bucket name. */
  method ClassifyContent(eng: Engine, summary: Option<string>, transcription: Option<string>)
    returns (name: string)
    ensures IsValidBucket(name)
    ensures CheckKeywords(eng, CombinedText(summary, transcription)).Some? ==>
              name == Name(CheckKeywords(eng, CombinedText(summary, transcription)).value)
    ensures CheckKeywords(eng, CombinedText(summary, transcription)).None? ==>
              exists b :: name == Name(b) && IsFallbackWinner(b, FallbackText(summary, transcription))
  {
    var keyword := CheckKeywords(eng, CombinedText(summary, transcription));
    if keyword.Some? {
      name := Name(keyword.value);
      NameValid(keyword.value);
      return;
    }
    var b := ClassifyWithAI(summary, transcription);
    name := Name(b);
    NameValid(b);
  }
}
