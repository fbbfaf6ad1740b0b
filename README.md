# Voice-memo routing and field-sales records, modelled in Dafny

This project models the decision logic of a small personal-assistant system:

- **The voice-memo webhook.** It classifies each recorded memo into one of three buckets (PERSONAL, TTL, COMCAST) and hands it to that bucket's handler:
  - PERSONAL escapes text for AppleScript, extracts reminder phrases and composes a reminder and an iMessage;
  - TTL decides whether a memo is actionable, whose it is and when its task is due, then searches the CRM, adds a note and creates a task;
  - COMCAST detects packages, interest, business name and address, then updates the matching CRM contact and creates a follow-up task.
- **The review queue.** Notes that could not be matched to a business wait here. A scorer proposes candidate businesses for each.
- **The note index.** Short hashes map to note metadata.
- **The call webhook.** It turns a call payload into a chat message.
- **The SMS bridge.** It splits an assistant's replies into SMS chunks and decides when to reply.
- **Two business-card scripts.** They find missing card fields and build the visit record.
- **The model router.** It picks a model for a task from keywords.
- **The visits-to-CRM sync.** It builds contact records from stored visits and tallies a sync of every pending visit.

Each source file is one module. The shared modules are:

- `Text`: string helpers;
- `Wrappers`: optional values;
- `Regex`: the regular-expression model;
- `Ordering`: the stable descending sort used by the scorers and listings.

Code that updates state in place is modelled as classes:

- `ReviewQueue.Queue`: the review queue;
- `HashUtil.NoteIndex`: the note index;
- `GhlSync.GhlComcastSync`: the visits table and sync log.

Handlers whose control flow is a sequence of effectful steps are methods. Everything external enters as a parameter:

- database and CRM answers;
- the regular-expression engine for patterns that are not plain word alternations;
- digests, clocks and generated ids.

## Model

| member | source | states |
|---|---|---|
| Text.CountIn | plaud-webhook/classifier.js:181-183 | a count of listed words found in a text never exceeds the number of listed words |
| Text.CountInAppend | skills/model-router/model_router.py:29 | counts add up over concatenated word lists |
| Text.CountInZero | plaud-webhook/review-queue.js:76-92 | the count is zero iff no listed word occurs in the text |
| Text.CountOccurring | plaud-webhook/review-queue.js:76-80 | the counting loop yields the number of listed words that occur in the text, repeats included |
| Ordering.SortDescFacts | plaud-webhook/review-queue.js:108 | the descending sort by key returns a permutation of its input, ordered by non-increasing key |
| Ordering.SortDescStable | plaud-webhook/hash-util.js:90 | the sort is stable: elements with equal keys keep their input order |
| Ordering.SortDescHead | plaud-webhook/classifier.js:200 | the first element after sorting is the earliest element with the largest key |
| Regex.WordsTest | plaud-webhook/classifier.js:36-43 | a word-boundary alternation pattern (`\b(...)\b`) matches a text iff one of its alternatives occurs there between two word boundaries, compared case-insensitively under the `i` flag |
| Classifier.ScanPhase | plaud-webhook/classifier.js:112-119 | one phase gives null exactly when no bucket has a matching pattern; otherwise it gives a bucket that matches and no bucket tried before it (PERSONAL, TTL, COMCAST) matches |
| Classifier.FirstLine | plaud-webhook/classifier.js:108 | the first line is a prefix of the text, has no newline, and ends at the text's end or at its first newline |
| Classifier.LastLine | plaud-webhook/classifier.js:109 | the last line is a suffix of the text, has no newline, and starts at the text's start or right after its last newline |
| Classifier.OneLine | plaud-webhook/classifier.js:107-109 | for input without a newline, the first and last lines are both the whole input |
| Classifier.CheckKeywords | plaud-webhook/classifier.js:106-142 | a prefix hit on the first line decides first, whatever else matches; then a suffix hit on the last line; then a content pattern on the whole trimmed text. Each phase takes its first bucket in declaration order. The result is null iff no phase has a hit |
| Classifier.BusinessPrefixIsTtl | plaud-webhook/classifier.js:49-54 | a first line starting "business" in any case is tagged TTL, although COMCAST also lists that prefix (line 83), because TTL is tried first |
| Classifier.MePrefixIsPersonal | plaud-webhook/classifier.js:18-25 | any first line starting "me" or "my" in any case, such as "Meeting…", is tagged PERSONAL: the prefix test has no word boundary |
| Classifier.ScoreBounds | plaud-webhook/classifier.js:180-195 | the PERSONAL score is at most 20; the TTL and COMCAST scores are at most 13 |
| Classifier.FallbackWinnerUnique | plaud-webhook/classifier.js:200-209 | the fallback's choice (a maximal score, the earliest bucket among ties) is determined by the scores: at most one bucket qualifies |
| Classifier.FallbackDefault | plaud-webhook/classifier.js:202-206 | when every score is 0, PERSONAL is the fallback's choice |
| Classifier.ClassifyWithAI | plaud-webhook/classifier.js:171-209 | the returned bucket has a maximal indicator score over the lower-cased "summary transcription" text, and every earlier bucket scores strictly less |
| Classifier.BucketAt | plaud-webhook/classifier.js:173-177 | the bucket at index i of the score table is the one with rank i |
| Classifier.WinnerFromSort | plaud-webhook/classifier.js:200 | the head of the stable descending sort of the three (bucket, score) entries is the fallback's choice |
| Classifier.NameValid | plaud-webhook/classifier.js:236-238 | every bucket's name passes `isValidBucket` |
| Classifier.IsValidBucket | plaud-webhook/classifier.js:236-238 | a string passes `isValidBucket` iff it is the name of one of the three buckets |
| Classifier.ClassifyContent | plaud-webhook/classifier.js:219-233 | the result is always a valid bucket name. A keyword result is returned as it is. Otherwise the result is the fallback's choice |
| ReviewQueue.StatusIndices | plaud-webhook/review-queue.js:114-116 | the positions of the entries with the given status, strictly increasing: every such position once and no other |
| ReviewQueue.WithStatus | plaud-webhook/review-queue.js:114-116 | `filter` on the status keeps queue order and multiplicity: its j-th entry is the entry at the j-th position with that status, and it has one entry per such position |
| ReviewQueue.WithStatusMembers | plaud-webhook/review-queue.js:114-116 | hence every kept entry has the status and comes from the queue, and every queue entry with the status is kept |
| ReviewQueue.CountsSum | plaud-webhook/review-queue.js:159-166 | when every status is pending, assigned or dismissed, the three counts add up to the queue length |
| ReviewQueue.WithStatusAppend | plaud-webhook/review-queue.js:114-116 | filtering by status distributes over concatenation |
| ReviewQueue.CountAfterReplace | plaud-webhook/review-queue.js:128-153 | replacing one entry changes a status count only by the old entry's and the new entry's statuses |
| ReviewQueue.FindIndex | plaud-webhook/review-queue.js:122-146 | `find` by id gives the first entry with that id, or nothing exactly when no entry has that id |
| ReviewQueue.NewEntry | plaud-webhook/review-queue.js:31-45 | a new entry copies the six note fields and the reason, is pending, has no suggested matches, and has null `assignedTo` and `assignedAt` |
| ReviewQueue.Assigned | plaud-webhook/review-queue.js:132-134 | assigning sets the status to 'assigned', `assignedTo` to the visit id and name, and `assignedAt` to now, and keeps every other field |
| ReviewQueue.Dismissed | plaud-webhook/review-queue.js:148-149 | dismissing sets the status to 'dismissed' and `assignedAt` to now, leaves `assignedTo` alone, and keeps every other field |
| ReviewQueue.Queue.constructor | plaud-webhook/review-queue.js:18 | the queue starts empty |
| ReviewQueue.Queue.Add | plaud-webhook/review-queue.js:30-52 | exactly one new pending entry is appended, earlier entries are unchanged, and the pending list grows by that entry at its end |
| ReviewQueue.Queue.PendingReviews | plaud-webhook/review-queue.js:114-116 | returns the pending entries in queue order, each as often as it occurs: the j-th result is the entry at the j-th pending position. Every result is pending and every pending entry is returned |
| ReviewQueue.Queue.GetById | plaud-webhook/review-queue.js:121-123 | `find` returns the first entry with that id (no earlier entry has it), or null exactly when no entry has that id |
| ReviewQueue.Queue.Assign | plaud-webhook/review-queue.js:128-139 | an unknown id gives null and leaves the queue unchanged. Otherwise only the first entry with that id is replaced by its assigned form, whatever its earlier status, and that entry is returned |
| ReviewQueue.Queue.Dismiss | plaud-webhook/review-queue.js:144-154 | as Assign, with the dismissed form |
| ReviewQueue.Queue.Stats | plaud-webhook/review-queue.js:159-166 | `total` is the queue length, and the three counts add up to it when every status is known |
| ReviewQueue.AssignPendingCounts | plaud-webhook/review-queue.js:128-139 | assigning a pending entry takes one from the pending count and adds one to the assigned count |
| ReviewQueue.DismissPendingCounts | plaud-webhook/review-queue.js:144-154 | dismissing a pending entry takes one from the pending count and adds one to the dismissed count |
| ReviewQueue.MatchScore | plaud-webhook/review-queue.js:68-93 | the score is non-negative and at least 10 when the whole lower-cased name occurs. It is bounded by 13 plus 2 per long name word plus 1 per long address word. It is zero iff neither the name, nor any name word, nor the zip, nor any address word occurs |
| ReviewQueue.Candidates | plaud-webhook/review-queue.js:61-105 | there are no more candidates than visits, and every candidate has a positive score |
| ReviewQueue.CandidatesExactly | plaud-webhook/review-queue.js:60-104 | a candidate is exactly a visit with a business name and a positive score, carrying that score |
| ReviewQueue.CandidatesFrom | plaud-webhook/review-queue.js:60-104 | every candidate has a positive score and is built from some visit that has a business name |
| ReviewQueue.ScoreVisit | plaud-webhook/review-queue.js:64-93 | the accumulating loop computes the additive score of one visit |
| ReviewQueue.FindPotentialMatches | plaud-webhook/review-queue.js:57-109 | returns the first five of the stable descending sort of the candidates in visit order |
| ReviewQueue.WithKeyPrefix | plaud-webhook/review-queue.js:108 | cutting a list keeps the elements of each score in their order |
| ReviewQueue.TopFive | plaud-webhook/review-queue.js:108 | sorting and slicing gives min(n, 5) elements by non-increasing score, all from the input. Any candidate left out scores no more than the fifth. Equal scores keep their input order |
| ReviewQueue.TopMatches | plaud-webhook/review-queue.js:57-109 | at most five results by non-increasing score, each a visit with a business name and a positive score. A candidate left out scores no more than the fifth. Equal scores keep the visit order |
| HashUtil.GenerateHash | plaud-webhook/hash-util.js:34-38 | the hash is "p-" followed by the first seven digits of the hex digest of "<recordingId>-<timestamp>". It always has nine characters and is determined by its two inputs |
| HashUtil.NewIndexEntry | plaud-webhook/hash-util.js:44-52 | the entry's `hash` is the key it is stored under, and the other fields are copied. The summary is at most 200 characters: '' when absent, a prefix of the note's summary, the whole summary when it fits, and exactly its first 200 characters when longer |
| HashUtil.NoDupCard | plaud-webhook/hash-util.js:11 | a duplicate-free key order has as many elements as the key set |
| HashUtil.Listing | plaud-webhook/hash-util.js:81 | iterating the index visits each key of the insertion order once, giving that key's entry |
| HashUtil.InBucketOfFacts | plaud-webhook/hash-util.js:99-102 | the bucket filter keeps exactly the entries of that bucket, and keeps everything when no bucket is given |
| HashUtil.SearchHitsFacts | plaud-webhook/hash-util.js:81-88 | the search loop keeps exactly the entries in the bucket whose summary or recording id contains the lower-cased query |
| HashUtil.SliceTo | plaud-webhook/hash-util.js:106 | `slice(0, limit)` gives a prefix of length min(limit, n), or one counting from the end for a negative limit |
| HashUtil.NewestFirst | plaud-webhook/hash-util.js:90-105 | sorting by timestamp gives a permutation of the entries, newest first |
| HashUtil.NoteIndex.constructor | plaud-webhook/hash-util.js:11 | the index starts empty |
| HashUtil.NoteIndex.Entries | plaud-webhook/hash-util.js:99 | iteration yields one entry per key, and every stored entry is among them |
| HashUtil.NoteIndex.Store | plaud-webhook/hash-util.js:43-65 | the key now maps to the new entry. Every other key keeps its entry. Re-storing a key overwrites it in place, with no duplicate and no new position. The index grows by one exactly when the key is new |
| HashUtil.NoteIndex.Get | plaud-webhook/hash-util.js:70-72 | returns the entry stored under the hash, or null exactly when the hash is not in the index |
| HashUtil.NoteIndex.Search | plaud-webhook/hash-util.js:77-91 | the loop's result is the stable newest-first sort of the entries that pass both filters, in iteration order |
| HashUtil.NoteIndex.Recent | plaud-webhook/hash-util.js:96-107 | the loop's result is the first `limit` entries of the newest-first sort of the entries in the bucket |
| HashUtil.NoteIndex.RecentDefault | plaud-webhook/hash-util.js:96-107 | without a limit, the default of 10 applies: the ten newest entries of the bucket, newest first |
| HashUtil.SearchFacts | plaud-webhook/hash-util.js:77-91 | search results are newest first, and they are exactly the index entries in the bucket that contain the query |
| HashUtil.RecentFacts | plaud-webhook/hash-util.js:96-107 | the recent list is newest first, holds at most `limit` entries, and each is from the index and in the bucket. Without a bucket filter it holds min(limit, index size) entries |
| ComcastActions.PackageNamesDistinct | plaud-webhook/actions/comcast.js:24-32 | the seven package names are pairwise different |
| ComcastActions.Matches | plaud-webhook/actions/comcast.js:34-38 | the table has one match flag per row |
| ComcastActions.MatchesAt | plaud-webhook/actions/comcast.js:35 | flag k is the verdict of row k's pattern on the text |
| ComcastActions.RowHits | plaud-webhook/actions/comcast.js:34-38 | the rows collected all lie below the bound |
| ComcastActions.RowHitsFlagged | plaud-webhook/actions/comcast.js:35-36 | every row collected has a matching pattern |
| ComcastActions.RowHitsSorted | plaud-webhook/actions/comcast.js:34 | rows are collected in strictly increasing table order |
| ComcastActions.RowHitsComplete | plaud-webhook/actions/comcast.js:34-38 | every row with a matching pattern is collected |
| ComcastActions.NamesAt | plaud-webhook/actions/comcast.js:36 | one name per collected row |
| ComcastActions.NamesAtIndex | plaud-webhook/actions/comcast.js:36 | the i-th name pushed is the name of the i-th collected row |
| ComcastActions.NamesAtSnoc | plaud-webhook/actions/comcast.js:36 | collecting one more row pushes its name at the end |
| ComcastActions.MentionsMembership | plaud-webhook/actions/comcast.js:34-38 | with distinct names, a name is listed iff its row's pattern matches |
| ComcastActions.NameRow | plaud-webhook/actions/comcast.js:24-32 | with distinct names, a name identifies its row |
| ComcastActions.MentionsDistinct | plaud-webhook/actions/comcast.js:34-38 | no name is listed twice |
| ComcastActions.MentionsOrder | plaud-webhook/actions/comcast.js:34-38 | listed names follow table order |
| ComcastActions.PackagesFacts | plaud-webhook/actions/comcast.js:24-38 | each of the seven packages appears at most once, exactly when its pattern matches the lower-cased text, in declaration order |
| ComcastActions.InterestFrom | plaud-webhook/actions/comcast.js:41-53 | the level is 'Unknown' iff no interest pattern matches. Otherwise it is the level of a matching row with no earlier row matching (Hot, then Warm, then Cold) |
| ComcastActions.MentionsStep | plaud-webhook/actions/comcast.js:34-38 | one more iteration pushes the row's name exactly when its pattern matches |
| ComcastActions.MatchingNames | plaud-webhook/actions/comcast.js:34-38 | the pushing loop yields the names of the matching rows in table order |
| ComcastActions.ExtractPackageMentions | plaud-webhook/actions/comcast.js:19-56 | the packages are the matching package names of the lower-cased "summary transcription". The interest level is the first matching tier, the loop breaking at it, else 'Unknown' |
| ComcastActions.NotInterestedIsHot | plaud-webhook/actions/comcast.js:42-44 | a text holding the phrase "not interested" as a whole word is a Hot Lead, since "interested" also occurs as a whole word and Hot is tried first |
| ComcastActions.FirstMatchAt | plaud-webhook/actions/comcast.js:71-76 | the loop stops at the first pattern that matches: no pattern before the returned position matches, and the position is a matching pattern unless it is past the end |
| ComcastActions.FirstCapture | plaud-webhook/actions/comcast.js:71-78 | the result is null iff no pattern from the start position on matches; otherwise it is the trimmed first capture of the first pattern that matches |
| ComcastActions.ExtractBusinessName | plaud-webhook/actions/comcast.js:61-79 | the three business patterns are tried case-sensitively, in order, on the summary and transcription joined by a space; null iff none matches, otherwise the trimmed capture of the first that does |
| ComcastActions.ExtractAddress | plaud-webhook/actions/comcast.js:84-104 | a street-number match gives its capture. Otherwise a corner or intersection match gives the whole match. Otherwise the result is null |
| ComcastActions.ContactQuery | plaud-webhook/actions/comcast.js:127-132 | the query filters on the business name when one was extracted, else on the address, else it is empty |
| ComcastActions.NoteUpdate | plaud-webhook/actions/comcast.js:155-194 | the pushed note carries the packages, level, summary and transcription. Packages are added only when the list is non-empty. Status becomes 'Hot Lead' or 'Warm Lead' for those levels and is untouched otherwise. The recording id and timestamp are copied into the pushed note |
| ComcastActions.FollowUpTask | plaud-webhook/actions/comcast.js:227-231 | priority is 'high' iff the level is 'Hot Lead', else 'medium'. Due is +1 day for high, +3 otherwise. The title is the prefix plus the packages joined by ', ', or 'General inquiry' when there are none |
| ComcastActions.Handle | plaud-webhook/actions/comcast.js:329-389 | note and task are attempted only when a contact was found, and the task only when the level is not 'Cold Lead' ('Unknown' still gets one). The action log is 'Processed via COMCAST bucket', then the note line iff the note succeeded, then the task line iff the task succeeded |
| TtlActions.IsActionable | plaud-webhook/actions/ttl.js:18-39 | any memo containing one of the last indicator's words as a whole word ("by", "today", "due", …), in any case, is actionable |
| TtlActions.ExtractClientName | plaud-webhook/actions/ttl.js:46-62 | a "with/from/about/for <Name>" capture takes priority. Otherwise "Trina" as a word in any case gives 'Trina Fallardo'. Otherwise the result is null |
| TtlActions.DueOffset | plaud-webhook/actions/ttl.js:67-103 | the first applicable rule decides the day offset: "today" 0; "tomorrow" 1; "this week" 5 − weekday; a by/on/before date phrase 2, whatever day it names; else 3. The offset always lies in −1..5 |
| TtlActions.ThisWeekOnSaturday | plaud-webhook/actions/ttl.js:82-85 | "this week" on a Saturday gives an offset of −1, a day in the past |
| TtlActions.TranscriptPart | plaud-webhook/actions/ttl.js:158 | the transcription is cut to 2000 characters, with '...' appended only when it was longer. It is 'N/A' when absent |
| TtlActions.NoteBody | plaud-webhook/actions/ttl.js:152-164 | the note starts with the header and the summary (or 'N/A') and ends with the fixed footer |
| TtlActions.TaskTitle | plaud-webhook/actions/ttl.js:313 | the title is non-empty and at most 100 characters. It is the whole summary when short, exactly its first 100 characters when longer, or 'Follow up on voice memo' without a summary |
| TtlActions.TaskDescription | plaud-webhook/actions/ttl.js:314 | the description is 'From Plaud recording: ', the recording id and a blank line, followed by the summary, or by nothing without one |
| TtlActions.FindContact | plaud-webhook/actions/ttl.js:290-302 | the extracted client is searched first. 'Trina' is searched when there is no client or nothing was found, and the contact is the last search's result |
| TtlActions.Handle | plaud-webhook/actions/ttl.js:278-339 | a note is attempted iff a contact was found. A task is attempted iff a contact was found and the memo is actionable, with the derived title, description and due offset. The action log is 'Processed via TTL bucket', then the note line iff the note succeeded, then the task line iff the task succeeded |
| PersonalActions.ReplaceChar | plaud-webhook/actions/personal.js:174-178 | a global replacement leaves a string without that character unchanged |
| PersonalActions.ReplaceCharAppend | plaud-webhook/actions/personal.js:174-178 | a global replacement distributes over concatenation |
| PersonalActions.EscapeChar | plaud-webhook/actions/personal.js:174-178 | each of the five special characters becomes a backslash pair, and every other character is kept |
| PersonalActions.EscapeAppend | plaud-webhook/actions/personal.js:172-179 | the replacement chain distributes over concatenation |
| PersonalActions.ReplaceSingle | plaud-webhook/actions/personal.js:174-178 | on one character, a replacement gives the replacement text iff that character is the target |
| PersonalActions.EscapeOneChar | plaud-webhook/actions/personal.js:172-179 | on one character, the chain of five replacements is that character's escape |
| PersonalActions.ChainIsOnePass | plaud-webhook/actions/personal.js:172-179 | because backslashes are replaced first, no escape introduced by a later step is escaped again: the chain equals a one-pass character escape |
| PersonalActions.SpecialCount | plaud-webhook/actions/personal.js:172-179 | there are no more special characters than characters |
| PersonalActions.OnePassRoundTrip | plaud-webhook/actions/personal.js:172-179 | reading the one-pass escape back as an AppleScript string literal gives the original |
| PersonalActions.OnePassShape | plaud-webhook/actions/personal.js:172-179 | the one-pass escape is longer by the number of special characters, has no raw newline, CR or tab, and keeps a string without special characters |
| PersonalActions.EscapeAppleScript | plaud-webhook/actions/personal.js:172-179 | unescaping `escapeAppleScript`'s output gives its input. The output is longer by one per special character, contains no raw newline, CR or tab, and equals the input when there is no special character |
| PersonalActions.TrimAllStep | plaud-webhook/actions/personal.js:199 | each further match pushes its trimmed text |
| PersonalActions.Actions | plaud-webhook/actions/personal.js:203 | the list is never empty. It is ['Review voice memo'] when nothing matched, and otherwise exactly the matches found |
| PersonalActions.FoundGrouped | plaud-webhook/actions/personal.js:196-201 | the matches of earlier patterns form a prefix of the list: matches are grouped by pattern order |
| PersonalActions.PushTrimmed | plaud-webhook/actions/personal.js:197-200 | one pattern's `exec` loop appends its matches, trimmed, in order |
| PersonalActions.ExtractActionable | plaud-webhook/actions/personal.js:184-204 | the result is the trimmed matches of the four global patterns on the lower-cased combined text, grouped by pattern, or the default action |
| PersonalActions.ReminderTitle | plaud-webhook/actions/personal.js:221 | the title is the first action, or 'Review voice memo' when that is empty |
| PersonalActions.ReminderNotes | plaud-webhook/actions/personal.js:222 | after the recording header come the summary, else the transcription, else '' |
| PersonalActions.MessageText | plaud-webhook/actions/personal.js:232 | after the title header comes the summary's first 200 characters, with '...' only when it was longer, or 'No summary available' without a summary |
| PersonalActions.Handle | plaud-webhook/actions/personal.js:209-246 | the reminder has the first extracted action as its title, the derived notes and the 'Reminders' list. The message uses the same title |
| PlaudServer.PadTwo | plaud-webhook/server.js:108 | `padStart(2, '0')` gives exactly two characters for shorter input, keeps longer input as it is, and ends with its input |
| PlaudServer.PadTwoValue | plaud-webhook/server.js:107-108 | a number below 100, padded, is exactly two digits that read back as that number |
| PlaudServer.DurationFacts | plaud-webhook/server.js:105-109 | the duration is whole minutes (reading back as floor(s/60)), a colon, then exactly two digits reading back as s mod 60 |
| PlaudServer.FoundEntitiesFacts | plaud-webhook/server.js:114-115 | the found fields are exactly the listed fields with a truthy value, and there are no more of them than listed |
| PlaudServer.BulletStep | plaud-webhook/server.js:118-120 | each `forEach` step appends one bullet line for the next found field |
| PlaudServer.ShownTranscript | plaud-webhook/server.js:125-128 | a transcript over 1500 characters is cut to 1500 and gets '... [truncated]' (1515 characters in all); a shorter one is kept verbatim |
| PlaudServer.LineFacts | plaud-webhook/server.js:93-104 | a labelled line is present iff its value is truthy, and then it starts with the label and the value |
| PlaudServer.DetailsFacts | plaud-webhook/server.js:113-121 | the Details section appears iff at least one of the listed fields is truthy, and it starts with its heading |
| PlaudServer.AppendDetails | plaud-webhook/server.js:116-121 | the heading and bullet loop appends exactly the Details section |
| PlaudServer.AppendLine | plaud-webhook/server.js:93-104 | one conditional `+=` appends exactly the labelled line |
| PlaudServer.FormatMessage | plaud-webhook/server.js:79-135 | the successive appends build the message: header; From, Number, Intent, Outcome and Duration lines in that order, each only when truthy; summary or its default; Details; transcript; call-id footer |
| PlaudServer.Message | plaud-webhook/server.js:91-132 | every message begins with the "New PlauD.AI Call" header and ends with `_Call ID: <call_id>_` |
| PlaudServer.HandleWebhook | plaud-webhook/server.js:140-178 | OPTIONS answers 200 and forwards nothing. Any other non-POST method answers 405. A POST whose body does not parse answers 500. Otherwise the formatted message is forwarded, with 200 on success and 500 when forwarding fails |
| TelnyxBridge.Without | telnyx-bridge/server.js:15 | `replace(/\+/g, '')` removes every '+' and keeps everything else: the result has no '+', it is shorter by the number of '+' signs, and a number without '+' is kept |
| TelnyxBridge.SessionUser | telnyx-bridge/server.js:13-16 | the key is 'telnyx-' followed by the number with every '+' removed |
| TelnyxBridge.SessionUserFacts | telnyx-bridge/server.js:13-16 | two numbers share a session key iff they agree once '+' signs are removed. A number without '+' gives 'telnyx-' followed by the number |
| TelnyxBridge.ChunksOf | telnyx-bridge/server.js:62-66 | each chunk is non-empty and at most 1500 characters, all but the last are exactly 1500, and empty text gives no chunk |
| TelnyxBridge.ChunksReassemble | telnyx-bridge/server.js:62-66 | the chunks, concatenated in order, give back the text, and there are ceil(len/1500) of them |
| TelnyxBridge.SplitChunks | telnyx-bridge/server.js:63-66 | the counting loop cuts exactly those chunks |
| TelnyxBridge.Requests | telnyx-bridge/server.js:68-92 | one request per chunk, in order, each from the bridge's number to the recipient with that chunk's text |
| TelnyxBridge.SendSMS | telnyx-bridge/server.js:61-93 | `sendSMS` makes exactly one request per chunk of the text |
| TelnyxBridge.SendFacts | telnyx-bridge/server.js:61-93 | empty text sends nothing. ceil(len/1500) requests are sent, and the k-th carries the k-th chunk |
| TelnyxBridge.TrimStartPadded | telnyx-bridge/server.js:117 | `trim` removes leading white space up to the first non-space character |
| TelnyxBridge.TrimEndPadded | telnyx-bridge/server.js:117 | `trim` removes trailing white space back to the last non-space character |
| TelnyxBridge.PaddedKeywordSuppressed | telnyx-bridge/server.js:112-120 | 'NO_REPLY' or 'HEARTBEAT_OK' surrounded by white space is still suppressed |
| TelnyxBridge.ShouldReply | telnyx-bridge/server.js:112-120 | no reply when the assistant failed or answered with the empty string; an answer of white space only is still sent, because its trim is empty and so is neither 'NO_REPLY' nor 'HEARTBEAT_OK' |
| TelnyxBridge.Inbound | telnyx-bridge/server.js:100-108 | only a 'message.received' event with a payload and a sender number reaches the assistant |
| TelnyxBridge.Route | telnyx-bridge/server.js:95-152 | the webhook always answers 200 'ok', even on a parse error. It asks the assistant only for an inbound message, and replies by SMS only when the answer is error-free, non-empty and, trimmed, neither 'NO_REPLY' nor 'HEARTBEAT_OK'. `/send` answers 400 on an unparsable body or missing text, else sends the chunks and answers 200. `/health` answers 200 with its JSON. Every other route answers 200 'daequan bridge alive' |
| BusinessCard.MissingOf | comcast-crm/business-card-interactive.js:27-49 | the missing list holds exactly the listed fields whose value is falsy or 'Unknown' (the address judged by its street), and is no longer than the field list |
| BusinessCard.MissingPresentPartition | comcast-crm/business-card-interactive.js:27-49 | the present list holds exactly the listed fields whose value is neither falsy nor 'Unknown', so every field is missing or present and never both. The missing and present lists together are as long as the field list |
| BusinessCard.MissingOfSnoc | comcast-crm/business-card-scanner.js:97-100 | checking one more field appends it exactly when it is missing |
| BusinessCard.MissingOfRequired | comcast-crm/business-card-scanner.js:94-103 | the missing list is built by testing name, phone, email and address in that order, keeping each that is missing |
| BusinessCardInteractive.FoundLinesFacts | comcast-crm/business-card-interactive.js:30-48 | one found line per present field, in field order |
| BusinessCardInteractive.FoundLinesSnoc | comcast-crm/business-card-interactive.js:27-49 | checking one more field adds its line exactly when it is present |
| BusinessCardInteractive.CreateAnalysisResult | comcast-crm/business-card-interactive.js:23-57 | `missing` is the ordered list of missing required fields. `found` joins the present fields' lines with newlines. `canCreate` holds iff nothing is missing. The card is returned unchanged |
| BusinessCardInteractive.FoundLinesRequired | comcast-crm/business-card-interactive.js:27-49 | the found lines are those of name, phone, email and address, in that order, each only when present |
| BusinessCardInteractive.AnalysisCounts | comcast-crm/business-card-interactive.js:27-49 | each of the four required fields is reported exactly once: found lines plus missing fields number 4, and a field is missing iff its value is absent |
| BusinessCardInteractive.QuestionTextLast | comcast-crm/business-card-interactive.js:63-69 | the question text is non-empty and ends with a colon iff the field is not one of the four known fields |
| BusinessCardInteractive.MissingFieldQuestion | comcast-crm/business-card-interactive.js:62-70 | every question is the question-mark emoji followed by the field's question text. A field outside the four known ones is asked with 'Please provide the …'. The question ends with a colon iff the field is not one of the four known fields, and then it ends with '<field>:' |
| BusinessCardInteractive.CreatePartialVisit | comcast-crm/business-card-interactive.js:75-91 | a falsy name, phone, email or street becomes 'PENDING', while 'Unknown' passes through. The business name falls back to the contact name, then 'Unknown Business'. City, state and zip default to Tacoma, WA and 98404. The status is 'interested', `needsUpdate` is set, and the notes start with the list of missing fields. The notes end with the card's notes, or nothing without them |
| BusinessCardInteractive.MissingTags | comcast-crm/business-card-interactive.js:106-114 | one 'missing-<f>' tag per missing field, in order, then 'needs-info', so n+1 tags |
| BusinessCardInteractive.UpdateVisitWithUserInfo | comcast-crm/business-card-interactive.js:119-157 | the PATCH goes to the visit's path. The update sets only keys of the answered field's case: name sets contactName (and businessName if in context); phone or email sets that key; address sets address (and city/state/zip if in context). An unrecognised field gives an empty update |
| BusinessCardInteractive.IsVisitComplete | comcast-crm/business-card-interactive.js:170-175 | a visit is complete iff the value of every one of the REQUIRED_FIELDS (name, phone, email, address) is truthy and not 'PENDING': the four fields it checks are exactly the required ones |
| BusinessCardInteractive.PartialVisitComplete | comcast-crm/business-card-interactive.js:170-175 | a partial visit is complete iff the card's four values are all present and none is 'PENDING' |
| BusinessCardInteractive.UnknownCardCountsComplete | comcast-crm/business-card-interactive.js:78-81 | a card whose four values all read 'Unknown' has all four fields missing, yet its partial visit counts as complete |
| BusinessCardInteractive.CreatePartialVisitPending | comcast-crm/business-card-interactive.js:78-81 | the corrected record stores 'PENDING' for every value the analysis calls missing, 'Unknown' included |
| BusinessCardInteractive.PendingVisitCompleteIffNothingMissing | comcast-crm/business-card-interactive.js:170-175 | with the correction, a visit is complete iff the analysis found nothing missing |
| BusinessCardScanner.CheckMissingFields | comcast-crm/business-card-scanner.js:94-103 | the pushes give exactly the missing required fields in order: a subsequence of REQUIRED_FIELDS |
| BusinessCardScanner.MissingFieldsFacts | comcast-crm/business-card-scanner.js:94-103 | at most four fields are missing. A field is missing iff it is required and its value is falsy or 'Unknown'. None is missing iff every required value is present |
| BusinessCardScanner.CreateVisit | comcast-crm/business-card-scanner.js:108-130 | the geocoder is asked iff the card has an address object. The business name falls back to the contact name, then 'Unknown Business'. Absent contact fields become 'Unknown', and city, state and zip default to Tacoma, WA and 98404. `missingFields` is omitted iff the list is empty. With an address, each coordinate is the geocoder's value when it answered and that value is not 0, and null otherwise. Without one both are null. The status is 'interested' and the notes are the card's notes or '' |
| BusinessCardScanner.ProcessBusinessCard | comcast-crm/business-card-scanner.js:162-196 | a failed visit creation ends the run with no result. Otherwise: `needsFollowUp` holds iff fields are missing, and the missing-info task runs exactly then. `ghlUrl` is null iff the created visit has no ghlContactId, and otherwise links to that contact |
| BusinessCardScanner.MockAnalysisFacts | comcast-crm/business-card-scanner.js:48-62 | with today's all-null analysis every required field is missing. The visit is posted with 'Unknown' contact fields and 'Unknown Business', and the geocoder is still asked because the address object is present |
| ModelRouter.ScoreDuplicates | skills/model-router/model_router.py:29 | a keyword list repeated counts twice: duplicates are not collapsed |
| ModelRouter.UpperKeywordNeverMatches | skills/model-router/model_router.py:24-29 | keywords are not lower-cased, so one with an upper-case letter never occurs in the lower-cased task |
| ModelRouter.WinnerKept | skills/model-router/model_router.py:33-34 | a later type that does not score higher leaves the current best in place |
| ModelRouter.WinnerLast | skills/model-router/model_router.py:33-34 | a later type scoring strictly more than all before it becomes the best |
| ModelRouter.FirstMaxStep | skills/model-router/model_router.py:34 | the maximum over all types is the last type's entry when it scores and beats the maximum of the earlier types, and that earlier maximum otherwise |
| ModelRouter.NewWinner | skills/model-router/model_router.py:33-34 | a last type that scores more than every earlier type is the winner |
| ModelRouter.FirstMaxSnoc | skills/model-router/model_router.py:34 | appending an entry moves the maximum to it only when it scores strictly more than the current maximum; otherwise the earlier maximum stays first |
| ModelRouter.FirstMaxIsFirst | skills/model-router/model_router.py:34 | `max(scores, key=scores.get)` finds nothing only for no entries; otherwise it picks an entry of highest score that every earlier entry scores strictly less than, so the first of the maximal entries |
| ModelRouter.FirstMaxNone | skills/model-router/model_router.py:29-33 | no type is kept iff every type scores 0 |
| ModelRouter.FirstMaxWinner | skills/model-router/model_router.py:28-34 | when some type scores, the choice has the highest score of all configured types, and every type before it in config order scores strictly less |
| ModelRouter.DetectedType | skills/model-router/model_router.py:22-36 | the result is 'default' when no type scores on the lower-cased task. Otherwise it is a type of maximal positive score, ties going to the earliest in config order |
| ModelRouter.DetectTaskType | skills/model-router/model_router.py:22-36 | the scoring loop and the max search compute the detected type |
| ModelRouter.GetModel | skills/model-router/model_router.py:38-41 | gives the type's own entry if there is one, else the 'default' entry. It gives nothing iff neither exists |
| ModelRouter.SpawnCommandFacts | skills/model-router/model_router.py:72 | the command quotes the task after `--task`, names the model after `--model`, and ends with `--timeout` and the timeout in decimal |
| ModelRouter.Spawned | skills/model-router/model_router.py:43-75 | a result exists iff a model entry applies to the chosen type. It carries the task, the chosen type, that entry's model and cost tier, the timeout and the spawn command |
| ModelRouter.ExplicitTypeWins | skills/model-router/model_router.py:48-52 | an explicit task type is used as given, whatever the wording. Without one, the detected type is used |
| ModelRouter.SpawnTask | skills/model-router/model_router.py:43-75 | `spawn_task` returns exactly that result |
| ModelRouter.RoutedDefaults | skills/model-router/model_router.py:81-84 | a definition without a type is routed by its wording. Without a timeout it runs with 300; without a task it runs with '' |
| ModelRouter.RouteHeartbeatTasks | skills/model-router/model_router.py:77-89 | one result per definition, in the same order, each the `spawn_task` result of that definition. A definition with no applicable model entry stops the run |
| GhlSync.SpaceOnlyNameRaises | comcast-crm/ghl_sync.py:71 | a non-empty contact name made only of white space has no first word, so building the record raises |
| GhlSync.FirstName | comcast-crm/ghl_sync.py:71 | the first name is the contact name's first word, never empty, when the name has a word; otherwise it is the business name's first 20 characters, or all of it when shorter |
| GhlSync.FirstNameAsWritten | comcast-crm/ghl_sync.py:71 | as written: an empty contact name gives the business name's first 20 characters, or all of it when shorter. A name with a word gives that first word. A non-empty name without a word has no value, which stands for the IndexError |
| GhlSync.FirstNameCorrected | comcast-crm/ghl_sync.py:71 | the corrected first name agrees with the written one wherever that one is defined |
| GhlSync.LastName | comcast-crm/ghl_sync.py:72 | the last name is empty exactly when the contact name has at most one word |
| GhlSync.NameRoundTrip | comcast-crm/ghl_sync.py:71-72 | the last name is empty iff the name has one word. First and last name joined by a space give back the name's words joined by single spaces |
| GhlSync.Contact | comcast-crm/ghl_sync.py:70-87 | the contact record has the split name and the row's email, or `<id>@placeholder.com` when there is none. City falls back to Tacoma and the state is always WA. It carries the row's phone, address and zip, the business-name, zip and status custom fields, and the tags comcast-prospect, `zip-<zip>` and the status |
| GhlSync.ContactRequest | comcast-crm/ghl_sync.py:90-113 | a row with a non-empty contact id is a PUT to that contact's URL. Any other row is a POST to the contacts URL with the configured location. Both carry the contact record |
| GhlSync.HttpError | comcast-crm/ghl_sync.py:136 | a refusal's message is `HTTP <status>: ` followed by at most 200 characters of the body |
| GhlSync.AfterSync | comcast-crm/ghl_sync.py:115-155 | only the three sync columns change. The error is cleared iff the CRM answered 200 or 201, which also marks the row synced and stores the id found in the body. Otherwise the flag and id are kept, and an exception records at most 200 characters of its message |
| GhlSync.LogAfter | comcast-crm/ghl_sync.py:126-155 | a success logs `update` iff the row was already linked, else `create`, with the new id. A refusal logs a failed `create` with the HTTP message whatever the request was, and an exception logs nothing |
| GhlSync.AcceptedAdd | comcast-crm/ghl_sync.py:195-199 | adding one more row to the synced set adds one to the success count iff the CRM accepted that row |
| GhlSync.LogOf | comcast-crm/ghl_sync.py:195-199 | the log a sequence of attempts appends: at most one entry per attempt, each naming one of the attempted rows |
| GhlSync.LogOfSnoc | comcast-crm/ghl_sync.py:195-199 | one more attempt appends exactly its `LogAfter` entries |
| GhlSync.OrderSnoc | comcast-crm/ghl_sync.py:195 | listing one more fresh row keeps the order a listing of the done rows, each once |
| GhlSync.RowsStep | comcast-crm/ghl_sync.py:195-199 | syncing one remaining row marks it done with the CRM's answer, leaves the other rows alone, and raises the success or failure count by that answer |
| GhlSync.LogStep | comcast-crm/ghl_sync.py:195-199 | syncing a row not yet done appends it to the order, once, and its log entry to the log |
| GhlSync.ProgressStep | comcast-crm/ghl_sync.py:195-199 | syncing one remaining row keeps the loop's progress: the row becomes done, it is appended to the order and its log entry to the log, and the success or failure count goes up by the CRM's answer |
| GhlSync.SyncedStep | comcast-crm/ghl_sync.py:195-196 | syncing one more pending row keeps every other row as it was at the start |
| GhlSync.GhlComcastSync.SyncPendingRow | comcast-crm/ghl_sync.py:195-199 | one pass of the loop syncs the chosen pending row and keeps every other row. It appends exactly that row's `LogAfter` entry to the log, and the row is appended to the order. The row moves from the remaining ids to the done ones, and the success count goes up iff the CRM accepted it, the failure count otherwise |
| GhlSync.GhlComcastSync.constructor | comcast-crm/ghl_sync.py:20-22 | a fresh sync service holds the given visits table, an empty log and the configured location |
| GhlSync.GhlComcastSync.SyncToGhl | comcast-crm/ghl_sync.py:57-155 | an unknown id returns false and changes nothing. Otherwise it sends the row's request, returns true iff the CRM answered 200 or 201, replaces the row by its `AfterSync` update and appends `LogAfter` to the log |
| GhlSync.GhlComcastSync.SyncAllPending | comcast-crm/ghl_sync.py:188-201 | every row pending at the start is synced exactly once and every other row is untouched. The sync order lists each pending row once. The log keeps its earlier entries and gains each pending row's `LogAfter` entry in that order. The success count is the number of pending rows the CRM accepted, and success plus failed is the number of pending rows |

## Left out

**Text and patterns**
- Strings are sequences of Unicode code points. JavaScript's `length`, `substring` and `slice` count UTF-16 code units, and a code point above U+FFFF is two of them. The two agree on text whose every character lies in the Basic Multilingual Plane. A cut in code units can also split a surrogate pair, and a lone surrogate is not a Dafny `char`. The members below state their length bounds and cuts in code points for this reason.
- ReviewQueue.MatchScore: a word counts as long when it has more than three code points. The source's `length > 3` counts code units, so a word such as "a😀b" (three code points, four units) is long in the source and short in the model.
- HashUtil.NewIndexEntry: the summary is cut to 200 code points. The source's `substring(0, 200)` cuts at 200 UTF-16 code units.
- TtlActions.TranscriptPart: the transcription is cut to 2000 code points, and '...' is added when it has more than 2000 code points. The source counts code units for both.
- TtlActions.TaskTitle: the title is cut to 100 code points. The source cuts at 100 code units.
- PersonalActions.MessageText: the summary is cut to 200 code points, and '...' is added when it is longer than that. The source counts code units for both.
- PlaudServer.ShownTranscript: the transcript is cut to 1500 code points when longer. The source counts code units, so text with emoji is cut earlier in the source.
- TelnyxBridge.ChunksOf: chunks hold 1500 code points. The source's `substring(i, i + 1500)` cuts every 1500 code units and can split a surrogate pair across two SMS messages.
- TelnyxBridge.ChunksReassemble: the chunk count is ceil(len/1500) with len in code points, where the source's count uses the length in code units.
- TelnyxBridge.SplitChunks: the loop steps through the text 1500 code points at a time. The source steps 1500 code units at a time.
- TelnyxBridge.SendSMS: one request per 1500-code-point chunk. The source sends one per 1500-code-unit chunk.
- TelnyxBridge.SendFacts: the request count is ceil(len/1500) with len in code points. The source's count uses code units.
- Case folding is ASCII-only. JavaScript and Python lower-case all of Unicode. The lower-cased indicator and keyword lists are ASCII, but user text outside ASCII is folded differently.
- Regular expressions are judged concretely only when they are a word-boundary group of literal alternatives. Every other pattern (captures, `\s+`, character classes, global matching) is judged by an `Engine` parameter keyed by the pattern's source text. For those patterns the model keeps the order in which they are tried and how their results are used, but not what they match.
- SHA-256 in `generateHash` is a digest parameter that is assumed to produce lower-case hex.

**Time, identity and effects**
- Dates and times are integers. Due dates are day offsets from today and the weekday is 0..6. `new Date()`, `toISOString` and time zones are not modelled.
- Generated ids (`Date.now()`, `Math.random()`) and the current time are parameters.
- External effects are not modelled: MongoDB, the GHL CRM API, Nominatim geocoding, AppleScript via `osascript`, iMessage, the Telnyx and OpenClaw HTTP calls, and reading or writing the queue, index and memory files (including the loading at start-up). Their outcomes are parameters, and each operation returns the request it would make.
- `logToMemory`, `storeInMemory` and the Comcast task's description text are not modelled. They only write to the memory file or the task body; how their timestamp formatting can throw is described under Handlers.
- Console logging is not modelled.
- `async`/`await` and request-body streaming are not modelled: every handler runs sequentially.

**Handlers**
- The try/catch around the heuristic fallback's scoring, which defaults to PERSONAL, is not modelled: nothing in that scoring can throw.
- The outer try/catch of each bucket handler is not modelled. The effects before the memory write catch their own errors. The memory write does not: `logToMemory` (plaud-webhook/actions/comcast.js:284-285, plaud-webhook/actions/ttl.js:240-241) and `storeInMemory` (plaud-webhook/actions/personal.js:130-131) format `new Date(data.timestamp)` with `toISOString` before their own `try`. An unparsable timestamp therefore throws a RangeError into the handler's catch, which sets `results.error` and leaves `results.memory` unset. The reminder, message, note, task and action log the model states are all computed before that point and are unaffected; the `error` and `memory` fields are not modelled.
- In the Comcast and TTL handlers, a failed contact search is modelled as "no contact found", which is how the handlers treat it.
- ComcastActions.FollowUpTask: the title is stated exactly only when there is no package or the first package name is non-empty. The package names are fixed non-empty constants, so this covers every call the handler makes.
- JavaScript's distinction between `null` and `undefined` is not modelled. An absent value renders as "undefined" wherever a template literal interpolates it.

**Call webhook and SMS bridge**
- PlaudServer: the call duration is a whole number of seconds, so a fractional `duration_seconds` is not modelled. Entity values are strings only.
- The `/health` route's uptime value and `/send` with a non-string `text` are not modelled.

**Business cards**
- BusinessCardScanner.ProcessBusinessCard takes the card analysis as a parameter. The scanner's own analysis today returns all fields null, and that case is `MockAnalysisFacts`.
- `getMissingFieldQuestion` is modelled for own field names only. Inherited object property names (such as `constructor`) are not modelled.
- Coordinates in the card scanner are exact reals. A zero coordinate is stored as absent, as JavaScript's falsy zero makes it, but floating-point rounding is not modelled. The sync does not model coordinates at all.
- GhlSync.Contact: the first name comes from the corrected `FirstName`, as the Findings table describes. For a contact name made only of white space, the source raises IndexError at comcast-crm/ghl_sync.py:71 and builds no record. The model instead uses the first 20 characters of the business name.
- GhlSync.GhlComcastSync.SyncToGhl: builds its request with the corrected first name. For a contact name made only of white space, the source's IndexError at comcast-crm/ghl_sync.py:71 escapes the method, so no request is sent, the row is not updated and nothing is logged. The model instead syncs the row.
- GhlSync.GhlComcastSync.SyncAllPending: syncs every pending row with the corrected first name. In the source, the first pending row whose contact name is only white space raises IndexError and aborts the whole loop, so the remaining rows are not synced and no counts are returned.
- GhlSync.Contact: the latitude and longitude custom fields are left out, so the record lists only the business-name, zip and status custom fields.
- `completeVisit` and `removeGHLTag` of the interactive card flow are not modelled: they are stubs with no logic of their own.

**Model router**
- Loading the configuration file and the `print` output of the command-line entry point are not modelled.
- A `models` entry is assumed to carry both `model` and `cost_tier`. In the source, a missing key yields None.
- A task definition whose `task` or `timeout` is present but null is not modelled.
- The keys of `task_keywords` are assumed to be distinct, as they are in a parsed JSON object.

**Visits-to-CRM sync**
- GhlSync.GhlComcastSync.SyncAllPending: the SQL query returns the pending rows in an order the model does not fix. The contract states the log in terms of a ghost `order` that lists each pending row once, not a particular order.
- NULL text columns read as "".
- A failure of `response.json()` on an accepted request is folded into the exception outcome.
- `add_visit`, `get_visits_by_zip`, `get_all_visits` and `get_ghl_deep_link` are not modelled. They are SQL inserts and queries with no logic beyond the query.

**Other files**
- `server.js`, `server-fallback.js`, `comcast-crm/api_server.py` and `skills/doc-chat/scripts/extract_text.py` are not part of this model. They hold OAuth sessions, HTML rendering, SQL routing and document-format wrappers.

## Findings

| source | as written | input that shows it | evidently intended | confidence | as-written member | corrected member |
|---|---|---|---|---|---|---|
| comcast-crm/ghl_sync.py:71 | `firstName` takes `contact_name.split()[0]` whenever `contact_name` is non-empty. This line is outside the `try`, so the IndexError escapes `sync_to_ghl` and aborts `sync_all_pending` | a visit whose contact name is `"  "` | use the business name whenever the contact name has no word | not executed | GhlSync.SpaceOnlyNameRaises | GhlSync.FirstNameCorrected |
| comcast-crm/business-card-interactive.js:78-81 | `createPartialVisit` replaces only falsy fields with 'PENDING', so 'Unknown' values pass through. `isVisitComplete` only rejects empty and 'PENDING' values | a card whose name, phone, email and street are all "Unknown": all four fields are missing (lines 27-49), yet its partial visit counts as complete | a field that the analysis reports as missing should be posted as 'PENDING' | not executed | BusinessCardInteractive.UnknownCardCountsComplete | BusinessCardInteractive.PendingVisitCompleteIffNothingMissing |
