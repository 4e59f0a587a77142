# Counting-game bot: rule checker, counter state and job queue

A Dafny model of the core of a chat "counting game" bot. Players post
consecutive numbers in one channel. The bot has three sequential parts:

- **The rule checker** `checkValidity` (src/rules.js). It judges a post against
  the earlier posts and the current number. All five checks run, and every
  rule the post breaks is reported, in a fixed order.
- **The counter state** `State` (src/state.js). It holds the current number and
  the best number reached. The two setters, `increment` and `reset` each emit an
  update and persist `{best}`; `loadState` sets `best`
  without emitting an update or persisting.
- **The job queue** `Queue` (src/queue.js). It runs jobs one at a time, first in,
  first out.

Files:

- `options.dfy`: the `Option` type.
- `rules.dfy` (module `Rules`): the post, reason and verdict types. The five
  checks as specification functions, and their union `Validity`. The method
  `CheckValidity` follows the source step by step: the scan with `break` over a
  reversed copy (the method `ScanSpacing`), then one `if` per check appending
  to `reasons`. It is proved equal to `Validity`.
- `rule_properties.dfy` (module `RuleProperties`): what the checker promises,
  proved about `Validity`, and the concrete posts of the source's tests.
- `state.dfy` (module `GameState`): the class `State`, plus the pure transition
  `Apply` that each mutator is proved to follow. It also has lemmas about
  sequences of mutators.
- `queue.dfy` (module `JobQueue`): the class `Queue`, and the specification
  `Drained` of which jobs one drain runs. The loop of `start` is the method
  `RunJobs`, which `Start` calls between setting and clearing the flag. It
  also models the `set`/`get` record helper.

Conventions of the model:

- The earlier posts are a sequence whose **last** element is the most recent
  post: the order that the reversal at src/rules.js:11 assumes. The source reverses a copy at src/rules.js:11 and scans it newest
  first. `CheckValidity` does the same. `Rules.ReversedPrefixAuthors` connects
  the reversed scan to the specification, which is written on the original
  order.
- Posts and sequences are values, so the checker cannot change its inputs.
- `\d` is `0`–`9`. `IsWhitespace` is the ECMAScript `\s` set: WhiteSpace plus
  LineTerminator. `Number()` trims the same set, so `Number("12 ")` is the
  value of the digit run.
- `config.uniqueUsers >= 1` is a precondition of the checker. The configuration
  loader refuses a zero or missing value (src/config.js:38); the negative and
  fractional values it lets through are listed under "Left out".
- The update notifications of `State` are an appended log `updates`. Its writes
  to the state file are an appended log `writes`. `loadState` takes what was read
  as an `Option<Record>`; `None` means the file could not be read or parsed.
- In the queue, a job is an abstract outcome, `Fulfilled` or `Failed`, with a
  ticket. The ticket names the promise that `push` returned for the job.
  `settled` logs the `resolve`/`reject` calls in order. `Start` takes
  `arrivals`: `arrivals[k]` is the batch that other callers push while the
  k-th job of the drain is awaited.

Points of the code the model follows closely:

- wrong-number is not checked when there is no number token (src/rules.js:65).
- src/state.js holds `currentNumber` and `best` only.
- The spacing tests in src/rules.test.js:77-165 pass newest-first lists to an
  older, throwing signature without `config`. `TooFewUniquePeopleExample`
  states their scenario in the order the current code reads.

## Model

| member | source | states |
|---|---|---|
| `Rules.CheckValidity` | src/rules.js:1-89 | The imperative checker (scan with break over the reversed copy, five appends) returns exactly the verdict `Validity` specifies |
| `Rules.Validity` | src/rules.js:83-88 | The verdict is valid exactly when no reason was found; an invalid verdict carries the reasons; a valid one carries the value of the leading digit run, which is non-empty |
| `Rules.DigitRunLength` | src/rules.js:49 | `^\d+` matches the maximal run: every character before the returned length is a digit, and the one at it (if any) is not |
| `Rules.LastPostBy` | src/rules.js:11-13 | Finds the most recent earlier post by the author: that post has the author's id and no later post does; none is found only when the author has no post at all |
| `Rules.Reversed` | src/rules.js:11 | The reversed copy has the same length and holds at position i the i-th post from the end |
| `Rules.ScanSpacing` | src/rules.js:10-30 | The newest-first scan with `break` over the reversed copy returns exactly the spacing reasons `SpacingReasons` specifies on the oldest-first list |
| `Rules.ReversedPrefix` | src/rules.js:11 | The first `idx` posts of the reversed copy are the last `idx` posts of the list, back to front |
| `Rules.MirroredAuthors` | src/rules.js:14-17 | A list read back to front has the same set of authors |
| `Rules.ReversedPrefixAuthors` | src/rules.js:11-17 | The first `idx` posts of the reversed copy have the same author set as the last `idx` posts of the original list |
| `Rules.NumberToken` | src/rules.js:64-66 | The wrong-number pattern matches exactly when the digit run is non-empty and is followed by whitespace or ends the content |
| `Rules.DecimalValue` | src/rules.js:66 | `Number()` on k digits gives a value below 10^k, and at least 10^(k-1) when the first digit is not 0; `DecimalRoundTrip` shows it inverts `DecimalString` |
| `Rules.DecimalString` | src/rules.js:87 | The reference inverse of the `Number()` parse: the text `String(n)` a player types for n, non-empty, all digits, starting with `0` only for zero; `DecimalRoundTrip` and `NextNumberIsValid` use it |
| `Rules.DecimalRoundTrip` | src/rules.js:66 | Reading back the decimal text of a number with `Number()` gives the number |
| `RuleProperties.ReasonsInOrder` | src/rules.js:7-75 | Reasons are always ordered too-few-unique-people, no-number, leading-zero, trailing-character, wrong-number; each kind appears at most once, at most five in all |
| `RuleProperties.FormatReasonsInOrder` | src/rules.js:32-75 | The four content checks report in their fixed order, at most one reason each |
| `RuleProperties.ReasonSource` | src/rules.js:7-75 | A too-few-unique-people reason comes only from the spacing scan; every other reason comes only from the content checks |
| `RuleProperties.FormatMembership` | src/rules.js:32-75 | Each content check contributes only reasons of its own kind, exactly when its own condition holds |
| `RuleProperties.ValidNumberIsNext` | src/rules.js:62-88 | A valid verdict always carries `currentNumber + 1` |
| `RuleProperties.NoNumberIff` | src/rules.js:33-36 | no-number is reported iff the content is empty or does not start with an ASCII digit; then neither trailing-character nor wrong-number is reported |
| `RuleProperties.LeadingZeroIff` | src/rules.js:40-44 | leading-zero is reported iff the content starts with `0`, and then never with no-number |
| `RuleProperties.TrailingCharacterIff` | src/rules.js:48-59 | trailing-character is reported iff the maximal digit run is followed by a non-whitespace character; it records that character (never a digit) and the non-empty run as text |
| `RuleProperties.WrongNumberIff` | src/rules.js:63-75 | wrong-number is reported iff a number token exists and differs from `currentNumber + 1`; it carries the expected and the actual number |
| `RuleProperties.TrailingExcludesWrongNumber` | src/rules.js:49-66 | trailing-character and wrong-number are never both reported |
| `RuleProperties.AuthorCountBound` | src/rules.js:14-17 | The number of distinct authors of some posts is at most the number of posts |
| `RuleProperties.SpacingReasonIff` | src/rules.js:10-30 | The spacing check reports a reason iff the author's most recent earlier post is followed by fewer than `uniqueUsers` distinct authors; the reason counts the posts after it and their distinct authors |
| `RuleProperties.TooFewUniquePeopleIff` | src/rules.js:10-30 | too-few-unique-people is reported iff the author has an earlier post with fewer than `uniqueUsers` distinct authors after it. It carries the count of posts after it and of their distinct authors, and the second never exceeds the first. No author post means no such reason |
| `Rules.LastPostByIs` | src/rules.js:12-13 | A post by the author after which the author never posts again is the one the scan stops at |
| `RuleProperties.ImmediateRepostRejected` | src/rules.js:12-27 | Posting right after one's own post always gives too-few-unique-people with counts 0 and 0 |
| `RuleProperties.DigitRunOfPrefix` | src/rules.js:49 | A digit string followed by nothing or a non-digit is exactly the leading digit run |
| `RuleProperties.NextNumberIsValid` | src/rules.js:32-88 | The next number in decimal, alone or followed by whitespace and any text, is valid with that number when the spacing rule is met |
| `RuleProperties.BareNumberExample` | src/rules.test.js:5-7 | "1" after 0 is valid with number 1 |
| `RuleProperties.NumberWithTextExamples` | src/rules.test.js:9-17 | "1 " and "1 a message can go here" after 0 are valid with number 1 |
| `RuleProperties.NonNumberExample` | src/rules.test.js:21-27 | "something" gives no-number only |
| `RuleProperties.SpaceBeforeNumberExample` | src/rules.test.js:37-43 | " 1" gives no-number only |
| `RuleProperties.LeadingZeroExample` | src/rules.test.js:29-35 | "001" after 0 gives leading-zero only, since its number 1 is the next one |
| `RuleProperties.TrailingCharacterExample` | src/rules.test.js:45-51 | "1?" gives trailing-character with `?` and "1" only |
| `RuleProperties.SingleDigitToken` | src/rules.js:64-66 | A single digit is a number token with that digit's value |
| `RuleProperties.WrongNumberExample` | src/rules.test.js:53-59 | "2" after 0 gives wrong-number expected 1, actual 2 |
| `RuleProperties.DoublePostExample` | src/rules.test.js:61-67 | "2" after 2 gives wrong-number expected 3, actual 2 |
| `RuleProperties.LowerNumberExample` | src/rules.test.js:69-75 | "1" after 2 gives wrong-number expected 3, actual 1 |
| `RuleProperties.TooFewUniquePeopleExample` | src/rules.js:10-30 | Alice posting after her own post and four other authors, with five required, gives too-few-unique-people with 4 posts and 4 authors only |
| `RuleProperties.FourBetween` | src/rules.js:10-30 | The spacing check alone, on that scenario, reports 4 posts and 4 authors |
| `GameState.Persisted` | src/state.js:52-58 | The persisted record holds `best` |
| `GameState.Load` | src/state.js:61-73 | Loading restores only `best`, from a readable record; it never changes the current number, and a failed read changes nothing |
| `GameState.IncrementEffect` | src/state.js:31-37 | `increment` raises the current number by exactly 1; `best` becomes the larger of the old best and the new current number |
| `GameState.ResetEffect` | src/state.js:39-42 | `reset` sets the current number to 0 and keeps `best` |
| `GameState.SetCurrentNumberEffect` | src/state.js:10-16 | The current-number setter stores its value and raises `best` to it when larger, never lowering it |
| `GameState.RaisingOpsBoundCurrent` | src/state.js:10-37 | After `increment` or the current-number setter, `best` is at least the current number and at least the old best |
| `GameState.SetBestCanLowerBest` | src/state.js:22-25 | The best setter stores any value, so it can put `best` below the current number |
| `GameState.BestNeverDecreases` | src/state.js:10-42 | Over any sequence of `increment`, `reset` and current-number setter calls, `best` never decreases |
| `GameState.ConsistentPreserved` | src/state.js:7-42 | Starting from a state where `best` is non-negative and at least the current number (as the initial 0/0 is), any sequence of mutators other than the best setter keeps it so |
| `GameState.EmittedTracksRun` | src/state.js:44-50 | Every mutator emits exactly one update, carrying the numbers right after that mutator; the last carries the final numbers |
| `GameState.PersistLoadRoundTrip` | src/state.js:52-73 | Loading what was persisted restores `best` and leaves the current number alone |
| `GameState.State.constructor` | src/state.js:7-8 | A new state has current number 0 and best 0, and has emitted and written nothing |
| `GameState.State.EmitUpdate` | src/state.js:44-50 | Persists `{best}` and emits `{currentNumber, best}` once, changing neither number |
| `GameState.State.SetCurrentNumber` | src/state.js:10-16 | Stores the number, raises `best` to it if larger, emits and persists once |
| `GameState.State.SetBest` | src/state.js:22-25 | Stores any value as `best`, keeps the current number, emits and persists once |
| `GameState.State.Increment` | src/state.js:31-37 | Adds 1 to the current number, raises `best` to it if larger, emits and persists once |
| `GameState.State.Reset` | src/state.js:39-42 | Sets the current number to 0, keeps `best`, emits and persists once |
| `GameState.State.LoadState` | src/state.js:61-73 | Sets `best` from a readable record, otherwise changes nothing; never touches the current number, emits nothing, writes nothing |
| `JobQueue.Settle` | src/queue.js:39-42 | A job's outcome settles that job's own promise: success resolves it with the handler's value, failure rejects it with the handler's error |
| `JobQueue.SettleAll` | src/queue.js:35-43 | Running jobs one after the other settles exactly as many promises as there are jobs |
| `JobQueue.SettleAllRoutes` | src/queue.js:35-43 | The i-th settlement of a run is the i-th job's own outcome, on its own promise |
| `JobQueue.LaterBatches` | src/queue.js:50-51 | Taking the batch pushed during the next await out of the pending batches leaves all the other jobs, in arrival order: the batches flattened are that batch followed by the rest flattened |
| `JobQueue.DrainedIsFifo` | src/queue.js:35-43 | A drain runs the queued jobs in order, then the batches pushed during its first k awaits, in arrival order: first in, first out, each job once |
| `JobQueue.ArrivalsRunInSameDrain` | src/queue.js:30-51 | Jobs pushed while an already-queued job is awaited run in the same drain, after the queued ones; with nothing pushed a drain runs exactly the queued jobs |
| `JobQueue.QueuedJobsAllSettled` | src/queue.js:35-43 | Every job queued when the drain starts is settled with its own outcome, in order, whatever the jobs before it did |
| `JobQueue.SettleAllAppend` | src/queue.js:39-42 | Running one more job appends exactly its settlement |
| `JobQueue.DrainStep` | src/queue.js:35-43 | One turn of the drain moves the front job to the done part, and the re-read list holds the rest plus the batch pushed during its await; the work left strictly shrinks |
| `JobQueue.FlattenStep` | src/queue.js:50-51 | The batches of the first k+1 awaits are the first batch followed by those of the next k |
| `JobQueue.Set` | src/queue.js:2-9 | `set` adds the key if it was unknown, storing `data` itself, removes no key, and leaves every other key's record alone |
| `JobQueue.Get` | src/queue.js:11-13 | `get` returns the record stored for the key, and nothing exactly when the key was never set |
| `JobQueue.SetOverwritesOnlyGiven` | src/queue.js:2-9 | `set` on a known key overwrites exactly the given properties and keeps the others; no other key's record changes |
| `JobQueue.SetStateKeepsJobs` | src/queue.js:33 | Setting only the flag, as `start` does, leaves the job list unchanged |
| `JobQueue.SetFreshKey` | src/queue.js:6-13 | On an unknown key, `get` returns the record that `set` stored |
| `JobQueue.Queue.constructor` | src/queue.js:21-23 | A new queue has no jobs, is idle and has settled nothing |
| `JobQueue.Queue.Length` | src/queue.js:25-27 | The `length` getter is the number of queued jobs, zero exactly when none waits |
| `JobQueue.Queue.Push` | src/queue.js:48-51 | Appends exactly one job at the back; the length grows by one, earlier jobs keep their order, the flag and the settlements are unchanged |
| `JobQueue.Queue.Start` | src/queue.js:29-46 | Does nothing when started or empty. Otherwise it drains the live list front-first and settles each job with its own outcome, in the order `Drained` gives. It ends with an empty list, back to idle |
| `JobQueue.Queue.RunJobs` | src/queue.js:35-43 | The loop of `start` empties the live list, keeps the flag, and settles exactly the jobs `Drained` names, in that order |

## Left out

- Order of the earlier posts: the model reads the last element as the most recent, the order the reversal at src/rules.js:11 assumes. The caller in src/discord.js keeps its window newest first (fetched at src/discord.js:54-59, updated by `pop`/`unshift` at src/discord.js:108-109), and so do the tests at src/rules.test.js:81-87. On such a list the reversed scan meets the author's oldest post in the window first, so the spacing check counts from that post, not from the most recent one. The model states what the checker computes on the order it assumes; it does not model that caller.
- `Rules.Config`: `uniqueUsers` is a natural number of at least 1. The loader at src/config.js:38 only refuses a missing or zero value, so a negative or fractional setting reaches the checker; with a negative one the spacing check never fires. The model cannot represent such a setting.
- src/discord.js is not part of this model: the chat client, reactions, replies, debug-channel posts, command registration, startup streak recovery and the window of recent posts it keeps. They are network I/O around Discord message objects, and they call `checkValidity` with an older signature.
- The localized reply texts (src/error-messages.js), the environment configuration (src/config.js) and process start-up (src/index.js) are not part of this model; they hold no game logic.
- `Rules.DecimalValue` reads the digit run as an exact natural number. `Number()` is a double and loses precision past 2^53; that rounding is not modelled.
- `Rules.CheckValidity` treats content as a sequence of Unicode characters. JavaScript strings are UTF-16 code units, so a character outside the Basic Multilingual Plane right after the digits would be half a surrogate pair in the source. The reported character is then the whole character here.
- `GameState.State.LoadState`: a file that parses to an object without `best` sets `best` to `undefined` in the source. Numbers in the model are integers, so the model does not represent this.
- `GameState.State`: writes are fire-and-forget promises in the source, and their completion, ordering on disk and failure are not modelled. The model records the record handed to each write. EventEmitter listeners are not modelled; the notification log stands for them.
- `JobQueue.Queue.Push`: the source also returns a promise and schedules `start` with `setImmediate`. The model leaves the call to `Start` to the caller. `Start` is a no-op while a drain runs, so this is what the scheduled calls do.
- `JobQueue.Queue.Start`: promises and interleaving are modelled only as the batches pushed during each await. A job's handler is an abstract outcome, with no effects of its own on the queue.
- `JobQueue.Queue`: the source keeps the job list and the flag in a module-level `WeakMap` through `set`/`get`. The class holds them as fields. `Set`/`Get` are modelled separately as functions on a map, with their properties proved.
