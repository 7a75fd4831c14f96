# Trace portal: a verified model of the capture, archive and shipping core

Trace portal records what an agent's turns cost. It tails session logs, appends every observation of an
API call to a day's event log, folds the observations into turns, freezes days that are over into
partitions and rollups, answers queries from whichever copy is cheapest, and ships the same log to a
server over a channel that may fail part-way. Nearly every design note in the code claims that the fast,
retried or resumed path equals the simple one. Those claims are what this project states and proves.

## How the modules fit together

**Observations and turns.** `Events` and `Pricing` hold the vocabulary: events, usage, the price table.
Time is a count of milliseconds in which zero means "not set"; money is counted in twentieths of a
micro-dollar, in which every listed price is an integer. `Fold` is the turn fold. A `Record` is updated in
place, one assignment at a time; the specification beside it is an algebra of merge operations (keep, fill
if empty, replace), one per field and event. `Replay` proves the absorption laws from that algebra: from
any state, a block of events may be folded twice if and only if it holds no captured content and no tool
call without an id; any number of abandoned attempts are absorbed; and a reader that rewinds as often and
as far as it likes folds to the same state as one that does not. `TurnFacts` relates turns to the days and
keys of their events, and settles the order in which turns are listed. `Observations` and `Assembled` say what a
finished turn is without mentioning how it is folded: which event of its exchange decides each field (by the rules
of `Said`: the last that says something, the first, or any), which calls it lists under which names, which content it
refers to, and what it costs. `Columns` says the same of its stored row.

**Reading logs.** `Tail` is the scanner that reads whole lines from a growing file and remembers how far it
got. In every run of growth, scans that fail in the middle of a line, saves, restarts and forced
re-reading, the offset is on a line boundary; and as long as no restart skips ahead of the reader, the store
folds to what reading the file once gives. `Recapturing` is the run in which a restart does skip ahead.

**Shipping.** `Collect` is the batch sender, which halves a refused batch, and the endpoint, which may
durably accept only a prefix. `Forward` is one pass of the shipper: a bookmark, an overlap window behind
it, and the keys sent inside that window, over either store: the file store, which answers a range with whole
days in append order, or the database, which answers with the instants asked for, by time, and keeps no event
twice. `Shipping` runs passes against appends, failures, crashes, lost bookmarks and changes of server: over
both stores, whatever the bookmark claims was sent is on the recorded server, and what a pass sends is known
event by event; and whatever the pass of `Forward` may do is a step of these runs.

`Sightings` says when a stream that holds some events more than once folds as those events taken once: it is
enough that each sighting comes after everything before it in the order, and that what comes later of its turn
is seen again afterwards; and it is necessary, whatever the events hold. `Slices` takes one day of a log or of a
server. `EndToEnd` runs the shipper over the file store: once a pass succeeds, the server's turns of each day are
those of the day's events taken once, whatever was attempted, lost, sent again or stored again before, as long
as what is sent again goes with the rest of its turn and no pass is recorded in the middle of a replay.
`Transcripts` joins this to the tailer: the server's turns are those of the transcript read once. `Resending`
says when the two conditions hold, and `Reverting` gives runs in which they do not and the server's turns differ.

**The archive.** `Rollup`, `Tables` and `Archive` hold rows, partitions (six objects, the turns written
last) and the index (five tables). `Lifecycle` is the state machine whose steps are single writes: appends,
days passing, sweeps that write, publish and release, and a failure or crash between any two steps. Two
history variables record everything ever appended and how much of it each object was made from. On it stand
publication by ordering, that releasing a day loses nothing, and that one later sweep repairs what a crash
left. `Growth` and `Freezing` show why comparing two counts is enough before a day is released. `Skipping`
settles when a day may be skipped without looking, and `Calm` what a run adds in which events reach a day
only until a sweep takes it, crashes between any two writes included. `Compactor` is the sweep as a class
with loops, and `Sweeps` proves that a sweep nothing interrupts is a run of the state machine that ends where
`Outcome` says, and that one given up is a run that ends in a failure. `Aftermath` says exactly what a
finished sweep leaves after an interrupted one.

**Queries.** `Reading` says what it means for stored copies to stand for the turns captured: `HoldsTurns` for
the queries that read turns, `HoldsDay` for those that read rollups as well. `Serving` proves that every state
such a run reaches meets the first, half-written partitions and all, and that it meets the second when no
partition is half-written and the index is even, that is, its day and session tables know the same days. Under
the condition each of them needs, `Windows` (totals), `Daily` (the series), `Paging`, `Pages` and `Listings`
(the list, newest first), `Details` (one conversation) and `Ranking` (other orders) equal what folding every raw
turn of the window gives. `Shortfall` says exactly which tables of the totals are wrong when a rollup is not all
there. `Figures` and `Tallies` tell every total, table, row and session figure by the fields of the turns,
without mentioning the functions that add them up, and `Answers` puts this to the window of a query. `EarlyStop`
gives the exact condition under which the page scan may stop early, and `Overtaking` the windows in which it
stops too early.

**Accounts.** `Device` is the device authorization grant of RFC 8628 (sections 3.4 and 3.5) over every run of
calls, and `Grants` says what each call answers by the calls and answers before it. `Directory` is first
sign-in, with the sections of any number of concurrent calls interleaved.

`Environment` stands for the outside world: a read, a write or a request may fail unless a call is said to
be `steady`. Each method states what it leaves when it fails, and that it succeeds when steady.

## What the proofs found

- A sweep that stops after a partition is written and before the index is rebuilt can hide the day for good:
  the next sweep has nothing to write, sees an index and rebuilds nothing, releases the day, and from then on
  every query passes the day over. `Aftermath.HiddenIff` says exactly which days a finished sweep leaves
  hidden, from any reachable state: it wrote nothing, found an index, that index lacks the day, and the day is
  released already or now. `Aftermath.ADayGetsHidden` is such a run from a new archive, and
  `Skipping.SkippingIsSafeWithPruning` proves skipping safe for all runs whose sweeps get from a partition to
  the index.
- A failure between the first and the last table of the index leaves an index that knows days without their
  sessions, and nothing replaces it until a day is written. A conversation's detail then passes over exactly
  the days that the day table knows and the session table does not (`Serving.PassedOverIff`); every detail is
  whole if and only if there is no such day (`Serving.DetailsAreWholeIff`), and `Aftermath.EvenAfterIff` says
  when a sweep makes the index even again.
- The page scan can cut a session off the list: one that is still held back may end later than everything on
  the page, and the cursor is then past it (`Overtaking.ScanStopsTooEarly`, for a family of windows that
  are rightly stored and indexed). Every page of a window is right, whatever its cursor, filter and limit, if
  and only if no session of the window reaches further back than two others, neither of which touches its
  oldest day, and is listed before both (`EarlyStop.PagesAreRightIff`).
- Over the file store every pass sends the beginning of the window's first day again. In every orderly run, of
  what was sent and recorded exactly those events are pending again that lie on the day of the window's start
  and before it (`Shipping.PendingInEveryRunIff`); the database's passes send none of that. The server appends
  what it receives, and a turn of which only the older part goes out again then says what it said earlier: a
  quiet collector sends the same event with every pass, and the server's turn differs from the local one
  (`Reverting.QuietCollectorReverts`, with `Reverting.SuchEvents` for any day and any window shorter than a
  day). Sending the events before an instant again is harmless, whatever they hold, if and only if no turn has
  an event before it and a later one after it (`Resending.ResendingIff`); for turns in time order, if and only if
  each lies on one side (`Resending.TailsInTimeOrderIff`).
- A replay that stores an event again does not send it again, so the local log and the server can part: two
  observations sent, the first stored once more, and the local turn says what the first says
  (`Reverting.StoredTwiceSentOnce`). The replay goes on to the second, and the local turn is right again; but a
  pass that is recorded half-way through leaves the server with the first as the last word for good
  (`Reverting.ReplayRecordedHalfWay`). A replay recorded half-way is harmless, whatever the events hold, if and
  only if no turn of what was stored by then had been gone back over in part (`Resending.RecordedReplayIff`).
- An event that arrives later than the overlap behind the bookmark is sent by the file store's passes only if it
  lies on the window's first day, and by the database's never (`Shipping.LateIsPendingIff`); one that no pass
  can reach is never sent to that server (`Shipping.LateIsNeverPending`).
- The check before a day is released compares two counts. It vouches for keys and content references, not
  for a later measurement of a turn that was counted already (`Freezing.LateMeasurementIsMissed`). A release of a
  partition made of the first `k` of a day's `n` events loses no measurement, whatever the events hold, if and
  only if `k` is 0 or `n` (`Freezing.ReleaseLosesNothingIff`). When no event reaches a day between the sweep that
  took it and its release, nothing is lost (`Calm.ReleasedInFull`).
- A whole day answered from a rollup that is not all there adds the right totals and the wrong tables. The
  answer is right if and only if each of the model, tool and project tables is there or has nothing to say: for
  an index whose day table knows a day the others do not (`Shortfall.IndexedIsRightIff`), and for a partition
  left half-written (`Shortfall.HalfWrittenIsRightIff`).
- A forced re-reading that is interrupted leaves the saved checkpoint ahead of the reader. The restart skips to
  it, and the lines read again are then the last word, so later observations are overwritten by earlier ones.
  Interrupted after `k` of `n` lines this is harmless, whatever the lines hold, if and only if `k` is 0 or `n`
  (`Recapturing.InterruptedRecaptureIff`).
- Federated identities are filed under issuer and subject joined by a vertical bar. The key is an identity's
  own if and only if neither part holds one (`Directory.KeyIsItsOwnIff`).
- A row read back counts for as much as the turn it was made from if and only if the cache breakdown adds up
  to the total and the status code stays on its side of 400 in 32 bits (`Aggregates.RowCountsTheSameIff`).

Where code and documentation disagree the code is followed. The store interface asks that appending twice be
the same as appending once (`internal/eventstore/eventstore.go:42-45`), but the file store appends plainly
(`internal/store/store.go:72-88`), so no deduplication is assumed of it. The interface trims `EventsRange` to
instants (`internal/eventstore/eventstore.go:50-51`), while the file store returns whole days
(`internal/store/store.go:214-232`) and the database what was asked for, by time
(`internal/postgres/store.go:241-265`); `Forward.Store` has both. The shipper's comment that sending again is
harmless (`internal/collect/forward.go:176-183`) holds under the conditions above.

## Model

| member | source | states |
|---|---|---|
| Events.DaysAreHours | internal/compact/compact.go:280-283 | a day has twenty-four hours and every instant lies on exactly one |
| Pricing.LookupIsLongestPrefix | internal/pricing/pricing.go:44-66 | the price found for a model is that of the longest listed name it starts with, and there is none exactly when it starts with none |
| Pricing.ListPrices | internal/pricing/pricing.go:28-40 | the listed names, with or without anything after them, have the listed prices in dollars per million tokens |
| Pricing.MillionTokens | internal/pricing/pricing.go:15-20 | a million tokens of input or output cost the listed price, cache reads a tenth of input, cache writes five quarters of it or, for an hour, twice |
| Pricing.CostAdds | internal/pricing/pricing.go:68-87 | two usages together cost what they cost apart, writes by tier |
| Pricing.SavingsComplete | internal/pricing/pricing.go:99-112 | what was paid and what was saved are together what every cached token would have cost as input; without a price nothing is saved |
| Fold.MergeIdentity | internal/trace/identity.go:52-62 | each of the three identity fields is filled when empty and never overwritten |
| Fold.MergeToolCalls | internal/query/query.go:296-314 | the nested loops merge tool calls by id in order, name an unnamed one, and never match an empty id |
| Fold.Record.ApplyEvent | internal/query/query.go:205-287 | the field-by-field assignments of one observation have exactly the effect of one merge operation per field, chosen by the kind of event |
| Fold.AttachResults | internal/query/query.go:179-196 | each tool result's content goes to the turn that made its call, to no other turn, and nowhere when there is none |
| Fold.Observe | internal/query/query.go:139-150 | an observation finds its turn by key or starts one, and no other turn changes |
| Fold.FoldAll | internal/query/query.go:130-150 | the pass over the events leaves separate records that stand for the fold, the order of their keys and the tool results held back |
| Fold.BuildTurns | internal/query/query.go:129-166 | the loops over shared, mutable turns compute the fold, its second pass over tool results, the prices and the stable sort by start |
| Observations.FactsAreSaid | internal/query/query.go:205-287 | the fields of a fold, told by its events: the usage is the last reported, the session the last named, every other name the first, counts the last that are not zero, flags up if they ever were, error and its duration the last failure's, the model the last that answered or else the first asked for, the start the last request's or else the first answer's |
| Assembled.TurnsAreAssembled | internal/query/query.go:129-166 | every turn is what the events of its own exchange say: each field by its rule, each call once under its first name, its content and then that of the tool results its calls received, and the listed price |
| Assembled.EveryEventHasItsTurn | internal/query/query.go:129-203 | every event but a tool result belongs to exactly one turn, by message id or, without one, by turn id |
| Assembled.LastReportStands | internal/query/query.go:262-263 | the usage of a turn is that of the last response of its exchange that reports any |
| Assembled.NoReportNoCost | internal/query/query.go:158-164 | a turn of whose exchange nothing reports usage used nothing and cost nothing |
| Assembled.FirstStopStands | internal/query/query.go:254 | and its stop reason is the first that was given |
| Assembled.CallsAreSaid | internal/query/query.go:289-314 | merging lists each call with an id once, in order of first report and under the first name reported, and every call without one |
| Assembled.OwnerIff | internal/query/query.go:179-196 | a result goes to a turn if and only if it names a call and of the turns that made the call this one appeared last |
| Fold.FoldKeepsOrder | internal/query/query.go:130-150 | from any ordered state, every key of the fold is listed exactly once |
| TurnFacts.FoldKeepsKeys | internal/query/query.go:198-203 | a turn folded under a key carries that key in its own fields |
| TurnFacts.TurnsStartOnDay | internal/query/query.go:205-287 | measurements of one day fold into turns that all start on that day |
| TurnFacts.TurnsErase | internal/query/query.go:129-166 | folding commutes with erasing identities: order, sums and every other field do not depend on them |
| TurnFacts.OrderIsFirstSeen | internal/query/query.go:139-148 | of two turns the fold lists first the one whose first observation came first |
| TurnFacts.ByStartThenFirstSeen | internal/query/query.go:158-166 | the turns are those folded, by start, and those that start together stand in the order in which they first appeared |
| Replay.EffectsCompose | internal/query/query.go:205-287 | two observations have the effect of one composed operation per field |
| Replay.FoldTwice | internal/query/query.go:129-166 | from any state a replayable block may be folded twice with no effect on turns, order or results |
| Replay.ResendIsHarmlessIff | internal/query/query.go:205-314 | folding a block a second time changes nothing from any state if and only if no event is captured content, a tool result or has a tool call without an id |
| Replay.FoldMiddle | internal/query/query.go:205-287 | an observation that was made before and is made again later adds nothing in between, from any state |
| Replay.AttemptIsAbsorbed | internal/collect/forward.go:176-183 | from any state, folding a prefix of a list and then the list is folding the list |
| Replay.AbandonedAttemptsAreAbsorbed | internal/collect/forward.go:176-183 | so it is for any number of prefixes of any lengths |
| Replay.RewindingReaderFoldsOnce | internal/ingest/ingest.go:233-295 | however often and however far a reader goes back, with what it still owes its output folds as the log read once |
| Tail.FirstNewline | internal/source/claudecode.go:551-572 | the first newline is the only position with a newline there and none before |
| Tail.LinesConcat | internal/source/claudecode.go:537-574 | cutting at a line end, the lines of a text are those of its two parts |
| Tail.Ingester.Handle | internal/ingest/ingest.go:257-270 | the events of a line reach the store in order, and when it refuses one exactly those before it are stored |
| Tail.Ingester.ScanJSONL | internal/source/claudecode.go:537-574 | whole lines are taken in order from the offset, the offset stays before a line that failed and before an unfinished one, and a file that shrank is read from its start |
| Tail.Ingester.Pass | internal/ingest/ingest.go:244-287 | a file that has not grown is left alone; otherwise the new offset is where the scan stopped; if nothing failed the events of every whole line after the old offset were stored, or of the whole file if it shrank |
| Tail.ScanIsAStep | internal/source/claudecode.go:537-574 | what the scan leaves is exactly one step of the runs below |
| Tail.OffsetsAreLineEnds | internal/source/claudecode.go:537-574 | in every run, whatever its restarts, offset and checkpoint are on line boundaries |
| Tail.TailingFoldsOnce | internal/ingest/ingest.go:233-335 | in every run whose restarts go back to where the reader is or before it, the store with the unread lines folds as the whole file read once |
| Tail.EachLineOnce | internal/source/claudecode.go:537-574 | without failures and restarts the store holds the events of the lines before the offset, each once and in order |
| Recapturing.InterruptedRecaptureIff | internal/ingest/ingest.go:322-326 | a forced re-reading of a file of n lines that a restart interrupts after k of them leaves the store folding as the file read once, for every parser and content, if and only if k is 0 or n |
| Collect.LandedContents | internal/collect/server.go:162-179 | what lands is exactly the plausible events sent, each under the credential's identity |
| Collect.RecentLands | internal/collect/server.go:245-271 | a dated event of one of the 1825 days up to the server's own lands, whatever else it holds |
| Collect.LandsIff | internal/collect/server.go:162-179 | what lands is exactly what was sent with a date no more than 1825 days back and no more than one day ahead, under the credential's identity |
| Collect.Endpoint.HandleCollect | internal/collect/server.go:99-188 | on success the plausible events landed in order and the counts add up; on a storage failure exactly a prefix did; on any refusal nothing did; more than twenty thousand events are refused, and fewer never for their number |
| Collect.Shipper.Send | internal/collect/client.go:67-117 | only a decoded success reports delivery; a rejected credential and a batch too large are told apart from every other failure; a refusal means nothing landed, any other failure some prefix |
| Collect.Shipper.SendNext | internal/collect/client.go:140-158 | one round: the next batch, as large as the size allows, lands in full and is left behind; or it is refused for its size, nothing lands, and the size becomes half of it; or the shipping ends with the answer, or cancelled, what was acknowledged and a prefix beyond it landed |
| Collect.Shipper.SendAll | internal/collect/client.go:135-160 | it ends when nothing is left, with the first answer that is neither a delivery nor a refusal of more than one event for its size, or when it is cancelled; on success the batches sent are the input and the counts add up to it; otherwise some prefix at least as long as what was acknowledged landed; undisturbed it makes as many requests as there are batches, of two thousand unless told otherwise |
| Collect.RefusedAtMost | internal/collect/client.go:147-149 | a batch is halved at most log2 of the first size times, whatever the answers |
| Forward.EventsRangeContents | internal/store/store.go:214-232 | a range read from the file store holds exactly the log's events of the days from one instant's to the other's, from the database exactly those between the instants, whichever instant is given first |
| Forward.FilesInOrder | internal/store/store.go:214-232 | the file store gives day after day, each of them whole and as it was appended |
| Forward.InstantsInOrder | internal/postgres/store.go:241-265 | the database gives instant after instant, all events of each between the two given and no others |
| Forward.KeysAgreeIff | internal/collect/forward.go:219-228 | two events count as the same record exactly when kind, turn id, message id and time agree |
| Forward.Forwarder.ReadRange | internal/store/store.go:214-232 | day by day in append order from the file store, by time from the database |
| Forward.Forwarder.Read | internal/collect/forward.go:124-154 | another server resets both halves of the bookmark; without a bookmark reading starts at the oldest day, otherwise at the overlap behind it, over whichever store there is |
| Forward.Forwarder.ListPending | internal/collect/forward.go:156-171 | what is pending is what was read, less what is listed and less captured content, in order |
| Forward.Forwarder.Record | internal/collect/forward.go:186-200 | the bookmark moves to the newest event read and never back, lists the keys within the overlap behind it, and stays when it cannot be written |
| Forward.Forwarder.Pass | internal/collect/forward.go:123-202 | nothing pending leaves everything alone; a success puts exactly the pending events on the server and moves the bookmark; a failure leaves a prefix there and the bookmark where it was; what is reported is what ended the shipping |
| Shipping.PassIsTwoSteps | internal/collect/forward.go:123-202 | whatever the pass may leave of bookmark and server log, one start and one end of a pass in the runs below leave it too |
| Shipping.LogOverRuns | internal/postgres/store.go:170-188 | in every run the file store holds everything appended, in order; the database holds it once, whatever came twice, and never drops an event |
| Shipping.DeliveryOverRuns | internal/collect/forward.go:123-251 | every reachable state keeps the delivery invariant: what the bookmark claims was sent is on the recorded server or was reported rejected by it |
| Shipping.DeliveredInEveryRun | internal/collect/forward.go:123-251 | over both stores, an event behind the window or listed is settled at the recorded server, and a pass that succeeds leaves everything it could read up to its instant settled, bookmark written or not |
| Shipping.MarkOverRuns | internal/collect/forward.go:186-200 | every reachable state splits the log where the recorded pass stood: before it everything is behind the window or listed, after it everything of its own is inside the window |
| Shipping.PendingInEveryRunIff | internal/collect/forward.go:123-200 | in every orderly run an event a pass could read is pending if and only if the server changed, the recorded pass had not read it, or the file store reads it again, on the window's first day and before the window; and what the recorded pass had read is settled |
| Shipping.PendingInOnePassIff | internal/collect/forward.go:139-171 | from any bookmark and log, an event is pending if and only if it is not listed and the store's range covers it |
| Shipping.LateIsPendingIff | internal/collect/forward.go:139-171 | an event that came later than the overlap behind the bookmark is pending if and only if the store is the file store and the event is on the window's first day |
| Shipping.LateIsNeverPending | internal/collect/forward.go:139-200 | an event older than anything the bookmark's passes read is pending in no run on that server |
| Sightings.TurnFolds | internal/query/query.go:205-287 | from any turn, a stream of one turn's distinct measurements in which each comes in order and is followed by the later ones folds as each taken once |
| Sightings.SightingsFold | internal/query/query.go:129-150 | from the start, such a stream of any number of turns has the same turns, in the same order, as the events taken once |
| Sightings.SightingsIff | internal/query/query.go:205-287 | a stream that first shows n events in order and holds some again folds as the events once, whatever they hold, if and only if after every sighting the later events of its turn are seen again |
| EndToEnd.PendingIsOpen | internal/collect/forward.go:139-171 | day by day, what a pass sends is what the log it read holds that was not sent or is sent again, in log order |
| EndToEnd.UnrecordedHolds | internal/collect/forward.go:176-183 | an attempt that is not recorded, whatever prefix of it arrived, keeps every day of the server in order |
| EndToEnd.SuccessHolds | internal/collect/forward.go:173-184 | a success that read no log in mid-replay leaves everything it read on the server, each sighting followed by the rest of its turn |
| EndToEnd.RecordedHolds | internal/collect/forward.go:186-200 | a recorded success that read no log in mid-replay keeps every day of the server in order |
| EndToEnd.ServerTurnsMatchSourceTurns | internal/collect/forward.go:123-202 | over a log that may hold an event several times: after any strict run whose recorded passes read no log in mid-replay, once a pass that read the whole log succeeds, the server's turns of a day are those of the day's events taken once, same order, every field but identity |
| EndToEnd.ServerTurnsMatchLocalTurns | internal/collect/forward.go:123-202 | over a log that holds each event once: after any strict run, once a pass that read the whole log succeeds, the server's turns of every day are the local turns without content |
| Transcripts.ShowsOverRuns | internal/ingest/ingest.go:233-335 | in every tailing run whose restarts go back, the log shows the lines read in order, each sighting followed by what was read after it |
| Transcripts.CaughtUpIsTidy | internal/ingest/ingest.go:233-335 | a log that holds nothing beyond the tailer's offset is not in mid-replay on any day |
| Transcripts.ServerTurnsMatchTranscriptTurns | internal/collect/forward.go:123-202 | tailer and shipper together: a transcript tailed with restarts that go back and caught up with, its log shipped by any strict run whose recorded passes read no log in mid-replay; once a pass that read the whole log succeeds, the server's turns of a day are those of the transcript's events of that day read once |
| Resending.ResendingIff | internal/collect/forward.go:139-200 | sending the events before an instant again after all of them is harmless, whatever they hold, if and only if no turn has an event before it and a later one not before it |
| Resending.TailsInTimeOrderIff | internal/collect/forward.go:139-200 | for turns in time order that is, if and only if every turn is before the instant as a whole or not at all |
| Resending.RecordedReplayIff | internal/collect/forward.go:186-200 | what arrived while a replay was under way, and then the rest, folds as the events once, whatever they hold, if and only if every sighting in what arrived first was followed there by the later events of its turn |
| Reverting.QuietCollectorReverts | internal/store/store.go:214-232 | a run in which three events are sent and recorded and the next pass sends the first again: that pass and every one after it has exactly the first pending, and the server's turn names the first's session where the local turn names the second's |
| Reverting.SuchEvents | internal/collect/forward.go:139-142 | there are such events on any day, for any window shorter than a day |
| Reverting.StoredTwiceSentOnce | internal/store/store.go:72-88 | a run in which an event is stored again after it was sent: nothing is pending, and the two turns differ |
| Reverting.ReplayRecordedHalfWay | internal/collect/forward.go:186-200 | a run in which a pass is recorded between the two events of a replay: nothing is pending after it, the local turn is that of the events once, and the server's is not |
| Reverting.SuchTwins | internal/collect/forward.go:139-142 | there are two such events on any day, for any window shorter than a day |
| Rollup.RowRoundTrip | internal/compact/compact.go:285-371 | a row read back as a turn and written again is the same row |
| Rollup.TurnRoundTripIff | internal/compact/compact.go:285-371 | a turn comes back from its row unchanged if and only if it holds nothing the row has no column for |
| Columns.RowIsSaid | internal/compact/compact.go:285-327 | every column of a turn's row, told by the events of its exchange; the start is in Unix time and counts are held to 32 bits |
| Columns.PartitionIsSaid | internal/compact/compact.go:113-167 | the rows of a compacted day are those of its turns, one each, in their order |
| Rollup.CountFiles | internal/compact/compact.go:373-450 | every table of a day's summary is filed under the key its rows carry, and the project tables agree on the projects |
| Rollup.Summarise | internal/compact/compact.go:373-480 | the loop over a day's turns and the sorted listings give the day's summary |
| Tallies.SummaryIsSaid | internal/compact/compact.go:373-480 | every row of a day's five tables, told by the fields of the turns it is about: sums, counts, first and last start, sessions; one row each, in byte order, and no other |
| Tallies.ProbingIsSaid | internal/compact/read.go:106-140 | session rows derived from the turns of a partition without any say, session by session, what the day's own rows would |
| Archive.ListDays | internal/store/store.go:235-258 | the days of the window, oldest first |
| Archive.InOrderHolds | internal/store/store.go:235-258 | that list holds each day exactly once, strictly ascending |
| Sorting.LessIff | internal/compact/page.go:76-84 | strings compare at the first place where they differ, and a string comes before what it begins |
| Growth.KeysGrow | internal/query/query.go:129-150 | a longer log has the turn keys of a shorter one, first and in the same order |
| Growth.TurnsCarryKeys | internal/query/query.go:129-166 | the finished turns carry exactly the keys of the fold, each once |
| Growth.SameCountSameKeys | internal/compact/prune.go:86-90 | when a prefix of a log has as many turns as the log, it has the same turn keys |
| Growth.BlobsGrow | internal/query/query.go:179-287 | content references only accumulate as a log grows, attached results included |
| Growth.SameCountSameContent | internal/compact/prune.go:91-97 | when a prefix has as many content references as the log, it has the same ones, with multiplicity |
| Lifecycle.StepKeepsInv | internal/compact/compact.go:113-209 | every single step keeps the invariant: each object of a partition was made from a prefix of the day's log, objects written earlier from prefixes at least as long |
| Lifecycle.InvOverRuns | internal/compact/compact.go:113-209 | the invariant holds in every reachable state, with crashes between any two writes |
| Lifecycle.PublicationByOrdering | internal/compact/compact.go:137-166 | in every reachable state a partition with turns has all six objects, and over unchanged events each is the rollup of exactly those turns |
| Lifecycle.PruneLosesNothing | internal/compact/prune.go:38-102 | in every run that appends to no released day, each day's log is still in the window or its partition passed the check against all of it |
| Lifecycle.SweepRepairs | internal/compact/compact.go:171-209 | from any idle reachable state one uninterrupted sweep completes every past day in the window, writing exactly those without turns |
| Freezing.CountsSuffice | internal/compact/prune.go:60-102 | two equal counts mean the partition's rows have the keys and the content references of the whole log |
| Freezing.FormatIsLossless | internal/compact/prune.go:60-102 | the archive's own format meets what the state machine asks of a format |
| Freezing.EveryTurnIsKept | internal/compact/prune.go:38-102 | every turn key ever appended is a row of its day's partition or the day is still in the window, and the content references are the log's |
| Freezing.LateMeasurementIsMissed | internal/compact/prune.go:86-97 | a second observation of a counted turn passes the check although the rows do not hold it |
| Freezing.ReleaseLosesNothingIff | internal/compact/prune.go:80-97 | passing the check means the rows hold every measurement, for every log of n events of the day of which the partition was made of the first k, if and only if k is 0 or n |
| Skipping.SkippingIsSafeWithoutPruning | internal/compact/daily.go:164-182 | with pruning off, a day skipped in any reachable state has no partition and never had an event |
| Skipping.SkippingIsSafeWithPruning | internal/compact/daily.go:164-182 | with pruning on, the same in every run whose sweeps get from a partition they wrote to the index's first table |
| Skipping.CrashBeforeRebuild | internal/compact/compact.go:171-197 | when the window holds one day, not yet written and not in the index that is there, the sweep gets to a point where a crash leaves the day complete and unlisted |
| Skipping.UnfinishedSweepHidesADay | internal/compact/compact.go:191-207 | what the next sweep makes of it: the day is released unlisted and skipped from then on |
| Aftermath.RebuiltHidesNothing | internal/compact/compact.go:187-195 | a finished sweep that rebuilds the index leaves no day skipped that ever had an event |
| Aftermath.HiddenIff | internal/compact/compact.go:171-209 | with pruning on, from any reachable state, a finished sweep leaves a day skipped that had events if and only if it wrote nothing, found an index, that index lacks the day, and the day is out of the window or past and compacted |
| Aftermath.ADayIsLeftBehind | internal/compact/compact.go:171-197 | a run from a new archive that ends in a crash with one day complete, indexed nowhere, beside an index of another day |
| Aftermath.ADayGetsHidden | internal/compact/compact.go:187-207 | the sweep after that run releases the day and leaves it skipped with its event in its partition |
| Compactor.Compactor.WriteAll | internal/compact/compact.go:137-166 | the six objects are written in order; a failure leaves exactly those written before it |
| Compactor.Compactor.CompactDay | internal/compact/compact.go:113-167 | nothing for today, for a day that has its turns unless forced, or for an empty day; otherwise the rollup of the window's events, all of it or a first part |
| Compactor.Compactor.CompactDays | internal/compact/compact.go:176-184 | the days are compacted in order and the count is how many were due; a failure leaves whole days and part of one |
| Compactor.Compactor.GatherIndex | internal/compact/index.go:59-128 | reading the partitions in any order gathers exactly each one's rollups under its day |
| Compactor.Compactor.RebuildIndex | internal/compact/index.go:59-159 | the five tables are replaced in order, and the cached copy is dropped once any was tried |
| Compactor.Compactor.Check | internal/compact/prune.go:80-97 | a partition passes if and only if it has as many turns as the window's fold and its turns refer to as many pieces of content |
| Compactor.Compactor.PruneDay | internal/compact/prune.go:38-102 | a past, compacted day that passes is released and no other is touched |
| Compactor.Compactor.PruneHotWindow | internal/compact/prune.go:38-57 | days are released in order until one fails the check |
| Compactor.Compactor.CompactAll | internal/compact/compact.go:171-209 | success leaves the sweep's outcome, failure a first part of it: some writing, or all of it and some publishing, or all of that and some releases; it reports how many days were due |
| Compactor.Compactor.RecompactAll | internal/compact/compact.go:219-243 | the same with every day rewritten and the index always rebuilt; it reports how many days were due |
| Compactor.SweepIs | internal/compact/compact.go:171-243 | what a finished sweep leaves, day by day: a day that is over and not empty is written from its events if it has no turns or the sweep is forced, and otherwise left; the index is published again if forced, if a day was written or if it was not whole; with releases on, exactly the days that are over and have their turns leave the window |
| Sweeps.SweepIsARun | internal/compact/compact.go:171-243 | from any idle state where no day fails the check, starting a sweep and stepping on ends idle with the stores the methods leave |
| Sweeps.GivingUpIsARun | internal/compact/compact.go:171-243 | wherever the methods may leave the stores when they give up, some number of single steps and then a failure leaves them |
| Calm.CalmOverRuns | internal/compact/compact.go:113-209 | in every run, crashes between any two writes included, in which events reach a day only until a sweep takes it, every object of a partition was made from the whole day, and each index in use agrees with the partitions behind it |
| Calm.CalmDay | internal/compact/source.go:54-66 | in every state of such a run a compacted day is the rollup of all its events and any other day is in the window in full |
| Calm.CalmIndex | internal/compact/index.go:161-232 | any index loaded knows only compacted days, has their own rows right, and every row of a day whose sessions it has |
| Calm.ReleasedInFull | internal/compact/prune.go:38-102 | in every run in which no event reaches a day between the sweep that took it and its release, the released day is the rollup of every event it ever had |
| Serving.TurnsAreHeld | internal/compact/source.go:54-66 | in every reachable state, in the middle of a write or after a crash, reading a day gives its turns |
| Serving.EveryStateCanList | internal/compact/page.go:86-181 | so the list, newest first or ranked, can be answered in every reachable state |
| Serving.CoversIff | internal/compact/index.go:161-232 | an index is right about a day it knows if and only if its session table knows the day or the day has no turns |
| Serving.StateIsReady | internal/compact/source.go:137-206 | in every reachable state without a half-written partition and with an even index, every day can be answered from storage as from the raw turns |
| Serving.PassedOverIff | internal/compact/page.go:257-279 | a day that holds turns of a session is passed over in its detail if and only if the index has the day in its day table and not in its session table |
| Serving.DetailsAreWholeIff | internal/compact/page.go:212-279 | no detail passes over a turn if and only if the index is even |
| Aftermath.EvenAfterIff | internal/compact/compact.go:187-195 | a finished sweep leaves an even index if and only if it rebuilds the index or the index was even |
| Serving.IndexedIsPlaced | internal/compact/page.go:186-192 | when every day but the newest with turns is indexed, each turn's session is placed on its day |
| Serving.MeasurementsStartOnTheirDay | internal/compact/source.go:15-52 | the turns of a day's measurements are found by reading that day |
| Reading.InWindowIsAll | internal/compact/source.go:15-52 | going through the window's days finds every turn whose start lies in the window |
| Answers.InWindowIff | internal/compact/source.go:167-203 | the turns of a window are those that start between its instants, both included |
| Answers.CapturedIsPriced | internal/query/query.go:158-164 | every turn of the archive's days is priced by the list |
| Aggregates.CountingIsAdding | internal/compact/source.go:266-294 | adding a day's accumulated counters is adding each of its turns |
| Aggregates.RollupIsItsTurns | internal/compact/source.go:210-264 | adding a day's stored rows is adding each of its turns, in every total and every table |
| Figures.TotalsAreSums | internal/compact/source.go:266-294 | each total is the sum of its own field over the turns; errors and turns without a price are counted |
| Figures.UnpricedIff | internal/compact/source.go:272-274 | a turn counts as unpriced if and only if it names a model that begins with no listed name |
| Figures.ByModelCounts | internal/compact/source.go:278-280 | the number of a model is how many turns it answered |
| Figures.ToolCallsCount | internal/compact/source.go:281-283 | the number of a tool is how many calls were made to it |
| Figures.ByProjectAdds | internal/compact/source.go:284-293 | a project's figures are those of its own turns, column by column, under the name the first of them gives it |
| Figures.ProjectsAddUp | internal/compact/source.go:109-135 | column by column the projects add up to the turns that have one |
| Answers.RangeIsSaid | internal/compact/source.go:137-206 | so the totals and tables of a window are sums and counts over its turns |
| Aggregates.RowCountsTheSameIff | internal/compact/source.go:266-294 | a turn read back from its row counts for the same if and only if its cache breakdown adds up and its status code survives 32 bits around 400 |
| Windows.SessionsCounted | internal/compact/compact.go:373-450 | a day's rollup counts exactly the sessions of its turns |
| Windows.AddIndexed | internal/compact/index.go:311-331 | the index answers for exactly the days it covers, with their rows |
| Windows.AddPartition | internal/compact/source.go:210-244 | a partition answers if and only if it has its own row |
| Windows.AggregateWhole | internal/compact/source.go:179-188 | a whole day is answered by the loaded index if it has the day, else by a partition with its own row, else not at all; and what is added are that copy's rows |
| Shortfall.RolledIsRightIff | internal/compact/source.go:210-264 | a rollup with tables missing adds the day's totals, and what its turns add in every table if and only if each missing table has nothing to say about them |
| Shortfall.IndexedIsRightIff | internal/compact/index.go:311-331 | in every reachable state, the answer of a loaded index for a day in its day table is right if and only if each of the model, tool and project tables knows the day or has nothing to say about it |
| Shortfall.HalfWrittenIsRightIff | internal/compact/source.go:210-244 | the answer of a partition left half-written is right if and only if each of those three objects is there or has nothing to say |
| Windows.AddTurns | internal/compact/source.go:188-203 | the turn-level path counts exactly the turns inside the window and sees their sessions |
| Windows.AggregateDay | internal/compact/source.go:155-203 | whichever copy answers, a day adds exactly its turns inside the window |
| Windows.BoundsKept | internal/compact/source.go:167-206 | mixing days counted from rollups with days counted from turns keeps the session count from below, and exact while no rollup was used |
| Windows.AggregateRange | internal/compact/source.go:137-206 | totals, per-model, per-tool and per-project figures are those of every turn of the window; sessions are counted day by day on days answered by a rollup and once on the others, so never too low; and the count is called exact if and only if no whole day was answered by a rollup |
| Windows.WholeIff | internal/compact/source.go:143-156 | the days a rollup may answer for are those of which no instant is outside the window |
| Sessions.SumSwaps | internal/query/query.go:358-405 | a session's figures do not depend on the order of its turns |
| Sessions.Summarize | internal/query/query.go:358-405 | the loop over a session's turns computes its summary |
| Figures.SessionIsSaid | internal/query/query.go:358-405 | a session starts when the first of its turns starts and ends when the last of them to end ends; its figures are sums and counts over its turns; its models and tools are those they name |
| Sessions.NarrowSummary | internal/compact/sessions.go:103-152 | turns read through the narrow columns give the same session figures as full ones |
| Paging.EarliestDayIs | internal/compact/page.go:194-202 | the earliest day is the day of some turn and no later than that of any |
| Paging.OldestDayOf | internal/compact/page.go:186-192 | the oldest known day is the earlier of what was seen and what the index says |
| Paging.NothingOlder | internal/compact/page.go:130-142 | once the oldest known day of a session has been passed, no older day holds a turn of it, idle days in between included |
| Paging.CompleteIsWhole | internal/compact/page.go:130-142 | a session leaves the pending ones only with every turn it has in the window |
| Paging.JoinDay | internal/compact/page.go:118-128 | a day's turns inside the window join those pending, session by session |
| Paging.ListingOn | internal/compact/page.go:118-142 | a day adds to the list exactly the matching sessions it completes, each once |
| Paging.ReadDays | internal/compact/page.go:111-149 | the scan goes backwards until the page is full or the window ends, with every session either listed in full or pending with all turns met |
| Paging.ScanDays | internal/compact/page.go:111-168 | sorted, what the scan lists is what a scan of the whole list down to the first day with more than a page lists |
| Pages.SessionsPage | internal/compact/page.go:86-181 | the page is the one cut from what the scan lists, later ends first and among equal ones later ids, of at most the limit or fifty; it is the one cut from the whole list when no session of the window overtakes two others; the days reported as read are those down to the first by which more than a page was complete |
| Pages.PagesAreTheList | internal/compact/page.go:63-71 | following the cursor from the start ends, and the pages concatenate to exactly the matching sessions, each once, latest end first |
| Listings.SessionIsRaw | internal/compact/page.go:118-161 | a listed session is the summary of its raw turns of the window, however its days were stored and although they were met newest first |
| Answers.ListedIsSaid | internal/compact/page.go:86-181 | so a listed session says what its turns of the window say, however its days were stored |
| Listings.ListingExists | internal/compact/page.go:163-168 | the whole list the pages are compared with always exists |
| EarlyStop.EarlyStopIsRightIff | internal/compact/page.go:144-149 | a page cut after an early stop is the right one if and only if no session held back comes before its last |
| EarlyStop.PagesAreRightIff | internal/compact/page.go:86-181 | every page of a window is right, for every cursor, filter and limit, if and only if no session of it reaches further back than two others, neither of which touches the window's oldest day, and is listed before both |
| EarlyStop.OvertakerBreaksAPage | internal/compact/page.go:144-181 | where one does, the first page of one session of those three is wrong and its cursor is past the one that overtakes |
| Overtaking.ScanStopsTooEarly | internal/compact/page.go:144-181 | for every three days, compacted and indexed but the last, on which a session begun on the first is resumed on the last after two shorter ones, the first page of one session is a shorter one and its cursor is past the long one |
| Overtaking.SomeStory | internal/compact/page.go:144-149 | there are such days from any day on |
| Details.ListHolding | internal/compact/page.go:257-279 | the days read are exactly those of the window not ruled out, in order |
| Details.CoveredDayIsNamed | internal/compact/page.go:257-279 | a day whose session rows are those of its turns is never passed over for a session of theirs |
| Details.NothingMissed | internal/compact/page.go:212-248 | reading only those days finds what reading every day finds |
| Details.SessionDetail | internal/compact/page.go:212-248 | the detail is turns of the session that start in the window, by start, all of them where no day is wrongly passed over; it is absent exactly when there is none |
| Details.DetailIsWholeIff | internal/compact/page.go:212-279 | the detail is every turn of the session in every window if and only if no day that holds one is passed over |
| Daily.RowIsItsTurns | internal/compact/daily.go:205-213 | a point made from a day's row is the point made from its turns |
| Daily.FromTurns | internal/compact/daily.go:235-255 | the loop over turns, read back or not, gives the day's point |
| Answers.PointIsSaid | internal/compact/daily.go:235-255 | a day's point, told by the fields of its turns |
| Daily.DailyRange | internal/compact/daily.go:39-81 | the series is, for each day of the window that has turns, what counting them gives, whichever copy answered |
| Ranking.SessionTurns | internal/compact/sessions.go:65-101 | the narrow turns of the window stand for the raw ones, sorted by start |
| Ranking.SessionsFromTurns | internal/query/query.go:324-336 | one summary per session and no other, though the groups come from a map |
| Ranking.SameSessions | internal/compact/sessions.go:65-152 | the sessions read through narrow rows are those of the raw turns |
| Ranking.SortIsRanking | internal/compact/sort.go:60-83 | sorting any gathering of the sessions gives the one ranking of the order |
| Ranking.RankingExists | internal/compact/sort.go:60-83 | that ranking always exists |
| Ranking.SessionsRanked | internal/compact/sort.go:48-112 | a page is the cut of the ranking at its offset, of at most the limit or fifty; nothing on it costs more, has more turns or more errors than what is before it, as the order says, nor ends later where these are the same; a negative offset is refused |
| Answers.RankedIsSaid | internal/compact/sort.go:60-83 | a ranked session says what its turns of the window say |
| Ranking.OffsetsCoverTheList | internal/compact/sort.go:85-112 | the pages from the start concatenate to the ranking |
| Device.MemoryDevices.Create | internal/auth/device.go:146-157 | a request is stored under both codes unless its user code is taken |
| Device.MemoryDevices.ByUserCode | internal/auth/device.go:168-177 | a user code leads to the request it names, if that is still stored |
| Device.MemoryDevices.Update | internal/auth/device.go:180-188 | a stored request is replaced; one that is gone stays gone |
| Device.MemoryDevices.Delete | internal/auth/device.go:191-199 | a request goes with its user code |
| Device.DeviceFlow.Start | internal/auth/device.go:233-259 | a request needs a machine and takes the first free code of a few drawn; it gives up after five draws, all of them taken |
| Device.DeviceFlow.Approve | internal/auth/device.go:268-275 | only a pending, unexpired request is bound, to the approver's account |
| Device.DeviceFlow.Deny | internal/auth/device.go:279-286 | only a pending, unexpired request is refused |
| Device.DeviceFlow.Poll | internal/auth/device.go:313-363 | the answers in the code's order: unknown or redeemed, expired, too soon, denied, pending, token; redeemed before anything is issued |
| Device.RunKeeps | internal/auth/device.go:134-363 | in every run the two maps stay inverse and every stored request is what the answers about its code made it |
| Device.EveryAnswerIsLawful | internal/auth/device.go:313-363 | a token only after approval, never after denial or expiry, for the approver's account and the requester's machine; pending, denied and token answers never sooner than the interval after the last poll |
| Device.OneTokenPerCode | internal/auth/device.go:313-363 | a device code yields at most one token in any run |
| Grants.PollAnswers | internal/auth/device.go:313-363 | the answer to a poll is decided by what came before: bad when the code is unknown or used up, expired after ten minutes, too soon within five seconds of the last poll, then denied, pending, or the token for the approver's account and the requester's machine under its label |
| Grants.DecisionsAreTaken | internal/auth/device.go:268-307 | under its user code a request that is undecided and in time is approved or refused, and otherwise the answer says why not |
| Grants.UnknownCodesAreBad | internal/auth/device.go:292-297 | under any other user code nothing is decided |
| Grants.StartAnswers | internal/auth/device.go:233-259 | a start takes the first draw whose user code is not in use, for ten minutes and polls five seconds apart; it fails exactly without a machine or a free draw |
| Directory.KeysAreIdentities | internal/auth/provider.go:154 | for issuers without the separator, equal keys mean equal issuer and subject |
| Directory.KeyIsItsOwnIff | internal/auth/provider.go:154 | an identity's key belongs to it alone if and only if neither issuer nor subject holds the separator |
| Directory.MemoryDirectory.Refresh | internal/auth/directory.go:180-190 | a known identity keeps user and tenant and gets the e-mail and name of the claims |
| Directory.MemoryDirectory.Insert | internal/auth/directory.go:198-213 | the second look under the lock joins an account that was filed meanwhile, and files a new one otherwise |
| Directory.MemoryDirectory.Resolve | internal/auth/directory.go:168-214 | alone, a sign-in refreshes the account of a known identity and files one for a new identity the policy admits; the account answered is the one kept, with the e-mail and name of the claims; it is the sections of the runs below, one after another |
| Directory.OneAccountPerKey | internal/auth/directory.go:168-214 | for every interleaving, finished sign-ins share a user if and only if they share a key, and then share a tenant |
| Directory.OneAccountPerIdentity | internal/auth/directory.go:168-214 | for every interleaving, finished sign-ins whose issuers do not hold the separator share a user if and only if issuer and subject are the same |
| Directory.FiledForGood | internal/auth/directory.go:198-213 | from any reachable directory on, a key keeps its user and a user its tenant |
| Directory.EveryRunGoesOn | internal/auth/directory.go:168-214 | whatever has run so far, any call may take its next section |

## Left out

- Floating point: costs are exact integers in twentieths of a micro-dollar; rounding, sub-millisecond time and the wall clock are not modelled, and `now` is a parameter.
- Goroutine scheduling: crash points between single writes and the sections of concurrent sign-ins are modelled, other interleavings are not; `loadIndex` is one atomic step, so a stale read stored after an invalidation is not covered.
- Parquet, gzip, JSON, hashing, Postgres, S3 and HTTP: objects are map entries written atomically, and an encoding is the identity on its declared columns.
- Handlers, routing, cookies, OIDC discovery, the proxy, the web interface and the commands: plumbing or presentation.
- Filesystem walking, coverage counters and the parsing of single log lines: a line parses to any list of events, given as a function.
- The filter language: a filter is any predicate over sessions.
- TurnsRange, ProjectDaily, SessionsRange: easier relatives of the queries that are modelled.
- Tenant policies: `TenantFor` may answer anything; the domain policy itself is not modelled.
- Text forms: cursors as base64 text, typed user codes and their normalisation, partition keys as date strings.
- Sessions.Summarize: without model, project, branch and identity of a session, which depend on the order in which days are met and are not part of the listed session here.
- Fold.AttachResults: the code walks its turns in no fixed order, so a call id used by two turns may go to either; the model takes the turn that appeared last.
- Replay.FoldMiddle: for events that carry a date, as every event does once stored.
- Tail.TailingFoldsOnce: for logs whose events are dated and replayable; captured content is appended once per reading in the code too. A file replaced by a longer one between two passes is not noticed by the code and not modelled, and a restart goes back to the checkpoint last saved. For runs that restart ahead of the reader see `Recapturing.InterruptedRecaptureIff`.
- Collect.Endpoint.HandleCollect: the byte limit, credentials, decoding and storage are outcomes of the environment, not computed from the request.
- Forward.EventsRangeContents: the database may give events of one instant in any order; the model takes the order of arrival.
- Forward.Forwarder.Pass: the sending machine reads one `now`, and the server one `serverNow` per pass; keys are tuples where the code joins them with separators; an unreadable bookmark is an absent one.
- Shipping.DeliveredInEveryRun: for events that arrive no later than the overlap behind the bookmark or were stored before, with keys that name one event; for later ones see `Shipping.LateIsPendingIff`.
- Shipping.PendingInEveryRunIff: in addition for dated events and a clock that does not run backwards and that no event is ahead of.
- EndToEnd.ServerTurnsMatchSourceTurns: over the file store and one server that appends what it receives and finds it plausible, for replayable events with keys of their own in their source, when what is sent again of a turn is sent with the rest of it and no pass is recorded in mid-replay; without either of the last two it is false, see `Reverting`. A server on the database keeps no event twice and orders a day by time, which is not covered.
- EndToEnd.ServerTurnsMatchLocalTurns: the same for a log without repetitions, which is never in mid-replay.
- Transcripts.ServerTurnsMatchTranscriptTurns: for a machine with one transcript; the lines of several interleave in the order of the passes over them, which is not modelled.
- Lifecycle.PruneLosesNothing: for runs in which no event arrives for a day after it was released or between its check and its release; the code does not exclude this by itself.
- Lifecycle.PublicationByOrdering: for the same runs.
- Compactor.Compactor.GatherIndex: index tables are maps keyed by day; the order of rows in the stored files and the regrouping by day on reading are not modelled.
- Serving.StateIsReady: for runs in which no event reaches a day once a sweep has taken it, and with pruning on no sweep stops between a partition and the index; and for turns that are counted alike before and after storage and start on their day.
- Shortfall.HalfWrittenIsRightIff: for a partition whose objects were made of all the day's events; an event that reaches a day after its sweep was interrupted is in none of them.
- Calm.CalmOverRuns: for the same runs.
- Aggregates.RollupIsItsTurns: for turns whose cache breakdown adds up, whose status fits its column, and that have a project name exactly when they have a project id.
- Windows.AggregateRange: without the breakdown of cache writes by tier, the repository flag and the session counts of projects.
- Ranking.SessionsRanked: without the number of days of the window, which the page reports as read.
- Sessions.NarrowSummary: for the figures that are summed, counted or bounded.
- Pages.SessionsPage: for windows whose turns are placed, that is, whose sessions the index knows on every day but the newest with turns.
- Pages.PagesAreTheList: pages are those cut from the whole list; an empty session id would restart the list from the top, since the code reads it as no cursor.
- Details.SessionDetail: turns are equal to the raw ones or to what their rows give back.
- Device.EveryAnswerIsLawful: each call is one atomic step, device codes never come up twice, and no poll happens at the zero instant; storage errors are not modelled.
