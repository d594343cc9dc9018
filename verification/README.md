# slimproxy: models and proofs

slimproxy is a reverse proxy in front of a language-model API. Its hard parts
are small concurrent state machines, each with several goroutines sharing one
response writer, cache, queue or channel. This project models them in Dafny and
proves what holds of every interleaving.

Imperative parts are classes whose methods are the source's locked sections or
atomic steps. Ghost fields keep the whole history, and `Valid()` ties the real
fields to a function of that history, so calling the methods in any order *is*
the set of all interleavings. Where a claim is about whole runs, the steps are
also functions on a value, and the claims are lemmas about every sequence of
events; an event that is not enabled changes nothing.

| file | what it models |
|---|---|
| `EarlyFlushDesign`, `EarlyFlushWriter` | the early-flush wrapper: its documented states, and the eight-flag writer refining them, locked section by locked section |
| `EarlyFlushRuns`, `EarlyFlushGuarantees`, `EarlyFlushStatus` | request goroutine, timer and heartbeat in every interleaving; what the client reads and the layers above are told |
| `EarlyFlushOutcome`, `EarlyFlushWire` | the same from the handler's calls alone: events, records, and every call on the wire |
| `EarlyFlushPreamble`, `EarlyFlushTiming`, `EarlyFlushWatchdog` | when the preamble may go out and when headers must have; how often the heartbeat writes and when it gives up |
| `Sse` | an event-stream reader after section 9.2.6 of the WHATWG HTML Living Standard |
| `ErrorEnvelope`, `Redaction`, `Decimal` | the writer that holds back a failure body until it can be judged |
| `StallGuard` | the chunk relay with its idle timer and end-of-stream ledger |
| `Refusal` | findings shared by concurrent translations, and their counter |
| `Outbound` | the relay's timed verdict cache |
| `Journal*`, `DayNames`, `Rejects` | the event journal: queue, day files, queries, summary, reject folding |
| `Collector`, `Health` | the pruned one-hour window and the alert machine |
| `Dashboard` | the terminal panel's polling tokens, actions and confirmations |
| `LogFields`, `EdgeCount` | cloudflared's log lines and connector table |

## Where the code and its comments part

- `proxy/earlyflush.go:18-23` covers a streaming request that has produced no
  output after a threshold. The timer is stopped by a status call already
  (`proxy/earlyflush.go:695-704`), and a status alone sends nothing. So past
  max(delay, desperation) the headers have gone out exactly unless the handler was
  first and has called for nothing but statuses, or, through the error envelope,
  is at work on a small failure with no flush ahead of it
  (`EarlyFlushTiming.HeadersAreCommittedInTime`). Both happen, and then nobody
  covers the wait (`EarlyFlushTiming.StatusAloneIsNotCovered`,
  `EarlyFlushTiming.HeldFailureIsNotCovered`).
- The heartbeat reads the clock for its deadline before it starts its ticker
  (`proxy/earlyflush.go:656-657`). The shipped limit is a whole number of periods,
  so the tick at the limit always comes after the deadline: fifteen keep-alives
  and a closing frame, not sixteen (`EarlyFlushWatchdog.AtTheShippedLimits`).
- Asked whether the response has been written, the two writers together never say
  yes falsely. They say no although the headers are out exactly while a failure is
  held that a flush went ahead of (`EarlyFlushStatus.WrittenIsTrueExactly`).
- The keep-alive comments of the early-flush preamble are invisible to a stream
  reader unless the handler's own stream opens with a byte order mark: the
  standard drops that mark only at the very start, so here it costs the stream
  its first line, that line and no more (`Sse.MarkCostsTheFirstLine`). The reading
  is unchanged, whatever follows, exactly when that line is one that says nothing
  (`Sse.MarkIsInvisibleExactly`); an error frame is an input on which it changes
  (`Sse.ByteOrderMarkIsSeenAfterKeepAlives`).
- `tui/model.go:317-328` promises a warning for each action that quitting would
  interrupt. Nothing ever clears `quitArmed`: a request to quit during an action
  is refused exactly when none of the whole session has been
  (`Dashboard.RefusesOnceASession`), and `Dashboard.SecondActionIsQuitUnwarned` is
  a session in which the second action is lost without a word.
- A journal event counted as written can still be unreadable. It can be read
  exactly when its day's file had not been removed while open, and did not end in
  the middle of a line (`JournalRoundTrip.CountedIsReadableExactly`). It ends like
  that exactly when the latest write to change it was cut short, or an earlier
  process left it so (`JournalRoundTrip.UncleanExactlyWhenCutShort`); and an event
  for a removed file does occur (`JournalRoundTrip.LateEventGoesNowhere`).
- The refusal counter is called approximate in `proxy/refusal.go:55-58`. With
  nothing under way it is right exactly when no emergency clear has ever ended, or
  the latest one met, as it zeroed the counter, as many findings in the map as were
  stored and not yet counted, less those deleted and not yet subtracted
  (`Refusal.Hooks.AgreesExactly`). It goes wrong either way:
  `Refusal.ClearCanLeaveAStrayCount` leaves it above an empty map, and after
  `Refusal.ClearCanLoseACount` the map holds more than its bound and nobody clears.
- Skipping a day file is safe for every query exactly when all its events lie in
  its own day (`JournalReader.SafeToSkipExactly`). The writer never files one
  elsewhere (`JournalRoundTrip.FilesHoldTheirOwnDay`), as long as names are made and
  read in one time zone.

## Model

| member | source | states |
|---|---|---|
| EarlyFlush.Writer.CommitShadowLocked | proxy/earlyflush.go:533-562 | the real header map becomes exactly the handler's shadow map, deletions included |
| EarlyFlush.Writer.TryDisarm | proxy/earlyflush.go:564-580 | disarming succeeds exactly before the preamble, and then closes the wrapper |
| EarlyFlush.Writer.UploadFailed | proxy/earlyflush.go:582-588 | a failed upload is remembered and nothing else changes |
| EarlyFlush.Writer.Rearm | proxy/earlyflush.go:590-604 | exactly while neither closed nor preflushed, a timer for the new deadline replaces the old one and the prefix is consulted no more |
| EarlyFlush.Writer.FlushNow | proxy/earlyflush.go:606-652 | refines the design, of which every run shows when it sends the preamble and when it holds fire; a heartbeat is spawned exactly with a preamble |
| EarlyFlush.Writer.HeartbeatLocked | proxy/earlyflush.go:654-693 | refines the design: a keep-alive, or past the silence limit one closing frame, and only while covering |
| EarlyFlush.Writer.WriteHeader | proxy/earlyflush.go:695-719 | stops the timer and refines the design, of which every run shows that a status of 400 or more before the first body, and nothing else, starts translation |
| EarlyFlush.Writer.Write | proxy/earlyflush.go:721-747 | refines the design: forwarded, streamed, captured up to 64 KiB, or dropped |
| EarlyFlush.Writer.Flush | proxy/earlyflush.go:756-774 | refines the design: a flush may conclude the silence but never reveals a captured failure |
| EarlyFlush.Writer.FinishClose | proxy/earlyflush.go:797-818 | the first half of finish closes the wrapper and touches nothing on the wire |
| EarlyFlush.Writer.FinishReport | proxy/earlyflush.go:819-862 | the second half refines the design: one closing frame and one note exactly when the client is still owed one |
| EarlyFlushRuns.EveryRun | proxy/earlyflush.go:272-426 | every sequence of events keeps the three invariants: who may be where, what is on the wire state by state, and what has been recorded |
| EarlyFlushGuarantees.ClientReadsOneStory | proxy/earlyflush.go:606-747 | after the preamble a stream reader sees the handler's events, or one one-line `error` event under the status filed, or nothing, and never a mixture |
| EarlyFlushGuarantees.PreambleOrForwarding | proxy/earlyflush.go:608-652 | the 200 preamble and a forwarded outcome exclude each other in every run; without the preamble the calls are the handler's one for one |
| EarlyFlushGuarantees.OutcomeIsFinal | proxy/earlyflush.go:453-505 | however a run goes on, its outcome, what has been sent and the header map once spoken are never taken back |
| EarlyFlushGuarantees.HeaderChangesOnlyWhenFirstSpoken | proxy/earlyflush.go:533-562 | the real header map changes at most once: to the shadow map by the handler's first outcome call, or to the entry headers plus four by the timer |
| EarlyFlushGuarantees.ClosedStaysQuiet | proxy/earlyflush.go:797-862 | after the tombstone no timer or heartbeat step touches the wire, through the unlocked gap of finish |
| EarlyFlushGuarantees.FinishedStaysFinished | proxy/earlyflush.go:403-424 | once finish returned or disarming succeeded no later event but the handler's own changes anything, and no heartbeat is alive |
| EarlyFlushGuarantees.JoinIsAlwaysReached | proxy/earlyflush.go:805-818 | waiting for the heartbeat never deadlocks: its own steps lead to the join |
| EarlyFlushGuarantees.EveryRequestCanEnd | proxy/earlyflush.go:367-424 | from wherever a run is, the request's own steps, and the heartbeat's while it is waited for, bring it to its end |
| EarlyFlushGuarantees.EachErrorEventIsRecordedOnce | proxy/earlyflush.go:819-862 | each error event of the wrapper's own is recorded once, as translation, timeout or upload cut, and nothing else is |
| EarlyFlushOutcome.PhaseFollowsTheCalls | proxy/earlyflush.go:695-774 | after the preamble, in every run: translating exactly when a status of 400 or more stands before the first body, streaming exactly when a body stands before any such status |
| EarlyFlushOutcome.OutcomeOfTheCalls | proxy/earlyflush.go:695-862 | from the handler's calls alone, in every finished run: a body first gives its events and no record; a failure status first gives one error event with its own text or only its status and cause, and one record; silence gives 502, an upload cut or 504; a conclusion without body nothing |
| EarlyFlushOutcome.WithheldFailuresReadAlike | proxy/earlyflush.go:864-884 | two failures whose own text may not be shown read alike whenever status and cause agree |
| EarlyFlushWire.WireIsExactly | proxy/earlyflush.go:606-862 | in every run the calls underneath are the preamble, the keep-alives, each body and flush of the handler's before a failure of its own, and the wrapper's one error event, in this order and no others |
| EarlyFlushWire.HeadIsTheStart | proxy/earlyflush.go:733-741 | what is captured of a failure is its first 64 KiB |
| EarlyFlushWire.PreambleSays | proxy/earlyflush.go:629-640 | the preamble sets four headers to their fixed values and leaves every other as it was |
| EarlyFlushPreamble.PreambleExactly | proxy/earlyflush.go:606-652 | the preamble goes out exactly when the timer fires on an untouched, open request whose body so far does not say stream:false; on one that does the firing leaves a note and nothing else |
| EarlyFlushPreamble.HeldExactly | proxy/earlyflush.go:618-628 | in every run there is one such note for each firing held back, and no other |
| EarlyFlushPreamble.HeldAtMostOnce | proxy/earlyflush.go:590-628 | a request is held back once at most, and once its handler has spoken first no timer is left running |
| EarlyFlushPreamble.ProvenJsonIsNeverFlushed | proxy/earlyflush.go:618-628 | a body that has said so before the preamble went out is never answered by one, however the run goes on |
| EarlyFlushPreamble.NoPreambleBeforeItsTime | proxy/earlyflush.go:356-413 | no preamble before the desperation limit, unless the whole body says that it streams and the delay is over |
| EarlyFlushStatus.FiledUnderItsOutcome | proxy/earlyflush.go:785-795 | a finished request is filed under the latest status its handler stated, 504 if the watchdog ended it, 502 if the handler left the client waiting, and under the wire's only failing all that |
| EarlyFlushStatus.EveryRunIsRecorded | proxy/earlyflush.go:695-719 | in every run the status on record follows from the handler's latest one and the phase reached |
| EarlyFlushStatus.CommittedExactly | proxy/earlyflush.go:606-774 | in every run the writer underneath has been made to send its headers exactly by the preamble or by a call of the handler's that is not a status |
| EarlyFlushStatus.WrittenIsTrueExactly | proxy/earlyflush.go:773-783 | in every run the answer of wrapper and envelope to "written?" is never a false yes; it is a false no exactly while a failure is held that a flush went ahead of |
| EarlyFlushGuarantees.PreambleIsNeverHeld | proxy/errorenvelope.go:122-142 | the error envelope underneath passes a preflushed response through unbuffered, call for call |
| EarlyFlushGuarantees.ForwardedAnswerIsTheHandlers | proxy/errorenvelope.go:145-222 | through both writers an unflushed request is answered with the handler's own bytes, or with the judged form of a small failure |
| EarlyFlushTiming.HeadersAreCommittedInTime | proxy/earlyflush.go:296-414 | whatever the upload takes, past arrival + max(delay, desperation) an open streaming request's headers are committed exactly unless the handler was first and has made status calls only; through the envelope, unless it is besides at work on a held failure with no flush ahead |
| EarlyFlushTiming.StatusAloneIsNotCovered | proxy/earlyflush.go:695-704 | for any request and any length of time, a run in which one status call leaves the headers unsent that long |
| EarlyFlushTiming.HeldFailureIsNotCovered | proxy/errorenvelope.go:145-173 | the same after a small failure body: nothing at all has got past the envelope |
| EarlyFlushWatchdog.SilenceIsBrokenAndBounded | proxy/earlyflush.go:654-692 | while the silence is covered the wire is written every heartbeat period, the first time later by the lag between the two clock reads, and covering ends within a period of the deadline, or of the ticker's start if that came later |
| EarlyFlushWatchdog.WatchdogLimit | proxy/earlyflush.go:654-692 | in every run, however late its goroutines: at most (maxSilence - lag) / period keep-alives, and no closing frame before the deadline |
| EarlyFlushWatchdog.WatchdogCount | proxy/earlyflush.go:654-692 | when they run at once, a stream the handler never speaks on gets exactly (maxSilence - lag) / period keep-alives, and its closing frame on the first tick after the deadline |
| EarlyFlushWatchdog.FullCountExactly | proxy/earlyflush.go:654-692 | that count is maxSilence / period exactly when the lag is at most maxSilence % period, or it is none anyway |
| EarlyFlushWatchdog.AtTheShippedLimits | proxy/earlyflush.go:83-101 | at 15 s and 4 min, with any lag up to a period: fifteen keep-alives and a closing frame 4 min after the ticker was started |
| EarlyFlushWatchdog.PreambleOnTime | proxy/earlyflush.go:606-652 | a request nobody answers gets its preamble the moment its delay is over |
| EarlyFlushWatchdog.WatchdogEndsIt | proxy/earlyflush.go:654-692 | and is ended by the watchdog after as many keep-alives as periods fit into the limit, one period later |
| Sse.KeepAlivesAreInvisible | proxy/earlyflush.go:110-117 | any number of keep-alive comments ahead of a stream leaves the reader where it started, so they change no event of a stream that opens with no byte order mark |
| Sse.MarkCostsTheFirstLine | proxy/earlyflush.go:110-117 | after keep-alives a stream opening with a byte order mark is read without its first line, whichever line break ends it |
| Sse.MarkOnAnUnfinishedLine | proxy/earlyflush.go:110-117 | a marked stream that never ends its first line is read as nothing either way |
| Sse.MarkIsInvisibleExactly | proxy/earlyflush.go:110-117 | keep-alives ahead of a marked stream are invisible, whatever follows its first line, exactly when that line is blank, a comment, an unknown field, the default type, or an id that is empty or not allowed |
| Sse.ErrorFrameIsOneEvent | proxy/earlyflush.go:864-884 | an error frame around one line is read as one `error` event with that line as its data |
| Sse.ByteOrderMarkIsSeenAfterKeepAlives | proxy/earlyflush.go:110-117 | with a byte order mark after keep-alives an error frame is read as a message event |
| Redaction.Replacement | proxy/errorenvelope.go:303-371 | a replaced failure is one short line built from fixed texts, whatever the original said |
| Redaction.ReplacementReadsBack | proxy/errorenvelope.go:303-316 | it is a JSON object whose type and message need no escaping and are read back as the ones for the status and cause |
| Redaction.StatusIsTold | proxy/errorenvelope.go:318-331 | the type tells 401, 403, 404 and 429 from each other and from everything else |
| Redaction.CauseIsTold | proxy/errorenvelope.go:333-371 | with no transport cause the message tells the same statuses, and 502 and 503 |
| Redaction.ShownOnOneLine | proxy/earlyflush.go:864-884 | whatever was captured, what goes into the frame is a single line; which one, EarlyFlushOutcome.OutcomeOfTheCalls says |
| ErrorEnvelope.EnvelopeWriter.WriteHeader | proxy/errorenvelope.go:122-152 | what has been passed on equals the whole-history specification after one more status |
| ErrorEnvelope.EnvelopeWriter.Write | proxy/errorenvelope.go:155-173 | the same after one more body, held, released at the bound, or passed through |
| ErrorEnvelope.EnvelopeWriter.Flush | proxy/errorenvelope.go:183-190 | the same after a flush, which a held failure swallows |
| ErrorEnvelope.EnvelopeWriter.Written | proxy/errorenvelope.go:190-198 | "written" exactly when what was passed on has committed the headers and no failure is held |
| ErrorEnvelope.EnvelopeWriter.Finish | proxy/errorenvelope.go:207-222 | at the end the client has exactly what the specification of the whole response says |
| ErrorEnvelope.ForwardedIsCommittedExactly | proxy/errorenvelope.go:145-190 | what has been passed on commits the headers exactly when the handler's calls do, except that a held failure does only by a flush ahead of it |
| ErrorEnvelope.OnlyJudgedBodiesChange | proxy/errorenvelope.go:122-173 | a non-failure or event stream arrives call for call, and a body over 64 KiB as the exact concatenation of the writes |
| ErrorEnvelope.JudgedFailureIsOneAnswer | proxy/errorenvelope.go:207-222 | a small failure arrives as one status and one body, itself or its replacement, under a Content-Length that reads back as its length, and exactly that when the handler flushed nothing first; flushes made before the status are passed on ahead of it |
| ErrorEnvelope.ReplacedFailuresLookAlike | proxy/errorenvelope.go:303-316 | two withheld failures of one status and cause are indistinguishable to the caller |
| ErrorEnvelope.PassedThrough | proxy/errorenvelope.go:120-152 | a response whose first call but flushes is a body, a status below 400, or a failure sent as an event stream arrives call for call |
| ErrorEnvelope.FailureIsJudged | proxy/errorenvelope.go:120-222 | any other with at most 64 KiB arrives as its status and one body: its own if that is the upstream's, otherwise an object naming only status and cause |
| ErrorEnvelope.LargeFailureIsReleased | proxy/errorenvelope.go:155-173 | with more, its status arrives ahead of every byte and then every byte |
| ErrorEnvelope.AnswerHeaderSays | proxy/errorenvelope.go:217-221 | a judged answer is said to be JSON of its own length, and every other header stays |
| Decimal.DecimalReadsBack | proxy/errorenvelope.go:224-238 | the decimal spelling reads back as its number, without leading zeros |
| Decimal.Itoa | proxy/errorenvelope.go:224-238 | the buffer loop produces that spelling for every non-negative int, inside its 20 bytes |
| StallGuard.ScanLedgerSignals | proxy/stallguard.go:365-406 | the two signals say exactly whether some line starts a message or carries usage |
| StallGuard.RearmTimer | proxy/stallguard.go:282-295 | after stop, drain and reset the timer is live for a full window and no stale firing is left |
| StallGuard.KeepLedger | proxy/stallguard.go:319-323 | the lazily updated flags equal predicates over every chunk received |
| StallGuard.Turn | proxy/stallguard.go:282-361 | one turn of the loop for every arm the select can take, in time, output, ledger and notes, of which every run shows what they are |
| StallGuard.Pump | proxy/stallguard.go:250-361 | a whole run equals its specification on the script; it goes on exactly while chunks are received and taken, and a stall is declared only after a full window of waiting on the upstream |
| StallGuard.OneEndingExactly | proxy/stallguard.go:324-331 | a run goes on past a choice exactly when that is a chunk the reader took |
| StallGuard.ReaderGetsAPrefix | proxy/stallguard.go:324-356 | the reader gets the received chunks in order and nothing else, but for two endings: a last chunk it was gone for is missing, and exactly after a silence it waited through it gets the stall chunk |
| StallGuard.EndingsAreFiledOnce | proxy/stallguard.go:298-361 | at most one ending is filed: a stall exactly after a silence; of claude streams no-tail exactly when a live one closed without usage or error, and a drop, saying whether there was one, exactly when the request ended first |
| StallGuard.SlowReaderOnlyDelays | proxy/stallguard.go:326-345 | time spent blocked on the reader moves the end by that time and changes neither output nor verdict |
| Refusal.CleanRetryIsNotMarked | proxy/refusal.go:94-112 | after a clean upstream body nothing is pending for that context, whatever was seen before |
| Refusal.SetFinishReason | proxy/refusal.go:398-420 | exactly the "stop" choices become "content_filter" in place, and it says whether there was one |
| Refusal.MarkFrame | proxy/refusal.go:347-380 | every line of a frame is marked in place, and a change is reported exactly when some line had a "stop" |
| Refusal.MarkingOnlyStops | proxy/refusal.go:398-420 | marking changes a line exactly when it had a "stop", leaves none, puts "content_filter" in their places, and keeps everything else |
| Refusal.Hooks.LoadOrStore | proxy/refusal.go:114-119 | the atomic store keeps pending = "latest event was a refusal" and the counter equation |
| Refusal.Hooks.LoadAndDelete | proxy/refusal.go:213-217 | the atomic delete keeps both |
| Refusal.Hooks.CountUp | proxy/refusal.go:196-199 | the counter step of a store keeps both, and begins an emergency clear exactly when it goes over the bound |
| Refusal.Hooks.CountDown | proxy/refusal.go:213-217 | the counter step of a delete keeps both |
| Refusal.Hooks.SweepOne | proxy/refusal.go:200-205 | one deletion of the emergency clear keeps the map's meaning and the counter equation, with one more finding dropped and not subtracted |
| Refusal.Hooks.Reset | proxy/refusal.go:206-207 | the end of a clear keeps the counter equation, from then on resting on what is stored, deleted and held at that instant alone |
| Refusal.Hooks.AgreesExactly | proxy/refusal.go:53-59 | with nothing under way the counter agrees with the map exactly when no clear ever ended, or the latest to end found as many findings held as stored uncounted less deleted unsubtracted |
| Refusal.Hooks.Before | proxy/refusal.go:88-119 | run whole, live = pending count <= 1024 is kept; clean bodies clear, refusals record the first finding, the 1025th drops everything |
| Refusal.Hooks.After | proxy/refusal.go:123-164 | run whole: the body is marked only for a pending finding and the openai dialect; spent exactly when unary or changed; a warning exactly when unchanged in a dialect that does not carry refusals |
| Refusal.CarriesExactly | proxy/refusal.go:165-174 | that is any but "claude", in whatever case |
| Refusal.ClearCanLeaveAStrayCount | proxy/refusal.go:196-211 | a run of 1026 refusals in which the interrupted clear leaves the counter at one over an empty map |
| Refusal.ClearCanLoseACount | proxy/refusal.go:196-211 | a run with two overlapping clears after which 1025 findings are held, the counter says 1024, and no request has cause to clear |
| Outbound.Options.WithDefaults | outbound/outbound.go:97-114 | all five durations end up positive, a positive setting is kept, applying defaults twice changes nothing, and the defaults are 2 s, 250 ms, 15 s, 5 s and 30 s |
| Outbound.FailureKeepsTheProxyAway | outbound/outbound.go:245-285 | after any failure the proxy is not taken up for a cache lifetime, after a broken handshake for the whole backoff |
| Outbound.FlipsAlternate | outbound/outbound.go:287-294 | flips strictly alternate, the last is the current verdict, and a flip to the proxy has no reason |
| Outbound.FlipIsItsWitness | outbound/outbound.go:287-294 | each flip is of one thing seen, at its time: to the proxy for a listening probe without a reason, away for anything else with its reason |
| Outbound.HoldIsTheLatest | outbound/outbound.go:276-285 | the backoff is that of the latest broken handshake, and of nothing else |
| Outbound.SwitchesAreSpaced | outbound/outbound.go:245-294 | two switches to the proxy are at least a cache lifetime apart |
| Outbound.Relay.Record | outbound/outbound.go:287-294 | cache and notifications equal functions of everything seen |
| Outbound.Relay.ViaProxy | outbound/outbound.go:243-264 | "via proxy" rests on the latest thing seen, a successful probe younger than the lifetime and outside any backoff; a probe is made exactly when neither applies |
| Outbound.Relay.MarkDown | outbound/outbound.go:267-274 | a failed dial is recorded at once |
| Outbound.Relay.MarkBroken | outbound/outbound.go:276-285 | a failed handshake also starts the backoff |
| Outbound.Relay.Chain | outbound/outbound.go:375-430 | whatever the proxy answered is the answer; each other ending is recorded as its own kind of failure |
| Outbound.Relay.ToldIsTheVerdict | outbound/outbound.go:145-169 | what the owner was told alternates, equals the verdict until Close, and spaces its switches; no proxy verdict lies inside a backoff |
| JournalReader.SkippingIsSound | journal/reader.go:180-194 | a skipped file whose events lie in its own day holds no match and no noise |
| JournalReader.MisfiledEventIsMissed | journal/reader.go:180-194 | an event outside its file's day, on either side, is passed over by some query it matches |
| JournalReader.SafeToSkipExactly | journal/reader.go:180-194 | skipping a dated file misses nothing for any query exactly when all its events lie in its own day |
| Journal.WithinExactly | journal/reader.go:180-194 | an instant lies within a day exactly when that is its day |
| JournalReader.ShiftDown | journal/reader.go:159-165 | the full ring drops its oldest and takes the newest, in place |
| JournalReader.Pass.Keep | journal/reader.go:159-165 | the ring holds the last Limit of everything listed |
| JournalReader.Pass.Meet | journal/reader.go:148-165 | ring and noise count equal the whole-history answer after one more event; counted noise takes no slot |
| JournalReader.ScanLines | journal/reader.go:196-227 | blank and garbled lines are skipped, an overlong one fails the scan, every other event is met in order |
| JournalReader.Read | journal/reader.go:131-177 | one pass with skipping, ring and counts equals "filter everything, keep the last Limit"; it fails exactly when a file it opens breaks |
| JournalReader.AnswerSpeltOut | journal/reader.go:60-129 | filter by filter: an answer lists only events that meet each filter set, without a limit all of them, and events of other kinds inside the time bounds; refused outside traffic is counted by weight instead unless asked for |
| JournalReader.LimitKeepsTheLatest | journal/reader.go:159-165 | a limited answer is the end of the unlimited one, with the same noise count |
| JournalReader.SomeBreaksExactly | journal/reader.go:196-227 | what makes a read fail is a file it opens that is unreadable or holds an overlong line |
| JournalReader.NarrowerFindsNothingNew | journal/reader.go:88-115 | one more filter, or a bound moved inwards, never finds anything new; it lists what was only counted exactly when a status is asked for |
| JournalSummary.SortInt64 | journal/reader.go:390-398 | the insertion sort orders in place and keeps every element |
| JournalSummary.BelowIgnoresOrder | journal/reader.go:390-398 | ranks do not depend on the order of the samples |
| JournalSummary.RankExactly | journal/reader.go:390-398 | the value of a rank is the one found there when the samples are sorted |
| JournalSummary.Summarise | journal/reader.go:315-388 | counts, noise and per-status failures equal counts over the events; median and slowest have their ranks among the measured latencies |
| JournalSummary.FailedCount | journal/reader.go:320-328 | the failed are the requests that did not succeed and were not canceled |
| JournalSummary.CanceledCount | journal/reader.go:320-328 | the canceled are those that did not succeed and were |
| JournalSummary.WeighConcat | journal/reader.go:363-371 | rejects and noise of two stretches are those of each |
| JournalSummary.WeighOne | journal/reader.go:363-371 | and one line stands for as many as its count says, or for one |
| JournalSummary.LatenciesConcat | journal/reader.go:329-331 | the latencies of two stretches are those of each |
| JournalSummary.LatenciesOfOne | journal/reader.go:329-331 | and a request has one if it was measured |
| JournalWriter.Writer.Append | journal/writer.go:87-104 | never waits: queued in order, or dropped and counted exactly when 4096 are waiting |
| JournalWriter.Writer.Write | journal/writer.go:180-213 | the directory after any ending of a write: filed, cut short, not opened, not marshalled, or into a file already removed |
| JournalWriter.Writer.Take | journal/writer.go:162-168 | one event leaves the queue and becomes one entry of the log the files and counters follow |
| JournalWriter.Writer.Prune | journal/writer.go:224-252 | exactly the removable expired days go, and no file of a day reaching into the retention window |
| JournalWriter.Writer.Close | journal/writer.go:127-177 | drains the queue in order while hourly prunes go on, removes nothing but expired days, and lets go of the file |
| JournalWriter.Writer.Conserved | journal/writer.go:90-104 | every Append is waiting, written, dropped or failed, exactly one of these |
| JournalWriter.BookIsTrue | journal/writer.go:180-252 | files, taken events and counts follow from what the directory held at the start and the log of writes and removals |
| JournalRoundTrip.FileKeepsQueueOrder | journal/writer.go:189-213 | a day file that no write has left open or spoiled holds what it was found with and what was written on its day since its last removal, in queue order |
| JournalRoundTrip.UncleanExactlyWhenCutShort | journal/writer.go:208-212 | a day file ends in the middle of a line exactly when the latest entry that changed it was a write cut short, or it was found like that and nothing changed it |
| JournalRoundTrip.WrittenIsReadableExactly | journal/writer.go:208-213 | an event filed is added to what can be read exactly when the file did not end in the middle of a line |
| JournalRoundTrip.CountedIsReadableExactly | journal/writer.go:189-213 | an event counted as written is added to what can be read exactly when, besides, its day's file was not removed while open |
| JournalRoundTrip.TornIsReadableExactly | journal/writer.go:208-212 | an event whose write was cut short can be read all the same exactly when it lacked only its newline and the line was its own; what an earlier one left there is lost with it |
| JournalRoundTrip.AllReadableExactly | journal/writer.go:189-213 | everything written on a day can be read, in queue order, exactly when none of it met a file cut short |
| JournalRoundTrip.SmoothDayIsComplete | journal/writer.go:162-213 | a day never pruned on which no event failed has all its accepted events in queue order, after what it was found with, whatever became of other days |
| JournalRoundTrip.FilesHoldTheirOwnDay | journal/writer.go:189-205 | whatever fails, a day file never holds an event of another day, if none did when the writer was opened |
| JournalRoundTrip.LeavesItsDirectorySound | journal/writer.go:62-86 | what a writer leaves behind is a directory the next one may be opened on |
| JournalRoundTrip.CrashLeavesOwnDay | journal/reader.go:214-220 | so is what a crash leaves of a file: some of its lines and a part of the next |
| JournalRoundTrip.QueryAfterClose | journal/reader.go:131-177 | any query over a closed writer's directory is answered in full, whatever it was opened on and however its life went |
| JournalRoundTrip.ReadEverything | journal/reader.go:131-177 | an unfiltered read returns, when each listed day is in order, what was found and written grouped by ascending day and in queue order within a day |
| JournalRoundTrip.CutWriteSpoilsTheNextLine | journal/writer.go:208-212 | after any write cut short the next event of the day counts as written and cannot be read |
| JournalRoundTrip.LateEventGoesNowhere | journal/writer.go:189-213 | an event as old as a pruned file still open is counted as written and lands in no file |
| DayNames.NamesTellDatesApart | journal/writer.go:255-268 | file names sort as dates do and no two dates share one |
| Rejects.FirstIsTheEarliestAdded | journal/rejects.go:59-73 | the date of a batch is that of the earliest add of its key |
| Rejects.Folder.Add | journal/rejects.go:59-73 | one more refusal keeps per-key conservation and the truth of every batch |
| Rejects.Folder.Swap | journal/rejects.go:100-107 | the locked half of a flush takes the whole window and leaves fresh maps |
| Rejects.Folder.EmitOne | journal/rejects.go:108-119 | one emitted line, of any of several flushes under way, keeps conservation; its count is positive and its date the first add's |
| Rejects.Folder.Close | journal/rejects.go:77-98 | closing emits everything pending, and closing twice does nothing |
| Rejects.AllEmittedWhenDrained | journal/rejects.go:100-119 | with nothing pending or in flight the emitted counts equal the adds, key by key |
| Collector.PruningAgainExactly | metrics/collector.go:365-374 | pruning twice equals pruning once exactly unless a clock that went back reopens a pruned stretch |
| Collector.Window.Prune | metrics/collector.go:365-374 | the in-place compaction is the arrival-order filter by the cutoff |
| Collector.Window.HandleUsage | metrics/collector.go:274-309 | under a clock that does not go back the window is the filter of everything ever recorded |
| Collector.Window.TakeSnapshot | metrics/collector.go:385-503 | the same, and the snapshot describes exactly the samples held |
| Collector.Summarise | metrics/collector.go:385-503 | total, last minute, first-token average and per-route listing describe the samples; the route counts sum to the total |
| Collector.ListRoutes | metrics/collector.go:462-503 | whatever order the map yields, the listing is ordered and complete |
| Collector.BusiestFirst | metrics/collector.go:462-503 | the busiest route comes first, and of equally busy ones the lesser name |
| Collector.MinuteCounts | metrics/collector.go:385-420 | the last minute is the number of samples after its start |
| Collector.MeasuredCounts | metrics/collector.go:385-503 | the average is over the samples with a first-token time |
| Collector.RouteCounts | metrics/collector.go:462-503 | a route's count is the number of its samples |
| Collector.SumsSplit | metrics/collector.go:385-503 | the sums behind the averages are those of two stretches together |
| Collector.SumsOfOne | metrics/collector.go:385-503 | and of one sample its own time |
| Collector.SnapshotIsDetermined | metrics/collector.go:385-503 | two snapshots of the same samples are equal: nothing is left to map order |
| Health.IsAlertStep | metrics/health.go:73-82 | the loop finds exactly the six steps |
| Health.StreakIsTheLastBlock | metrics/health.go:186-210 | the streak is the length of the last block of one failure class |
| Health.StreakSpeltOut | metrics/health.go:44-63 | the streak is the longest stretch of failures alike at the end: no status, 429, or any other; its class says which |
| Health.JudgedExactly | metrics/health.go:153-178 | everything is judged but what was canceled after its first byte |
| Health.BlockClimbsTheLadder | metrics/health.go:186-217 | a block of length n has announced exactly the steps up to n, in order |
| Health.RungsAreTheSteps | metrics/health.go:73-82 | the alerts of a block of length n are those at 3, 10, 30, 100, 300 and 1000 up to n, each once and ascending |
| Health.RecoveryFollowsAnAlert | metrics/health.go:186-204 | a recovery is told exactly for a block that announced something, with its class, length and duration |
| Health.Tracker.Observe | metrics/health.go:170-217 | the tracker equals the specification over the history without abandoned-after-answer samples, and has told exactly its alerts |
| Health.Tracker.Fold | metrics/health.go:186-217 | one judged sample: a recovery exactly after a block of three or more, carrying its length and class |
| Health.Tracker.State | metrics/health.go:219-232 | degraded exactly when the current block has three or more failures |
| Dashboard.EveryRunIsOrderly | tui/model.go:177-263 | in every run each source has one polling token, in-flight means one tunnel poll out, and at most one action is unanswered |
| Dashboard.RefreshKeeps | tui/model.go:406-420 | a manual refresh or an action's follow-up adds no polling chain |
| Dashboard.TokenSwapped | tui/data.go:146-178 | a timer that fires and a renewing answer that lands each pass on the one token |
| Dashboard.ChainGoesOn | tui/data.go:146-178 | a timer turns into a reading, but for a tunnel poll that is out already, and a renewing answer into a timer: no chain rests |
| Dashboard.ActionIsOver | tui/model.go:406-420 | an action that is over frees the panel and has its readings taken, unless its time ran out |
| Dashboard.DangerNeedsItsOwnYes | tui/model.go:484-541 | a dangerous command starts only on y or Y, to its own question, raised by Enter on it and unanswered since, with nothing running |
| Dashboard.QuestionIsAnswered | tui/model.go:484-541 | a question starts its command exactly on y or Y, is closed by n, N, Esc or Enter with nothing started, and stands through any other key |
| Dashboard.HarmlessStartsAtOnce | tui/model.go:484-541 | any other command starts on Enter exactly when nothing is running |
| Dashboard.EveryRunOffersWhatIsTyped | tui/model.go:503-522 | in every run the offers are those for the text typed, and the selection is one of them |
| Dashboard.TypingChoosesAgain | tui/model.go:503-512 | a key that changes the text puts the selection back to the first offer |
| Dashboard.EditsAreTakenBack | tui/model.go:425-482 | Backspace takes back what was typed last, and Up what Down did |
| Dashboard.OnlyRRefreshes | tui/model.go:372-423 | outside the entry line only r has anything read |
| Dashboard.RefusesOnceASession | tui/model.go:317-344 | asked to quit during an action, the session goes on exactly when none of its requests has been refused yet, and otherwise ends reporting what it interrupts |
| Dashboard.CtrlCAlwaysEnds | tui/model.go:340-360 | Ctrl-C ends the session whatever is going on, reporting what it interrupts |
| Dashboard.SecondActionIsQuitUnwarned | tui/model.go:317-344 | a session typed as "/t", Enter, q, twice over: the second action is interrupted without a warning |
| LogFields.LogField | tunnel/connectivity.go:450-466 | the scanning loop computes the field scan |
| LogFields.FieldReadsBack | tunnel/connectivity.go:437-483 | of any printed list of fields the first with the key is returned, never a match inside quotes or at the tail of another key |
| LogFields.CutLineIsSilentAfterTheBreak | tunnel/connectivity.go:446-483 | of a line cut inside quotes the fields before are read, of the broken one its remainder, and nothing else |
| EdgeCount.CountEdgeConnections | tunnel/connectivity.go:77-105 | it succeeds exactly when every entry is well formed and returns their total |
| EdgeCount.EntryExactly | tunnel/connectivity.go:77-105 | an entry is well formed exactly as a colo, counting one, or a number an int can hold before an x and a colo |
| EdgeCount.ColoExactly | tunnel/connectivity.go:94-101 | a colo is three small letters and at least one digit |
| EdgeCount.SplitUndoesJoin | tunnel/connectivity.go:77-80 | splitting at commas undoes joining |
| EdgeCount.PrintedIsCounted | tunnel/connectivity.go:77-105 | any printed list of bare or counted entries is read, and counted in full exactly when an int can hold the sum |

## Left out

- Inside gin and net/http: the promoted methods the wrappers do not override, write errors of the writer underneath, and the full-duplex switch. The writer underneath is a trace of calls.
- Header edits after the handler's first outcome call stay in the shadow map in the source too; header claims are as of that call.
- JSON parsing, regular expressions and the field sniffer are parameters: whether a failure text is the upstream's own, which cause it names, and what a body prefix says about streaming, with the one assumption that a decided prefix stays decided.
- EarlyFlushTiming.HeadersAreCommittedInTime: assumes every goroutine runs as soon as it is due and that a timer starts at the instant its delay is computed; delays of either kind come on top.
- EarlyFlushWatchdog.SilenceIsBrokenAndBounded: assumes that every goroutine runs as soon as it is due, but for the lag between the heartbeat's two clock reads.
- EarlyFlushWatchdog.WatchdogCount: assumes the same.
- The notes of the early-flush wrapper are taken as wired, as the runtime wires them; middleware panics are not modelled.
- Outbound.Relay.Record: checks the closed flag and notifies in one step; a Close falling between the two is not told apart from a later one.
- StallGuard.ScanLedgerSignals: splitting a payload into lines, stripping their prefix and parsing them is input of the model: a line arrives as what it says.
- StallGuard: chunks drained after a stall reach nobody and are not modelled; setting up the inner stream is plumbing.
- Outbound: accepting connections, the retry of a direct dial and the splicing of bytes are input and output.
- JournalReader.Read: folds the case of ASCII letters only in route and model filters; on failure the partial noise count is not modelled.
- JournalSummary.Summarise: leaves out upload and write-block averages, throughput, quota and cache figures.
- JournalWriter.Writer.Write: the directory is listed and written by this writer alone; lines longer than the reader's buffer are produced by no modelled event; syncing to disk is not modelled.
- JournalRoundTrip.FilesHoldTheirOwnDay: one calendar stands for the zone an event's time carries, by which the writer names files (journal/writer.go:192), and for the local zone in which pruning and skipping read those names (journal/writer.go:239, journal/reader.go:182).
- JournalWriter: names in the directory that are not dates are never touched by pruning and are not in its map; an Append after Close is excluded, as it would panic.
- Rejects: path normalisation is input handling; the ticker is any time at all.
- Collector.Summarise: leaves out percentages, the recent list, quota trend and cache ratio; averages are integer quotients.
- Collector.Window.TakeSnapshot: leaves out the same.
- Collector: account redaction and the projection of usage records.
- Refusal.MarkFrame: splitting a frame, its data prefix and the re-encoding of a changed line are not modelled.
- Refusal: what counts as a refusal body is a parameter, and a body is a list of lines that are JSON objects with choices or something else.
- Dashboard: drawing, notes, scrolling and the result panel; command matching is a parameter. An action past its deadline may leave its goroutine running, so the claim is one unanswered message, not one worker.
- The tunnel manager and process handling, OAuth login, the translate registry, configuration and command-line parsing are system calls, user interface or easy members.
