# GDPRuler

A Dafny model of the GDPRuler controller: a gateway that stores key-value pairs together with their GDPR metadata,
decides for each request whether the metadata permits it, and keeps one log file per monitored key. The model follows
the C++ sources of the controller and the Python policy compiler.

It has two halves, and a third part that puts them together.

**The log manager as a concurrent protocol** (`LoggerProtocol`, `LoggerLocks`, `LoggerCache`, `LoggerStreams`,
`LoggerFiles`, `LoggerHistory`, `LoggerBound`, `LoggerTheorems`, `LoggerGrowth`, `LoggerProgress`, `LoggerCalls`,
`LoggerCap`, `LoggerFetch`, `LoggerStamps`, `LoggerEviction`, the file format in `LogCodec` and the file names in
`LogPaths`). Any number of threads call `log_encoded_query` and `log_decode`. They share a map of open streams with a
limit on its size, a list of opened keys, one mutex per key and one management mutex. Each thread has a program
counter over the statements of the C++ code; a step executes one statement of one thread, lets time pass, or moves a
part of a stream's buffer to its file. The theorems hold in every state of every run: a thread only touches streams
that are open and mapped for its key, logs consist of whole frames in the order of locking through all evictions and
reopenings, logs only grow, decoders read every entry once, no state is deadlocked, and the number of open streams is
bounded. Under every scheduling all calls in progress finish, once no further calls begin. The documented limit on
open files is not always kept; `LimitKeptExactly` says exactly when.

**The policy-enforcing store** (`Text`, `Numbers`, `Metadata`, `Query`, `QueryFields`, `Policy`, `PolicyFields`,
`Filter`, `Rewriter`, `LogFormat`, `Store`, `Records`, `Runs`, `Access`, `Writes`, `Readings`, `Silence`,
`Interleaving`, `Serial`, `Message`, and formats shared with other programs in `Layout`). A stored value is one text of
eight `|`-ended metadata fields and the value, on which the handlers work by scanning and splicing. The model proves
that this string store refines a store of records, who is granted what at every point of a run, what the text of a
query leaves in the stored text, that logs hold exactly the requests that had to be logged and the regulator reads
exactly these, that an expired pair is frozen, exactly when anybody can learn anything of it, exactly when replaying a
log yields what the backend holds, and that all of this rests on parsers and printers that are inverse to each other.
Connections may interleave at the moments
of reading, deciding and writing; on a key with whose writes no handler overlaps the outcome is that of serving the
requests one after the other, and without that condition it need not be.

A reading of the logs can end the process: the formatter of logged texts expects nine `|`-ended tokens where the
serializer writes eight, and nobody catches what it throws. `GetLogsCrashesExactly` says exactly when, and a monitored
first PUT of a plain value is enough. The theorems about runs take this into account.

**The server** (`Server`). Connections run their handlers and, at the decision on a request that must be logged, the
statements of the log manager, all of them interleaved. Every run of it is a run of the log manager and a run of
interleaved handlers, so that a quiet log file holds exactly the frames of the trail of the decisions taken.

Conventions: a C++ `char` is a `char`, `npos` is -1, `std::bitset<64>` is a sequence of 64 booleans, 64-bit arithmetic
is wrapped explicitly. Operations that change fields or run loops are methods, proved against functions; properties of
runs are lemmas about these functions. Clock readings, the outcome of backend writes and the taken mutexes are
parameters. An uncaught C++ exception is `None` from a parser and the reply `Crash` from a handler.

`dafny verify dfyconfig.toml` checks the whole project.

## Model

| member | source | states |
|---|---|---|
| LoggerTheorems.OpenStreamSafety | controller/source/logging/logger.hpp:70-126 | In every state of every run, a thread at a statement that stamps, writes, flushes or reads has the mutex of its key, and its stream is open, belongs to the key and is the one the map holds, even if the stream it fetched first was evicted meanwhile |
| LoggerStreams.RecheckStreams | controller/source/logging/logger.hpp:79-82 | A stream that is still open after the key's mutex was taken is the one mapped for the key; otherwise the thread goes back to fetch another |
| LoggerStreams.CloseStreams | controller/source/logging/logger.hpp:265-271 | Closing a victim's stream takes no stream away from any thread that relies on one, because the victim's mutex was free |
| LoggerStreams.StreamsStep | controller/source/logging/logger.hpp:70-195 | Every statement of every thread preserves that relied-on streams are open and mapped |
| LoggerTheorems.WholeFrames | controller/source/logging/logger.hpp:84-135 | Whenever no thread has the mutex of a key, its file and buffer together are exactly one whole size-prefixed frame per finished call, in the order in which the calls got the mutex, with recordable entries in time order; across evictions, append-mode reopenings and partial flushes |
| LoggerFiles.LogsStep | controller/source/logging/logger.hpp:70-195 | Every statement preserves, for every key, that the log is the frames of the finished calls plus exactly what the call in progress has written of its frame, and that acquirers are the finished calls plus the one in progress |
| LoggerFiles.SpillLogs | controller/source/logging/logger.hpp:127-132 | Moving any part of a buffer to the file at any moment changes no log |
| LoggerGrowth.LogGrows | controller/source/logging/logger.hpp:70-148 | From one state of a run to any later one, the bytes of every log (file and buffer), and those of its file alone, stay as they were and only more are added at the end, and so does the list of the calls they record: what has been logged is never lost, changed or reordered |
| LoggerGrowth.StepGrows | controller/source/logging/logger.hpp:70-278 | Every step of any thread, of the clock or of a buffer only adds at the end of logs and files, evictions and reopenings included |
| LoggerTheorems.LogShowsCalls | controller/source/logging/logger.hpp:302-379 | Decoding such a log shows every finished call as it was made, and a timestamp threshold blanks exactly a suffix, when the user keys hold no comma |
| LoggerTheorems.DecoderReadsAll | controller/source/logging/logger.hpp:155-195 | A decoder that is done has read the encoded entry of every call that got the key's mutex before it, each once, whole and in order, whatever other threads did meanwhile |
| LoggerHistory.ReadNext | controller/source/logging/logger.hpp:302-323 | One turn of the reading loop either reads the next whole entry or has reached the end of the last one |
| LoggerHistory.TimeStep | controller/source/logging/logger.hpp:84-97 | Every statement preserves that histories are in time order and that the record in progress is not older than any finished one of its key |
| LoggerStamps.StampIsClock | controller/source/logging/logger.hpp:84-97 | The time of every entry is what the clock showed at an earlier moment of the run at which this very call, the next to finish on its key, had the mutex of the key and was about to read the clock |
| LoggerHistory.ReadersStep | controller/source/logging/logger.hpp:302-323 | Every statement preserves that what a decoder has read is a prefix of the entries of the finished calls, and that the rest of the file lies ahead |
| LoggerTheorems.ListIsMap | controller/source/logging/logger.hpp:239-255 | While the management mutex is free, the list of opened keys has no duplicates, holds exactly the mapped keys in order of opening, and each mapped key has one open stream, which no other key has |
| LoggerCache.CacheStep | controller/source/logging/logger.hpp:233-278 | Every statement preserves the agreement of list, map and open streams, up to the key an eviction or opening is busy with |
| LoggerTheorems.EvictsOldestFree | controller/source/logging/logger.hpp:258-278 | The stream an eviction closes is the oldest whose key's mutex was free when tried: the key of every older stream was found locked by another thread in the same scan |
| LoggerEviction.EvictsOnlyAtLimit | controller/source/logging/logger.hpp:244-250 | A stream is closed only while at least as many streams as the limit allows are open, and then it is the only one that the step closes |
| LoggerTheorems.NoFault | controller/source/logging/logger.hpp:262-271 | No thread ever tries a mutex it already holds, unlocks one it does not hold, or goes through an absent map or list entry |
| LoggerTheorems.NoDeadlock | controller/source/logging/logger.hpp:77-82 | While some thread is inside a logger call, some thread can execute its next statement |
| LoggerLocks.SomeoneUnblocked | controller/source/logging/logger.hpp:235-253 | If the management mutex is taken its holder is not blocked; otherwise a blocked thread waits for a key holder that is not |
| LoggerLocks.LocksStep | controller/source/logging/logger.hpp:70-278 | Every statement preserves who holds which mutex: the management mutex exactly at the statements of the fetch, a key's mutex for the own key or the victim |
| LoggerProgress.AdvanceProgress | controller/source/logging/logger.hpp:70-323 | Every statement either turns a loop with less left to do or brings its thread nearer to the end of its call |
| LoggerProgress.AllCallsFinish | controller/source/logging/logger.hpp:70-195 | Under every scheduling, with the clock and the buffers moving between statements as they like, all calls in progress finish if no further calls begin and statements are executed again and again while there are calls |
| LoggerProgress.CallsFinish | controller/source/logging/logger.hpp:70-195 | Every endless run in which finitely many calls begin comes to a state where all of them are finished |
| LoggerProgress.BackgroundKeeps | controller/source/logging/logger.hpp:180-185 | The clock, and bytes moving from a buffer to its file, keep every call as near to its end as it was; the file a decoder reads does not change |
| LoggerProgress.WorkGoesOn | controller/source/logging/logger.hpp:77-82 | Such a run never gets stuck before all calls are finished |
| LoggerBound.ScanEnd | controller/source/logging/logger.hpp:258-278 | A scan that evicts nothing has met every listed key in the hands of other threads, at most one key each, two for a decoding thread, so that there is room for one more stream |
| LoggerBound.MetSize | controller/source/logging/logger.hpp:258-278 | The locked keys a scan meets number at most one per other thread and a second one per decoding thread |
| LoggerBound.PinnedMoves | controller/source/logging/logger.hpp:74-82 | While a scan goes on, a logging thread cannot lock a second key, since it must pass the management mutex first; a decoding thread can lock one more and then waits |
| LoggerBound.BoundStep | controller/source/logging/logger.hpp:244-250 | Every statement preserves the bound on mapped streams, with room for one more wherever a stream is about to be opened |
| LoggerTheorems.OpenStreamsBounded | controller/source/logging/logger.hpp:244-278 | The number of open streams never exceeds the limit or, if that is more, one per thread and a second one per decoding thread, all but one if every thread decodes |
| LoggerTheorems.WritersBounded | controller/source/logging/logger.hpp:244-278 | Without decoding threads it never exceeds the larger of the limit and the number of threads |
| LoggerCap.ChangeOne | controller/source/logging/logger.hpp:165-167 | While another thread scans, a decoding thread can give up the key the scan has met and lock a second one that the scan has still to meet |
| LoggerCap.Exceed | controller/source/logging/logger.hpp:244-278 | Whenever the limit is no more than the keys the other threads can hold in this way, a run opens one stream more than it allows |
| LoggerCap.LimitKeptExactly | controller/source/logging/logger.hpp:226-255 | For any threads, some of which decode, the limit on open files is kept in every run exactly when it allows one file for each thread and a second one for each decoding thread, all but one if every thread decodes |
| LoggerTheorems.InvRun | controller/source/logging/logger.hpp:70-323 | All invariants of the log manager hold in every state of every run from an idle start |
| LoggerFetch.FirstFreeIs | controller/source/logging/logger.hpp:262-266 | The scan stops at the first listed key whose mutex is free |
| LoggerFetch.Logger.CloseOlderFd | controller/source/logging/logger.hpp:258-278 | The loop closes, unlists and unmaps the first listed key whose mutex is free, or changes nothing; list and map stay in agreement |
| LoggerFetch.Logger.GetOrOpenLogStream | controller/source/logging/logger.hpp:233-256 | The fetch returns the open stream mapped for the key, and changes map, list, streams and files as one eviction, if the limit is reached, and one opening do |
| LoggerFetch.EvictedTidy | controller/source/logging/logger.hpp:258-278 | An eviction keeps list and map in agreement and order, and maps no new key |
| LoggerFetch.OpenedTidy | controller/source/logging/logger.hpp:248-250 | So does opening the stream of an unmapped key |
| LoggerFetch.ScanAlone | controller/source/logging/logger.hpp:258-278 | The protocol's statements of a scan, run without interruption, compute what the loop computes with the mutexes of the state as the taken ones |
| LoggerFetch.FetchAlone | controller/source/logging/logger.hpp:233-278 | The protocol's statements of a whole fetch, run without interruption, compute what the method computes and leave every mutex and every other thread as they were |
| LogPaths.ExtractsOwnKey | controller/source/logging/logger.hpp:280-299 | The key is found in the name of its log file exactly when it holds no slash and not the extension; for other keys a decoder locks the mutex of another key |
| Layout.FilePath | controller/source/logging/logger.hpp:280-299 | The log file of a key is the key with `.log` in the directory |
| LogCodec.PackRoundTrip | controller/source/logging/log_common.hpp:14-81 | The packed operation byte gives back the operation, or `invalid_op` for an unknown command, and the verdict, and is never a comma |
| LogCodec.TimestampRoundTrip | controller/source/logging/logger.hpp:349-351 | Every signed 64-bit timestamp survives its eight bytes, whatever they are |
| LogCodec.SizeRoundTrip | controller/source/logging/logger.hpp:130-131 | Every 64-bit entry size survives its eight bytes |
| LogCodec.Append | controller/source/logging/logger.hpp:104-126 | Copying to the offset keeps what precedes it and moves the offset past the copied bytes |
| LogCodec.FillEntry | controller/source/logging/logger.hpp:84-126 | The buffer filled by moving an offset is exactly the entry of timestamp, user, packed operation and value |
| Layout.EntryBytes | controller/source/logging/logger.hpp:84-135 | Byte by byte, a frame is the size and the time in eight bytes each, lowest first, and behind a comma each the user, one byte of operation code and verdict, and the text |
| LogCodec.BlankExactly | controller/source/logging/logger.hpp:341-352 | An entry is blanked exactly when it is later than the threshold, whatever its other fields hold |
| LogCodec.EntryRoundTrip | controller/source/logging/logger.hpp:341-379 | An entry that is not blanked reads back with all its fields exactly when its user key holds no comma; commas in timestamp bytes and values do no harm |
| LogCodec.FrameAt | controller/source/logging/logger.hpp:302-339 | At the start of a frame the reader gets the announced size, the whole entry, and ends up at the next frame |
| LogCodec.FramesRoundTripFrom | controller/source/logging/logger.hpp:302-323 | A file of whole frames is read as exactly the entries it was made of, from any frame on |
| LogCodec.ReadAndDecode | controller/source/logging/logger.hpp:302-323 | The reading loop returns the decoded entries of the file, frame after frame |
| LogCodec.LogRoundTrip | controller/source/logging/logger.hpp:302-379 | Reading the log of any records with comma-free users shows each of them, in order, as a reader is meant to see it |
| LogCodec.ThresholdBlanksSuffix | controller/source/logging/logger.hpp:346-352 | In a log in time order a threshold blanks exactly a suffix |
| Store.Controller.MonitorQuery | controller/source/logging/monitor.hpp:50-54 | The log of the request's key grows by one entry with time, effective user, command, verdict and text exactly when monitoring is needed; no other log changes |
| Store.Controller.HandleGet | controller/source/controller.cpp:65-84 | Replies, logs and state are those of the specified GET, including the crash on a malformed text |
| Store.Controller.HandlePut | controller/source/controller.cpp:86-134 | The same for a first PUT, a permitted update and a refused one |
| Store.Controller.HandleDelete | controller/source/controller.cpp:136-160 | The same for DELETE |
| Store.Controller.HandleGetMetadata | controller/source/controller.cpp:162-181 | The same for GETM |
| Store.Controller.HandlePutMetadata | controller/source/controller.cpp:183-217 | The same for PUTM |
| Store.Controller.HandleGetLogs | controller/source/controller.cpp:219-262 | Refuses all but the regulator, and shows the formatted lines of one log, of all logs, or the keys that have one; the process ends when a line of a log that is read cannot be formatted |
| Store.Controller.ReadKeyLog | controller/source/logging/logger.hpp:302-323 | The lines of one log up to a time, or the error that the formatter throws at one of them |
| Store.ReadingExactly | controller/source/logging/logger.hpp:341-391 | Reading a log throws exactly when it holds an entry that is not later than the threshold and whose decoded text is not empty and cannot be formatted, whatever its user holds |
| Store.GetLogsCrashesExactly | controller/source/controller.cpp:219-262 | A `getlogs` ends the process exactly when the regulator asks for it and a log it reads holds such an entry |
| LogFormat.FormatMetadata | controller/source/logging/log_common.hpp:103-164 | The token loop formats exactly the texts with nine complete tokens, numbers where they belong and an expiry of 32 bits, and throws on all others |
| LogFormat.RecordFormats | controller/source/logging/log_common.hpp:103-164 | The text of a record can be formatted exactly when its value holds a delimiter and its expiry fits 32 bits, and then shows its metadata and the value up to that delimiter |
| LogFormat.EntryThrows | controller/source/logging/logger.hpp:341-391 | An entry throws exactly when it is not later than the threshold and the text the decoder takes from it is not empty and cannot be formatted |
| LogFormat.CommaUserThrows | controller/source/logging/logger.hpp:354-391 | An entry without a text throws as well if its user holds a comma, because the decoder then takes a part of the entry for the text |
| LogFormat.LinesExactly | controller/source/logging/logger.hpp:302-323 | Formatting a list of entries throws exactly when one of them does |
| LogFormat.FormatEntries | controller/source/logging/logger.hpp:302-323 | The loop returns the lines of the entries in order, or the first error |
| Store.LogShownIsRead | controller/source/logging/logger.hpp:302-323 | What a reply to `getlogs` shows of a log is what reading its file shows |
| Store.Controller.Handle | controller/source/controller.cpp:303-333 | The dispatch on the command |
| Store.Controller.HandleConnection | controller/source/controller.cpp:287-333 | The connection loop serves the requests in order until the client exits or the process ends |
| Access.VerdictIs | controller/source/gdpr_filter.cpp:67-197 | The verdict is yes exactly when the user named by the query, or else the session's, is the owner or in the share list, each purpose named by the query, or if it names none each of the session's, is allowed and not objected to, and the pair has no expiry or the clock is not past its second |
| Access.PurposesOverride | controller/source/gdpr_filter.cpp:151-175 | If the query names a purpose, a named one that is forbidden refuses it, and the session's purposes make no difference |
| Access.PurposesOfSession | controller/source/gdpr_filter.cpp:151-175 | If it names none, a forbidden purpose of the session refuses it |
| Access.WriteIsConfirmed | controller/source/controller.cpp:86-217 | A PUT, PUTM or DELETE gets its success code exactly when it is permitted and carried out, otherwise its failure text, and only with the success code anything is stored or deleted, under its own key |
| Access.ReadIsAnswered | controller/source/controller.cpp:65-84 | A GET or GETM answers exactly when it is permitted, and stores nothing |
| Access.RefusalTells | controller/source/common.hpp:20-28 | A refused GETM cannot be mistaken for an answered one; a refused GET can, exactly if the answer is the text `0` |
| Access.OthersChangeNothing | controller/source/controller.cpp:303-333 | Other commands change nothing, and unknown ones get the code of an invalid command |
| Access.EntryIs | controller/source/logging/monitor.hpp:19-54 | A data command leaves one entry in the log of its key exactly when the stored flag is set, or for a first PUT its own setting or else the session's; the entry has the acting user, command, verdict, time, and for a permitted write the very text that the backend then holds |
| Access.ReplyAt | controller/source/controller.cpp:287-333 | At every point of a run the reply is that to the request in the state its predecessors left |
| Access.ServedUntil | controller/source/controller.cpp:287-333 | A run serves its requests until the client exits, the process ends, or there are no more |
| Access.ForbiddenPurposeIsRefused | controller/source/gdpr_filter.cpp:151-175 | At every point of every run a data command whose text names a purpose that the stored metadata does not allow or objects to is refused with its code |
| Access.ForbiddenSessionIsRefused | controller/source/gdpr_filter.cpp:151-175 | So is one that names no purpose in a session with such a purpose |
| Access.StrangerIsRefused | controller/source/gdpr_filter.cpp:125-149 | So is one by a user who is neither the owner nor in the share list |
| Access.NeverExpires | controller/source/gdpr_filter.cpp:187-197 | A pair without expiry is granted to its owner for allowed purposes at every clock reading and every point of every run, until it is deleted or a PUTM gives it another expiry |
| Writes.FirstPutStores | controller/source/query_rewriter.cpp:10-47 | From the query text to the stored text: after a first PUT each of the eight fields, as the filter reads it, is what its predicate says, or without one what the session says |
| Writes.UpdateStores | controller/source/query_rewriter.cpp:65-146 | From the query text to the stored text: after a confirmed PUTM each field is what its predicate says, or without one as before; encryption and a value without delimiter stay |
| Writes.StoredUnexpiring | controller/source/gdpr_metadata.hpp:123-130 | A first PUT without expiry in a session without one, and a first PUT or PUTM with the expiry `0`, leave a pair without expiry |
| Writes.PutStoresValue | controller/source/query_rewriter.cpp:48-62 | A confirmed PUT stores its value after the fields; over an existing pair it changes no field |
| Writes.ValueIsReturned | controller/source/gdpr_metadata.hpp:139-164 | A non-empty value without delimiter is what a GET returns, and what precedes it is what a GETM returns |
| Writes.FirstPutText | controller/source/query_rewriter.cpp:16-46 | The stored text is owner, encryption, purposes, objections, origin, expiry, shares, monitoring and value with a delimiter between any two, flags as digits and masks as decimal numbers |
| Writes.ListedBits | controller/source/gdpr_metadata.hpp:33-61 | Bit i of a listed mask is set exactly when `purpose` with the number i is listed, or for bit 0 a name that is none of the 64 |
| Readings.LineIs | controller/source/logging/logger.hpp:341-391 | The line of an entry has its whole seconds, user, command and verdict, and its text formatted if it has one; an entry later than the threshold leaves an empty line |
| Readings.LinesAreTrail | controller/source/controller.cpp:219-262 | After every run, what a `getlogs` shows of a key is, line by line and in order, the audit trail that the metadata prescribes, with empty lines for what is later than the request |
| Readings.GetLogsShows | controller/source/controller.cpp:219-262 | Only the user `reg` is shown anything: the keys that have a log, all logs, or the log asked for |
| Records.StepRefines | controller/source/controller.cpp:65-262 | For every request with clean text and, for a PUT, a non-empty value without delimiter, string store and record store give the same reply and stay related; the process ends exactly when the request is a `getlogs` that ends it |
| Records.RunRefines | controller/source/controller.cpp:264-346 | The string store refines the record store over every run: same replies, also where a `getlogs` ends the process, and related end states; nothing but a `getlogs` ends it |
| Records.FreshRunRefines | controller/source/controller.cpp:264-346 | In particular the same replies from the empty store |
| Records.GoodText | controller/source/gdpr_metadata.hpp:139-164 | From the text of a record, parsing recovers the metadata, stripping the value, and preserving the metadata prefix |
| Runs.MetaRefines | controller/source/controller.cpp:65-262 | With values of any kind, every request keeps all stored texts parsable, ends the process only if it is a `getlogs` that does, and changes the metadata as a store of metadata alone |
| Runs.StepLogs | controller/source/controller.cpp:73-76 | Each request leaves an entry exactly when stored flag or first-PUT setting asks for it, with the verdict, and with the very text an approved PUT or PUTM is about to write |
| Runs.LogsAreTrail | controller/source/logging/monitor.hpp:19-54 | Over every run, the log of a key grows by exactly the trail prescribed for the requests that were served: one entry per request made while the stored flag was set and per first PUT that asks for it, with time, effective user, command and verdict |
| Runs.ExpiredFrozen | controller/source/gdpr_filter.cpp:187-197 | Once the expiry of a pair has passed, no run by any users changes its stored text, and every data command on its key is refused |
| Silence.ExpiredIsSilent | controller/source/gdpr_filter.cpp:187-197 | As long as no permitted `getlogs` reads the log of the key, two stores that differ only in expired pairs of one key, and in its log, give the same replies in every run |
| Silence.ExpiredSilentExactly | controller/source/controller.cpp:219-262 | Two stores that differ only in expired pairs of one key, and in their logs, cannot be told apart by any run exactly when every reading of the logs from now on is answered alike, process ends included, and the two pairs are both monitored or both not, unless the formatter already throws wherever a further entry in the log of the key could be seen |
| Silence.FlagTells | controller/source/controller.cpp:73-83 | Where the log of the key can be read without the formatter throwing, a refused GET followed by a look at the logs tells an expired pair that is monitored from one that is not |
| Silence.LeakExample | controller/source/controller.cpp:219-262 | Two concrete stores that differ in an expired pair only, with equal, empty logs, and a run that answers them differently |
| Silence.PlainPutEndsReading | controller/source/logging/log_common.hpp:159-161 | After a monitored first PUT of a plain value, the next permitted `getlogs` that reads the log of the key ends the process |
| Silence.StaysBroken | controller/source/logging/logger.hpp:302-323 | A log on which the formatter throws stays so, at all later times and whatever is logged |
| Runs.RetoldStep | controller/source/controller.cpp:100-121 | A request keeps stored text and replayed log together exactly when, if it is an approved write, it is logged if and only if the backend carries it out, or else would change nothing; reads and refused requests need nothing |
| Runs.LogRetellsStore | controller/source/controller.cpp:100-121 | From a state where it does, replaying the log of a key yields the text the backend holds in every state of a run exactly when every request served in the run meets that condition |
| Runs.RefusedPutMisleads | controller/source/controller.cpp:99-107 | A monitored first PUT that the backend refuses is logged as done, so that the log tells of a text nobody stored |
| Runs.SwitchingOffIsTold | controller/source/controller.cpp:195-210 | A PUTM that switches monitoring off is logged under the old flag, so that replay still yields the stored text after it |
| Runs.FileRetellsStore | controller/source/logging/logger.hpp:302-379 | Where replaying the log yields the stored text, the bytes of the log file suffice: decoding and replaying them yields what the backend holds, after its expiry as well |
| Interleaving.UninterruptedIsStep | controller/source/controller.cpp:65-217 | Reading, deciding and writing without interruption is one step of the sequential store |
| Interleaving.WriteOrigin | controller/source/controller.cpp:90-121 | The metadata of a text to be written is that of an insertion, that of the text read, or that with the given fields replaced |
| Interleaving.SafeStep | controller/source/controller.cpp:65-217 | Every read, decision or write of any connection preserves that stored texts parse and pending writes follow from texts that were stored |
| Interleaving.InterleavedSafe | controller/source/controller.cpp:90-127 | However concurrent handlers interleave, every stored text is one the filter accepts, and the format error is never raised |
| Interleaving.MetadataOrigin | controller/source/controller.cpp:110-122 | Metadata written to an existing key is that of a text stored under the key earlier, unchanged by a PUT and updated by exactly the given fields by a PUTM |
| Serial.LogIsTrailOfDecisions | controller/source/logging/monitor.hpp:19-54 | However handlers interleave, the log of a key grows by exactly the audits due for the decisions taken on the key, in their order, each by the metadata read for it |
| Serial.LoggedBeforeWritten | controller/source/controller.cpp:99-127 | A text that must be logged is in the log of its key, approved, before it is written to the backend |
| Serial.StepIsDecision | controller/source/controller.cpp:65-217 | A data command served alone acts on text and log of its own key as its decision says, and on no other |
| Serial.DecidedInStep | controller/source/controller.cpp:65-217 | On a key where no other handler is at work while a write is due, a decision keeps log and text in step with serving the requests one after the other |
| Serial.ApartIsSerial | controller/source/controller.cpp:65-217 | Where no handler on a key overlaps with a write of the key, whatever happens on other keys and however reads overlap, its log and text are those of the sequential run of the requests in the order of the decisions, and the log follows exactly the prescribed trail |
| Serial.OverlapIsNoRun | controller/source/controller.cpp:90-108 | Without that condition it fails: two first PUTs that both read before either writes leave a text that serving them in neither order leaves |
| Server.StepSimulated | controller/source/controller.cpp:65-217 | Every step of the server is a step of the log manager and of the handlers, or of one of them while the other rests, and keeps connections and threads together |
| Server.LeaveSimulated | controller/source/logging/monitor.hpp:50-54 | The end of a log call is, for the handlers, the moment of decision: the logs grow by exactly the entry of the request, with the time the log manager stamped |
| Server.ServerRefines | controller/source/controller.cpp:264-346 | Every run of the server, with all handlers and statements of the log manager interleaved, is a run of the log manager and a run of the interleaved handlers |
| Server.TextsStayParsable | controller/source/controller.cpp:90-127 | In every run of the server the filter accepts every stored text |
| Server.FileIsTrail | controller/source/logging/logger.hpp:84-135 | In every run of the server, a key whose mutex is free has in file and buffer exactly the whole frames, in time order, of entries that add to the earlier ones the audits due for the decisions taken on the key, each with a clock reading from its own log call |
| Server.EntryIsClock | controller/source/logging/logger.hpp:84-97 | Every new entry carries the clock of a moment at which a connection was logging it, with the user, command, verdict and text of that connection's decision |
| Server.FileIsSerialTrail | controller/source/logging/logger.hpp:84-135 | Where no handler on the key overlaps with a write of the key, these frames are exactly those of the log of the sequential run, whose new entries are the trail prescribed by the metadata |
| Server.OnFileBeforeWritten | controller/source/controller.cpp:99-127 | Whatever the log manager does meanwhile, when a text that must be logged is about to be written to the backend, the frame of its entry is in file or buffer |
| Rewriter.Insert | controller/source/query_rewriter.cpp:10-47 | The insertion constructor, part by part, writes the text of the record with query settings over session defaults |
| Rewriter.SerializeRoundTrip | controller/source/query_rewriter.cpp:16-46 | Serializing a record and parsing the text gives back its metadata, for any value, exactly when no text field holds the delimiter |
| Rewriter.ParsedIsClean | controller/source/gdpr_filter.cpp:21-54 | Whatever the stored text, the fields read from it hold no delimiter and an expiry in range |
| Rewriter.SpliceRecord | controller/source/query_rewriter.cpp:52-62 | On the text of a record the splice keeps the metadata and replaces the value behind its last delimiter |
| Rewriter.SpliceExact | controller/source/query_rewriter.cpp:52-62 | The old value is replaced completely exactly when it holds no delimiter |
| Rewriter.SpliceKeepsFields | controller/source/query_rewriter.cpp:52-62 | The splice leaves all eight fields as the filter reads them, for every stored text with eight complete fields and every new value, with or without delimiters |
| Rewriter.Update | controller/source/query_rewriter.cpp:65-146 | The token loop computes the rewritten text, including the dropped delimiter after the ninth token |
| Rewriter.UpdateWrites | controller/source/query_rewriter.cpp:77-132 | The loop writes the eight rewritten tokens and then what it makes of the value |
| Rewriter.UpdateRecord | controller/source/query_rewriter.cpp:65-146 | On the text of a record PUTM is a field-by-field update |
| Rewriter.UpdateKeepsValue | controller/source/query_rewriter.cpp:121-129 | The value survives a metadata update exactly when it holds no delimiter |
| Rewriter.UpdateKeepsFormat | controller/source/query_rewriter.cpp:65-146 | On any text the filter accepts, PUTM leaves a text that reads as the old fields with the given ones replaced |
| Filter.SetFieldsIsFieldsOf | controller/source/gdpr_filter.cpp:21-58 | Setting field after field while scanning equals reading the cut text at once, including every error |
| Filter.ReadFields | controller/source/gdpr_filter.cpp:7-60 | The constructor's loop yields the eight fields of the text, or the format or number error |
| Layout.FieldsByPosition | controller/source/gdpr_filter.cpp:15-54 | The fields of any text by position: owner, encryption, purposes, objections, origin, expiry, shares, monitoring; malformed exactly when one of its three numbers is |
| Layout.TooFewFields | controller/source/gdpr_filter.cpp:15-58 | A text with fewer than eight delimiters is malformed |
| Filter.ValidateSessionKey | controller/source/gdpr_filter.cpp:125-149 | The in-place scan of the share list accepts exactly the owner and the items of the comma-split list |
| Filter.MaskLaws | controller/source/gdpr_filter.cpp:152-175 | The mask tests are set inclusion and disjointness |
| Filter.Validate | controller/source/gdpr_filter.cpp:67-122 | Accepts exactly when there is a record, the effective user is owner or shared with, the effective purposes are allowed and not objected to, and the record is unexpired |
| Metadata.SetBitmap | controller/source/gdpr_metadata.hpp:55-61 | The loop sets exactly the bits of the listed names, unknown names being bit 0 |
| Metadata.SetBits | controller/source/gdpr_metadata.hpp:55-61 | A bit is set afterwards exactly when it was before or some listed name maps to it |
| Metadata.KnownPurposeBits | controller/source/gdpr_metadata.hpp:33-61 | Over known names, bit i is set exactly when `purpose<i>` is listed |
| Metadata.BitsRoundTrip | controller/source/query_rewriter.cpp:40-41 | A purpose mask survives the way through its number |
| Metadata.SplitComma | controller/source/gdpr_metadata.hpp:81-96 | The loop cuts the text at every comma |
| Text.JoinSplit | controller/source/gdpr_metadata.hpp:81-96 | Joining the pieces of a cut text gives the text back |
| Text.SplitJoin | controller/source/gdpr_metadata.hpp:81-96 | Cutting joined delimiter-free pieces gives the pieces back |
| Metadata.ExpirationTimeExact | controller/source/gdpr_metadata.hpp:123-130 | Zero seconds give no expiry; others, without overflow, the clock in seconds plus so many |
| Metadata.RemoveExact | controller/source/gdpr_metadata.hpp:139-147 | Stripping the metadata returns the value exactly when it is non-empty and holds no delimiter |
| Metadata.PreserveExact | controller/source/gdpr_metadata.hpp:156-164 | Keeping only the metadata returns the prefix under its exact condition on the value |
| Layout.RemoveGives | controller/source/gdpr_metadata.hpp:139-164 | What either cut leaves of a text whose last piece is empty, of one with a value, and of one without delimiter |
| Layout.SpliceGives | controller/source/query_rewriter.cpp:52-62 | A new value takes the place of what follows the last delimiter of any text, and goes behind a text without one |
| Layout.BooleanTexts | controller/source/gdpr_metadata.hpp:99-115 | `true` and `false` are read in upper and lower case, and nothing like `1` is |
| Layout.PurposeNames | controller/source/gdpr_metadata.hpp:33-61 | The names of the purposes are `purpose` and a decimal number; every other name stands for purpose 0 |
| Layout.NumberBit | controller/source/query_rewriter.cpp:40-41 | Purpose i is binary digit i of a printed mask |
| Layout.DecimalDigits | controller/source/query_rewriter.cpp:40-46 | Numbers are printed in decimal digits, without leading zeros |
| Layout.DigitsRead | controller/source/gdpr_filter.cpp:31-42 | The number parsers take a sign and digits and ignore what follows |
| Layout.ParsedInRange | controller/source/gdpr_filter.cpp:31-42 | Which printed numbers each parser accepts, and that the unsigned one wraps negatives |
| Numbers.U64RoundTrip | controller/source/gdpr_filter.cpp:31-36 | Every unsigned 64-bit number survives `to_string` and `stoull` |
| Numbers.I64RoundTrip | controller/source/gdpr_filter.cpp:40-42 | Every signed 64-bit number survives `to_string` and `stoll` |
| Query.QueryReader.Read | controller/source/query.cpp:29-47 | The constructor's loop has the effect of the `&`-separated predicates one after the other, or reports the error |
| Query.QueryReader.ProcessPredicate | controller/source/query.cpp:59-89 | One predicate sets command, key and value, or the named option |
| Query.QueryReader.ParseQuery | controller/source/query.cpp:139-152 | The first quoted text becomes the log key of `getlogs` and the key of other commands, the second the value of `put`; other fields stay |
| Query.QueryReader.ParseOption | controller/source/query.cpp:155-204 | Each option sets its own field, with number, boolean and unsupported-name errors |
| Query.KeyPiece | controller/source/query.cpp:100-111 | The extracted key is the text between the first two quotes |
| Query.ValuePiece | controller/source/query.cpp:122-137 | The extracted value is the text between the third and fourth quote |
| Layout.WholePredicate | controller/source/query.cpp:59-68 | The name of a predicate ends at the first opening parenthesis, its argument reaches to the last closing one |
| Layout.OpenPredicate | controller/source/query.cpp:59-68 | Without a closing one behind it the argument reaches to the end |
| Layout.BarePredicate | controller/source/query.cpp:59-68 | Without an opening one the whole predicate is its name, and the argument begins at its start |
| Layout.OptionText | controller/source/query.cpp:84-89 | An option loses the first and last character of its argument; an empty argument is an error |
| Layout.SamplePut | configs/sample_queries.txt:1 | The first sample query is read as a put of `VALUE_1` under `1` |
| Query.ReadCommand | controller/source/query.cpp:59-152 | A command written down is read with its command in lower case, its key and its value |
| Query.QueryRoundTrip | controller/source/query.cpp:29-89 | Reading the joined text of any predicates performs exactly their effects, errors included |
| Query.EffectsCommute | controller/source/query.cpp:155-204 | Two predicates with different names, or two that only add bits, can be exchanged |
| Query.OrderIrrelevant | controller/source/query.cpp:155-204 | Any permutation of pairwise exchangeable predicates has the same effect |
| Query.QueryOrderIrrelevant | controller/source/query.cpp:29-204 | The same of the texts: predicates with different names give the same query in any order |
| QueryFields.QueryRecovered | controller/source/query.cpp:29-204 | The text of predicates with different names is read as a query that carries, in the field of each name, what the predicate asks for, parsed numbers and booleans included, and nothing else: fields of other names and parts of other commands stay empty, and the two purpose conditions hold exactly the purposes listed for them |
| QueryFields.EffectKeeps | controller/source/query.cpp:155-204 | A predicate leaves alone what another one of a different name has set |
| QueryFields.EffectsRest | controller/source/query.cpp:155-204 | What no predicate of a list names stays as it was |
| Query.ObjectionsAccumulate | controller/source/query.cpp:193-195 | Repeated `objObjectionsIs` predicates accumulate likewise |
| Query.PurposesAccumulate | controller/source/query.cpp:190-192 | Repeated `objPurIs` predicates accumulate to the union of their purposes |
| Policy.AppendGroup | policy_compiler/policy_config.py:18-20 | The inner loop appends one argument per nested list, its items joined by commas |
| Policy.SetupUser | policy_compiler/policy_config.py:11-22 | The nested loops print every setting in order |
| Policy.NextWord | controller/source/default_policy.cpp:24-28 | Stream extraction takes the next word between white space |
| Policy.ReadPolicy | controller/source/default_policy.cpp:14-40 | The constructor's loop collects the options and fails when one is absent or has no meaning |
| Policy.WordsOfPrinted | policy_compiler/policy_config.py:8-22 | The printed text consists of the dashed names and their texts as words |
| Policy.PrintedOptions | policy_compiler/policy_config.py:8-22 | The options collected from a printed text are those of the configuration |
| Policy.PolicyRoundTrip | controller/source/default_policy.cpp:14-40 | The text printed from a configuration is read back as a policy exactly when the configuration describes that policy |
| Policy.PolicyOrderIrrelevant | controller/source/default_policy.cpp:21-30 | Settings and groups may be written in any order |
| Policy.ListedPurposes | controller/source/default_policy.cpp:38-39 | Bit i of the purposes read back is set exactly when `purpose<i>` is listed |
| PolicyFields.ConfiguredIs | policy_compiler/policy_config.py:11-22 | The printed pairs are exactly the scalar settings and, with commas between the items, the lists of the configuration |
| PolicyFields.PolicyHolds | controller/source/default_policy.cpp:14-40 | Read back from its printed text, a configuration gives each field of the policy what its setting says, purpose by purpose |
| Layout.PrintedText | policy_compiler/policy_config.py:8-9 | A setting is printed as a dashed name and its text |
| Layout.LastOption | controller/source/default_policy.cpp:21-30 | Of a repeated option the last text counts, an option at the end has an empty one, and words that are no options are ignored |
| Layout.WordRead | controller/source/default_policy.cpp:24-28 | Words are separated by any run of white space |
| Message.QueryMessage.Serialize | controller/source/rocksdb_server/message.hpp:28-36 | The text is one from which the server reads the request back exactly when the request is one that survives the way |
| Message.QueryMessage.Deserialize | controller/source/rocksdb_server/message.hpp:38-81 | Fills the request as specified, including what an invalid one has set so far |
| Message.MessageRoundTrip | controller/source/rocksdb_server/message.hpp:28-81 | A request is read back as it was sent exactly when its command is `get`, `put`, `del`, `getm` or `putm`, its key has no space, and it has a value if it is a `put` and otherwise no value but a key |
| Message.PutmLosesValue | controller/source/rocksdb_server/message.hpp:69-77 | A `putm` arrives without its value |
| Message.PutWithoutValue | controller/source/rocksdb_server/message.hpp:69-77 | A `put` without a value is accepted with the whole request as its value, because the value's start wraps around |
| Message.InvalidRequests | controller/source/rocksdb_server/message.hpp:38-60 | A request without a space, with a command other than the five, or with nothing behind it is invalid |
| Message.RawRequests | controller/source/rocksdb_server/message.hpp:56-81 | Up to the second space a request names its key, and behind it the value of a `put` only; an empty value makes a `put` invalid |
| Message.ShortRequests | controller/source/rocksdb_server/message.hpp:56-81 | Without a second space the rest is the key, and the value of a `put` the whole request |

## Left out

- The limit on open log files: the comments in `logger.hpp` and `log_common.hpp` promise it; the code exceeds it when every
  listed key is locked. The model follows the code.
- The two halves meet in the log format: the store appends entries to logs as values, and the log manager is proved to keep
  files with such entries under concurrency, and `Server` runs both together. There a decoder takes entries as they are;
  where the formatter would throw on one, the run ends.
- A decoder of the protocol works on the key it is given; for which keys a file name yields that key is told by
  ExtractsOwnKey.
- Opening a log file is assumed to succeed, and looking up a key's mutex, which the code does without a lock, is one step.
- Bytes that no thread wrote: a log file of an earlier process holds whole frames, and nothing is claimed about a truncated
  last frame, for which `read_log_entry` returns a buffer filled up with zeros.
- The system clock is taken never to go back between two entries, and to fit a signed 64-bit number of nanoseconds.
- The number of file descriptors, and the computation of the limit from it.
- `log_raw_query` is not used by the controller.
- The build with `ENCRYPTION_ENABLED`, which encrypts entries and values by OpenSSL.
- The wording of a `getlogs` reply, and of dates in `timestamp_to_datetime`: a line is the data it shows, times in seconds.
  `gdpr_metadata_fmt` prints the expiry through a view of a string that no longer exists; the model shows the expiry.
- Serial.ApartIsSerial and Server.FileIsSerialTrail: their condition suffices, and OverlapIsNoRun shows that it cannot be
  dropped; overlapping handlers that happen to leave what some order would leave are not characterized.
- In `Server` the clock readings of the expiry check and of a new expiry are those of the request, not tied to the clock of
  the log manager, which stamps entries.
- The file names behind `getlogs`: the reply shows the log of the key asked for, as the code does for the keys that
  ExtractsOwnKey covers.
- LoggerTheorems.EvictsOldestFree, LoggerTheorems.OpenStreamsBounded, LoggerTheorems.WritersBounded and
  LoggerCap.LimitKeptExactly: rest on a `try_lock` failing only when the mutex is taken, although a `std::mutex` may also
  refuse a free one.
- Two keys whose names lead to the same file, such as `a` and `./a`, have two mutexes for it: what is proved of the log of a
  key is proved for keys with files of their own.
- Calls that keep beginning for ever: mutexes are not fair, so that a call may then wait for ever.
- `get_purposes_string`: its trailing comma adds an empty name when read back.
- Sockets, message sizes, `mmap` buffers, thread creation and asio sessions: a connection is a sequence of requests.
- The Redis and RocksDB libraries: the backend is a map whose writes may fail. PUTM is modelled for a backend that stores its
  value; over RocksDB the value is lost, as PutmLosesValue shows.
- `response_message`, the native and direct controllers, benchmarks, plots, evaluation scripts, VM setup, the trace generator
  and the simpler query parsers of the baselines.
- Bit sets are updated in place in the source and are values here.
- Signed overflow in the computation of an expiry is taken to wrap around at 64 bits.
- Which exception was thrown: the model tells only that one was.
- Characters beyond ASCII in `tolower` and `isspace`, which follow the C locale.
