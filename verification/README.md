# Verified model of the Keydris CLI core

The Keydris command line runs coding agents behind a local proxy. This project models the parts of it that keep state under
concurrency or read untrusted input, and proves what they promise for every input, every run and every reachable state.

- **Usage metadata scanner** (`JsonGrammar`, `Scanner`, `Allowlist`, `ScannerAccepts`, `ScannerReads`, `ScannerTable`,
  `ScannerContent`, `MetadataScanner`): a byte-at-a-time JSON automaton that keeps allowlisted scalars and discards everything else.
  `Scanner.Step` is the automaton on values; `MetadataScanner.MetadataJson` is the class with the original's fields and is proved
  equal to it. The grammar is that of RFC 8259, sections 2 to 7.
- **Event streams and token accounting** (`TextLines`, `EventStream`, `StreamEvents`, `Usage`, `Decimals`, `UsageReads`, `UsageLabels`): the line splitter
  of section 9.2.6 of the HTML Living Standard as the proxy uses it, the accumulator of counts, and the reported event. `UsageReads` and `UsageLabels`
  say what a body reports in terms of its tree alone: the decimal numbers and texts that stand at each place.
- **Usage shipping** (`MeterProtocol`, `MeterPromises`, `MeterRuns`, `MeterCalm`, `MeterOverlap`, `Meter`): recording, background and final flushes of one session
  handle as steps over the regions that run under locks, with a history that says where each accepted event went; the locked
  regions themselves as methods over maps, each proved to be one such step that leaves other handles alone.
- **Session credentials** (`Registry`, `Lifecycle`, `LifecycleSafe`, `LifecycleRuns`, `Renewal`, `Hooks`): the registry and its socket
  server, the interleaving of session start and end, owner updates, renewal and retirement, the loop that decides on
  renewals, and the two hooks with every failure they can meet.
- **Evidence ledger** (`Ledger`): hash-chained records, reopening, appending and verifying, over any hash function.
- **Codex configuration file** (`CodexToml`, `TomlEdits`, `TomlBlanks`, `TomlFits`, `TomlLines`, `TomlHeaders`, `TomlFile`, `TomlContents`, `TomlLimits`,
  `TomlEditor`): a textual editor that rewrites only the tables it owns. `TomlEdits` has the edits on sections, over any line helpers; `TomlLines` the
  helpers of the program and `TomlHeaders` what they make of lines a user may write; `TomlFile` and `TomlContents` the results on the bytes of the file,
  `TomlLimits` files on which they fail, and `TomlEditor` the document object changed in place.
- **Command lines, quoting and hooks** (`CodexArgs`, `Quoting`, `HookCleanup`): where configuration values go on a codex command line, in
  the launcher and in the generated shell script; the shell quoter and the tokenizer that recognises its output; hook cleanup.
- **Reset** (`Reset`): deleting a reviewed tree member by member while others may change it.
- **Approvals and execution** (`Runtime`, `Approval`, `Router`): deciding, waiting for an approval, retrying once and relaying, against a
  control plane that may answer anything.

`dafny verify dfyconfig.toml` checks the whole project.

## Modelling choices

- Bytes are characters. Every theorem holds for all characters; where the original decodes a quoted JSON string, the decoder is a
  parameter, and strings it returns count their bytes as characters. In `Quoting` a character is a Unicode scalar value.
- The scanner's path of a member joins keys with '.', so its table is a lookup in the tree only for keys that decode to a
  non-empty name without a dot that is not `*`. `ScannerTable.KeysMustBePlain` shows that each of the three conditions is needed.
- A final line of an event stream counts without its line feed, a line may end in CR LF, and a lone CR ends no line, as in the code.
- Two overlapping final flushes of one handle can delete an event recorded in between (`MeterOverlap.OverlapDiscards`) and let events be
  acknowledged out of order (`MeterOverlap.OverlapReorders`); the results in `MeterCalm` are for runs in which a final flush starts only when no
  other one is active. `MeterRuns.EveryRunConserves` is for all runs.
- A handle of the cgroup planes is the same for every start of one session id, and two such starts can orphan a credential
  (`LifecycleRuns.SharedHandleOrphans`). `LifecycleRuns.NoOrphans` is for runs in which a registration meets a free handle.
- The control plane, the scheduler, process checks, write failures and clocks are arbitrary: actions of a run, or parameters. A created
  credential is new, and an acknowledgement of the daemon reaches its caller.
- The comment in the configuration editor's renderer promises one blank line before every table; the code removes blank lines there and writes
  none, and so does the model. Lines of an array of tables (`[[x]]`) belong to the table above them. The results on the file's bytes are for files
  with LF line ends, multi-line strings that close and no triple quotes in the lines the editor replaces, and for one-line server addresses without
  triple quotes; no sequence of edits leads out of these files (`TomlFile.EditsStayTidy`). A string that does not close, and a feature line that opens
  a string around a table line, each make a second run differ (`TomlLimits`). Server names are what the routes give: letters, digits, dashes and
  underscores. With no server left, running twice is running once exactly when the user's part of the file has at most one marker line
  (`TomlFile.NoServersTwice`, with the witness `TomlFile.TwoMarkersChange`).
- A comment in the ledger's header says that any tampering breaks the chain. The code hashes fields separated by line breaks, so this holds
  for one-line times and types (`Ledger.TipFixesTheLedger`) and not otherwise (`Ledger.LineBreaksMove`). An append keeps the file
  verifying when its type survives being written as a JSON string (`Ledger.OpenLedger.Append`).

## Model

| member | source | states |
|---|---|---|
| ScannerReads.AcceptsExactlyDocuments | internal/node/meter/jsonscan.go:128-267 | for every input, the scanner ends done and not bad if and only if the input is one JSON object of the grammar with whitespace around it, groups nested at most 64 deep and every other literal at most 1024 bytes |
| ScannerAccepts.AcceptedIsDocument | internal/node/meter/jsonscan.go:128-267 | an accepted input is the text of a well-formed tree within the limits; the tree is built from the states the scanner passed |
| ScannerReads.DocumentIsAccepted | internal/node/meter/jsonscan.go:128-267 | reading the text of a document ends in exactly the table that a fold over its tree stores |
| ScannerTable.TableIsLookup | internal/node/meter/jsonscan.go:72-126 | for documents with plain keys, the table at each allowlisted path is the raw text of the last scalar of at most 1024 bytes there in document order, and a usage path is present exactly when an object occurs there |
| ScannerTable.MetadataRulesClosed | internal/node/meter/jsonscan.go:38-70 | every allowlisted path lies under allowlisted containers, and no kept scalar has a usage path |
| ScannerTable.KeysMustBePlain | internal/node/meter/jsonscan.go:72-88 | a dotted key, an empty key and a key `*` under choices each make the table differ from the lookup |
| ScannerContent.AlwaysBounded | internal/node/meter/jsonscan.go:31-126 | after any input there are at most 64 frames, frame paths are allowlisted or hidden, stored paths are allowlisted and stored texts have at most 1024 bytes |
| ScannerContent.ContentIsDiscarded | internal/node/meter/jsonscan.go:90-126 | two accepted documents that differ only in scalars outside the allowlist leave the same state |
| ScannerContent.RedactionReadsTheSame | internal/node/meter/jsonscan.go:90-126 | replacing every scalar outside the allowlist by null changes nothing the scanner keeps |
| MetadataScanner.MetadataJson.Write | internal/node/meter/jsonscan.go:128-267 | the object with the original's fields, written to in any pieces, is in the state of the automaton after the same bytes |
| MetadataScanner.MetadataJson.WriteByte | internal/node/meter/jsonscan.go:128-267 | one byte is one step of the automaton, on the frame stack and flags updated in place |
| MetadataScanner.MetadataJson.FinishLiteral | internal/node/meter/jsonscan.go:117-126 | a pending literal ends as the automaton settles it: bad when too long or invalid, otherwise stored where allowlisted |
| Usage.DocumentStaysInRange | internal/node/meter/jsonscan.go:269-305 | whatever a table holds, adding it keeps every count between 0 and 2^31-1; what the counts are is stated by UsageReads.BodyReports |
| Usage.InclusiveCountIsSplit | internal/node/meter/extract.go:337-399 | on fresh totals, a block whose count includes its cached share and that reports no separate cache writes is flagged invalid exactly when its parts exceed the count, and otherwise input, cache read and cache write add up to it |
| Usage.SeparateCountAdds | internal/node/meter/extract.go:337-399 | a cached share reported only in the separate field comes on top of the input count |
| UsageReads.IntegerReads | internal/node/meter/jsonscan.go:277-284 | reading a number inverts decimal writing: the text of every integer, negative ones included, reads as that integer |
| UsageReads.ScalarReads | internal/node/meter/jsonscan.go:277-284 | and a scalar of a document reads as an integer only if it is that integer in decimal, or minus zero |
| UsageReads.BodyReports | internal/node/meter/jsonscan.go:277-323 | for an accepted body with plain keys and one usage object, each count that stands last at its place in decimal is the one that is added, input, output and the cached shares each at its own place; a count that is not there leaves the earlier one |
| UsageLabels.BodyLabels | internal/node/meter/extract.go:282-335 | model, stop reason, service tier and speed after a body are the first non-empty short text in a fixed order of places of its tree, or else what they were |
| UsageLabels.EventLabels | internal/node/meter/event.go:13-62 | the event of a body names the model of the body, or else the requested one, its stop reason, and the tier its tier and speed are catalogued under |
| UsageLabels.EventCounts | internal/node/meter/event.go:46-62 | an input count without cached parts is passed on with the output count; a prompt count comes in three parts that add up to it; without an input count, or with cached parts that exceed it, the output count is withheld |
| Usage.Accumulator.Observe | internal/node/meter/extract.go:282-335 | the accumulator's fields after a response object are those of the totals function |
| Usage.Accumulator.ObserveBlock | internal/node/meter/extract.go:337-399 | the same for one usage block |
| EventStream.StreamStaysInRange | internal/node/meter/event.go:46-62 | over any stream every reported count lies between 0 and 2^31-1, and an event from invalid or input-less totals carries no output count |
| TextLines.SplitCuts | internal/node/meter/extract.go:421-434 | cutting a stream at its line feeds loses nothing and leaves none inside a line |
| StreamEvents.LineSettles | internal/node/meter/extract.go:435-469 | a data line that completes a document adds its usage and starts over, one after which the text can still be completed is kept, and any other is dropped; a blank line drops what was kept; other lines change nothing |
| StreamEvents.UnfinishedGoesOn | internal/node/meter/jsonscan.go:128-267 | after a line feed, the scanner has given up exactly when nothing can be added to make a document of the text |
| StreamEvents.EventAddsItsDocument | internal/node/meter/extract.go:435-469 | after a blank line, an event of one document adds that document's usage, in however many data lines it comes |
| StreamEvents.StreamAddsUp | internal/node/meter/extract.go:421-470 | a stream of such events reports the usage of its documents, added up in order |
| StreamEvents.EventIsBody | internal/node/meter/extract.go:402-470 | a stream of one event reports what its document reports as a whole response body |
| EventStream.SseSink.Write | internal/node/meter/extract.go:421-434 | after any sequence of writes the sink stands where a line-by-line reading of the whole stream stands |
| EventStream.SseSink.Totals | internal/node/meter/extract.go:470 | the totals are those of the whole stream, its last line ended; for streams of documents StreamEvents.StreamAddsUp says what they are |
| EventStream.TotalsIdempotent | internal/node/meter/extract.go:455-470 | ending the line again changes nothing |
| EventStream.DrainChunks | internal/node/meter/extract.go:411-470 | any way of cutting a stream into chunks reports the totals of the stream, and the same when asked twice |
| EventStream.BodyTotalsIgnoreContent | internal/node/meter/extract.go:402-409 | bodies that differ only in scalars outside the allowlist report the same totals |
| MeterRuns.EveryRunConserves | internal/node/meter/meter.go:75-259 | in every interleaving, accepted events are, as a multiset, those buffered, in flight, acknowledged, dropped for overflow, lost by a final flush or discarded with the handle; a buffer never exceeds 1000 |
| MeterCalm.CalmRunDiscardsNothing | internal/node/meter/meter.go:75-259 | without overlapping final flushes nothing is discarded, and acknowledged, in-flight and buffered events, in that order, are a subsequence of the accepted ones |
| MeterCalm.FinalTakesTheRest | internal/node/meter/meter.go:120-136 | when a final flush takes the buffer no flush holds events, so every accepted event is in that buffer, acknowledged, dropped for overflow or was lost by an earlier final flush |
| MeterCalm.FinalSilencesOthers | internal/node/meter/meter.go:120-136 | while a final flush is active, a background flush that has taken the buffer is cancelled, also while sending; between batches it gives up, one that has not taken the buffer never does, and nothing is recorded |
| MeterCalm.FinalDeletesNothing | internal/node/meter/meter.go:132-135 | the buffer deleted at the end of a final flush is empty |
| MeterOverlap.OverlapDiscards | internal/node/meter/meter.go:120-136 | a reachable run with two overlapping final flushes discards a recorded event |
| MeterOverlap.OverlapReorders | internal/node/meter/meter.go:120-136 | a reachable run with two overlapping final flushes acknowledges a later event before an earlier one |
| MeterPromises.RecordIsAccepted | internal/node/meter/meter.go:84-101 | an event is accepted exactly while the meter and the handle are open; it comes last, and only a full buffer loses an event for it, the oldest |
| MeterPromises.FlushDelivers | internal/node/meter/meter.go:203-230 | a flush that is not cancelled can deliver all it took, in order, in one report for every 100 events, and changes nothing else |
| MeterPromises.BackgroundGivesBack | internal/node/meter/meter.go:250-259 | what a background flush gives back goes in front of the buffer; beyond 1000 events the oldest go |
| MeterPromises.FinalRetriesOnce | internal/node/meter/meter.go:217-229 | a final flush sends a failed report once more while there is time, and gives up the rest at the next failure |
| Meter.UsageMeter.Record | internal/node/meter/meter.go:75-115 | recording is the protocol's step for its handle, leaves other handles alone, drops at most one event, and asks for a flush exactly when it recorded, there are 25 events or more and none was asked for |
| Meter.UsageMeter.BeginFinal | internal/node/meter/meter.go:124-130 | marking a final flush is the protocol's step for its handle |
| Meter.UsageMeter.TakeEvents | internal/node/meter/meter.go:185-198 | a flush takes the whole buffer, or nothing when the record is closing and it is not final |
| Meter.UsageMeter.Requeue | internal/node/meter/meter.go:250-259 | unsent events go back in front of the buffer, and what overflows is dropped from the front and counted |
| Meter.UsageMeter.Forget | internal/node/meter/meter.go:132-135 | forgetting a handle is the protocol's step for it |
| Meter.SendBatches | internal/node/meter/meter.go:203-230 | the batches, of 1 to 100 events, concatenate with the unsent rest to the taken buffer, and sending stops at the first batch that is not delivered |
| Registry.SessionRegistry.Take | internal/node/attest/attest.go:84-92 | removes and returns exactly the session registered at that moment |
| Registry.SessionRegistry.SetOwner | internal/node/attest/attest.go:97-109 | changes the owner of a registered session and nothing else |
| Registry.SessionRegistry.Snapshot | internal/node/attest/attest.go:121-129 | lists every registered session exactly once |
| Registry.SessionRegistry.ReplaceWith | internal/node/attest/attest.go:140-157 | swaps, and persists, only while the handle still holds the expected credential |
| Registry.Server.Handle | internal/node/sessionsock/sessionsock.go:177-243 | only an authenticated, valid message touches the registry; a departing session is flushed after it left the registry and before the acknowledgement |
| LifecycleRuns.EveryCredentialIsAccounted | internal/node/daemon/session_renew.go:149-270 | in every interleaving each created credential is registered, held by a running process, replaced, sent to revoke, or was overwritten by another registration of its handle |
| LifecycleRuns.EndedStaysEnded | internal/node/attest/attest.go:84-157 | a credential taken at a session's end is sent to revoke or about to be, and is never registered or on its way in again |
| LifecycleRuns.EndRevokesTheCurrent | internal/cli/hook.go:208-254 | a session end revokes the credential the registry held when it took the session, whatever the state file says, and the answer never names another session id |
| LifecycleRuns.LateRenewalIsRevoked | internal/node/daemon/session_renew.go:221-258 | a renewal of a session that ended meanwhile changes neither registry nor state file and revokes its replacement |
| LifecycleRuns.TimelyRenewalSwaps | internal/node/daemon/session_renew.go:221-270 | a renewal swaps its replacement in, for the same session, exactly while the registry still holds the credential it set out to replace, and otherwise revokes it |
| LifecycleRuns.NoOrphans | internal/node/daemon/session_renew.go:194-270 | when registrations meet free handles and no process runs any more, following replacements from any created credential ends at one that is registered or was sent to revoke |
| LifecycleRuns.OccupiedHandleLoses | internal/node/attest/attest.go:68-72 | every registration of an occupied handle takes a credential out of the registry, and it is sent to revoke, about to be or replaced afterwards exactly when it was before |
| LifecycleRuns.SharedHandleOrphans | internal/cli/hook.go:104-206 | two starts of one session id that share a cgroup handle can leave a credential nobody revokes |
| LifecycleRuns.StateFileMayBeStale | internal/cli/hook.go:72-100 | an owner update that read the state file before a renewal leaves the old credential in it |
| Renewal.DueStays | internal/node/daemon/session_renew.go:177-192 | a session that is due stays due |
| Renewal.DueExactly | internal/node/daemon/session_renew.go:177-192 | a session is due without a readable end, in the last 300 s of a long or unknown life, in the last third of a life of 30 s to 900 s, and in the last 10 s of a shorter one, and at no other time |
| Renewal.NotDueEarly | internal/node/daemon/session_renew.go:177-192 | a session that lives at least 30 s is not due in the first two thirds of its life |
| Renewal.DueInTime | internal/node/daemon/session_renew.go:177-192 | with ticks every 30 s, a session that lives at least 90 s is due at a tick before its end |
| Renewal.ShorterMayBeLate | internal/node/daemon/session_renew.go:177-192 | for every shorter life some phase of the ticks has no such tick |
| Renewal.RenewalLoop.RunTick | internal/node/daemon/session_renew.go:69-139 | a tick retires and renews exactly the sessions the conditions name, each once, and leaves the remembered dead owners as their function says |
| Renewal.RetiredAfterGrace | internal/node/daemon/session_renew.go:88-104 | a session is retired only when its owner was found dead at a tick at least 30 s earlier, is found dead now and was never found alive in between |
| Renewal.DeadIsRetired | internal/node/daemon/session_renew.go:88-104 | an owner found dead and not alive since, 30 s later, has been retired by that tick |
| Hooks.Host.SessionStart | internal/cli/hook.go:104-206 | a start creates a credential exactly when no reset runs, there is an agent, the credential is given and the session it replaces ends; it succeeds exactly when routes, write and registration do too, and then saves and registers it; otherwise the credential is revoked, not registered, and stays in the state file only when that revocation failed |
| Hooks.Host.SessionEnd | internal/cli/hook.go:208-254 | an end succeeds exactly when the session is saved, the daemon is reached with a usable handle and holds no other session under it, and the revocation goes through; it revokes the credential of the registry, or the saved one; the state file goes exactly then, and otherwise names the credential to revoke again |
| Ledger.VerifyRecords | internal/evidence/ledger.go:143-157 | verification accepts exactly the chains and otherwise names the first record that does not fit |
| Ledger.HashInputIsInjective | internal/evidence/ledger.go:100-104 | records with one-line time, type and previous hash are told apart by what is hashed |
| Ledger.TipFixesTheLedger | internal/evidence/ledger.go:143-157 | two accepted ledgers with one-line times and types and equal tips are equal record by record, or two different texts with the same digest are returned |
| Ledger.LineBreaksMove | internal/evidence/ledger.go:100-104 | with line breaks in a time or type, two different ledgers verify with the same tip, for every hash function |
| Ledger.AppendsOnlyAtTheTip | internal/evidence/ledger.go:60-98 | what a ledger appends keeps the file verifying exactly when its remembered tip and number are the file's |
| Ledger.OpenLedger.Append | internal/evidence/ledger.go:60-98 | the file gains the record and the tip moves to it; the file verifies if the type survives being written, and otherwise only on a collision |
| Ledger.Open | internal/evidence/ledger.go:39-57 | opens exactly the files that verify, at their tip |
| Ledger.AppendAll | internal/evidence/ledger.go:39-98 | any sequence of successful appends, reopening anywhere in between, records the entries in order and leaves a file that verifies |
| CodexArgs.PlacedParses | internal/cli/codex_hooks.go:241-271 | codex reads the new command line as the caller's pieces, each whole and in order, with the inserted options among them, and no config option of the caller before `--` follows the inserted ones |
| CodexArgs.ErasingRestores | internal/cli/codex_hooks.go:247-271 | without the inserted arguments the command line is the caller's |
| CodexArgs.WithCodexConfig | internal/cli/codex_hooks.go:247-271 | the launcher's loop computes that placement |
| CodexArgs.RunShim | internal/cli/codex_desktop.go:167-197 | the script's two loops compute it too |
| CodexArgs.PlaceBothWays | internal/cli/codex_desktop.go:161-166 | both ways of starting codex place the values alike |
| Quoting.QuotedReads | internal/cli/session_hook.go:208-210 | the first word the tokenizer reads from a quoted value, followed by nothing or by a break, is the value |
| Quoting.DoubleQuotedReads | internal/cli/session_hook.go:61-66 | the same for the Windows form |
| Quoting.BackslashedReads | internal/node/sandbox/deconfigure.go:156-189 | so is a word without tabs and line breaks that has a backslash before every quote, backslash and space |
| Quoting.ReadWord | internal/node/sandbox/deconfigure.go:156-189 | the byte loop computes the first word and whether a quote is left open |
| Quoting.HookIsRecognised | internal/node/sandbox/deconfigure.go:156-194 | a hook command for a path, with any arguments, is recognised if and only if the path is called keydris |
| Quoting.CalledHookIsRecognised | internal/node/sandbox/deconfigure.go:156-194 | the same for the Windows form behind the call operator |
| Quoting.KeydrisIsRecognised | internal/node/sandbox/deconfigure.go:190-193 | in whatever directory it is, an executable is recognised exactly when it is called keydris or keydris.exe, in any case |
| HookCleanup.StripCleans | internal/node/sandbox/hook_cleanup.go:5-33 | no handler of ours remains, and entries without one are untouched |
| HookCleanup.StripKeepsUsers | internal/node/sandbox/hook_cleanup.go:5-33 | the handlers that stay are, group by group and in order, those of all handlers that do not run keydris, even in a group with one that does |
| HookCleanup.KeptOne | internal/node/sandbox/hook_cleanup.go:5-33 | of a single handler nothing stays exactly when its command runs keydris |
| HookCleanup.KeptConcat | internal/node/sandbox/hook_cleanup.go:5-33 | what stays of two lists, one after the other, is what stays of each |
| HookCleanup.StrippedIs | internal/node/sandbox/hook_cleanup.go:5-33 | an entry stays as it is, goes, or keeps what else it holds and the handlers of others |
| HookCleanup.Settings.Unmerge | internal/node/sandbox/deconfigure.go:104-137 | cleanup strips the three events, leaves other events alone and reports a change exactly when there was something of ours |
| HookCleanup.Settings.MergeEvent | internal/node/sandbox/claudecode.go:81-103 | our entry comes last, once |
| HookCleanup.Settings.InstallThenClean | internal/node/sandbox/claudecode.go:59-134 | installing hooks for a path and cleaning up leaves each event its entries less older ones of ours, and leaves the new entries exactly when the path is not called keydris |
| HookCleanup.RoundTrip | internal/node/sandbox/deconfigure.go:104-137 | without older hooks of ours, installing and cleaning up gives every event back as it was |
| CodexToml.ReadingSplits | internal/node/sandbox/codexmcp.go:110-136 | reading loses no line and gives sections whose table lines are table lines and whose other lines are none, outside multi-line strings |
| CodexToml.FlatReads | internal/node/sandbox/codexmcp.go:110-136 | the lines of such sections read back as those sections |
| TomlEdits.ConfigureTwice | internal/node/sandbox/codexmcp.go:31-62 | on sections, configuring the same servers again changes nothing |
| TomlEdits.EmptyTwice | internal/node/sandbox/codexmcp.go:31-62 | on sections, with no servers, configuring twice is configuring once exactly when the sections that stay hold at most one marker line |
| TomlEdits.UninstallRestores | internal/node/sandbox/codexmcp.go:66-89 | configuring and removing leaves the user's sections of other names, in order and line for line but for the marker and the flag |
| TomlBlanks.ConfigurePads | internal/node/sandbox/codexmcp.go:31-62 | configuring does not depend on blank lines at the end of sections |
| TomlFits.ConfigureFits | internal/node/sandbox/codexmcp.go:140-220 | configuring does not disturb which lines are tables, nor the lines it may replace later |
| TomlFits.UninstallFits | internal/node/sandbox/codexmcp.go:66-89 | nor does removing |
| TomlLines.PlainTable | internal/node/sandbox/codexmcp.go:278-295 | a table line of a plain key has that key |
| TomlHeaders.QuotedTable | internal/node/sandbox/codexmcp.go:278-323 | so does one whose last part is quoted, with a comment after it |
| TomlHeaders.PlainAssignment | internal/node/sandbox/codexmcp.go:298-323 | an assignment of a plain key is read as one of that key, whatever its value and comment |
| TomlHeaders.QuotedAssignment | internal/node/sandbox/codexmcp.go:298-323 | so is an assignment of the quoted key |
| TomlHeaders.DelimiterOpens | internal/node/sandbox/codexmcp.go:325-332 | a line with one triple quote opens a multi-line string and closes an open one of its kind, and no other; two in a line are counted as two |
| TomlHeaders.TableAfterString | internal/node/sandbox/codexmcp.go:110-136 | inside a multi-line string every line is body text, table lines too; after the line that closes it, the next table line starts a table |
| TomlLines.MarkerIsRead | internal/node/sandbox/codexmcp.go:181-220 | the marker line of some names is read as a marker of exactly those names |
| TomlFile.RenderedReads | internal/node/sandbox/codexmcp.go:222-244 | a rendered document reads back as it was, up to one blank line at the end |
| TomlFile.ConfiguringTwiceIsOnce | internal/node/sandbox/codexmcp.go:31-62 | for a tidy file, configuring the same servers twice gives the same bytes as once |
| TomlFile.NoServersTwice | internal/node/sandbox/codexmcp.go:31-62 | with no servers it does so exactly when the user's part of the file has at most one marker line |
| TomlFile.TwoMarkersChange | internal/node/sandbox/codexmcp.go:201-220 | on a file of two marker lines, the second run without servers gives other bytes |
| TomlFile.EditsStayTidy | internal/node/sandbox/codexmcp.go:31-89 | no sequence of configuring and removing takes a tidy file out of the tidy ones |
| TomlContents.ConfiguringWrites | internal/node/sandbox/codexmcp.go:31-62 | for a tidy file and servers of distinct names, the bytes after configuring read back with exactly one table for each server, whose one line that is not blank is that server's own address; the first features table turns the flag on; the first marker names exactly the servers |
| TomlContents.ConfiguringKeepsUsers | internal/node/sandbox/codexmcp.go:31-62 | every table that is neither one of the servers' nor named by the old marker stays, in order and line for line but for the marker, the flag and blank lines; at most a features table comes after, then the servers' tables in their order |
| TomlContents.RemovingTakesOut | internal/node/sandbox/codexmcp.go:66-89 | removing takes exactly the tables the marker names, and one marker line; without a marker the bytes stay |
| TomlFile.AfterAnyEdits | internal/node/sandbox/codexmcp.go:31-89 | after any sequence of edits, configuring twice gives the same bytes as once, and configuring and removing restores the user's sections |
| TomlLimits.UnclosedChanges | internal/node/sandbox/codexmcp.go:110-136 | on a file whose multi-line string does not close, the second run gives other bytes |
| TomlLimits.TrapChanges | internal/node/sandbox/codexmcp.go:155-171 | on a file whose feature line opens a multi-line string around the server's table line, the second run gives other bytes |
| TomlFile.RemovingRestores | internal/node/sandbox/codexmcp.go:66-89 | for a tidy file, the bytes after configuring and removing are the rendering of sections that keep the user's of every other name, in order and line for line but for the marker, the flag and blank lines |
| TomlEditor.Document.Read | internal/node/sandbox/codexmcp.go:110-136 | the loop over lines gives the sections of the reading |
| TomlEditor.Document.SetFeatureFlag | internal/node/sandbox/codexmcp.go:155-171 | the flag is set in place in the first features table, or in a new one |
| TomlEditor.Document.SetManagedNames | internal/node/sandbox/codexmcp.go:201-220 | the first marker is rewritten or dropped in place, or put first |
| TomlEditor.Document.Configure | internal/node/sandbox/codexmcp.go:31-62 | the driver performs the configuring edit, whose contents TomlContents.ConfiguringWrites states |
| TomlEditor.Document.RemoveManaged | internal/node/sandbox/codexmcp.go:66-89 | the driver performs the removing edit and reports whether there was anything to remove |
| TomlEditor.Document.Render | internal/node/sandbox/codexmcp.go:222-244 | the builder's text is that of the sections' lines without blank lines at the end of a section |
| TomlEditor.ConfigureServers | internal/node/sandbox/codexmcp.go:31-62 | reading, editing and rendering in place gives the bytes of the configuring function, whose contents TomlContents.ConfiguringWrites states |
| TomlEditor.RemoveServers | internal/node/sandbox/codexmcp.go:66-89 | the same for removing; a file without a marker stays as it is |
| Reset.WalkIsOrdered | internal/cli/reset.go:81-93 | the planned members lie in the tree, each directory before what is in it |
| Reset.WalkIsTree | internal/cli/reset.go:81-93 | the planned members are exactly what the paths of the tree lead to |
| Reset.Directory.RemoveTarget | internal/cli/reset.go:378-428 | only planned members inside the target are deleted whatever others do meanwhile, and none that is found to be a link at its turn; success means that none was; an unplanned entry that is there throughout the look stops everything; on an unchanged tree an ordered plan that covers it succeeds and all of it goes |
| Reset.Directory.RemoveTree | internal/cli/reset.go:81-93 | planning a tree by the walk and removing it, unchanged, takes away exactly the tree |
| Approval.ControlPlane.WaitForApproval | internal/runtimecontract/approval.go:94-124 | the wait goes on exactly while the validated status is pending and there is time; it ends well if and only if there is a token and a good request id and some poll within the time finds the request approved after pending ones only |
| Approval.SecondOnApproval | internal/cli/pretool.go:193-234 | after a reply that asks for an approval, the call is made a second time if and only if the approval comes in time |
| Approval.SecondNeedsApproval | internal/cli/pretool.go:193-234 | of two execution calls the second equals the first, is the last call, and came right after an approved status that the first one's reply asked for |
| Approval.AuthorizeCommand | internal/cli/pretool.go:193-234 | one authorization call; if its reply asks for an approval, a whole wait; and exactly when that ends with the approval, the same call again; the decision returned is that of the last reply |
| Approval.AuthorizedIsInEffect | internal/cli/pretool.go:193-234 | the decision is the first reply's, unless that asks for an approval; then it is that of the reply after the approval, if it comes in time, and none otherwise |
| Approval.DecidePreToolUse | internal/cli/pretool.go:98-159 | a command is allowed if and only if the checks before pass and the decision in effect is an allow; the last call is then an authorization whose reply answers this request with an allow and a reason for one; Codex stays silent exactly then |
| Runtime.ResponsesAreAllowed | internal/runtimecontract/provider.go:137-181 | a consistent execution answer carries a response only with an allow and asks for approval only as a denial |
| Router.Router.HandleProvider | internal/node/daemon/runtime_router.go:284-375 | a call is made if and only if there is a token, the metadata are valid and the target's resource is selected, of its kind and available, and otherwise the flow is rejected; a reply that asks for an approval is followed by the wait and, on approval, by the call again; a response is relayed exactly when the last call is an execution whose validated reply carries one, under an allow |
| Router.Router.HandleGateway | internal/node/daemon/runtime_router.go:621-722 | the same for an MCP action whose resource is selected under its kind and name and available, and for which a message can be built |
| Router.Router.HandleSession | internal/node/daemon/runtime_router.go:546-619 | one relay call, made if and only if the metadata are valid and there is a token; its answer is passed on exactly when it is valid and not failed |
| Router.Router.HandleRoute | internal/node/daemon/runtime_router.go:87-129 | on a ready route, for which flows a call is made, what becomes of the others, and that what is relayed comes from the reply to the last call |
| Router.Router.HandleKitReader | internal/node/daemon/runtime_router.go:465-542 | a token is asked for if and only if the action names a selected, available resource, and injected exactly when the answer is a valid one |
| Router.Router.Handle | internal/node/daemon/runtime_router.go:44-129 | a flow of a session with routes gets exactly one action and every other flow none: an unmanaged origin passes, a managed one without a route is told that there is no OAuth or rejected, several routes or one that is not ready are rejected, and one ready route decides; no tool call or resource read passes by, nor anything where the upstream needs a credential |

## Left out

- Usage shipping models one handle's protocol; the locked regions touch one handle at a time, which `Meter` proves for its maps. The cancellation of a
  running attempt is part of the protocol and not of the class, and the flag that avoids scheduling two background flushes
  only restricts when they start.
- Meter.SendBatches: runs the loop of one flush against given answers; its interleaving with other steps is in `MeterProtocol`.
- LifecycleRuns.EveryCredentialIsAccounted: a restart of the daemon, which empties the registry, is not modelled.
- Quoting.KeydrisIsRecognised: lower-casing is modelled for the letters that can become one of those compared with.
- Hooks.Host.SessionStart: checking the session id, state files that cannot be read and the cgroup a handle is bound to are not modelled.
- Router.Router.Handle: matching routes to origins and paths, resolving a provider's resource from the path and decoding request bodies are inputs of the flow.
- Ledger.OpenLedger.Append: write and sync failures, after which the tip in memory is not advanced, and lines over 2 MiB are not modelled; how a record becomes a JSON line is the parameter `reread`.
- TomlEditor.ConfigureServers: asks for a file without CR; quoting of addresses and sorting of names are parameters, and staging the file is not modelled.
- Reset.Directory.RemoveTarget: which targets a reset plans is not modelled, what the checks for links find is an input at each step, and single files, whose content is compared before they go, are left out.
- The request side of the meter, which finds the requested model in a prefix of the request body.
- TLS, certificates, HTTP forwarding, packet redirection, process lookup, the user interface, login, upgrade and telemetry.
