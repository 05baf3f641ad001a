# Backpack, modelled

Backpack runs tunnels between servers: an engine process per tunnel, files that
say what each should do, a watchdog, and tools that create, edit, pair and
diagnose tunnels. This is a model in Dafny of the parts of it that decide things
over time or have to agree with each other, with proofs of what they promise.
`dafny verify dfyconfig.toml` checks it.

- **The stall ladder** (`StallLadder`, `StallRuns`): byte counters and a clock in,
  report, reload, restart or give up out, across restarts of the watchdog.
- **Files and back** (`Decimal`, `Toml`, `TomlDocument`, `ConfigKeys`): how settings
  are spelled in a file, a reader for that part of TOML in both its editions, v1.0.0
  and v1.1.0 (sections "String", "Key/Value Pair" and "Array"), and that reading
  undoes writing.
- **Reverse tunnels** (`ReverseConfig`, `ReverseLoad`, `ReverseRoundTrip`,
  `ReverseFields`, `ReverseDecides`, `ReverseEdit`): rendering, loading, the normal
  form between them, which field governs which key, and edits.
- **Direct tunnels** (`GoText`, `L3Config`, `L3RoundTrip`, `L3Edit`): the same for
  the `[l3]` file and its two editors.
- **Pairing** (`Pairing`, `ForgedSources`): one end's file to a setup link, a mirrored form and the
  other end's file, and what the two ends then agree on.
- **Jobs** (`JobRegistry`, `JobRuns`): the registry, and every interleaving of its
  users.
- **Reload** (`ReloadLoop`, `ReloadRuns`, `ReloadWait`): generations of one tunnel against edits of
  its file at any moment, a control socket, and shutdown.
- **Edits with undo** (`EditTransaction`, `EditHistory`): write, restart, verify,
  put back, file; any step failing.
- **Numbers** (`PathStats`, `PathMTU`), **fleet drift** (`Desired`) and **addresses**
  (`Allocator`).

Where the source changes fields in place the model is a class with those fields,
each method tied to a function of the old state; what is promised of the state is
then proved of the functions, over whole runs. Concurrent parts are machines of
atomic steps. Outside facts are parameters: the results of dials and pings, the
failure of each write or restart, the clock, Go's table of printable characters
and of lower-case letters beyond ASCII, the JSON library's treatment of text.

## Where the code differs from what it says

- A clearing reading keeps `reloaded`, though its comment says "on this stall"
  (internal/manage/throughputhealth.go:112-117, 189-196): the cheap rung is spent
  once in a reading's life.
- Go's `%q` writes some controls as `\a` and `\v`, which TOML does not know, and some as
  `\x..`, which it knows from v1.1.0 on. A token holding one makes the whole file
  unreadable (`Toml.QuotedReadsBack`, for both editions).
- A restart asked for between two generations is not refused as
  cmd/enginesocket.go:88-91 says but accepted and lost; only before the first is it
  refused.
- A file edited between a load and the fingerprint taken when the next wait begins
  is not noticed until it is edited again. The running configuration is the file's
  exactly over runs in which such an edit does not load or means what is running
  (`ReloadRuns.AgreementIsExactlyHarmlessEntry`).
- Generations can begin after shutdown, with a context already cancelled, until the
  loop has seen the shutdown (`AGenerationCanFollowShutdownExactlyUnlessSeen`).
- Both editors of a direct tunnel drop the SNI domain from its file, which
  internal/manage/directwebapi.go:681-683 says an edit must not do to any key.
- The advice printed on a ping's evidence can be a clamp `SetMSS` refuses, against
  internal/manage/diagnose_path.go:192-196, and the advice for datagram tunnels
  always is one.
- A setup link carries no GRE key, its form no MTU and only a flag for error
  correction, and a carrier named by spaces alone is udp to one end and pck to the
  other (`Pairing.APairThatDisagrees`). Of a carrier's stealth settings a link carries
  one flag for two.
- `itoa` runs out of its buffer from 10^8 on.

## Model

| member | source | states |
|---|---|---|
| StallLadder.FlowReading.Clear | internal/manage/throughputhealth.go:189-196 | after a clearing reading every stall field is as new but `reloaded`, which stays |
| StallLadder.FlowReading.Fold | internal/manage/throughputhealth.go:151-183 | one pair of counters changes the reading and is classed as the four-way judgement of the two deltas says |
| StallLadder.FlowReading.Climb | internal/manage/throughputhealth.go:212-257 | one decision moves the reading to the next rung of the ladder and returns that rung |
| StallLadder.FlowWatch.Observe | internal/manage/throughputhealth.go:144-184 | only the named tunnel's reading changes, by one fold; the first sight of a tunnel is only remembered |
| StallLadder.FlowWatch.Decide | internal/manage/throughputhealth.go:212-257 | only the named tunnel's reading changes, by one decision; an unknown tunnel is watched |
| StallLadder.FlowWatch.Forget | internal/manage/throughputhealth.go:141-141 | the tunnel's history is gone and no other's |
| StallLadder.FlowWatch.Save | internal/manage/throughputhealth.go:337-366 | the file holds every reading, its times cut to Unix seconds with 0 for none |
| StallLadder.FlowWatch.Load | internal/manage/throughputhealth.go:371-394 | every entry of a readable file replaces that tunnel's reading; an unreadable one changes nothing |
| StallRuns.EveryRunClimbsTheLadder | internal/manage/throughputhealth.go:144-257 | over every run of readings, decisions, stops and watchdog restarts: the actions on one stall are report, reload unless spent, two restarts, give-ups, and the reload is spent exactly when one stands among the actions on the reading's earlier stalls; the first rung after the report is 3 min or more after the fifth one-sided reading, then 3 min between rungs from the reload on and 30 min between give-ups, less under a second if the watchdog restarted; at most two restarts, and one reload in a reading's life |
| StallRuns.EveryDueRungIsTaken | internal/manage/throughputhealth.go:212-257 | the converse, over every run: when a rung is due, judged from the actions so far, their times and when the stall was noticed alone, a decision appends exactly that rung; when none is, allowing for the slack of a restart, it appends nothing |
| StallRuns.TheWholeLadder | internal/manage/throughputhealth.go:212-257 | the whole ladder in one run: report, reload, two restarts, giving up at twelve minutes and again half an hour later |
| StallRuns.ReadingsSayWhatTheCountersShow | internal/manage/throughputhealth.go:144-184 | after every reading of every run: stalled exactly at five one-sided readings, idle exactly when neither counter rose short of that, and the frozen side is the last one-sided reading's |
| StallRuns.ASecondStallGetsNoReload | internal/manage/throughputhealth.go:112-117 | a concrete run whose second stall goes from the report straight to a restart |
| StallRuns.RestartCount | internal/manage/throughputhealth.go:239-257 | how many restarts a ladder of any length holds, counted from its actions |
| StallRuns.ReachableReadings | internal/manage/throughputhealth.go:97-119 | in every reachable state a stall is dated exactly when five one-sided readings stand, and restarts were spent only after the report and the reload |
| StallRuns.RunsCountEvidence | internal/manage/throughputhealth.go:144-184 | `runs` is the number of one-sided readings since the last clearing one, counted from the raw counters |
| StallRuns.ActionNeedsEvidence | internal/manage/throughputhealth.go:212-217 | any action needs five standing readings of 64 KiB or more one way and nothing the other |
| StallRuns.SilenceNeverActs | internal/manage/throughputhealth.go:155-162 | a run in which no counter ever rises, resets included, never acts |
| StallRuns.SilenceNeverClears | internal/manage/throughputhealth.go:155-162 | a reading without progress changes the remembered counters and nothing else |
| StallRuns.SaveLoadExactlyWhen | internal/manage/throughputhealth.go:337-394 | saving and loading keeps a reading exactly when both its times are absent or whole seconds other than 1970's first |
| StallRuns.WatchdogRestartsAreInvisible | internal/manage/throughputhealth.go:337-394 | on a clock of whole seconds a run with watchdog restarts does and remembers exactly what it does without them |
| StallRuns.RestartBringsForwardUnderASecond | internal/manage/throughputhealth.go:337-394 | on any clock a restarted watchdog takes at its next decision the same action, at most a second earlier |
| Decimal.Itoa | cmd/reload.go:262-274 | the eight-byte buffer gives the decimal text of every number below 10^8, nothing for a negative one, and runs off its front (a panic) exactly from 10^8 on |
| Decimal.NaturalReadsBack | cmd/reload.go:262-274 | decimal text has the number's value and no leading zero |
| Toml.EscapedReadsBack | internal/manage/config.go:249-252 | one character as `%q` writes it is read back by a TOML reader of either edition, v1.0.0 or v1.1.0 (section 'String'), or stops it when it is a control that edition has no such escape for |
| Toml.QuotedReadsBack | internal/manage/config.go:249-252 | in either edition a quoted string reads back as itself exactly when it holds no such control: in v1.1.0 the bell and the vertical tab, in v1.0.0 also every control written `\x..` |
| Toml.ListReadsBack | internal/manage/config.go:317-321 | a list, one item a line or all on one, reads back item by item exactly when every item can be spelled |
| Toml.PairReadsBack | internal/manage/directrender.go:429-431 | a key padded to its column with its value reads back as that key and value |
| Toml.LinesReadBack | internal/manage/config.go:242-392 | whole files of such lines read back line by line, or not at all when one string cannot be spelled |
| TomlDocument.FileReadsBack | internal/manage/config.go:242-392 | a printed file reads back as one table of exactly the written keys; repeated keys would be refused |
| ConfigKeys.OnlyTheseChange | internal/manage/edit.go:582-582 | two printed tables whose values differ only at named keys read back alike at every other key |
| ReverseConfig.Printer.WriteTuning | internal/manage/config.go:158-172 | appends the segment clamp and the socket buffers, each only when positive |
| ReverseConfig.Printer.WriteKCP | internal/manage/config.go:176-190 | appends the ten KCP keys exactly on a KCP transport |
| ReverseConfig.Printer.WritePck | internal/manage/config.go:196-213 | appends the packet carrier's keys, each only when set, exactly on pck |
| ReverseConfig.Printer.WriteFallbackChain | internal/manage/config.go:420-432 | appends the chain and, with a chain only, a positive dwell |
| ReverseConfig.Render | internal/manage/config.go:242-392 | the text built up by the writers is the banner, the role's table header and the role's fields in the order of the file |
| ReverseConfig.NamesSpellDifferently | internal/manage/config.go:248-390 | no two of the tables' keys are spelled alike, so none is emitted twice |
| ReverseLoad.ServerFieldsProper | internal/manage/config.go:247-325 | for every spec the [server] keys come in one strict order, each with a value of its field's type and in range |
| ReverseLoad.ClientFieldsProper | internal/manage/config.go:328-391 | the same of the [client] keys |
| ReverseLoad.ServerReads | internal/manage/edit.go:19-80 | a table that says what the printer wrote loads as the normal form of the server's spec, all 45 fields |
| ReverseLoad.ClientReads | internal/manage/edit.go:83-142 | the same of a client's |
| ReverseRoundTrip.LoadUndoesRender | internal/manage/edit.go:145-157 | for every spec, `LoadSpec` of its rendered text is: bad name, unparsable (a string TOML cannot spell), not a tunnel (no address), or exactly the normal form |
| ReverseRoundTrip.NormIdempotent | internal/manage/edit.go:19-142 | the normal form is one |
| ReverseRoundTrip.NothingIsLostExactly | internal/manage/edit.go:19-142 | which specs are their own normal form, and so load exactly as they were: the exact condition on the fields of each role |
| ReverseRoundTrip.NormPrintsTheSame | internal/manage/config.go:242-392 | what the normal form drops is what is not printed: the rendered text is the same |
| ReverseEdit.EditKeepsTheRest | internal/manage/edit.go:406-521 | an accepted edit of any spec, saved, loads as what the unedited file loads as with the edited fields, and no others, new; errors are the same |
| ReverseEdit.EditsPassExactly | internal/manage/edit.go:406-521 | which edits are accepted: the exact condition for each of the five |
| ReverseEdit.TheAnswerIsInTheFile | internal/manage/edit.go:406-521 | the file of an accepted edit loads with the answer given: each cap its own, and balancing turns failover off |
| ReverseFields.TheFieldsAreAll | internal/manage/config.go:12-143 | two specs of one role that hold the same at every listed field are the same spec: the list of 59 leaves none out |
| ReverseFields.TablesDifferWithin | internal/manage/config.go:242-392 | two specs of one role, however many fields apart, print tables that differ at most at the keys the differing fields govern, and read alike at every other key |
| ReverseFields.AFieldGovernsOnlyItsKeys | internal/manage/config.go:242-392 | changing any one field alters only the keys it governs: the transport those of the mux, KCP, packet, TLS, edge and PROXY settings, a chain its dwell, a domain its email, a port its bind address, every other its own |
| ReverseDecides.GovernsExactly | internal/manage/config.go:242-392 | a field governs a key exactly when changing it alone can change what the file reads as there, for each of the 59 fields and every key |
| ReverseEdit.EditChangesOnlyItsKeys | internal/manage/edit.go:406-521 | of each edit: the edited file reads like the unedited at every key the fields it sets do not govern |
| ReverseEdit.EditCommutesWithNorm | internal/manage/edit.go:406-521 | editing and normalising commute for every edit the checks let through |
| GoText.TrimIsTight | internal/manage/directrender.go:444-450 | trimming twice is trimming once, and trims nothing exactly where neither end is a space |
| GoText.TrimCutsSpaces | internal/manage/directrender.go:444-450 | what trimming cuts off both ends is spaces alone |
| L3Config.WriteForge | internal/manage/directrender.go:298-326 | appends the comment for any forged-source setting at all and then each such key only when set |
| L3Config.WritePckKeys | internal/manage/directrender.go:347-366 | the same for the packet carrier |
| L3Config.Render | internal/manage/directrender.go:194-287 | the text built up is the header and the [l3] keys in file order |
| L3RoundTrip.FieldsProper | internal/manage/directrender.go:194-287 | for every spec the 47 keys come in one strict order, typed and in range |
| L3RoundTrip.LoadUndoesRender | internal/manage/directrender.go:194-287 | for every spec the rendered text loads as exactly the settings the file can hold, or does not parse because a string cannot be spelled |
| L3RoundTrip.NothingIsLostExactly | internal/manage/directrender.go:194-287 | which specs the file holds whole: the exact condition, field by field |
| L3Edit.ApplyDirectEdit | internal/manage/directwebapi.go:599-674 | field-by-field folding returns the first refusal in order, or all the form's answers laid over the settings at once |
| L3Edit.EditReadsBack | internal/manage/directwebapi.go:564-592 | every accepted edit writes a file that loads as the normal form of the settings with the form's answers, less the SNI domain; an edit the form's checks let through is refused exactly when its text would not parse |
| L3Edit.NamedSettingsTake | internal/manage/directwebapi.go:599-674 | in the file of every accepted edit each named setting is the form's answer: MTU, automatic MTU only when refused, ports without outer spaces, UDP answer and caps beside ports, paths (0 for 1), 10:3 or no error correction, the drawer's settings, what stealth on and off set, the preset's four |
| L3Edit.FormsPassExactly | internal/manage/directwebapi.go:599-674 | the form's answers pass exactly when ports and drawer are well formed, the MTU is 0 or 576 to 9000, forging is asked of the spoof carrier, paths are 0 to 8 and more than one of udp only |
| L3Edit.NormalIsItselfExactly | internal/manage/directwebapi.go:684-713 | which settings the file holds as they are, field by field |
| L3Edit.UnnamedSettingsStay | internal/manage/directwebapi.go:594-598 | beyond the normal form, every setting the form does not name is unchanged, and twelve never can change |
| L3Edit.EditLosesTheSniDomain | internal/manage/directwebapi.go:684-713 | an edit keeps everything the file can hold exactly when the carrier is not sni or no domain is set; the printer could hold the domain, and both editors lose it |
| L3Edit.BothEditorsWriteTheSame | internal/manage/directedit.go:319-343 | the terminal editor and the panel write the same file, their specs differing only in encap |
| L3Edit.ForwardingAnswersNeedPorts | internal/manage/directrender.go:270-284 | without a port list the UDP answer and the caps are not kept |
| L3Edit.NormalIdempotent | internal/manage/directwebapi.go:684-713 | the normal form of the settings is one |
| Pairing.JoinSplits | internal/manage/directwebapi.go:348-355 | a joined address comes apart into its host and port, except for hosts with stray brackets: exactly which |
| Pairing.FarEnd | internal/manage/sharelink.go:259-369 | side, token, carrier, GRE key, sockets and error correction of the receiving end in terms of the producing end's file |
| Pairing.SetupLeaves | internal/manage/directwebapi.go:278-291 | the setup writes a file that holds the spec's settings, or none at all, exactly when one of them cannot be spelled |
| Pairing.SetupsPassExactly | internal/manage/directwebapi.go:310-395 | which forms a setup accepts: carrier, port, name, token, and address and ports on the side that dials |
| Pairing.PairAgrees | internal/manage/peerform.go:48-72 | for every carrier, the file the receiving end is left with takes the opposite side, uses the same carrier (unless one is named by spaces alone) and number of sockets; tokens agree exactly when free of outer spaces, error correction exactly when off or 10:3, GRE keys exactly when 0, MTUs exactly when the default, announced domains exactly when lower case and free of outer spaces |
| Pairing.APairThatDisagrees | internal/manage/peerform.go:48-72 | whatever the receiving machine, a concrete producing end is set up without complaint and agrees on GRE key, error correction and MTU with neither |
| Pairing.PairMeets | internal/manage/sharelink.go:297-311 | in that file, both ends use one port (unless the host has stray brackets), and the tunnel addresses cross over by host part |
| Pairing.PairForwards | internal/manage/sharelink.go:259-330 | ports and UDP answer cross to the dialling end alone, the preset and its queue settings to both; what is never carried is at its default |
| Pairing.PeersShareABase | internal/manage/sharelink.go:371-379 | the other end's suggested name differs in its side only |
| Pairing.PairForges | internal/manage/sharelink.go:333-366 | on the forged-source carrier the receiving end expects the one address the producing end forges, or any; the packet profiles of both directions agree whenever the producing engine knows them; exactly what its ping split, padding and TLS header come to; a listening end always holds a parsable peer address |
| ForgedSources.PinnedIsEverySource | internal/manage/sharelink.go:393-404 | a source is pinned exactly when the producing file names one address in all, and it is then every address that file names |
| ForgedSources.JoinedPieces | internal/manage/sharelink.go:386-404 | taking a joined list of addresses apart gives the pieces of its items, whatever commas and spaces they hold |
| ForgedSources.NonEmpty | internal/manage/sharelink.go:476-488 | the loop keeps trimmed items that are not blank, each once, in order |
| ForgedSources.KeptExactly | internal/manage/sharelink.go:476-488 | kept are exactly the trimmed items that are not blank, each once |
| ForgedSources.KeptInOrder | internal/manage/sharelink.go:476-488 | in order of first appearance: more items only add at the end |
| ForgedSources.DrawersPassExactly | internal/manage/directwebapi.go:395-430 | which answers about forged sources a setup accepts: known profiles but for case and spaces, addresses that parse, and a peer to reply to on the side that listens |
| ForgedSources.SingleSource | internal/manage/sharelink.go:393-404 | the loop finds the one piece of a list, exactly when there is one |
| JobRegistry.IdsDiffer | internal/control/job.go:155-156 | an id gives back its kind and number, whatever dashes and digits the kind has |
| JobRegistry.StartingMeans | internal/control/job.go:144-167 | a start on a busy kind changes nothing; any other adds one running job of that kind and target, started now, under the next number, and touches no other |
| JobRegistry.FinishingMeans | internal/control/job.go:170-202 | finishing removes the live job, frees its kind and appends it as cancelled, failed with its error, or succeeded, with its result and time and otherwise as it was |
| JobRegistry.TouchingMeans | internal/control/job.go:204-210 | a report changes one live job's step and a cancel marks one live job, and neither anything else |
| JobRegistry.Jobs.Start | internal/control/job.go:144-167 | a busy kind gets the running job and changes nothing; otherwise one fresh job is live and indexed |
| JobRegistry.Jobs.Finish | internal/control/job.go:170-202 | a live job moves to the end of a bounded history as cancelled, failed or succeeded and frees its kind; a finished id changes nothing |
| JobRegistry.Jobs.Step | internal/control/job.go:204-210 | only a live job's step changes |
| JobRegistry.Jobs.Get | internal/control/job.go:213-225 | the live job of an id, else the finished one with no later one of that id, else nothing exactly when there is none |
| JobRegistry.Jobs.Latest | internal/control/job.go:241-253 | the running job of a kind, else the finished one of that kind at a place no later one of the kind comes after, else nothing exactly when none has the kind |
| JobRegistry.Jobs.LatestFinished | internal/control/job.go:241-253 | the same of the finished jobs alone |
| JobRegistry.Jobs.History | internal/control/job.go:257-271 | the finished jobs of a kind newest first, up to the limit |
| JobRegistry.NewestFirstIsAll | internal/control/job.go:257-271 | a listing holds every wanted job as often as the history does, and no other |
| JobRegistry.NewestFirstRunsBackwards | internal/control/job.go:257-271 | later in a listing is earlier in the history |
| JobRegistry.Jobs.Cancel | internal/control/job.go:276-285 | a live job's context is cancelled; of a finished one nothing changes |
| JobRuns.RunKeeps | internal/control/job.go:144-210 | every interleaving of starts, reports, cancels, returns and finishes keeps the registry's invariant |
| JobRuns.ReachableRegistries | internal/control/job.go:96-112 | at every reachable state at most one job of a kind is live and indexed, live jobs run, remembered ones are done, the history is the last `keep` finishes, every start is live or finished once and never both |
| JobRuns.TheLogOnlyGrows | internal/control/job.go:195-198 | what finished stays finished, in order |
| JobRuns.FinishedIsInert | internal/control/job.go:170-177 | finishing, reporting on or cancelling a finished id changes nothing, now or later |
| JobRuns.LookingDecides | internal/control/job.go:161-165 | a job ends cancelled exactly if its context was when its worker looked, whatever the work returned, and failed exactly if not and the work failed; later cancels change nothing |
| JobRuns.LatestLooksTwice | internal/control/job.go:241-253 | whatever happens between the two looks, the answer is that of one look at the first moment when a job ran then, else that of one at the second, exactly unless a job of the kind has begun in between |
| ReloadLoop.EveryRunIsLawful | cmd/cmd.go:79-144 | over every run against edits, signals and the socket: one engine at most, the current generation's; the configuration is what some content of the file loads as; a reload is to a different one; the register names a generation there has been |
| ReloadLoop.EveryReachableStateIsLawful | cmd/cmd.go:79-144 | all of that at every state reachable from the process's first load |
| ReloadRuns.OnlyAReloadChangesTheConfig | cmd/cmd.go:117-142 | the configuration changes only by a reload, to the one the reload announced |
| ReloadRuns.SocketRestartsAreNarrow | cmd/enginesocket.go:69-78 | a socket restart cancels the generation that was current when it read the register and nothing else; fired late it ends nothing that runs |
| ReloadRuns.ARestartTakesEffectExactlyInItsWait | cmd/cmd.go:101-117 | in every phase: an accepted restart can end the wait of the generation it names exactly while that wait has not ended; from its return on no run lets it |
| ReloadRuns.AGenerationBeginsUncut | cmd/enginesocket.go:81-91 | whatever restarts were asked for before, the next generation begins with a live context unless shutdown came |
| ReloadRuns.ASeenShutdownEndsTheProcess | cmd/cmd.go:117-126 | a wait that sees a shutdown stops the process once its engine has; after it no run whatever begins another generation |
| ReloadRuns.AnEndedWaitGoesOn | cmd/cmd.go:117-144 | a wait that ended otherwise is followed by one more generation, on the reloaded configuration after a reload and on the same one after a restart |
| ReloadRuns.BrokenOrSameFileDisturbsNothing | cmd/reload.go:125-141 | a file that does not load or means the same ends nothing; only one that fails a check ends the process |
| ReloadRuns.AfterShutdownEveryGenerationIsOver | cmd/reload.go:111-115 | after shutdown every generation, whenever begun, has a cancelled context |
| ReloadRuns.AGenerationCanFollowShutdownExactlyUnlessSeen | cmd/reload.go:106-115 | after shutdown another generation can still begin exactly unless the process has stopped or exited or the wait has ended for the shutdown |
| ReloadRuns.GenerationsMayFollowShutdown | cmd/reload.go:111-115 | from a wait, for every number there is a run in which that many generations still begin after shutdown |
| ReloadRuns.LoadedIsNeverOlder | cmd/reload.go:119-125 | what is loaded after a poll is no older than the fingerprint held |
| ReloadRuns.CleanRunsStayCaughtUp | cmd/reload.go:97-125 | without an edit in an entry window, the wait never compares against a fingerprint newer than what it loaded |
| ReloadRuns.QuietPollMeansAgreement | cmd/reload.go:119-122 | a poll that sees no change means the file does not load or loads as the running configuration, whenever the fingerprint held was of a file loaded since or harmless |
| ReloadRuns.AgreementIsExactlyHarmlessEntry | cmd/reload.go:97-142 | over every run, the running configuration is the file's at every quiet poll if and only if every fingerprint taken on entering a wait was of a file that did not load or meant what was running |
| ReloadRuns.ReloadConverges | cmd/reload.go:97-142 | the same from the first load on; in particular over every run in which no edit slips into an entry |
| ReloadRuns.MaskedUntilTheNextEdit | cmd/reload.go:97-104 | an edit in the window is not picked up by any number of polls |
| ReloadRuns.AnEditInTheWindowIsMissed | cmd/cmd.go:101-117 | a concrete such run |
| ReloadRuns.ANoticedEditTakesEffect | cmd/cmd.go:138-142 | a noticed edit that loads as something else runs within one more generation |
| ReloadWait.AwaitConfigChange | cmd/reload.go:97-142 | over any script of turns: the answer is shutdown, restart or reload exactly as the first turn that does not leave the wait waiting is a shutdown, the end of the generation or a poll that loads something else, and then it is what was loaded; every broken file seen until then is reported and none twice in succession |
| ReloadWait.TheWaitIsARun | cmd/reload.go:97-142 | that fold is the step machine's: a script of turns ends as the run in which the file, the signals and the socket do what the turns saw |
| ReloadWait.EngineControl.SetGeneration | cmd/enginesocket.go:81-86 | the register names the new generation, as the machine's does |
| ReloadWait.EngineControl.RestartTransport | cmd/enginesocket.go:69-78 | in every lawful state: refused exactly before the first generation, else that generation and no other is cancelled |
| ReloadWait.RefusedExactlyBeforeTheFirst | cmd/enginesocket.go:69-91 | at every reachable state the register is empty exactly before the first generation |
| EditTransaction.Tunnel.ApplySpec | internal/manage/edit.go:582-618 | for every combination of failing steps: accepted exactly when the file was there and readable and write, unit, reload, start and restart went well and the service came up; a failed restart or a service that stays down leaves the history and, unless the revert fails, the file as they were |
| EditTransaction.Tunnel.ApplyRawConfig | internal/manage/edit.go:626-654 | the same for a text written verbatim, which needs no unit |
| EditTransaction.Tunnel.RecordConfigChange | internal/manage/confhist.go:90-112 | the replaced text heads the newest ten, each earlier one moved down a place; an empty one is not filed, and a torn write leaves no readable history |
| EditTransaction.Before | internal/manage/confhist.go:131-140 | the first entry of exactly that moment, or none when there is none |
| EditTransaction.Tunnel.RestoreConfigFrom | internal/manage/confhist.go:131-140 | a kept moment's text is applied verbatim; an unkept one changes nothing |
| EditTransaction.Tunnel.ConfigChangeTimes | internal/manage/confhist.go:116-123 | the history's moments in seconds, oldest first |
| EditHistory.AttemptIsATransaction | internal/manage/edit.go:582-665 | accepted exactly when every step went well and the service came up: the text is in place, the service runs and the replaced text heads the history; refused: the history is as it was, and so is the file unless a revert write failed, and a service restarted on the new text is brought back to running or to stopped, whichever it was, when that can be done |
| EditHistory.TheFileIsTheLastAccepted | internal/manage/edit.go:582-665 | over any edits and restores with any faults, while reverts land the file is the configuration last accepted |
| EditHistory.TheHistoryIsTheNewestTen | internal/manage/confhist.go:71-112 | under a strictly increasing clock the history is the newest ten superseded configurations, newest first |
| EditHistory.OnlyOneOrder | internal/manage/confhist.go:80-81 | with no two moments equal any sort gives the same history |
| EditHistory.SortingSorts | internal/manage/confhist.go:80-81 | the history as read is newest first and holds every stored entry as often, in whatever order it was stored |
| EditHistory.RestorePutsBack | internal/manage/confhist.go:131-140 | restoring a kept moment puts the text replaced then back and files the one displaced |
| EditHistory.UndoOfUndo | internal/manage/confhist.go:126-140 | undoing the undo returns to the start exactly when the start was text JSON carries whole |
| EditHistory.EmptyFilesAreNotKept | internal/manage/confhist.go:91-93 | replacing an empty file files nothing |
| PathStats.ProbePath | internal/manage/benchmark.go:62-109 | the loops compute counts, extremes, mean and mean deviation of the completed dials |
| PathStats.StatisticsHold | internal/manage/benchmark.go:90-107 | for any dials Min ≤ Avg ≤ Max, the extremes are real samples, and jitter is at most half the range rounded up |
| PathStats.AveragesAreExact | internal/manage/benchmark.go:93-107 | average and jitter are the truncated means of the samples and of their distances from that average |
| PathStats.CompletedAreTheDials | internal/manage/benchmark.go:75-86 | the samples are the completed dials, each as often |
| PathStats.JitterBound | internal/manage/benchmark.go:95-107 | the bound itself, with both truncating divisions |
| PathStats.RecommendKeepAlive | internal/manage/benchmark.go:300-331 | the two timers for a measured path, and the fixed pair for one that could not be measured; the next row says what they guarantee |
| PathStats.TimersExactly | internal/manage/benchmark.go:300-331 | the timers by seconds of the worst round trip: 10 to 60 for the heartbeat, twice that for keepalive, and 75 and 40 for a path not measured |
| PathStats.TimersFollowThePath | internal/manage/benchmark.go:288-331 | within the probe's timeout the heartbeat is 10 to 17 s, exceeds the worst round trip plus jitter (twice it under loss), keepalive is twice it and the cap is never reached |
| PathStats.TheCapFallsShort | internal/manage/benchmark.go:319-324 | the heartbeat exceeds the worst exactly while the worst is under a minute |
| PathMTU.ProbePathMTU | internal/manage/diagnose_path.go:132-151 | for any pings at most eleven, and only a size that answered; on a steady path exactly the largest, 92 when none of 512 and up pass, 0 when 64 fails |
| PathMTU.KernelAdviceIsSettable | internal/manage/diagnose_path.go:232-250 | a clamp printed on the sockets' evidence is one SetMSS takes exactly for a path of 1512 or less, and never for one under 576 |
| PathMTU.ChecksMeanWhatTheySay | internal/manage/diagnose_path.go:226-250 | which of the five verdicts is given, and with what clamp, for any path and segment size |
| PathMTU.ProbeAdviceIsSettable | internal/manage/diagnose_path.go:226-231 | a clamp printed on the probe's evidence is one SetMSS takes exactly for a path of 576 or more |
| PathMTU.SmallPathsGetAdviceNobodyTakes | internal/manage/diagnose_path.go:226-231 | a probe that reached 92 bytes prints a clamp of 40, which SetMSS refuses |
| PathMTU.DatagramAdviceIsRefused | internal/manage/diagnose_path.go:398-410 | the clamp named for a datagram tunnel is refused by SetMSS on every such tunnel |
| PathMTU.SettableIsWhatSetMSSTakes | internal/manage/edit.go:506-521 | the range is the one the edit itself enforces |
| Desired.Desired.Record | internal/control/desired.go:165-177 | the intent is held under its node and name, written or not; nameless ones are refused |
| Desired.Desired.SetRunning | internal/control/desired.go:182-196 | an expected tunnel's flag changes; an unexpected one is not invented |
| Desired.Desired.Forget | internal/control/desired.go:199-210 | the intent goes, and the node with its last one |
| Desired.Desired.ForgetNode | internal/control/desired.go:213-218 | everything of a node goes |
| Desired.Desired.Reconcile | internal/control/desired.go:251-318 | walking the maps in any order reports exactly the differences there are, each once, in order |
| Desired.ReportsAgree | internal/control/desired.go:272-310 | two walks of the same maps report the same multiset |
| Desired.EmptyExactlyWhenMatching | internal/control/desired.go:272-310 | the report is empty exactly when names, running flags, and known ports and roles agree |
| Desired.TiesAreTheTwoChanges | internal/control/desired.go:284-293 | entries that sort alike are the port and the role change of one tunnel |
| Desired.KindsMeanWhatTheySay | internal/control/desired.go:277-311 | missing, unexpected, stopped and running are each reported exactly when they are so |
| Desired.RanksFollowTheWords | internal/control/desired.go:313-318 | differences of one tunnel are sorted by the words for their kinds |
| Desired.HaveByPlace | internal/control/desired.go:259-262 | of several reports of one name the last counts |
| Desired.ChangesMeanWhatTheySay | internal/control/desired.go:284-293 | a port or role is reported as changed exactly when both sides know it and disagree, with the two values |
| Desired.NothingIsReportedTwice | internal/control/desired.go:272-310 | no difference is reported twice |
| Desired.MirroredRunsStayQuiet | internal/control/desired.go:165-218 | after any run in which the node does what is recorded, from agreement on, every report of it is empty |
| Desired.NodesAreApart | internal/control/desired.go:165-218 | whatever is recorded of one node, a report of another finds what it found before |
| Allocator.FreeL3Subnet | internal/manage/directsetup.go:308-330 | the two addresses of the first block no tunnel's addresses are in, in the side's order |
| Allocator.FreeL3Iface | internal/manage/directsetup.go:293-302 | the first interface name no tunnel has |
| Allocator.AFreeNameIsFound | internal/manage/directsetup.go:308-330 | while fewer than 256 names are in use the one returned is not among them |
| Allocator.TheFirstBlock | internal/manage/directsetup.go:308-330 | the addresses are those of the first block free, the dialling side's the lower; of block 0 when none is |
| Allocator.TheFirstIface | internal/manage/directsetup.go:293-302 | the interface is the first free, bp0 when none is |
| Allocator.BlockOfAnAddress | internal/manage/directsetup.go:334-340 | an address, with or without a prefix length, belongs to what stands before its last dot |
| Allocator.SubnetIsInItsBlock | internal/manage/directsetup.go:334-340 | both addresses handed out reduce to the block they came from |
| Allocator.AllocationIsDisjoint | internal/manage/directsetup.go:308-330 | a tunnel on the new block claims it, no other, and one more than before |
| Allocator.SuccessiveAllocationsNeverCollide | internal/manage/directsetup.go:308-330 | any number of allocations up to 256 blocks in use, of either end each, claim that many different blocks |
| Allocator.InterfaceIsFree | internal/manage/directsetup.go:293-302 | the interface name is new while fewer than 256 are taken |
| Allocator.AFullMachineCollides | internal/manage/directsetup.go:326-330 | with every block taken the answer is a block in use |
| Allocator.TheTwoSidesAreSwapped | internal/manage/directsetup.go:320-330 | two machines in equal states are given the two ends of one tunnel |

## Left out

- Toml.QuotedReadsBack: text is a sequence of Unicode characters; bytes that are not valid UTF-8, which `%q` writes as `\x..`, are not modelled.
- ReverseRoundTrip.LoadUndoesRender: of the keys a configuration can hold, those no printer writes (pprof, skip_optz, so_pin_tcp, sniffer_log) are not decoded, so a hand-written one of the wrong type is not seen.
- ReverseEdit.EditKeepsTheRest: covers the edits of the segment clamp, the caps, the PROXY header, UDP forwarding and load balancing; changes of transport, preset, ports, addresses, flags and certificates bring in tables and files that are not part of this model.
- L3RoundTrip.LoadUndoesRender: the explanatory comments in the file are prose, of which only the place and the absence of controls are modelled; a forged-source pool that is empty but not nil would also print its comment.
- L3Edit.EditReadsBack: what the spoof drawer and the port field make of their text is a parameter, as are the preset tables and the profile names that mean tcp.
- Pairing.PairAgrees: the pairing of reverse tunnels is not modelled; the link's compression, encoding and JSON are taken as lossless, and the prompt for another name as a function of the name.
- Pairing.PairForges: of the carrier's drawer the fields a mirrored form fills; what Go takes for an IP address is a parameter.
- StallRuns.EveryRunClimbsTheLadder: one tunnel at a time; a monotonic clock beside the wall clock, a failed save, and a crash between a decision and the save are not modelled. Clock readings are at least one second past 1970.
- StallRuns.RestartBringsForwardUnderASecond: compares one decision; over a whole run the bound is the slack in EveryRunClimbsTheLadder, since after a rung brought forward the two runs' clocks differ.
- JobRegistry.Jobs.Latest: the method's two looks are at one registry; what may happen between them is in JobRuns.LatestLooksTwice.
- ReverseFields.AFieldGovernsOnlyItsKeys: the name is only in a comment of the file, so it governs no key though it changes the text.
- JobRegistry.Jobs.Start: a live entry holds its job by value and its cancel function as a mark in a set; elapsed times and typed results are left out.
- ReloadLoop.EveryRunIsLawful: parsing and the defaults' checks are one unknown function of the file's content; creating a context and naming it in the register is one step.
- The table of defaults and the checks beside it (cmd/defaults.go): per-field rules that would add easy members; only their outcome enters the reload loop.
- ReloadWait.EngineControl.RestartTransport: reading the register and calling what it held is one step here and two in the step machine.
- EditTransaction.Tunnel.ApplySpec: whether a service runs after a start or a stop that failed is one unknown outcome; two edits of one tunnel at once are not modelled.
- PathStats.ProbePath: the deviation is summed exactly where the source sums floating-point numbers, which are exact below 2^53 ns in all; the share of lost probes is an exact fraction.
- PathStats.TimersFollowThePath: a dial is taken to last no longer than its timeout.
- PathMTU.ProbePathMTU: the socket table's own figure, when there is one, is taken as given.
- Desired.Desired.Reconcile: of a difference's sentence only the two values it names; the file's encoding is left out.
- Waiting for ports to come free, the transports, the kernel tuning, metrics and the metrics-driven choice of which counters to read: foreign calls.
- Terminal menus, wizards, systemd, journal, certificates, Telegram relay: user interface and plumbing.
- The `[direct]` file of the older direct tunnels: a second renderer of the same shape as `[l3]`'s.
- Migration of files after an update, which files history before its write succeeds: another protocol than the edit's.
