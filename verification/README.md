# RAVE: verified models

Dafny 4.11 models of the parts of RAVE whose correctness depends on order: the management-Wi-Fi
daemon, the V5 latest-frame scheduler, detection selection and scoring, and the crash-safe disk
procedures. `dafny verify dfyconfig.toml` checks everything.

## The daemon: controller

`Interleaving` is `setup-ui/rave_networkd/controller.py` as two threads, the IPC thread and the worker,
whose atomic steps interleave freely: each block under the state lock is one step (`Controller`), a backend
call is a step that answers anything its contract allows, or raises, and the one-slot queue and the
operation lock are part of the state. `DaemonSafety` proves what every run of any length keeps.

`Requests` says which requests are accepted in which mode and what each does to the fields, and that from every
state at rest, in error and after the race too, some requests and answers lead to a station connection.

`Daemon` is the controller as the program runs it: the class `NetworkController` over the class
`NetworkManagerBackend`, with requests arriving between any two steps of the worker and between its turns. Every
step is at the same time a step of the state machine, so each method's run is one of those runs. Its main
contracts are those of `ProcessNext`, `Reconcile` and `WorkLoop`: every turn takes the queued item, if there is one,
and nothing else; whatever arrives, fails or is raised, the daemon comes to rest in a settled mode or with work
queued, the radio is what the mode says, STATION_CONNECTED means that the only saved profile is the one that is up,
and no credentials are lost. Undisturbed, each item comes to its exact outcome, with the reason of a refusal as the
last error. `StartAndBoot` composes all layers: if nothing fails or interferes, the daemon comes to rest
in STATION_CONNECTED exactly if boot can pick a profile from the store, with that profile alone under the saved
name, and otherwise in PROVISIONING_AP.

One accepted request breaks the accounting of work: provisioning, while the mode is STATION_CONNECTING
(`setup-ui/rave_network_ipc/state.py:24`). If the queue is empty because the worker already holds the boot
item, the request leaves an item that meets a mode without AP_READY, and the run ends in ERROR although
every backend call succeeded. `CleanUnlessRace` shows that this step, and no other, breaks the accounting,
`DisagreementIffRace` that it alone can make radio and mode disagree with the lock free,
`RaceEndsInError` where it leads, and `RaceWitness` is a complete run. The daemon is never stranded, in
this run either.

## The daemon: profile store

`Backend` issues the commands of `setup-ui/rave_networkd/backend.py` against a store of profiles. A command
takes effect or reports failure without effect; a *fault* is a failure although the target is there, or
a listing whose line for the wanted profile has a UUID that does not parse.
The journal keeps the store after every command, and a kill takes the store back to a journal entry, so a
statement about all journal entries is a statement about a kill between any two commands. The device remembers
which profile the last successful activation brought up; raising the access point, a failed activation and the
deletion of that profile end this. A connection is reported only for the candidate that is up, and no profile is
renamed before it is (`RenamesFollowConnection`). An
exception that leaves `connect_station` between two commands has the effect of such a kill.

`docs/MANAGEMENT_NETWORK.md:36-42` describes a promotion that renames the candidate first. The code renames
the old profile first (`setup-ui/rave_networkd/backend.py:301-310`), and the model follows the code.

Two limits are stated exactly rather than excluded. Boot refuses a store with two profiles named
`RAVE-Management`. A connection leaves such a fork exactly if it renamed the candidate, then failed to demote
it, then renamed the old profile back, and has not deleted the candidate since. Boot also refuses an old
profile that has become a backup beside an older backup. It finds a profile after a connection, finished
or killed anywhere, exactly if neither is the case (`BootAfter`). `ForkExample` has a run of commands for each:
three faults for the fork (`ForkOccurs`), and for the second, from every store with a backup, a kill during the
promotion without any fault (`BackupsCollide`).

## The scheduler

`Pipeline` is the three threads of `scripts/benchmarks/rave_v5_pi_benchmark.py` over their two slots, one
method per atomic step, with the statistics as fields. `Stepped` determines what each step makes of the whole
pipeline, `StepKeepsGood` shows what every step keeps, and `Run` takes the steps in any order. `Scheduler`
is the rate limiter over its history of accepted frames. The quota of one frame per period holds when
counted from the first examined frame. Counted from an accepted frame it holds for every continuation exactly if
the next due time is at least a whole period after that frame's arrival (`QuotaFromIff`); for the first accepted
frame this means that it arrived when the first examined one did (`QuotaFromFirstIff`).

## Selection and scoring

`TopSelection` proves the two-stage selection equal to one sort of all pairs, and `Anchors` that the flat
numbering it breaks ties by is a bijection in scan order and that each grid cuts the image into its cells' squares.
`Boxes` says what the overlap measure measures: the box of exactly the common points, whatever the place and the
axes. `Matching` shows that the greedy pairs are exactly those by preference (`GreedyIff`) and within half of the best,
which is tight. `Sweep` and `Totals` are about thresholds. The sort of the predictions is any function that
arranges its indices, given the scores alone. A higher threshold processes a prefix exactly if the ties that it keeps stand
in the same order at both thresholds; then the counts, their totals over images and the recall are
monotone. A stable sort always qualifies, and so does any sort without ties. `TieExample` gives a
sort that does not, for an image whose scores differ at the two thresholds.

## Disk procedures and messages

`ModelStore` and `RootGrowth` are sequences of effects, each of which may fail or be the last before a
kill; without a failure each succeeds exactly under the conditions that the source checks. `Framing` is the server's
receive loop over any way of cutting a byte stream. `Client` is the client's request building, `Json` and `Encoding`
are the text between the two, and `Reader` is what the server makes of a line; `RequestIsRead` puts them together.
`Nmcli` is what nmcli prints about a network, read back by `Scan`. A stream longer than the limit whose newline has an index from 1025 to 2047 may be accepted
or rejected depending on the cuts; `ChunksMatterIffAmbiguous` shows that no other stream can.

## Model

| member | source | states |
|---|---|---|
| DaemonSafety.NeverStranded | setup-ui/rave_networkd/controller.py:108-237 | in every interleaving, race included, an idle worker with an empty queue leaves neither STATION_CONNECTING nor TRANSITION |
| DaemonSafety.StepKeepsInv | setup-ui/rave_networkd/controller.py:108-237 | every step of either thread keeps the invariant: unsettled modes have work or a pending recovery, lock ownership matches the program points, the radio fits what is about to be recorded |
| DaemonSafety.ExactlyOnePieceOfWork | setup-ui/rave_networkd/controller.py:137-237 | in a run without the race there is exactly one unresolved piece of work iff the mode is unsettled, no event is outside the table, ERROR only follows a failed access point, and radio and mode agree when the worker does not hold the lock |
| DaemonSafety.CleanUnlessRace | setup-ui/rave_network_ipc/state.py:19-43 | a step breaks that accounting iff it is a provisioning request accepted during STATION_CONNECTING |
| DaemonSafety.RaceEndsInError | setup-ui/rave_networkd/controller.py:97-126 | after the race, unless a later request is accepted, the daemon comes to rest only in ERROR through an event outside the table |
| DaemonSafety.RaceWitness | setup-ui/rave_network_ipc/state.py:24 | a complete run of the race: every backend call succeeds, mode and DHCP disagree with the lock free, and the mode ends in ERROR |
| DaemonSafety.RadioAgrees | setup-ui/rave_networkd/controller.py:137-208 | whenever the worker does not hold the operation lock, PROVISIONING_AP means AP up and DHCP started and STATION_CONNECTED means DHCP stopped and the saved profile up, except after the race while an exception awaits its recovery |
| DaemonSafety.DisagreementIffRace | setup-ui/rave_networkd/controller.py:97-181 | an accepted request can be followed, without a further accepted one, by a state with the lock free where radio and mode disagree iff the request is the race |
| DaemonSafety.BackendCallsExclusive | setup-ui/rave_networkd/controller.py:73-81 | a scan never overlaps another backend call, although the recovery calls the backend without the operation lock |
| DaemonSafety.WorkerReturns | setup-ui/rave_networkd/controller.py:108-135 | whatever the IPC thread does, at most ten worker steps that do not wait for the lock bring the worker back to idle |
| DaemonSafety.AcceptedIsTakenOrQueued | setup-ui/rave_networkd/controller.py:108-127 | in every run the accepted items are exactly the taken ones, in order, and then the queued one: no request is lost or served twice |
| Requests.ConnectIsAcceptedIff | setup-ui/rave_network_ipc/state.py:19-43 | a connection is accepted iff the queue is empty and the mode is STATION_CONNECTED or PROVISIONING_AP; then the mode is TRANSITION, the error cleared and the item queued, and otherwise nothing changes |
| Requests.ProvisioningIsAcceptedIff | setup-ui/rave_networkd/controller.py:97-106 | accepted iff the queue is empty and the mode is STATION_CONNECTING, STATION_CONNECTED or ERROR; nothing happens iff the mode is PROVISIONING_AP already |
| Requests.BootIsAcceptedIff | setup-ui/rave_networkd/controller.py:83-86 | accepted iff the queue is empty and the mode is UNCONFIGURED or ERROR; then STATION_CONNECTING with the boot item queued |
| Requests.StationStaysInReach | setup-ui/rave_networkd/controller.py:83-155 | from every state at rest that a run reaches, race and errors included, some requests and answers lead to STATION_CONNECTED |
| Daemon.StartAndBoot | setup-ui/rave_networkd/controller.py:83-155 | on any store and with anything arriving or failing the boot ends at rest and loses no credentials; if nothing fails or interferes it ends in STATION_CONNECTED iff boot can pick a profile, which is then up and alone under the saved name with its SSID recorded, and otherwise in PROVISIONING_AP |
| Daemon.NetworkController.ProcessNext | setup-ui/rave_networkd/controller.py:108-127 | takes the queued item and no other; whatever arrives between its steps and whatever the backend does, the daemon ends settled or with work queued, the radio is what the mode says, STATION_CONNECTED means the only saved profile is up, and credentials survive; undisturbed, a boot, a connection and a provisioning request come to their exact outcomes with the reason of a refusal as the last error |
| Daemon.NetworkController.WorkLoop | setup-ui/rave_networkd/server.py:112-118 | every turn, with requests arriving during and between them, takes the item it finds and no other; it ends at rest with credentials kept; undisturbed it ends with an empty queue and the item's exact outcome, or without an item with the exact result of the idle check |
| Daemon.NetworkController.TurnOnce | setup-ui/rave_networkd/server.py:112-118 | the same for one turn, in terms of the run's requests and taken items |
| Daemon.NetworkController.RequestConnect | setup-ui/rave_networkd/controller.py:88-95 | verdict and fields after a connection request, in terms of the mode and the queue before it |
| Daemon.NetworkController.RequestProvisioning | setup-ui/rave_networkd/controller.py:97-106 | verdict and fields after a provisioning request |
| Daemon.NetworkController.RequestBoot | setup-ui/rave_networkd/controller.py:83-86 | verdict and fields after a boot request |
| Daemon.NetworkController.Reconcile | setup-ui/rave_networkd/controller.py:129-135 | ends at rest whatever arrives or fails; undisturbed, a present station updates the SSID, a lost one or a lost access point ends in PROVISIONING_AP with the reason |
| Daemon.NetworkController.ProcessBoot | setup-ui/rave_networkd/controller.py:137-147 | undisturbed, connected iff the store is recoverable, with boot's pick alone under the saved name and its SSID recorded; credentials survive in any case |
| Daemon.NetworkController.ProcessConnect | setup-ui/rave_networkd/controller.py:149-155 | undisturbed, connected iff the saved name is not ambiguous, the scan lists the network and the password suits it; then the requested SSID is recorded and its new profile the only saved one, otherwise provisioning with every profile unharmed and the last error saying which condition failed |
| Daemon.NetworkController.RestoreProvisioning | setup-ui/rave_networkd/controller.py:164-181 | undisturbed from TRANSITION it ends in PROVISIONING_AP with the prior error, or in ERROR with the command that failed as the last error, the latter only after a failure; an item alone can raise out of it |
| Daemon.NetworkController.RecoverUnexpectedFailure | setup-ui/rave_networkd/controller.py:210-219 | always ends with the worker idle and the store untouched; undisturbed, an unsettled mode ends in PROVISIONING_AP and any other in ERROR, with the failure as the last error |
| Daemon.NetworkController.EnqueueTransition | setup-ui/rave_networkd/controller.py:228-237 | event outside the table, then full queue, then acceptance; a refused request leaves every field as it was |
| Backend.NetworkManagerBackend.Operate | setup-ui/rave_networkd/backend.py:107-158 | no loss: once a saved or backed-up profile exists, one exists after every command of every later sequence of connections and activations, any commands failing and each call killed anywhere; every call is made on the store the one before left, and one that is not killed brings the result it promises |
| Backend.NetworkManagerBackend.ConnectStation | setup-ui/rave_networkd/backend.py:129-158 | the store after every command is guarded; success means exactly the new store with the candidate up and DHCP stopped; after at most one fault a failure means the old store and no candidate; without a fault it succeeds iff the request suits and the saved name is not ambiguous, and a refusal says why |
| Backend.NetworkManagerBackend.ActivateOrDiscard | setup-ui/rave_networkd/backend.py:152-154 | success means that the candidate is up and nothing was renamed yet; a failure takes a fault, and after only one the old store is restored |
| ProfileSafety.RenamesFollowConnection | setup-ui/rave_networkd/backend.py:152-158 | in the journal of an attempt a successful activation of the candidate precedes every renaming of a profile |
| Backend.NetworkManagerBackend.BootAfter | setup-ui/rave_networkd/backend.py:100-127 | on the store an attempt has left, finished or killed anywhere: it forked iff the commands so far promoted the candidate, failed to demote it, reinstated the old profile and did not delete the candidate since; without a fault boot finds and picks a profile iff the store neither forked nor collided with an older backup; the pick is the old or the new profile, alone under the saved name |
| Backend.NetworkManagerBackend.ConnectThenKill | setup-ui/rave_networkd/backend.py:129-158 | a connection killed after any number of its commands leaves a state that `BootAfter` is about |
| ForkExample.BackupsCollide | setup-ui/rave_networkd/backend.py:301-303 | from every store with one saved profile and a backup, the commands up to the renaming of the old profile all succeed and leave boot no profile |
| ProfileSafety.RecoverableIff | setup-ui/rave_networkd/backend.py:318-391 | which guarded stores boot can use: exactly those that neither forked nor collided with an older backup |
| ProfileSafety.TrailMeans | setup-ui/rave_networkd/backend.py:296-316 | what the trail of an attempt says, in terms of positions in the journal: connected, promoted, stuck after a failed demotion, forked |
| ForkExample.ForkOccurs | setup-ui/rave_networkd/backend.py:296-316 | from one saved profile and no backup, a run of commands with three faults that forks the store and leaves boot no profile |
| ProfileSafety.GuardedHolds | setup-ui/rave_networkd/backend.py:296-316 | a guarded store still holds credentials under a name that boot looks for |
| ProfileSafety.KilledIsSteady | setup-ui/rave_networkd/backend.py:129-158 | every prefix of an attempt's commands leaves a guarded store, forked iff the commands so far say so |
| Backend.NetworkManagerBackend.PromotePendingProfile | setup-ui/rave_networkd/backend.py:296-310 | success leaves exactly the promoted store; failure takes a fault, never forks, and leaves a state the rollback can start from |
| Backend.NetworkManagerBackend.RollbackPromotion | setup-ui/rave_networkd/backend.py:312-316 | without a further fault every profile that is not pending is as before the attempt and the candidate is gone |
| Backend.NetworkManagerBackend.StageCandidate | setup-ui/rave_networkd/backend.py:144-151 | stale candidates are cleared and the new one found by name, or after one fault the store is restored |
| Backend.NetworkManagerBackend.CreatePendingProfile | setup-ui/rave_networkd/backend.py:231-268 | a failed creation is exactly one fault; a created profile is pending, not auto-connecting, with the chosen SSID |
| Backend.NetworkManagerBackend.ProfileUuid | setup-ui/rave_networkd/backend.py:366-391 | a lookup is refused iff the listing failed, a matching line's UUID does not parse or two profiles share the name, and otherwise answers the sole profile of that name or that there is none |
| Backend.NetworkManagerBackend.HasSavedStation | setup-ui/rave_networkd/backend.py:100-105 | without a fault, true iff boot can use the store |
| Backend.NetworkManagerBackend.SavedProfileForActivation | setup-ui/rave_networkd/backend.py:318-330 | picks the saved profile or, without one, the backup, and makes it the only saved one; without a fault iff the store is usable |
| Backend.NetworkManagerBackend.ActivateSavedStation | setup-ui/rave_networkd/backend.py:107-127 | success leaves DHCP stopped and boot's pick up and alone under the saved name; without a fault success iff the store is usable; a refusal names the command that failed |
| Backend.NetworkManagerBackend.ActivateProvisioning | setup-ui/rave_networkd/backend.py:160-181 | success means the last AP-up and DHCP commands succeeded, failure takes a fault and names the command that failed, and no profile changes |
| Backend.NetworkManagerBackend.ChooseNetwork | setup-ui/rave_networkd/backend.py:132-138 | the chosen entry is the strongest of its SSID and suits the password; without a fault the refusal is the request's own, with its reason |
| Backend.ReportedIsOwn | setup-ui/rave_networkd/backend.py:393-408 | a profile for an SSID without blanks at its ends reports that SSID |
| Scan.StrongestPerSsid | setup-ui/rave_networkd/backend.py:204-215 | at most 64 entries with unique SSIDs, by descending signal and then by lower-cased SSID, each the earliest strongest line of its SSID; every parsed line has an entry at least as strong, or 64 entries are all at least as strong |
| Scan.KeepStrongest | setup-ui/rave_networkd/backend.py:204-211 | the dictionary holds exactly the champions of the lines read so far |
| Scan.StrongestRepresents | setup-ui/rave_networkd/backend.py:212-215 | cutting the sorted list at 64 leaves every line represented |
| Scan.ParseAccessPoint | setup-ui/rave_networkd/backend.py:476-495 | an accepted line has a valid SSID and a signal of 0 to 100, and key management iff WPA personal |
| Nmcli.PrintedIsRead | setup-ui/rave_networkd/backend.py:476-495 | for every valid SSID, signal of 0 to 100, list of security words and mark, the line that nmcli prints is read as that SSID, signal, security, key management and mark |
| Nmcli.SecurityIsRead | setup-ui/rave_networkd/backend.py:519-531 | the security of a list of words: none is open, 802.1X enterprise, then WEP unsupported, then any WPA personal, SAE iff WPA3 without WPA2 |
| Nmcli.DecimalIsRead | setup-ui/rave_networkd/backend.py:482-486 | reading the decimal digits of any natural number gives it back |
| Scan.LexLeIff | setup-ui/rave_networkd/backend.py:212-215 | the order of equal signals is the dictionary order of the SSIDs |
| Fields.SplitUndoesJoin | setup-ui/rave_networkd/backend.py:498-516 | splitting undoes escaping and joining for every non-empty list of strings |
| Fields.FieldCount | setup-ui/rave_networkd/backend.py:498-516 | one field more than unescaped colons, for every line |
| Fields.SplitEscapedFields | setup-ui/rave_networkd/backend.py:498-516 | the loop computes the splitting those two are about |
| Framing.ChunkIndependent | setup-ui/rave_networkd/server.py:218-240 | an unambiguous stream gives the result its bytes call for, however it is cut, unless the deadline passes |
| Framing.ChunksMatterIffAmbiguous | setup-ui/rave_networkd/server.py:218-240 | the result can depend on the cuts iff the stream exceeds the limit and its newline's index is from 1025 to 2047 |
| Framing.ReceiveRequest | setup-ui/rave_networkd/server.py:218-240 | the loop computes the result those two are about and never holds more than 2049 bytes |
| Framing.FramedMeans | setup-ui/rave_networkd/server.py:218-240 | the bytes call for a refusal iff more than 2048 come before any newline, and for the first line otherwise, unless it is empty |
| Reader.RequestIsRead | setup-ui/rave_networkd/server.py:54-79 | for every request the client can build, however the socket cuts it, the server reads that very request: action, SSID and password |
| Json.ReadUndoesPrint | setup-ui/rave_network_ipc/client.py:64-65 | reading a printed object of strings and nulls gives its fields back, for all names and texts, every escape included |
| Encoding.DecodeEncode | setup-ui/rave_network_ipc/client.py:65 | decoding UTF-8 undoes encoding for every text |
| Client.ClientRequestArrives | setup-ui/rave_network_ipc/client.py:57-72 | every request the client can build is received whole, however the socket cuts it |
| Client.SerializedFits | setup-ui/rave_network_ipc/client.py:44-65 | every buildable request is at most 1000 bytes of JSON, escapes and UTF-8 included |
| Encoding.EncodeOneLine | setup-ui/rave_network_ipc/client.py:65-71 | encoding a text without newline produces no newline byte |
| Pipeline.Benchmark.Run | scripts/benchmarks/rave_v5_pi_benchmark.py:111-351 | every action of the schedule takes its step, and after any interleaving frames are conserved at each slot, inferred indices strictly increase, and every inferred frame passed the age check |
| Pipeline.StepKeepsGood | scripts/benchmarks/rave_v5_pi_benchmark.py:111-351 | conservation at each slot, the order of the frames in flight and the limiter's law survive every step of every thread |
| Pipeline.StepIsDetermined | scripts/benchmarks/rave_v5_pi_benchmark.py:111-351 | the pipeline before a step and the step determine the whole pipeline after it, the due time included |
| Pipeline.Benchmark.CaptureStep | scripts/benchmarks/rave_v5_pi_benchmark.py:114-138 | each step of the capture thread moves its frame to the next place, counts an unread frame as overwritten and changes nothing else |
| Pipeline.Benchmark.DecodeStep | scripts/benchmarks/rave_v5_pi_benchmark.py:192-264 | each step of the decode thread, from taking the frame to counting the prepared one, with every counter it changes and no other change |
| Pipeline.Benchmark.InferStep | scripts/benchmarks/rave_v5_pi_benchmark.py:330-351 | each step of the inference loop; the results grow by the frame taken from the slot |
| Pipeline.Benchmark.ExamineFrame | scripts/benchmarks/rave_v5_pi_benchmark.py:211-226 | exactly one of rate limit, staleness and acceptance, with the counter, the due time and the history each changes |
| Pipeline.ExaminationKeeps | scripts/benchmarks/rave_v5_pi_benchmark.py:208-226 | each of the three outcomes keeps every invariant, and an acceptance keeps the whole history lawful |
| Pipeline.PeriodLaterIsDue | scripts/benchmarks/rave_v5_pi_benchmark.py:211-224 | a frame arriving a whole period after the last acceptance was checked is never rate-limited |
| Scheduler.Advance | scripts/benchmarks/rave_v5_pi_benchmark.py:222-224 | the catch-up ends a whole number of periods later, at least one, within a period of the clock either way, and beyond one period only as far as needed |
| Scheduler.DueIsUnique | scripts/benchmarks/rave_v5_pi_benchmark.py:222-224 | the lawful next due time after an acceptance is unique |
| Scheduler.Spacing | scripts/benchmarks/rave_v5_pi_benchmark.py:190-224 | the frame accepted j acceptances later arrived at least j - 2 periods later |
| Scheduler.Quota | scripts/benchmarks/rave_v5_pi_benchmark.py:190-224 | by any time at most one frame per period, plus one, counted from the first examined frame |
| Scheduler.QuotaFromIff | scripts/benchmarks/rave_v5_pi_benchmark.py:211-224 | the quota holds from an accepted frame, for all continuations and times, iff the next due time is at least a whole period after its arrival |
| Scheduler.QuotaFromPunctualIff | scripts/benchmarks/rave_v5_pi_benchmark.py:211-224 | with the age limit below the period: iff the frame arrived on its due time |
| Pipeline.QuotaFromFirstIff | scripts/benchmarks/rave_v5_pi_benchmark.py:208-224 | in every reachable state: from the first accepted frame iff it arrived when the first examined frame did |
| TopSelection.TwoStageTop300 | qualification/m2b2b/compare_decoder.py:43-56 | the two-stage loop returns the best 300 scores of all locations and classes, or all of them, each once, by descending score, location and class |
| TopSelection.TwoStageIsOneStage | qualification/m2b2b/compare_decoder.py:43-56 | two-stage equals one-stage selection for every score array and every cutoff, ties included |
| TopSelection.OneStageSelects | qualification/m2b2b/compare_decoder.py:43-56 | the one-stage selection in terms of the score array: which pairs, how many, in which order, and that every other pair stands behind them |
| TopSelection.EarlierLocationsPrecede | qualification/m2b2b/compare_decoder.py:46 | a pair at the q-th best location has at least q pairs before it |
| Sorting.SameTop | qualification/m2b2b/compare_decoder.py:51-52 | two sorted collections share their first k if the smaller holds the larger's first k |
| Anchors.FlatThenCell | qualification/m2b2b/compare_decoder.py:32-40 | every grid cell is recovered from its flat location, which is below 18900 |
| Anchors.CellThenFlat | qualification/m2b2b/compare_decoder.py:32-40 | every flat location is that of exactly the cell computed from it |
| Anchors.FlatOrder | qualification/m2b2b/compare_decoder.py:32-46 | the tie-breaking order of locations is finer scale, upper row, left column |
| Anchors.Decode | qualification/m2b2b/compare_decoder.py:34-40 | the concatenated boxes and scores hold every cell's scaled box and scores at its flat location |
| Anchors.BoxIffSides | qualification/m2b2b/compare_decoder.py:35-38 | on a cell every box has exactly one quadruple of distances, those from the centre of the cell's stride square |
| Anchors.BoxIsAroundAnchor | qualification/m2b2b/compare_decoder.py:35-38 | a box holds its anchor iff no distance is negative, and half a stride on every side is the cell's square |
| Anchors.SquaresTile | qualification/m2b2b/compare_decoder.py:34-38 | on every scale each point of the 960 by 960 image lies in the square of exactly one cell |
| Matching.MatchImage | qualification/m2b2b/threshold_sweep.py:51-69 | for any sort of the scores, TP is the size of the matching by preference in its order, TP + FP the number of predictions above the threshold, TP + FN the number of truths, and no one-to-one matching has more than 2 TP pairs |
| Matching.GreedyIff | qualification/m2b2b/threshold_sweep.py:56-66 | pairs are the greedy ones iff every prediction in turn has the best truth that the earlier ones left, the first of equal ones, or none of those overlaps it by one half |
| Matching.AboveTakesExactly | qualification/m2b2b/threshold_sweep.py:52-54 | the mask takes exactly the class's predictions at or over the threshold, each as often as it is there |
| Matching.AboveKeepsOrder | qualification/m2b2b/threshold_sweep.py:52-54 | and keeps their order |
| Matching.TruthBoxesTakesExactly | qualification/m2b2b/threshold_sweep.py:55 | the boxes of exactly the class's truths, each as often as it is there |
| Matching.OrderedIsArranged | qualification/m2b2b/threshold_sweep.py:53-58 | processing the predictions by the sorted indices goes through each once, by descending score |
| Matching.GreedyIsSound | qualification/m2b2b/threshold_sweep.py:56-66 | greedy pairs are one-to-one, overlap by at least one half, and are maximal, for every processing order |
| Matching.HalfOfAny | qualification/m2b2b/threshold_sweep.py:56-66 | a maximal matching is at least half as large as any other |
| Matching.HalfIsTight | qualification/m2b2b/threshold_sweep.py:58-66 | boxes for which greedy finds one pair and two are possible |
| Matching.Argmax | qualification/m2b2b/threshold_sweep.py:59-63 | the scan finds the best remaining truth, the first of equal ones |
| Matching.NothingLeft | qualification/m2b2b/threshold_sweep.py:60-61 | stopping when no truth is left changes nothing |
| Sweep.PrefixIffSameTies | qualification/m2b2b/threshold_sweep.py:52-58 | for any two arrangements, a higher threshold processes a prefix of the lower one's predictions iff the ties it keeps stand in the same order |
| Sweep.StableIsPrefix | qualification/m2b2b/threshold_sweep.py:52-58 | for a stable sort it always does, ties included |
| Sweep.AtStable | qualification/m2b2b/threshold_sweep.py:58 | a stable sort keeps tied predictions in the order they came in |
| Sweep.OrderedStably | qualification/m2b2b/threshold_sweep.py:53-58 | sorting indices stably by score is sorting the predictions stably |
| Sweep.HigherThresholdIsPrefix | qualification/m2b2b/threshold_sweep.py:52-58 | without ties every sort does |
| Sweep.SweepIsMonotone | qualification/m2b2b/threshold_sweep.py:51-69 | if ties keep their order, TP and FP never rise and FN never falls as the threshold rises |
| Totals.TotalsAreMonotone | qualification/m2b2b/threshold_sweep.py:72-78 | the same for the totals over any images, with TP + FN unchanged and the recall never rising |
| Totals.StableTotalsAreMonotone | qualification/m2b2b/threshold_sweep.py:72-78 | for a stable sort the totals are monotone for all images, ties or not |
| Totals.Summarize | qualification/m2b2b/threshold_sweep.py:72-76 | the totals are the sums of one tally for each image, and account for every prediction and every truth |
| Totals.TotalsAccount | qualification/m2b2b/threshold_sweep.py:72-76 | over all images every prediction over the threshold and every truth is counted exactly once |
| Totals.RecallIsShare | qualification/m2b2b/threshold_sweep.py:77-78 | the recall is the share of the truths found, between 0 and 1, and 0 without truths |
| TieExample.TiesBreakTheSweep | qualification/m2b2b/threshold_sweep.py:52-58 | a sort of scores, an image whose scores differ at two thresholds, and one true positive more at the higher |
| Boxes.IouInUnit | qualification/m2b2b/threshold_sweep.py:23-32 | every overlap lies in [0, 1], degenerate and inverted boxes included |
| Boxes.OverlapIsCommon | qualification/m2b2b/threshold_sweep.py:26-29 | the intersection is the area of the box whose points are exactly the common points of the two |
| Boxes.AreaAddsUp | qualification/m2b2b/threshold_sweep.py:30-31 | cutting a box at any column or row splits its area, and the unit square's is 1 |
| Boxes.IouZeroIff | qualification/m2b2b/threshold_sweep.py:23-32 | the overlap is 0 iff no point is interior to both boxes |
| Boxes.IouOneIff | qualification/m2b2b/threshold_sweep.py:23-32 | for boxes whose areas reach the floor of 1e-12 the overlap is 1 iff the boxes are equal |
| Boxes.IouIsQuotient | qualification/m2b2b/threshold_sweep.py:32 | from that floor on the overlap times the joint area is the common area |
| Boxes.IouIsPlaceless | qualification/m2b2b/threshold_sweep.py:23-32 | moving both boxes alike leaves the overlap as it is |
| Boxes.IouIsSymmetric | qualification/m2b2b/threshold_sweep.py:23-32 | and so does exchanging the boxes, or the axes |
| ModelStore.Administration.Operate | scripts/rave_model.py:96-148 | over any operations, each cut short after any call, a created version is absent or complete, an existing one never changes, and each pointer keeps its initial state or names a version that validates; every operation is made on the store the one before left, and one that is not cut short does what it promises |
| ModelStore.Administration.InstallModel | scripts/rave_model.py:96-120 | without failures, installed iff the copied bytes have the digest, or the present version validates; nothing else in the store changes |
| ModelStore.Administration.ReplacePointer | scripts/rave_model.py:123-130 | without failures, replaced iff the version is the baseline and validates and the name is not a directory; nothing else changes |
| ModelStore.Administration.ActivateModel | scripts/rave_model.py:133-136 | only `current` changes, to the validated version, and without failures exactly when it validates |
| ModelStore.Administration.QualifyModel | scripts/rave_model.py:139-142 | only `known-good` changes, to the validated version, and without failures exactly when it validates |
| ModelStore.Administration.RollbackModel | scripts/rave_model.py:145-148 | `current` becomes what `known-good` names, only if that still validates; without failures exactly then |
| ModelStore.RepointIsIntact | scripts/rave_model.py:123-130 | replacing a pointer by one rename keeps the store intact |
| ModelStore.PrivateIsIntact | scripts/rave_model.py:104-111 | calls on a working directory keep the store intact |
| RootGrowth.Expansion.ExpandRoot | scripts/rave_grow_rootfs.py:197-229 | after every effect the disk is untouched or its record, if any, describes verified geometry; success means that record, the same device, BOOT and ROOT start unchanged, disjoint partitions still disjoint, and at most 2 * 16 MiB + sector - 1 bytes unused behind the filesystem; unless a tool fails it succeeds iff both geometries and the size pass the checks |
| RootGrowth.TruthfulMeans | scripts/rave_grow_rootfs.py:169-180 | a surviving record's fields are the table's own: device, node, first and last sector of ROOT, the device's last whole sector, the bytes behind ROOT and the filesystem's size, within the allowances |
| RootGrowth.StretchingPasses | scripts/rave_grow_rootfs.py:118-136 | for every acceptable table, tools that stretch ROOT to the last whole sector and fill it satisfy every check |
| RootGrowth.AnalyzePartitionTable | scripts/rave_grow_rootfs.py:58-115 | a plan is made iff the table is an acceptable BOOT/ROOT layout, and it is that layout's plan |
| RootGrowth.PlanMeans | scripts/rave_grow_rootfs.py:91-115 | what each field of a plan is in the table and on the device |
| RootGrowth.NearlyAllIsUsed | scripts/rave_grow_rootfs.py:91-136 | the device bytes behind the filesystem are between 0 and 2 * 16 MiB + sector - 1 |
| RootGrowth.ExpansionKeepsLayout | scripts/rave_grow_rootfs.py:118-128 | BOOT and the start of ROOT are unchanged and disjoint partitions stay disjoint |

## Left out

- DaemonSafety.RadioAgrees: excepts the moment between an exception and its recovery block after the race, because there DHCP and mode can disagree; `DisagreementIffRace` says which requests can lead there.
- Nmcli.PrintedIsRead: the words of the security field are WEP, WPA1, WPA2, WPA3, OWE and 802.1X.
- Daemon.NetworkController.ProcessNext: requests arrive between the worker's steps; the backend call itself is one step, as in `Interleaving`.
- Pipeline.Benchmark.Run: the stop event and the frame event's wake-ups are not modelled; a thread may be scheduled at any time, so every order they allow is covered.
- Framing.ChunkIndependent: counts receive calls instead of reading a clock, and a slow client may always time out.
- Backend.NetworkManagerBackend.Execute: a command that takes effect and still reports failure is not modelled; the no-loss property does not cover it.
- Backend.NetworkManagerBackend.ConnectStation: which profile is up is what the last commands reported; a station that drops later is seen by the idle check only.
- Scheduler.Quota: counts from the first examined frame's arrival; from an accepted frame it holds exactly under the condition of `QuotaFromIff`.
- Sweep.SweepIsMonotone: requires that ties keep their order, because the claim is false without (`TiesBreakTheSweep`); which sort `argsort` uses is not modelled.
- ModelStore.Administration.RollbackModel: the pointer's text is compared with the version name as a string; a pointer that is a directory or a plain file is a failed `readlink`.
- Reader.RequestIsRead: `Json.ReadObject` reads objects of strings and nulls, which is what the client sends; other values, surrogate escapes and numbers are outside the model, and so are a line's other encodings. What `_serve_connection` answers is not modelled.
- The response formats and the client's response validators: single-pass checks of one message.
- Python text beyond ASCII: `casefold`, `upper`, `strip` and `int` are modelled on ASCII, and SSIDs with lone surrogates are not strings of the model. `splitlines` is not modelled.
- Stop handling, the one-second accept timeout and peer-credential checks of the server: no effect on the interleavings of accepted requests.
- `active_station_ssid` and `provisioning_ready`: reads whose answer the controller model takes as arbitrary.
- Exceptions outside OSError, RuntimeError and ValueError in the controller: the code does not recover from them.
- The snapshot that a request answers with: a copy of the fields.
- File modes, ownership, the advisory lock and durability of the model store; SHA-256 and the manifest check are arbitrary predicates of the bytes.
- The identity checks of block devices in root growth: arbitrary yes or no answers. `growpart` and `resize2fs` leave an arbitrary table and size.
- Floating-point rounding, `sigmoid`, label files, precision and percentile reports: scores and coordinates are exact reals.
- The image build, the web interface, the edge service and the benchmarks' camera and accelerator code: plumbing around foreign components.
