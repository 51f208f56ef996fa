# Kiosk concierge: verified model

A Dafny model of the hard parts of the guest kiosk: the versioned air-conditioner protocol between
Django and the ESP32 controller, the button layout save, the guest stay with its realtime sessions
and tool calls, the single-flight chat queue, the browser's realtime connection and its timers, the
speech pipeline from text to speaker, and four algorithmic pieces (DNS names, message paging,
streamed tool calls, wrapping timers).

`dafny verify dfyconfig.toml` checks the whole project.

## Components

| file | module | models |
|---|---|---|
| prelude.dfy | Prelude | Option and Result |
| ac_model.dfy | AcModel | protocol capabilities, merging a patch, applying a command to the controller's RAM |
| ac_flash.dfy | AcFlash | the bit-packed record, loading and saving, the joint RAM and flash invariant |
| ac_firmware.dfy | AcFirmware | the controller object and the sketch's handlers with the one pending notification |
| ac_django.dfy | AcDjango | Django's capability table, the mirror row, sending with conflict retry, accepting notifications |
| ac_protocol.dfy | AcProtocol | both sides and a hostile network as a step system; theorems over every run |
| button_layout.dfy | ButtonLayout | the multi-row rewrite under immediate uniqueness constraints, with aliased button objects |
| stay_sessions.dfy | StaySessions | realtime sessions, messages, tool reservations, expiry and reset |
| chat_queue.dfy | ChatQueue | admission with repair passes and the worker task |
| realtime_link.dfy | RealtimeLink | opening, closing and recovering the connection, and everything sent on its channel, interleaved at every await |
| voice_timers.dfy | VoiceTimers | session generations, named timers, the diagnostics log |
| speech_text.dfy | SpeechText | cleaning a reply and splitting it into chunks |
| speech_player.dfy | SpeechPlayer | concurrent synthesis with failing tasks, the event network, the reorder buffer |
| dns_names.dfy | DnsNames | compressed names of DNS messages (sections 3.1 and 4.1.4 of RFC 1035) |
| memory_pages.dfy | MemoryPages | paging backwards through the messages of a stay |
| tool_calls.dfy | ToolCalls | assembling streamed tool calls and the agent's transcript |
| wrap_timers.dfy | WrapTimers | retry timers on a wrapping 32-bit millisecond clock |

The long-lived objects (controller and sketch, kiosk, queue tables, page, timers, player, firmware services) carry the
invariant of the runs as `Valid` (`Playing` for the player). Their methods keep it, are proved equal to pure transition
functions, and state what a caller may rely on afterwards. The theorems about runs are stated over those functions.

## Assumptions

- A database transaction runs alone: the backend is SQLite (wazen_local/settings.py:60), and the
  device and stay rows are locked where the code asks for it.
- Saving the controller's record is atomic, flash is not lost, and one controller answers for a device.
- Request ids, stay ids and session ids drawn at random are distinct; they are modelled by counters.
- Primary keys are handed out in increasing order and are never used again.
- HTTP bodies are parsed values; protocol, brand and model names are compared after case folding and
  are enumerations with one case for any other text. Error texts are reduced to the classes the code
  distinguishes.
- Waiting operations in the browser end in any way at any time, or never. Only `RealtimeLink.PromptIsHarmlessIff` asks
  that a promise's reactions run right behind the event that settles it. A started browser utterance
  reports its end at most once.

## Results that differ from what one might expect

- A Django command can fail although the controller would accept it: with a changed protocol and a mirror
  two or more versions behind, the conflict read reports the old configuration and is rejected.
  `AcDjango.UndisturbedSucceedsIff` is the exact condition, `AcDjango.ProtocolChangeCanStrand` an instance.
- Only commands that carry a version are protected against replays: `AcProtocol.RepeatsIff` says that exactly the
  others can take effect twice. A versioned command keys the transmitter again exactly while its transmissions fail
  (`AcProtocol.RetransmittedIff`).
- An opening of the realtime connection that is overtaken while its text is being stored still sends that text, on
  the channel of the opening that replaced it, because nothing checks the generation after that last wait
  (`RealtimeLink.TextGoesToSuccessor`). A text typed on a ready page and the outputs of tools can stray in the same
  way (`RealtimeLink.TypedTextGoesToSuccessor`). `RealtimeLink.StraysIff` is the exact condition, and
  `RealtimeLink.OvertakenIsHarmlessIff` says exactly when an overtaken opening disturbs its successor.
- A text typed while the connection is being made is dropped (`RealtimeLink.VoiceApp.SubmitMessage`).
- The final event of a spoken reply is not always sent, although its function's documentation says so: after a task
  has raised it never is, and the player by itself never finishes the turn (`SpeechPlayer.FailureLeavesTurnOpen`).
  `SpeechPlayer.CanFinishIff` is the exact condition.
- An air conditioner's buttons cannot be saved without its settings (`ButtonLayout.AcNeedsSettings`).
- The layout save computes its row shift from the submitted rows, because the loaded button objects have
  already been overwritten. It is safe if and only if `ButtonLayout.NoClash` holds, which rows below 1000
  and keys that do not begin with `temporary-` guarantee; two lemmas show a failing layout each.
- The empty DNS name does not survive a round trip: it is written as two zero bytes
  (`DnsNames.EmptyNameIsTwoBytes`). `DnsNames.RoundTripIff` gives the exact condition.
- A text that is nothing but white space and longer than a chunk yields an empty chunk
  (`SpeechText.ChunksAreNonEmptyIff`), and uncleaned text with tabs can have short words cut:
  `SpeechText.FittingWordIsCutIff` is the exact condition, `SpeechText.TabLetsShortWordBeCut` an instance.
- A turn can be finished with words unsaid. Longer replies than eight chunks are cut short
  (`SpeechPlayer.LongReplyIsCutShort`), and a chunk whose audio fails is passed over in silence when the browser has no
  voice or nothing to say for it; `SpeechPlayer.UnspokenReply` is a run without a single word.
  `SpeechPlayer.WholeReplyIsSpokenIff` is the exact condition.
- A notification that waits 2^31 ms for the network is then held back until 2^32 ms have passed:
  `WrapTimers.LatePollIsMissed` is such a run, `WrapTimers.SyncWordsStandForTimeIff` the exact condition.

## Model

| member | source | states |
|---|---|---|
| AcModel.MergeIsExactlyRequested | ac_controller.cpp:438-476 | a merged patch has every requested value and leaves every other field alone |
| AcModel.MergeIsIdempotent | ac_controller.cpp:438-476 | merging the same patch again changes nothing |
| AcModel.TransmissionDecidesOnlyCommit | ac_controller.cpp:507-520 | the transmitter is reached exactly by commands that commit if it succeeds; for all others its outcome is irrelevant |
| AcModel.ApplyKeepsHealthy | ac_controller.cpp:500-529 | every command keeps the configuration supported, the temperature in the protocol's range and unsupported features off |
| AcModel.ApplyMeaning | ac_controller.cpp:500-529 | a command that does not commit changes nothing; a committed one moves the version strictly forward, to the requested one if that is further, and sets exactly the requested fields, over the present state, or over off, cool and 24 degrees if the controller had no configuration or another one |
| AcModel.OutcomeIff | ac_controller.cpp:500-529 | exactly which command is applied, a no-op or refused, and for which reason, check by check |
| AcModel.CommittedIsSpent | ac_controller.cpp:511-527 | once a versioned command has committed it is spent |
| AcModel.SpentHasNoEffect | ac_controller.cpp:511-518 | a spent command reaches no transmitter, changes nothing and is answered as stale or as a no-op |
| AcModel.ReachesTransmitterIff | ac_controller.cpp:500-522 | exactly which commands reach the transmitter: supported, acceptable, not older than the controller, with a version left to give, and not a no-op |
| AcModel.FailedCopyTransmitsAgain | ac_controller.cpp:519-522 | a command whose transmission fails changes nothing, and its next copy reaches the transmitter again |
| AcModel.UnversionedCopiesRepeat | ac_controller.cpp:511-527 | every effective command without a version takes effect again once another configuration was set in between, from any controller with versions left to give |
| AcFlash.PackedBit | ac_controller.cpp:404-411 | each feature is read back from its own bit of the packed flags |
| AcFlash.FlagsRoundTrip | ac_controller.cpp:404-427 | unpacking the packed features gives the same features |
| AcFlash.BytesRoundTrip | ac_controller.cpp:404-427 | every flag byte is the packing of the features it unpacks to |
| AcFlash.ReloadRestoresIff | ac_controller.cpp:382-436 | saving and loading restores a controller exactly when its configuration is supported and its temperature in range (or it is the default) |
| AcFlash.BootIsHealthy | ac_controller.cpp:382-413 | a boot from any record with supported features gives a healthy controller |
| AcFlash.BootOutcome | ac_controller.cpp:382-413 | a boot takes the settings always, and state and version exactly when the settings are supported and the record has schema 2, known codes and a temperature in range; otherwise the defaults |
| AcFlash.ErasedBootsInStep | ac_controller.cpp:382-396 | an erased flash boots to the unconfigured default at version 0 |
| AcFlash.StaysInStep | ac_controller.cpp:500-529 | RAM is always what a reboot restores; a command that does not commit changes neither RAM nor flash |
| AcFirmware.PendingIsCurrent | test_esp32.ino:2113-2151 | after every handled POST the pending notification is the controller's present report, and every change leaves one pending |
| AcFirmware.PostReplyIff | test_esp32.ino:2061-2152 | exactly what a POST is answered, and what it leaves behind |
| AcFirmware.ACController.constructor | ac_controller.cpp:382-413 | a new controller is booted from its preferences |
| AcFirmware.ACController.LoadState | ac_controller.cpp:382-413 | RAM becomes what the stored record loads to, with every guard |
| AcFirmware.ACController.SaveState | ac_controller.cpp:415-436 | whatever was stored before, afterwards a reboot restores the present RAM exactly |
| AcFirmware.ACController.ReadBoolean | ac_controller.cpp:316-334 | an absent member is skipped, an unsupported or non-boolean one refused, any other written |
| AcFirmware.ACController.ReadSwitches | ac_controller.cpp:445-453 | all switches are readable, and then merged, or the patch is refused |
| AcFirmware.ACController.ValidateAndMerge | ac_controller.cpp:438-476 | succeeds exactly when the patch is acceptable and then yields the merged state |
| AcFirmware.ACController.SendState | ac_controller.cpp:478-498 | keys outputs in order, stops at the first rejection, succeeds only if there is an output and none rejects |
| AcFirmware.ACController.ApplyPatch | ac_controller.cpp:500-529 | RAM and flash stay in step; a command that is not refused leaves the requested configuration and exactly the requested fields over the present or default state; an output is keyed exactly by commands that reach the transmitter |
| AcFirmware.Sketch.QueueACStateSync | test_esp32.ino:1954-1976 | whatever was pending before, with callbacks on exactly one notification is pending and it is the present report |
| AcFirmware.Sketch.HandleSetACState | test_esp32.ino:2061-2152 | one POST keeps the sketch sound; a controller that changed has a notification pending; controller, notification and reply are the specified ones |
| AcFirmware.Sketch.HandleGetACState | test_esp32.ino:2014-2025 | the answer is the one a rebooted controller would give, agrees with a pending notification and is in range |
| AcFirmware.Sketch.ServiceACStateSync | test_esp32.ino:1979-2011 | a pending notification is dropped exactly when it could be sent and was answered with success |
| AcDjango.TablesAgree | kiosk_agent/ac_control.py:39-146 | Django's protocol table and the firmware's agree on features, range, brand and models |
| AcDjango.SavedRowIsConfirmed | kiosk_agent/ac_control.py:311-343 | a saved row is the last confirmed response and never older than the row it replaces |
| AcDjango.RequestErrorIff | kiosk_agent/ac_control.py:269-297 | exactly which command is refused before anything is sent, and with which error |
| AcDjango.ResponseErrorIff | kiosk_agent/ac_control.py:210-248 | exactly what is made of one answer of the controller, and which error it raises |
| AcDjango.CommandEndsIff | kiosk_agent/ac_control.py:298-343 | exactly how a command ends: refused, by its first answer, or after a version conflict by the read and the second answer |
| AcDjango.NotificationErrorIff | kiosk_agent/ac_control.py:346-389 | exactly which notification is applied, skipped or refused, and with which error |
| AcDjango.SetAcStateTransaction | kiosk_agent/ac_control.py:269-343 | the stored row is the confirmed one, or unchanged when the command raises |
| AcDjango.AcceptSyncTransaction | kiosk_agent/ac_control.py:346-389 | a notification is applied unless its source, identity, version or state is unusable, its device unknown, ambiguous or configured otherwise, or it is older; otherwise the row is unchanged, and it never goes back |
| AcDjango.NotificationOutcome | kiosk_agent/ac_control.py:346-389 | a controller's own notification is refused exactly for an unknown, ambiguous or differently configured device, moves the row exactly when it is not older, and changes nothing more when delivered again |
| AcDjango.OfferedIsAcceptable | kiosk_agent/ac_control.py:278-297 | what Django lets through is acceptable to the controller up to the brand and the protocol's maximum temperature |
| AcDjango.PostOutcome | kiosk_agent/ac_control.py:299-332 | exactly when one POST is accepted or answered with a version conflict |
| AcDjango.UndisturbedSucceedsIff | kiosk_agent/ac_control.py:298-343 | exactly when an undisturbed command succeeds; then the row is the controller's with exactly the requested changes over its own state, or over off, cool and 24 degrees if it had no configuration or another one |
| AcDjango.InRangeIsPlausible | kiosk_agent/ac_control.py:191-193 | every temperature a controller can hold passes Django's check |
| AcDjango.ProtocolChangeCanStrand | kiosk_agent/ac_control.py:234-240 | a concrete command that fails after a protocol change with a stale mirror |
| AcProtocol.HandledSoundly | test_esp32.ino:2061-2152 | an exchange records what the controller held before and after and what it answered |
| AcProtocol.NextKeepsInv | kiosk_agent/ac_control.py:269-389 | every step of controller, Django and network keeps the protocol invariant |
| AcProtocol.NextMovesForward | ac_controller.cpp:511-527 | no step lowers either version or a request number; a changed controller has a new version; the history only grows |
| AcProtocol.RunMovesForward | kiosk_agent/ac_control.py:325-342 | over every run Django's version and the controller's never decrease |
| AcProtocol.HistoryWasHeld | ac_controller.cpp:523-525 | the recorded history is what the controller really held |
| AcProtocol.FaithfulMirror | kiosk_agent/ac_control.py:269-389 | in every run Django's row is a (version, state) pair the controller held, never ahead of it, and version 0 is the shared default |
| AcProtocol.VersionNames | ac_controller.cpp:523-527 | a version names one configuration and state for the whole run, across reboots |
| AcProtocol.NotificationConverges | test_esp32.ino:1954-2011 | a pending notification is current, and with none pending after a change the mirror equals the controller |
| AcProtocol.RebootRestores | ac_controller.cpp:382-436 | at any point of any run a power cycle restores the controller exactly |
| AcProtocol.SpentThroughStep | ac_controller.cpp:511-527 | a spent command stays spent through every step |
| AcProtocol.AtMostOnce | ac_controller.cpp:511-527 | once a copy of a versioned command has changed the controller no later copy changes it or transmits, whatever happens between them |
| AcProtocol.TransmittedIff | ac_controller.cpp:500-529 | at every point of every run a handled command is transmitted exactly when it is effective, and takes effect exactly when that transmission succeeds |
| AcProtocol.RetransmittedIff | ac_controller.cpp:511-527 | after a transmitted copy of a versioned command a later copy is transmitted if and only if the first transmission failed and the command is still effective |
| AcProtocol.FailedCopyIsTransmittedAgain | ac_controller.cpp:519-522 | while the controller's record stays as it was, every copy after a failed transmission is transmitted again |
| AcProtocol.ReplayRun | ac_controller.cpp:511-527 | a run in which two copies of the given unversioned command take effect |
| AcProtocol.RepeatsIff | ac_controller.cpp:511-527 | a command the controller can carry out can take effect twice in some run if and only if it has no version |
| AcProtocol.ExchangeHappened | kiosk_agent/ac_control.py:317-332 | every recorded answer belongs to a command the controller handled |
| AcProtocol.TxnBegan | kiosk_agent/ac_control.py:269-297 | a transaction under way was begun at an earlier step with its changes and configuration, and its request is newer than that step |
| AcProtocol.NoLostUpdate | kiosk_agent/ac_control.py:298-343 | when a command saves, the controller handled that transaction's own POST between its beginning and now; the row is what the controller held after it, with the requested fields set and every other field as the controller had it right before, or off, cool and 24 degrees if it then had no configuration or another one |
| AcProtocol.OtherwiseUnchanged | kiosk_agent/ac_control.py:325-343 | a command that ends in any other way leaves the row alone |
| AcProtocol.UndisturbedRun | kiosk_agent/ac_control.py:298-343 | from every reachable point without a transaction, steps of the protocol that end a command as the undisturbed one ends |
| AcProtocol.UndisturbedRunSucceedsIff | kiosk_agent/ac_control.py:298-343 | so those steps save the controller's state with exactly the requested changes if and only if the success condition held, and otherwise leave the row alone |
| ButtonLayout.ParkingKeyInjective | kiosk_agent/views.py:449 | different buttons have different parking keys |
| ButtonLayout.EntryOkBySets | kiosk_agent/views.py:434-440 | the sets kept while parsing decide usability of the next entry exactly |
| ButtonLayout.Database.Write | kiosk_agent/models.py:505-511 | a write goes through exactly when it meets both uniqueness constraints |
| ButtonLayout.Load | kiosk_agent/views.py:390-391 | one object per stored row, shared by the list and the index |
| ButtonLayout.ParseEntry | kiosk_agent/views.py:397-432 | one entry finds or creates its button and writes the fields into it, or is refused |
| ButtonLayout.Parse | kiosk_agent/views.py:392-444 | succeeds exactly for usable, collision-free submissions that mention every stored button |
| ButtonLayout.LargestRow | kiosk_agent/views.py:450 | the largest row among the loaded objects |
| ButtonLayout.LargestIsMaxRow | kiosk_agent/views.py:414-450 | because of aliasing that row is the largest submitted row of a stored button |
| ButtonLayout.ParkKeyStep | kiosk_agent/views.py:448-449 | when one key can be parked, and the table after it |
| ButtonLayout.ParkKeys | kiosk_agent/views.py:448-449 | parks every key exactly when no standing key is a parking key |
| ButtonLayout.MoveFits | kiosk_agent/views.py:451 | when moving one row down meets no other row |
| ButtonLayout.ParkRows | kiosk_agent/views.py:450-451 | moves every row down, in any order, exactly when none lands on another |
| ButtonLayout.SaveFits | kiosk_agent/views.py:453-454 | a saved button meets only the parking places of buttons saved after it |
| ButtonLayout.SaveButton | kiosk_agent/views.py:453-454 | one save updates or inserts under the next key, exactly when it fits |
| ButtonLayout.SaveButtons | kiosk_agent/views.py:453-454 | all saves go through exactly when no button takes a later one's parking place; then each is stored |
| ButtonLayout.Rewrite | kiosk_agent/views.py:448-454 | the three stages store exactly the submission, or everything is rolled back |
| ButtonLayout.SaveLayout | kiosk_agent/views.py:361-454 | for the stored order, saved if and only if the submission is usable and clashes with nothing on the way; refused exactly when unusable; saved, the table is exactly the submission, otherwise unchanged |
| ButtonLayout.Remote.CheckSettings | kiosk_agent/views.py:353-389 | exactly which settings pass, and the row they lead to field by field: flags and trimmed name as submitted or as before; for an air conditioner protocol and visibility as submitted, the brand the firmware supports, and the submitted model or the protocol's first variant |
| ButtonLayout.SaveConfig | kiosk_agent/views.py:353-473 | buttons and settings are stored together or not at all, exactly when both are usable, nothing clashes on the way and the name is free; then every field of the remote's row is the submitted one, and a refusal is told from a clash |
| ButtonLayout.SettledAsSubmitted | kiosk_agent/views.py:353-389 | the settings that pass, and what is stored for them, are those just described |
| ButtonLayout.SavedRemoteIsSupported | kiosk_agent/views.py:353-389 | an air conditioner is only ever saved with a configuration the firmware supports |
| ButtonLayout.AcNeedsSettings | kiosk_agent/views.py:353-389 | an air conditioner whose settings are not submitted is never saved |
| ButtonLayout.TameNeverClashes | kiosk_agent/views.py:446-454 | rows below 1000 and no reserved keys rule out every intermediate clash, in any visiting order |
| ButtonLayout.TameStays | kiosk_agent/views.py:446-454 | such a save leaves such a table |
| ButtonLayout.ReservedKeyClashes | kiosk_agent/views.py:449 | in the stored order, a stored key that looks like a parking key makes a plain re-save fail: the keys are parked, the saves clash |
| ButtonLayout.FarRowClashes | kiosk_agent/views.py:450-451 | a new button far down lands on a parking place |
| ButtonLayout.NormalizePositions | kiosk_agent/static/kiosk_agent/js/button_config.js:318-325 | every button gets row, column and order from its index, and keeps the rest |
| ButtonLayout.GridPositionsDiffer | kiosk_agent/static/kiosk_agent/js/button_config.js:318-325 | different indexes get different places |
| ButtonLayout.EditorLayoutsSave | kiosk_agent/static/kiosk_agent/js/button_config.js:318-325 | what the editor sends for up to a hundred buttons with distinct plain keys never clashes |
| StaySessions.ValidateFacts | kiosk_agent/views.py:701-724 | an accepted identity names an active session of the current stay; a refusal changes at most that session |
| StaySessions.GateDecides | kiosk_agent/views.py:701-724 | exactly when the gate denies and for which of the three reasons, the state a denied session is left in, and that an accepted one has 900 seconds from now |
| StaySessions.NextKeepsInv | kiosk_agent/views.py:777-1019 | every transaction and crash keeps the stay invariant |
| StaySessions.ToolsRunAtMostOnce | kiosk_agent/views.py:904-954 | in every run each (stay, call) is executed at most once and at most five calls are reserved per request |
| StaySessions.ResultsComeFromExecution | kiosk_agent/views.py:944-953 | in every run a call has a result, to be stored, if and only if it was executed |
| StaySessions.RetryGetsStoredResult | kiosk_agent/views.py:914-921 | once stored, every admitted retry of the call gets that result and reserves nothing |
| StaySessions.ToolAnswerIff | kiosk_agent/views.py:911-943 | exactly when a tool request is denied and why, reserved, limited or replayed, and the reservation that is stored |
| StaySessions.EventsStoredOnce | kiosk_agent/models.py:93-98 | however often an event is posted, a stay stores it at most once |
| StaySessions.MessageAnswerIff | kiosk_agent/views.py:839-863 | exactly when a message is inserted or a duplicate, and what the table holds then |
| StaySessions.SweepExpiresIff | kiosk_agent/views.py:807-810 | a sweep expires exactly the active sessions whose time has passed |
| StaySessions.CreatedIsAccepted | kiosk_agent/views.py:819-824 | a new session is accepted for 900 seconds, exactly while its stay is the current one |
| StaySessions.AcceptedExactlyUntil | kiosk_agent/views.py:701-724 | in every run an identity that was granted time and since neither used nor closed is accepted if and only if its stay is current and its time to live has not passed |
| StaySessions.AcceptedHasOrigin | kiosk_agent/views.py:777-1019 | an identity that would be accepted was granted time at an earlier step of the run |
| StaySessions.DeniedForever | kiosk_agent/views.py:701-719 | once denied, an existing identity is denied ever after |
| StaySessions.RealtimeInsertsUnderCurrentStay | kiosk_agent/views.py:838-863 | a realtime endpoint inserts only under the stay current in its transaction |
| StaySessions.StaysAdvance | kiosk_agent/views.py:1004-1019 | stays and session numbers only move forward |
| StaySessions.InactiveForever | kiosk_agent/views.py:701-724 | a closed, reset, expired or purged session never becomes active again |
| StaySessions.NothingBeforeAResetIsAccepted | kiosk_agent/views.py:1004-1019 | after a reset no identity of an earlier stay is accepted, however late its session was created |
| StaySessions.Kiosk.ValidatedRealtimeSession | kiosk_agent/views.py:701-724 | decision and session table of the gate, as GateDecides gives them |
| StaySessions.Kiosk.PostRealtimeMessage | kiosk_agent/views.py:838-863 | the stay invariant is kept; message row, duplicate or denial are those whose exact conditions MessageAnswerIff gives |
| StaySessions.Kiosk.ReserveToolCall | kiosk_agent/views.py:914-943 | replay, limit or reservation |
| StaySessions.Kiosk.PostRealtimeTool | kiosk_agent/views.py:910-943 | the stay invariant is kept; the reserving transaction as a whole, with the answers of ToolAnswerIff |
| StaySessions.Kiosk.StoreToolResult | kiosk_agent/views.py:950-953 | the reservation row gets the result, unless it was deleted meanwhile; from now on every admitted retry of the call is answered with it |
| StaySessions.Kiosk.CloseRealtimeSession | kiosk_agent/views.py:892-896 | the named session is closed; afterwards the identity is denied at any time and every other one is treated as before |
| StaySessions.Kiosk.ResetKiosk | kiosk_agent/views.py:1005-1013 | the stay's active sessions are reset; afterwards no identity of this or an earlier stay is accepted, the stay has no messages, and other stays' messages are untouched |
| ChatQueue.PassesAreRepair | kiosk_agent/services.py:24-50 | the three bulk updates in their order repair each message by itself |
| ChatQueue.NextKeepsInv | kiosk_agent/tasks.py:180-233 | every transaction of admission, workers and reset keeps the queue invariant |
| ChatQueue.SingleFlightAlways | kiosk_agent/services.py:19-58 | in every run at most one user message of a stay is pending, no request is claimed twice and none answered twice |
| ChatQueue.ClaimedStreamsIff | kiosk_agent/tasks.py:200-204 | in every run, from its claim until a worker of its request or its stay ends, a message is streaming if and only if no message was admitted since |
| ChatQueue.WorkKeepsOthersOut | kiosk_agent/services.py:51-60 | so no other message is admitted while a claimed request is unanswered and not stale |
| ChatQueue.WorkEndsAs | kiosk_agent/tasks.py:132-138 | a worker completes its streaming message when it worked and fails it when it did not |
| ChatQueue.UndisturbedRequestIsAnswered | kiosk_agent/tasks.py:180-233 | from every reachable point that admits a message, steps that end with it complete and one reply and one record added |
| ChatQueue.ResetKeepsReplyOut | kiosk_agent/core/agent_engine.py:45-57 | a reply is saved exactly when the stay is still the one it was asked in |
| ChatQueue.SettledIsFinal | kiosk_agent/tasks.py:132-138 | complete and failed are final |
| ChatQueue.EndedIsSettled | kiosk_agent/tasks.py:217-233 | a worker that reaches its end, well or badly, leaves its message settled for good |
| ChatQueue.RecoveryIsExact | kiosk_agent/services.py:31-50 | recovery completes exactly the answered messages and fails exactly the unanswered stale ones |
| ChatQueue.AdmittedIff | kiosk_agent/services.py:51-60 | a message is admitted if and only if every pending one is answered or stale, and is then the only pending one |
| ChatQueue.LateDeliveryIsHarmless | kiosk_agent/tasks.py:188-204 | a redelivered request whose message is claimed, settled or gone changes nothing |
| ChatQueue.Tables.RepairPasses | kiosk_agent/services.py:24-50 | the three updates together are the repair |
| ChatQueue.Tables.EnqueueMessage | kiosk_agent/services.py:19-60 | the queue invariant is kept; a message is admitted exactly when every pending one is answered or stale and is then the only pending one; a refusal rolls everything back |
| ChatQueue.Tables.ClaimRequest | kiosk_agent/tasks.py:200-204 | a queued message becomes streaming, and nothing else changes; the row count tells whether a claim was made |
| ChatQueue.Tables.SettleRequest | kiosk_agent/tasks.py:132-138 | a pending message of the request becomes complete when it worked and failed when it did not; every other message stays |
| ChatQueue.Tables.ResetStay | kiosk_agent/views.py:1005-1013 | exactly the stay's messages go, and the new stay admits its first message at once |
| RealtimeLink.NextKeepsInv | kiosk_agent/static/kiosk_agent/js/realtime.js:243-524 | every start, close, recovery, resumed await, typed text and tool call keeps the connection invariant |
| RealtimeLink.OneLink | kiosk_agent/static/kiosk_agent/js/realtime.js:243-524 | in every interleaving at most one connection and channel is open and one microphone live, all the page's own |
| RealtimeLink.ReadyIsCurrent | kiosk_agent/static/kiosk_agent/js/realtime.js:458-464 | readiness implies an open connection and live microphone of the current generation |
| RealtimeLink.StartNeverStuck | kiosk_agent/static/kiosk_agent/js/realtime.js:284-294 | a start is turned away only by a connection or by an opening of the current generation |
| RealtimeLink.UndisturbedOpeningConnects | kiosk_agent/static/kiosk_agent/js/realtime.js:284-464 | from any idle page an opening that nothing overtakes or refuses makes the page ready on a new connection, channel and microphone |
| RealtimeLink.ResumedSteps | kiosk_agent/static/kiosk_agent/js/realtime.js:346-495 | where an opening stands after every outcome of every await, current or overtaken |
| RealtimeLink.OtherMicIsAsked | kiosk_agent/static/kiosk_agent/js/realtime.js:351-356 | without the preferred microphone another one is asked for, and nothing else happens |
| RealtimeLink.ReadyIff | kiosk_agent/static/kiosk_agent/js/realtime.js:460-464 | the page becomes ready exactly when a current opening goes on after its channel opened |
| RealtimeLink.FailureIsFinal | kiosk_agent/static/kiosk_agent/js/realtime.js:444-495 | in every run, once an await of an opening has failed, a refused session among them, the page is never ready in that opening's generation |
| RealtimeLink.FailureGivesUp | kiosk_agent/static/kiosk_agent/js/realtime.js:487-495 | in every run, a current opening that returns without having made the page ready leaves nothing open or live |
| RealtimeLink.PersistedEffect | kiosk_agent/static/kiosk_agent/js/realtime.js:475-486 | what resuming after the last await does, stale or not: its text and request go to whatever open channel the page holds, and busy mark and automatic start are taken away |
| RealtimeLink.OvertakenIsHarmlessIff | kiosk_agent/static/kiosk_agent/js/realtime.js:453-495 | resuming an overtaken opening touches nothing of its successor if and only if it is not after the last await with an open channel held, the page busy or a start scheduled, and does not cancel its successor's channel timer |
| RealtimeLink.PromptIsHarmlessIff | kiosk_agent/static/kiosk_agent/js/realtime.js:453-495 | the timer is never the reason when an opening goes on right behind the event that opened its channel |
| RealtimeLink.SendsIff | kiosk_agent/static/kiosk_agent/js/realtime.js:14-18 | in every run a channel is sent something exactly when an opening after its last await, a typed text or a tool call is resumed while the page holds that channel open, and then all that it has to say |
| RealtimeLink.StraysIff | kiosk_agent/static/kiosk_agent/js/realtime.js:67-100 | what such a sender says reaches the channel it began with if and only if its generation is current and the channel open, and another channel if and only if it was overtaken and that one is open |
| RealtimeLink.TextGoesToSuccessor | kiosk_agent/static/kiosk_agent/js/realtime.js:475-480 | from any idle page, steps after which an overtaken opening's text has gone out on its successor's channel |
| RealtimeLink.TypedTextGoesToSuccessor | kiosk_agent/static/kiosk_agent/js/actions.js:31-40 | from any ready page, steps after which a typed text has gone out on the channel of a later connection |
| RealtimeLink.VoiceApp.CloseRealtime | kiosk_agent/static/kiosk_agent/js/realtime.js:243-260 | afterwards no connection or channel is open, no microphone live, and every opening under way has been overtaken |
| RealtimeLink.VoiceApp.StartRealtime | kiosk_agent/static/kiosk_agent/js/realtime.js:284-294 | afterwards the page is connected or a current opening is under way; no connection, channel or microphone is touched |
| RealtimeLink.VoiceApp.RecoverRealtime | kiosk_agent/static/kiosk_agent/js/realtime.js:296-316 | an event of another connection changes nothing; one of the page's own gives everything up |
| RealtimeLink.VoiceApp.EndConversation | kiosk_agent/static/kiosk_agent/js/conversation.js:48-54 | afterwards there is no conversation and everything has been given up |
| RealtimeLink.VoiceApp.CatchError | kiosk_agent/static/kiosk_agent/js/realtime.js:487-495 | a failed opening, stale or current, leaves no live microphone of its own behind; a current one gives the connection up, a stale one leaves it alone |
| RealtimeLink.VoiceApp.TakeMicrophone | kiosk_agent/static/kiosk_agent/js/realtime.js:347-387 | a current opening holds the granted stream with a new connection and channel; a stale one stops it and touches nothing else |
| RealtimeLink.VoiceApp.ResumeOpening | kiosk_agent/static/kiosk_agent/js/realtime.js:346-487 | the opening stands where every outcome of every await is to lead it; the page becomes ready only by a current opening whose channel opened; at most one link is live, and a stale opening before its last await is harmless unless it cancels its successor's channel timer |
| RealtimeLink.VoiceApp.Settle | kiosk_agent/static/kiosk_agent/js/realtime.js:289-291 | connection, channels, microphones and readiness stay; the promise is forgotten by its own opening and by no other |
| RealtimeLink.VoiceApp.SubmitMessage | kiosk_agent/static/kiosk_agent/js/actions.js:19-34 | a typed text waits for its storing or starts a connection; it is dropped exactly while the page is neither ready nor idle |
| RealtimeLink.VoiceApp.SendTyped | kiosk_agent/static/kiosk_agent/js/actions.js:35-41 | the stored text is said on the page's channel, after a request to stop if the page is busy, and on no other |
| RealtimeLink.VoiceApp.RunRealtimeTools | kiosk_agent/static/kiosk_agent/js/realtime.js:67-89 | the calls of an answer wait, with the page's channel remembered and the invariant kept |
| RealtimeLink.VoiceApp.SendOutput | kiosk_agent/static/kiosk_agent/js/realtime.js:90-99 | one output is said on the page's channel, and after the last call a request for an answer |
| VoiceTimers.NextKeepsInv | kiosk_agent/static/kiosk_agent/js/voice-controller.js:47-93 | the controller always knows every timer the browser holds |
| VoiceTimers.CallbacksRunOnce | kiosk_agent/static/kiosk_agent/js/voice-controller.js:69-78 | no callback runs twice and no name has two timers |
| VoiceTimers.SessionEndsItsTimers | kiosk_agent/static/kiosk_agent/js/voice-controller.js:47-59 | after a session begins or ends no callback from before it runs |
| VoiceTimers.ReplacedNeverRuns | kiosk_agent/static/kiosk_agent/js/voice-controller.js:69-88 | a cancelled or replaced callback never runs |
| VoiceTimers.LeftAloneRunsIff | kiosk_agent/static/kiosk_agent/js/voice-controller.js:69-78 | a timer left alone runs its callback exactly when its session is still current |
| VoiceTimers.ScheduledRunsIff | kiosk_agent/static/kiosk_agent/js/voice-controller.js:69-78 | in every run, a callback that is scheduled and left alone runs when its time comes if and only if the session it was scheduled for is current then |
| VoiceTimers.LogIsLastEighty | kiosk_agent/static/kiosk_agent/js/voice-controller.js:35-41 | the log holds exactly the last eighty transitions |
| VoiceTimers.LoggedKeepsLastEighty | kiosk_agent/static/kiosk_agent/js/voice-controller.js:35-41 | pushing an entry and shifting at the limit turns the last eighty into the last eighty |
| VoiceTimers.VoiceController.Transition | kiosk_agent/static/kiosk_agent/js/voice-controller.js:35-45 | whatever was logged before, the log holds the last eighty transitions with this one at its end |
| VoiceTimers.VoiceController.ScheduleTimer | kiosk_agent/static/kiosk_agent/js/voice-controller.js:69-78 | the browser holds a new timer for that session in place of the old one of that name, and no other timer is touched |
| VoiceTimers.VoiceController.CancelTimer | kiosk_agent/static/kiosk_agent/js/voice-controller.js:84-88 | forgets and clears the timer of that name |
| VoiceTimers.VoiceController.CancelAllTimers | kiosk_agent/static/kiosk_agent/js/voice-controller.js:90-93 | clears every known timer |
| VoiceTimers.VoiceController.BeginSession | kiosk_agent/static/kiosk_agent/js/voice-controller.js:47-52 | a new generation in the connecting phase, logged; the browser holds none of the controller's timers any more |
| VoiceTimers.VoiceController.InvalidateSession | kiosk_agent/static/kiosk_agent/js/voice-controller.js:54-59 | likewise, into the stopped phase |
| VoiceTimers.VoiceController.FireTimer | kiosk_agent/static/kiosk_agent/js/voice-controller.js:71-75 | forgets the timer and runs the callback only in its own session |
| SpeechText.CleanIsSpeakable | kiosk_agent/voice/text.py:15-20 | a cleaned text has nothing visual, single blanks and none at an end |
| SpeechText.CleanedHasIff | kiosk_agent/voice/text.py:4-20 | exactly which characters are left: all but emoji, marks of formatting and white space |
| SpeechText.CleaningIsIdempotent | kiosk_agent/voice/text.py:15-20 | cleaning twice is cleaning once; exactly speakable texts are left as they are |
| SpeechText.CleaningKeepsWords | kiosk_agent/voice/text.py:15-20 | what is heard is kept in order and no word is split or glued |
| SpeechText.SplitSpokenText | kiosk_agent/voice/text.py:23-39 | the loops compute the chunks of every sentence; what is kept is the first eight, or all if there are fewer |
| SpeechText.TextIsSplitAtSentences | kiosk_agent/voice/text.py:25-29 | no sentence ends inside a sentence, and every sentence but the last ends with one of the five marks |
| SpeechText.ChunksKeepToSentences | kiosk_agent/voice/text.py:25-38 | no chunk reaches across the end of a sentence |
| SpeechText.ChunksSayTheText | kiosk_agent/voice/text.py:30-38 | before the cut every chunk is short enough and the chunks say the whole text in order |
| SpeechText.ChunksKeepWords | kiosk_agent/voice/text.py:31-38 | the words of a sentence's chunks are its words, cut only where longer than a chunk |
| SpeechText.ChunksAreNonEmptyIff | kiosk_agent/voice/text.py:25-38 | exactly when no chunk is empty |
| SpeechText.ReplyIsSpoken | kiosk_agent/voice/text.py:15-38 | for a cleaned reply all of this at once: non-empty short chunks with exactly its words |
| SpeechText.ShortWordsAreWhole | kiosk_agent/voice/text.py:23-24 | no word is cut exactly when none is longer than a chunk |
| SpeechText.ReplyChunksAreFull | kiosk_agent/voice/text.py:32-35 | a chunk could not have taken the next word of its sentence |
| SpeechText.FittingWordIsCutIff | kiosk_agent/voice/text.py:31-38 | in any trimmed sentence, cleaned or not, a cut goes through a word that would fit if and only if no blank precedes the cut and only other white space sets the word off |
| SpeechText.TabLetsShortWordBeCut | kiosk_agent/voice/text.py:33-34 | a concrete uncleaned text with a short word cut |
| SpeechText.ReplyChunksHaveWords | kiosk_agent/voice/text.py:23-39 | every chunk of a cleaned reply has a word of its own |
| SpeechText.WholeReplyIff | kiosk_agent/voice/text.py:23-39 | what is kept of a cleaned reply has all its words if and only if it has at most eight chunks |
| SpeechText.LongReplyIsNotWhole | kiosk_agent/voice/text.py:23-39 | no reply with more to say than eight chunks hold is kept whole |
| SpeechText.LongWordIsNotWhole | kiosk_agent/voice/text.py:23-39 | for instance no word longer than eight chunks |
| SpeechPlayer.NextKeepsInv | kiosk_agent/static/kiosk_agent/js/tts.js:20-94 | server, network, callbacks and player keep the pipeline invariant |
| SpeechPlayer.PublishedOnceAndEndsLast | kiosk_agent/voice/service.py:63-88 | each chunk is published once, the final event last and only when no task raised, never more syntheses than the semaphore allows |
| SpeechPlayer.PlaysInOrder | kiosk_agent/static/kiosk_agent/js/tts.js:41-94 | chunks start in order, each once, one at a time, whatever arrives when and how often; a running one is heard from its audio unless that is missing or failed |
| SpeechPlayer.EndsOnlyBy | kiosk_agent/static/kiosk_agent/js/tts.js:59-94 | a running playback comes to its end exactly when its audio or its speech ends, or its audio fails and cannot be spoken |
| SpeechPlayer.FallbackSpeaksIff | kiosk_agent/static/kiosk_agent/js/tts.js:71-80 | a failed audio is spoken by the browser if and only if there is text it can say, and then nothing else moves; otherwise the chunk is passed over |
| SpeechPlayer.TurnFinishesIff | kiosk_agent/static/kiosk_agent/js/tts.js:34-46 | the turn is finished exactly when the end was announced and every chunk was played to its end |
| SpeechPlayer.NeverStuck | kiosk_agent/static/kiosk_agent/js/tts.js:41-94 | with everything arrived an open turn has a running playback whose end moves it on |
| SpeechPlayer.FailureLeavesTurnOpen | kiosk_agent/voice/service.py:70-88 | once a task has raised, the final event is never sent and the player never finishes the turn |
| SpeechPlayer.Finishes | kiosk_agent/voice/service.py:63-88 | while no task has raised, steps that send the final event, deliver everything and finish the turn |
| SpeechPlayer.CanFinishIff | kiosk_agent/voice/service.py:63-88 | at every point of every run, with at least one synthesis allowed at a time, the turn is finished or can still be finished if and only if no task has raised |
| SpeechPlayer.LongReplyIsCutShort | kiosk_agent/voice/service.py:62-88 | for every reply with more to say than eight chunks hold, a run that finishes the turn without all of its words |
| SpeechPlayer.WholeReplyIsSpokenIff | kiosk_agent/voice/service.py:62-88 | when the turn has finished, the chunks whose audio or speech ended have all the reply's words in order if and only if it has at most eight chunks and none of them was passed over in silence |
| SpeechPlayer.FinishedSaid | kiosk_agent/static/kiosk_agent/js/tts.js:34-94 | what has been said by then is exactly the chunks that were not passed over, in order |
| SpeechPlayer.UnspokenReply | kiosk_agent/static/kiosk_agent/js/tts.js:64-80 | for every reply, a run in a browser that cannot speak that finishes the turn without a word |
| SpeechPlayer.AudioPlayer.Reset | kiosk_agent/static/kiosk_agent/js/tts.js:11-18 | a player that has played nothing is ready for the announced reply |
| SpeechPlayer.AudioPlayer.ReceiveChunk | kiosk_agent/static/kiosk_agent/js/tts.js:20-32 | a chunk of the reply waits in its place or has been started; one of another reply changes nothing |
| SpeechPlayer.AudioPlayer.FinishAudio | kiosk_agent/static/kiosk_agent/js/tts.js:34-39 | the end is noted, and the turn is finished at once exactly if everything has been played |
| SpeechPlayer.AudioPlayer.Continue | kiosk_agent/static/kiosk_agent/js/tts.js:41-57 | what was heard stays a prefix of the chunks and no turn is finished early |
| SpeechPlayer.AudioPlayer.Finished | kiosk_agent/static/kiosk_agent/js/tts.js:89-94 | the next chunk in sequence is up; what was heard stays in order |
| SpeechPlayer.AudioPlayer.FinishOnce | kiosk_agent/static/kiosk_agent/js/tts.js:64-70 | only the first report of a playback counts, and it moves on |
| SpeechPlayer.AudioPlayer.UseFallback | kiosk_agent/static/kiosk_agent/js/tts.js:71-80 | a failed playback with text that the browser can say is spoken, and the player waits for it; any other is passed over and the next one is up |
| DnsNames.ReadDnsName | test_ip_discovery.py:157-183 | on every message and offset: the labels-and-pointers meaning if there is one, its error if it is malformed, invalid name if the pointers never end; the offset after the name, and the name's decoded text |
| DnsNames.ReadsByFirstByte | test_ip_discovery.py:163-180 | what ends a reading: the terminating zero, and exactly which byte is which error |
| DnsNames.ReadsLabel | test_ip_discovery.py:176-183 | a label is read and the rest of the name behind it |
| DnsNames.ReadsPointer | test_ip_discovery.py:168-174 | a pointer reads as the name at its 14-bit target and ends two bytes on; one to itself is an invalid name |
| DnsNames.RightIsUnique | test_ip_discovery.py:157-183 | that answer is unique |
| DnsNames.RightExists | test_ip_discovery.py:157-183 | every message and offset has such an answer |
| DnsNames.LabelsAreStandard | test_ip_discovery.py:176-183 | only labels of 1 to 63 bytes are ever read |
| DnsNames.SplitThenJoin | test_ip_discovery.py:150-154 | joining the split labels gives the name back |
| DnsNames.EncodesIff | test_ip_discovery.py:150-154 | exactly which names can be written, and the error of the first label that cannot |
| DnsNames.DecodingUndoesEncoding | test_ip_discovery.py:150-183 | every text is the decoding of its UTF-8 bytes |
| DnsNames.FirstCharIs | test_ip_discovery.py:182 | the character whose UTF-8 form stands at the front, or else a replacement character |
| DnsNames.BeginsIff | test_ip_discovery.py:182 | a replacement stands for the longest start of some character's form, or one byte |
| DnsNames.DecodedJoin | test_ip_discovery.py:182 | bytes are decoded piece by piece |
| DnsNames.RoundTripIff | test_ip_discovery.py:150-183 | reading undoes writing at any offset exactly for names with labels of 1 to 63 characters, and then gives the name back without its final dots |
| DnsNames.EmptyNameIsTwoBytes | test_ip_discovery.py:150-154 | the empty name is written as two zero bytes and read as one |
| MemoryPages.GetMemory | kiosk_agent/views.py:747-773 | a page is the last matching messages, oldest first: as many as asked for, at least one and at most a hundred, or all; its first message names the next page exactly when there are more |
| MemoryPages.MatchingAre | kiosk_agent/views.py:752-758 | the matching messages are the stay's own that are no tool results and have smaller ids, in id order |
| MemoryPages.LaterRowsDoNotMatch | kiosk_agent/views.py:755-756 | messages added later match no continued page |
| MemoryPages.MatchingBefore | kiosk_agent/views.py:752-757 | continuing at a message leaves exactly those before it |
| MemoryPages.WalkIsComplete | kiosk_agent/views.py:745-774 | a finished walk has every message shown at its start exactly once in order, whatever is added meanwhile, and takes boundedly many pages |
| ToolCalls.InterleavingDoesNotMatter | kiosk_agent/core/agent_engine.py:105-118 | assembled calls do not depend on the interleaving across indexes |
| ToolCalls.StreamJoin | kiosk_agent/core/agent_engine.py:105-120 | text and fragments are those of the pieces in the order they came in |
| ToolCalls.CallsInIndexOrder | kiosk_agent/core/agent_engine.py:138-144 | the calls are one per index that occurs, by ascending index, each put together from its own fragments |
| ToolCalls.ToolCallBuffer.Add | kiosk_agent/core/agent_engine.py:112-118 | one fragment is appended part by part |
| ToolCalls.AddFragment | kiosk_agent/core/agent_engine.py:110-118 | only the buffer of the fragment's index changes |
| ToolCalls.Assemble | kiosk_agent/core/agent_engine.py:105-120 | text and, per index, the in-order concatenation of its fragments |
| ToolCalls.SortedIndexes | kiosk_agent/core/agent_engine.py:138-144 | each index once, smallest first |
| ToolCalls.SortedIsAscending | kiosk_agent/core/agent_engine.py:138-144 | there is only one such order |
| ToolCalls.CollectCalls | kiosk_agent/core/agent_engine.py:138-141 | the assembled calls in that order |
| ToolCalls.RunTools | kiosk_agent/core/agent_engine.py:144-161 | every call is run in order up to the first that raises; the result of each of the others is given back under its call's id, and stored while the stay is current |
| ToolCalls.RunRound | kiosk_agent/core/agent_engine.py:95-161 | one model call: an exception, an ending, or text and calls followed by the result of every call under its id; a tool that raises ends the request; a blank text is an error, any other an answer unless the stay was reset |
| ToolCalls.TurnIsPaired | kiosk_agent/core/agent_engine.py:138-161 | such a list and its results are paired |
| ToolCalls.TranscriptIsPaired | kiosk_agent/core/agent_engine.py:97-161 | every transcript given to the model pairs every list of calls with exactly its results |
| ToolCalls.StoredIsTranscript | kiosk_agent/core/agent_engine.py:45-57 | while the stay lasts the tool messages stored are those the model was given, in order |
| ToolCalls.SavedAt | kiosk_agent/core/agent_engine.py:45-57 | the stored results are exactly those of the calls after which the stay was still current, in order |
| ToolCalls.NothingStoredAfterReset | kiosk_agent/core/agent_engine.py:45-57 | after a reset no result of the round is stored any more |
| ToolCalls.RunAgent | kiosk_agent/core/agent_engine.py:94-171 | at most five model calls, each with the right transcript; the first round that does not go on decides the outcome, the calls run and the messages stored, exceptions included |
| WrapTimers.DueIff | test_esp32.ino:2951 | the signed comparison is the true one within 2^31 ms and alternates beyond |
| WrapTimers.ElapsedIs | test_esp32.ino:2932-2941 | the unsigned difference is the elapsed time below 2^32 ms |
| WrapTimers.WifiService.ServiceWiFi | test_esp32.ino:2900-2954 | the state on clock words stands for the true one after every poll less than 2^31 ms after the last, and the next poll may rely on it again |
| WrapTimers.WordsStandForTime | test_esp32.ino:2900-2954 | in every run with polls less than 2^31 ms apart, however long, the state on clock words stands for the state over true time at every poll |
| WrapTimers.WaitAfterFailure | test_esp32.ino:2826-2842 | the wait after the k-th failure since the last connection is min(10000 * 2^k, 60000) ms |
| WrapTimers.BackoffIs | test_esp32.ino:2826-2842 | the waits are 10, 20 and 40 seconds, and a minute from the fourth failure on |
| WrapTimers.AttemptLasts | test_esp32.ino:2900-2954 | on clock words the radio rests from the start of an attempt to the first poll 300 ms later, and the attempt lasts to the first poll 20000 ms after that one |
| WrapTimers.AttemptStartsIff | test_esp32.ino:2951-2953 | on clock words an attempt starts at exactly those polls that find the device offline, unconnected and past its deadline in true time |
| WrapTimers.RetryStartsAtFirstPoll | test_esp32.ino:2951-2953 | a scheduled retry starts at the first poll at or after its deadline and never before |
| WrapTimers.FailedAttemptRetries | test_esp32.ino:2826-2954 | on clock words the attempt after the k-th failure starts at the first unconnected poll min(10000 * 2^k, 60000) ms or more after the timeout, and at none before |
| WrapTimers.LostConnectionRetries | test_esp32.ino:2900-2954 | on clock words a lost connection is tried again at the first poll that sees it gone |
| WrapTimers.SyncService.QueueSync | test_esp32.ino:1972-1975 | whatever went before, every connected poll within the next 2^31 ms tries the notification |
| WrapTimers.SyncService.ServiceSync | test_esp32.ino:1979-2010 | a call at any time: what it tries, keeps pending and schedules again; while the clock is in step it tries as it should exactly when the poll can be read, and then stays in step |
| WrapTimers.TriesAgreeIff | test_esp32.ino:1980-1986 | exactly when the wrapping clock decides rightly whether to try a notification |
| WrapTimers.TriedAgrees | test_esp32.ino:1992-2009 | the deadline after a failed request is the true one |
| WrapTimers.SyncWordsStandForTimeIff | test_esp32.ino:1954-2010 | in every run, however late its polls, the wrapping clock takes all decisions up to a point as true time does if and only if every poll until then can be read |
| WrapTimers.LatePollIsMissed | test_esp32.ino:1972-1986 | a run in which a notification first polled after 2^31 ms is not tried |
| WrapTimers.LateNotificationIsHeldBack | test_esp32.ino:1979-1986 | every poll from 2^31 ms to 2^32 ms after the deadline leaves the notification waiting |
| WrapTimers.SyncRetriesAtFirstPoll | test_esp32.ino:1979-2010 | on clock words and with readable polls, after a failed request nothing is tried for 10000 ms, and exactly the first connected poll from then on tries |

## Left out

- Cookies, keys, signatures, prompts, admin forms, templates, DOM and CSS, migrations and deployment: no hard property.
- remote_control.py, tv_remote.py, ir_capture.py, saas.py, wifi.py, device_discovery.py: validation and transport with little state.
- recognition.js and push-to-talk.js beyond the generations they begin: browser media behaviour is not in the repository.
- HTTP, OpenAI, WebRTC, Redis, Channels, Celery and the IR library appear only as outcomes: success, failure, silence, lateness, repetition.
- Wall-clock bookkeeping such as `updated_at`, log entries, and the voice completion watchdog.
- Two controllers behind one address, torn flash writes and manual edits of message or state rows: excluded by the assumptions.
- AcProtocol.NotificationConverges: says nothing about when a notification arrives; delivery may fail for ever, and then one stays pending.
- ButtonLayout.SaveLayout: field cleaning of an entry is one flag; which texts are clean is not modelled.
- StaySessions.ToolsRunAtMostOnce: is about the realtime endpoint; the chat agent runs its tools without a reservation, and only its stored messages are modelled.
- ChatQueue.SingleFlightAlways: user messages stored by the realtime endpoint are complete from the start and are not part of the queue; the retry count of an invisible request is not modelled.
- RealtimeLink.OneLink: remote tracks, the microphone's enabled flag, the events a channel delivers other than tool calls, and timers other than the automatic start's and the channel's are not modelled.
- SpeechText.SplitSpokenText: asks for a chunk length of at least 1, because the source's loop does not end for 0; its callers use 220.
- SpeechPlayer.PlaysInOrder: covers one reply, announced before its first chunk to a player that plays nothing; a reset in mid-playback, the fallback for a whole reply, and the other ways a turn can end (the error message a failed worker may still send, the clock for a silent reply) are not modelled.
- SpeechPlayer.WholeReplyIsSpokenIff: a browser utterance that breaks off with an error counts as spoken, as it does in the source.
- MemoryPages.WalkIsComplete: assumes the stay is not reset during the walk; the other parts of the response are not modelled.
- ToolCalls.RunAgent: published progress events are not modelled, and a stream that raises in the middle counts as raising at once.
- WrapTimers.WordsStandForTime: asks that polls of the Wi-Fi service are less than 2^31 ms apart, as its timers themselves do.
