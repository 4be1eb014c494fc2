# A verified model of the VoIP stack

The VoIP stack joins SIP phones, browsers and Home Assistant. This project models the parts of it
whose correctness is hardest to see from the code, and proves what they are for:

- **PCM conversion** (`audio_format`, `pcm_codec`, `resampler`, `pcm_converter`): the sample codec of
  four containers, channel mapping, the stateful polyphase resampler and the reframer. The simple
  definition is the whole stream zero-stuffed, filtered and decimated; the blockwise, table-driven form
  is proved equal to it for every kernel, and everything a converter emits is proved to be one function
  of everything it was fed.
- **The call registry** (`registry_state` and the `registry_*` files, `tombstones`, `event_contexts`,
  `call_registry`): one value holds every index; each operation is a step on it; `CallRegistry` is the
  object that changes its tables statement by statement and is proved to take exactly those steps.
  Invariants are proved of every step and every run: stamps, the leg index, endpoint claims, the memory
  of terminated calls, event contexts. `registry_effects` says what each operation writes, field by field.
- **Bridge teardown** (`bridges`) and **call deadlines** (`deadlines`): protocols whose waits let other
  steps run in between.
- **The conference focus** (`mixer`, `bounded_queue`, `conference_leg`, `conference_room`): the N-1 mix in
  fixed-width arithmetic, bounded queues, RTP clocks, and room membership under interleaved joins,
  leaves, closes and failures.
- **The Assist media session** (`assist_session`): start and stop races, updates prepared and committed
  in two steps, and the framing of speech.
- **The dial plan** (`dial_plan`, `ordering`): one row per Contact, q ranking into tiers, and the order of
  the branches.

`wrappers`, `arithmetic`, `framing` and `ordered_dict` hold what several of these share.

Reading guide. State machines are datatypes with one function per operation; a coroutine is split into
one operation per stretch between waits, and runs are sequences of operations, so a statement about all
runs covers all interleavings. Where the program updates an object, a class does so with the same
branches and its methods' contracts equate the new state with the operation's function. Statements of
the form "if and only if" say exactly when a property survives; the findings below come from those.
The functions everything else rests on are themselves held to laws stated without them, in the fields
and the numbers a caller sees: `PcmCodec.DownmixIsMean`, `Mixing.MixedIsProportional`,
`ConferenceRooms.BoundGetsIn`, `AssistSessions.ContractRules`,
`RegistryTerminations.LateWinnerDuringTeardown`, `RegistryEffects` and others.

## Where the code does less than it seems to promise

- A revision alone is not a safe stamp: a call that is popped and created again counts its revisions from
  the start, so for every session that was ever changed there is a run after which its stamp is current and
  its state another (`RegistryStamps.RevisionAloneIsNotEnough`). With the generation it is safe.
- The leg index stays right only if callers respect ids; `RegistryLegs.StepIndexed` gives the exact
  condition for each operation, and the first operation that breaks it breaks the index
  (`RegistryLegs.DisrespectIsSeen`).
- The endpoint registry frees an endpoint when its phone reports itself idle (endpoint_registry.py:313-338,
  esphome_state_bridge.py:95-114), and nobody tells the call that claimed it. After that another call can
  claim the endpoint and both claims are recorded (`RegistryClaims.IdleLetsTwoCallsClaim`). Claims and
  endpoint registry stay in agreement over such a report exactly when no call had claimed the endpoint
  (`RegistryClaims.IdleBacked`). What survives in every registry is `RegistryClaims.HolderKeepsItsOwn`, and the
  agreement is back once the stale claim is released (`RegistryClaims.AgreementReturns`).
- `adopt_transport` looks only at the holder's name. It takes a recorded claim away exactly when the holder,
  another call, is named like a physical transport (`RegistryClaims.ClaimBacked`,
  `RegistryClaims.AdoptionLetsTwoCallsClaim`); a run that names no call so never does
  (`RegistryClaims.OrdinaryRun`).
- `begin_termination` does not ask for the generation, so a call created again under a remembered id
  cannot begin its termination (`RegistryTerminations.ReusedIdCannotBegin`), until 512 other ids have been
  remembered (`RegistryTerminations.ReusedIdBeginsExactly`).
- The memory of terminated calls keeps one generation for an id. When `finish_and_pop` is called with an id
  that was meanwhile added as a leg of another session, it takes that session's generation, and a generation
  that was being torn down is current again (`RegistryTerminations.MisburialRevives`). In every other run it
  never is while the id is remembered (`RegistryTerminations.LateWinnerDuringTeardown`).
- `finish_and_pop` leaves a deadline armed. It fires in its own phase exactly when the id still stands for
  the session and nothing since ended the call, cleared the runtime or evicted the context
  (`Deadlines.FiresInItsPhaseExactly`); otherwise it can fire for any later call of the same id
  (`Deadlines.FiresForALaterCall`).
- Equal formats bypass the codec. On `s24le_in_s32` that differs from decoding and encoding exactly when
  a sample exceeds 24 bits (`PcmConversion.PassThroughIsThePipeline`).
- Publishing a conference leg over a live leg of the same call id loses its port reservation, and only that
  does (`ConferenceRooms.StepConserved`). `add_ha_softphone_leg` does not ask whether the room is closed: a
  call gets into a closed room exactly through it (`ConferenceRooms.ClosedRoomGrowsOnlyByBrowsers`).
- A client's join that is refused or fails gives back its ports while the client is open; closing it is left
  to the caller. No other step gives ports back before their client has closed
  (`ConferenceRooms.StepClientsFirst`).
- The cleanup of a bridge ends whatever session the source id stands for after the wait. It asks for no
  generation, so it can end a session created again meanwhile (`Bridges.EndsItsOwnExactly`,
  `Bridges.EndsALaterSession`).
- The drop counter of a browser leg also counts what its output queue drops
  (`ConferenceLegs.RunQueues`).
- `_pipeline_event` does not ask whether the session is closed: speech reported while it stops starts a
  task that nothing cancels (`AssistSessions.NoLateTask`).
- `_pipeline_event` does not ask either whether the pipeline still runs for a turn. While it does, the wait at
  the end of a turn keeps all speech within reach of stop (`AssistSessions.LeftRunning`). Speech that is
  reported after the turn's own speech has ended is not waited for; the next turn forgets it if it still
  plays then, exactly then (`AssistSessions.TurnDropsExactly`), and stop cannot end it
  (`AssistSessions.LateReportLeaks`). Whether the pipeline ever reports so late is not for this model to say.

`_commit` compares contract objects by identity. That is sound under a precondition of the interface, that
every update brings a contract object of its own (`AssistSessions.StepOnward`);
`AssistSessions.SameObjectCommitsTwice` shows why it is needed. Nothing in the program passes the session's
own object.

## Model

| member | source | states |
|---|---|---|
| `AudioFormats.MakeFormat` | custom_components/voip_stack/audio_format.py:36-47 | a format exists if and only if rate, channels and frame time are supported and form whole frames |
| `AudioFormats.ExactReframing` | custom_components/voip_stack/audio_pcm.py:113-122 | the two whole-frame checks make a source frame an exact number of destination samples, in the ratio of the two rates and of the two durations |
| `PcmCodec.EncodingNeverWraps` | custom_components/voip_stack/audio_pcm.py:47-60 | encoding any float stores a value in range: it saturates and never wraps, in all four containers |
| `PcmCodec.QuantizedTowardZero` | custom_components/voip_stack/audio_pcm.py:47-60 | within range a float is stored as its multiple of full scale with the fraction dropped towards zero; beyond it as the end of the range |
| `PcmCodec.ContainerValue` | custom_components/voip_stack/audio_pcm.py:21-44 | a container of two, three or four bytes is little-endian two's complement |
| `PcmCodec.RequantizeSample` | custom_components/voip_stack/audio_pcm.py:21-60 | encode after decode is the identity on one sample if and only if it is within precision, and is idempotent |
| `PcmCodec.FrameLayout` | custom_components/voip_stack/audio_pcm.py:21-45 | sample i of channel c is read from container i times channels plus c: channels vary fastest |
| `PcmCodec.EncodeDecodeFrame` | custom_components/voip_stack/audio_pcm.py:21-60 | for frames of any length encode after decode returns the bytes on the packed formats and the saturated bytes on 24 bits in 32, idempotently |
| `PcmCodec.CanonicalIff` | custom_components/voip_stack/audio_pcm.py:38-41 | re-encoding leaves a frame alone if and only if all its samples are within the format's precision |
| `PcmCodec.WidenThenNarrowFrame` | custom_components/voip_stack/audio_pcm.py:21-60 | widening a frame to a format at least as precise and decoding returns the samples, and narrowing back returns the bytes |
| `PcmCodec.MonoThroughMany` | custom_components/voip_stack/audio_pcm.py:63-70 | mono to any number of channels and back to mono is the identity |
| `PcmCodec.DownmixIsMean` | custom_components/voip_stack/audio_pcm.py:65-66 | for every number of channels the mono sample times that number is the sum over the channels |
| `PcmCodec.StereoToMono` | custom_components/voip_stack/audio_pcm.py:65-66 | of two channels the mono sample is half their sum |
| `PcmCodec.ChannelKept` | custom_components/voip_stack/audio_pcm.py:67-70 | otherwise a channel is kept, a surplus one is dropped and a missing one repeats the last |
| `Resampling.PolyphaseIsNaive` | custom_components/voip_stack/audio_pcm.py:93-107 | the gathered sum over one phase equals zero-stuffing, filtering with the full kernel and keeping every down-th sample |
| `Resampling.IndexesInRange` | custom_components/voip_stack/audio_pcm.py:93-99 | every gather index lies in tail and block, every coefficient index in the kernel |
| `Resampling.LowestTerms` | custom_components/voip_stack/audio_pcm.py:77-79 | the factors have no common divisor and keep the ratio of the rates |
| `Resampling.NoDrift` | custom_components/voip_stack/audio_pcm.py:77-84 | with the gcd taken out, input samples times up equals output samples times down, without remainder |
| `Resampling.BlockIsStream` | custom_components/voip_stack/audio_pcm.py:102-107 | what one block computes from its tail is the naive resampling of the whole stream at that place |
| `Resampling.BlockContinuesStream` | custom_components/voip_stack/audio_pcm.py:102-107 | the outputs of any number of blocks, joined, are the naive resampling of all the input |
| `Resampling.Causal` | custom_components/voip_stack/audio_pcm.py:93-98 | a later sample never changes an earlier output |
| `Resampling.PolyphaseResampler.constructor` | custom_components/voip_stack/audio_pcm.py:76-100 | builds the phase and gather tables and a silent tail; establishes the invariant of the stream |
| `Resampling.PolyphaseResampler.Process` | custom_components/voip_stack/audio_pcm.py:102-107 | each call extends the resampling of everything heard so far by exactly its output |
| `PcmConversion.OutputCount` | custom_components/voip_stack/audio_pcm.py:125-145 | after k frames in, k times source duration divided by destination duration frames are out |
| `PcmConversion.OutputIsTheStream` | custom_components/voip_stack/audio_pcm.py:125-145 | the bytes emitted followed by the encoding of less than one pending frame are the encoding of the converted stream |
| `PcmConversion.EmittedSample` | custom_components/voip_stack/audio_pcm.py:125-145 | at any rate every sample emitted is the encoding of its channel of the converted stream at its place |
| `PcmConversion.HeardMono` | custom_components/voip_stack/audio_pcm.py:133-135 | at any rate what the resampler is fed from stereo is the mean of the decoded samples 2i and 2i+1 of the bytes fed |
| `PcmConversion.HeardKept` | custom_components/voip_stack/audio_pcm.py:133-135 | from no more channels than are sent it is fed the samples of the same channel of the bytes fed, or of the last |
| `PcmConversion.StereoToMonoStream` | custom_components/voip_stack/audio_pcm.py:125-145 | from stereo to mono at one rate, for every way the bytes were fed: sample i emitted is the quantized mean of the samples 2i and 2i+1 fed |
| `PcmConversion.KeptChannelStream` | custom_components/voip_stack/audio_pcm.py:125-145 | for any other pair of formats at one rate every sample emitted is the quantized sample fed of its channel and column, or of the last channel |
| `PcmConversion.PassThroughIsThePipeline` | custom_components/voip_stack/audio_pcm.py:131-132 | the shortcut for equal formats meets the same specification if and only if every sample is within precision |
| `PcmConversion.PcmFrameConverter.Make` | custom_components/voip_stack/audio_pcm.py:113-123 | a converter exists if and only if the pair can be reframed exactly |
| `PcmConversion.PcmFrameConverter.Convert` | custom_components/voip_stack/audio_pcm.py:125-145 | whichever path is taken the frames returned extend the output of everything fed; a wrong length changes nothing |
| `PcmConversion.PcmFrameConverter.TakeFrames` | custom_components/voip_stack/audio_pcm.py:141-145 | the loop takes off exactly the whole frames and leaves the rest pending |
| `Tombstones.RememberRefines` | custom_components/voip_stack/call_registry.py:260-274 | remembering a batch and evicting keeps the memory the last 512 distinct ids of the log, oldest first, each with its latest generation |
| `Tombstones.RememberedWhile` | custom_components/voip_stack/call_registry.py:260-292 | an id not remembered again is in the memory if and only if fewer than 512 other ids followed, with the generation it was given |
| `Tombstones.RememberedExactly` | custom_components/voip_stack/call_registry.py:260-292 | for every log an id is in the memory if and only if the log names it and fewer than 512 other ids followed the last time it did, and then with the generation named last |
| `RegistryStamps.StepEvolves` | custom_components/voip_stack/call_registry.py:584-821 | every operation keeps generations unique and moves a session only forward; an equal revision means equal state, owner, outcome, parties, route and legs |
| `RegistryStamps.ReachableGenerations` | custom_components/voip_stack/call_registry.py:584-821 | every state reachable from an empty registry has unique generations, all behind the counter |
| `RegistryStamps.StampIsAbaFree` | custom_components/voip_stack/call_registry.py:722-737 | a stamp of revision and generation still current after any run names the session it was read from, and nothing it protects has changed |
| `RegistryStamps.OneTransitionPerStamp` | custom_components/voip_stack/call_registry.py:661-720 | of all transitions carrying one stamp at most one succeeds, in any run |
| `RegistryStamps.RevisionAloneIsNotEnough` | custom_components/voip_stack/call_registry.py:729-737 | without the generation the stamp of any session that was ever changed comes round again: pop, re-creation and updates up to the same revision leave it current in another state |
| `RegistryStamps.LateWinnerIsRefused` | custom_components/voip_stack/call_registry.py:739-750 | after finish_and_pop the generation is never current again, under any id, and registering a bridge for it changes nothing |
| `RegistryStamps.StepSpares` | custom_components/voip_stack/call_registry.py:584-821 | a session outlasts a step if and only if the operation does not pop, finish_and_pop or clear it |
| `RegistryLegs.StepIndexed` | custom_components/voip_stack/call_registry.py:752-821 | leg index and sessions agree after a step if and only if the step respected the ids |
| `RegistryLegs.RunIndexed` | custom_components/voip_stack/call_registry.py:752-821 | they agree in every state of every run whose steps respect the ids |
| `RegistryLegs.DisrespectIsSeen` | custom_components/voip_stack/call_registry.py:752-821 | the condition is needed at every point of a run: the first step that does not respect the ids breaks the agreement |
| `RegistryLegs.ResolveIsIdempotent` | custom_components/voip_stack/call_registry.py:999-1000 | following the index twice leads no further than once |
| `RegistryState.CleanStrips` | custom_components/voip_stack/call_registry.py:268-268 | cleaning takes off the white space around an identifier, all of it and nothing else |
| `RegistryLegs.AddLegIndexed` | custom_components/voip_stack/call_registry.py:752-803 | adding a leg keeps the agreement if and only if the call stands for itself and the leg is nobody else's and no other session's id |
| `RegistryLegs.RemoveLegIndexed` | custom_components/voip_stack/call_registry.py:805-821 | removing a leg keeps it if and only if the leg is not another session's |
| `RegistryLegs.RegisterIndexed` | custom_components/voip_stack/call_registry.py:1174-1225 | registering a bridge keeps it if and only if the source stands for itself and the destination may join it |
| `RegistryLegs.PopIndexed` | custom_components/voip_stack/call_registry.py:1086-1120 | popping by the call or any of its legs keeps the agreement and leaves no index entry for the call |
| `RegistryClaims.Exclusive` | custom_components/voip_stack/call_registry.py:335-382 | an endpoint whose claims are what the endpoint registry says is in at most one call's claims |
| `RegistryClaims.ClaimingIsLocal` | custom_components/voip_stack/call_registry.py:335-382 | a successful claim gives the call the endpoint and touches nobody else's; a failed one changes nothing |
| `RegistryClaims.RecordedIsBusy` | custom_components/voip_stack/call_registry.py:343-361 | such an endpoint, once claimed, is busy for every other call; a claim that may adopt gets past that if and only if the holder is named like a physical transport |
| `RegistryClaims.ClaimBacked` | custom_components/voip_stack/call_registry.py:355-364 | claims and endpoint registry agree about an endpoint after a claim if and only if the claim did not adopt it from another call, named like a physical transport, whose claim is recorded |
| `RegistryClaims.IdleBacked` | custom_components/voip_stack/endpoint_registry.py:313-338 | after a phone's report of being idle has freed its endpoint, claims and endpoint registry agree about it if and only if no call claims it |
| `RegistryClaims.ReleaseFreesItsOwn` | custom_components/voip_stack/call_registry.py:384-399 | releasing a call's claims frees what they held and nothing else |
| `RegistryClaims.ReleaseFreesOne` | custom_components/voip_stack/call_registry.py:401-427 | releasing one claim frees that endpoint, if it was the call's, and nothing else |
| `RegistryClaims.FinishFreesItsOwn` | custom_components/voip_stack/call_registry.py:1086-1153 | finish_and_pop, by any leg, frees exactly the endpoints claimed under the id its session's id stands for once cleaned: its own, if that id needs no cleaning |
| `RegistryClaims.StepBacked` | custom_components/voip_stack/call_registry.py:335-431 | over any step claims and endpoint registry stay in agreement about an endpoint if and only if the step does not take it: by adoption of a recorded claim, or by its phone's report of being idle |
| `RegistryClaims.RunBacked` | custom_components/voip_stack/call_registry.py:335-431 | so in every run with no such step for that endpoint, whatever happens to others, and the first such step breaks it |
| `RegistryClaims.OrdinaryRun` | custom_components/voip_stack/call_registry.py:343-361 | in every run that names no call like a physical transport only the phone's own report can take its endpoint |
| `RegistryClaims.StepSole` | custom_components/voip_stack/call_registry.py:335-431 | over any step an endpoint stays claimed by at most one call if and only if the step grants no claim on it beside the recorded claim of another call |
| `RegistryClaims.RunSole` | custom_components/voip_stack/call_registry.py:335-431 | so in every run that grants no such claim on it, whatever the endpoint registry does |
| `RegistryClaims.IdleLetsTwoCallsClaim` | custom_components/voip_stack/esphome_state_bridge.py:95-114 | claim, report of being idle, claim by another call: both claims are recorded, the registry knows the second |
| `RegistryClaims.AdoptionLetsTwoCallsClaim` | custom_components/voip_stack/call_registry.py:355-361 | a claim by a call named like a physical transport and its adoption: both claims are recorded |
| `RegistryClaims.HolderKeepsItsOwn` | custom_components/voip_stack/endpoint_registry.py:304-311 | in every registry at most one of those that claim an endpoint holds it, and a release by any other, stale claims and all, leaves the holder its endpoint and its claim |
| `RegistryClaims.ReleaseRestores` | custom_components/voip_stack/call_registry.py:384-431 | in every registry, after a release claims and endpoint registry agree about an endpoint if and only if the claims of all others were backed |
| `RegistryClaims.AgreementReturns` | custom_components/voip_stack/call_registry.py:384-431 | once the call with the stale claim releases it, pops or finishes, the agreement is back and the other call still has its endpoint |
| `RegistryTerminations.RunRefines` | custom_components/voip_stack/call_registry.py:260-320 | over every run the memory refines the log of terminated calls |
| `RegistryTerminations.BeginExactly` | custom_components/voip_stack/call_registry.py:294-320 | in every state of every run begin_termination succeeds if and only if the log of terminated ids remembers neither the id nor the session it stands for |
| `RegistryTerminations.OneBeginPerSession` | custom_components/voip_stack/call_registry.py:294-320 | after one begin_termination returned true, none does for the session or any id that stands for it while fewer than 512 other ids are remembered |
| `RegistryTerminations.SecondBeginExactly` | custom_components/voip_stack/call_registry.py:294-320 | over every run without a clear, its finish_and_pop and re-creation included, a session's termination can begin a second time if and only if 512 other ids have been remembered since it was remembered last |
| `RegistryTerminations.ReusedIdBeginsExactly` | custom_components/voip_stack/call_registry.py:294-320 | after a call has ended, and however often it is created again, its termination can begin if and only if 512 other ids have been remembered since |
| `RegistryTerminations.ReusedIdCannotBegin` | custom_components/voip_stack/call_registry.py:305-306 | so a call created again at once cannot begin its termination |
| `RegistryTerminations.CurrentExactly` | custom_components/voip_stack/call_registry.py:739-750 | in every state of every run a generation is current if and only if the session is there in that life, not over, and the log remembers neither the id nor its session in that life |
| `RegistryTerminations.LateWinnerDuringTeardown` | custom_components/voip_stack/call_registry.py:294-320 | from the success of begin_termination until 512 other ids were remembered, in every state of every run in which nobody remembers the id on behalf of another session, the generation of that session is current under no id that stands for it, and registering a bridge for it changes nothing |
| `RegistryTerminations.MisburialRevives` | custom_components/voip_stack/call_registry.py:1143-1153 | the condition is needed: finish_and_pop called with the id while it is another session's leg makes the torn-down generation current again |
| `EventContexts.NoChangeInBetween` | custom_components/voip_stack/call_registry.py:448-467 | in one life of a context an equal state and sequence at both ends of a run mean no change at any point in between |
| `EventContexts.RunLasts` | custom_components/voip_stack/call_registry.py:433-467 | over every run the context of a session is still the same one if and only if no step ended its call, cleared the runtime or evicted it as the oldest of a full table |
| `RegistryEffects.UpsertWrites` | custom_components/voip_stack/call_registry.py:584-659 | an upsert creates a session under the next generation or takes the one there is; each field takes the value given or keeps its own, and the revision moves if and only if anything changed |
| `RegistryEffects.TransitionWrites` | custom_components/voip_stack/call_registry.py:661-720 | a transition that may happen writes each field it is given, owner and outcome even when empty, and counts one revision; any other changes nothing |
| `RegistryEffects.FinishWrites` | custom_components/voip_stack/call_registry.py:1074-1084 | a finished session is over: the state given, owner terminal, and the reason as terminal reason and outcome |
| `RegistryEffects.BeginMarks` | custom_components/voip_stack/call_registry.py:308-320 | beginning a termination marks the session once and leaves all else of every session alone |
| `RegistryEffects.AddLegWrites` | custom_components/voip_stack/call_registry.py:752-803 | the leg is the session's, with the role, state and SIP call id given, kept or defaulted, and the index leads from it to the session |
| `RegistryEffects.AddLegSession` | custom_components/voip_stack/call_registry.py:752-803 | a session created by its leg begins in the leg's state or as active; one that is there keeps all but its metadata, and its revision moves if and only if something changed |
| `RegistryEffects.LegsStandForSessions` | custom_components/voip_stack/call_registry.py:999-1000 | while index and sessions agree a leg stands for its session, and an id that is no leg for itself |
| `RegistryEffects.RemoveLegWrites` | custom_components/voip_stack/call_registry.py:805-821 | removing takes one leg from its session and from the index and nothing else |
| `RegistryEffects.ClaimGranted` | custom_components/voip_stack/call_registry.py:335-364 | who gets an endpoint and who does not, for each outcome if and only if |
| `RegistryEffects.ClaimWrites` | custom_components/voip_stack/call_registry.py:355-382 | a granted claim is recorded under its role and counts a revision unless it says nothing new |
| `RegistryEffects.BusyTakesFree` | custom_components/voip_stack/endpoint_registry.py:313-338 | a phone that reports itself busy takes its endpoint only if nobody has it |
| `RegistryEffects.EventCounts` | custom_components/voip_stack/call_registry.py:433-467 | a state that is new to a call counts one in its context with the state before it; of 256 contexts the oldest makes room |
| `RegistryEffects.DetachTells` | custom_components/voip_stack/call_registry.py:1132-1141 | what a detached bridge hands over, and that it was detached by the destination's id if and only if it was called with it |
| `RegistryEffects.AdmitsTheLive` | custom_components/voip_stack/call_registry.py:1174-1204 | a bridge that expects a generation is admitted if and only if that is the live session's and not remembered as terminated |
| `RegistryEffects.RegisterWrites` | custom_components/voip_stack/call_registry.py:1205-1225 | an admitted bridge is recorded, its session is owned by the bridge and has both legs in their roles and states |
| `RegistryEffects.ClearEmpties` | custom_components/voip_stack/call_registry.py:1227-1242 | clearing empties every table but the count of generations and gives back the claimed endpoints, and those only |
| `CallRegistries.CallRegistry.Upsert` | custom_components/voip_stack/call_registry.py:584-659 | creates or refreshes a session; a revision only when something changed |
| `CallRegistries.CallRegistry.Transition` | custom_components/voip_stack/call_registry.py:661-720 | applies a guarded change, or returns nothing and changes nothing |
| `CallRegistries.CallRegistry.AddLeg` | custom_components/voip_stack/call_registry.py:752-803 | adds or updates a leg, creating its session if needed |
| `CallRegistries.CallRegistry.RemoveLeg` | custom_components/voip_stack/call_registry.py:805-821 | removes a leg and its index entry and returns it |
| `CallRegistries.CallRegistry.ClaimEndpoint` | custom_components/voip_stack/call_registry.py:335-382 | claims an endpoint, with the outcome and the error of each case |
| `CallRegistries.CallRegistry.ReleaseEndpointClaims` | custom_components/voip_stack/call_registry.py:384-399 | the loop gives back exactly the endpoints the call holds |
| `CallRegistries.CallRegistry.ReleaseEndpointClaim` | custom_components/voip_stack/call_registry.py:401-427 | gives back one endpoint and tells whether the registry released it |
| `CallRegistries.CallRegistry.RememberTerminated` | custom_components/voip_stack/call_registry.py:260-274 | the two loops remember the ids that are not empty and evict the oldest |
| `CallRegistries.CallRegistry.IsTerminatedCall` | custom_components/voip_stack/call_registry.py:276-292 | finds whether the id or its session is remembered, for a generation if one is given |
| `CallRegistries.CallRegistry.BeginTermination` | custom_components/voip_stack/call_registry.py:294-320 | claims the teardown for one caller and marks the session |
| `CallRegistries.CallRegistry.AdvanceEvents` | custom_components/voip_stack/call_registry.py:433-467 | advances an event context on a change of state, evicting the oldest of a full table |
| `CallRegistries.CallRegistry.Pop` | custom_components/voip_stack/call_registry.py:1086-1120 | removes the session, its claims, index entries, bridge and contexts |
| `CallRegistries.CallRegistry.FinishAndPop` | custom_components/voip_stack/call_registry.py:1143-1153 | remembers, finishes and removes a call |
| `CallRegistries.CallRegistry.FindBridge` | custom_components/voip_stack/call_registry.py:1122-1130 | the search by source, then by destination, finds the first bridge of the id |
| `CallRegistries.CallRegistry.DetachBridge` | custom_components/voip_stack/call_registry.py:1132-1141 | removes a bridge and takes its relay, client and watcher |
| `CallRegistries.CallRegistry.RegisterBridge` | custom_components/voip_stack/call_registry.py:1174-1225 | registers a bridge, or returns before any index changes when the generation is not current |
| `CallRegistries.CallRegistry.ClearRuntime` | custom_components/voip_stack/call_registry.py:1227-1242 | the loop over the claims gives back every call's endpoints, and every table is emptied |
| `Bridges.SamePairFromEitherEnd` | custom_components/voip_stack/call_registry.py:1122-1130 | a bridge is found as the same pair from either of its ids |
| `Bridges.StepPaired` | custom_components/voip_stack/call_registry.py:1205-1205 | every id is in at most one bridge after a step if and only if a bridge it records, by registering it or in the table alone, has fresh ids |
| `Bridges.HandsOverAll` | custom_components/voip_stack/bridge_manager.py:26-39 | a teardown takes exactly what the tables hold for the bridge and leaves none of it |
| `Bridges.MoveOnePlace` | custom_components/voip_stack/bridge_manager.py:23-43 | every resource stays in one place, a table or one cleanup, if and only if what is attached is nowhere else |
| `Bridges.NoSecondCleanup` | custom_components/voip_stack/bridge_manager.py:23-43 | under any interleaving no relay, client, watcher or media reaches two cleanups |
| `Bridges.OneCallerIsHandled` | custom_components/voip_stack/bridge_manager.py:23-43 | of all teardowns of one bridge, by either id, exactly the first is handled until an id is registered again |
| `Bridges.LastsExactly` | custom_components/voip_stack/call_registry.py:1086-1153 | over every interleaving of teardowns with everything else a session is still there if and only if no move ended it |
| `Bridges.EndsItsOwnExactly` | custom_components/voip_stack/bridge_manager.py:26-43 | after the wait a cleanup ends the session the source id stands for and no other; it is the one whose bridge was detached if and only if the id stands for the same session id and no move ended that session in between |
| `Bridges.EndsALaterSession` | custom_components/voip_stack/bridge_manager.py:26-43 | a call popped and created again under the source id during the cleanup loses its new session |
| `Deadlines.ArmsExactly` | custom_components/voip_stack/call_deadlines.py:30-66 | which requests are refused, with each error if and only if, in the order of the checks |
| `Deadlines.ArmedWaits` | custom_components/voip_stack/call_deadlines.py:68-107 | an armed deadline waits on the state and sequence the call has now and is the one registered; a refused one changes nothing |
| `Deadlines.WakeTells` | custom_components/voip_stack/call_deadlines.py:72-98 | a timer whose time is up tells its own call, phase, state and sequence if and only if the context still has both |
| `Deadlines.FiresInItsPhaseExactly` | custom_components/voip_stack/call_deadlines.py:68-98 | a deadline that fires does so in the phase it was armed for, unchanged at every point since, if and only if the id stands for the same session and every operation since kept that session's context |
| `Deadlines.FiresForALaterCall` | custom_components/voip_stack/call_deadlines.py:72-84 | once the context is gone, whatever came in between, a new call of the id reaches the armed state and sequence, whatever they are, and the deadline fires for it |
| `Deadlines.FiresForTheNextCall` | custom_components/voip_stack/call_deadlines.py:72-84 | in particular a deadline outlives finish_and_pop and fires for the next call of the id |
| `Deadlines.SilencedForGood` | custom_components/voip_stack/call_deadlines.py:21-27 | a superseded or cancelled timer emits nothing in any later run |
| `Deadlines.ReplacedIsSilenced` | custom_components/voip_stack/call_deadlines.py:68-107 | arming again or cancelling silences the timer the call had |
| `Deadlines.LeavesTheNewer` | custom_components/voip_stack/call_deadlines.py:99-104 | a timer that ends never removes another's registration |
| `Deadlines.EmitsAtMostOnce` | custom_components/voip_stack/call_deadlines.py:72-104 | a timer emits at most one event |
| `Deadlines.AfterRegistered` | custom_components/voip_stack/call_deadlines.py:21-107 | in every run exactly the waiting timers are registered, one for a call |
| `Deadlines.CallDeadlines.SetCallDeadline` | custom_components/voip_stack/call_deadlines.py:30-107 | arms a timer on the current phase or refuses, with the reason of each check in order |
| `Deadlines.CallDeadlines.CancelCallDeadline` | custom_components/voip_stack/call_deadlines.py:21-27 | unregisters a call's timer and cancels it if it is not over |
| `Deadlines.CallDeadlines.Resume` | custom_components/voip_stack/call_deadlines.py:72-104 | emits if the phase is current, never after a cancellation, and unregisters only itself |
| `Mixing.MixFrames` | custom_components/voip_stack/conference.py:55-68 | the mix in 32- and 64-bit arithmetic with a final clip is exactly each leg's sum of the others, scaled when it does not fit |
| `Mixing.MixedFits` | custom_components/voip_stack/conference.py:62-67 | the row sent fits 16 bits without clipping, keeps order, is the plain sum if and only if that fits, and otherwise reaches full scale |
| `Mixing.ScalingIsExact` | custom_components/voip_stack/conference.py:62-67 | scaling stays in 16 bits and takes a peak on either side to full scale |
| `Mixing.MixedIsProportional` | custom_components/voip_stack/conference.py:65-66 | when the sum does not fit, every sample of the row stands to full scale as its sum to the peak, rounded down |
| `Mixing.EveryLegCounts` | custom_components/voip_stack/conference.py:61-61 | raising one leg raises what every other leg hears by as much |
| `Mixing.WrongSizeIsSilent` | custom_components/voip_stack/conference.py:58-60 | a frame of the wrong length is silence |
| `Mixing.SentIsMixed` | custom_components/voip_stack/conference.py:67-68 | the bytes sent decode to exactly the row mixed |
| `Mixing.NeverHearsItself` | custom_components/voip_stack/conference.py:61-61 | a leg's row does not depend on its own frame |
| `Mixing.TwoLegsBitForBit` | custom_components/voip_stack/conference.py:55-68 | with two well-sized frames each leg is sent the other's bytes |
| `BoundedQueues.KeepsOrder` | custom_components/voip_stack/conference.py:322-326 | a queue never exceeds its bound; what left and what remains are what it held and what arrived, in order |
| `BoundedQueues.KeepsNewest` | custom_components/voip_stack/conference.py:322-326 | however much arrives, a queue nobody takes from holds the newest elements, as many as fit |
| `BoundedQueues.TakesOldest` | custom_components/voip_stack/conference.py:470-470 | what is taken is the oldest |
| `ConferenceLegs.RunQueues` | custom_components/voip_stack/conference.py:289-326 | over any run both queues of a leg are bounded queues and the one counter counts the drops of both |
| `ConferenceLegs.FramesAreAccounted` | custom_components/voip_stack/conference.py:320-326 | at most three frames wait, in arrival order, and for a SIP leg received equals taken plus dropped plus queued |
| `ConferenceLegs.ClockKeepsMediaTime` | custom_components/voip_stack/conference.py:481-511 | sequence is start plus packets sent modulo 2^16; timestamp is start plus one frame for each frame sent, suppressed or failed, modulo 2^32 (section 5.1 of RFC 3550) |
| `ConferenceLegs.PacketNumbers` | custom_components/voip_stack/conference.py:490-511 | packets leave numbered consecutively, each stamped with the media time of its frame |
| `ConferenceLegs.HeardExactly` | custom_components/voip_stack/conference.py:289-326 | a datagram counts as received if and only if the leg decodes and may receive, host, payload type and source are the negotiated ones and it holds audio; otherwise queue and clock stay |
| `ConferenceLegs.SourceAfter` | custom_components/voip_stack/conference.py:304-321 | source and port follow a datagram if and only if it passed the checks and its payload decoded |
| `ConferenceLegs.SourceIsLatched` | custom_components/voip_stack/conference.py:304-312 | in every run a latched source stays, and strangers move neither the port nor the count of what was received |
| `ConferenceLegs.SendsExactly` | custom_components/voip_stack/conference.py:472-511 | in every run a leg that sends and is not held sends every frame whose sending does not fail, and any other sends none |
| `ConferenceLegs.ConferenceLeg.HandleRtp` | custom_components/voip_stack/conference.py:289-326 | every check in order, the latched source, and the queueing loop |
| `ConferenceLegs.ConferenceLeg.PushHaAudio` | custom_components/voip_stack/conference.py:601-611 | queues browser audio, dropping the oldest beyond three frames |
| `ConferenceLegs.ConferenceLeg.TakeFrame` | custom_components/voip_stack/conference.py:470-470 | the oldest frame, or silence |
| `ConferenceLegs.ConferenceLeg.EmitFrame` | custom_components/voip_stack/conference.py:472-511 | what becomes of one mixed frame: queued, suppressed, lost or sent |
| `ConferenceRooms.StepConserved` | custom_components/voip_stack/conference.py:134-447 | a step keeps every reservation in exactly one place if and only if it publishes over no leg that holds one |
| `ConferenceRooms.StepRoomy` | custom_components/voip_stack/conference.py:141-156 | no step takes a room over eight legs |
| `ConferenceRooms.RunGood` | custom_components/voip_stack/conference.py:134-447 | under every interleaving with distinct call ids: capacity, one place for each reservation, and for every leg that joined no release before its client has closed |
| `ConferenceRooms.StepClientsFirst` | custom_components/voip_stack/conference.py:218-287 | no reservation is given back before its client has closed, over a step, if and only if the step refuses no open client's join and sees none fail |
| `ConferenceRooms.RunClientsFirst` | custom_components/voip_stack/conference.py:218-447 | at every moment of every run, whatever interleaves, if and only if no step of the run does |
| `ConferenceRooms.AllGivenBack` | custom_components/voip_stack/conference.py:397-447 | a room with nothing left under way has given back every reservation exactly once |
| `ConferenceRooms.ClosedRoomGrowsOnlyByBrowsers` | custom_components/voip_stack/conference.py:556-586 | in every run of a closed room a call gets into it, at any moment, if and only if a browser leg is published for it |
| `ConferenceRooms.RunClosed` | custom_components/voip_stack/conference.py:246-287 | no interleaving puts a leg with a socket into a closed room, from joins that were under way either |
| `ConferenceRooms.ClosedRoomConserves` | custom_components/voip_stack/conference.py:246-447 | a closed room loses no reservation in any run, whatever call ids come |
| `ConferenceRooms.BoundGetsIn` | custom_components/voip_stack/conference.py:246-287 | a join whose socket binds and whose setup succeeds puts exactly its leg under its call if and only if the room is open and the call is live already or fewer than eight legs are; otherwise the room is as it was and the reservation is back |
| `ConferenceRooms.WhoMayCome` | custom_components/voip_stack/conference.py:141-238 | a caller's join goes on if and only if fewer than eight legs are live; a client's if and only if the room is open, its call is live already or fewer than eight legs are, and it has a dialog; with fewer than eight a browser is in, with eight it changes nothing |
| `ConferenceRooms.EightGetIn` | custom_components/voip_stack/conference.py:134-287 | up to eight callers with ids of their own, all waiting at once, are all in the room when their sockets are bound, and nobody else is |
| `ConferenceRooms.LeaveDetaches` | custom_components/voip_stack/conference.py:328-341 | who leaves is in the room no more and waits for its client or gives back its ports |
| `ConferenceRooms.CloseEmpties` | custom_components/voip_stack/conference.py:361-385 | a room told to close is closed and empty, every leg it had on its way out |
| `ConferenceRooms.Drains` | custom_components/voip_stack/conference.py:397-447 | from every state nothing is under way any more once the clients of detached legs have closed and their ports are disposed of, and joins and live legs are as they were |
| `ConferenceRooms.ConferenceRoom.StartJoin` | custom_components/voip_stack/conference.py:141-144 | a full room refuses before a reservation exists |
| `ConferenceRooms.ConferenceRoom.StartClientLeg` | custom_components/voip_stack/conference.py:227-238 | refusing a client gives its reservation back |
| `ConferenceRooms.ConferenceRoom.FinishBind` | custom_components/voip_stack/conference.py:246-287 | after the bind: admitted and published, or given back, on every failure path |
| `ConferenceRooms.ConferenceRoom.Leave` | custom_components/voip_stack/conference.py:328-341 | detaches a leg for disposal |
| `ConferenceRooms.ConferenceRoom.Close` | custom_components/voip_stack/conference.py:361-385 | closes once and detaches every leg |
| `AssistSessions.CleanedUp` | custom_components/voip_stack/assist_runtime.py:195-260 | after the cleanup, however start, stop, turns and updates interleaved: one release and no open socket |
| `AssistSessions.StartsAndStops` | custom_components/voip_stack/assist_runtime.py:195-260 | a start whose socket binds publishes it and runs sender and pipeline; a stop leaves any session closed and cleaned up, every task in a slot but the caller told to end |
| `AssistSessions.LeftRunning` | custom_components/voip_stack/assist_runtime.py:407-467 | in every run that reports speech only while the pipeline runs for a turn, the only running tasks after the cleanup that were not told to end are the caller of stop and speech reported since the session closed: the wait at the end of a turn leaves none behind |
| `AssistSessions.LeftRunningExactly` | custom_components/voip_stack/assist_runtime.py:229-260 | in every run at all the one further exception is exactly the speech that a turn dropped and that still plays |
| `AssistSessions.WaitsForSpeech` | custom_components/voip_stack/assist_runtime.py:464-466 | a turn waits for its speech until that has ended, unless the loop is left |
| `AssistSessions.TurnDropsExactly` | custom_components/voip_stack/assist_runtime.py:464-556 | in every run the turn after a turn with speech drops speech if and only if, since the pipeline had run for that turn, speech was reported that has not ended; never the turn's own speech |
| `AssistSessions.GreetingDropsExactly` | custom_components/voip_stack/assist_runtime.py:469-481 | the greeting drops speech if and only if some was reported before it and has not ended |
| `AssistSessions.DroppedPlaysOn` | custom_components/voip_stack/assist_runtime.py:229-237 | speech that a turn dropped ends only by itself: no later run tells it to end |
| `AssistSessions.LateReportLeaks` | custom_components/voip_stack/assist_runtime.py:407-428 | for every contract there is a run, its turn waited for, in which speech reported while the queue empties is forgotten by the next turn and left running by stop |
| `AssistSessions.NoLateTask` | custom_components/voip_stack/assist_runtime.py:407-428 | a closed session gains a task in a run if and only if speech is reported to it |
| `AssistSessions.CommitIsAtomic` | custom_components/voip_stack/assist_runtime.py:177-191 | in every run the committed updates form a chain from contract to contract; the contract in force is the last of it, and codecs, converters, directions and, until the other end is heard, the port are all its own |
| `AssistSessions.ContractRules` | custom_components/voip_stack/assist_runtime.py:166-191 | in every state of every run the session receives and sends if and only if the direction of the contract in force lets it and, for sending, the call is not held; decoder, encoder and both converters are of its formats |
| `AssistSessions.UpdatesExactly` | custom_components/voip_stack/assist_runtime.py:146-191 | when an update is prepared and when it commits, each if and only if; the source is forgotten if and only if host, port or received format changed |
| `AssistSessions.PacketIsFollowed` | custom_components/voip_stack/assist_runtime.py:277-284 | an open session follows a packet of its source, or of any while it has none, to its port, and no other |
| `AssistSessions.SourceIsKept` | custom_components/voip_stack/assist_runtime.py:171-188 | a latched source stays latched in every run unless a committed update moves the other end or changes the format received |
| `AssistSessions.NeverAfterStop` | custom_components/voip_stack/assist_runtime.py:177-179 | no run after stop has begun changes the contract |
| `AssistSessions.StepOnward` | custom_components/voip_stack/assist_runtime.py:146-193 | replaced contracts stay replaced if and only if every prepared update brings a new contract object |
| `AssistSessions.OneCommitPerContract` | custom_components/voip_stack/assist_runtime.py:177-193 | of updates prepared from one contract at most one commits, in any run |
| `AssistSessions.SameObjectCommitsTwice` | custom_components/voip_stack/assist_runtime.py:180-181 | the precondition is needed: an update that brought the session's own contract object would leave others free to commit |
| `AssistSessions.SpeechIsKept` | custom_components/voip_stack/assist_runtime.py:437-451 | speech is cut into whole frames that join to the speech and less than a frame of silence |
| `AssistSessions.StreamTts` | custom_components/voip_stack/assist_runtime.py:430-451 | the frames are the same for every chunking of the speech, and stop at the chunk that finds the session closed |
| `AssistSessions.AssistMediaSession.CommitUpdate` | custom_components/voip_stack/assist_runtime.py:177-191 | commits an update, or raises and changes nothing |
| `AssistSessions.AssistMediaSession.FinishStart` | custom_components/voip_stack/assist_runtime.py:203-215 | publishes transport and tasks, or closes the socket when stop won the race |
| `AssistSessions.AssistMediaSession.FinishAsking` | custom_components/voip_stack/assist_runtime.py:464-467 | after the pipeline has run the turn waits for its speech, for the queue if that has ended, or for nothing if it has none |
| `AssistSessions.AssistMediaSession.LoopHead` | custom_components/voip_stack/assist_runtime.py:524-526 | a closed session leaves the loop, an open one forgets the speech task and asks again |
| `AssistSessions.AssistMediaSession.BeginStop` | custom_components/voip_stack/assist_runtime.py:229-237 | closes the session and cancels every task in its slots but the caller |
| `AssistSessions.AssistMediaSession.FinishStop` | custom_components/voip_stack/assist_runtime.py:247-255 | closes the transport and releases the reservation |
| `DialPlans.UniqueKeepsFirst` | custom_components/voip_stack/dial_plan.py:110-117 | every URI is kept once, by the first row that has it |
| `DialPlans.RowSays` | custom_components/voip_stack/dial_plan.py:71-109 | what a Contact must be, with each error if and only if, and that its own transport comes before the URI's and UDP last |
| `DialPlans.RowsInOrder` | custom_components/voip_stack/dial_plan.py:71-109 | a list is read row by row, or fails with its first Contact that is not well-formed |
| `DialPlans.SameInLowerCase` | custom_components/voip_stack/dial_plan.py:110-117 | URIs count as the same if and only if they differ in the case of letters at most |
| `DialPlans.ContactRowsAreRanked` | custom_components/voip_stack/dial_plan.py:71-118 | the rows are exactly the first Contact of every URI, each URI once, highest q first and equal ones by URI |
| `DialPlans.CandidateInjective` | custom_components/voip_stack/dial_plan.py:147-147 | a candidate id tells its endpoint and its number |
| `DialPlans.DecimalReads` | custom_components/voip_stack/dial_plan.py:147-147 | the number in a candidate id is written in decimal and reads back |
| `DialPlans.RejectedIffEndpointShared` | custom_components/voip_stack/dial_plan.py:157-158 | a plan is rejected if and only if two members that bring a Contact share an endpoint id |
| `DialPlans.PlanIsExactlyTheContacts` | custom_components/voip_stack/dial_plan.py:130-159 | an accepted plan holds exactly the contributing members' Contacts, each once, sorted by tier and order |
| `DialPlans.WhoContributes` | custom_components/voip_stack/dial_plan.py:125-139 | a member contributes its Contacts if and only if it names an enabled entry other than the one excluded, at the tier of its policy or zero |
| `DialPlans.BranchSays` | custom_components/voip_stack/dial_plan.py:140-155 | which endpoint, Contact and member a branch rings, where, at which tier and in which order |
| `Ordering.StringsCompare` | custom_components/voip_stack/dial_plan.py:118-118 | strings compare at the first character in which they differ; a beginning comes first |
| `DialPlans.PlanFollowsQ` | custom_components/voip_stack/dial_plan.py:140-159 | in an accepted plan, of two branches of one endpoint a strictly higher q is in a strictly lower tier and comes strictly earlier, an equal q is in the same tier in order of URI, and no URI comes twice (section 16.6 of RFC 3261) |
| `DialPlans.PlanTiersAreDense` | custom_components/voip_stack/dial_plan.py:140-159 | in an accepted plan the tiers of an endpoint start at its member's base and leave none out |
| `DialPlans.OrdersAreDistinct` | custom_components/voip_stack/dial_plan.py:154-154 | orders are distinct if and only if no member's Contacts reach into a later contributor's thousand |
| `DialPlans.ReadContactRows` | custom_components/voip_stack/dial_plan.py:71-118 | the loops compute the ranked rows or the first error |
| `DialPlans.BuildSipContactTargets` | custom_components/voip_stack/dial_plan.py:121-159 | building member by member gives the plan |

## Left out

- RegistryClaims.FinishFreesItsOwn: `pop` releases under the cleaned id, so a session stored under a padded id may keep its claims; the contract says under which id they are released.
- RegistryTerminations.OneBeginPerSession: asks that the session's id carries no surrounding white space, since the memory holds cleaned ids; `RegistryTerminations.BeginExactly` holds for every id.
- RegistryTerminations.SecondBeginExactly: asks the same.
- AssistSessions.StreamTts: stops at the frames handed to the converter; what a converter makes of frames is `PcmConversion.PcmFrameConverter.Convert`.
- The mode with a bound session owner: `publish`, `remove` and every call into the owner. The model assigns generations itself, as `upsert` does without an owner.
- Aliasing of `CallSession` and `CallLeg` objects: sessions are values in the registry's map, so a caller that keeps one and changes it from outside is not modelled.
- `record_route`, `bind_controller` and the other operations that only stamp a session: one operation that gives a session a new revision stands for them. `pending_invites`, `pending_routes`, `preanswered`, `video_parameter_sets`, the terminal summary and the contents of event payloads are not modelled.
- Durations, `connected_at` and the route history of event contexts.
- Rebinding the endpoint registry while calls are active, and endpoints that the registry no longer knows: the registry is a map from endpoint to holder with the documented contract, fixed when the object is made. The operations for a phone's reports also stand for other components that claim or release an endpoint directly.
- The endpoint registry looks ids up case-folded (endpoint_registry.py:105, 222). The model uses the stripped id for both, so two spellings of one endpoint in a call's claims are two endpoints here.
- Kernel values, filter quality and rounding of the resampling sum: the kernel is an arbitrary sequence and samples are reals. The codec's scalings are powers of two, which the program's floats represent exactly.
- The resampler's constructor asks for blocks that become whole output blocks; its only caller has just checked that.
- RTP parsing, payload codecs, SDP, SIP URI parsing, `find_entry` and socket binds: their results are parameters of the steps that use them. A socket send succeeds or fails.
- Identifiers are lower-cased in ASCII in the dial plan, and member keys arrive stripped and lower-cased. `RingPolicy.from_metadata` is not modelled beyond its promise that tiers are not negative.
- The event a deadline emits passes through `event_fields`, which would be one more registry step; timeouts and sleeping are the order of the steps.
- The manager of conference rooms, announcements to browsers, inactivity detection and the pacing of mixer ticks: a tick is a frame taken from each leg, a mix, and frames emitted.
- What the Assist pipeline does within a turn, voice activity detection, the sender's pacing and wall-clock time. An update's codecs and converters are identified with the formats they are built for.
- `CallRegistry` has no method for attaching and taking relays, clients, watchers and media, or for writing the bridge table alone: these are single table updates and appear as operations of the state machine only.
