# Verified model of the Quay builder

The Quay builder is a worker that runs one container build. It registers a job with the build
manager, keeps a heartbeat going, unpacks the build package, pulls the base image, primes the
cache, builds, tags and pushes, and forwards the Docker daemon's output to the manager as numbered
log entries. This project models the hand-written logic of that worker and proves what it
guarantees in every run.

## How it is modelled

- **The outside world** (`Outside.dfy`). Every request the worker makes is an event in a trace. The
  answer to the n-th event is `env.x(n)`, an arbitrary function of the position. A statement about
  all `env` therefore covers every behaviour of the manager, the container runtime and the byte
  streams in one run, adaptive ones included. `log.Fatalf` is the outcome `Halted`; statements about
  every position of a trace hold in particular for a run that ends there.
- **Programs and what they compute.** The client, the partial buffer, the log writer, the build
  context and the supervised command are classes whose methods change their fields. Each method is
  proved equal to a function named `...Result` (or `Turns`, `Next`) of the state before the call,
  and the theorems are about those functions.
- **Bytes** (`JsonScanner.dfy`, `JsonGrammar.dfy`, `JsonSoundness.dfy`, `JsonViability.dfy`). The
  streaming decoder is a pushdown scanner for the whole grammar of RFC 8259.
  `JsonSoundness.ObjectsExactly` shows that it completes an object exactly where the grammar has one,
  and `JsonViability.DecoderExactly` that it waits exactly as long as some continuation would make a
  value and gives up as soon as none would, so nothing rests on the scanner's code.
  Reading the fields of a complete object (`env.decode`) and writing a record (`env.marshal`) are
  arbitrary functions.
- **Framing** (`Framing.dfy`) says how a buffer splits into complete values and a remainder, and how
  that split behaves when the bytes arrive in pieces.
- **Whole runs** (`Trace`, `Soundness`, `Retries`, `Stages`, `Finish`, `Runs`, `Theorems`, and for
  single questions about them `OwnStream`, `CacheTag`, `Tolerance`, `NonInterference`). A
  container request is *clean* if the runtime reported no error and no complete error object ended
  in the bytes it wrote. That notion is defined from the trace and the streamed bytes alone; the
  writer's fields do not occur in it. It counts an object by where it ends in all the bytes streamed
  so far, as the writer does. So after a stream that was cut off inside a value a clean request is
  not always one whose own stream, taken alone, holds no error object; `OwnStream.dfy` says exactly
  when it is.
- **The protocol of a run** (`Protocol.dfy`) is a second account of a whole run, independent of the
  first: an automaton that reads a trace and says, field by field, what the next request is and where
  each answer leads. `Protocol.RunFollowsProtocol` shows that every run makes exactly these requests
  and ends with the outcome of the automaton.
- **Goroutines** (`Heartbeat.dfy`, `IdleSupervisor.dfy`) are modelled as atomic steps under an
  arbitrary schedule.

## Findings

Some properties that one would expect are false of the code. Each has a concrete witness, and where
it matters the exact condition.

- What a write leaves in the partial buffer depends on where the stream was cut
  (`Framing.LeftoverDependsOnCuts`): whitespace left alone at the end of a write is dropped. The
  values, their order and the recorded error never depend on it, and the leftover is the same byte
  for byte exactly if no cut falls in that whitespace (`Framing.ChunkInvariance`).
- A bare number at the top level is not self-delimiting, so whether the process ends can depend on
  the cuts (`Framing.NumbersDependOnCuts`); `Framing.ChunkInvariance` has the exact condition.
- The partial buffer survives a failed attempt, so a retry is not always judged by its own stream.
  After a stream that was cut off inside a key, a complete object is malformed and ends the process
  (`OwnStream.RetryHaltsAfterCutOff`). After one that was cut off behind a colon every object is
  swallowed, and the retry succeeds even if its whole stream is one error object
  (`OwnStream.RetrySwallowsError`). A request is judged by its own stream, whatever that stream is,
  exactly if the bytes streamed before it end on a value boundary (`OwnStream.OwnStreamExactly`); then
  retries and whole runs are decided by the attempts' own streams
  (`OwnStream.RetryDecidedByOwnStreams`, `OwnStream.RunJudgedByOwnStreams`).
- The comments in `containerclient/docker_log_writer.go` describe throttling of progress messages.
  `shouldSkip` has a value receiver, so what it remembers is lost and nothing is ever skipped;
  `DockerRPCWriter.Write` is proved to send every message that is not an error.
- After a kill for idleness the goroutine that copies the output can be left blocked for good
  (`IdleSupervisor.KillCanStrandTheWriter`). After any return it is blocked exactly if two of its
  notifications had not been received (`IdleSupervisor.StrandedExactly`), and nothing unblocks it
  (`IdleSupervisor.StrandedForever`).
- The cached image's removal is requested once, unless the base image or the built image has the
  very same name (`Theorems.CachedImageRemovals`); a build from one of its own images asks for it
  twice (`CacheTag.RemovalRequestedTwice`).

## Model

| member | source | states |
|---|---|---|
| JsonScanner.PrefixIsPending | containerclient/docker_log_writer.go:67-81 | no proper prefix of a complete value is complete, and none is an error, so an object split over writes always waits for the rest |
| JsonGrammar.CharacterClasses | containerclient/docker_log_writer.go:61-69 | the character classes, structural characters and literal names of the decoder are those of RFC 8259 |
| JsonGrammar.ObjectIsComplete | containerclient/docker_log_writer.go:67-69 | every object that RFC 8259 allows is read as complete at its last byte and as unfinished before it |
| JsonSoundness.ObjectsExactly | containerclient/docker_log_writer.go:67-89 | the decoder completes an object after n bytes if and only if those n bytes are the text of an object of the grammar |
| JsonViability.DecoderExactly | containerclient/docker_log_writer.go:67-89 | for every buffer that does not begin with a number: the decoder hands out the value the buffer begins with, if the grammar has one; waits if some continuation would begin with one; gives up if none would |
| Framing.FramesAppend | containerclient/docker_log_writer.go:53-81 | the values of a + b are those of a, then those of what a left over joined with b; the remainder and the failure are those of the second part |
| Framing.FramesAfterHalt | containerclient/docker_log_writer.go:82-89 | after a decode error more bytes yield no further value; only a bare number can turn back into an unfinished one |
| Framing.ChunkInvariance | containerclient/docker_log_writer.go:53-89 | for every byte string and every way of cutting it the framed values are those of the whole; the decision to stop and the leftover agree too, each exactly under a stated condition on the cuts |
| DockerLogWriter.CutsDoNotMatter | containerclient/docker_log_writer.go:48-112 | for a writer in any state, every stream and every way of cutting it into writes: requests sent, counters and recorded error are those of one single write, always; whether the process ends and the final state of the writer agree too, each exactly under a stated condition on the cuts |
| Framing.LeftoverDependsOnCuts | containerclient/docker_log_writer.go:67-81 | a stream and a cut for which the partial buffer differs from that of a single write |
| Framing.NumbersDependOnCuts | containerclient/docker_log_writer.go:61-89 | a stream and a cut for which only the pieces end the process |
| JsonGrammar.PrintedStreamRoundTrip | containerclient/docker_log_writer.go:53-81 | objects printed with any whitespace between them and cut anywhere are recovered one by one, in order, with nothing left over |
| RoundTrip.MessagesRoundTrip | containerclient/docker_log_writer.go:61-109 | messages printed as objects and written in any pieces: the entries sent are those of the non-error messages in order, the error kept is the last one, the partial buffer ends empty; a prefix of the entries if a send fails |
| OwnStream.HarmlessExactly | containerclient/docker_log_writer.go:53-81 | what a stream leaves unfinished makes no difference to the values of any later stream if and only if it is blank |
| OwnStream.OwnStreamExactly | buildctx/context.go:172-194 | a request completes just the values of its own stream, whatever it is answered, if and only if the bytes streamed before it end on a value boundary |
| OwnStream.CleanByOwnStream | buildctx/context.go:177-178 | after a value boundary a request is clean if and only if the runtime reported no error and its own stream holds no error object |
| OwnStream.RetryDecidedByOwnStreams | buildctx/context.go:172-194 | if every attempt starts on a value boundary, a retried request succeeds if and only if an attempt had no error from the runtime and none in its own stream |
| OwnStream.RunJudgedByOwnStreams | buildctx/context.go:172-194 | the same for every request of every run: what it completes, and whether it is clean, after a value boundary |
| OwnStream.RetryAfterCutOff | buildctx/context.go:172-194 | for every unfinished value kept from a failed attempt and every next stream: the process ends if the decoder gives up on the joined bytes, and the retry succeeds if it does not and they hold no complete value |
| OwnStream.CutOffStreamSpoilsTheNext | containerclient/docker_log_writer.go:51-55 | an input: a stream cut off inside a key, after which a complete object is malformed |
| OwnStream.CutOffStreamSwallowsTheNext | containerclient/docker_log_writer.go:51-55 | an input: a stream cut off behind a colon, after which every value of the grammar is swallowed |
| OwnStream.RetryHaltsAfterCutOff | buildctx/context.go:172-194 | an input: after the first of these cuts a retry ends the process although its own stream is one complete object |
| OwnStream.RetrySwallowsError | buildctx/context.go:172-194 | inputs: after the second of these cuts a retry succeeds although its own stream is one error object, for every error object |
| DockerLogWriter.PartialBuffer.Set | containerclient/docker_log_writer.go:28 | the buffer holds just the given bytes |
| DockerLogWriter.PartialBuffer.GetAndEmpty | containerclient/docker_log_writer.go:30-36 | returns the kept bytes followed by the new ones and keeps none |
| DockerLogWriter.DockerRPCWriter.Write | containerclient/docker_log_writer.go:48-112 | reports the whole length as written; delivers value after value, records errors, sends every other message (the filter never skips), keeps an unfinished tail, stops on a malformed one |
| DockerLogWriter.DockerRPCWriter.ErrResponse | containerclient/docker_log_writer.go:116-125 | hands out the recorded error, if any, and forgets it |
| DockerLogWriter.DockerRPCWriter.ResetError | containerclient/docker_log_writer.go:128-130 | forgets the recorded error and changes nothing else |
| DockerLogWriter.DockerRPCWriter.WriteAll | containerclient/docker_client.go:90-104 | the container client's writes, one per piece, stopping when a write ends the process |
| DockerLogWriter.StreamIsProcessed | containerclient/docker_log_writer.go:48-112 | any number of writes does what delivering the framed values in order does, and leaves the framed remainder |
| GrpcBuild.GrpcClient.RegisterBuildJob | rpc/grpcbuild/grpcbuild.go:58-97 | sets the job token, also when the package type is unknown and an error is returned |
| GrpcBuild.GrpcClient.SetPhase | rpc/grpcbuild/grpcbuild.go:99-139 | advances the phase counter before sending, never moves it back, succeeds only on an accepted reply that echoes the number |
| GrpcBuild.GrpcClient.FindMostSimilarTag | rpc/grpcbuild/grpcbuild.go:141-162 | asks with the job token and passes tag or error on |
| GrpcBuild.GrpcClient.PublishBuildLogEntry | rpc/grpcbuild/grpcbuild.go:164-195 | advances the log counter, keeps it on success and on end of stream, moves it back on any other send error; the acknowledgement changes nothing |
| GrpcBuild.PhasesKeepOrder | rpc/grpcbuild/grpcbuild.go:249-270 | the nine phases cover the seven wire phases in the same order, and only the two cache phases share a value, that of pulling |
| GrpcBuild.PhaseHistory | rpc/grpcbuild/grpcbuild.go:99-122 | the k-th phase update of any history sends number k, accepted or not |
| GrpcBuild.AcceptedWhileNumberFits | rpc/grpcbuild/grpcbuild.go:103-136 | against an echoing, accepting manager an update succeeds exactly while its count is at most 2^31-1 |
| GrpcBuild.SameWireNumber | rpc/grpcbuild/grpcbuild.go:164-172 | two counter values have the same 32-bit number exactly if they differ by a multiple of 2^32 |
| Trace.DeliverFacts | containerclient/docker_log_writer.go:91-108 | after delivering values the last error among them is recorded, just their entries were sent in order, and the counters match the trace |
| Trace.DeliverStops | containerclient/docker_log_writer.go:82-108 | delivery ends the process if and only if a value cannot be decoded or marshalled or a send fails, and requests nothing after a failed send |
| Soundness.RequestKeeps | buildctx/context.go:177-178 | a streaming request keeps writer, counters and trace in step and records exactly the last error its own bytes completed |
| BuilderProgram.Request | containerclient/docker_client.go:90-120 | one streaming container request: its event, its writes, its error |
| BuilderProgram.RetryDockerRequest | buildctx/context.go:172-194 | up to three attempts, each after forgetting earlier errors; every attempt number is below three when the loop is entered, so the statement after the loop is dead |
| Retries.RetryFacts | buildctx/context.go:172-194 | stops at the first clean attempt; otherwise fails after the third with the runtime's error if there was one and else with the last error object of that attempt; no error is left recorded |
| Theorems.RetryDecidedByStream | buildctx/context.go:172-194 | a retried request succeeds if and only if an attempt was clean; one to three attempts, none after a clean one |
| Theorems.FailsAfterThree | buildctx/context.go:172-194 | a retried request is made once, twice or three times; it fails only after exactly three attempts of which none was clean |
| Theorems.PushFailsAfterThree | buildctx/context.go:302-332 | tagging and pushing a name fails with the tag's error and no push, or after exactly three pushes of this name, in this repository and with these credentials, of which none was clean |
| Retries.PushFacts | buildctx/context.go:293-335 | the push loop's requests exactly; if it stops at name k, the names before k were tagged and pushed cleanly in order, k was tried zero or three times, and no later name was touched |
| BuilderProgram.Context.constructor | buildctx/context.go:42-57 | a fresh context with a fresh writer for the given client |
| BuilderProgram.Context.Unpack | buildctx/context.go:60-84 | phase, download, parse, in this order, stopping at the first error |
| BuilderProgram.Context.PullBaseImage | buildctx/context.go:226-262 | no pull for scratch; otherwise a retried pull, with credentials only in our own registry |
| BuilderProgram.Context.Pull | buildctx/context.go:87-99 | phase, then the base image |
| BuilderProgram.Context.FindCachedTag | buildctx/context.go:264-291 | the image id is fixed for scratch and inspected otherwise; then the manager is asked |
| BuilderProgram.Context.PrimeCache | buildctx/context.go:196-224 | a retried pull of the cached tag |
| BuilderProgram.Context.Cache | buildctx/context.go:103-131 | never fails; sets the cache tag exactly after a successful pull |
| BuilderProgram.Context.ExecuteBuild | buildctx/context.go:392-428 | one build request, using the cached image if there is one; API error first, stream error second |
| BuilderProgram.Context.Build | buildctx/context.go:134-152 | phase, build, and removal of the build directory on every return after the phase was accepted |
| BuilderProgram.Context.PushOne | buildctx/context.go:295-335 | tag, check, retried push |
| BuilderProgram.Context.PushBuiltImage | buildctx/context.go:293-348 | every name in list order up to the first failure, then an inspection |
| BuilderProgram.Context.Push | buildctx/context.go:156-168 | phase, then all names |
| BuilderProgram.Context.Cleanup | buildctx/context.go:351-390 | requests every removal whatever the answers, and never fails |
| BuilderProgram.Context.Run | cmd/quay-builder/main.go:106-160 | the stages in order up to the first failure, then heartbeat stop, completion, cleanup |
| BuilderProgram.RegisterAndBuild | cmd/quay-builder/main.go:83-101 | a failed registration ends the process after that one request; otherwise the run follows the protocol for the token and the arguments of the answer |
| Protocol.RunFollowsProtocol | cmd/quay-builder/main.go:106-160 | every run makes exactly the requests of the protocol, in its order and field by field, for every answer; unless a stream ends the process it ends with the outcome of the protocol |
| Stages.UnpackExactly | buildctx/context.go:60-84 | returns if and only if the phase was accepted and download and parse succeeded; then directory and metadata are theirs; otherwise the error of the first step that failed, and no request after it |
| Stages.FindTagFacts | buildctx/context.go:264-291 | the stream-error check after the inspection never fires: if the inspection succeeds the manager is asked with the image's id, and its answer is the answer; nothing is streamed |
| Stages.CacheFacts | buildctx/context.go:103-131 | the cache stage reports one or two phases, makes at most three pulls, and sets the tag only by a clean pull of that tag that was its last |
| Theorems.CacheTagMeansPulled | buildctx/context.go:118-128 | the cache stage sets the tag if and only if a pull of the stage was clean, and that pull was of this tag |
| CacheTag.CacheTagOfRun | buildctx/context.go:103-131 | in every run: no tag unless the run gets past the cache stage; then a tag if and only if a pull of that stage was clean, of this very tag; and the build request uses just the image of the tag, or none |
| Finish.BuildFacts | buildctx/context.go:134-152 | a build stage that returns was preceded by one clean build request with its own parameters |
| Finish.InspectionAfterPush | buildctx/context.go:337-347 | the stream-error check after the last inspection never fires: what the inspection says is the answer |
| Finish.PushStageFacts | buildctx/context.go:156-168 | a push stage that returns has tagged and pushed every name cleanly in list order |
| Finish.CompleteFacts | cmd/quay-builder/main.go:144-157 | the last events of a run, exactly: heartbeat stop, completion, and only if that was accepted the removals |
| Theorems.CompletionSafety | cmd/quay-builder/main.go:106-160 | in every run, at every position: completion is reported only after a download and a parse that succeeded, then a clean base pull (or scratch), then a clean build in that directory, then the built image tagged with and pushed under every name, cleanly and in order, then the heartbeat stop; removals only after completion was accepted; every request with its fields |
| Theorems.HaltsExactly | containerclient/docker_log_writer.go:82-108 | a run ends the process if and only if a send failed, a streamed value could not be decoded or marshalled, or the decoder gave up; nothing is requested after a failed send, and no entry is sent for an unreadable value or a later one |
| Theorems.PhaseProtocol | rpc/grpcbuild/grpcbuild.go:99-122 | at most seven phases, starting at UNPACKING, never back, never skipping, never ERROR; the k-th carries number k and the job token |
| Theorems.TransferBound | buildctx/context.go:170-335 | at most six pulls and three pushes per name in a run |
| Theorems.LogProtocol | rpc/grpcbuild/grpcbuild.go:164-180 | the entries of a run are those its bytes call for, a prefix if it was cut short; each carries the token and one more than the number of earlier sends that did not fail |
| Theorems.EndToEndNumbering | rpc/grpcbuild/grpcbuild.go:164-172 | as long as every earlier send was delivered, message k carries number k and the k-th entry of the byte stream, however it was cut and whatever happens to this send and later ones |
| Theorems.NoStaleErrors | buildctx/context.go:419-425 | no stage starts with an error recorded by an earlier one |
| Theorems.BuildErrorIsItsOwn | buildctx/context.go:408-425 | a build that fails without an API error fails with the last error object that ended in its own bytes |
| Theorems.CachedImageRemovals | buildctx/context.go:351-390 | how often the cached image's removal is requested, for every run |
| CacheTag.RemovalRequestedTwice | buildctx/context.go:351-377 | an input: a run in which the base image is the cached image and its removal is requested twice |
| Tolerance.CachePhasesTolerated | buildctx/context.go:103-131 | against a manager that accepts only later phases no run fails by a phase update, an update is accepted if and only if it is later than all before, the cache phases are turned down, and the counter stays in step |
| NonInterference.AlikeFinish | cmd/quay-builder/main.go:131-160 | two builders that agree when Building starts and are answered alike make the same requests and end alike, up to the phase shift |
| NonInterference.CacheNonInterference | buildctx/context.go:103-131 | whatever happens in the cache stage, if it sets no tag and leaves the same unfinished bytes, the rest of the run is the same up to a phase-number shift of at most one |
| NonInterference.RunNonInterference | buildctx/context.go:103-131 | two whole runs of one job, answered alike except in the cache stage, that set no tag there and whose streams up to its end stop on a value boundary, are the same from Building on up to that shift |
| Heartbeat.Loop | rpc/grpcbuild/grpcbuild.go:197-247 | the heartbeat loop: its counter is three less the negative replies since the last positive one, and the fatal exit is taken exactly at the first uncancelled turn after the third |
| Heartbeat.CounterIsNegatives | rpc/grpcbuild/grpcbuild.go:198-242 | while the loop runs the counter is three less those replies and stays within 0 and 3 |
| Heartbeat.FatalExactly | rpc/grpcbuild/grpcbuild.go:210-212 | the fatal exit in terms of the replies alone, both directions |
| Heartbeat.StoppedExactly | rpc/grpcbuild/grpcbuild.go:207-224 | the quiet exit in terms of cancellation and the end of the reply stream, both directions |
| Heartbeat.OneHeartbeatATurn | rpc/grpcbuild/grpcbuild.go:214-246 | while the loop runs every turn sends one heartbeat, and all but the negative replies are followed by a pause |
| Heartbeat.StopsSoon | cmd/quay-builder/main.go:144-145 | from the stop on the loop takes at most four more steps, however the build's steps fall between them |
| Heartbeat.ErrorsAreHarmless | rpc/grpcbuild/grpcbuild.go:214-229 | without negative replies no sequence of send and receive errors is fatal |
| Heartbeat.RegistrationSetsToken | rpc/grpcbuild/grpcbuild.go:58-97 | registration succeeds if and only if the manager answers and the package type is known; then the arguments are the answer's; the token is set by every answer; counters at zero |
| Heartbeat.Interleavings | cmd/quay-builder/main.go:83-98 | in every interleaving of build and heartbeat every request carries the registered token, the build's requests are made in its order, every turn sends one heartbeat and at most one is sent after the stop, and if the process ends before the build the heartbeat stream could not be opened or the loop met its fatal turn |
| IdleSupervisor.Command.WriterStep | buildpack/buildpack.go:293-297 | append first, then notify when the channel has room |
| IdleSupervisor.Command.SelectStep | buildpack/buildpack.go:358-378 | one turn of the select loop on any of its branches |
| IdleSupervisor.Command.Run | buildpack/buildpack.go:339-379 | any schedule of both goroutines and the clock |
| IdleSupervisor.Accounting | buildpack/buildpack.go:288-297 | writes not yet notified are the one in the channel and the one being sent, at most two; a normal return hands back all that was written; turns are at most writes plus one |
| IdleSupervisor.NotificationsInOrder | buildpack/buildpack.go:293-297 | notifications arrive in the order of the writes, each with its write's error, and the supervisor goes on exactly while they report none |
| IdleSupervisor.ReturnsExactly | buildpack/buildpack.go:356-378 | what the supervisor returns, if and only if: after three minutes without a notification, after the command's end with its result, or with the next notification's error; always with all that was written by then |
| IdleSupervisor.KillOnlyWhenIdle | buildpack/buildpack.go:358-373 | a kill is possible if and only if the supervisor still runs and three minutes have passed since the last notification, and if none is outstanding nothing was written in that time |
| IdleSupervisor.NeverStuck | buildpack/buildpack.go:346-378 | before the return a blocked writer finds the supervisor able to receive; after the command's end nothing is blocked and at most one notification is left |
| IdleSupervisor.StrandedExactly | buildpack/buildpack.go:358-378 | after any return the copying goroutine is blocked if and only if two notifications had not been received; never after the command's end |
| IdleSupervisor.StrandedForever | buildpack/buildpack.go:293-297 | once it is blocked nothing but the clock ever moves again |
| IdleSupervisor.KillCanStrandTheWriter | buildpack/buildpack.go:368-373 | an input: a schedule in which a kill leaves it blocked |

## Left out

- JsonScanner.Step: the bound of 10000 on nesting in Go's decoder is not modelled.
- GrpcBuild.PhaseEnum: an unknown phase string, which maps to ERROR, is not modelled; the builder only uses the nine named phases.
- GrpcBuild.PublishResult: the counters are unbounded integers; the wrap of Go's 64-bit `int` is not modelled, the 32-bit narrowing on the wire is.
- BuildContext.ExecuteBuildResult: the build ID is an input; a failure of the random generator is not modelled.
- IdleSupervisor.Command: a piece is appended whole even if its write reports an error; in Go a buffer's write never does.
- The Podman writer and client, which add no error state.
- Dialling, TLS, environment variables, ping, timeouts of single calls, log text.
- Download, extraction and git clone of the build package, and parsing of the Dockerfile; their results are inputs.
- The throttling that the comments of the log writer describe, since the code does not do it.
- The build manager and the container runtime, beyond their answers.
- The two-second sleeps of the heartbeat are counted, not timed.
