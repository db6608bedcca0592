# Verification of the pgEdge Go LLM library's core engines

This project models the parts of the library that hold state, race, count or do
arithmetic, and proves what they keep. Each module is named after the component it
models. `dafny verify dfyconfig.toml` checks all of it.

| file | models |
|---|---|
| `blocks.dfy` | the fold from stream chunks to content blocks: `ThinkingAccumulator` and the local state of `Collect` |
| `stream_race.dfy` | the producer goroutine, `Recv` and `Collect` as interleaved steps over every schedule |
| `stream.dfy` | `Recv` and `Collect` as the source writes them, the scheduler choosing at every `select` |
| `sse.dfy` | `writeSSE`, its event trace and its mirrored accumulator |
| `anthropic_stream.dfy`, `anthropic_agreement.dfy` | the Anthropic stream producer and parser, and when streaming agrees with parsing |
| `half.dfy` | the float32 to binary16 encoder, against IEEE 754-2019 sections 3.4, 4.3.1 and 7.4 |
| `openai_adapt.dfy` | the OpenAI request that adapts to rejections, against an adversarial server |
| `anthropic_adapt.dfy`, `anthropic_calls.dfy` | the Anthropic one, alone and with any number of concurrent calls and their history |
| `hardcancel.dfy` | the hard-cancel watchdog, connection deliveries, cancellation and release, interleaved |
| `retry.dfy` | the retrying transport: attempts, waits, hook events, and what is closed and cancelled |
| `limited_body.dfy` | the size-limited response body and the two ways it is read |
| `decisions.dfy` | decision validation, and matching and converting the answers |
| `messages.dfy`, `openai_wire.dfy` | the two OpenAI encoders, read back from the wire |
| `gemini.dfy` | the Gemini encoder with its threaded tool names, and replies replayed as history |
| `ollama_text.dfy` | think-block removal, JSON extraction, and the embedding truncations |
| `redact.dfy` | the fragment pass of the redactor |
| `word_arithmetic.dfy` | powers of two, shifts and masks, for the encoder |
| `common.dfy` | `Option`, one fold, facts about sequences and sets |

## Where the code and its description part

The lemmas named say exactly when the code does what is expected of it, or give a run
on which it does not.

- `Collect` returns every chunk and the producer's own error under every schedule
  exactly when the producer reports no error, or one that neither wraps `io.EOF` nor
  follows a done chunk. Otherwise the error can be lost
  (`StreamRace.FaithfulIffRaceFree`, `StreamRace.DoneCanHideTheError`).
- Streaming an Anthropic response gives the parsed content exactly when the response
  is clean: no empty or adjacent text blocks, no redacted block without data, and no
  unknown block that streams arguments where a tool use can take them up. A server-side
  tool's `input_json_delta` ahead of a tool use is put in front of that tool's arguments
  (`AnthropicAgreement.StreamingAgreesIffClean`, `UnknownBlockCorruptsNextTool`).
- `writeSSE` promises every reader a terminator. Without a producer error it writes none
  exactly when some chunk up to the first done chunk cannot be marshalled; when all can
  there is exactly one, under every schedule (`Sse.TerminatedIffMarshalled`,
  `Sse.ATerminatorCanBeMissing`). Unlike `Collect` it does not drain buffered chunks on
  an error, so what it returns with one is a prefix.
- After `Collect` has returned early, the producer can finish exactly when the chunks not
  taken fit the channel; otherwise it stays blocked in a send, and the response body open
  (`StreamRace.ProducerFinishesIffRestFits`,
  `StreamRace.ChunksAfterDoneCanBlockTheProducer`).
- The retry backoff follows initial, then min(initial * 2^k, max), exactly while the
  waits stay under 2^62 ns; doubling a longer one wraps. The first wait is not capped
  (`Retry.WaitsFollowTheProgressionIff`, `Retry.EveryWaitFollowsTheProgressionIff`).
- `release` does not by itself keep the watchdog from closing a connection: both arms
  of its `select` may be ready, and it may already have taken the context's. A close
  can follow exactly in the armed states (`HardCancel.CloseAfterReleaseIffArmed`).
- `stripThinkTags` may leave an opening tag. It does, and running it again changes the
  text, exactly when the text before some block ends in the start of a tag which what
  is shown after the block finishes (`OllamaText.StrippingAgainIff`,
  `OllamaText.ATagCanBeLeft`).
- Both OpenAI encoders drop tool calls outside assistant messages and tool results
  outside user and tool messages; they carry all of them exactly when there are none
  such (`OpenAIWire.EveryCallAndResultIsToldIff`).
- A failed result is wrapped so that it cannot look like a success. On the wire it still
  can, exactly when the success's own text is that same error object
  (`OpenAIWire.SuccessLooksLikeFailureIff`).
- A positive Retry-After is waited exactly while it fits a signed 64-bit duration; a
  longer one wraps (`Retry.DeltaSecondsAreWaitedIff`).
- A Gemini tool result for a generated ID recovers the function's name exactly when the
  last block that uses that ID, if any, calls that function
  (`Gemini.GeneratedNamesAreRecoveredIff`).
- Score levels are meant to be matched by their integer index, but a JSON `null` decodes
  to index 0. They are matched so exactly when no null entry overrides the lowest level's
  own (`Decisions.ScoreMatchesIntegersIff`, `Decisions.NullAnswerIsUsable`).

## Model

| member | source | states |
|---|---|---|
| Blocks.FoldKeepsAtMostOneOpen | llm/stream.go:207-257 | after any chunks in any order, at most one of text, tool and thinking is open |
| Blocks.SplitDeltaKeepsResponse | llm/stream.go:231-257 | cutting any delta chunk of any stream in two leaves the response unchanged |
| Blocks.FragmentationInvariance | llm/stream.go:231-257 | streams that differ only in how their deltas are cut collect to the same response |
| Blocks.ResponseConservesBytes | llm/stream.go:207-257 | for a well-formed stream the response holds exactly the text, tool, thinking and signature bytes of the chunks, in order |
| Blocks.ToolBytesConservedUpToTail | llm/stream.go:213-220 | for every stream text is conserved, and tool bytes up to those after the last tool |
| Blocks.StrayDeltaPrefixesNextTool | llm/stream.go:213-220 | a stray tool delta ends up in front of the next tool's arguments |
| Blocks.ThinkingAccumulator.Flush | llm/stream.go:125-139 | gives the block in progress, redacted when it has data, and resets |
| Blocks.ThinkingAccumulator.Add | llm/stream.go:102-120 | takes a thinking chunk as the fold does, giving back the block a start chunk ends |
| Blocks.Assembler.FlushEverything | llm/stream.go:226-230 | flushes text, tool and thinking in that order |
| Blocks.Assembler.AccumulateChunk | llm/stream.go:231-257 | one chunk's effect on builders, tool, thinking, content and usage is the fold's step |
| StreamRace.StepKeepsInv | llm/stream.go:160-294 | every step of either party keeps the race invariant: the queue is the script between taken and sent, and the accumulator is the fold of what was taken |
| StreamRace.EveryScheduleReturnsAPrefix | llm/stream.go:200-294 | every schedule, cancelled or not, returns the fold of a prefix with an outcome possible for it |
| StreamRace.ScheduleIndependence | llm/stream.go:160-186 | on a race-free script every uncancelled schedule returns the fold of the whole stream and the producer's error |
| StreamRace.FaithfulIffRaceFree | llm/stream.go:259-293 | all uncancelled schedules are faithful if and only if there is no error, or one that wraps no EOF and follows no done chunk |
| StreamRace.DoneCanHideTheError | llm/stream.go:259-293 | a schedule under which a done chunk hides the error after it |
| StreamRace.CancelledIffSeen | llm/stream.go:259-263 | under every schedule `Collect` returns the context's error if and only if the context was done the last time it looked |
| StreamRace.CancelStopsTheConsumer | llm/stream.go:259-263 | once the context is done no new receive is begun: the loop head returns what it has, a receive under way takes at most one more chunk, or an error and its drain |
| StreamRace.CancelledFromTheStart | llm/stream.go:196-199 | with the context done beforehand every schedule returns an empty response and the context's error, nothing taken |
| StreamRace.NextStep | llm/provider/anthropic/anthropic.go:638-641 | no deadlock: until `Collect` returns some party can move |
| StreamRace.CanComplete | llm/stream.go:200-294 | from every reachable state some uncancelled schedule completes |
| StreamRace.SchedulesAreBounded | llm/stream.go:200-294 | no uncancelled schedule is longer than the measure of its start |
| StreamRace.FirstDoneIsUnique | llm/stream.go:231-257 | a prefix that ends at its first done chunk is the stream up to that chunk |
| StreamRace.ProducerFinishesIffRestFits | llm/provider/anthropic/anthropic.go:635-641 | once `Collect` has returned the producer can close both channels if and only if the chunks not taken fit the channel |
| StreamRace.ChunksAfterDoneCanBlockTheProducer | llm/provider/anthropic/anthropic.go:762-776 | a schedule after which it never can: more than a channel's worth of chunks behind a done chunk |
| Streams.Stream.Recv | llm/stream.go:160-186 | returns the next chunk, or the error once all chunks are sent, or EOF once all are taken and there is no error |
| Streams.Stream.Collect | llm/stream.go:200-294 | in every execution the fold of a prefix with a possible outcome; on a race-free script without cancellation the whole stream and the producer's error; with the context already done, its error and nothing taken from the channel |
| Streams.Stream.Drain | llm/stream.go:269-286 | after an error everything still buffered is folded in |
| Streams.Stream.ProducerMoves | llm/provider/anthropic/anthropic.go:638-641 | one producer step keeps the channel invariant, takes nothing back, and closes errors before chunks |
| Sse.WriteSSE | llm/proxy/sse.go:48-158 | for every schedule the events, response and error meet the contract for a prefix of the chunks, and the result says why it stopped there: at that very unmarshallable chunk, on the producer's own error, or because the stream was over |
| Sse.WireAgreesWithResponse | llm/proxy/sse.go:48-158 | any terminator is the only one and the last event; collecting the chunks on the wire gives the response returned |
| Sse.TerminatedIffMarshalled | llm/proxy/types.go:172-188 | under every schedule exactly one terminator when every chunk up to the first done chunk marshals; without a producer error, none if and only if one of them does not |
| Sse.ErrorsAreReported | llm/proxy/sse.go:129-134 | with no done chunk and everything marshalling, an error that wraps no EOF is always returned and written |
| Sse.ATerminatorCanBeMissing | llm/proxy/sse.go:136-140 | a whole bridge that writes no terminator: one chunk, which does not marshal |
| Sse.DataWithTail | llm/proxy/sse.go:120-158 | data events and at most one terminator read back as the chunks they were written from |
| AnthropicStream.ParseChatResponse | llm/provider/anthropic/anthropic.go:552-602 | the parsed content is each known block converted, in order, with the usage and total |
| AnthropicStream.Produce | llm/provider/anthropic/anthropic.go:638-782 | the chunks sent are those of the events up to the first stop, and an error follows exactly on an undecodable event or a failed read |
| AnthropicStream.FragmentEffect | llm/provider/anthropic/anthropic.go:696-755 | however a block is fragmented into events, streaming it has the same effect on the fold |
| AnthropicAgreement.StreamingAgreesIffClean | llm/provider/anthropic/anthropic.go:552-602 | streamed and collected content equals the parsed content if and only if the response is clean; usage always agrees |
| AnthropicAgreement.CollectedStreamEqualsParsedBody | llm/provider/anthropic/anthropic.go:638-777 | end to end, for every clean response, fragmentation, capacity and uncancelled schedule, `Collect` returns the parsed response without error |
| AnthropicAgreement.UnknownBlockCorruptsNextTool | llm/provider/anthropic/anthropic.go:733-739 | an event stream in which an unknown block's arguments end up in front of the next tool's in what is collected, and not in what is parsed |
| HalfFloat.RoundShiftIsNearest | llm/vec/vec.go:109-117 | for every natural m and shift s >= 1 the round and sticky step gives the integer nearest to m / 2^s, ties to even |
| HalfFloat.ShiftAndRound | llm/vec/vec.go:107-118 | the subnormal branch, by division and remainder, gives the integer nearest to mant / 2^shift, ties to even |
| HalfFloat.Float32ToFloat16Bits | llm/vec/vec.go:84-130 | for every float32 the sign is kept, NaN stays NaN, and any other value becomes the nearest binary16, ties to even, infinity included |
| HalfFloat.EncodeNormal | llm/vec/vec.go:119-129 | the same for the normal branch, where the increment may carry into the exponent or into infinity |
| HalfFloat.Float32ToFloat16 | llm/vec/vec.go:73-82 | nil stays nil and every element is encoded in its place |
| HalfFloat.EncodingIsUnique | llm/vec/vec.go:84-130 | the encoding of a non-NaN float32 is the only one rounding to nearest even allows |
| HalfFloat.EncodingIsMonotone | llm/vec/vec.go:84-130 | on non-NaN inputs encoding is monotone |
| HalfFloat.OverflowThreshold | llm/vec/vec.go:101-102 | a value becomes infinity exactly from 65520 up |
| HalfFloat.WidenIsExact | llm/vec/vec.go:84-130 | the reference widening of a finite binary16 keeps its sign and magnitude exactly |
| HalfFloat.WidenThenEncode | llm/vec/vec.go:84-130 | encoding the widening of any non-NaN binary16 returns it |
| OpenAIAdapt.TowardsMedium | llm/provider/openai/adapt.go:155-169 | the search of the level order finds the neighbour towards medium, none for medium |
| OpenAIAdapt.TowardsApproaches | llm/provider/openai/adapt.go:149-169 | a step comes one nearer to medium without crossing it |
| OpenAIAdapt.EffortSentIsFirstAccepted | llm/provider/openai/adapt.go:171-192 | the effort sent is the first unrejected level on the walk to medium, never past it, and empty exactly when unset, omitted, unsupported or rejected all the way |
| OpenAIAdapt.AdjustmentIsFresh | llm/provider/openai/adapt.go:217-245 | a rejection never calls for an adjustment already in force when the request was begun, whatever other calls learn |
| OpenAIAdapt.RejectionIsAnswered | llm/provider/openai/adapt.go:217-245 | after a refused level the next request carries the first unrejected one strictly nearer medium, or none the second time; after a refused effort none; after a refused max_tokens or temperature it lacks just that; after an endpoint refusal it is a Responses request; and exactly that is learned |
| OpenAIAdapt.UnanswerableEndsTheCall | llm/provider/openai/adapt.go:375-384 | a rejection of no such kind, or naming a field of the caller's own, ends the call with nothing learned |
| OpenAIAdapt.LearnedForGood | llm/provider/openai/adapt.go:178-192 | no later request of any call carries what was learned to be refused |
| OpenAIAdapt.OtherParametersStay | llm/provider/openai/openai.go:315-357 | what has not been refused is sent as asked for, other effort levels included |
| OpenAIAdapt.AttemptKeepsInv | llm/provider/openai/adapt.go:367-404 | under any interference no applied key recurs, no call exceeds the send cap, and the last rejection is still learned |
| OpenAIAdapt.EveryCallIsBounded | llm/provider/openai/adapt.go:351-404 | over every run of a call with other calls interfering, sends stay within the cap and all but the last applied a new adjustment |
| OpenAIAdapt.AtMostThirteenFacts | llm/provider/openai/adapt.go:52-71 | the learned state holds at most thirteen facts |
| OpenAIAdapt.LifetimeSendBound | llm/provider/openai/adapt.go:294-340 | n calls one after another make at most 2n + 13 requests, whatever the server answers |
| OpenAIAdapt.AtMostTwoLevels | llm/provider/openai/adapt.go:361-404 | a call run on its own sends at most two distinct effort levels |
| OpenAIAdapt.Client.ReasoningEffort | llm/provider/openai/adapt.go:178-192 | the loop returns the effort of the specification |
| OpenAIAdapt.Client.BuildRequest | llm/provider/openai/openai.go:315-357 | the learned fields of a request built from the client's state |
| OpenAIAdapt.Client.LearnAdjustment | llm/provider/openai/adapt.go:294-340 | records the adjustment, and reports whether it was news |
| OpenAIAdapt.Client.SendWithAdjustments | llm/provider/openai/adapt.go:367-404 | at most four sends, told as a trace: the status is that of the last reply, every reply before it is a rejection which the next request answers; the sends are at most two more than the facts learned |
| AnthropicAdapt.StripKeepsTheRest | llm/provider/anthropic/adapt.go:271-292 | keeps every non-thinking block in order under its role, drops all thinking, empties no message |
| AnthropicAdapt.AtMostFiveAdjustments | llm/provider/anthropic/adapt.go:52-56 | the two cache adjustments exclude each other, so at most five are ever applied |
| AnthropicAdapt.BuildAvoids | llm/provider/anthropic/adapt.go:126-155 | a rebuilt request never carries what an applied adjustment removed, even where temperature may reappear |
| AnthropicAdapt.AdjustmentIsFresh | llm/provider/anthropic/adapt.go:191-250 | such a request's rejection never calls for an applied adjustment, nor for the other cache one |
| AnthropicAdapt.RejectionIsAnswered | llm/provider/anthropic/adapt.go:191-250 | the request after a rejection is the one before without exactly the parameter or the thinking blocks refused, and the client learns exactly that, or nothing where the call alone is to blame |
| AnthropicAdapt.UnanswerableTeachesNothing | llm/provider/anthropic/adapt.go:191-201 | any other rejection calls for nothing and teaches nothing |
| AnthropicAdapt.LearnedForGood | llm/provider/anthropic/adapt.go:136-155 | what was learned holds for every later request of every call |
| AnthropicAdapt.NothingIsDroppedAtFirst | llm/provider/anthropic/anthropic.go:339-446 | a client that has learned nothing sends all a call asks for, each effort at its own level, but for a temperature adaptive thinking excludes |
| AnthropicAdapt.TemperatureCanReappear | llm/provider/anthropic/adapt.go:126-132 | dropping adaptive thinking brings back the temperature it displaced, so what a request carries does not simply shrink |
| AnthropicAdapt.HasThinkingBlocks | llm/provider/anthropic/adapt.go:254-263 | true exactly when some message holds a thinking block |
| AnthropicAdapt.CountBlockMarkers | llm/provider/anthropic/adapt.go:316-336 | the number of marked tools, system blocks and message blocks |
| AnthropicAdapt.StripThinkingBlocks | llm/provider/anthropic/adapt.go:276-292 | the request mutated to the stripped messages and nothing else |
| AnthropicAdapt.Client.SetReasoningEffort | llm/provider/anthropic/adapt.go:136-155 | sets thinking and effort level unless rejected, leaving the caller's own thinking |
| AnthropicAdapt.Client.BuildChatRequest | llm/provider/anthropic/anthropic.go:322-449 | the adjustable fields of the request built from the client's state |
| AnthropicAdapt.Client.OmitForCall | llm/provider/anthropic/adapt.go:374-384 | the request without what this call's adjustments drop |
| AnthropicAdapt.Client.AdaptToRejection | llm/provider/anthropic/adapt.go:191-250 | the adjustment and the knowledge of the specification, branch by branch |
| AnthropicAdapt.Client.Chat | llm/provider/anthropic/anthropic.go:290-320 | at most six sends, told as a trace: the outcome is that of the last reply, every reply before it is a rejection which the next request answers, and what is known at the end is what that teaches |
| AnthropicCalls.StepKeepsCallsInv | llm/provider/anthropic/anthropic.go:290-320 | every step of any call keeps every call's invariant, and knowledge only grows |
| AnthropicCalls.EveryCallIsBounded | llm/provider/anthropic/adapt.go:401-409 | with any number of concurrent calls each makes at most six sends and five distinct adjustments, and a fresh adjustment always leads to a resend |
| AnthropicCalls.AnswerDecides | llm/provider/anthropic/anthropic.go:302-318 | in every reachable state an answer ends only its own call, with success if and only if it was accepted, and makes it resend if and only if the rejection can be answered |
| AnthropicCalls.LearnedOnlyGrows | llm/provider/anthropic/adapt.go:340-359 | over every run learned facts only grow |
| AnthropicCalls.LearnedIsJustified | llm/provider/anthropic/adapt.go:386-394 | every learned fact is justified by the history: caching by a rejection without block markers or a confirmed resend, temperature never by Extension thinking |
| AnthropicCalls.InvalidSignatureTeachesNothing | llm/provider/anthropic/adapt.go:203-205 | an invalid-signature rejection changes no knowledge, and later requests of the call carry the other blocks in order |
| HardCancel.StepKeepsInv | llm/internal/httpclient/hardcancel.go:42-93 | every step of every party keeps the watchdog's invariant |
| HardCancel.OnlyCancelledConnectionsAreClosed | llm/internal/httpclient/hardcancel.go:112-120 | in every run a connection is closed only once the context is done, only if captured and not multiplexed; `done` is closed exactly once if released |
| HardCancel.LaterReleasesChangeNothing | llm/internal/httpclient/hardcancel.go:69-77 | once released, any run can drop its further releases: the other steps stay possible and the end is the same |
| HardCancel.QuiescenceGuarantee | llm/internal/httpclient/hardcancel.go:47-90 | in every quiescent state, context done and unreleased, the last captured connection is closed unless multiplexed; done or released, the watchdog has exited |
| HardCancel.WatchdogExits | llm/internal/httpclient/hardcancel.go:79-90 | the watchdog takes at most three steps and, once cancelled or released, is never blocked before exiting |
| HardCancel.CloseAfterReleaseIffArmed | llm/internal/httpclient/hardcancel.go:79-90 | from any reachable state a close can follow without a new delivery if and only if a callback or the watchdog is still armed |
| HardCancel.ReleasedConnectionCanBeClosed | llm/internal/httpclient/hardcancel.go:79-90 | a run in which a released connection is still armed |
| HardCancel.Guard.GotConn | llm/internal/httpclient/hardcancel.go:47-66 | the hook makes the steps of one callback, the context perhaps ending between them |
| HardCancel.Guard.HardCloseConn | llm/internal/httpclient/hardcancel.go:112-120 | closes the connection unless it is HTTP/2 over TLS |
| HardCancel.Guard.Release | llm/internal/httpclient/hardcancel.go:75-77 | closes `done` the first time only |
| HardCancel.Guard.Watch | llm/internal/httpclient/hardcancel.go:79-90 | the goroutine makes the steps of the arm its `select` takes |
| Retry.WaitsFollowTheProgressionIff | llm/internal/httpclient/retry.go:96-103 | waits follow the progression through wait n if and only if every earlier one is under 2^62 ns |
| Retry.EveryWaitFollowsTheProgressionIff | llm/internal/httpclient/retry.go:96-103 | all waits follow it if and only if both configured durations are under 2^62 ns |
| Retry.TotalWaitIsBounded | llm/internal/httpclient/retry.go:96-131 | for all durations, overflow included, n waits not replaced by a Retry-After take at most the first and n - 1 maxima |
| Retry.RetryTransport.CloseBody | llm/internal/httpclient/retry.go:262-273 | closes the body and then cancels the attempt's context if the body is wrapped |
| Retry.RetryTransport.RoundTripWithTimeout | llm/internal/httpclient/retry.go:201-257 | what an attempt returns, and that it holds only the body it returns and that body's context |
| Retry.RetryTransport.RoundTrip | llm/internal/httpclient/retry.go:81-188 | at most MaxRetries + 1 attempts with identical bodies, the waits and events of each failure in order, and nothing held but a returned live body and its context |
| Retry.RetryAfterReplacesOneWait | llm/internal/httpclient/retry.go:140-155 | each event carries its own number and the progression's own wait, unless a positive Retry-After on a 429 replaces that one |
| Retry.DeltaSecondsAreWaitedIff | llm/internal/httpclient/retry.go:278-289 | after a 429 with n > 0 delta-seconds the wait is n * 10^9 ns if and only if that fits a signed 64-bit duration |
| Retry.OtherwiseTheProgressionIsWaited | llm/internal/httpclient/retry.go:140-144 | a date gives the time left until it; an absent, unparseable or non-positive value leaves the progression's wait |
| Retry.RetriedIff | llm/internal/httpclient/retry.go:114-182 | another attempt follows if and only if retries and the context last and the attempt failed, or was answered 429, 500, 502, 503, 504 or 529 |
| Retry.Defaults | llm/internal/httpclient/retry.go:96-103 | unset or negative backoffs mean two seconds, up to a minute |
| LimitedBodies.LimitedBody.Read | llm/internal/httpclient/httpclient.go:77-94 | each read hands on the next bytes within the limit, and fails only with all the limit allows handed on, with the error that says which |
| LimitedBodies.ReadUntilError | llm/internal/httpclient/httpclient.go:68-94 | any reads deliver a prefix of at most max bytes; EOF exactly when the body ended cleanly and fitted, the limit error exactly when it is longer; the error comes within one more answered read than the body has bytes |
| LimitedBodies.ReadErrorBody | llm/internal/httpclient/httpclient.go:335-341 | the first 64 KiB of what the limit and the source allow |
| LimitedBodies.ReadResponse | llm/internal/httpclient/httpclient.go:277-293 | a success status only with the whole body; a broken or over-long body gives status zero |
| Decisions.ValidateDecisionOptions | llm/decision.go:174-205 | accepts exactly the well-formed options, and names a fault the others have |
| Decisions.Validate | llm/decision.go:140-172 | accepts exactly the well-formed requests, and names a fault the others have |
| Decisions.WithProbabilities | llm/provider/openai/decide.go:261-275 | succeeds exactly when confidence and every option's probability are in range, listing them in option order |
| Decisions.LevelProbabilities | llm/provider/openai/decide.go:232-242 | keyed by option value, each level still finds what was given for its index, since values are unique |
| Decisions.LevelsMatchByIntegerIff | llm/provider/openai/decide.go:229-242 | levels above the lowest are matched by integer index; the lowest is if and only if no null entry overrides it with another probability |
| Decisions.ScoreMatchesIntegersIff | llm/provider/openai/decide.go:227-243 | a score answer gives every level the probability of its integer index under the same condition |
| Decisions.NullAnswerIsUsable | llm/provider/openai/decide.go:236-241 | a response with only a null entry for the lowest level is accepted |
| Decisions.DecisionHasOption | llm/provider/openai/decide.go:248-255 | true exactly when some option has the value |
| Decisions.ConvertAnswer | llm/provider/openai/decide.go:193-246 | succeeds exactly when some in-range answer says what the response says, and returns it |
| Decisions.AnswerIsDetermined | llm/provider/openai/decide.go:193-246 | at most one answer says what a response says |
| Decisions.MatchAnswers | llm/provider/openai/decide.go:130-144 | unasked answers are ignored, a second answer to an asked question is an error, and each name maps to its one answer |
| Decisions.Decide | llm/provider/openai/decide.go:97-154 | answers are returned exactly when the request is well-formed and each question is answered once and usably, one per question in request order, in range; an error names a question that is not |
| Decisions.WireOrderDoesNotMatter | llm/provider/openai/decide.go:130-153 | reordering the wire answers changes neither whether they are usable nor the answers given |
| OpenAIWire.SplitUserToolResults | llm/provider/openai/openai.go:462-486 | results and rest partition the message, each in order, losing nothing |
| OpenAIWire.ConvertUserMessage | llm/provider/openai/openai.go:491-545 | the message told by either content form is the role with its text and pictures in order |
| OpenAIWire.ConvertAssistantMessage | llm/provider/openai/openai.go:551-582 | tells the joined text and then every call |
| OpenAIWire.ConvertToolMessage | llm/provider/openai/openai.go:588-601 | tells every tool result in order, failures as error objects |
| OpenAIWire.ConvertMessages | llm/provider/openai/openai.go:419-460 | the chat messages tell exactly the system prompt and the conversation |
| OpenAIWire.ConvertResponsesAssistantMessage | llm/provider/openai/responses.go:306-339 | tells the same as the chat form of the message |
| OpenAIWire.ConvertResponsesToolMessage | llm/provider/openai/responses.go:345-359 | tells every tool result in order |
| OpenAIWire.BuildResponsesInput | llm/provider/openai/responses.go:245-268 | the Responses input tells exactly the conversation, so both encoders agree |
| OpenAIWire.EveryCallAndResultIsToldIff | llm/provider/openai/openai.go:440-460 | every call and result of a history is told in order if and only if none is in a message of the wrong role |
| OpenAIWire.EveryResultIsToldTruly | llm/internal/toolresult/toolresult.go:31-54 | in every history each result is told, in order, by its own text exactly when it is a success, and a failure by an error object holding its text or the fixed message |
| OpenAIWire.SuccessLooksLikeFailureIff | llm/internal/toolresult/toolresult.go:31-54 | on the wire a success and a failure look alike if and only if the success's text is that error object |
| OpenAIWire.MessageTextIsTold | llm/provider/openai/openai.go:440-460 | whatever a message tells is told under its own role and is all its text in order |
| OpenAIWire.BlockIsTold | llm/provider/openai/openai.go:515-541 | a picture is told by its URL, else by its data under its type or the default one, else not at all |
| Gemini.NothingEmptyIsSent | llm/provider/gemini/gemini.go:477-589 | no empty content or part is sent, and only user and model roles for the library's own roles |
| Gemini.ContentsAreTheMessages | llm/provider/gemini/gemini.go:441-467 | the contents are the messages that have a part, one each, in order, with their own parts, in their speaker's role |
| Gemini.ModelIsTheAssistant | llm/provider/gemini/gemini.go:640-649 | for the library's roles a content is the model's if and only if its message is the assistant's |
| Gemini.MediaIsSent | llm/provider/gemini/gemini.go:496-534 | a picture or document is sent by its URL, else by its data, else not at all |
| Gemini.BuildFunctionResponse | llm/provider/gemini/gemini.go:605-632 | the response named after the latest earlier use of the ID, or the trimmed ID |
| Gemini.ConvertMessage | llm/provider/gemini/gemini.go:477-589 | the parts of the message given all blocks before it, with the tool names kept up to date |
| Gemini.ConvertMessages | llm/provider/gemini/gemini.go:441-467 | the contents of the conversation, or an error exactly when there are none |
| Gemini.LatestNameIsTheLatest | llm/provider/gemini/gemini.go:554-557 | the name kept for an ID is that of its last use, and none exactly without a use |
| Gemini.GeneratedNamesAreRecoveredIff | llm/provider/gemini/gemini.go:605-609 | a generated ID recovers its function's name if and only if the last block using the ID, if any, calls that function; so always when all IDs are Gemini's |
| Gemini.ParseReply | llm/provider/gemini/gemini.go:667-686 | the content of a reply: per part its text and its call with a generated ID |
| Gemini.RepliesComeBack | llm/provider/gemini/gemini.go:536-557 | a parsed reply encoded again, anywhere in a conversation, gives back its texts and calls with names, arguments and signatures |
| OllamaText.IndexFoldASCII | llm/provider/ollama/ollama.go:473-485 | the first case-insensitive occurrence, or -1 when there is none |
| OllamaText.StripThinkTags | llm/provider/ollama/ollama.go:445-471 | the trimmed text left by the removal grammar, an open block taking the rest |
| OllamaText.TrimSpaceTakesOnlySpace | llm/provider/ollama/ollama.go:470-470 | trimming takes all white space from both ends and nothing else |
| OllamaText.CharacterClasses | llm/provider/ollama/ollama.go:442-485 | which characters are one letter in either case, which are blanks and which white space |
| OllamaText.ParseIsFaithful | llm/provider/ollama/ollama.go:452-469 | every text is read, whole, as a well-formed document of the grammar |
| OllamaText.ReadingIsUnique | llm/provider/ollama/ollama.go:452-469 | and as only one |
| OllamaText.StrippingAgainIff | llm/provider/ollama/ollama.go:433-471 | an opening tag is left, and stripping again changes the text, if and only if in the reading of the input the text before some block begins a tag that what follows the block finishes |
| OllamaText.ATagCanBeLeft | llm/provider/ollama/ollama.go:433-444 | a text whose stripping leaves an opening tag |
| OllamaText.ExtractJSON | llm/provider/ollama/ollama.go:521-543 | the unique shortest balanced text from the first brace, or nothing when there is none |
| OllamaText.FirstObjectIsBalancedText | llm/provider/ollama/ollama.go:519-543 | what counting finds is exactly the text of a brace-balanced tree |
| OllamaText.TruncateAtWordBoundary | llm/provider/ollama/ollama.go:781-795 | cuts before the last space up to the target, or at the target when there is none |
| OllamaText.SmallerTargetCutsEarlier | llm/provider/ollama/ollama.go:781-795 | a smaller fraction never cuts later, and its cut is a prefix of the larger one's |
| OllamaText.CutsWithoutSpaces | llm/provider/ollama/ollama.go:706-707 | without a space to cut at, the rungs are three quarters, a half and a quarter of the text |
| OllamaText.RungsShrink | llm/provider/ollama/ollama.go:707-714 | the retries are non-empty proper prefixes of the text, each of the one before, at most one a fraction |
| OllamaText.Embed | llm/provider/ollama/ollama.go:687-716 | the requests are the whole text and then the retries up to the first accepted; the result is its embedding, or the first error after all of them |
| Redact.TokensAreMaximal | llm/internal/redact/redact.go:62-65 | a message is cut, whole, into maximal runs of key characters and the characters between |
| Redact.RenderedTokens | llm/internal/redact/redact.go:62-65 | and in only one way |
| Redact.KeyCharacters | llm/internal/redact/redact.go:62-65 | key characters are the ASCII letters and digits, the underscore and the hyphen |
| Redact.RedactFragments | llm/internal/redact/redact.go:149-173 | replaces exactly the runs that incriminate an eligible secret |
| Redact.RedactionIsIdempotent | llm/internal/redact/redact.go:115-116 | the pass run twice is the pass run once |
| Redact.NothingLeaksAfterwards | llm/internal/redact/redact.go:147-186 | no run of the result but the placeholder's word lies in an eligible secret at six characters or at its edge at four, and each was in the message |
| Redact.HarmlessRunsStay | llm/internal/redact/redact.go:163-186 | a run too short, or held so by no secret long enough, stays |
| Redact.NonKeyCharactersAreKept | llm/internal/redact/redact.go:160-172 | every non-key character is kept in place, with one pair of brackets per replaced run |

## Left out

- HTTP, TLS, sockets, JSON encoding, base64, real clocks and logging: replies are arbitrary records, times are integers, payloads are opaque strings.
- The phrases error messages are searched for: each is an arbitrary boolean of a rejection, and the parameter names and actions adjustments are keyed by are constructors.
- Stop reasons: `Collect` does not carry them either, and their mapping is a table.
- AnthropicStream.Produce: its input is decoded events, so the line scanner and its buffer limit are not modelled.
- HalfFloat.Float32ToFloat16Bits: shifts and masks are written as division and remainder, and of a NaN only its sign and NaN-ness are stated, since its payload is not promised.
- HardCancel.Guard.HardCloseConn: SetLinger and the unwrapping of a TLS connection are not modelled, only that the connection is closed.
- Retry.RetryTransport.RoundTrip: how the inner transport picks its reply, when timers fire, and HTTP-date parsing are given by the script; the body is buffered whole or fails whole.
- LimitedBodies.ReadUntilError: a source whose error lies before data it would still return is modelled up to that error.
- Decisions.Decide: numbers are reals and usage counting is not modelled.
- OpenAIWire.ConvertMessages: document blocks are rejected before encoding and are left out, as is the encoding of an error object as JSON text.
- Gemini.RepliesComeBack: relies on JSON objects decoding to what was encoded, taken as a hypothesis on the JSON library.
- OllamaText.StripThinkTags: a character is a Unicode code point here and a byte in the scanners that count; the tags are ASCII, so neither reading changes what is matched.
- OllamaText.TruncateAtWordBoundary: the three fractions are quarters, exact in floating point for any text that fits in memory.
- Redact.RedactFragments: passes 1 and 3 and the final collapse rest on the regular-expression engine and are not modelled.
- The proxy's handlers and routing, provider constructors, capability tables, the Voyage and TypeSafe providers, Gemini's own adaptation and `vec.Normalize`: they would add easy members, repeats of the patterns here, or a floating-point square root.
