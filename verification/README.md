# Verified model of the gateway

The program is a gateway in front of several AI services. For one client request it may race several
network exits, retry, refresh a shared token, repair an event stream on the way and spread load over
instances, and it must still deliver one coherent answer. This project models those parts in Dafny and
proves what they keep. `dafny verify dfyconfig.toml` checks all of it.

| Part | Files |
|---|---|
| Hedged race and its shared token | `Race`, `RaceProofs`, `RaceTheorems`, `RaceHistory`, `RaceLoop`, `RequestToken` |
| Object scanner over network reads; all texts of JSON objects beside it | `StreamScanner`, `JsonText` |
| Retry loop of one exit | `StreamRetry` |
| Responses lifecycle repair and commit; chat copy | `ResponsesRepair`, `ResponsesTheorems`, `ResponsesClosing`, `ResponsesText`, `ResponsesCalls`, `ResponsesContents`, `ResponsesStream`, `ChatStream` |
| Cooling, selection, forwarding, deduplication of slots | `Cooldown`, `ExitSlots`, `Forward`, `StaticDedup` |
| Exit addresses across instances | `Rotation`, `Egress`, `Reconcile` |
| Least-connections balancer and circuits | `Balancer`, `BalancerRuns` |
| Streamed and whole form of one answer | `GeminiAnswer`, `GeminiForms`, `FreeBuff`, `FreeBuffStream` |
| Base64 signatures, PBKDF2 | `Base64Signature`, `Pbkdf2` |
| Shared vocabulary | `Common` |

Conventions. What the surroundings decide — schedules, network answers, clocks, random numbers, map
order — is a parameter or a nondeterministic choice, so every theorem holds for all of it. Where the
source updates state in place, a class or a loop does so here and is proved against functions on values;
the theorems are about those functions. Times are natural numbers and 0 is the zero time. Decoded JSON is
a datatype with the facts the code looks at.

Findings. Several expectations one might have of the code are false of it; for each the project gives an
input and the exact condition, for all inputs, under which the code does meet it.

- Frames of two attempts can reach the consumer: a warm-up refusal is retried even after content
  (`StreamRetry.WarmupAfterContentMixes`; condition in `StreamRetry.AttemptsMixOnlyAfterWarmup`).
- A Responses client can see a closing event twice: the repairer does not note upstream events named only
  by their header (`ResponsesClosing.DoneTwiceHappens`; condition in `ResponsesClosing.MadeUpIsFirst`).
- For the same reason the rebuilt answer can lack text the client was sent
  (`ResponsesText.UnheardTextIsLost`, `ResponsesText.UnheardAnswerIsEmpty`; condition in
  `ResponsesText.SnapshotTellsTheDeltas`).
- A made-up function-call item already carries its first argument delta, which is then sent again
  (`ResponsesCalls.FirstDeltaCountsTwice`; condition in `ResponsesCalls.AnnouncedCallsAddUp`).
- In the FreeBuff stream the message changes its output index, and shares it with a call, when a call
  follows text (`FreeBuffStream.TextThenCallIsRefused`, `FreeBuffStream.TextThenCallIsLate`; condition in
  `FreeBuffStream.CopyResponsesStream`).
- The two FreeBuff forms list message and calls in opposite order (`FreeBuff.OrderDiffers`; condition in
  `FreeBuff.FormsAgree`).
- Streamed and collected Gemini answers differ on a part that carries both text and a named function call
  (`GeminiForms.TextWithCallDiffers`; condition in `GeminiForms.FormsAgree`), on images followed by text
  (`GeminiForms.ImagesMove`; condition in `GeminiForms.FormsAgreeOnImages`), and in the numbering of
  candidates (`GeminiForms.IndexesDiffer`; condition in `GeminiForms.IndexesAgree`).

## Model

| member | source | states |
|---|---|---|
| `RaceTheorems.NeverWaitsForNobody` | internal/vertexai/race.go:262-437 | Progress. In every state any schedule of timers, results, token work and cancellations can reach, a waiting event loop has at least one launched candidate of the current round it has not heard of, and that candidate's result is in the channel or can still be sent. |
| `RaceTheorems.InvalidTokensAreCurrent` | internal/vertexai/race.go:343-377 | An invalid-token report of the current round always names the token the shared state holds, so the branch that skips the drain check is never taken, and refreshing always leaves an exit to try. |
| `RaceTheorems.Accounting` | internal/vertexai/race.go:161-436 | At every moment of every race: candidates = exits − refreshes ≥ 1, round + budget + candidates is constant, so there are at most exits + retries rounds; and the results of the current round fit its channel. |
| `RaceTheorems.RoundsFit` | internal/vertexai/race.go:161-436 | However long after a round one looks: no more candidates were launched in it than its channel has places, and only they send, one result each. No late sender of an abandoned round, whose channel nobody reads, ever finds it full. |
| `RaceTheorems.RetryKeepsTheList` | internal/vertexai/race.go:408-429 | At a retry every candidate has already been used: the filter for fresh exits keeps none and the next round runs exactly the same list, one unit of budget poorer. |
| `RaceTheorems.OutcomesArePresentable` | internal/vertexai/race.go:284-435 | What a race returns, on every schedule: never a cancellation and never the internal invalid-token error; a winner passed the winning check; a collected answer is not empty and holds only successes that did not win. |
| `RaceHistory.RacesAreExplained` | internal/vertexai/race.go:262-437 | Every race told by the results it heard of: it ends on the first winning, hard or terminal result and on no other (a hard or terminal error is what it returns); or when the token was refused to every exit; or with the caller; or when every exit left was launched in the round and heard of, then with the successes, or, with none and no retry left, with the error of the best class among all failures heard of. Until then exits left, failures and successes in hand are those of the history. |
| `RaceHistory.TurnsLaunch` | internal/vertexai/race.go:262-429 | What one step from any reachable state does while the race goes on: the next exit of the list is launched exactly when the delay has passed or the last one out is heard of; a new round begins exactly after a refused token, or, at the cost of a retry, when every exit left was heard of and none succeeded; the delay runs whenever an exit is left to launch; a caller that has gone ends the race. |
| `RaceHistory.BestIsToTell` | internal/vertexai/race.go:53-88 | The scan by priorities picks the first rate limit, else the first other retryable error, else the first hard one, else the first of upstream, else the first of all. |
| `RaceTheorems.RacesEnd` | internal/vertexai/race.go:161-440 | Termination: the event loop makes at most (retries + exits + 1)·(3·exits + 2) turns, whatever the schedule. |
| `RaceProofs.StepKeeps` | internal/vertexai/race.go:262-437 | The invariant behind the theorems (distinct candidates, books in balance, one outstanding result per launched and silent candidate, no outstanding token but the one held, single flight) is kept by every step, or the race is over. |
| `RaceProofs.OnFailureKeeps` | internal/vertexai/race.go:336-385 | Each class of failure — cancelled, plain, hard, terminal token, invalid token — leaves the invariant or ends the race; a refresh starts a round in which nobody holds the old token. |
| `RaceProofs.EndRoundKeeps` | internal/vertexai/race.go:394-436 | Ending a round answers, gives up, or starts a sound round. |
| `RaceProofs.SendKeeps` | internal/vertexai/race.go:173-223 | A candidate's one result keeps the invariant, also when it belongs to a round already abandoned. |
| `RaceProofs.StartSettles` | internal/vertexai/race.go:101-260 | A race over distinct exits with a token in hand starts in the invariant. |
| `Race.PickBestError` | internal/vertexai/race.go:53-88 | The scan returns the first error of the smallest priority. |
| `Race.BestIsUnique` | internal/vertexai/race.go:53-88 | That choice is unique. |
| `RaceLoop.RunRaceURIs` | internal/vertexai/race.go:90-440 | The loop that updates its variables in place ends, for every schedule, with the outcome and the token state of the step model, which the rows above describe. |
| `RaceLoop.Racer.constructor` | internal/vertexai/race.go:106-250 | Sets the refresh limit and launches the first candidate as the model starts. |
| `RaceLoop.Racer.Turn` | internal/vertexai/race.go:262-437 | One turn of the object is one step of the model. |
| `RaceLoop.Racer.TakeResult` | internal/vertexai/race.go:276-386 | Handling one result updates the fields as the model does. |
| `RaceLoop.Racer.InvalidToken` | internal/vertexai/race.go:343-377 | Retires the exit, refreshes the token and restarts the round, or gives up. |
| `RaceLoop.Racer.FinishRound` | internal/vertexai/race.go:394-436 | Answer, next round or failure, as in the model. |
| `RequestToken.FetchesAreBounded` | internal/vertexai/client.go:84-177 | Over every interleaving of callers with a fixed limit: at most one fetch is in flight, and fetches ever started ≤ 1 + refreshes ≤ 1 + limit. |
| `RequestToken.StepKeepsSingleFlight` | internal/vertexai/client.go:84-177 | Each step of each caller keeps single flight and leaves the limit alone. |
| `RequestToken.FreshIsSingleFlight` | internal/vertexai/client.go:84-92 | A state nobody has used yet starts every such run. |
| `RequestToken.FailedStaysFailed` | internal/vertexai/client.go:94-137 | After a failed fetch no caller starts another one, whatever happens. |
| `RequestToken.OneTokenIsCountedOnce` | internal/vertexai/client.go:158-177 | Of any number of reports against one token value held once, interleaved in any way, exactly one is counted while the limit allows one, and none otherwise. |
| `RequestToken.RequestTokenState.InvalidateToken` | internal/vertexai/client.go:158-177 | The object's fields after a report, and its verdict, are those of the model. |
| `RequestToken.RequestTokenState.Begin` | internal/vertexai/client.go:84-117 | Start of get: hand out, wait, fail, or become the one fetcher. |
| `RequestToken.RequestTokenState.Finish` | internal/vertexai/client.go:118-137 | End of a fetch: the token is stored or the state fails for good. |
| `RequestToken.RequestTokenState.SetRefreshLimit` | internal/vertexai/client.go:139-147 | The limit set last counts, and a negative one as 0; refreshes already made stay counted. |
| `StreamScanner.ScanStream` | internal/vertexai/stream.go:516-623 | For every cut of the bytes into reads: the consumer is handed the parsable objects of a one-pass split of the whole input, from the first on, up to and including the one after which it asks to stop; it asked to go on after each before; without such a one it gets all. The scan ends cleanly on a stop, with the consumer's error if it gives one, and otherwise as reading ended. The buffer is never reset, so no byte is dropped. |
| `StreamScanner.FeedAllAppend` | internal/vertexai/stream.go:543-607 | The reference splitter does not depend on where its input is cut. |
| `StreamScanner.DeliverStops` | internal/vertexai/stream.go:594-602 | A consumer that has stopped sees nothing of what follows. |
| `StreamScanner.DeliveryIsHanded` | internal/vertexai/stream.go:586-602 | Delivery by texts is: the parsable ones in order, each offered once, up to and including the one that stops. |
| `StreamScanner.Absorb` | internal/vertexai/stream.go:543-607 | All objects completed by one read are handed over, the one on which the consumer stops included, and the scanner is left between objects or inside one, never elsewhere. |
| `StreamScanner.FindEnd` | internal/vertexai/stream.go:557-583 | The inner scan finds the closing brace of the object, or reports the exact brace, string and escape state at the end of the buffer. |
| `StreamScanner.NextObject` | internal/vertexai/stream.go:543-607 | One object is cut out and the buffer compacted without losing a byte. |
| `JsonText.WrittenObjectsAreFound` | internal/vertexai/stream.go:543-607 | Round trip: JSON objects written in any way sections 2 to 7 of RFC 8259 permit (every spelling of every character, any white space around structural characters) and joined by separators without an opening brace come out of the splitter as written and in order. |
| `JsonText.UnfinishedIsNotFound` | internal/vertexai/stream.go:543-607 | An object cut off at whatever place is not found and spoils nothing before it. |
| `JsonText.TextIsNeutral` | internal/vertexai/stream.go:557-583 | No text of any value changes the brace count, string and escape state of the scanner. |
| `JsonText.PrintIsText` | internal/vertexai/stream.go:543-607 | Every well-formed value has such a text. |
| `JsonText.SpelledStaysInside` | internal/vertexai/stream.go:560-571 | However the characters of a string are spelled, the scanner stays inside the string. |
| `StreamRetry.AttemptsMixOnlyAfterWarmup` | internal/vertexai/stream.go:135-320 | After any number of turns, whatever upstream answers and whatever others do with the shared token: what the consumer was given is all of one attempt in order, one error, or nothing, if and only if in no turn made so far upstream showed content, refused it as a warm-up on a first evaluation, and answered the repetition with a frame. |
| `StreamRetry.RetriesAreMadeWhenDue` | internal/vertexai/stream.go:135-320 | When the loop goes on, after any number of turns and under any interference: exactly after a warm-up refusal or silence on a first evaluation; after a stale token this loop may refresh, without content so far; after an error that a retry may cure (authentication, a stale token that is not shared, a rate limit with a new session, a non-final upstream error), without content and with retries left; except for the refresh, only if the pause is not cut short. It goes on with the same token, on its first evaluation or not as before, except after a refresh. Otherwise the consumer is told the error that ended the loop, unless it has content. A turn that gets no token costs a retry. |
| `StreamRetry.OneAttemptWithoutLateRefusal` | internal/vertexai/stream.go:135-320 | With the same freedom for everybody else, frames of two attempts are never mixed as long as no answer with content is a warm-up refusal. |
| `StreamRetry.WarmupAfterContentMixes` | internal/vertexai/stream.go:220-227 | A concrete run in which the frames of two attempts are mixed: the warm-up branch retries even after content. |
| `StreamRetry.ErrorsStandAlone` | internal/vertexai/stream.go:314-320 | After any number of turns and whatever others do with the token: an error is never added to content; it is the only thing the consumer gets. |
| `StreamRetry.RunIsPrefix` | internal/vertexai/stream.go:135-320 | The reference run of a loop with the token to itself is one of the runs these statements are about, at its end. |
| `StreamRetry.TurnAdvances` | internal/vertexai/stream.go:136-312 | With the token to itself, every repetition of the loop lowers the triple (refreshes left, attempts left, freshness of the token): the loop ends. |
| `StreamRetry.EmitFrames` | internal/vertexai/stream.go:177-197 | Frames without content wait until content shows; then everything so far goes out in order. |
| `StreamRetry.ExecuteStreamingWithRetries` | internal/vertexai/stream.go:80-321 | The imperative loop, with the token to itself, yields the chunks and leaves the token state of the reference run, which the rows above describe. |
| `StreamRetry.Retrier.TakeTurn` | internal/vertexai/stream.go:136-312 | One pass through the loop body changes the variables as one turn of the reference run, also when others replace the shared token before or during the attempt. |
| `StreamRetry.Retrier.HandleError` | internal/vertexai/stream.go:217-311 | The switch over the error of an attempt. |
| `ResponsesTheorems.LifecycleOpens` | internal/gateway/gateway.go:2865-2918 | For every upstream stream: response.created before every other response event, an item and a content part announced before the first text delta, an item before the first function-argument delta. |
| `ResponsesContents.FramesComeThrough` | internal/gateway/gateway.go:2865-2918 | The client is sent all of upstream's frames but bare completed events, once each and in order, raw ones included; unchanged, but for the item and positions a text delta leaves open and the identifier of a completed event whose created event was made up. |
| `ResponsesContents.EventsSayTheFrames` | internal/gateway/gateway.go:2475-2696 | Every event sent for a frame says what upstream's frames said up to it: identifiers, positions, text and arguments of made-up events, item by item; the rebuilt output lists all items in ascending order of position, each as described last, completed, the current message with the text heard. |
| `ResponsesContents.IdentifierIsTold` | internal/gateway/gateway.go:2675-2696 | The identifier of the response in made-up events, and in a completed event whose created event was made up, is the one the client was told last by a created event. |
| `ResponsesContents.OpenedWhenDue` | internal/gateway/gateway.go:2636-2673 | Each opening event is made up exactly when it is due, and then once: created for the first response event that is not one itself, an item for the first delta of text or arguments, a part for the first delta of text, unless upstream has announced them. |
| `ResponsesClosing.LifecycleCloses` | internal/gateway/gateway.go:2537-2566 | For every upstream stream, each of the four closing events is made up at most once, and never after one of upstream the repairer could note. |
| `ResponsesClosing.MadeUpIsFirst` | internal/gateway/gateway.go:2537-2634 | What the client sees, said on upstream's frames: every made-up closing event is the first of its kind in the stream, unless upstream sends one that cannot be noted (named by its header only, or unreadable), none that can, and then the first completed event that finds something to close; and only then. |
| `ResponsesClosing.MadeUpWhenDue` | internal/gateway/gateway.go:2537-2634 | A closing event is made up exactly at the first completed event that finds something to close (text heard, a call at the current position, any item), unless upstream has closed before in a way that can be noted. |
| `ResponsesClosing.DoneTwiceHappens` | internal/gateway/gateway.go:2572-2613 | A stream on which the text is closed twice: by a header-named upstream event and by the repairer. |
| `ResponsesTheorems.InventedPartMatchesDelta` | internal/gateway/gateway.go:2636-2673 | A made-up content part names the item, output and part of the delta behind it if and only if the delta names itself: a readable one not by an empty identifier, an unreadable one only as already known. |
| `ResponsesText.SnapshotTellsTheDeltas` | internal/gateway/gateway.go:2475-2570 | A single-message stream that ends in a bare completed event gets at most one completed message; its text and that of every closing event made up is what the repairer heard, or else upstream's own text of the item; and that is what the client was sent as deltas if and only if every delta with text is typed and readable (or, nothing heard and the item having text, the two happen to be equal). |
| `ResponsesText.AllIsSent` | internal/gateway/gateway.go:2865-2918 | Every text delta of upstream reaches the client, in order, whether the repairer notes it or not. |
| `ResponsesText.HeardIsAll` | internal/gateway/gateway.go:2598-2605 | The repairer hears all text exactly if every delta with text is typed and readable. |
| `ResponsesText.UnheardTextIsLost` | internal/gateway/gateway.go:2572-2605 | A stream whose client is sent more text than the answer tells. |
| `ResponsesText.UnheardAnswerIsEmpty` | internal/gateway/gateway.go:2475-2480 | A stream with text whose answer is empty. |
| `ResponsesCalls.AnnouncedCallsAddUp` | internal/gateway/gateway.go:2614-2655 | A single-call stream that ends in a bare completed event: the arguments are closed by the repairer exactly if upstream has not closed them, with the latest description of the item and the deltas since; announced arguments plus deltas, as the client holds them, are what upstream's announcements and deltas come to if and only if upstream announced the item or nothing was held of the call after its first delta, because a made-up item already carries that. |
| `ResponsesCalls.FirstDeltaCountsTwice` | internal/gateway/gateway.go:2614-2655 | The smallest such stream: one delta, held twice by the client. |
| `ResponsesCalls.ClientFollows` | internal/gateway/gateway.go:2614-2655 | What repairer and client hold of the call after every beginning of such a stream. |
| `ResponsesStream.ResponsesStreamState.constructor` | internal/gateway/gateway.go:2428-2435 | The fresh repairer. |
| `ResponsesStream.ResponsesStreamState.NoteCreated` | internal/gateway/gateway.go:2675-2696 | Takes over the identifier of the response, and with it that of the message, from an upstream created event that can be read. |
| `ResponsesStream.ResponsesStreamState.Note` | internal/gateway/gateway.go:2572-2634 | The fields after observing a frame are those of the model. |
| `ResponsesStream.ResponsesStreamState.EnsureTextLifecycle` | internal/gateway/gateway.go:2636-2655 | Announces item and part unless they are announced, and marks them. |
| `ResponsesStream.ResponsesStreamState.MakeCompletionEvents` | internal/gateway/gateway.go:2537-2566 | Exactly the missing closing events, in order, and the flags after them. |
| `ResponsesStream.ResponsesStreamState.Snapshot` | internal/gateway/gateway.go:2475-2499 | The rebuilt output, items in ascending order of index. |
| `ResponsesStream.ResponsesStreamState.Handle` | internal/gateway/gateway.go:2865-2918 | What is sent for one frame and the new state are those of the model. |
| `ResponsesStream.CopyResponsesStream` | internal/gateway/gateway.go:2824-2957 | Commit safety: in delay mode nothing is written before the first frame with output and afterwards exactly the joined frame outputs, so not committed means nothing written. Which error is reported, and that none is, by cases of how reading ended, output, completed event and terminal failure. |
| `ResponsesStream.WithheldIsMute` | internal/gateway/gateway.go:2919-2931 | What is held back says nothing: of plain frames nothing is written exactly if none carries text, reasoning or arguments, announces an item or part, closes text or arguments, or ends the response. |
| `ChatStream.CopyChatStream` | internal/gateway/gateway.go:2960-3121 | The same for chat streams; a copy succeeds exactly when reading ended cleanly and, in delay mode, output and an end mark were seen. |
| `ChatStream.EveryEndIsFinished` | internal/gateway/gateway.go:3069-3081 | Upstream's lines all arrive in order, every [DONE] comes after a finish reason, and at most one finish chunk is made up, only where upstream gave none. |
| `Forward.ForwardRequest` | internal/gateway/gateway.go:1256-1481 | One request: exits of pairwise distinct identity, at most MaxRetries + 1 attempts, exactly one answer unless canceled or unsendable; every attempt but the last came to nothing; the answer, and whether the request is reported as failed, are those of the last exchange; giving up on a retryable one means the attempts or the enabled, untried exits are used up. A refusal before sending is 429 only for the provider that does not wait and with every untried exit cooling, 502 only with every exit shut, 504 only if no untried exit could be had before the deadline. |
| `Forward.Attempt` | internal/gateway/gateway.go:1320-1443 | One exchange either ends the request with the answer due or, if retryable and something is left to try, is tried elsewhere. What it leaves in the exits is exact: the exit is marked for the status and then for the body (pause for all models, for the model, both, or cleared; the pause with its minimum), no other exit is, unless the limit is one of the account. |
| `Forward.AttemptStream` | internal/gateway/gateway.go:1444-1478 | A stream that showed nothing is retried or refused; otherwise the client has the repaired body of this attempt alone; the exit is marked for how the body went. |
| `Forward.AcquireExit` | internal/gateway/gateway.go:1262-1280 | Exactly one of: the first untried exit that is ready, in cyclic order, at once, or else as soon as the first one is; or the refusal due. |
| `Forward.HandleUpstreamBodyFailure` | internal/gateway/gateway.go:2164-2190 | A transport failure pauses the exit, and for the model if one is named, for at least the minimum for streams without output; any other changes no slot and no choice. |
| `Forward.MayRetry` | internal/gateway/gateway.go:1324-1326 | Retry exactly while attempts and enabled, untried exits are left. |
| `Forward.RetryableShowsNothing` | internal/gateway/gateway.go:1320-1467 | A client answered from a retryable exchange has a refusal, a whole error body or a limit response, never part of an answer. |
| `Forward.BlamedIsRetried` | internal/gateway/gateway.go:1315-1467 | An exchange is tried elsewhere exactly if its exit is paused for it, but for error bodies beyond the limit, lists of models, and streams of which part was shown. |
| `Forward.RateLimits` | internal/gateway/gateway.go:1330-1366 | A limit of an account pauses the model everywhere and is passed on; a limit of an exit pauses that exit alone and is tried elsewhere. |
| `Forward.CooldownModelAllSlots` | internal/gateway/gateway.go:2352-2364 | Every exit pauses for the model, for at least the time asked or the longest pause. |
| `Forward.CopyStreamResponse` | internal/gateway/gateway.go:2960-3121 | The body is delivered, and how the stream went (to its end, failed by upstream's own account, broken off, nothing in time), for both kinds of stream. |
| `Cooldown.NextCooldown` | internal/gateway/gateway.go:79-93 | The doubling loop gives min(base·2^(fails−1), max) plus at most a fifth, raised to the minimum. |
| `Cooldown.PauseBounds` | internal/gateway/gateway.go:79-93 | A pause never undercuts back-off or minimum, exceeds the back-off by at most a fifth unless the minimum applies, and back-off grows with the failures. |
| `Cooldown.ReadingNeverShows` | internal/gateway/gateway.go:103-151 | Refinement: under a clock that does not run backwards every run of reads, hits and successes gives the answers of a table that reading never changes. |
| `Cooldown.LiveStep` | internal/gateway/gateway.go:103-151 | One operation on two tables with the same live entries answers alike and leaves them alike. |
| `Cooldown.NeverMoreThanMax` | internal/gateway/gateway.go:103-129 | Over every run the table keeps at most 256 models. |
| `Cooldown.OnlyTheEarliestGoes` | internal/gateway/gateway.go:109-124 | A hit forgets no cooling model but the earliest to end, and that only when full. |
| `ExitSlots.ProxySlot.Purge` | internal/gateway/gateway.go:109-121 | The walk over the map keeps exactly the live entries and finds one that ends first, in whatever order the map is walked. |
| `ExitSlots.ProxySlot.CooldownModel` | internal/gateway/gateway.go:103-129 | New table and pause are those of the model, with an admissible victim and a random addition of at most a fifth; the model is not served before the pause is over. |
| `ExitSlots.ProxySlot.Cooldown` | internal/gateway/gateway.go:95-101 | One more failure, and the pause that follows from the count, during which no model is served. |
| `ExitSlots.ProxySlot.Success` | internal/gateway/gateway.go:131-137 | Resets the slot and forgets the model, which is served again at once. |
| `ExitSlots.ProxySlot.Readiness` | internal/gateway/gateway.go:139-151 | Reports the later of the two waits and keeps every readiness of that moment. |
| `ExitSlots.Gateway.SelectSlotExcluding` | internal/gateway/gateway.go:2270-2300 | The first ready, enabled, not excluded slot in cyclic order from the active one; else the exact shortest wait; else −1; one second for an empty list. Readiness is not disturbed. |
| `ExitSlots.SelectionIsUnique` | internal/gateway/gateway.go:2270-2300 | That outcome is determined by what the selection sees. |
| `ExitSlots.SameIdentity` | internal/gateway/gateway.go:61-71 | Two slots are one exit if they leave under one known address or, with no address known, have one proxy. |
| `ExitSlots.Gateway.WaitForSlotExcluding` | internal/gateway/gateway.go:2319-2339 | Yields the first untried slot that is ready, in cyclic order, at once; else as soon as the first one is ready, in no less than a millisecond and before the deadline. It times out exactly if there are no slots or none of the untried ones can be had in time, and fails with none-untried exactly if slots exist and all enabled ones are excluded. |
| `ExitSlots.Gateway.HasUntriedSlot` | internal/gateway/gateway.go:2340-2351 | True exactly when an enabled slot of an identity not tried exists. |
| `StaticDedup.ProbeAndDeduplicate` | internal/gateway/gateway.go:310-395 | For every order in which probe results arrive: the list keeps members and order, and a slot with an observed address stays on exactly if it is the keeper of that address. |
| `StaticDedup.OneKeeper` | internal/gateway/gateway.go:371-391 | Every observed address has exactly one keeper, and it is an explicit proxy whenever a proxy has the address. |
| `StaticDedup.Deduplicate` | internal/gateway/gateway.go:357-395 | The walk with its table of leaders switches off exactly the others. |
| `StaticDedup.ApplyProbes` | internal/gateway/gateway.go:340-356 | The results leave every slot as its own probe says, in whatever order they arrive. |
| `Rotation.RotateActive` | internal/gateway/gateway.go:883-925 | Moves to the first other slot, in cyclic order, that is usable and whose known or probed address is neither the previous one nor forbidden, and reports the address recorded there; without one nothing moves. A known address is never replaced. |
| `Rotation.RotateGroup` | internal/controlplane/rotation.go:76-134 | Tries the other nodes in cyclic order, each at most once and at most min(n − 1, 8), and stops at the first whose address is free: the node switched to last is reached under the address reported. On failure all of them were tried and the group is switched back. |
| `Rotation.AlternativesAreTheOthers` | internal/controlplane/rotation.go:90-107 | The tried order contains every node but the current one, each once. |
| `Rotation.UniqueNodes` | internal/controlplane/mihomo.go:548-563 | The nodes named, trimmed, without repetitions and without the names that are no nodes. |
| `Rotation.NodesAreDistinct` | internal/controlplane/mihomo.go:548-563 | Exactly those names, each once. |
| `Reconcile.ReconcileDuplicates` | internal/controlplane/rotation.go:264-340 | For any number of instances, slots and outside answers, every address in the result is explained by what was really reached: kept; or moved through the instance's gateway to the first free slot of its walk, each walk starting where the last one left the gateway; or switched to the first node reached under a free address; or failed because the route was shared, unmanaged or offline or nothing within the limit was free. Free means held by no slot settled before. No two instances of a provider hold one address if and only if no rotation failed; a slot is moved only because another instance held its address; an instance's gateway ends on the address of the last slot moved through it; only managed routes with a single owner are switched. |
| `Reconcile.LastMoveIsActive` | internal/controlplane/rotation.go:293-338 | Over a whole run, the active slot of a gateway has the address of the last slot moved through it; rotations that find nothing leave it there. |
| `Reconcile.UniqueUnlessFailed` | internal/controlplane/rotation.go:284-340 | Books kept as the loop keeps them make the addresses unique exactly when nothing failed. |
| `Egress.SettleSlot` | internal/controlplane/rotation.go:293-338 | One slot: nothing owned changes hands, and the address held afterwards is its own, or that of the slot the gateway has turned to, first free one of its walk, or the one under which the last node is reached, first free one of the group; or the rotation failed, for one of the reasons given, and the books and the address stay. |
| `Egress.RouteOwners` | internal/controlplane/rotation.go:271-283 | The table of the instances on each managed route. |
| `Egress.OwnersAre` | internal/controlplane/rotation.go:271-283 | The owners listed are exactly the instances with a counted slot on the route. |
| `Reconcile.SoleOwner` | internal/controlplane/rotation.go:313-318 | A route that is switched belongs to the switching instance alone. |
| `Egress.ActiveSummarySlots` | internal/controlplane/rotation.go:170-191 | The active usable slots, else the first usable one, else the first. |
| `Egress.SlotsThatCount` | internal/controlplane/rotation.go:170-191 | Which slots count: every active usable one; without any the first usable one alone; without that the first; none only if there is none. |
| `GeminiForms.FormsAgree` | internal/transform/stream.go:140-211 | Streamed and collected form of an answer without inline images say the same content and reasoning for a candidate if and only if none of its parts carries text together with a named function call. |
| `GeminiForms.TextWithCallDiffers` | internal/transform/stream.go:217-288 | The smallest answer on which they differ: a text together with a named call. |
| `GeminiForms.FormsAgreeOnImages` | internal/transform/stream.go:217-288 | When images are links and no line of the text looks like one, and no part is of two kinds, the contents are the same if and only if no part list with an image is followed by one with text. |
| `GeminiForms.FormsAgreeWithImages` | internal/transform/stream.go:217-288 | When no part list with an image is followed by one with text and no part carries text beside a call or an image, content and reasoning agree, whatever images and texts look like. |
| `GeminiForms.ImagesMove` | internal/transform/stream.go:217-288 | A concrete pair of chunks on which the image moves. |
| `GeminiForms.IndexesAgree` | internal/transform/response.go:9-14 | The stream names a candidate by its own index, the response by its position: the same for all candidates exactly when the indexes seen are 0 to n − 1. |
| `GeminiForms.IndexesDiffer` | internal/transform/response.go:9-14 | A single candidate with index 1 becomes choice 0. |
| `GeminiForms.AnswersAgree` | internal/transform/response.go:8-103 | Whole answers: under these conditions every choice says what the stream said under the same index. |
| `GeminiForms.PlainAnswersAreTold` | internal/transform/stream.go:217-288 | Of an answer in text parts both forms tell all texts that are no thoughts as the content and all thoughts as the reasoning, in order. |
| `GeminiForms.ConvertRealtimeChunk` | internal/transform/stream.go:140-211 | The deltas of one chunk, joined per candidate index, are what its part lists say. |
| `GeminiForms.StreamAnswer` | internal/transform/stream.go:140-211 | The same over all chunks. |
| `GeminiForms.CollectChunks` | internal/vertexai/client.go:392-449 | The collectors hold, for exactly the candidates seen, all their parts in order. |
| `GeminiForms.CollectCandidates` | internal/vertexai/client.go:470-489 | One candidate per index seen, in ascending order, with its merged parts. |
| `GeminiForms.BatchAnswer` | internal/transform/response.go:8-103 | One choice per candidate, numbered by position, with the text of its merged parts. |
| `GeminiAnswer.ExtractParts` | internal/transform/stream.go:217-288 | Text, then images, and reasoning, each joined in the order of the parts. |
| `GeminiAnswer.MergeContentBlocks` | internal/transform/functioncall.go:280-322 | Merging keeps text, reasoning and images in order and class, and leaves no two neighbouring text parts of one class. |
| `FreeBuff.FormsAgree` | internal/gateway/freebuff.go:882-1178 | Both forms of an answer fail on the same inputs and otherwise name the same model and the same items; the order of the items is the same exactly when text and tool calls do not both occur. |
| `FreeBuff.OrderDiffers` | internal/gateway/freebuff.go:924-936 | One event with text and a call is listed in opposite order by the two forms. |
| `FreeBuff.AggregateResponses` | internal/gateway/freebuff.go:882-955 | Text with the reasoning fallback, then the calls by ascending index with first identifier, last name and joined arguments; empty and broken exactly when due. |
| `FreeBuff.CollectToolCalls` | internal/gateway/freebuff.go:957-985 | The records tell the calls the pieces make. |
| `FreeBuff.ModelIsLastNamed` | internal/gateway/freebuff.go:899-945 | The model named is the last one upstream names, else the one asked for. |
| `FreeBuff.CallsAreTold` | internal/gateway/freebuff.go:957-985 | Every call is what its pieces make it: the identifier of the first piece, made up if that has none, the last name given, and all arguments joined. |
| `FreeBuffStream.CopyResponsesStream` | internal/gateway/freebuff.go:996-1178 | For every event sequence order, call indexes and joined deltas can be followed to the end and lead to the completed answer exactly when there is one. A strict client, which also wants one output index for the whole message, can follow if and only if no call appears after the text has begun with another message event after it; for an unbroken stream, if and only if no call is late. The message shares its index with a call exactly then. |
| `FreeBuffStream.StrictIsSteady` | internal/gateway/freebuff.go:1105-1164 | The strict client follows exactly the streams the patient one follows with the message index unchanged. |
| `FreeBuffStream.TextThenCallIsRefused` | internal/gateway/freebuff.go:1105-1164 | What is written for a text and then a call: the strict client refuses it, the patient one does not. |
| `FreeBuffStream.FollowedIsFaithful` | internal/gateway/freebuff.go:1068-1178 | Whoever can follow a stream holds exactly what the deltas said: done events and completed items repeat the joined deltas, call by call and for the text. |
| `FreeBuffStream.TextThenCallIsLate` | internal/gateway/freebuff.go:1100-1108 | Text followed by any call is an input on which two items share an output index. |
| `FreeBuffStream.Writer.OnTool` | internal/gateway/freebuff.go:1068-1104 | One piece of a call: announced before its first delta, numbered in order of appearance. |
| `FreeBuffStream.Writer.OnContent` | internal/gateway/freebuff.go:1105-1122 | Opens the message before its first delta; every delta names the next free output index, which is that of the message as long as no call has come after it. |
| `FreeBuffStream.Writer.CloseMessage` | internal/gateway/freebuff.go:1152-1165 | Closes the message with its joined text; the index stays steady only if it is still the next free one. |
| `FreeBuffStream.Writer.CloseTools` | internal/gateway/freebuff.go:1140-1151 | Closes every call in ascending order of index with its joined arguments. |
| `FreeBuffStream.Complete` | internal/gateway/freebuff.go:1127-1178 | Fallback, closing events and completed event, or none for an empty answer; afterwards the message index is steady exactly when no call was late. |
| `FreeBuffStream.PrefixesAreReadable` | internal/gateway/freebuff.go:996-1178 | A client that can follow a whole stream can follow every beginning of it. |
| `Balancer.LeastConnections.Acquire` | internal/controlplane/server.go:786-817 | Picks, among the instances whose circuit is closed, the first of least load on the walk from the cursor; counts it; forgets exactly the circuits that have run out. |
| `Balancer.LeastConnections.Release` | internal/controlplane/server.go:857-865 | One less, and no entry at zero. |
| `Balancer.LeastConnections.MarkFailure` | internal/controlplane/server.go:819-834 | The doubling loop opens the circuit for min(15·2^(k−1), 120) seconds. |
| `Balancer.LeastConnections.MarkRateLimit` | internal/controlplane/server.go:836-848 | Opens it for the time asked, or a minute. |
| `Balancer.LeastConnections.MarkSuccess` | internal/controlplane/server.go:850-855 | Forgets the failures. |
| `Balancer.ChoiceIsLeast` | internal/controlplane/server.go:804-816 | No available instance carries less than the chosen one. |
| `BalancerRuns.AcquireIsStep` | internal/controlplane/server.go:786-817 | The object makes the steps of the run model. |
| `BalancerRuns.InflightIsTheBalance` | internal/controlplane/server.go:786-865 | Over every run the count never holds a zero entry, and it equals acquires minus releases at every moment if and only if releases are paired with acquires. |
| `BalancerRuns.LoadsStayClose` | internal/controlplane/server.go:786-814 | From any state and whatever happens to other instances: two instances that are available to every request, give nothing back and start with loads at most one apart keep loads at most one apart. |
| `BalancerRuns.RequestsAreSpread` | internal/controlplane/server.go:786-817 | From equal loads, t requests without a release are spread over the k instances available to all of them, t / k each, rounded down or up, while the others are set aside. |
| `BalancerRuns.FailuresAdd` | internal/controlplane/server.go:819-834 | Failures nothing has forgiven add up. |
| `BalancerRuns.KthFailurePause` | internal/controlplane/server.go:819-834 | The k-th such failure sets the instance aside for exactly 15, 30, 60, then always 120 seconds. |
| `Base64Signature.SignatureMeans` | internal/transform/functioncall.go:190-200 | The result is always canonical Base64; the normalised signature is kept exactly when it is canonical (and not the sentinel), any other one is encoded so that decoding gives its bytes back. |
| `Base64Signature.SignatureIsStable` | internal/transform/functioncall.go:190-200 | Canonical signatures are not changed, and doing it twice changes nothing more. |
| `Base64Signature.CanonicalIsNormal` | internal/transform/functioncall.go:12-24 | The normaliser fixes every canonical encoding. |
| `Base64Signature.CanonicalTexts` | internal/transform/functioncall.go:194-199 | The structural form of sections 3.5 and 4 of RFC 4648 describes exactly the encodings of byte strings. |
| `Base64Signature.EncodingIsCanonical` | internal/transform/functioncall.go:194-199 | Decoding inverts encoding, and every encoding has the canonical form. |
| `Base64Signature.CanonicalIsEncoding` | internal/transform/functioncall.go:194-199 | Encoding inverts decoding on canonical texts. |
| `Base64Signature.RoundTripMeansCanonical` | internal/transform/functioncall.go:195-198 | The check by decoding and encoding again succeeds exactly on canonical texts, although the decoder itself accepts line breaks and stray bits. |
| `Pbkdf2.DeriveSha256` | internal/controlplane/auth.go:306-330 | For any pseudorandom function with 32-byte results the loops give the first octets of T_1, T_2, … of section 5.2 of RFC 8018; beyond the length the standard allows, the block numbers repeat. |
| `Pbkdf2.OneBlock` | internal/controlplane/auth.go:315-327 | T_i is the exclusive or of U_1 to U_c; a count below one counts as one. |
| `Pbkdf2.XorInto` | internal/controlplane/auth.go:323-325 | The in-place loop is the exclusive or. |
| `Pbkdf2.PutNumber` | internal/controlplane/auth.go:311-314 | The block number as four octets behind the salt. |
| `Pbkdf2.BlocksAt` | internal/controlplane/auth.go:310-329 | Octet k of the key is octet k mod 32 of block k / 32 + 1. |
| `Pbkdf2.ShorterIsPrefix` | internal/controlplane/auth.go:329-329 | A shorter key is a prefix of a longer one. |
| `Pbkdf2.InputsDiffer` | internal/controlplane/auth.go:311-317 | No two blocks have the same input, and the number can be read back. |

## Left out

- RaceTheorems.NeverWaitsForNobody: exits are distinct, the request carries a shared token already fetched, and the limit is the one the race sets; a candidate does not invalidate the token itself, so races whose exits refresh it on their own (`authCandidateBound` false) are not covered here (`StreamRetry` has that loop under interference); the branch for a request without a shared token and the result callbacks are not modelled.
- RaceTheorems.RacesEnd: counts turns of the event loop; that a launched candidate reports at all (its own timeout or cancellation) belongs to the surroundings, as does the collection of late results after a win.
- StreamRetry.AttemptsMixOnlyAfterWarmup: the consumer keeps accepting chunks, and others change the token between the critical sections of this loop only as seen before a turn and after an attempt; marking entry proxies, logging and the lengths of pauses are not modelled.
- StreamRetry.TurnAdvances: termination is claimed for a loop with the token to itself; arbitrary changes of the token by others leave no such measure.
- StreamScanner.ScanStream: reads are at most as long as the read buffer; what a parsed object means to the consumer is the parameters `parse` and `judge`.
- ResponsesTheorems.LifecycleOpens: claims that response.created comes first, not that it comes once, because a late or repeated upstream one is passed on as it is.
- ResponsesText.SnapshotTellsTheDeltas: a stream that mixes several messages, or messages and calls, is repaired with one shared text and has no such law; nor has one that describes its item before any frame has named an output position other than 0, for the item is then filed under 0.
- ResponsesCalls.AnnouncedCallsAddUp: the deltas and announcements of the call are typed and readable; those named only by their header are lost to the repairer like text. Unless its position is 0, some frame has named it when the call is described. What a client makes of upstream's own closing events is not counted.
- JsonText.WrittenObjectsAreFound: the texts admitted as numbers are a superset of those of the grammar, which only makes the claim stronger.
- ResponsesStream.CopyResponsesStream: the client connection takes every write; a failing write ends the copy earlier. Token usage and time to first output are not modelled.
- ChatStream.CopyChatStream: the same assumption about writes; a line is classified, not parsed.
- Forward.ForwardRequest: the exits do not change address or get switched off while the request runs; request rewriting, headers, audit records and the two providers with paths of their own are not modelled; writes to the client succeed. How a filtered model list is made from its body is left open.
- Forward.Attempt: what an account-wide limit leaves is stated for gateways that list no slot twice; connections kept idle are not modelled.
- Cooldown.NextCooldown: durations do not overflow.
- ExitSlots.Gateway.SelectSlotExcluding: one reading of the clock per selection, where the source takes a second one for the returned wait.
- StaticDedup.ProbeAndDeduplicate: every slot is probed, that is, at least one probe job is configured; workers and channel are the order in which results arrive.
- Reconcile.ReconcileDuplicates: only the phase for duplicates. The phase for rate limits does not record the address it moves to, so it has no uniqueness to claim. Every instance has a gateway of its own; switching a node changes the address of no other instance, and a failed rotation leaves the old address in place.
- Rotation.RotateGroup: a node gives one address throughout a rotation; the final switch back is attempted, not checked, as in the source.
- GeminiForms.FormsAgree: inline images excluded (`GeminiForms.FormsAgreeOnImages` has them); tool-call identifiers and the tracker that folds repeated keys are not compared. Candidates and parts that are not JSON objects, and indexes that are not numbers, do not occur.
- GeminiForms.FormsAgreeOnImages: the joined text has no line break followed by an exclamation mark, with which every image link starts; where it has, equal contents can come about by coincidence.
- FreeBuff.FormsAgree: identifiers made up by the program are one value, `Generated`; usage figures and timestamps are not modelled; a tool record is a value in the map that is replaced, not an object updated in place.
- FreeBuffStream.CopyResponsesStream: writes succeed, and item identifiers are distinct random values, represented by the tool index.
- BalancerRuns.KthFailurePause: runs contain plain failures; rate-limit openings have the contract of `Balancer.LeastConnections.MarkRateLimit` only. The health cache the same calls refresh, and the release that may be missed between acquire and its deferred call, are not modelled.
- Base64Signature.SignatureMeans: texts are Unicode strings, encoded in UTF-8; byte strings that are not UTF-8 are outside.
- Pbkdf2.DeriveSha256: HMAC-SHA-256 itself is a parameter, and password checking is not part of this model.
- Parsing of upstream objects into chunks, and finish tracking per candidate: lookups with one branch each.
- Model catalogues, prices, header tables, aliases, configuration, sessions and login: tables and one-branch facts.
- Docker, Mihomo, SOCKS, TLS, HTTP and file access: surroundings.
