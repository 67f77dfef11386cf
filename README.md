# Phone-Call: call signalling between participants

Phone-Call simulates a small telephone network. Every participant owns a
three-digit number and one line. A line has a `state` (idle, ringing,
callee_is_ringing, number_unknown, callee_is_busy, talking and, in the
asynchronous version, calling) and a `contactId`, the number of its
counterpart. Participants call, answer, reject and hang up. A network
component creates the participants with distinct numbers and routes each
signal to the participant carrying the addressed number.

The model has five modules.

- `Options` (options.dfy): the `Option` type used for the optional arguments of `setState`.
- `States` (states.dfy): the `CallState` and `CallResponse` enumerations, with the
  number TypeScript gives each member.
- `Participants` (participant.dfy): the asynchronous `Participant`.
  - Each handler is specified by a function on a `Line` value, which holds the
    line's state and counterpart.
  - A `Participant` class keeps `state` and `contactId` as fields and updates
    them through `SetState`. Each method is proved to leave exactly the line
    its function computes.
  - Each `async` method is split at its `await` into a start step and a resume
    step. The resume step takes the backend's response as a parameter.
  - Between the two steps, any sequence of the seven guarded handlers and of
    the participant's own unguarded answer, reject and hangup resume steps may
    run.
- `LegacyClient` (client.dfy): the synchronous `Participant` of client.tsx and
  its `busyStates`. The network component is built on this one.
- `Networks` (network.dfy): the network component.
  - `CreateParticipants` models the unique-number loop.
  - `Find` models the lookup by number.
  - `call`, `answer`, `reject` and `hangup` are modelled as route functions on
    the participants' lines, and as methods of a `Network` class proved to
    follow them.
  - A participant's four actions are modelled with their backend bound to the
    network, as the closures passed at construction bind it.

The random numbers drawn by `createParticipants` are an input here. The loop
gets a sequence of candidate values in 100..999, standing for the values
`Math.round(Math.random() * 899 + 100)` would take, in order.

`setState` writes `contactId` only when it is given a non-empty string. So in
both participants, going idle through `setState({state: idle, contactId: ''})`
keeps the old counterpart's number. The model follows the code here, not the
reading that the counterpart is cleared.

## Model

| member | source | states |
|---|---|---|
| States.StateCode | src/components/client/states.ts:1-9 | every `CallState` member carries a non-zero number, so a supplied state always passes the truthiness test of `setState` |
| States.ResponseCode | src/components/client/states.ts:11-15 | every `CallResponse` member carries a non-zero number |
| States.SevenStates | src/components/client/states.ts:1-9 | `CallState` has exactly seven members, every value is one of them, and their numbers are pairwise distinct |
| States.ThreeResponses | src/components/client/states.ts:11-15 | `CallResponse` has exactly three members (ringing, busy, unknown_number) with pairwise distinct numbers |
| Participants.IsBusy | src/components/client/participant.ts:73-77 | a line is busy exactly when it is not idle, number_unknown or callee_is_busy |
| Participants.BusyPartition | src/components/client/participant.ts:73-77 | the busy states {ringing, callee_is_ringing, talking, calling} and the free states {idle, number_unknown, callee_is_busy} are disjoint, cover every state, and `IsBusy` holds exactly on the busy ones |
| Participants.SetStateOn | src/components/client/participant.ts:61-67 | a supplied state is always written and an absent one leaves the state alone; a non-empty contact is written, and an absent or empty contact leaves the old one in place |
| Participants.Participant.SetState | src/components/client/participant.ts:61-67 | the fields change exactly as `SetStateOn` says |
| Participants.Participant.constructor | src/components/client/participant.ts:51-56 | a new participant carries its number and is idle with an empty contact |
| Participants.CallReceived | src/components/client/participant.ts:84-94 | an incoming call succeeds iff the line is not busy; it then rings with the caller as contact when that is non-empty; an empty one leaves the old contact, and otherwise nothing changes |
| Participants.Participant.OnCallReceive | src/components/client/participant.ts:84-94 | result and new fields are those of `CallReceived` |
| Participants.CalleeAnswered | src/components/client/participant.ts:101-113 | succeeds iff the line is callee_is_ringing with that very callee, and then it is talking to it; a refusal changes nothing |
| Participants.Participant.OnCalleeAnswer | src/components/client/participant.ts:101-113 | result and new fields are those of `CalleeAnswered` |
| Participants.CalleeRejected | src/components/client/participant.ts:120-132 | succeeds iff the line is callee_is_ringing with that very callee, and then it is callee_is_busy with it; a refusal changes nothing |
| Participants.Participant.OnCalleeReject | src/components/client/participant.ts:120-132 | result and new fields are those of `CalleeRejected` |
| Participants.CalleeHungUp | src/components/client/participant.ts:139-151 | succeeds iff the line is talking to that very counterpart, and then it is idle and still records the counterpart; a refusal changes nothing |
| Participants.Participant.OnCalleeHangup | src/components/client/participant.ts:139-151 | result and new fields are those of `CalleeHungUp` |
| Participants.UnknownNumberReported | src/components/client/participant.ts:158-170 | succeeds iff the line is calling that very number, and then it is number_unknown; a refusal changes nothing |
| Participants.Participant.OnUnknownNumberCalled | src/components/client/participant.ts:158-170 | result and new fields are those of `UnknownNumberReported` |
| Participants.CalleeBusyReported | src/components/client/participant.ts:177-190 | succeeds iff the line is calling that very number, and then it is callee_is_busy; a refusal changes nothing |
| Participants.Participant.OnCalleeBusy | src/components/client/participant.ts:177-190 | result and new fields are those of `CalleeBusyReported` |
| Participants.CalleeRingingReported | src/components/client/participant.ts:197-210 | succeeds iff the line is calling that very number, and then it is callee_is_ringing; a refusal changes nothing |
| Participants.Participant.OnCalleeRinging | src/components/client/participant.ts:197-210 | result and new fields are those of `CalleeRingingReported` |
| Participants.CallStarted | src/components/client/participant.ts:216-221 | the backend is asked iff the callee is not the own number and the line is not busy; the line is then claimed as calling (a busy state) with the callee as contact when that is non-empty; an empty one leaves the old contact, and otherwise it is unchanged |
| Participants.Participant.MakeACallStart | src/components/client/participant.ts:216-223 | whether `onCall` is awaited, and the new fields, are those of `CallStarted` |
| Participants.CallResumed | src/components/client/participant.ts:223-235 | on a line still calling that callee, busy gives callee_is_busy, unknown_number gives number_unknown and ringing gives callee_is_ringing, with the callee as contact; on any other line the resume changes nothing |
| Participants.Participant.MakeACallResume | src/components/client/participant.ts:223-235 | the new fields are those of `CallResumed` |
| Participants.AnswerResumed | src/components/client/participant.ts:241-246 | whatever the line's state, a truthy response gives talking and a falsy one idle; the contact is kept |
| Participants.Participant.AnswerCurrentCallResume | src/components/client/participant.ts:241-246 | the new fields are those of `AnswerResumed` |
| Participants.Released | src/components/client/participant.ts:251-270 | whatever the line's state, it becomes idle and keeps its contact |
| Participants.Participant.RejectCurrentCallResume | src/components/client/participant.ts:251-258 | the response is ignored; the new fields are those of `Released` |
| Participants.Participant.HangupCurrentCallResume | src/components/client/participant.ts:263-270 | the response is ignored; the new fields are those of `Released` |
| Participants.DeliverIdempotent | src/components/client/participant.ts:84-210 | delivering the same signal twice has the effect of delivering it once |
| Participants.ClaimedLineIgnoresForeignSignals | src/components/client/participant.ts:84-210 | a line calling a callee is moved by no sequence of guarded handlers unless one of them resolves the call to that callee |
| Participants.NoStepStartsACall | src/components/client/participant.ts:84-210 | no guarded handler and no answer, reject or hangup resume step puts a line into calling |
| Participants.NeverCallingAgain | src/components/client/participant.ts:84-270 | no sequence of guarded handlers and unguarded resume steps puts a line that is not calling back into calling |
| Participants.ClaimedLineStaysOrLeaves | src/components/client/participant.ts:84-270 | after any sequence of guarded handlers and unguarded resume steps a claimed line is either exactly as claimed or out of calling |
| Participants.StaleResumeIsNoOp | src/components/client/participant.ts:216-235 | for every callee, the empty one included, and every interleaving of guarded handlers and unguarded resume steps: if the claimed line changed while `onCall` was awaited, the resume step changes nothing |
| Participants.ReclaimedLineTakesStaleResponse | src/components/client/participant.ts:216-270 | a hangup's resume step releases a line claimed for a callee to idle with that callee, a new call to the same callee claims it identically, and the first call's late busy then makes it callee_is_busy: the guard cannot tell the two calls apart |
| Participants.CallCompletesDespiteForeignSignals | src/components/client/participant.ts:216-235 | a call that is interleaved only with guarded handlers foreign to it completes: the line leaves calling and keeps the callee as contact |
| Participants.EmptyCalleeStrandsTheLine | src/components/client/participant.ts:216-235 | calling the empty number from a free line that records an earlier counterpart claims the line with that old counterpart, and no response ever moves it out of calling |
| Participants.ResetLineRefusesLateAnswer | src/components/client/participant.ts:101-113 | a ringing-out line reset to idle keeps the callee's number, and that callee's late answer is refused |
| LegacyClient.StateCode | src/components/client/client.tsx:4-11 | every legacy `CallState` member carries a non-zero number |
| LegacyClient.SetStateOn | src/components/client/client.tsx:179-185 | the state is always written; a non-empty contact is written, and an absent or empty contact leaves the old one in place |
| LegacyClient.Participant.SetState | src/components/client/client.tsx:179-185 | the fields change exactly as `SetStateOn` says |
| LegacyClient.Participant.constructor | src/components/client/client.tsx:169-174 | a new participant carries its number and is idle with an empty contact |
| LegacyClient.Called | src/components/client/client.tsx:191-201 | the response is busy iff the state is in `busyStates` (callee_is_ringing, ringing, talking), with nothing changed; otherwise it is ringing, the line rings with the caller as contact when that is non-empty; an empty one leaves the old contact, and the response is never unknown_number |
| LegacyClient.Participant.OnCalled | src/components/client/client.tsx:191-201 | response and new fields are those of `Called` |
| LegacyClient.CalleeAnswered | src/components/client/client.tsx:207-212 | whatever the line's state, it becomes talking, with the callee as contact when that is non-empty |
| LegacyClient.Participant.OnCalleeAnswered | src/components/client/client.tsx:207-212 | the new fields are those of `CalleeAnswered` |
| LegacyClient.CalleeRejected | src/components/client/client.tsx:218-223 | whatever the line's state, it becomes callee_is_busy, with the callee as contact when that is non-empty |
| LegacyClient.Participant.OnCalleeRejected | src/components/client/client.tsx:218-223 | the new fields are those of `CalleeRejected` |
| LegacyClient.CalleeHungUp | src/components/client/client.tsx:230-235 | whatever the argument and the state, the line becomes idle and keeps its contact |
| LegacyClient.Participant.OnCalleeHangup | src/components/client/client.tsx:230-235 | the new fields are those of `CalleeHungUp` |
| LegacyClient.UnknownNumberReported | src/components/client/client.tsx:241-246 | whatever the line's state, it becomes number_unknown, with the callee as contact when that is non-empty |
| LegacyClient.Participant.OnUnknownNumber | src/components/client/client.tsx:241-246 | the new fields are those of `UnknownNumberReported` |
| LegacyClient.Participant.MakeACallStart | src/components/client/client.tsx:252-254 | `onCall` is reached iff the callee is not the own number; there is no busy guard |
| LegacyClient.CallResolved | src/components/client/client.tsx:256-269 | busy gives callee_is_busy, unknown_number gives number_unknown and ringing gives callee_is_ringing, whatever the line's state; the callee becomes the contact when non-empty |
| LegacyClient.Participant.MakeACallResume | src/components/client/client.tsx:256-269 | the new fields are those of `CallResolved` |
| LegacyClient.AnswerDone | src/components/client/client.tsx:276-279 | the line becomes talking and keeps its contact |
| LegacyClient.Participant.AnswerCurrentCall | src/components/client/client.tsx:276-279 | the new fields are those of `AnswerDone` |
| LegacyClient.Released | src/components/client/client.tsx:285-303 | the line becomes idle and keeps its contact |
| LegacyClient.Participant.RejectCurrentCall | src/components/client/client.tsx:285-291 | the new fields are those of `Released` |
| LegacyClient.Participant.HangupCurrentCall | src/components/client/client.tsx:297-303 | the new fields are those of `Released` |
| Networks.DecimalString | src/components/network/network.tsx:40 | `toString` of a number is a non-empty string of decimal digits |
| Networks.ThreeDigits | src/components/network/network.tsx:40 | every value in 100..999 is spelled with exactly three digits |
| Networks.Dedup | src/components/network/network.tsx:39-44 | the numbers accepted by the retry loop are pairwise distinct and are exactly the distinct candidates |
| Networks.DedupPrefix | src/components/network/network.tsx:37-44 | what has been accepted after any number of draws is a prefix of everything the candidates can yield |
| Networks.DedupStep | src/components/network/network.tsx:39-44 | one more draw is accepted exactly when it is not yet in `savedNumbers` |
| Networks.CandidateLeft | src/components/network/network.tsx:39-42 | while fewer numbers are saved than the candidates can yield, a candidate is left to draw |
| Networks.DrawUnusedNumber | src/components/network/network.tsx:39-42 | the loop retries while the drawn number is in `savedNumbers`, and returns the first later candidate not in it, which extends the accepted numbers by one; every candidate skipped on the way is already saved |
| Networks.SkippedAlreadySaved | src/components/network/network.tsx:39-42 | when a stretch of draws accepted nothing new, every value drawn in it was already among the accepted numbers, so the do/while stops at the first fresh candidate |
| Networks.CreateParticipants | src/components/network/network.tsx:32-55 | exactly N participants, the i-th carrying the i-th distinct candidate (so the numbers are pairwise distinct), each three digits long, new, idle and with an empty contact |
| Networks.Network.constructor | src/components/network/network.tsx:15-26 | the network holds N new idle participants whose numbers are the first N distinct candidates, three digits each and pairwise distinct |
| Networks.Network.DistinctParticipants | src/components/network/network.tsx:32-55 | participants with distinct numbers are distinct objects |
| Networks.Find | src/components/network/network.tsx:65 | the lookup fails iff no participant has the number; otherwise it finds the first participant carrying it |
| Networks.FindUnique | src/components/network/network.tsx:65 | with distinct numbers, the participant found for a number is the one carrying it |
| Networks.CallRouting | src/components/network/network.tsx:64-73 | an unknown callee gives unknown_number and no line changes; an existing callee's `onCalled` decides the response and only its line changes |
| Networks.Network.Call | src/components/network/network.tsx:64-73 | response and new lines are those of `CallRoute` |
| Networks.AnswerRouting | src/components/network/network.tsx:81-84 | `onCalleeAnswered(calleeId)` reaches only the participant numbered `callerId`; nothing changes if it is absent |
| Networks.Network.Answer | src/components/network/network.tsx:81-84 | the new lines are those of `AnswerRoute` |
| Networks.RejectRouting | src/components/network/network.tsx:91-94 | `onCalleeRejected(calleeId)` reaches only the participant numbered `callerId`; nothing changes if it is absent |
| Networks.Network.Reject | src/components/network/network.tsx:91-94 | the new lines are those of `RejectRoute` |
| Networks.HangupRouting | src/components/network/network.tsx:102-105 | `onCalleeHangup(requesterId)` reaches only the participant numbered `counterpartId`; nothing changes if it is absent |
| Networks.Network.Hangup | src/components/network/network.tsx:102-105 | the new lines are those of `HangupRoute` |
| Networks.PlaceCall | src/components/network/network.tsx:48 | calling the own number changes no line |
| Networks.Network.MakeACall | src/components/network/network.tsx:48 | the new lines are those of `PlaceCall`: the caller's `makeACall` with its `onCall` routed through `call` |
| Networks.Network.AnswerCurrentCall | src/components/network/network.tsx:50 | the new lines are those of `AnswerCall`: `answer` with the arguments swapped, then the answerer's own update |
| Networks.Network.RejectCurrentCall | src/components/network/network.tsx:51 | the new lines are those of `RejectCall`: `reject` with the arguments swapped, then the rejecter's own update |
| Networks.Network.HangupCurrentCall | src/components/network/network.tsx:49 | the new lines are those of `HangupCall`: `hangup(self, contact)`, then the requester's own update |
| Networks.PlaceCallReachesCallee | src/components/network/network.tsx:48 | calling another participant: a free callee rings for the caller and the caller sees callee_is_ringing; a callee in `busyStates` is untouched and the caller sees callee_is_busy; no other line changes |
| Networks.PlaceCallToUnknownNumber | src/components/network/network.tsx:48 | calling a number nobody has only sets the caller to number_unknown, recording the number, or keeping the old contact when the number is empty |
| Networks.AnswerConnectsBoth | src/components/network/network.tsx:50 | because the wiring swaps the arguments, the waiting caller is told the answerer's number and both lines end up talking to each other |
| Networks.RejectReleasesBoth | src/components/network/network.tsx:51 | the waiting caller is told the rejecter's number and sees callee_is_busy; the rejecter goes idle |
| Networks.HangupReleasesBoth | src/components/network/network.tsx:49 | both lines go idle; the requester keeps the counterpart's number, and the counterpart, which goes idle whatever call it was in, keeps the contact it had |
| Networks.ActionsTowardsAbsentCounterpart | src/components/network/network.tsx:81-105 | answering, rejecting or hanging up towards a number nobody has changes only the acting line |
| Networks.TwoParticipantScenario | src/components/network/network.tsx:46-52 | with participants 111 and 222, a call is placed, answered and hung up as expected, and a call routed to 999 changes no line |

## Left out

- Rendering is not modelled: the React `Client` component, `Network.render`, `App.tsx` and the stylesheets. The `componentDidMount` state update is modelled as the constructor assigning the participants once.
- The `onStateChanged` observer is not modelled. It is a UI notification hook and changes no participant field.
- `Math.random` and `Math.round` in `createParticipants` are replaced by the `candidates` input. The requirement that the candidates yield enough distinct numbers stands in for the probabilistic termination of the retry loop. With three-digit numbers this also bounds N by 900.
- Promises and the event loop are not modelled. Each `await` is a split between two methods, and the backend closures passed to the asynchronous participant become the response parameter of the resume step. No scheduler is modelled. The lemmas quantify over every sequence of guarded handlers and of the participant's own answer, reject and hangup resume steps that may run in between. A second `makeACall` start in between is not part of that sequence; what it leads to is shown by `Participants.ReclaimedLineTakesStaleResponse`.
- The start steps of the asynchronous `answerCurrentCall`, `rejectCurrentCall` and `hangupCurrentCall` are not separate members. They only read `number` and `contactId` as the arguments of the backend request and change nothing.
- A `Participants.Participant` wired to a network is not modelled. network.tsx builds on the legacy participant, so the routing is proved for that one only. The test file expects boolean results and guarded failures from the network's `answer`, `reject` and `hangup`; those fit a network built on participant.ts, which is not part of this model.
- The legacy participant's `answerCurrentCall`, `rejectCurrentCall` and `hangupCurrentCall` do not make their backend call themselves. `Networks.Network` makes it, just before calling them. Their backend callbacks return nothing, so only the order of the two steps matters.
- The network lookup is modelled as the function `Find` over the participants' numbers rather than as a search over the objects.
