/**
 * The call-signalling state machine of one line, as in
 * src/components/client/participant.ts.
 *
 * Each handler is specified by a function on a `Line` value (the participant's
 * `state` and `contactId`); the `Participant` class updates its fields in place
 * through `SetState` and is proved to follow those functions. Every `async`
 * method of the source is split at its `await`: a start step that runs up to
 * the backend request, and a resume step that takes the backend's response as
 * a parameter. Between the two steps the line may receive any sequence of
 * the seven guarded handlers and of its own pending resume steps of
 * `answerCurrentCall`, `rejectCurrentCall` and `hangupCurrentCall`, which have
 * no guard.
 */
module Participants {
  import opened Options
  import opened States

  /** What the handlers read and write: the line's state and its counterpart. */
  datatype Line = Line(state: CallState, contactId: string)

  /** A handler's boolean result together with the line it leaves behind. */
  datatype Reply = Reply(ok: bool, line: Line)

  /** `isBusy`: the line can take no new incoming or outgoing call. */
  function IsBusy(s: CallState): (b: bool)
    ensures b <==> !(s == CallState.Idle || s == CallState.NumberUnknown || s == CallState.CalleeIsBusy)
  {
    assert s.Idle? || s.Ringing? || s.CalleeIsRinging? || s.NumberUnknown? || s.CalleeIsBusy? || s.Talking? || s.Calling?;
    s in [CallState.Ringing, CallState.CalleeIsRinging, CallState.Talking, CallState.Calling]
  }

  const BusyStates: set<CallState> :=
    {CallState.Ringing, CallState.CalleeIsRinging, CallState.Talking, CallState.Calling}
  const FreeStates: set<CallState> :=
    {CallState.Idle, CallState.NumberUnknown, CallState.CalleeIsBusy}

  /** The busy and the free states partition `CallState`, and `IsBusy` tells them apart. */
  lemma BusyPartition()
    ensures BusyStates !! FreeStates
    ensures BusyStates + FreeStates == AllStates
    ensures forall s :: IsBusy(s) <==> s in BusyStates
  {
    SevenStates();
  }

  /**
   * `setState`: a field is written only when its argument is truthy. A supplied
   * state always is (no member's number is 0); a contact is only when it is a
   * non-empty string, so an empty contact leaves the old one in place.
   */
  function SetStateOn(l: Line, state: Option<CallState>, contactId: Option<string>): (r: Line)
    ensures state.Some? ==> r.state == state.value
    ensures state.None? ==> r.state == l.state
    ensures contactId.Some? && contactId.value != "" ==> r.contactId == contactId.value
    ensures contactId == None || contactId == Some("") ==> r.contactId == l.contactId
  {
    Line(if state.Some? && StateCode(state.value) != 0 then state.value else l.state,
         if contactId.Some? && contactId.value != "" then contactId.value else l.contactId)
  }

  /** `onCallReceive`: a free line starts ringing for the caller; a busy one refuses. */
  function CallReceived(l: Line, caller: string): (r: Reply)
    ensures r.ok <==> !IsBusy(l.state)
    ensures !r.ok ==> r.line == l
    ensures r.ok ==> r.line.state == CallState.Ringing
    ensures r.ok && caller != "" ==> r.line.contactId == caller
    ensures r.ok && caller == "" ==> r.line.contactId == l.contactId
  {
    if IsBusy(l.state) then Reply(false, l)
    else Reply(true, SetStateOn(l, Some(CallState.Ringing), Some(caller)))
  }

  /** `onCalleeAnswer`: only the callee this line rings may connect it. */
  function CalleeAnswered(l: Line, callee: string): (r: Reply)
    ensures r.ok <==> l == Line(CallState.CalleeIsRinging, callee)
    ensures r.line == if r.ok then Line(CallState.Talking, callee) else l
  {
    if !(l.state == CallState.CalleeIsRinging && l.contactId == callee) then Reply(false, l)
    else Reply(true, SetStateOn(l, Some(CallState.Talking), Some(callee)))
  }

  /** `onCalleeReject`: only the callee this line rings may turn it down. */
  function CalleeRejected(l: Line, callee: string): (r: Reply)
    ensures r.ok <==> l == Line(CallState.CalleeIsRinging, callee)
    ensures r.line == if r.ok then Line(CallState.CalleeIsBusy, callee) else l
  {
    if !(l.state == CallState.CalleeIsRinging && l.contactId == callee) then Reply(false, l)
    else Reply(true, SetStateOn(l, Some(CallState.CalleeIsBusy), Some(callee)))
  }

  /**
   * `onCalleeHangup`: only the counterpart of a call in progress may end it.
   * The line goes idle but keeps the counterpart's number, because the empty
   * contact handed to `setState` is not written.
   */
  function CalleeHungUp(l: Line, counterpart: string): (r: Reply)
    ensures r.ok <==> l == Line(CallState.Talking, counterpart)
    ensures r.line == if r.ok then Line(CallState.Idle, counterpart) else l
  {
    if !(l.state == CallState.Talking && l.contactId == counterpart) then Reply(false, l)
    else Reply(true, SetStateOn(l, Some(CallState.Idle), Some("")))
  }

  /** `onUnknownNumberCalled`: resolves this line's pending call as "no such number". */
  function UnknownNumberReported(l: Line, callee: string): (r: Reply)
    ensures r.ok <==> l == Line(CallState.Calling, callee)
    ensures r.line == if r.ok then Line(CallState.NumberUnknown, callee) else l
  {
    if !(l.state == CallState.Calling && l.contactId == callee) then Reply(false, l)
    else Reply(true, SetStateOn(l, Some(CallState.NumberUnknown), Some(callee)))
  }

  /** `onCalleeBusy`: resolves this line's pending call as refused. */
  function CalleeBusyReported(l: Line, callee: string): (r: Reply)
    ensures r.ok <==> l == Line(CallState.Calling, callee)
    ensures r.line == if r.ok then Line(CallState.CalleeIsBusy, callee) else l
  {
    if !(l.state == CallState.Calling && l.contactId == callee) then Reply(false, l)
    else Reply(true, SetStateOn(l, Some(CallState.CalleeIsBusy), Some(callee)))
  }

  /** `onCalleeRinging`: resolves this line's pending call as delivered. */
  function CalleeRingingReported(l: Line, callee: string): (r: Reply)
    ensures r.ok <==> l == Line(CallState.Calling, callee)
    ensures r.line == if r.ok then Line(CallState.CalleeIsRinging, callee) else l
  {
    if !(l.state == CallState.Calling && l.contactId == callee) then Reply(false, l)
    else Reply(true, SetStateOn(l, Some(CallState.CalleeIsRinging), Some(callee)))
  }

  /**
   * `makeACall` up to its `await`: refuses to call its own number or to call
   * from a busy line; otherwise claims the line. `ok` says whether the backend's
   * `onCall` is reached.
   */
  function CallStarted(number: string, l: Line, callee: string): (r: Reply)
    ensures r.ok <==> number != callee && !IsBusy(l.state)
    ensures !r.ok ==> r.line == l
    ensures r.ok ==> r.line.state == CallState.Calling && IsBusy(r.line.state)
    ensures r.ok && callee != "" ==> r.line.contactId == callee
    ensures r.ok && callee == "" ==> r.line.contactId == l.contactId
  {
    if number == callee || IsBusy(l.state) then Reply(false, l)
    else Reply(true, SetStateOn(l, Some(CallState.Calling), Some(callee)))
  }

  /**
   * `makeACall` after its `await`: the response is handed to the guarded
   * handler it selects, so it takes effect only while the line still waits
   * for this very callee.
   */
  function CallResumed(l: Line, callee: string, response: CallResponse): (r: Line)
    ensures l != Line(CallState.Calling, callee) ==> r == l
    ensures l == Line(CallState.Calling, callee) ==> r.contactId == callee
    ensures l == Line(CallState.Calling, callee) ==>
      r.state == match response
                 case Busy => CallState.CalleeIsBusy
                 case UnknownNumber => CallState.NumberUnknown
                 case Ringing => CallState.CalleeIsRinging
  {
    match response
    case Busy => CalleeBusyReported(l, callee).line
    case UnknownNumber => UnknownNumberReported(l, callee).line
    case _ => CalleeRingingReported(l, callee).line
  }

  /** `answerCurrentCall` after its `await`: talking if the network agreed, else idle; no guard. */
  function AnswerResumed(l: Line, accepted: bool): (r: Line)
    ensures r.state == if accepted then CallState.Talking else CallState.Idle
    ensures r.contactId == l.contactId
  {
    SetStateOn(l, Some(if accepted then CallState.Talking else CallState.Idle), None)
  }

  /**
   * `rejectCurrentCall` and `hangupCurrentCall` after their `await`: idle
   * whatever the response and whatever the line's state; the counterpart stays.
   */
  function Released(l: Line): (r: Line)
    ensures r.state == CallState.Idle
    ensures r.contactId == l.contactId
  {
    SetStateOn(l, Some(CallState.Idle), Some(""))
  }

  class Participant {
    const number: string
    var contactId: string
    var state: CallState

    function Snapshot(): Line
      reads this
    {
      Line(state, contactId)
    }

    constructor (number: string)
      ensures this.number == number
      ensures Snapshot() == Line(CallState.Idle, "")
    {
      this.number := number;
      contactId := "";
      state := CallState.Idle;
    }

    method SetState(state': Option<CallState>, contactId': Option<string>)
      modifies this
      ensures Snapshot() == SetStateOn(old(Snapshot()), state', contactId')
    {
      if contactId'.Some? && contactId'.value != "" {
        contactId := contactId'.value;
      }
      if state'.Some? && StateCode(state'.value) != 0 {
        state := state'.value;
      }
    }

    method OnCallReceive(caller: string) returns (ok: bool)
      modifies this
      ensures Reply(ok, Snapshot()) == CallReceived(old(Snapshot()), caller)
    {
      if IsBusy(state) {
        return false;
      }
      SetState(Some(CallState.Ringing), Some(caller));
      return true;
    }

    method OnCalleeAnswer(callee: string) returns (ok: bool)
      modifies this
      ensures Reply(ok, Snapshot()) == CalleeAnswered(old(Snapshot()), callee)
    {
      if !(state == CallState.CalleeIsRinging && contactId == callee) {
        return false;
      }
      SetState(Some(CallState.Talking), Some(callee));
      return true;
    }

    method OnCalleeReject(callee: string) returns (ok: bool)
      modifies this
      ensures Reply(ok, Snapshot()) == CalleeRejected(old(Snapshot()), callee)
    {
      if !(state == CallState.CalleeIsRinging && contactId == callee) {
        return false;
      }
      SetState(Some(CallState.CalleeIsBusy), Some(callee));
      return true;
    }

    method OnCalleeHangup(counterpart: string) returns (ok: bool)
      modifies this
      ensures Reply(ok, Snapshot()) == CalleeHungUp(old(Snapshot()), counterpart)
    {
      if !(state == CallState.Talking && contactId == counterpart) {
        return false;
      }
      SetState(Some(CallState.Idle), Some(""));
      return true;
    }

    method OnUnknownNumberCalled(callee: string) returns (ok: bool)
      modifies this
      ensures Reply(ok, Snapshot()) == UnknownNumberReported(old(Snapshot()), callee)
    {
      if !(state == CallState.Calling && contactId == callee) {
        return false;
      }
      SetState(Some(CallState.NumberUnknown), Some(callee));
      return true;
    }

    method OnCalleeBusy(callee: string) returns (ok: bool)
      modifies this
      ensures Reply(ok, Snapshot()) == CalleeBusyReported(old(Snapshot()), callee)
    {
      if !(state == CallState.Calling && contactId == callee) {
        return false;
      }
      SetState(Some(CallState.CalleeIsBusy), Some(callee));
      return true;
    }

    method OnCalleeRinging(callee: string) returns (ok: bool)
      modifies this
      ensures Reply(ok, Snapshot()) == CalleeRingingReported(old(Snapshot()), callee)
    {
      if !(state == CallState.Calling && contactId == callee) {
        return false;
      }
      SetState(Some(CallState.CalleeIsRinging), Some(callee));
      return true;
    }

    /** The start step of `makeACall`; `requested` says whether `onCall(number, callee)` is awaited next. */
    method MakeACallStart(callee: string) returns (requested: bool)
      modifies this
      ensures Reply(requested, Snapshot()) == CallStarted(number, old(Snapshot()), callee)
    {
      if number == callee || IsBusy(state) {
        return false;
      }
      SetState(Some(CallState.Calling), Some(callee));
      return true;
    }

    /** The resume step of `makeACall`, given what `onCall` answered. */
    method MakeACallResume(callee: string, response: CallResponse)
      modifies this
      ensures Snapshot() == CallResumed(old(Snapshot()), callee, response)
    {
      match response
      case Busy =>
        var _ := OnCalleeBusy(callee);
      case UnknownNumber =>
        var _ := OnUnknownNumberCalled(callee);
      case _ =>
        var _ := OnCalleeRinging(callee);
    }

    /** The resume step of `answerCurrentCall`, given what `onAnswer` answered. */
    method AnswerCurrentCallResume(accepted: bool)
      modifies this
      ensures Snapshot() == AnswerResumed(old(Snapshot()), accepted)
    {
      SetState(Some(if accepted then CallState.Talking else CallState.Idle), None);
    }

    /** The resume step of `rejectCurrentCall`; the response is not consulted. */
    method RejectCurrentCallResume(response: bool)
      modifies this
      ensures Snapshot() == Released(old(Snapshot()))
    {
      SetState(Some(CallState.Idle), Some(""));
    }

    /** The resume step of `hangupCurrentCall`; the response is not consulted. */
    method HangupCurrentCallResume(response: bool)
      modifies this
      ensures Snapshot() == Released(old(Snapshot()))
    {
      SetState(Some(CallState.Idle), Some(""));
    }
  }

  // ---------------------------------------------------------------------------
  // Interleavings. Between a start step and its resume step the line may
  // receive the signals the network delivers, each handled by a guarded
  // handler, and the resume steps of its own earlier answer, reject or hangup.

  datatype Signal =
    | CallReceive(caller: string)
    | CalleeAnswer(from: string)
    | CalleeReject(from: string)
    | CalleeHangup(from: string)
    | UnknownNumberCalled(from: string)
    | CalleeBusy(from: string)
    | CalleeRinging(from: string)

  function Deliver(l: Line, s: Signal): Line
  {
    match s
    case CallReceive(c) => CallReceived(l, c).line
    case CalleeAnswer(c) => CalleeAnswered(l, c).line
    case CalleeReject(c) => CalleeRejected(l, c).line
    case CalleeHangup(c) => CalleeHungUp(l, c).line
    case UnknownNumberCalled(c) => UnknownNumberReported(l, c).line
    case CalleeBusy(c) => CalleeBusyReported(l, c).line
    case CalleeRinging(c) => CalleeRingingReported(l, c).line
  }

  function DeliverAll(l: Line, ss: seq<Signal>): Line
    decreases |ss|
  {
    if ss == [] then l else DeliverAll(Deliver(l, ss[0]), ss[1..])
  }

  /** The signals that resolve an outgoing call to `callee`. */
  predicate ResolvesCallTo(s: Signal, callee: string)
  {
    (s.UnknownNumberCalled? || s.CalleeBusy? || s.CalleeRinging?) && s.from == callee
  }

  /**
   * Every handler is idempotent: once it has taken effect its own guard no
   * longer holds, and a failed guard changes nothing.
   */
  lemma DeliverIdempotent(l: Line, s: Signal)
    ensures Deliver(Deliver(l, s), s) == Deliver(l, s)
  {
  }

  /**
   * The line claimed by `makeACall` stays claimed against guarded signals: no
   * incoming call, no stale answer, rejection or hangup, and no resolution of
   * a call to another number moves it, however many arrive and in whatever
   * order. (The unguarded resume steps do move it; see `Step`.)
   */
  lemma {:induction false} ClaimedLineIgnoresForeignSignals(callee: string, ss: seq<Signal>)
    requires forall s :: s in ss ==> !ResolvesCallTo(s, callee)
    ensures DeliverAll(Line(CallState.Calling, callee), ss) == Line(CallState.Calling, callee)
    decreases |ss|
  {
    if ss != [] {
      assert ss[0] in ss;
      assert forall s :: s in ss[1..] ==> s in ss;
      ClaimedLineIgnoresForeignSignals(callee, ss[1..]);
    }
  }

  /**
   * What may run on a line between `makeACall`'s two steps: a guarded
   * handler, or the resume step of an earlier `answerCurrentCall`,
   * `rejectCurrentCall` or `hangupCurrentCall` of the same participant.
   */
  datatype Step =
    | Guarded(signal: Signal)
    | OwnAnswerResume(accepted: bool)
    | OwnRelease

  function Apply(l: Line, st: Step): Line
  {
    match st
    case Guarded(s) => Deliver(l, s)
    case OwnAnswerResume(accepted) => AnswerResumed(l, accepted)
    case OwnRelease => Released(l)
  }

  function ApplyAll(l: Line, sts: seq<Step>): Line
    decreases |sts|
  {
    if sts == [] then l else ApplyAll(Apply(l, sts[0]), sts[1..])
  }

  /** No step puts a line into `calling`: only the start step of `makeACall` does. */
  lemma NoStepStartsACall(l: Line, st: Step)
    requires l.state != CallState.Calling
    ensures Apply(l, st).state != CallState.Calling
  {
  }

  /** A line that is not calling never becomes calling again, whatever steps run. */
  lemma {:induction false} NeverCallingAgain(l: Line, sts: seq<Step>)
    requires l.state != CallState.Calling
    ensures ApplyAll(l, sts).state != CallState.Calling
    decreases |sts|
  {
    if sts != [] {
      NoStepStartsACall(l, sts[0]);
      NeverCallingAgain(Apply(l, sts[0]), sts[1..]);
    }
  }

  /**
   * A claimed line either is left exactly as it was claimed or, once a step
   * has moved it, is out of `calling` for good.
   */
  lemma {:induction false} ClaimedLineStaysOrLeaves(x: string, sts: seq<Step>)
    ensures var now := ApplyAll(Line(CallState.Calling, x), sts);
            now == Line(CallState.Calling, x) || now.state != CallState.Calling
    decreases |sts|
  {
    if sts != [] {
      var next := Apply(Line(CallState.Calling, x), sts[0]);
      if next == Line(CallState.Calling, x) {
        ClaimedLineStaysOrLeaves(x, sts[1..]);
      } else {
        NeverCallingAgain(next, sts[1..]);
      }
    }
  }

  /**
   * The race guard: when the line is no longer as `makeACall` claimed it at
   * the moment `onCall` returns, the resume step changes nothing. This holds
   * for every callee, the empty one included, whose claimed line may carry an
   * older counterpart, and for every interleaving of guarded handlers and
   * unguarded resume steps.
   */
  lemma StaleResumeIsNoOp(number: string, l: Line, callee: string, sts: seq<Step>, response: CallResponse)
    requires CallStarted(number, l, callee).ok
    requires ApplyAll(CallStarted(number, l, callee).line, sts) != CallStarted(number, l, callee).line
    ensures var now := ApplyAll(CallStarted(number, l, callee).line, sts);
            CallResumed(now, callee, response) == now
  {
    ClaimedLineStaysOrLeaves(CallStarted(number, l, callee).line.contactId, sts);
  }

  /**
   * The guard cannot tell two calls to the same callee apart. An earlier
   * hangup's resume step releases the line claimed for `callee`, the line is
   * claimed again for the same callee, and the first call's late `busy`
   * response then lands on the second call.
   */
  lemma ReclaimedLineTakesStaleResponse(number: string, callee: string)
    requires callee != "" && number != callee
    ensures Released(Line(CallState.Calling, callee)) == Line(CallState.Idle, callee)
    ensures CallStarted(number, Line(CallState.Idle, callee), callee) ==
            Reply(true, Line(CallState.Calling, callee))
    ensures CallResumed(Line(CallState.Calling, callee), callee, CallResponse.Busy) ==
            Line(CallState.CalleeIsBusy, callee)
  {
  }

  /**
   * An outgoing call interleaved only with foreign signals completes as if it
   * ran alone: the response decides the line's new state.
   */
  lemma CallCompletesDespiteForeignSignals(number: string, l: Line, callee: string, ss: seq<Signal>, response: CallResponse)
    requires callee != "" && number != callee && !IsBusy(l.state)
    requires forall s :: s in ss ==> !ResolvesCallTo(s, callee)
    ensures var now := DeliverAll(CallStarted(number, l, callee).line, ss);
            CallResumed(now, callee, response).contactId == callee &&
            CallResumed(now, callee, response).state != CallState.Calling
  {
    ClaimedLineIgnoresForeignSignals(callee, ss);
  }

  /**
   * A call to the empty number from a line that still holds an earlier
   * counterpart is claimed with that old counterpart, so the resume step's
   * guard (counterpart == "") can never hold and the line stays `calling`.
   */
  lemma EmptyCalleeStrandsTheLine(number: string, l: Line, response: CallResponse)
    requires number != "" && !IsBusy(l.state) && l.contactId != ""
    ensures CallStarted(number, l, "").line == Line(CallState.Calling, l.contactId)
    ensures CallResumed(CallStarted(number, l, "").line, "", response) == Line(CallState.Calling, l.contactId)
  {
  }

  /**
   * A line reset to idle by `setState({state: idle, contactId: ''})` while its
   * callee rang keeps that callee's number, yet the callee's late answer is
   * refused because the state no longer matches.
   */
  lemma ResetLineRefusesLateAnswer(callee: string)
    requires callee != ""
    ensures SetStateOn(Line(CallState.CalleeIsRinging, callee), Some(CallState.Idle), Some(""))
            == Line(CallState.Idle, callee)
    ensures CalleeAnswered(Line(CallState.Idle, callee), callee) == Reply(false, Line(CallState.Idle, callee))
  {
  }
}
