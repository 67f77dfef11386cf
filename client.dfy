/**
 * The synchronous `Participant` of src/components/client/client.tsx, the one
 * the network component is built on. It has no `calling` state and none of its
 * handlers check the state they are called in, except `onCalled`, which refuses
 * a line in `busyStates`.
 *
 * As in the asynchronous participant, each handler is specified by a function
 * on a `Line` value and the class follows those functions. The calls this
 * participant makes into its backend (`onCall`, `onAnswer`, `onReject`,
 * `onHangup`) are made by the network that wires it; here `makeACall` is split
 * around its backend call, and the other three actions keep only the state
 * change that follows theirs.
 */
module LegacyClient {
  import opened Options

  datatype CallState = Idle | Ringing | CalleeIsRinging | NumberUnknown | CalleeIsBusy | Talking

  datatype CallResponse = Ringing | Busy | UnknownNumber

  /** The number TypeScript gives each member; none is 0, so `setState` always takes the state. */
  function StateCode(s: CallState): (n: nat)
    ensures n != 0
  {
    match s
    case Idle => 1
    case Ringing => 2
    case CalleeIsRinging => 4
    case NumberUnknown => 8
    case CalleeIsBusy => 16
    case Talking => 32
  }

  /** `busyStates`: the states in which an incoming call is refused. */
  const BusyStates: seq<CallState> := [CallState.CalleeIsRinging, CallState.Ringing, CallState.Talking]

  datatype Line = Line(state: CallState, contactId: string)

  /**
   * `setState`: the state is mandatory and always written; the contact only
   * when it is a non-empty string.
   */
  function SetStateOn(l: Line, state: CallState, contactId: Option<string>): (r: Line)
    ensures r.state == state
    ensures contactId.Some? && contactId.value != "" ==> r.contactId == contactId.value
    ensures contactId == None || contactId == Some("") ==> r.contactId == l.contactId
  {
    Line(if StateCode(state) != 0 then state else l.state,
         if contactId.Some? && contactId.value != "" then contactId.value else l.contactId)
  }

  /** `onCalled`: a line outside `busyStates` rings for the caller; a busy one answers busy. */
  function Called(l: Line, caller: string): (r: (CallResponse, Line))
    ensures r.0 == CallResponse.Busy <==> l.state in BusyStates
    ensures r.0 != CallResponse.UnknownNumber
    ensures r.0 == CallResponse.Busy ==> r.1 == l
    ensures r.0 == CallResponse.Ringing ==> r.1.state == CallState.Ringing
    ensures r.0 == CallResponse.Ringing && caller != "" ==> r.1.contactId == caller
    ensures r.0 == CallResponse.Ringing && caller == "" ==> r.1.contactId == l.contactId
  {
    if l.state in BusyStates then (CallResponse.Busy, l)
    else (CallResponse.Ringing, SetStateOn(l, CallState.Ringing, Some(caller)))
  }

  /** `onCalleeAnswered`: talking with the callee, whatever the line was doing. */
  function CalleeAnswered(l: Line, callee: string): (r: Line)
    ensures r.state == CallState.Talking
    ensures callee != "" ==> r.contactId == callee
    ensures callee == "" ==> r.contactId == l.contactId
  {
    SetStateOn(l, CallState.Talking, Some(callee))
  }

  /** `onCalleeRejected`: the callee is reported busy, whatever the line was doing. */
  function CalleeRejected(l: Line, callee: string): (r: Line)
    ensures r.state == CallState.CalleeIsBusy
    ensures callee != "" ==> r.contactId == callee
    ensures callee == "" ==> r.contactId == l.contactId
  {
    SetStateOn(l, CallState.CalleeIsBusy, Some(callee))
  }

  /** `onCalleeHangup`: idle whoever hangs up; the old counterpart stays recorded. */
  function CalleeHungUp(l: Line, counterpart: string): (r: Line)
    ensures r == Line(CallState.Idle, l.contactId)
  {
    SetStateOn(l, CallState.Idle, Some(""))
  }

  /** `onUnknownNumber`: the number called does not exist, whatever the line was doing. */
  function UnknownNumberReported(l: Line, callee: string): (r: Line)
    ensures r.state == CallState.NumberUnknown
    ensures callee != "" ==> r.contactId == callee
    ensures callee == "" ==> r.contactId == l.contactId
  {
    SetStateOn(l, CallState.NumberUnknown, Some(callee))
  }

  /**
   * `makeACall` after `onCall` returned: the response picks the new state and
   * the callee becomes the counterpart. There is no busy guard: a line in the
   * middle of a call is overwritten as well.
   */
  function CallResolved(l: Line, callee: string, response: CallResponse): (r: Line)
    ensures r.state == match response
                       case Busy => CallState.CalleeIsBusy
                       case UnknownNumber => CallState.NumberUnknown
                       case Ringing => CallState.CalleeIsRinging
    ensures callee != "" ==> r.contactId == callee
    ensures callee == "" ==> r.contactId == l.contactId
  {
    match response
    case Busy => CalleeRejected(l, callee)
    case UnknownNumber => UnknownNumberReported(l, callee)
    case _ => SetStateOn(l, CallState.CalleeIsRinging, Some(callee))
  }

  /** `answerCurrentCall` after `onAnswer`: talking, with the counterpart kept. */
  function AnswerDone(l: Line): (r: Line)
    ensures r == Line(CallState.Talking, l.contactId)
  {
    SetStateOn(l, CallState.Talking, None)
  }

  /** `rejectCurrentCall` and `hangupCurrentCall` after their backend call: idle, counterpart kept. */
  function Released(l: Line): (r: Line)
    ensures r == Line(CallState.Idle, l.contactId)
  {
    SetStateOn(l, CallState.Idle, Some(""))
  }

  class Participant {
    const number: string
    var contactId: string
    var state: CallState

    function Snapshot(): Line
      reads this
    {
      Line(state, contactId)
    }

    constructor (number: string)
      ensures this.number == number
      ensures Snapshot() == Line(CallState.Idle, "")
    {
      this.number := number;
      contactId := "";
      state := CallState.Idle;
    }

    method SetState(state': CallState, contactId': Option<string>)
      modifies this
      ensures Snapshot() == SetStateOn(old(Snapshot()), state', contactId')
    {
      if contactId'.Some? && contactId'.value != "" {
        contactId := contactId'.value;
      }
      if StateCode(state') != 0 {
        state := state';
      }
    }

    method OnCalled(caller: string) returns (response: CallResponse)
      modifies this
      ensures (response, Snapshot()) == Called(old(Snapshot()), caller)
    {
      if state in BusyStates {
        return CallResponse.Busy;
      }
      SetState(CallState.Ringing, Some(caller));
      return CallResponse.Ringing;
    }

    method OnCalleeAnswered(callee: string)
      modifies this
      ensures Snapshot() == CalleeAnswered(old(Snapshot()), callee)
    {
      SetState(CallState.Talking, Some(callee));
    }

    method OnCalleeRejected(callee: string)
      modifies this
      ensures Snapshot() == CalleeRejected(old(Snapshot()), callee)
    {
      SetState(CallState.CalleeIsBusy, Some(callee));
    }

    method OnCalleeHangup(counterpart: string)
      modifies this
      ensures Snapshot() == CalleeHungUp(old(Snapshot()), counterpart)
    {
      SetState(CallState.Idle, Some(""));
    }

    method OnUnknownNumber(callee: string)
      modifies this
      ensures Snapshot() == UnknownNumberReported(old(Snapshot()), callee)
    {
      SetState(CallState.NumberUnknown, Some(callee));
    }

    /** `makeACall` before its backend call: `onCall` is reached unless the number is its own. */
    method MakeACallStart(callee: string) returns (requested: bool)
      ensures requested <==> number != callee
    {
      requested := number != callee;
    }

    /** `makeACall` after its backend call, given what `onCall` returned. */
    method MakeACallResume(callee: string, response: CallResponse)
      modifies this
      ensures Snapshot() == CallResolved(old(Snapshot()), callee, response)
    {
      match response
      case Busy =>
        OnCalleeRejected(callee);
      case UnknownNumber =>
        OnUnknownNumber(callee);
      case _ =>
        SetState(CallState.CalleeIsRinging, Some(callee));
    }

    /** `answerCurrentCall` after its `onAnswer(number, contactId)` call. */
    method AnswerCurrentCall()
      modifies this
      ensures Snapshot() == AnswerDone(old(Snapshot()))
    {
      SetState(CallState.Talking, None);
    }

    /** `rejectCurrentCall` after its `onReject(number, contactId)` call. */
    method RejectCurrentCall()
      modifies this
      ensures Snapshot() == Released(old(Snapshot()))
    {
      SetState(CallState.Idle, Some(""));
    }

    /** `hangupCurrentCall` after its `onHangup(number, contactId)` call. */
    method HangupCurrentCall()
      modifies this
      ensures Snapshot() == Released(old(Snapshot()))
    {
      SetState(CallState.Idle, Some(""));
    }
  }
}
