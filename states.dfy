/**
 * The enumerations of src/components/client/states.ts.
 *
 * TypeScript numeric enums carry a number per member; `StateCode` and
 * `ResponseCode` give those numbers, because the source tests a supplied
 * state for truthiness (a member whose number were 0 would be ignored).
 */
module States {

  /** The seven states of one line. */
  datatype CallState =
    | Idle
    | Ringing          // an incoming call waits for the local decision
    | CalleeIsRinging  // the outgoing call rings at the counterpart
    | NumberUnknown    // the last outgoing call went to no participant
    | CalleeIsBusy     // the last outgoing call was refused or rejected
    | Talking
    | Calling          // the outgoing call waits for the network's response

  /** What placing a call reports back. */
  datatype CallResponse = Ringing | Busy | UnknownNumber

  /** The number TypeScript gives each `CallState` member; none of them is 0. */
  function StateCode(s: CallState): (n: nat)
    ensures n != 0
  {
    match s
    case Idle => 1
    case Ringing => 2
    case CalleeIsRinging => 4
    case NumberUnknown => 8
    case CalleeIsBusy => 16
    case Talking => 32
    case Calling => 64
  }

  /** The number TypeScript gives each `CallResponse` member. */
  function ResponseCode(r: CallResponse): (n: nat)
    ensures n != 0
  {
    match r
    case Ringing => 1
    case Busy => 2
    case UnknownNumber => 4
  }

  const AllStates: set<CallState> :=
    {CallState.Idle, CallState.Ringing, CallState.CalleeIsRinging, CallState.NumberUnknown,
     CallState.CalleeIsBusy, CallState.Talking, CallState.Calling}

  const AllResponses: set<CallResponse> :=
    {CallResponse.Ringing, CallResponse.Busy, CallResponse.UnknownNumber}

  /** `CallState` has exactly seven members, and their numbers are pairwise distinct. */
  lemma SevenStates()
    ensures |AllStates| == 7
    ensures forall s: CallState :: s in AllStates
    ensures forall s, t :: StateCode(s) == StateCode(t) ==> s == t
  {
    forall s: CallState ensures s in AllStates {
      match s
      case Idle =>
      case Ringing =>
      case CalleeIsRinging =>
      case NumberUnknown =>
      case CalleeIsBusy =>
      case Talking =>
      case Calling =>
    }
  }

  /** `CallResponse` has exactly three members, and their numbers are pairwise distinct. */
  lemma ThreeResponses()
    ensures |AllResponses| == 3
    ensures forall r: CallResponse :: r in AllResponses
    ensures forall r, q :: ResponseCode(r) == ResponseCode(q) ==> r == q
  {
    forall r: CallResponse ensures r in AllResponses {
      match r
      case Ringing =>
      case Busy =>
      case UnknownNumber =>
    }
  }
}
