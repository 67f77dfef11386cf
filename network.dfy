/**
 * The registry and the routing of src/components/network/network.tsx, built,
 * as that file is, on the synchronous participant of client.tsx.
 *
 * A network holds its participants in a sequence assigned once, at
 * construction. Routing looks a number up (the first participant carrying it)
 * and hands one signal to that participant; a lookup miss is the only failure
 * the network adds. The closures each participant is given at construction are
 * modelled by the methods `MakeACall`, `AnswerCurrentCall`, `RejectCurrentCall`
 * and `HangupCurrentCall`, which run a participant's action with its backend
 * bound to this network.
 *
 * The pure functions below describe every operation on the registry's numbers
 * and the participants' lines; the class's methods are proved to follow them.
 */
module Networks {
  import opened Options
  import opened LegacyClient

  // ---------------------------------------------------------------------------
  // Numbers

  function DigitChar(d: nat): (c: char)
    requires d < 10
    ensures '0' <= c <= '9'
  {
    "0123456789"[d]
  }

  /** `toString` of a non-negative integer: its decimal digits, without leading zeros. */
  function DecimalString(n: nat): (s: string)
    ensures |s| >= 1
    ensures forall c :: c in s ==> '0' <= c <= '9'
    decreases n
  {
    (if n < 10 then "" else DecimalString(n / 10)) + [DigitChar(n % 10)]
  }

  /** Every number the candidate generator can draw (100 to 999) is spelled with three digits. */
  lemma {:induction false} ThreeDigits(n: nat)
    requires 100 <= n <= 999
    ensures |DecimalString(n)| == 3
  {
    assert DecimalString(n / 100) == [DigitChar(n / 100)];
    assert (n / 10) / 10 == n / 100;
  }

  /** The candidate numbers, spelled as the loop spells them. */
  function Spelled(candidates: seq<nat>): seq<string>
  {
    seq(|candidates|, j requires 0 <= j < |candidates| => DecimalString(candidates[j]))
  }

  predicate Distinct(s: seq<string>)
  {
    forall i, j :: 0 <= i < j < |s| ==> s[i] != s[j]
  }

  /**
   * The numbers a retry-until-new loop accepts from a stream of candidates:
   * each value at its first occurrence, in stream order.
   */
  function Dedup(s: seq<string>): (r: seq<string>)
    ensures Distinct(r)
    ensures forall x :: x in r <==> x in s
    decreases |s|
  {
    if s == [] then []
    else
      var d := Dedup(s[..|s| - 1]);
      assert s == s[..|s| - 1] + [s[|s| - 1]];
      if s[|s| - 1] in d then d else d + [s[|s| - 1]]
  }

  /** What the loop has accepted after drawing `k` candidates is a prefix of what it could ever accept. */
  lemma {:induction false} DedupPrefix(s: seq<string>, k: nat)
    requires k <= |s|
    ensures Dedup(s[..k]) <= Dedup(s)
    decreases |s| - k
  {
    if k < |s| {
      var s' := s[..|s| - 1];
      assert s'[..k] == s[..k];
      DedupPrefix(s', k);
      assert Dedup(s') <= Dedup(s);
    } else {
      assert s[..k] == s;
    }
  }

  /** Drawing one more candidate: it is accepted exactly when it is not yet taken. */
  lemma DedupStep(s: seq<string>, k: nat)
    requires k < |s|
    ensures s[k] in Dedup(s[..k]) ==> Dedup(s[..k + 1]) == Dedup(s[..k])
    ensures s[k] !in Dedup(s[..k]) ==> Dedup(s[..k + 1]) == Dedup(s[..k]) + [s[k]]
  {
    assert s[..k + 1][..k] == s[..k];
  }

  /** While fewer numbers are accepted than the stream can offer, a candidate is left to draw. */
  lemma CandidateLeft(s: seq<string>, k: nat, n: nat)
    requires k <= |s| && |Dedup(s[..k])| < n <= |Dedup(s)|
    ensures k < |s|
  {
    assert s[..|s|] == s;
  }

  // ---------------------------------------------------------------------------
  // Lookup and routing, on the registry's numbers and the participants' lines

  /** `participants.find(x => x.number === id)`, as an index. */
  function Find(numbers: seq<string>, id: string): (r: Option<nat>)
    ensures r.None? <==> id !in numbers
    ensures r.Some? ==> r.value < |numbers| && numbers[r.value] == id
    ensures r.Some? ==> forall j :: 0 <= j < r.value ==> numbers[j] != id
    decreases |numbers|
  {
    if numbers == [] then None
    else if numbers[0] == id then Some(0)
    else match Find(numbers[1..], id)
         case None => None
         case Some(j) => Some(j + 1)
  }

  /** With pairwise-distinct numbers, the participant found is the one carrying the number. */
  lemma FindUnique(numbers: seq<string>, k: nat)
    requires Distinct(numbers) && k < |numbers|
    ensures Find(numbers, numbers[k]) == Some(k)
  {
  }

  /** `call`: the callee's `onCalled(callerId)`, or `unknown_number` if no one has the number. */
  function CallRoute(numbers: seq<string>, lines: seq<Line>, callerId: string, calleeId: string): (CallResponse, seq<Line>)
    requires |numbers| == |lines|
  {
    match Find(numbers, calleeId)
    case None => (CallResponse.UnknownNumber, lines)
    case Some(k) => (Called(lines[k], callerId).0, lines[k := Called(lines[k], callerId).1])
  }

  /** `answer`: the waiting caller's `onCalleeAnswered(calleeId)`, if the caller exists. */
  function AnswerRoute(numbers: seq<string>, lines: seq<Line>, callerId: string, calleeId: string): seq<Line>
    requires |numbers| == |lines|
  {
    match Find(numbers, callerId)
    case None => lines
    case Some(k) => lines[k := CalleeAnswered(lines[k], calleeId)]
  }

  /** `reject`: the waiting caller's `onCalleeRejected(calleeId)`, if the caller exists. */
  function RejectRoute(numbers: seq<string>, lines: seq<Line>, callerId: string, calleeId: string): seq<Line>
    requires |numbers| == |lines|
  {
    match Find(numbers, callerId)
    case None => lines
    case Some(k) => lines[k := CalleeRejected(lines[k], calleeId)]
  }

  /** `hangup`: the counterpart's `onCalleeHangup(requesterId)`, if the counterpart exists. */
  function HangupRoute(numbers: seq<string>, lines: seq<Line>, requesterId: string, counterpartId: string): seq<Line>
    requires |numbers| == |lines|
  {
    match Find(numbers, counterpartId)
    case None => lines
    case Some(k) => lines[k := CalleeHungUp(lines[k], requesterId)]
  }

  /** `call` touches no line when the number is unknown, and otherwise only the callee's. */
  lemma CallRouting(numbers: seq<string>, lines: seq<Line>, callerId: string, calleeId: string)
    requires |numbers| == |lines| && Distinct(numbers)
    ensures calleeId !in numbers ==> CallRoute(numbers, lines, callerId, calleeId) == (CallResponse.UnknownNumber, lines)
    ensures forall k :: 0 <= k < |numbers| && numbers[k] == calleeId ==>
      CallRoute(numbers, lines, callerId, calleeId) ==
        (Called(lines[k], callerId).0, lines[k := Called(lines[k], callerId).1])
  {
    forall k | 0 <= k < |numbers| && numbers[k] == calleeId {
      FindUnique(numbers, k);
    }
  }

  /** `answer` reaches only the participant numbered `callerId`, and nothing changes if it is absent. */
  lemma AnswerRouting(numbers: seq<string>, lines: seq<Line>, callerId: string, calleeId: string)
    requires |numbers| == |lines| && Distinct(numbers)
    ensures callerId !in numbers ==> AnswerRoute(numbers, lines, callerId, calleeId) == lines
    ensures forall k :: 0 <= k < |numbers| && numbers[k] == callerId ==>
      AnswerRoute(numbers, lines, callerId, calleeId) == lines[k := CalleeAnswered(lines[k], calleeId)]
  {
    forall k | 0 <= k < |numbers| && numbers[k] == callerId {
      FindUnique(numbers, k);
    }
  }

  /** `reject` reaches only the participant numbered `callerId`, and nothing changes if it is absent. */
  lemma RejectRouting(numbers: seq<string>, lines: seq<Line>, callerId: string, calleeId: string)
    requires |numbers| == |lines| && Distinct(numbers)
    ensures callerId !in numbers ==> RejectRoute(numbers, lines, callerId, calleeId) == lines
    ensures forall k :: 0 <= k < |numbers| && numbers[k] == callerId ==>
      RejectRoute(numbers, lines, callerId, calleeId) == lines[k := CalleeRejected(lines[k], calleeId)]
  {
    forall k | 0 <= k < |numbers| && numbers[k] == callerId {
      FindUnique(numbers, k);
    }
  }

  /** `hangup` reaches only the participant numbered `counterpartId`, and nothing changes if it is absent. */
  lemma HangupRouting(numbers: seq<string>, lines: seq<Line>, requesterId: string, counterpartId: string)
    requires |numbers| == |lines| && Distinct(numbers)
    ensures counterpartId !in numbers ==> HangupRoute(numbers, lines, requesterId, counterpartId) == lines
    ensures forall k :: 0 <= k < |numbers| && numbers[k] == counterpartId ==>
      HangupRoute(numbers, lines, requesterId, counterpartId) == lines[k := CalleeHungUp(lines[k], requesterId)]
  {
    forall k | 0 <= k < |numbers| && numbers[k] == counterpartId {
      FindUnique(numbers, k);
    }
  }

  // ---------------------------------------------------------------------------
  // A participant's actions with its backend bound to the network

  /** Participant `i`'s `makeACall(callee)`, whose `onCall` is `call(self, callee)`. */
  function PlaceCall(numbers: seq<string>, lines: seq<Line>, i: nat, callee: string): (r: seq<Line>)
    requires |numbers| == |lines| && i < |lines|
    ensures numbers[i] == callee ==> r == lines
  {
    if numbers[i] == callee then lines
    else
      var routed := CallRoute(numbers, lines, numbers[i], callee);
      routed.1[i := CallResolved(routed.1[i], callee, routed.0)]
  }

  /** Participant `i`'s `answerCurrentCall()`, whose `onAnswer(self, caller)` is `answer(caller, self)`. */
  function AnswerCall(numbers: seq<string>, lines: seq<Line>, i: nat): seq<Line>
    requires |numbers| == |lines| && i < |lines|
  {
    var routed := AnswerRoute(numbers, lines, lines[i].contactId, numbers[i]);
    routed[i := AnswerDone(routed[i])]
  }

  /** Participant `i`'s `rejectCurrentCall()`, whose `onReject(self, caller)` is `reject(caller, self)`. */
  function RejectCall(numbers: seq<string>, lines: seq<Line>, i: nat): seq<Line>
    requires |numbers| == |lines| && i < |lines|
  {
    var routed := RejectRoute(numbers, lines, lines[i].contactId, numbers[i]);
    routed[i := Released(routed[i])]
  }

  /** Participant `i`'s `hangupCurrentCall()`, whose `onHangup(self, contact)` is `hangup(self, contact)`. */
  function HangupCall(numbers: seq<string>, lines: seq<Line>, i: nat): seq<Line>
    requires |numbers| == |lines| && i < |lines|
  {
    var routed := HangupRoute(numbers, lines, numbers[i], lines[i].contactId);
    routed[i := Released(routed[i])]
  }

  /**
   * Calling another participant's number: a free callee starts ringing for the
   * caller and the caller sees it ringing; a callee in `busyStates` is left
   * alone and the caller sees it busy. No other line changes.
   */
  lemma PlaceCallReachesCallee(numbers: seq<string>, lines: seq<Line>, i: nat, k: nat)
    requires |numbers| == |lines| && Distinct(numbers) && i < |lines| && k < |lines| && i != k
    requires numbers[i] != "" && numbers[k] != ""
    ensures lines[k].state !in BusyStates ==>
      PlaceCall(numbers, lines, i, numbers[k]) ==
        lines[k := Line(CallState.Ringing, numbers[i])][i := Line(CallState.CalleeIsRinging, numbers[k])]
    ensures lines[k].state in BusyStates ==>
      PlaceCall(numbers, lines, i, numbers[k]) == lines[i := Line(CallState.CalleeIsBusy, numbers[k])]
  {
    CallRouting(numbers, lines, numbers[i], numbers[k]);
    assert numbers[i] != numbers[k];
  }

  /**
   * Calling a number nobody has leaves every other line alone and reports the
   * number unknown. The empty number (what the dial field holds before anything
   * is typed) is recorded nowhere: the caller keeps its old contact.
   */
  lemma PlaceCallToUnknownNumber(numbers: seq<string>, lines: seq<Line>, i: nat, callee: string)
    requires |numbers| == |lines| && Distinct(numbers) && i < |lines|
    requires callee !in numbers
    ensures callee != "" ==> PlaceCall(numbers, lines, i, callee) == lines[i := Line(CallState.NumberUnknown, callee)]
    ensures callee == "" ==>
      PlaceCall(numbers, lines, i, callee) == lines[i := Line(CallState.NumberUnknown, lines[i].contactId)]
  {
    CallRouting(numbers, lines, numbers[i], callee);
  }

  /**
   * The wiring swaps the arguments of `onAnswer`, so the waiting caller is told
   * the answerer's number and both lines end up talking to each other. The
   * caller is connected whatever its state was: this `onCalleeAnswered` has no
   * guard.
   */
  lemma AnswerConnectsBoth(numbers: seq<string>, lines: seq<Line>, i: nat, j: nat)
    requires |numbers| == |lines| && Distinct(numbers) && i < |lines| && j < |lines| && i != j
    requires numbers[i] != "" && lines[i].contactId == numbers[j]
    ensures AnswerCall(numbers, lines, i) ==
      lines[j := Line(CallState.Talking, numbers[i])][i := Line(CallState.Talking, numbers[j])]
  {
    AnswerRouting(numbers, lines, numbers[j], numbers[i]);
  }

  /** Rejecting: the waiting caller is told the rejecter's number and sees it busy; the rejecter goes idle. */
  lemma RejectReleasesBoth(numbers: seq<string>, lines: seq<Line>, i: nat, j: nat)
    requires |numbers| == |lines| && Distinct(numbers) && i < |lines| && j < |lines| && i != j
    requires numbers[i] != "" && lines[i].contactId == numbers[j]
    ensures RejectCall(numbers, lines, i) ==
      lines[j := Line(CallState.CalleeIsBusy, numbers[i])][i := Line(CallState.Idle, numbers[j])]
  {
    RejectRouting(numbers, lines, numbers[j], numbers[i]);
  }

  /**
   * Hanging up: the requester goes idle and keeps the counterpart's number;
   * the counterpart goes idle whatever call it was in (this `onCalleeHangup`
   * has no guard) and keeps the contact it had.
   */
  lemma HangupReleasesBoth(numbers: seq<string>, lines: seq<Line>, i: nat, j: nat)
    requires |numbers| == |lines| && Distinct(numbers) && i < |lines| && j < |lines| && i != j
    requires lines[i].contactId == numbers[j]
    ensures HangupCall(numbers, lines, i) ==
      lines[j := Line(CallState.Idle, lines[j].contactId)][i := Line(CallState.Idle, numbers[j])]
  {
    HangupRouting(numbers, lines, numbers[i], numbers[j]);
  }

  /** Answering, rejecting or hanging up towards a number nobody has changes only the acting line. */
  lemma ActionsTowardsAbsentCounterpart(numbers: seq<string>, lines: seq<Line>, i: nat)
    requires |numbers| == |lines| && Distinct(numbers) && i < |lines|
    requires lines[i].contactId !in numbers
    ensures AnswerCall(numbers, lines, i) == lines[i := Line(CallState.Talking, lines[i].contactId)]
    ensures RejectCall(numbers, lines, i) == lines[i := Line(CallState.Idle, lines[i].contactId)]
    ensures HangupCall(numbers, lines, i) == lines[i := Line(CallState.Idle, lines[i].contactId)]
  {
    AnswerRouting(numbers, lines, lines[i].contactId, numbers[i]);
    RejectRouting(numbers, lines, lines[i].contactId, numbers[i]);
    HangupRouting(numbers, lines, numbers[i], lines[i].contactId);
  }

  /**
   * Two participants "111" and "222": a call is placed, answered and hung up;
   * routing a call to "999" changes no line. At the end both lines are
   * idle and still record each other's number.
   */
  lemma TwoParticipantScenario()
    ensures var numbers := ["111", "222"];
            var start := [Line(CallState.Idle, ""), Line(CallState.Idle, "")];
            var placed := PlaceCall(numbers, start, 0, "222");
            var answered := AnswerCall(numbers, placed, 1);
            var ended := HangupCall(numbers, answered, 0);
            && CallRoute(numbers, start, "111", "222").0 == CallResponse.Ringing
            && placed == [Line(CallState.CalleeIsRinging, "222"), Line(CallState.Ringing, "111")]
            && answered == [Line(CallState.Talking, "222"), Line(CallState.Talking, "111")]
            && ended == [Line(CallState.Idle, "222"), Line(CallState.Idle, "111")]
            && CallRoute(numbers, start, "111", "999") == (CallResponse.UnknownNumber, start)
  {
    var numbers := ["111", "222"];
    var start := [Line(CallState.Idle, ""), Line(CallState.Idle, "")];
    assert Distinct(numbers);
    PlaceCallReachesCallee(numbers, start, 0, 1);
    var placed := PlaceCall(numbers, start, 0, "222");
    AnswerConnectsBoth(numbers, placed, 1, 0);
    var answered := AnswerCall(numbers, placed, 1);
    HangupReleasesBoth(numbers, answered, 0, 1);
    CallRouting(numbers, start, "111", "222");
    CallRouting(numbers, start, "111", "999");
  }

  // ---------------------------------------------------------------------------
  // The component

  function NumbersOf(ps: seq<Participant>): (numbers: seq<string>)
  {
    seq(|ps|, j requires 0 <= j < |ps| => ps[j].number)
  }

  /**
   * The `do/while` of `createParticipants`: draws candidates, from index
   * `drawn` on, until one is not among `savedNumbers`. `candidates` stands for
   * the values `Math.round(Math.random() * 899 + 100)` takes, in order.
   */
  /**
   * When drawing from position `from` up to `to` accepted nothing new, every
   * value drawn on the way was already accepted.
   */
  lemma SkippedAlreadySaved(s: seq<string>, from: nat, to: nat)
    requires from <= to <= |s|
    requires Dedup(s[..to]) == Dedup(s[..from])
    ensures forall m :: from <= m < to ==> s[m] in Dedup(s[..from])
  {
    forall m | from <= m < to
      ensures s[m] in Dedup(s[..from])
    {
      assert s[m] == s[..to][m];
    }
  }

  method DrawUnusedNumber(candidates: seq<nat>, savedNumbers: seq<string>, drawn: nat, ghost wanted: nat)
    returns (participantId: string, drawn': nat)
    requires drawn <= |candidates|
    requires savedNumbers == Dedup(Spelled(candidates)[..drawn])
    requires |savedNumbers| < wanted <= |Dedup(Spelled(candidates))|
    ensures drawn < drawn' <= |candidates|
    ensures participantId == DecimalString(candidates[drawn' - 1])
    ensures participantId !in savedNumbers
    ensures Dedup(Spelled(candidates)[..drawn']) == savedNumbers + [participantId]
    ensures forall m :: drawn <= m < drawn' - 1 ==> Spelled(candidates)[m] in savedNumbers
  {
    ghost var spelled := Spelled(candidates);
    assert drawn < |candidates| by { CandidateLeft(spelled, drawn, wanted); }
    var k := drawn;
    participantId := DecimalString(candidates[k]);
    while participantId in savedNumbers
      invariant drawn <= k < |candidates|
      invariant participantId == spelled[k]
      invariant savedNumbers == Dedup(spelled[..k])
      decreases |candidates| - k
    {
      assert savedNumbers == Dedup(spelled[..k + 1]) by { DedupStep(spelled, k); }
      k := k + 1;
      assert k < |candidates| by { CandidateLeft(spelled, k, wanted); }
      participantId := DecimalString(candidates[k]);
    }
    drawn' := k + 1;
    assert Dedup(Spelled(candidates)[..drawn']) == savedNumbers + [participantId] by { DedupStep(spelled, k); }
    assert forall m :: drawn <= m < drawn' - 1 ==> Spelled(candidates)[m] in savedNumbers by {
      SkippedAlreadySaved(spelled, drawn, k);
    }
  }

  /** Each participant carries the number at its position, three digits long, and is idle with no contact. */
  ghost predicate Enrolled(ps: seq<Participant>, numbers: seq<string>)
    reads set p | p in ps
  {
    && |ps| == |numbers|
    && forall j :: 0 <= j < |ps| ==>
         ps[j].number == numbers[j] && |numbers[j]| == 3 && ps[j].Snapshot() == Line(CallState.Idle, "")
  }

  /**
   * `createParticipants`: for each of the `numberOfClients` participants, a
   * number not yet taken, remembered in `savedNumbers`, and a fresh idle
   * participant carrying it.
   */
  method CreateParticipants(numberOfClients: nat, candidates: seq<nat>) returns (participants: seq<Participant>)
    requires forall c :: c in candidates ==> 100 <= c <= 999
    requires numberOfClients <= |Dedup(Spelled(candidates))|
    ensures |participants| == numberOfClients
    ensures forall j :: 0 <= j < numberOfClients ==> participants[j].number == Dedup(Spelled(candidates))[j]
    ensures forall j :: 0 <= j < numberOfClients ==> |participants[j].number| == 3
    ensures forall j :: 0 <= j < numberOfClients ==> fresh(participants[j])
    ensures forall j :: 0 <= j < numberOfClients ==> participants[j].Snapshot() == Line(CallState.Idle, "")
  {
    participants := [];
    var savedNumbers: seq<string> := [];
    var drawn := 0;
    for i := 0 to numberOfClients
      invariant drawn <= |candidates|
      invariant savedNumbers == Dedup(Spelled(candidates)[..drawn])
      invariant |savedNumbers| == i
      invariant Enrolled(participants, savedNumbers)
      invariant forall j :: 0 <= j < |participants| ==> fresh(participants[j])
    {
      var participantId;
      participantId, drawn := DrawUnusedNumber(candidates, savedNumbers, drawn, numberOfClients);
      assert |participantId| == 3 by {
        assert candidates[drawn - 1] in candidates;
        ThreeDigits(candidates[drawn - 1]);
      }
      var participant := new Participant(participantId);
      assert Enrolled(participants + [participant], savedNumbers + [participantId]);
      savedNumbers := savedNumbers + [participantId];
      participants := participants + [participant];
    }
    assert savedNumbers <= Dedup(Spelled(candidates)) by { DedupPrefix(Spelled(candidates), drawn); }
  }

  class Network {
    var participants: seq<Participant>

    /** Numbers are three-digit strings, pairwise distinct (so the participants are distinct too). */
    ghost predicate Valid()
      reads this
    {
      && Distinct(NumbersOf(participants))
      && forall j :: 0 <= j < |participants| ==> |participants[j].number| == 3
    }

    function Numbers(): seq<string>
      reads this
    {
      NumbersOf(participants)
    }

    function Lines(): (lines: seq<Line>)
      reads this, set p | p in participants
    {
      var ps := participants;
      seq(|ps|, j requires 0 <= j < |ps| reads set p | p in ps => ps[j].Snapshot())
    }

    /** The constructor and `componentDidMount`: the participants, created once. */
    constructor (numberOfParticipants: nat, candidates: seq<nat>)
      requires forall c :: c in candidates ==> 100 <= c <= 999
      requires numberOfParticipants <= |Dedup(Spelled(candidates))|
      ensures Valid()
      ensures Numbers() == Dedup(Spelled(candidates))[..numberOfParticipants]
      ensures Lines() == seq(numberOfParticipants, _ => Line(CallState.Idle, ""))
      ensures forall p :: p in participants ==> fresh(p)
    {
      var ps := CreateParticipants(numberOfParticipants, candidates);
      participants := ps;
    }

    /** Distinct numbers make distinct participants. */
    lemma DistinctParticipants()
      requires Valid()
      ensures forall a, b :: 0 <= a < |participants| && 0 <= b < |participants| && a != b ==>
        participants[a] != participants[b]
    {
      forall a, b | 0 <= a < |participants| && 0 <= b < |participants| && a != b
        ensures participants[a] != participants[b]
      {
        if a < b {
          assert Numbers()[a] != Numbers()[b];
        } else {
          assert Numbers()[b] != Numbers()[a];
        }
      }
    }

    method Call(callerId: string, calleeId: string) returns (response: CallResponse)
      requires Valid()
      modifies set p | p in participants
      ensures (response, Lines()) == CallRoute(Numbers(), old(Lines()), callerId, calleeId)
    {
      var found := Find(Numbers(), calleeId);
      if found.None? {
        return CallResponse.UnknownNumber;
      }
      var callee := participants[found.value];
      DistinctParticipants();
      response := callee.OnCalled(callerId);
      assert Lines() == old(Lines())[found.value := participants[found.value].Snapshot()];
    }

    method Answer(callerId: string, calleeId: string)
      requires Valid()
      modifies set p | p in participants
      ensures Lines() == AnswerRoute(Numbers(), old(Lines()), callerId, calleeId)
    {
      var found := Find(Numbers(), callerId);
      if found.Some? {
        var caller := participants[found.value];
        DistinctParticipants();
        caller.OnCalleeAnswered(calleeId);
        assert Lines() == old(Lines())[found.value := participants[found.value].Snapshot()];
      }
    }

    method Reject(callerId: string, calleeId: string)
      requires Valid()
      modifies set p | p in participants
      ensures Lines() == RejectRoute(Numbers(), old(Lines()), callerId, calleeId)
    {
      var found := Find(Numbers(), callerId);
      if found.Some? {
        var caller := participants[found.value];
        DistinctParticipants();
        caller.OnCalleeRejected(calleeId);
        assert Lines() == old(Lines())[found.value := participants[found.value].Snapshot()];
      }
    }

    method Hangup(requesterId: string, counterpartId: string)
      requires Valid()
      modifies set p | p in participants
      ensures Lines() == HangupRoute(Numbers(), old(Lines()), requesterId, counterpartId)
    {
      var found := Find(Numbers(), counterpartId);
      if found.Some? {
        var counterpart := participants[found.value];
        DistinctParticipants();
        counterpart.OnCalleeHangup(requesterId);
        assert Lines() == old(Lines())[found.value := participants[found.value].Snapshot()];
      }
    }

    /** Participant `i` presses "Call" for `callee`. */
    method MakeACall(i: nat, callee: string)
      requires Valid() && i < |participants|
      modifies set p | p in participants
      ensures Lines() == PlaceCall(Numbers(), old(Lines()), i, callee)
    {
      var participant := participants[i];
      var requested := participant.MakeACallStart(callee);
      if requested {
        var response := Call(participant.number, callee);
        label routed:
        DistinctParticipants();
        participant.MakeACallResume(callee, response);
        assert Lines() == old@routed(Lines())[i := participant.Snapshot()];
      }
    }

    /** Participant `i` presses "Answer". */
    method AnswerCurrentCall(i: nat)
      requires Valid() && i < |participants|
      modifies set p | p in participants
      ensures Lines() == AnswerCall(Numbers(), old(Lines()), i)
    {
      var participant := participants[i];
      Answer(participant.contactId, participant.number);
      label routed:
      DistinctParticipants();
      participant.AnswerCurrentCall();
      assert Lines() == old@routed(Lines())[i := participant.Snapshot()];
    }

    /** Participant `i` presses "Reject". */
    method RejectCurrentCall(i: nat)
      requires Valid() && i < |participants|
      modifies set p | p in participants
      ensures Lines() == RejectCall(Numbers(), old(Lines()), i)
    {
      var participant := participants[i];
      Reject(participant.contactId, participant.number);
      label routed:
      DistinctParticipants();
      participant.RejectCurrentCall();
      assert Lines() == old@routed(Lines())[i := participant.Snapshot()];
    }

    /** Participant `i` presses "Hangup". */
    method HangupCurrentCall(i: nat)
      requires Valid() && i < |participants|
      modifies set p | p in participants
      ensures Lines() == HangupCall(Numbers(), old(Lines()), i)
    {
      var participant := participants[i];
      Hangup(participant.number, participant.contactId);
      label routed:
      DistinctParticipants();
      participant.HangupCurrentCall();
      assert Lines() == old@routed(Lines())[i := participant.Snapshot()];
    }
  }
}
