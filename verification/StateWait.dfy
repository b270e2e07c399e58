/** Waiting for a state transition: a subscription is raced against a timer, and the
    state is read again before every wait.

    The environment answers a wait with one read and then a sequence of rounds, each
    a read followed by whatever woke the `select!`.  The loops are proved to return
    what the FIRST DECISIVE observation of that interleaved log says; what a wait
    can and cannot miss is then proved about that specification. */
module StateWait {
  import opened Wrappers
  import opened Errors

  // ----- What a wait can observe

  /** A property read: the state code, or `None` when the D-Bus call failed. */
  type ReadAnswer = Option<u32>

  /** What woke the `select!`.  The timer branch reads the state one last time.  A
      signal carries a state and a reason; device waits look only at the state. */
  datatype Wake = Deadline(finalRead: ReadAnswer) | Signal(state: u32, reason: u32) | Malformed | StreamEnd

  datatype Round = Round(read: ReadAnswer, wake: Wake)

  datatype Observation =
    | Read(answer: ReadAnswer)
    | Notified(state: u32, reason: u32)
    | Unparsable
    | Ended
    | Expired(last: ReadAnswer)

  function WakeObservations(w: Wake): (obs: seq<Observation>) {
    match w
    case Deadline(last) => [Read(last), Expired(last)]
    case Signal(state, reason) => [Notified(state, reason)]
    case Malformed => [Unparsable]
    case StreamEnd => [Ended]
  }

  function OneRound(round: Round): (obs: seq<Observation>) {
    [Read(round.read)] + WakeObservations(round.wake)
  }

  function RoundObservations(rounds: seq<Round>): (obs: seq<Observation>) {
    if rounds == [] then []
    else OneRound(rounds[0]) + RoundObservations(rounds[1..])
  }

  /** The interleaved log of one wait. */
  function Observations(first: ReadAnswer, rounds: seq<Round>): seq<Observation> {
    [Read(first)] + RoundObservations(rounds)
  }

  // ----- What is waited for, and what decides it

  /** `refined` is the error the device reports when the connection does not. */
  datatype Wait = ForActivation(refined: ConnectionError) | ForDisconnect | ForWifiReady

  /** The value a wait returns, and whether the timer produced it.  A signal can also
      carry a timeout reason, so the error alone does not tell the two apart. */
  datatype Verdict = Verdict(result: Result<(), ConnectionError>, refined: bool, byDeadline: bool)

  const ACTIVATED: u32 := 2
  const DEACTIVATED: u32 := 4
  const DEVICE_UNAVAILABLE: u32 := 20
  const DEVICE_DISCONNECTED: u32 := 30
  const DEVICE_ACTIVATED: u32 := 100
  const DEVICE_DISCONNECTED_REASON: u32 := 3

  /** Reason codes of an active connection. */
  function ConnectionStateReasonToError(code: u32): ConnectionError {
    if code == 9 || code == 10 then AuthFailed
    else if code == 6 || code == 7 then Timeout
    else if code == 5 then DhcpFailed
    else ActivationFailed(code)
  }

  /** Reason codes of a device, consulted when the connection says only that the
      device disconnected. */
  function ReasonToError(code: u32): ConnectionError {
    if code in {7, 9, 51, 76} then AuthFailed
    else if code == 8 then SupplicantConfigFailed
    else if code == 10 then SupplicantTimeout
    else if code in {15, 16, 17} then DhcpFailed
    else if code == 70 then NotFound
    else DeviceFailed(code)
  }

  /** The first reason any device of the connection gives; `None` for a device that did
      not answer, and no list at all when the device list could not be read. */
  function RefineDeviceDisconnectedError(devices: Option<seq<Option<u32>>>): ConnectionError {
    match devices
    case None => ActivationFailed(DEVICE_DISCONNECTED_REASON)
    case Some(ds) => FirstDeviceError(ds)
  }

  function FirstDeviceError(devices: seq<Option<u32>>): ConnectionError {
    if devices == [] then ActivationFailed(DEVICE_DISCONNECTED_REASON)
    else if devices[0].Some? then ReasonToError(devices[0].value)
    else FirstDeviceError(devices[1..])
  }

  function IsTarget(w: Wait, state: u32): bool {
    match w
    case ForActivation(_) => state == ACTIVATED
    case ForDisconnect => state == DEVICE_DISCONNECTED || state == DEVICE_UNAVAILABLE
    case ForWifiReady => state == DEVICE_DISCONNECTED || state == DEVICE_ACTIVATED
  }

  /** How a single observation decides a wait: the target state is success, a failed
      read or a closed stream is an error, an expired timer is the wait's own timeout
      error, a deactivated connection fails, and everything else leaves it pending. */
  function Decides(w: Wait, o: Observation): Option<Verdict> {
    match o
    case Read(None) => Some(Verdict(Err(Dbus), false, false))
    case Read(Some(state)) =>
      if IsTarget(w, state) then Some(Verdict(Ok(()), false, false))
      else if w.ForActivation? && state == DEACTIVATED then Some(Verdict(Err(w.refined), true, false))
      else None
    case Notified(state, reason) =>
      if IsTarget(w, state) then Some(Verdict(Ok(()), false, false))
      else if w.ForActivation? && state == DEACTIVATED then
        if reason == DEVICE_DISCONNECTED_REASON then Some(Verdict(Err(w.refined), true, false))
        else Some(Verdict(Err(ConnectionStateReasonToError(reason)), false, false))
      else None
    case Unparsable => None
    case Ended => Some(Verdict(Err(if w.ForWifiReady? then WifiNotReady else Stuck(SignalStreamEnded)), false, false))
    case Expired(None) => Some(Verdict(Err(Dbus), false, false))
    case Expired(Some(last)) =>
      Some(Verdict(Err(match w
                       case ForActivation(_) => Timeout
                       case ForDisconnect => Stuck(InState(last))
                       case ForWifiReady => WifiNotReady), false, true))
  }

  // ----- The specification: the first decisive observation

  /** `Some((n, v))`: the n-th observation was the last one looked at, and it decided `v`. */
  function FirstDecisive(w: Wait, obs: seq<Observation>): (r: Option<(nat, Verdict)>) {
    if obs == [] then None
    else if Decides(w, obs[0]).Some? then Some((1, Decides(w, obs[0]).value))
    else Shift(1, FirstDecisive(w, obs[1..]))
  }

  function Shift(n: nat, r: Option<(nat, Verdict)>): Option<(nat, Verdict)> {
    match r
    case None => None
    case Some((m, v)) => Some((n + m, v))
  }

  /** What a wait returns; `None` while it is still waiting. */
  function Outcome(w: Wait, first: ReadAnswer, rounds: seq<Round>): Option<(nat, Verdict)> {
    FirstDecisive(w, Observations(first, rounds))
  }

  /** `FirstDecisive` names the one index that decides and has nothing decisive before it. */
  lemma {:induction false} FirstDecisiveIsFirst(w: Wait, obs: seq<Observation>)
    ensures FirstDecisive(w, obs).None? <==> forall j :: 0 <= j < |obs| ==> Decides(w, obs[j]).None?
    ensures FirstDecisive(w, obs).Some? ==>
      var (n, v) := FirstDecisive(w, obs).value;
      && 1 <= n <= |obs| && Decides(w, obs[n - 1]) == Some(v)
      && forall j :: 0 <= j < n - 1 ==> Decides(w, obs[j]).None?
  {
    if obs != [] {
      FirstDecisiveIsFirst(w, obs[1..]);
      assert forall j :: 1 <= j < |obs| ==> obs[j] == obs[1..][j - 1];
    }
  }

  /** Where a log is cut does not matter: a decision in the first part stands, and
      otherwise the second part decides. */
  lemma {:induction false} FirstDecisiveConcat(w: Wait, a: seq<Observation>, b: seq<Observation>)
    ensures FirstDecisive(w, a + b) ==
            if FirstDecisive(w, a).Some? then FirstDecisive(w, a)
            else Shift(|a|, FirstDecisive(w, b))
  {
    if a == [] {
      assert a + b == b;
    } else {
      FirstDecisiveConcat(w, a[1..], b);
      assert (a + b)[1..] == a[1..] + b;
    }
  }

  /** Consuming one observation. */
  lemma ConsumeOne(w: Wait, o: Observation, rest: seq<Observation>)
    ensures FirstDecisive(w, [o] + rest) ==
            if Decides(w, o).Some? then Some((1, Decides(w, o).value))
            else Shift(1, FirstDecisive(w, rest))
  {
  }

  /** Consuming one round. */
  lemma ConsumeRound(w: Wait, rounds: seq<Round>, i: nat)
    requires i < |rounds|
    ensures |RoundObservations(rounds[i..])| == |OneRound(rounds[i])| + |RoundObservations(rounds[i + 1..])|
    ensures FirstDecisive(w, RoundObservations(rounds[i..])) ==
            if FirstDecisive(w, OneRound(rounds[i])).Some? then FirstDecisive(w, OneRound(rounds[i]))
            else Shift(|OneRound(rounds[i])|, FirstDecisive(w, RoundObservations(rounds[i + 1..])))
  {
    assert rounds[i..][1..] == rounds[i + 1..];
    FirstDecisiveConcat(w, OneRound(rounds[i]), RoundObservations(rounds[i + 1..]));
  }

  /** Nothing decided the wait before round `i`, and `used` observations were consumed. */
  ghost predicate UndecidedSoFar(w: Wait, first: ReadAnswer, rounds: seq<Round>, i: nat, used: nat) {
    && i <= |rounds|
    && Outcome(w, first, rounds) == Shift(used, FirstDecisive(w, RoundObservations(rounds[i..])))
    && used + |RoundObservations(rounds[i..])| == |Observations(first, rounds)|
  }

  lemma FirstReadDecides(w: Wait, first: ReadAnswer, rounds: seq<Round>)
    ensures Decides(w, Read(first)).Some? ==> Outcome(w, first, rounds) == Some((1, Decides(w, Read(first)).value))
    ensures Decides(w, Read(first)).None? ==> UndecidedSoFar(w, first, rounds, 0, 1)
  {
  }

  lemma RoundDecides(w: Wait, first: ReadAnswer, rounds: seq<Round>, i: nat, used: nat)
    requires i < |rounds| && UndecidedSoFar(w, first, rounds, i, used)
    ensures var r := FirstDecisive(w, OneRound(rounds[i]));
            if r.Some? then Outcome(w, first, rounds) == Shift(used, r)
            else UndecidedSoFar(w, first, rounds, i + 1, used + |OneRound(rounds[i])|)
  {
    ConsumeRound(w, rounds, i);
  }

  // ----- The loop that waits for an activation

  datatype ActiveConnectionState =
    | UnknownState | Activating | Activated | Deactivating | Deactivated | OtherState(code: u32)

  function ActiveConnectionStateFrom(code: u32): ActiveConnectionState {
    match code
    case 0 => UnknownState
    case 1 => Activating
    case 2 => Activated
    case 3 => Deactivating
    case 4 => Deactivated
    case v => OtherState(v)
  }

  datatype ActivationDecision =
    | StillPending | Succeeded | RefineDeviceError | FailedWith(error: ConnectionError)

  function ClassifyActivationState(state: ActiveConnectionState, reason: Option<u32>): ActivationDecision {
    match state
    case Activated => Succeeded
    case Deactivated =>
      (match reason
       case Some(code) =>
         if code == DEVICE_DISCONNECTED_REASON then RefineDeviceError
         else FailedWith(ConnectionStateReasonToError(code))
       case None => RefineDeviceError)
    case _ => StillPending
  }

  /** Classifies one state code; `awaits` counts awaits of the refine future. */
  method CheckState(code: u32, reason: Option<u32>, refined: ConnectionError)
      returns (result: Option<Result<(), ConnectionError>>, awaits: nat)
    ensures Decides(ForActivation(refined), if reason.Some? then Notified(code, reason.value) else Read(Some(code)))
         == if result.None? then None else Some(Verdict(result.value, awaits == 1, false))
    ensures awaits <= if result.None? then 0 else 1
  {
    match ClassifyActivationState(ActiveConnectionStateFrom(code), reason) {
      case StillPending => return None, 0;
      case Succeeded => return Some(Ok(())), 0;
      case RefineDeviceError => return Some(Err(refined)), 1;
      case FailedWith(error) => return Some(Err(error)), 0;
    }
  }

  /** What the out-parameters of the loop say. */
  ghost predicate Reports(spec: Option<(nat, Verdict)>, total: nat, result: Option<Result<(), ConnectionError>>,
                          used: nat, awaits: nat, byDeadline: bool)
  {
    match spec
    case None => result.None? && used == total && awaits == 0 && !byDeadline
    case Some((n, v)) => result == Some(v.result) && used == n && awaits == (if v.refined then 1 else 0)
                         && byDeadline == v.byDeadline
  }

  /** The activation loop.  `used` counts observations consumed, `awaits` the times the
      refine future was awaited; nothing is observed after the deciding entry. */
  method WaitForActivationState(first: ReadAnswer, rounds: seq<Round>, refined: ConnectionError)
      returns (result: Option<Result<(), ConnectionError>>, used: nat, awaits: nat, byDeadline: bool)
    ensures Reports(Outcome(ForActivation(refined), first, rounds), |Observations(first, rounds)|,
                    result, used, awaits, byDeadline)
  {
    ghost var w := ForActivation(refined);
    FirstReadDecides(w, first, rounds);
    used, awaits, byDeadline := 1, 0, false;
    if first.None? {
      return Some(Err(Dbus)), used, awaits, byDeadline;
    }
    result, awaits := CheckState(first.value, None, refined);
    if result.Some? {
      return;
    }

    var i := 0;
    while i < |rounds|
      invariant 0 <= i <= |rounds|
      invariant result.None? && awaits == 0 && !byDeadline
      invariant UndecidedSoFar(w, first, rounds, i, used)
    {
      RoundDecides(w, first, rounds, i, used);
      var n;
      result, n, awaits, byDeadline := AwaitOneRound(rounds[i], refined);
      used := used + n;
      if result.Some? {
        return;
      }
      i := i + 1;
    }
  }

  /** One turn of the activation loop: read, then wait for the timer or a signal. */
  method AwaitOneRound(round: Round, refined: ConnectionError)
      returns (result: Option<Result<(), ConnectionError>>, used: nat, awaits: nat, byDeadline: bool)
    ensures Reports(FirstDecisive(ForActivation(refined), OneRound(round)), |OneRound(round)|,
                    result, used, awaits, byDeadline)
  {
    ghost var w := ForActivation(refined);
    ghost var woken := WakeObservations(round.wake);
    ConsumeOne(w, Read(round.read), woken);

    // A transition may race with signal subscription: read again before waiting.
    used, awaits, byDeadline := 1, 0, false;
    if round.read.None? {
      return Some(Err(Dbus)), used, awaits, byDeadline;
    }
    result, awaits := CheckState(round.read.value, None, refined);
    if result.Some? {
      return;
    }

    ConsumeOne(w, woken[0], woken[1..]);
    assert woken == [woken[0]] + woken[1..];
    used := used + 1;
    match round.wake {
      case Deadline(last) =>
        if last.None? {
          return Some(Err(Dbus)), used, awaits, byDeadline;
        }
        result, awaits := CheckState(last.value, None, refined);
        if result.Some? {
          return;
        }
        ConsumeOne(w, Expired(last), []);
        return Some(Err(Timeout)), used + 1, awaits, true;
      case Signal(state, reason) =>
        result, awaits := CheckState(state, Some(reason), refined);
      case Malformed =>
      case StreamEnd =>
        return Some(Err(Stuck(SignalStreamEnded))), used, awaits, byDeadline;
    }
  }

  // ----- The loop that waits for a device state

  method WaitForDeviceState(w: Wait, first: ReadAnswer, rounds: seq<Round>)
      returns (result: Option<Result<(), ConnectionError>>, used: nat, byDeadline: bool)
    requires !w.ForActivation?
    ensures Reports(Outcome(w, first, rounds), |Observations(first, rounds)|, result, used, 0, byDeadline)
  {
    FirstReadDecides(w, first, rounds);
    used, byDeadline := 1, false;
    if first.None? {
      return Some(Err(Dbus)), used, byDeadline;
    }
    if IsTarget(w, first.value) {
      return Some(Ok(())), used, byDeadline;
    }

    result := None;
    var i := 0;
    while i < |rounds|
      invariant 0 <= i <= |rounds|
      invariant result.None? && !byDeadline
      invariant UndecidedSoFar(w, first, rounds, i, used)
    {
      RoundDecides(w, first, rounds, i, used);
      var n;
      result, n, byDeadline := AwaitOneDeviceRound(w, rounds[i]);
      used := used + n;
      if result.Some? {
        return;
      }
      i := i + 1;
    }
  }

  method AwaitOneDeviceRound(w: Wait, round: Round)
      returns (result: Option<Result<(), ConnectionError>>, used: nat, byDeadline: bool)
    requires !w.ForActivation?
    ensures Reports(FirstDecisive(w, OneRound(round)), |OneRound(round)|, result, used, 0, byDeadline)
  {
    ghost var woken := WakeObservations(round.wake);
    ConsumeOne(w, Read(round.read), woken);

    used, byDeadline := 1, false;
    if round.read.None? {
      return Some(Err(Dbus)), used, byDeadline;
    }
    if IsTarget(w, round.read.value) {
      return Some(Ok(())), used, byDeadline;
    }

    ConsumeOne(w, woken[0], woken[1..]);
    assert woken == [woken[0]] + woken[1..];
    result, used := None, used + 1;
    match round.wake {
      case Deadline(last) =>
        if last.None? {
          return Some(Err(Dbus)), used, byDeadline;
        }
        if IsTarget(w, last.value) {
          return Some(Ok(())), used, byDeadline;
        }
        ConsumeOne(w, Expired(last), []);
        return Some(Err(if w.ForDisconnect? then Stuck(InState(last.value)) else WifiNotReady)), used + 1, true;
      case Signal(state, _) =>
        if IsTarget(w, state) {
          return Some(Ok(())), used, byDeadline;
        }
      case Malformed =>
      case StreamEnd =>
        return Some(Err(if w.ForWifiReady? then WifiNotReady else Stuck(SignalStreamEnded))), used, byDeadline;
    }
  }

  // ----- What a wait can and cannot miss

  /** A signal that could not be parsed never decides: dropping it from the log leaves
      the verdict unchanged. */
  lemma MalformedSignalsNeverDecide(w: Wait, a: seq<Observation>, b: seq<Observation>)
    ensures var with, without := FirstDecisive(w, a + [Unparsable] + b), FirstDecisive(w, a + b);
            (with.None? <==> without.None?) && (with.Some? ==> with.value.1 == without.value.1)
  {
    assert a + [Unparsable] + b == a + ([Unparsable] + b);
    FirstDecisiveConcat(w, a, [Unparsable] + b);
    FirstDecisiveConcat(w, a, b);
    ConsumeOne(w, Unparsable, b);
  }

  predicate Pending(w: Wait, state: u32) {
    !IsTarget(w, state) && !(w.ForActivation? && state == DEACTIVATED)
  }

  predicate PendingRead(w: Wait, answer: ReadAnswer) {
    answer.Some? && Pending(w, answer.value)
  }

  predicate QuietWake(w: Wait, wake: Wake) {
    wake.Malformed? || (wake.Signal? && Pending(w, wake.state))
  }

  /** A round that leaves the wait undecided. */
  predicate QuietRound(w: Wait, round: Round) {
    PendingRead(w, round.read) && QuietWake(w, round.wake)
  }

  /** Rounds that end the wait, by what they meet: the timer with a pending state behind
      it, the end of the signal stream, or any failure other than the timer. */
  predicate TimerRound(w: Wait, round: Round) {
    PendingRead(w, round.read) && round.wake.Deadline? && PendingRead(w, round.wake.finalRead)
  }

  predicate StreamEndRound(w: Wait, round: Round) {
    PendingRead(w, round.read) && round.wake.StreamEnd?
  }

  predicate ShowsDeactivated(w: Wait, state: u32) {
    w.ForActivation? && state == DEACTIVATED
  }

  predicate BadRead(w: Wait, answer: ReadAnswer) {
    answer.None? || ShowsDeactivated(w, answer.value)
  }

  predicate TroubleRound(w: Wait, round: Round) {
    BadRead(w, round.read)
    || (PendingRead(w, round.read)
        && match round.wake
           case Deadline(last) => BadRead(w, last)
           case Signal(state, _) => ShowsDeactivated(w, state)
           case Malformed => false
           case StreamEnd => true)
  }

  /** Round `i` is the first one that is not quiet. */
  ghost predicate QuietBefore(w: Wait, rounds: seq<Round>, i: nat) {
    i < |rounds| && forall j :: 0 <= j < i ==> QuietRound(w, rounds[j])
  }

  ghost predicate RunsIntoTimer(w: Wait, rounds: seq<Round>, i: nat) {
    QuietBefore(w, rounds, i) && TimerRound(w, rounds[i])
  }

  ghost predicate RunsIntoStreamEnd(w: Wait, rounds: seq<Round>, i: nat) {
    QuietBefore(w, rounds, i) && StreamEndRound(w, rounds[i])
  }

  ghost predicate RunsIntoTrouble(w: Wait, rounds: seq<Round>, i: nat) {
    QuietBefore(w, rounds, i) && TroubleRound(w, rounds[i])
  }

  ghost predicate RunsIntoFailure(w: Wait, rounds: seq<Round>, i: nat) {
    RunsIntoTimer(w, rounds, i) || RunsIntoTrouble(w, rounds, i)
  }

  ghost predicate DecidedByTimer(r: Option<(nat, Verdict)>) {
    r.Some? && r.value.1.byDeadline
  }

  ghost predicate Fails(r: Option<(nat, Verdict)>) {
    r.Some? && r.value.1.result.Err?
  }

  ghost predicate SaysStreamEnded(r: Option<(nat, Verdict)>) {
    r.Some? && r.value.1.result == Err(Stuck(SignalStreamEnded))
  }

  /** The refined error is not mistaken for the end of the stream. */
  predicate PlainlyRefined(w: Wait) {
    w.ForActivation? ==> w.refined != Stuck(SignalStreamEnded)
  }

  lemma OneRoundVerdict(w: Wait, round: Round)
    ensures var r := FirstDecisive(w, OneRound(round));
            && (r.None? <==> QuietRound(w, round))
            && (DecidedByTimer(r) <==> TimerRound(w, round))
            && (Fails(r) <==> TimerRound(w, round) || TroubleRound(w, round))
            && (PlainlyRefined(w) && !w.ForWifiReady? ==> (SaysStreamEnded(r) <==> StreamEndRound(w, round)))
  {
    var woken := WakeObservations(round.wake);
    ConsumeOne(w, Read(round.read), woken);
    assert woken == [woken[0]] + woken[1..];
    ConsumeOne(w, woken[0], woken[1..]);
    if round.wake.Deadline? {
      ConsumeOne(w, woken[1], []);
    }
  }

  ghost predicate SameVerdict(r: Option<(nat, Verdict)>, q: Option<(nat, Verdict)>) {
    r.Some? && q.Some? && r.value.1 == q.value.1
  }

  /** The first round that is not quiet gives the verdict. */
  lemma {:induction false} QuietBeforeDecides(w: Wait, rounds: seq<Round>, i: nat)
    requires QuietBefore(w, rounds, i) && !QuietRound(w, rounds[i])
    ensures SameVerdict(FirstDecisive(w, RoundObservations(rounds)), FirstDecisive(w, OneRound(rounds[i])))
  {
    assert rounds[0..] == rounds;
    ConsumeRound(w, rounds, 0);
    OneRoundVerdict(w, rounds[0]);
    if i > 0 {
      QuietBeforeDecides(w, rounds[1..], i - 1);
    }
  }

  lemma {:induction false} DecidingRound(w: Wait, rounds: seq<Round>) returns (i: nat)
    requires FirstDecisive(w, RoundObservations(rounds)).Some?
    ensures QuietBefore(w, rounds, i) && !QuietRound(w, rounds[i])
    ensures SameVerdict(FirstDecisive(w, RoundObservations(rounds)), FirstDecisive(w, OneRound(rounds[i])))
  {
    assert rounds[0..] == rounds;
    ConsumeRound(w, rounds, 0);
    OneRoundVerdict(w, rounds[0]);
    i := 0;
    if QuietRound(w, rounds[0]) {
      i := DecidingRound(w, rounds[1..]);
      i := i + 1;
    }
  }

  // Whatever a wait ends with, it ends so in its first round that is not quiet.

  lemma RoundsTimer(w: Wait, rounds: seq<Round>)
    ensures DecidedByTimer(FirstDecisive(w, RoundObservations(rounds))) <==> exists i: nat :: RunsIntoTimer(w, rounds, i)
  {
    if DecidedByTimer(FirstDecisive(w, RoundObservations(rounds))) {
      var i := DecidingRound(w, rounds);
      OneRoundVerdict(w, rounds[i]);
      assert RunsIntoTimer(w, rounds, i);
    }
    if i: nat :| RunsIntoTimer(w, rounds, i) {
      OneRoundVerdict(w, rounds[i]);
      QuietBeforeDecides(w, rounds, i);
    }
  }

  lemma RoundsStreamEnd(w: Wait, rounds: seq<Round>)
    requires PlainlyRefined(w) && !w.ForWifiReady?
    ensures SaysStreamEnded(FirstDecisive(w, RoundObservations(rounds))) <==> exists i: nat :: RunsIntoStreamEnd(w, rounds, i)
  {
    if SaysStreamEnded(FirstDecisive(w, RoundObservations(rounds))) {
      var i := DecidingRound(w, rounds);
      OneRoundVerdict(w, rounds[i]);
      assert RunsIntoStreamEnd(w, rounds, i);
    }
    if i: nat :| RunsIntoStreamEnd(w, rounds, i) {
      OneRoundVerdict(w, rounds[i]);
      QuietBeforeDecides(w, rounds, i);
    }
  }

  lemma RoundsFailure(w: Wait, rounds: seq<Round>)
    ensures Fails(FirstDecisive(w, RoundObservations(rounds))) <==> exists i: nat :: RunsIntoFailure(w, rounds, i)
  {
    if Fails(FirstDecisive(w, RoundObservations(rounds))) {
      var i := DecidingRound(w, rounds);
      OneRoundVerdict(w, rounds[i]);
      assert RunsIntoFailure(w, rounds, i);
    }
    if i: nat :| RunsIntoFailure(w, rounds, i) {
      OneRoundVerdict(w, rounds[i]);
      QuietBeforeDecides(w, rounds, i);
    }
  }

  /** A wait times out if and only if it runs into the timer having seen nothing but
      pending states: every read, every signal, and the read after the timer. */
  lemma TimesOutExactlyWhenAllPending(w: Wait, first: ReadAnswer, rounds: seq<Round>)
    ensures DecidedByTimer(Outcome(w, first, rounds)) <==>
            PendingRead(w, first) && exists i: nat :: RunsIntoTimer(w, rounds, i)
  {
    ConsumeOne(w, Read(first), RoundObservations(rounds));
    RoundsTimer(w, rounds);
  }

  /** A wait reports the end of the signal stream if and only if the stream ends in a round
      with nothing but pending states before it: no read is made after that. */
  lemma StuckExactlyWhenStreamEnds(w: Wait, first: ReadAnswer, rounds: seq<Round>)
    requires PlainlyRefined(w) && !w.ForWifiReady?
    ensures SaysStreamEnded(Outcome(w, first, rounds)) <==>
            PendingRead(w, first) && exists i: nat :: RunsIntoStreamEnd(w, rounds, i)
  {
    ConsumeOne(w, Read(first), RoundObservations(rounds));
    RoundsStreamEnd(w, rounds);
  }

  /** Refined errors come from the devices and are never that one. */
  lemma RefinedPlainly(devices: Option<seq<Option<u32>>>)
    ensures PlainlyRefined(ForActivation(RefineDeviceDisconnectedError(devices)))
  {
    if devices.Some? {
      DeviceErrorPlain(devices.value);
    }
  }

  lemma DeviceErrorPlain(devices: seq<Option<u32>>)
    ensures !FirstDeviceError(devices).Stuck?
  {
  }

  // ----- Which verdict it is

  /** The states waited for, by NetworkManager's numbers: an activation waits for 2, a
      disconnect for 30 or 20, a device for 30 or 100; a connection in state 4 is gone. */
  lemma TargetsSpelledOut(w: Wait, state: u32)
    ensures IsTarget(w, state) <==>
            match w
            case ForActivation(_) => state == 2
            case ForDisconnect => state == 30 || state == 20
            case ForWifiReady => state == 30 || state == 100
    ensures ShowsDeactivated(w, state) <==> w.ForActivation? && state == 4
  {
  }

  /** The error of a connection that was deactivated with a reason. */
  predicate ReasonError(reason: u32, e: ConnectionError) {
    && (reason in {9, 10} ==> e == AuthFailed)
    && (reason in {6, 7} ==> e == Timeout)
    && (reason == 5 ==> e == DhcpFailed)
    && (reason !in {5, 6, 7, 9, 10} ==> e == ActivationFailed(reason))
  }

  /** The verdict on a read that decides. */
  predicate ReadVerdict(w: Wait, answer: ReadAnswer, v: Verdict) {
    !v.byDeadline
    && match answer
       case None => v.result == Err(Dbus) && !v.refined
       case Some(state) =>
         if ShowsDeactivated(w, state) then v.result == Err(w.refined) && v.refined else v.result.Ok? && !v.refined
  }

  /** The verdict of the timer, with the state read after it. */
  predicate TimerVerdict(w: Wait, last: u32, v: Verdict) {
    v.byDeadline && !v.refined
    && match w
       case ForActivation(_) => v.result == Err(Timeout)
       case ForDisconnect => v.result == Err(Stuck(InState(last)))
       case ForWifiReady => v.result == Err(WifiNotReady)
  }

  /** The verdict on a signal that decides. */
  predicate SignalVerdict(w: Wait, state: u32, reason: u32, v: Verdict) {
    !v.byDeadline
    && if !ShowsDeactivated(w, state) then v.result.Ok? && !v.refined
       else if reason == 3 then v.result == Err(w.refined) && v.refined
       else !v.refined && v.result.Err? && ReasonError(reason, v.result.error)
  }

  predicate StreamEndVerdict(w: Wait, v: Verdict) {
    !v.byDeadline && !v.refined
    && v.result == Err(if w.ForWifiReady? then WifiNotReady else Stuck(SignalStreamEnded))
  }

  /** The verdict of the first round that is not quiet. */
  predicate RoundVerdict(w: Wait, round: Round, v: Verdict) {
    if !PendingRead(w, round.read) then ReadVerdict(w, round.read, v)
    else
      match round.wake
      case Deadline(last) => if PendingRead(w, last) then TimerVerdict(w, last.value, v) else ReadVerdict(w, last, v)
      case Signal(state, reason) => SignalVerdict(w, state, reason, v)
      case Malformed => false
      case StreamEnd => StreamEndVerdict(w, v)
  }

  lemma OneRoundSpelledOut(w: Wait, round: Round)
    requires !QuietRound(w, round)
    ensures FirstDecisive(w, OneRound(round)).Some?
    ensures RoundVerdict(w, round, FirstDecisive(w, OneRound(round)).value.1)
  {
    var woken := WakeObservations(round.wake);
    ConsumeOne(w, Read(round.read), woken);
    assert woken == [woken[0]] + woken[1..];
    ConsumeOne(w, woken[0], woken[1..]);
    if round.wake.Deadline? {
      ConsumeOne(w, woken[1], []);
    }
  }

  /** Which verdict a wait ends with, for every read, signal, reason and timer: the first
      read gives it, or else the first round that is not quiet. */
  lemma VerdictSpelledOut(w: Wait, first: ReadAnswer, rounds: seq<Round>, i: nat)
    requires PendingRead(w, first) ==> QuietBefore(w, rounds, i) && !QuietRound(w, rounds[i])
    ensures Outcome(w, first, rounds).Some?
    ensures var v := Outcome(w, first, rounds).value.1;
            if PendingRead(w, first) then RoundVerdict(w, rounds[i], v) else ReadVerdict(w, first, v)
  {
    ConsumeOne(w, Read(first), RoundObservations(rounds));
    if PendingRead(w, first) {
      QuietBeforeDecides(w, rounds, i);
      OneRoundSpelledOut(w, rounds[i]);
    }
  }

  /** A wait decides as soon as it meets something that is not quiet, and only then. */
  lemma DecidesExactly(w: Wait, first: ReadAnswer, rounds: seq<Round>)
    ensures Outcome(w, first, rounds).Some? <==>
            !PendingRead(w, first) || exists i :: 0 <= i < |rounds| && !QuietRound(w, rounds[i])
  {
    ConsumeOne(w, Read(first), RoundObservations(rounds));
    if FirstDecisive(w, RoundObservations(rounds)).Some? {
      var i := DecidingRound(w, rounds);
    }
    if i :| 0 <= i < |rounds| && !QuietRound(w, rounds[i]) {
      var j := FirstLoud(w, rounds, i);
      QuietBeforeDecides(w, rounds, j);
    }
  }

  lemma {:induction false} FirstLoud(w: Wait, rounds: seq<Round>, i: nat) returns (j: nat)
    requires i < |rounds| && !QuietRound(w, rounds[i])
    ensures QuietBefore(w, rounds, j) && !QuietRound(w, rounds[j])
  {
    if QuietRound(w, rounds[0]) {
      j := FirstLoud(w, rounds[1..], i - 1);
      j := j + 1;
    } else {
      j := 0;
    }
  }

  /** The first device that answers gives the refined error. */
  lemma {:induction false} FirstDeviceAnswers(devices: seq<Option<u32>>)
    ensures (forall i :: 0 <= i < |devices| ==> devices[i].None?) ==> FirstDeviceError(devices) == ActivationFailed(3)
    ensures forall i :: 0 <= i < |devices| && devices[i].Some? && (forall j :: 0 <= j < i ==> devices[j].None?) ==>
              FirstDeviceError(devices) == ReasonToError(devices[i].value)
  {
    if devices != [] && devices[0].None? {
      var rest := devices[1..];
      FirstDeviceAnswers(rest);
      forall i | 0 <= i < |devices| && devices[i].Some? && forall j :: 0 <= j < i ==> devices[j].None?
        ensures FirstDeviceError(devices) == ReasonToError(devices[i].value)
      {
        assert rest[i - 1] == devices[i] && forall j :: 0 <= j < i - 1 ==> rest[j] == devices[j + 1];
      }
      assert (forall i :: 0 <= i < |devices| ==> devices[i].None?) ==> forall i :: 0 <= i < |rest| ==> rest[i] == devices[i + 1];
    }
  }

  /** Which device reasons give which error, and that the rest are passed on as they are. */
  lemma DeviceReasonsSpelledOut(code: u32)
    ensures var e := ReasonToError(code);
            && (e == AuthFailed <==> code == 7 || code == 9 || code == 51 || code == 76)
            && (e == SupplicantConfigFailed <==> code == 8) && (e == SupplicantTimeout <==> code == 10)
            && (e == DhcpFailed <==> code == 15 || code == 16 || code == 17) && (e == NotFound <==> code == 70)
            && (e.DeviceFailed? <==> code !in {7, 8, 9, 10, 15, 16, 17, 51, 70, 76})
            && (e.DeviceFailed? ==> e.deviceReason == code)
  {
  }

  /** When each answer was obtained. */
  datatype Clock = Clock(firstAt: nat, readAt: seq<nat>, wakeAt: seq<nat>)

  /** The answers tell the truth about a state history: every successful read returns
      the state at the time of the read, a signal reports a state that was entered, and
      the read made after the timer happens no earlier than the deadline.  Nothing is
      assumed about how often states are read or which transitions are signalled. */
  ghost predicate Faithful(history: nat -> u32, first: ReadAnswer, rounds: seq<Round>, clock: Clock, deadline: nat) {
    && |clock.readAt| == |clock.wakeAt| == |rounds|
    && (first.Some? ==> first.value == history(clock.firstAt))
    && (forall i :: 0 <= i < |rounds| && rounds[i].read.Some? ==> rounds[i].read.value == history(clock.readAt[i]))
    && (forall i :: 0 <= i < |rounds| && rounds[i].wake.Signal? ==> rounds[i].wake.state == history(clock.wakeAt[i]))
    && (forall i :: 0 <= i < |rounds| && rounds[i].wake.Deadline? ==>
          clock.wakeAt[i] >= deadline
          && (rounds[i].wake.finalRead.Some? ==> rounds[i].wake.finalRead.value == history(clock.wakeAt[i])))
  }

  /** No transition is lost: against any history that reaches the target before the
      deadline and stays there, the wait never times out, whatever it read and whichever
      signals it received on the way. */
  lemma NoTransitionLost(w: Wait, history: nat -> u32, first: ReadAnswer, rounds: seq<Round>, clock: Clock,
                         deadline: nat, reached: nat)
    requires Faithful(history, first, rounds, clock, deadline)
    requires reached <= deadline && forall t :: t >= reached ==> IsTarget(w, history(t))
    ensures !DecidedByTimer(Outcome(w, first, rounds))
  {
    TimesOutExactlyWhenAllPending(w, first, rounds);
    forall i: nat | i < |rounds| && rounds[i].wake.Deadline?
      ensures !RunsIntoTimer(w, rounds, i)
    {
      assert clock.wakeAt[i] >= reached;
    }
  }

  ghost predicate Witnessed(history: nat -> u32, o: Observation) {
    match o
    case Read(Some(state)) => exists t :: history(t) == state
    case Notified(state, _) => exists t :: history(t) == state
    case _ => true
  }

  lemma {:induction false} AllWitnessed(history: nat -> u32, first: ReadAnswer, rounds: seq<Round>, clock: Clock,
                                        deadline: nat)
    requires Faithful(history, first, rounds, clock, deadline)
    ensures forall o :: o in RoundObservations(rounds) ==> Witnessed(history, o)
  {
    if rounds != [] {
      var later := Clock(clock.firstAt, clock.readAt[1..], clock.wakeAt[1..]);
      AllWitnessed(history, first, rounds[1..], later, deadline);
      forall o | o in OneRound(rounds[0])
        ensures Witnessed(history, o)
      {
        assert history(clock.readAt[0]) == history(clock.readAt[0]);
        assert history(clock.wakeAt[0]) == history(clock.wakeAt[0]);
      }
    }
  }

  /** The deciding observation of a wait that has returned. */
  lemma DecidingObservation(w: Wait, first: ReadAnswer, rounds: seq<Round>) returns (o: Observation)
    requires Outcome(w, first, rounds).Some?
    ensures Decides(w, o) == Some(Outcome(w, first, rounds).value.1)
    ensures o == Read(first) || o in RoundObservations(rounds)
  {
    var obs := Observations(first, rounds);
    FirstDecisiveIsFirst(w, obs);
    o := obs[Outcome(w, first, rounds).value.0 - 1];
  }

  /** Success is never invented: a wait succeeds only if the history really was in the
      target set at some time. */
  lemma SuccessWasReached(w: Wait, history: nat -> u32, first: ReadAnswer, rounds: seq<Round>, clock: Clock,
                          deadline: nat)
    requires Faithful(history, first, rounds, clock, deadline)
    requires Outcome(w, first, rounds).Some? && Outcome(w, first, rounds).value.1.result.Ok?
    ensures exists t :: IsTarget(w, history(t))
  {
    AllWitnessed(history, first, rounds, clock, deadline);
    var o := DecidingObservation(w, first, rounds);
    var state := if o.Read? then o.answer.value else o.state;
    assert o == Read(first) ==> history(clock.firstAt) == state;
    var t :| history(t) == state;
    assert IsTarget(w, history(t));
  }

  /** Every failure of a wait, and nothing else: a failed read or a deactivation, the end of
      the stream, or the timer, before any sight of the target. */
  lemma FailsExactly(w: Wait, first: ReadAnswer, rounds: seq<Round>)
    ensures Fails(Outcome(w, first, rounds)) <==>
            BadRead(w, first)
            || (PendingRead(w, first) && exists i: nat :: RunsIntoFailure(w, rounds, i))
  {
    ConsumeOne(w, Read(first), RoundObservations(rounds));
    RoundsFailure(w, rounds);
  }

  /** Against a history that reaches the target before the deadline and stays there, a wait
      that returns succeeds exactly when no failed read, no deactivation and no end of the
      stream comes before its first sight of the target. */
  lemma ReachedTargetSucceeds(w: Wait, history: nat -> u32, first: ReadAnswer, rounds: seq<Round>, clock: Clock,
                              deadline: nat, reached: nat)
    requires Faithful(history, first, rounds, clock, deadline)
    requires reached <= deadline && forall t :: t >= reached ==> IsTarget(w, history(t))
    requires Outcome(w, first, rounds).Some?
    ensures Outcome(w, first, rounds).value.1.result.Ok? <==>
            !BadRead(w, first) && !(PendingRead(w, first) && exists i: nat :: RunsIntoTrouble(w, rounds, i))
  {
    FailsExactly(w, first, rounds);
    NoTransitionLost(w, history, first, rounds, clock, deadline, reached);
    TimesOutExactlyWhenAllPending(w, first, rounds);
    assert forall i: nat :: RunsIntoTrouble(w, rounds, i) ==> RunsIntoFailure(w, rounds, i);
  }

  /** The stream-end exception is real: the state is not read again when the signal
      stream closes, so an activation that happened after the last read is reported as
      stuck although the history reached its target and stays there. */
  lemma StreamEndMissesActivation(refined: ConnectionError, deadline: nat)
    requires deadline >= 2
    ensures var history: nat -> u32 := (t: nat) => if t < 2 then 1 else ACTIVATED;
            var rounds := [Round(Some(1), StreamEnd)];
            && Faithful(history, Some(1), rounds, Clock(0, [1], [2]), deadline)
            && (forall t: nat :: t >= 2 ==> IsTarget(ForActivation(refined), history(t)))
            && Outcome(ForActivation(refined), Some(1), rounds)
               == Some((3, Verdict(Err(Stuck(SignalStreamEnded)), false, false)))
  {
    var rounds := [Round(Some(1), StreamEnd)];
    var w := ForActivation(refined);
    assert RoundObservations(rounds) == [Read(Some(1))] + ([Ended] + []);
    ConsumeOne(w, Read(Some(1)), RoundObservations(rounds));
    ConsumeOne(w, Read(Some(1)), [Ended] + []);
    ConsumeOne(w, Ended, []);
  }
}
