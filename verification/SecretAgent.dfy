/** The secret-agent protocol: any number of `get_secrets` calls interleaved with
    cancellations and with the consumer of the request queue.

    One event is one atomic step of one party.  The map of pending requests is guarded by
    a mutex that a cancellation holds while it signals; `signalling` lists the senders it
    still has to use, and no call can register or clean up until the list is empty. */
module SecretAgent {
  import opened Wrappers
  import opened SecretResponder
  import opened PendingRegistry

  // ----- State

  /** The receiving end of a call's cancel channel resolves once its sender has been used
      or dropped. */
  datatype CancelChannel = Open | Signalled | SenderDropped

  /** Who holds the request, and with it the responder. */
  datatype Location = WithCall | InQueue | WithConsumer | Gone

  datatype Outcome =
    | GotSecrets(dict: SecretDict)
    | CanceledByNetworkManager
    | CanceledByUser
    | NoneAvailable
    | TimedOut
    | ChannelClosed

  datatype Phase =
    | IdTaken
    | Sending(delivered: bool)
    | Waiting
    | Decided(outcome: Outcome)
    | Cleaned(outcome: Outcome)
    | Returned(outcome: Outcome)

  /** `hit` records that a cancellation took this call's entry out of the map. */
  datatype Call = Call(key: Key, id: nat, phase: Phase, cancel: CancelChannel, hit: bool,
                       responder: ResponderState, location: Location)
  {
    predicate HasOutcome() {
      phase.Decided? || phase.Cleaned? || phase.Returned?
    }

    predicate Unregistered() {
      phase.Cleaned? || phase.Returned?
    }

    /** Registered, not hit by a cancellation, and not cleaned up yet. */
    predicate IsPending() {
      !phase.IdTaken? && !hit && !Unregistered()
    }
  }

  datatype State = State(nextId: nat, pending: PendingMap, signalling: seq<Entry>,
                         calls: seq<Call>, queue: seq<nat>, closed: bool)

  const FIRST_REQUEST_ID: nat := 1

  const INITIAL := State(FIRST_REQUEST_ID, map[], [], [], [], false)

  // ----- Events

  /** `room`: the bounded queue accepts an item now; `flushed`: the sender is not parked
      after its item was accepted; `expired`: the response timer has fired. */
  datatype Event =
    | Start(key: Key)
    | Register(call: nat)
    | PollSend(call: nat, room: bool, flushed: bool)
    | PollWait(call: nat, expired: bool)
    | Cleanup(call: nat)
    | Return(call: nat)
    | CancelTake(key: Key)
    | CancelSend
    | Receive
    | Consume(call: nat, action: Action)
    | CloseStream

  predicate Enabled(s: State, e: Event) {
    match e
    case Start(_) => true
    case Register(i) => i < |s.calls| && s.calls[i].phase.IdTaken? && s.signalling == []
    case PollSend(i, _, _) => i < |s.calls| && s.calls[i].phase.Sending?
    case PollWait(i, _) => i < |s.calls| && s.calls[i].phase.Waiting?
    case Cleanup(i) => i < |s.calls| && s.calls[i].phase.Decided? && s.signalling == []
    case Return(i) => i < |s.calls| && s.calls[i].phase.Cleaned?
    case CancelTake(_) => s.signalling == []
    case CancelSend => s.signalling != [] && s.signalling[0].sender < |s.calls|
    case Receive => s.queue != [] && s.queue[0] < |s.calls|
    case Consume(i, _) => i < |s.calls| && s.calls[i].location.WithConsumer?
    case CloseStream => !s.closed
  }

  /** The request is dropped where it is, and the responder with it. */
  function DropRequest(c: Call): Call {
    c.(responder := DropResponder(c.responder), location := Gone)
  }

  /** `select(cancel_rx, send)`: the cancellation is polled first. */
  function PollSendCall(c: Call, closed: bool, room: bool, flushed: bool): Call
    requires c.phase.Sending?
  {
    if !c.cancel.Open? then
      var decided := c.(phase := Decided(CanceledByNetworkManager));
      if c.phase.delivered then decided else DropRequest(decided)
    else if c.phase.delivered then
      if flushed || closed then c.(phase := Waiting) else c
    else if closed then DropRequest(c.(phase := Decided(ChannelClosed)))
    else if room then c.(phase := if flushed then Waiting else Sending(true), location := InQueue)
    else c
  }

  function ReplyOutcome(reply: SecretReply): Outcome {
    match reply
    case Secrets(dict) => GotSecrets(dict)
    case UserCanceled => CanceledByUser
    case NoSecrets => NoneAvailable
  }

  /** `select(cancel_rx, select(reply_rx, timeout))`: cancellation, then reply (or a
      responder lost without replying), then timer. */
  function PollWaitCall(c: Call, expired: bool): Call {
    if !c.cancel.Open? then c.(phase := Decided(CanceledByNetworkManager))
    else if c.responder.sent != [] then c.(phase := Decided(ReplyOutcome(c.responder.sent[0])))
    else if !c.responder.hasTx then c.(phase := Decided(NoneAvailable))
    else if expired then c.(phase := Decided(TimedOut))
    else c
  }

  predicate Sends(es: seq<Entry>, i: nat) {
    exists e :: e in es && e.sender == i
  }

  /** Entries discarded from the map take their cancel senders with them. */
  function DropSenders(calls: seq<Call>, dropped: seq<Entry>): (r: seq<Call>)
    ensures |r| == |calls|
  {
    seq(|calls|, i requires 0 <= i < |calls| =>
      if Sends(dropped, i) && calls[i].cancel.Open? then calls[i].(cancel := SenderDropped) else calls[i])
  }

  function MarkHit(calls: seq<Call>, taken: seq<Entry>): (r: seq<Call>)
    ensures |r| == |calls|
  {
    seq(|calls|, i requires 0 <= i < |calls| =>
      if Sends(taken, i) then calls[i].(hit := true) else calls[i])
  }

  function DropQueued(calls: seq<Call>): (r: seq<Call>)
    ensures |r| == |calls|
  {
    seq(|calls|, i requires 0 <= i < |calls| =>
      if calls[i].location.InQueue? then DropRequest(calls[i]) else calls[i])
  }

  function Discarded(es: seq<Entry>, id: nat): (r: seq<Entry>)
    ensures forall e :: e in r <==> e in es && e.id == id
    ensures (forall e :: e in es ==> e.id != id) ==> r == []
  {
    if es == [] then []
    else if es[0].id == id then [es[0]] + Discarded(es[1..], id)
    else Discarded(es[1..], id)
  }

  function Apply(s: State, e: Event): State
    requires Enabled(s, e)
  {
    match e
    case Start(key) =>
      s.(nextId := s.nextId + 1,
         calls := s.calls + [Call(key, s.nextId, IdTaken, Open, false, FRESH, WithCall)])
    case Register(i) =>
      s.(pending := PushEntry(s.pending, s.calls[i].key, Entry(s.calls[i].id, i)),
         calls := s.calls[i := s.calls[i].(phase := Sending(false))])
    case PollSend(i, room, flushed) =>
      var c := PollSendCall(s.calls[i], s.closed, room, flushed);
      s.(calls := s.calls[i := c],
         queue := if c.location.InQueue? && s.calls[i].location.WithCall? then s.queue + [i] else s.queue)
    case PollWait(i, expired) =>
      s.(calls := s.calls[i := PollWaitCall(s.calls[i], expired)])
    case Cleanup(i) =>
      var c := s.calls[i];
      var calls := DropSenders(s.calls, Discarded(Listed(s.pending, c.key), c.id));
      s.(pending := RemoveRequest(s.pending, c.key, c.id),
         calls := calls[i := calls[i].(phase := Cleaned(c.phase.outcome))])
    case Return(i) =>
      s.(calls := s.calls[i := s.calls[i].(phase := Returned(s.calls[i].phase.outcome))])
    case CancelTake(key) =>
      s.(pending := TakeKey(s.pending, key), signalling := Listed(s.pending, key),
         calls := MarkHit(s.calls, Listed(s.pending, key)))
    case CancelSend =>
      var i := s.signalling[0].sender;
      s.(signalling := s.signalling[1..],
         calls := if s.calls[i].cancel.Open? then s.calls[i := s.calls[i].(cancel := Signalled)] else s.calls)
    case Receive =>
      var i := s.queue[0];
      s.(queue := s.queue[1..], calls := s.calls[i := s.calls[i].(location := WithConsumer)])
    case Consume(i, action) =>
      var c := s.calls[i];
      s.(calls := s.calls[i := c.(responder := SecretResponder.Consume(c.responder, action), location := Gone)])
    case CloseStream =>
      s.(closed := true, queue := [], calls := DropQueued(s.calls))
  }

  // ----- The invariant

  /** What holds of each call on its own. */
  predicate CallOk(c: Call) {
    && (c.responder.hasTx <==> c.responder.sent == [])
    && |c.responder.sent| <= 1
    && (c.location.Gone? <==> !c.responder.hasTx)
    && (c.location.WithCall? <==> c.phase.IdTaken? || c.phase == Sending(false))
    && (c.hit ==> !c.phase.IdTaken? && !c.cancel.SenderDropped?)
    && (c.cancel.Signalled? ==> c.hit)
    && (c.cancel.SenderDropped? <==> !c.hit && c.Unregistered())
    && (c.HasOutcome() ==>
          match c.phase.outcome
          case GotSecrets(dict) => c.responder.sent == [Secrets(dict)]
          case CanceledByNetworkManager => c.hit
          case CanceledByUser => c.responder.sent == [UserCanceled]
          case NoneAvailable => c.responder.sent == [NoSecrets]
          case TimedOut => true
          case ChannelClosed => c.responder.sent == [NoSecrets])
  }

  ghost predicate CallsOk(s: State) {
    && s.nextId == 1 + |s.calls|
    && forall i :: 0 <= i < |s.calls| ==> s.calls[i].id == 1 + i && CallOk(s.calls[i])
  }

  /** An entry names its own call. */
  predicate Names(s: State, e: Entry) {
    e.sender < |s.calls| && e.id == s.calls[e.sender].id
  }

  /** The map lists exactly the pending calls, each once and under its own key. */
  ghost predicate MapOk(s: State) {
    && (forall key :: key in s.pending ==> s.pending[key] != [] && DistinctSenders(s.pending[key]))
    && (forall key, e :: key in s.pending && e in s.pending[key] ==>
          Names(s, e) && s.calls[e.sender].key == key && s.calls[e.sender].IsPending())
    && (forall i :: 0 <= i < |s.calls| && s.calls[i].IsPending() ==>
          Entry(s.calls[i].id, i) in Listed(s.pending, s.calls[i].key))
  }

  /** Senders taken by a cancellation belong to calls it hit and has not signalled yet. */
  ghost predicate SignallingOk(s: State) {
    && DistinctSenders(s.signalling)
    && (forall e :: e in s.signalling ==> Names(s, e) && s.calls[e.sender].hit && s.calls[e.sender].cancel.Open?)
    && (forall i :: 0 <= i < |s.calls| && s.calls[i].hit && s.calls[i].cancel.Open? ==>
          Entry(s.calls[i].id, i) in s.signalling)
  }

  ghost predicate QueueOk(s: State) {
    && (forall a, b :: 0 <= a < b < |s.queue| ==> s.queue[a] != s.queue[b])
    && (forall i :: i in s.queue ==> i < |s.calls| && s.calls[i].location.InQueue?)
    && (forall i :: 0 <= i < |s.calls| && s.calls[i].location.InQueue? ==> i in s.queue)
    && (s.closed ==> s.queue == [])
  }

  ghost predicate Inv(s: State) {
    CallsOk(s) && MapOk(s) && SignallingOk(s) && QueueOk(s)
  }

  lemma InitialInv()
    ensures Inv(INITIAL)
  {
  }

  /** A call's own entry is the only one in the map that carries its id. */
  lemma OnlyOwnEntry(s: State, i: nat)
    requires Inv(s) && i < |s.calls|
    ensures forall j :: Sends(Discarded(Listed(s.pending, s.calls[i].key), s.calls[i].id), j) ==> j == i
    ensures s.calls[i].IsPending() ==> Sends(Discarded(Listed(s.pending, s.calls[i].key), s.calls[i].id), i)
    ensures !s.calls[i].IsPending() ==> Discarded(Listed(s.pending, s.calls[i].key), s.calls[i].id) == []
  {
    var es := Listed(s.pending, s.calls[i].key);
    var out := Discarded(es, s.calls[i].id);
    forall e | e in es && e.id == s.calls[i].id
      ensures e.sender == i && s.calls[i].IsPending()
    {
      assert Names(s, e);
    }
    if s.calls[i].IsPending() {
      assert Entry(s.calls[i].id, i) in es;
      assert Entry(s.calls[i].id, i) in out;
    }
  }

  // Most steps touch a single call; what they do to it is checked on that call alone.

  predicate SameRegistration(c: Call, d: Call) {
    d.key == c.key && d.id == c.id && d.IsPending() == c.IsPending() && d.hit == c.hit && d.cancel == c.cancel
  }

  lemma PollSendKeepsCall(c: Call, closed: bool, room: bool, flushed: bool)
    requires CallOk(c) && c.phase.Sending?
    ensures CallOk(PollSendCall(c, closed, room, flushed))
    ensures SameRegistration(c, PollSendCall(c, closed, room, flushed))
  {
  }

  lemma PollWaitKeepsCall(c: Call, expired: bool)
    requires CallOk(c) && c.phase.Waiting?
    ensures CallOk(PollWaitCall(c, expired))
    ensures SameRegistration(c, PollWaitCall(c, expired))
  {
  }

  lemma CleanupKeepsCall(c: Call, dropped: bool)
    requires CallOk(c) && c.phase.Decided? && (dropped <==> c.IsPending())
    ensures CallOk((if dropped && c.cancel.Open? then c.(cancel := SenderDropped) else c)
                   .(phase := Cleaned(c.phase.outcome)))
  {
  }

  lemma ConsumeKeepsCall(c: Call, action: Action)
    requires CallOk(c) && c.location.WithConsumer?
    ensures CallOk(c.(responder := SecretResponder.Consume(c.responder, action), location := Gone))
  {
  }

  ghost predicate OneCallChanges(s: State, t: State, i: nat) {
    && i < |s.calls| == |t.calls| && t.nextId == s.nextId
    && forall j :: 0 <= j < |s.calls| && j != i ==> t.calls[j] == s.calls[j]
  }

  lemma OneCallOk(s: State, t: State, i: nat)
    requires CallsOk(s) && OneCallChanges(s, t, i) && t.calls[i].id == s.calls[i].id && CallOk(t.calls[i])
    ensures CallsOk(t)
  {
  }

  lemma CleanupKeepsCalls(s: State, i: nat)
    requires Inv(s) && Enabled(s, Cleanup(i))
    ensures OneCallChanges(s, Apply(s, Cleanup(i)), i)
    ensures CallsOk(Apply(s, Cleanup(i)))
  {
    OnlyOwnEntry(s, i);
    CleanupKeepsCall(s.calls[i], s.calls[i].IsPending());
    OneCallOk(s, Apply(s, Cleanup(i)), i);
  }

  lemma CancelTakeKeepsCalls(s: State, key: Key)
    requires Inv(s) && Enabled(s, CancelTake(key))
    ensures CallsOk(Apply(s, CancelTake(key)))
  {
  }

  lemma PollKeepsCalls(s: State, e: Event)
    requires Inv(s) && Enabled(s, e) && (e.PollSend? || e.PollWait?)
    ensures CallsOk(Apply(s, e))
  {
    if e.PollSend? {
      PollSendKeepsCall(s.calls[e.call], s.closed, e.room, e.flushed);
    } else {
      PollWaitKeepsCall(s.calls[e.call], e.expired);
    }
    OneCallOk(s, Apply(s, e), e.call);
  }

  lemma SmallStepsKeepCalls(s: State, e: Event)
    requires Inv(s) && Enabled(s, e) && (e.Register? || e.Return? || e.Receive? || e.CancelSend? || e.Consume?)
    ensures CallsOk(Apply(s, e))
  {
    var i := if e.Receive? then s.queue[0] else if e.CancelSend? then s.signalling[0].sender else e.call;
    assert CallOk(s.calls[i]);
    if e.Consume? {
      ConsumeKeepsCall(s.calls[i], e.action);
    }
    OneCallOk(s, Apply(s, e), i);
  }

  lemma StepCallsOk(s: State, e: Event)
    requires Inv(s) && Enabled(s, e)
    ensures CallsOk(Apply(s, e))
  {
    match e
    case Start(_) =>
    case CloseStream =>
    case PollSend(_, _, _) => PollKeepsCalls(s, e);
    case PollWait(_, _) => PollKeepsCalls(s, e);
    case Cleanup(i) => CleanupKeepsCalls(s, i);
    case CancelTake(key) => CancelTakeKeepsCalls(s, key);
    case _ => SmallStepsKeepCalls(s, e);
  }

  lemma RegisterKeepsMap(s: State, i: nat)
    requires Inv(s) && Enabled(s, Register(i))
    ensures MapOk(Apply(s, Register(i)))
  {
    var t := Apply(s, Register(i));
    var key, mine := s.calls[i].key, Entry(s.calls[i].id, i);
    assert forall e :: Names(s, e) ==> Names(t, e);
    assert forall e :: e in Listed(s.pending, key) ==> e.sender != i;
    assert t.pending[key] == Listed(s.pending, key) + [mine];
    forall j | 0 <= j < |t.calls| && t.calls[j].IsPending()
      ensures Entry(t.calls[j].id, j) in Listed(t.pending, t.calls[j].key)
    {
      if j != i {
        assert Entry(s.calls[j].id, j) in Listed(s.pending, s.calls[j].key);
      }
    }
  }

  lemma CleanupListsPending(s: State, i: nat, k: Key, e: Entry)
    requires CallsOk(s) && MapOk(s) && Enabled(s, Cleanup(i)) && OneCallChanges(s, Apply(s, Cleanup(i)), i)
    requires e in Listed(Apply(s, Cleanup(i)).pending, k)
    ensures var t := Apply(s, Cleanup(i));
            Names(t, e) && t.calls[e.sender].key == k && t.calls[e.sender].IsPending()
  {
  }

  lemma CleanupKeepsListed(s: State, i: nat, j: nat)
    requires CallsOk(s) && MapOk(s) && Enabled(s, Cleanup(i)) && j < |s.calls| && j != i && s.calls[j].IsPending()
    ensures Entry(s.calls[j].id, j) in Listed(Apply(s, Cleanup(i)).pending, s.calls[j].key)
  {
  }

  lemma CleanupKeepsLists(s: State, i: nat)
    requires MapOk(s) && Enabled(s, Cleanup(i))
    ensures var t := Apply(s, Cleanup(i));
            forall key :: key in t.pending ==> t.pending[key] != [] && DistinctSenders(t.pending[key])
  {
    RetainKeepsDistinct(Listed(s.pending, s.calls[i].key), s.calls[i].id);
    RemoveRequestLists(s.pending, s.calls[i].key, s.calls[i].id);
  }

  lemma CleanupKeepsMap(s: State, i: nat)
    requires Inv(s) && Enabled(s, Cleanup(i))
    ensures MapOk(Apply(s, Cleanup(i)))
  {
    var t := Apply(s, Cleanup(i));
    CleanupKeepsCalls(s, i);
    CleanupKeepsLists(s, i);
    forall k, e | k in t.pending && e in t.pending[k]
      ensures Names(t, e) && t.calls[e.sender].key == k && t.calls[e.sender].IsPending()
    {
      CleanupListsPending(s, i, k, e);
    }
    forall j | 0 <= j < |t.calls| && t.calls[j].IsPending()
      ensures Entry(t.calls[j].id, j) in Listed(t.pending, t.calls[j].key)
    {
      assert j != i && t.calls[j] == s.calls[j];
      CleanupKeepsListed(s, i, j);
    }
  }

  lemma RemoveRequestLists(m: PendingMap, key: Key, id: nat)
    requires forall k :: k in m ==> m[k] != []
    ensures var r := RemoveRequest(m, key, id);
            && (forall k :: k in r ==> r[k] != [])
            && (forall k :: Listed(r, k) == if k == key then Retain(Listed(m, k), id) else Listed(m, k))
  {
  }

  lemma CancelTakeKeepsMap(s: State, key: Key)
    requires Inv(s) && Enabled(s, CancelTake(key))
    ensures MapOk(Apply(s, CancelTake(key)))
  {
    var t := Apply(s, CancelTake(key));
    assert forall e :: Names(s, e) ==> Names(t, e);
    forall k, e | k in t.pending && e in t.pending[k]
      ensures Names(t, e) && t.calls[e.sender].key == k && t.calls[e.sender].IsPending()
    {
      assert !Sends(Listed(s.pending, key), e.sender);
    }
    forall j | 0 <= j < |t.calls| && t.calls[j].IsPending()
      ensures Entry(t.calls[j].id, j) in Listed(t.pending, t.calls[j].key)
    {
      assert s.calls[j].IsPending();
      assert Entry(s.calls[j].id, j) in Listed(s.pending, s.calls[j].key);
      assert !Sends(Listed(s.pending, key), j);
    }
  }

  lemma StartKeepsMap(s: State, key: Key)
    requires MapOk(s)
    ensures MapOk(Apply(s, Start(key)))
  {
  }

  ghost predicate SameRegistrations(s: State, t: State) {
    && t.pending == s.pending && t.signalling == s.signalling && |t.calls| == |s.calls|
    && forall i :: 0 <= i < |s.calls| ==> SameRegistration(s.calls[i], t.calls[i])
  }

  lemma PollChangesLittle(s: State, e: Event)
    requires CallsOk(s) && Enabled(s, e) && (e.PollSend? || e.PollWait?)
    ensures SameRegistrations(s, Apply(s, e))
  {
  }

  lemma ChangesLittle(s: State, e: Event)
    requires CallsOk(s) && Enabled(s, e)
    requires e.PollSend? || e.PollWait? || e.Return? || e.Receive? || e.Consume? || e.CloseStream?
    ensures SameRegistrations(s, Apply(s, e))
  {
    if e.PollSend? || e.PollWait? {
      PollChangesLittle(s, e);
    }
  }

  lemma SameRegistrationsKeep(s: State, t: State)
    requires MapOk(s) && SignallingOk(s) && SameRegistrations(s, t)
    ensures MapOk(t) && SignallingOk(t)
  {
  }

  lemma CancelSendKeepsMap(s: State)
    requires Inv(s) && Enabled(s, CancelSend)
    ensures MapOk(Apply(s, CancelSend))
  {
  }

  lemma StepMapOk(s: State, e: Event)
    requires Inv(s) && Enabled(s, e)
    ensures MapOk(Apply(s, e))
  {
    match e
    case Start(key) => StartKeepsMap(s, key);
    case Register(i) => RegisterKeepsMap(s, i);
    case Cleanup(i) => CleanupKeepsMap(s, i);
    case CancelTake(key) => CancelTakeKeepsMap(s, key);
    case CancelSend => CancelSendKeepsMap(s);
    case _ =>
      ChangesLittle(s, e);
      SameRegistrationsKeep(s, Apply(s, e));
  }

  ghost predicate SameSignalling(s: State, t: State) {
    && t.signalling == s.signalling && |t.calls| == |s.calls|
    && forall i :: 0 <= i < |s.calls| ==>
         t.calls[i].id == s.calls[i].id && t.calls[i].hit == s.calls[i].hit
         && (s.calls[i].hit ==> (t.calls[i].cancel.Open? <==> s.calls[i].cancel.Open?))
  }

  lemma SameSignallingKeeps(s: State, t: State)
    requires SignallingOk(s) && SameSignalling(s, t)
    ensures SignallingOk(t)
  {
  }

  lemma CancelTakeSignals(s: State, key: Key)
    requires Inv(s) && Enabled(s, CancelTake(key))
    ensures SignallingOk(Apply(s, CancelTake(key)))
  {
  }

  lemma CancelSendSignals(s: State)
    requires Inv(s) && Enabled(s, CancelSend)
    ensures SignallingOk(Apply(s, CancelSend))
  {
  }

  lemma StepSignallingOk(s: State, e: Event)
    requires Inv(s) && Enabled(s, e)
    ensures SignallingOk(Apply(s, e))
  {
    match e
    case Start(_) =>
      assert forall en :: Names(s, en) ==> Names(Apply(s, e), en);
    case Register(i) => SameSignallingKeeps(s, Apply(s, e));
    case Cleanup(i) =>
      OnlyOwnEntry(s, i);
      CleanupKeepsCalls(s, i);
      SameSignallingKeeps(s, Apply(s, e));
    case CancelTake(key) => CancelTakeSignals(s, key);
    case CancelSend => CancelSendSignals(s);
    case _ =>
      ChangesLittle(s, e);
      SameRegistrationsKeep(s, Apply(s, e));
  }

  ghost predicate SameQueue(s: State, t: State) {
    && t.queue == s.queue && t.closed == s.closed && |t.calls| >= |s.calls|
    && (forall i :: 0 <= i < |s.calls| ==> t.calls[i].location.InQueue? == s.calls[i].location.InQueue?)
    && (forall i :: |s.calls| <= i < |t.calls| ==> !t.calls[i].location.InQueue?)
  }

  lemma SameQueueKeeps(s: State, t: State)
    requires QueueOk(s) && SameQueue(s, t)
    ensures QueueOk(t)
  {
  }

  lemma PollSendKeepsQueue(s: State, i: nat, room: bool, flushed: bool)
    requires Inv(s) && Enabled(s, PollSend(i, room, flushed))
    ensures QueueOk(Apply(s, PollSend(i, room, flushed)))
  {
    var t := Apply(s, PollSend(i, room, flushed));
    assert CallOk(s.calls[i]);
    if t.queue == s.queue {
      SameQueueKeeps(s, t);
    } else {
      assert i !in s.queue;
    }
  }

  lemma ReceiveKeepsQueue(s: State)
    requires Inv(s) && Enabled(s, Receive)
    ensures QueueOk(Apply(s, Receive))
  {
    var t := Apply(s, Receive);
    forall j | j in t.queue
      ensures j < |t.calls| && t.calls[j].location.InQueue?
    {
      var a :| 0 <= a < |t.queue| && t.queue[a] == j;
      assert s.queue[a + 1] == j && j != s.queue[0] && j in s.queue;
    }
    assert forall j :: j in s.queue ==> j == s.queue[0] || j in t.queue;
  }

  lemma OtherStepsKeepQueue(s: State, e: Event)
    requires CallsOk(s) && QueueOk(s) && Enabled(s, e)
    requires e.Start? || e.Register? || e.PollWait? || e.Return? || e.CancelTake? || e.CancelSend? || e.Consume?
    ensures SameQueue(s, Apply(s, e))
  {
  }

  lemma CloseKeepsQueue(s: State)
    requires QueueOk(s) && Enabled(s, CloseStream)
    ensures QueueOk(Apply(s, CloseStream))
  {
  }

  lemma StepQueueOk(s: State, e: Event)
    requires Inv(s) && Enabled(s, e)
    ensures QueueOk(Apply(s, e))
  {
    match e
    case PollSend(i, room, flushed) => PollSendKeepsQueue(s, i, room, flushed);
    case Receive => ReceiveKeepsQueue(s);
    case CloseStream => CloseKeepsQueue(s);
    case Cleanup(i) =>
      CleanupKeepsCalls(s, i);
      SameQueueKeeps(s, Apply(s, e));
    case _ =>
      OtherStepsKeepQueue(s, e);
      SameQueueKeeps(s, Apply(s, e));
  }

  lemma StepInv(s: State, e: Event)
    requires Inv(s) && Enabled(s, e)
    ensures Inv(Apply(s, e))
  {
    StepCallsOk(s, e);
    StepMapOk(s, e);
    StepSignallingOk(s, e);
    StepQueueOk(s, e);
  }

  // ----- Behaviors

  predicate Next(s: State, e: Event, t: State) {
    Enabled(s, e) && t == Apply(s, e)
  }

  /** A run of the whole system from the start: any interleaving of enabled events. */
  ghost predicate Behavior(states: seq<State>, events: seq<Event>) {
    && |states| == |events| + 1 && states[0] == INITIAL
    && forall n {:trigger events[n]} :: 0 <= n < |events| ==> Next(states[n], events[n], states[n + 1])
  }

  lemma {:induction false} BehaviorInv(states: seq<State>, events: seq<Event>, n: nat)
    requires Behavior(states, events) && n <= |events|
    ensures Inv(states[n])
  {
    if n > 0 {
      BehaviorInv(states, events, n - 1);
      assert Next(states[n - 1], events[n - 1], states[n]);
      StepInv(states[n - 1], events[n - 1]);
    }
  }

  /** The state before the n-th event, with the invariant. */
  lemma StepAt(states: seq<State>, events: seq<Event>, n: nat)
    requires Behavior(states, events) && n < |events|
    ensures Inv(states[n]) && Next(states[n], events[n], states[n + 1])
  {
    BehaviorInv(states, events, n);
    assert Next(states[n], events[n], states[n + 1]);
  }

  /** In every reachable state no request id occurs twice in the map, no key maps to an
      empty list, and a call's entry is listed under its key exactly when the call has
      registered, has not been hit by a cancellation and has not cleaned up. */
  lemma MapListsExactlyPendingCalls(states: seq<State>, events: seq<Event>, n: nat)
    requires Behavior(states, events) && n <= |events|
    ensures var s := states[n];
            && (forall key :: key in s.pending ==> s.pending[key] != [])
            && (forall k1, k2, a, b :: (k1 in s.pending && k2 in s.pending && 0 <= a < |s.pending[k1]| && 0 <= b < |s.pending[k2]|
                  && s.pending[k1][a].id == s.pending[k2][b].id) ==> k1 == k2 && a == b)
            && (forall key, i :: 0 <= i < |s.calls| ==>
                  (Entry(s.calls[i].id, i) in Listed(s.pending, key) <==> s.calls[i].IsPending() && s.calls[i].key == key))
  {
    BehaviorInv(states, events, n);
    var s := states[n];
    forall k1, k2, a, b | k1 in s.pending && k2 in s.pending && 0 <= a < |s.pending[k1]| && 0 <= b < |s.pending[k2]|
                          && s.pending[k1][a].id == s.pending[k2][b].id
      ensures k1 == k2 && a == b
    {
      assert Names(s, s.pending[k1][a]) && Names(s, s.pending[k2][b]);
    }
  }

  lemma NonEmptyMapHasPendingCall(s: State)
    requires MapOk(s) && s.pending != map[]
    ensures exists i :: 0 <= i < |s.calls| && s.calls[i].IsPending()
  {
    assert s.pending.Keys != {};
    var key :| key in s.pending;
    var e := s.pending[key][0];
    assert e in s.pending[key];
    assert s.calls[e.sender].IsPending();
  }

  /** Once every call has returned the map is empty. */
  lemma AllReturnedLeavesNothingPending(states: seq<State>, events: seq<Event>, n: nat)
    requires Behavior(states, events) && n <= |events|
    requires forall i :: 0 <= i < |states[n].calls| ==> states[n].calls[i].phase.Returned?
    ensures states[n].pending == map[]
  {
    BehaviorInv(states, events, n);
    if states[n].pending != map[] {
      NonEmptyMapHasPendingCall(states[n]);
    }
  }

  lemma TakesExactly(s: State, key: Key)
    requires Inv(s)
    ensures forall i: nat :: i < |s.calls| ==>
              (Sends(Listed(s.pending, key), i) <==> s.calls[i].IsPending() && s.calls[i].key == key)
  {
  }

  /** A cancellation hits exactly the calls pending under its key at that step; nothing
      else about any call changes then. */
  lemma CancelHitsExactlyItsKey(states: seq<State>, events: seq<Event>, n: nat, key: Key)
    requires Behavior(states, events) && n < |events| && events[n] == CancelTake(key)
    ensures |states[n + 1].calls| == |states[n].calls|
    ensures forall i :: 0 <= i < |states[n].calls| ==>
              var c := states[n].calls[i];
              states[n + 1].calls[i] == if c.IsPending() && c.key == key then c.(hit := true) else c
  {
    StepAt(states, events, n);
    TakesExactly(states[n], key);
  }

  /** When the mutex is free, a call's cancel channel has been signalled if and only if a
      cancellation hit it, and its sender was dropped only by its own clean-up. */
  lemma SignalledExactlyWhenHit(states: seq<State>, events: seq<Event>, n: nat, i: nat)
    requires Behavior(states, events) && n <= |events|
    requires states[n].signalling == [] && i < |states[n].calls|
    ensures var c := states[n].calls[i];
            && (c.cancel.Signalled? <==> c.hit)
            && (c.cancel.SenderDropped? <==> !c.hit && c.Unregistered())
  {
    BehaviorInv(states, events, n);
    assert CallOk(states[n].calls[i]);
  }

  /** Only a cancellation changes hit flags, and no step changes a key. */
  lemma KeyAndHitStay(s: State, e: Event, t: State, i: nat)
    requires CallsOk(s) && Next(s, e, t) && i < |t.calls| && !e.CancelTake?
    ensures i < |s.calls| ==> t.calls[i].key == s.calls[i].key && t.calls[i].hit == s.calls[i].hit
    ensures i >= |s.calls| ==> !t.calls[i].hit
  {
    match e
    case Start(_) =>
    case Register(_) =>
    case Cleanup(_) =>
    case CancelSend =>
    case _ => ChangesLittle(s, e);
  }

  /** What a step does to the hit flag of a call, old or new. */
  lemma HitStep(s: State, e: Event, t: State, i: nat)
    requires Inv(s) && Next(s, e, t) && i < |t.calls|
    ensures i < |s.calls| ==> t.calls[i].key == s.calls[i].key
    ensures t.calls[i].hit <==>
            i < |s.calls| && (s.calls[i].hit || (s.calls[i].IsPending() && e == CancelTake(s.calls[i].key)))
  {
    if e.CancelTake? {
      TakesExactly(s, e.key);
    } else {
      KeyAndHitStay(s, e, t, i);
    }
  }

  ghost predicate HitAt(s: State, e: Event, i: nat) {
    i < |s.calls| && s.calls[i].IsPending() && e == CancelTake(s.calls[i].key)
  }

  lemma {:induction false} HitHasCause(states: seq<State>, events: seq<Event>, n: nat, i: nat)
    requires Behavior(states, events) && n <= |events| && i < |states[n].calls| && states[n].calls[i].hit
    ensures exists m :: 0 <= m < n && HitAt(states[m], events[m], i)
  {
    if n > 0 {
      StepAt(states, events, n - 1);
      HitStep(states[n - 1], events[n - 1], states[n], i);
      if states[n - 1].calls[i].hit {
        HitHasCause(states, events, n - 1, i);
      } else {
        assert HitAt(states[n - 1], events[n - 1], i);
      }
    }
  }

  /** "Canceled by NetworkManager" is returned only to a call whose own key was cancelled
      while it was registered: no other call can make it so by dropping its sender. */
  lemma CanceledOnlyByOwnKey(states: seq<State>, events: seq<Event>, n: nat, i: nat)
    requires Behavior(states, events) && n <= |events| && i < |states[n].calls|
    requires states[n].calls[i].HasOutcome() && states[n].calls[i].phase.outcome == CanceledByNetworkManager
    ensures exists m :: 0 <= m < n && HitAt(states[m], events[m], i)
  {
    BehaviorInv(states, events, n);
    assert CallOk(states[n].calls[i]);
    HitHasCause(states, events, n, i);
  }

  /** Cancelled and committed to say so. */
  predicate Doomed(c: Call) {
    c.cancel.Signalled? && !c.phase.IdTaken? && (c.HasOutcome() ==> c.phase.outcome == CanceledByNetworkManager)
  }

  lemma DoomedStep(s: State, e: Event, t: State, i: nat)
    requires Inv(s) && Next(s, e, t) && i < |s.calls| && Doomed(s.calls[i])
    ensures i < |t.calls| && Doomed(t.calls[i])
  {
  }

  /** A cancellation signalled before a call has decided wins over everything that could
      be ready later: whatever happens next, the only outcome left is the cancellation. */
  lemma {:induction false} CancellationWins(states: seq<State>, events: seq<Event>, n: nat, m: nat, i: nat)
    requires Behavior(states, events) && n <= m <= |events| && i < |states[n].calls|
    requires states[n].calls[i].cancel.Signalled? && !states[n].calls[i].HasOutcome()
    ensures i < |states[m].calls| && Doomed(states[m].calls[i])
    decreases m
  {
    if n == m {
      BehaviorInv(states, events, n);
      assert CallOk(states[n].calls[i]);
    } else {
      CancellationWins(states, events, n, m - 1, i);
      StepAt(states, events, m - 1);
      DoomedStep(states[m - 1], events[m - 1], states[m], i);
    }
  }

  lemma {:induction false} NotHitWithoutCancel(states: seq<State>, events: seq<Event>, n: nat, m: nat, i: nat)
    requires Behavior(states, events) && n <= m <= |events|
    requires i < |states[n].calls| ==> !states[n].calls[i].hit
    requires i < |states[m].calls| && CancelTake(states[m].calls[i].key) !in events[n..m]
    ensures !states[m].calls[i].hit
    decreases m
  {
    if n < m {
      StepAt(states, events, m - 1);
      HitStep(states[m - 1], events[m - 1], states[m], i);
      assert events[n..m] == events[n..m - 1] + [events[m - 1]];
      if i < |states[m - 1].calls| {
        NotHitWithoutCancel(states, events, n, m - 1, i);
      }
    }
  }

  /** A call that no cancellation of its key follows is not cancelled: an earlier
      cancellation still busy signalling, cancellations of other keys, and the late
      clean-up of other calls with the same key all leave it alone. */
  lemma LaterCallsAreSpared(states: seq<State>, events: seq<Event>, n: nat, m: nat, i: nat)
    requires Behavior(states, events) && n <= m <= |events|
    requires i < |states[n].calls| ==> !states[n].calls[i].hit
    requires i < |states[m].calls| && CancelTake(states[m].calls[i].key) !in events[n..m]
    ensures var c := states[m].calls[i];
            !c.hit && (c.HasOutcome() ==> c.phase.outcome != CanceledByNetworkManager)
  {
    NotHitWithoutCancel(states, events, n, m, i);
    BehaviorInv(states, events, m);
    assert CallOk(states[m].calls[i]);
  }

  lemma PendingStep(s: State, e: Event, t: State, i: nat)
    requires Inv(s) && Next(s, e, t) && i < |s.calls| && s.calls[i].IsPending()
    requires e != Cleanup(i) && e != CancelTake(s.calls[i].key)
    ensures i < |t.calls| && t.calls[i].IsPending() && t.calls[i].key == s.calls[i].key
  {
    if e.Cleanup? {
      CleanupKeepsCalls(s, e.call);
    } else if e.CancelTake? {
      TakesExactly(s, e.key);
    }
  }

  /** A registered call stays listed until its own clean-up or a cancellation of its key:
      the clean-up of a call cancelled earlier under the same key does not unregister it. */
  lemma {:induction false} ListedUntilOwnCleanup(states: seq<State>, events: seq<Event>, n: nat, m: nat, i: nat)
    requires Behavior(states, events) && n <= m <= |events| && i < |states[n].calls| && states[n].calls[i].IsPending()
    requires Cleanup(i) !in events[n..m] && CancelTake(states[n].calls[i].key) !in events[n..m]
    ensures i < |states[m].calls| && states[m].calls[i].IsPending() && states[m].calls[i].key == states[n].calls[i].key
    ensures Entry(states[m].calls[i].id, i) in Listed(states[m].pending, states[n].calls[i].key)
    decreases m
  {
    if n < m {
      assert events[n..m] == events[n..m - 1] + [events[m - 1]];
      ListedUntilOwnCleanup(states, events, n, m - 1, i);
      StepAt(states, events, m - 1);
      PendingStep(states[m - 1], events[m - 1], states[m], i);
    }
    BehaviorInv(states, events, m);
  }

  /** Each responder sends at most once, has sent exactly once when it is gone, and what a
      call returns is what its OWN responder sent, however many calls share its key.  A
      reply channel is never seen closed without a reply. */
  lemma ReplyComesFromOwnResponder(states: seq<State>, events: seq<Event>, n: nat, i: nat)
    requires Behavior(states, events) && n <= |events| && i < |states[n].calls|
    ensures var c := states[n].calls[i];
            && |c.responder.sent| == (if c.location.Gone? then 1 else 0)
            && (c.HasOutcome() && c.phase.outcome.GotSecrets? ==> c.responder.sent == [Secrets(c.phase.outcome.dict)])
            && (c.HasOutcome() && c.phase.outcome.CanceledByUser? ==> c.responder.sent == [UserCanceled])
            && (c.HasOutcome() && c.phase.outcome.NoneAvailable? ==> c.responder.sent == [NoSecrets])
            && (c.responder.hasTx || c.responder.sent != [])
  {
    BehaviorInv(states, events, n);
    assert CallOk(states[n].calls[i]);
  }

  lemma SentStep(s: State, e: Event, t: State, i: nat)
    requires Inv(s) && Next(s, e, t) && i < |s.calls| && s.calls[i].responder.sent != []
    ensures i < |t.calls| && t.calls[i].responder == s.calls[i].responder
  {
  }

  /** A send is never repeated, replaced or taken back. */
  lemma {:induction false} SentForGood(states: seq<State>, events: seq<Event>, n: nat, m: nat, i: nat)
    requires Behavior(states, events) && n <= m <= |events| && i < |states[n].calls|
    requires states[n].calls[i].responder.sent != []
    ensures i < |states[m].calls| && states[m].calls[i].responder == states[n].calls[i].responder
    decreases m
  {
    if n < m {
      SentForGood(states, events, n, m - 1, i);
      StepAt(states, events, m - 1);
      SentStep(states[m - 1], events[m - 1], states[m], i);
    }
  }

  /** When the stream is closed, the consumer holds nothing and every call has returned,
      every responder ever created has sent exactly once. */
  lemma QuiescentMeansAllReplied(states: seq<State>, events: seq<Event>, n: nat)
    requires Behavior(states, events) && n <= |events| && states[n].closed
    requires forall i :: 0 <= i < |states[n].calls| ==>
               states[n].calls[i].phase.Returned? && !states[n].calls[i].location.WithConsumer?
    ensures forall i :: 0 <= i < |states[n].calls| ==> |states[n].calls[i].responder.sent| == 1
  {
    BehaviorInv(states, events, n);
    forall i | 0 <= i < |states[n].calls|
      ensures |states[n].calls[i].responder.sent| == 1
    {
      assert CallOk(states[n].calls[i]);
    }
  }

  // ----- What a poll does

  /** The only reply there can be decides the outcome. */
  predicate SpeaksFor(reply: SecretReply, outcome: Outcome) {
    match reply
    case Secrets(dict) => outcome == GotSecrets(dict)
    case UserCanceled => outcome == CanceledByUser
    case NoSecrets => outcome == NoneAvailable
  }

  lemma PollWaitStep(s: State, i: nat, expired: bool)
    requires CallsOk(s) && Enabled(s, PollWait(i, expired))
    ensures var (c, d) := (s.calls[i], Apply(s, PollWait(i, expired)).calls[i]);
            && (d.HasOutcome() <==> !c.cancel.Open? || c.responder.sent != [] || expired)
            && d == (if d.HasOutcome() then c.(phase := Decided(d.phase.outcome)) else c)
            && (!c.cancel.Open? ==> d.phase.outcome == CanceledByNetworkManager)
            && (c.cancel.Open? && c.responder.sent != [] ==>
                  |c.responder.sent| == 1 && SpeaksFor(c.responder.sent[0], d.phase.outcome))
            && (c.cancel.Open? && c.responder.sent == [] && expired ==> d.phase.outcome == TimedOut)
  {
    assert CallOk(s.calls[i]);
  }

  /** A waiting call that is polled decides exactly when it was cancelled, answered or timed
      out: in that order, a cancellation gives "canceled", the one reply sent gives what it
      says, and the timer gives the timeout.  Otherwise the poll changes nothing. */
  lemma PollWaitDecidesExactly(states: seq<State>, events: seq<Event>, n: nat, i: nat, expired: bool)
    requires Behavior(states, events) && n < |events| && events[n] == PollWait(i, expired)
    ensures i < |states[n].calls| == |states[n + 1].calls| && states[n].calls[i].phase.Waiting?
    ensures var (c, d) := (states[n].calls[i], states[n + 1].calls[i]);
            && (d.HasOutcome() <==> !c.cancel.Open? || c.responder.sent != [] || expired)
            && d == (if d.HasOutcome() then c.(phase := Decided(d.phase.outcome)) else c)
            && (!c.cancel.Open? ==> d.phase.outcome == CanceledByNetworkManager)
            && (c.cancel.Open? && c.responder.sent != [] ==>
                  |c.responder.sent| == 1 && SpeaksFor(c.responder.sent[0], d.phase.outcome))
            && (c.cancel.Open? && c.responder.sent == [] && expired ==> d.phase.outcome == TimedOut)
  {
    StepAt(states, events, n);
    PollWaitStep(states[n], i, expired);
  }

  /** How a sending call gets on: the queue takes its request. */
  predicate Delivers(s: State, i: nat, room: bool)
    requires i < |s.calls|
  {
    s.calls[i].cancel.Open? && s.calls[i].phase == Sending(false) && !s.closed && room
  }

  lemma PollSendStep(s: State, i: nat, room: bool, flushed: bool)
    requires CallsOk(s) && Enabled(s, PollSend(i, room, flushed))
    ensures var t := Apply(s, PollSend(i, room, flushed));
            var (c, d) := (s.calls[i], t.calls[i]);
            && (!c.cancel.Open? <==> d.phase == Decided(CanceledByNetworkManager))
            && (c.cancel.Open? && !c.phase.delivered && s.closed <==> d.phase == Decided(ChannelClosed))
            && (d.phase.Waiting? <==>
                  c.cancel.Open?
                  && ((flushed && (c.phase.delivered || Delivers(s, i, room))) || (c.phase.delivered && s.closed)))
            && (d.phase.Waiting? || d.phase.Decided? || d.phase == Sending(c.phase.delivered || Delivers(s, i, room)))
            && t.queue == (if Delivers(s, i, room) then s.queue + [i] else s.queue)
            && (d.location.InQueue? && c.location.WithCall? <==> Delivers(s, i, room))
            && (d.phase.Decided? && !c.phase.delivered ==> d.location.Gone? && d.responder.sent == [NoSecrets])
  {
    assert CallOk(s.calls[i]);
  }

  /** A sending call that is polled is cancelled exactly when its channel was used, reports a
      closed queue exactly when it had not delivered its request and the consumer closed, and
      goes on to wait exactly when its request is in and flushed, or delivered to a queue
      since closed.  The request enters the queue exactly when there is room and none of the
      above stands in the way, and a request given up is answered with NoSecrets. */
  lemma PollSendMovesExactly(states: seq<State>, events: seq<Event>, n: nat, i: nat, room: bool, flushed: bool)
    requires Behavior(states, events) && n < |events| && events[n] == PollSend(i, room, flushed)
    ensures i < |states[n].calls| == |states[n + 1].calls| && states[n].calls[i].phase.Sending?
    ensures var (s, t) := (states[n], states[n + 1]);
            var (c, d) := (s.calls[i], t.calls[i]);
            && (!c.cancel.Open? <==> d.phase == Decided(CanceledByNetworkManager))
            && (c.cancel.Open? && !c.phase.delivered && s.closed <==> d.phase == Decided(ChannelClosed))
            && (d.phase.Waiting? <==>
                  c.cancel.Open?
                  && ((flushed && (c.phase.delivered || Delivers(s, i, room))) || (c.phase.delivered && s.closed)))
            && (d.phase.Waiting? || d.phase.Decided? || d.phase == Sending(c.phase.delivered || Delivers(s, i, room)))
            && t.queue == (if Delivers(s, i, room) then s.queue + [i] else s.queue)
            && (d.location.InQueue? && c.location.WithCall? <==> Delivers(s, i, room))
            && (d.phase.Decided? && !c.phase.delivered ==> d.location.Gone? && d.responder.sent == [NoSecrets])
  {
    StepAt(states, events, n);
    PollSendStep(states[n], i, room, flushed);
  }

  /** What the remaining steps of a call do to it. */
  predicate Moves(e: Event, c: Call, d: Call) {
    match e
    case Register(_) => d == c.(phase := Sending(false))
    case Cleanup(_) => c.phase.Decided? && d.phase == Cleaned(c.phase.outcome)
    case Return(_) => c.phase.Cleaned? && d == c.(phase := Returned(c.phase.outcome))
    case Consume(_, action) =>
      c.location.WithConsumer? && d == c.(location := Gone, responder := ResponderState(false, [ReplyFor(action)]))
    case _ => true
  }

  lemma MoveStep(s: State, e: Event)
    requires CallsOk(s) && Enabled(s, e) && (e.Register? || e.Cleanup? || e.Return? || e.Consume?)
    ensures e.call < |s.calls| && Moves(e, s.calls[e.call], Apply(s, e).calls[e.call])
  {
    assert CallOk(s.calls[e.call]);
  }

  /** Registering starts the send, cleaning up and returning carry the outcome along, and the
      consumer's response is the one send of that call's responder. */
  lemma CallsMoveOn(states: seq<State>, events: seq<Event>, n: nat)
    requires Behavior(states, events) && n < |events|
    requires events[n].Register? || events[n].Cleanup? || events[n].Return? || events[n].Consume?
    ensures var i := events[n].call;
            i < |states[n].calls| == |states[n + 1].calls| && Moves(events[n], states[n].calls[i], states[n + 1].calls[i])
  {
    StepAt(states, events, n);
    MoveStep(states[n], events[n]);
  }

  /** The consumer receives requests in the order in which they entered the queue. */
  lemma ReceivesInOrder(states: seq<State>, events: seq<Event>, n: nat)
    requires Behavior(states, events) && n < |events| && events[n] == Receive
    ensures states[n].queue != [] && states[n + 1].queue == states[n].queue[1..]
    ensures var i := states[n].queue[0];
            i < |states[n].calls| == |states[n + 1].calls| && states[n + 1].calls[i].location.WithConsumer?
  {
    StepAt(states, events, n);
  }

  /** A cancellation that holds the map can always go on, and signals the senders it took one
      by one, in their order: the first one's call, still open, is signalled, and nothing else
      about any call changes. */
  lemma SignalsInOrder(states: seq<State>, events: seq<Event>, n: nat)
    requires Behavior(states, events) && n < |events| && states[n].signalling != []
    ensures Enabled(states[n], CancelSend)
    ensures events[n] == CancelSend ==>
              var (s, t, i) := (states[n], states[n + 1], states[n].signalling[0].sender);
              && i < |s.calls| && s.calls[i].cancel.Open?
              && t.signalling == s.signalling[1..] && t.calls == s.calls[i := s.calls[i].(cancel := Signalled)]
    ensures events[n] != CancelSend ==> states[n + 1].signalling == states[n].signalling
  {
    StepAt(states, events, n);
    assert states[n].signalling[0] in states[n].signalling;
  }

  predicate HasThisOutcome(c: Call, outcome: Outcome) {
    c.HasOutcome() && c.phase.outcome == outcome
  }

  lemma OutcomeStep(s: State, e: Event, t: State, i: nat, outcome: Outcome)
    requires CallsOk(s) && Next(s, e, t) && i < |s.calls| && HasThisOutcome(s.calls[i], outcome)
    ensures i < |t.calls| && HasThisOutcome(t.calls[i], outcome)
  {
  }

  /** What a call decided is what it returns, whatever happens in between. */
  lemma {:induction false} OutcomeIsFinal(states: seq<State>, events: seq<Event>, n: nat, m: nat, i: nat)
    requires Behavior(states, events) && n <= m <= |events| && i < |states[n].calls| && states[n].calls[i].HasOutcome()
    ensures i < |states[m].calls| && HasThisOutcome(states[m].calls[i], states[n].calls[i].phase.outcome)
    decreases m
  {
    if n < m {
      OutcomeIsFinal(states, events, n, m - 1, i);
      StepAt(states, events, m - 1);
      OutcomeStep(states[m - 1], events[m - 1], states[m], i, states[n].calls[i].phase.outcome);
    }
  }

  /** The consumer answered this call with this reply. */
  ghost predicate Answered(e: Event, i: nat, reply: SecretReply) {
    e.Consume? && e.call == i && ReplyFor(e.action) == reply
  }

  lemma SentCauseStep(s: State, e: Event, t: State, i: nat, reply: SecretReply)
    requires CallsOk(s) && Next(s, e, t) && i < |t.calls| && t.calls[i].responder.sent == [reply] && reply != NoSecrets
    ensures i < |s.calls| && (s.calls[i].responder.sent == [reply] || Answered(e, i, reply))
  {
    if i < |s.calls| {
      assert CallOk(s.calls[i]);
    }
    if e.Consume? {
      MoveStep(s, e);
    }
    assert t.calls[i].responder.sent[0] == reply;
  }

  lemma {:induction false} SentHasCause(states: seq<State>, events: seq<Event>, n: nat, i: nat, reply: SecretReply)
    requires Behavior(states, events) && n <= |events| && i < |states[n].calls|
    requires states[n].calls[i].responder.sent == [reply] && reply != NoSecrets
    ensures exists m :: 0 <= m < n && Answered(events[m], i, reply)
  {
    if n > 0 {
      StepAt(states, events, n - 1);
      SentCauseStep(states[n - 1], events[n - 1], states[n], i, reply);
      if !Answered(events[n - 1], i, reply) {
        SentHasCause(states, events, n - 1, i, reply);
      }
    }
  }

  /** Secrets are returned to a call only if the consumer answered that very call with them. */
  lemma SecretsComeFromConsumer(states: seq<State>, events: seq<Event>, n: nat, i: nat)
    requires Behavior(states, events) && n <= |events| && i < |states[n].calls|
    requires states[n].calls[i].HasOutcome() && states[n].calls[i].phase.outcome.GotSecrets?
    ensures exists m :: 0 <= m < n && Answered(events[m], i, Secrets(states[n].calls[i].phase.outcome.dict))
  {
    BehaviorInv(states, events, n);
    assert CallOk(states[n].calls[i]);
    SentHasCause(states, events, n, i, Secrets(states[n].calls[i].phase.outcome.dict));
  }

  lemma WaitDecides(s: State, e: Event, t: State, i: nat)
    requires CallsOk(s) && Next(s, e, t) && i < |s.calls| && s.calls[i].phase.Waiting?
    ensures i < |t.calls|
    ensures t.calls[i].HasOutcome() ==>
              e.PollWait? && e.call == i
              && (t.calls[i].phase.outcome == TimedOut <==> s.calls[i].cancel.Open? && s.calls[i].responder.sent == [])
  {
  }

  /** A call times out only while it is neither cancelled nor answered: a reply that is
      there when the timer is looked at wins. */
  lemma TimesOutOnlyUnanswered(states: seq<State>, events: seq<Event>, n: nat, i: nat)
    requires Behavior(states, events) && n < |events| && i < |states[n].calls| && states[n].calls[i].phase.Waiting?
    ensures i < |states[n + 1].calls|
    ensures states[n + 1].calls[i].HasOutcome() ==>
              events[n].PollWait? && events[n].call == i
              && (states[n + 1].calls[i].phase.outcome == TimedOut <==>
                    states[n].calls[i].cancel.Open? && states[n].calls[i].responder.sent == [])
  {
    StepAt(states, events, n);
    WaitDecides(states[n], events[n], states[n + 1], i);
  }

  lemma ClosedStep(s: State, e: Event, t: State)
    requires Next(s, e, t)
    ensures t.closed <==> s.closed || e == CloseStream
  {
  }

  lemma {:induction false} ClosedHasCause(states: seq<State>, events: seq<Event>, n: nat)
    requires Behavior(states, events) && n <= |events| && states[n].closed
    ensures exists m :: 0 <= m < n && events[m] == CloseStream
  {
    if n > 0 {
      assert Next(states[n - 1], events[n - 1], states[n]);
      ClosedStep(states[n - 1], events[n - 1], states[n]);
      if states[n - 1].closed {
        ClosedHasCause(states, events, n - 1);
      }
    }
  }

  predicate SaysClosed(c: Call) {
    c.HasOutcome() && c.phase.outcome == ChannelClosed
  }

  lemma SaysClosedStep(s: State, e: Event, t: State, i: nat)
    requires Inv(s) && Next(s, e, t) && i < |t.calls| && SaysClosed(t.calls[i])
    ensures i < |s.calls| && (SaysClosed(s.calls[i]) || s.closed)
  {
    if e.Cleanup? {
      CleanupKeepsCalls(s, e.call);
    } else if e.PollWait? {
      assert CallOk(s.calls[e.call]);
    }
  }

  /** Held by every call of a state: whoever reports a closed queue is right. */
  ghost predicate ClosedReportsRight(s: State) {
    forall i :: 0 <= i < |s.calls| && SaysClosed(s.calls[i]) ==> s.closed
  }

  lemma ClosedReportsStep(s: State, e: Event, t: State)
    requires Inv(s) && Next(s, e, t) && ClosedReportsRight(s)
    ensures ClosedReportsRight(t)
  {
    ClosedStep(s, e, t);
    forall i | 0 <= i < |t.calls| && SaysClosed(t.calls[i])
      ensures t.closed
    {
      SaysClosedStep(s, e, t, i);
    }
  }

  lemma {:induction false} AllClosedReportsRight(states: seq<State>, events: seq<Event>, n: nat)
    requires Behavior(states, events) && n <= |events|
    ensures ClosedReportsRight(states[n])
  {
    if n > 0 {
      AllClosedReportsRight(states, events, n - 1);
      StepAt(states, events, n - 1);
      ClosedReportsStep(states[n - 1], events[n - 1], states[n]);
    }
  }

  /** A call reports a closed queue only after the consumer really closed it. */
  lemma ChannelClosedOnlyAfterClose(states: seq<State>, events: seq<Event>, n: nat, i: nat)
    requires Behavior(states, events) && n <= |events| && i < |states[n].calls|
    requires states[n].calls[i].HasOutcome() && states[n].calls[i].phase.outcome == ChannelClosed
    ensures exists m :: 0 <= m < n && events[m] == CloseStream
  {
    AllClosedReportsRight(states, events, n);
    ClosedHasCause(states, events, n);
  }

  ghost predicate Reachable(s: State) {
    exists states, events :: Behavior(states, events) && states[|events|] == s
  }

  lemma OneMore(s: State, e: Event)
    requires Reachable(s) && Enabled(s, e)
    ensures Reachable(Apply(s, e))
  {
    var states, events :| Behavior(states, events) && states[|events|] == s;
    var longer, more := states + [Apply(s, e)], events + [e];
    forall n | 0 <= n < |more|
      ensures Next(longer[n], more[n], longer[n + 1])
    {
      if n < |events| {
        assert Next(states[n], events[n], states[n + 1]);
      }
    }
    assert Behavior(longer, more) && longer[|more|] == Apply(s, e);
  }

  /** Ids under a key are unique but need not be sorted: taking an id and registering it
      are two steps, and another call can get in between. */
  lemma IdsNeedNotBeSorted(key: Key)
    ensures exists s :: Reachable(s) && Listed(s.pending, key) == [Entry(2, 1), Entry(1, 0)]
  {
    var none: seq<Event> := [];
    assert Behavior([INITIAL], none) && [INITIAL][|none|] == INITIAL;
    var a := Call(key, 1, IdTaken, Open, false, FRESH, WithCall);
    var b := Call(key, 2, IdTaken, Open, false, FRESH, WithCall);
    OneMore(INITIAL, Start(key));
    OneMore(State(2, map[], [], [a], [], false), Start(key));
    OneMore(State(3, map[], [], [a, b], [], false), Register(1));
    var s := Apply(State(3, map[], [], [a, b], [], false), Register(1));
    OneMore(s, Register(0));
    assert Listed(Apply(s, Register(0)).pending, key) == [Entry(2, 1), Entry(1, 0)];
  }
}
