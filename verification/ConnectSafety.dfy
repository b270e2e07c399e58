/** What every run of the connect transaction keeps, whatever NetworkManager answers. */
module ConnectSafety {
  import opened Wrappers
  import opened Errors
  import opened WifiSecurity
  import opened Lookup
  import opened StateWait
  import opened Connect

  // ----- The effects of a log

  /** The calls that can change something, and the ends of activations, in order. */
  function Effects(log: seq<Call>): (es: seq<Call>)
    ensures forall e :: e in es <==> e in log && !e.Quiet()
  {
    if log == [] then []
    else
      assert forall e :: e in log <==> e == log[0] || e in log[1..];
      (if log[0].Quiet() then [] else [log[0]]) + Effects(log[1..])
  }

  lemma {:induction false} EffectsConcat(a: seq<Call>, b: seq<Call>)
    ensures Effects(a + b) == Effects(a) + Effects(b)
  {
    if a == [] {
      assert a + b == b;
    } else {
      assert (a + b)[1..] == a[1..] + b;
      EffectsConcat(a[1..], b);
    }
  }

  lemma {:induction false} EffectsOfQuiet(log: seq<Call>)
    requires forall e :: e in log ==> e.Quiet()
    ensures Effects(log) == []
  {
    if log != [] {
      EffectsOfQuiet(log[1..]);
    }
  }

  lemma EffectsOfOne(e: Call)
    ensures Effects([e]) == if e.Quiet() then [] else [e]
  {
  }

  lemma EffectsOfTwo(d: Call, e: Call)
    requires !d.Quiet() && !e.Quiet()
    ensures Effects([d, e]) == [d, e]
  {
    assert [d, e] == [d] + [e];
    EffectsConcat([d], [e]);
    EffectsOfOne(d);
    EffectsOfOne(e);
  }

  /** The effects of a wait: its end, if it ended. */
  function WaitEffects(active: Path, wait: Ran): seq<Call> {
    if wait.result.None? then [] else [ActivationEnded(active, wait.result.value)]
  }

  lemma ActivationRunEffects(active: Path, w: Waited)
    ensures Effects(ActivationRun(active, w).log) == WaitEffects(active, ActivationRun(active, w))
  {
    var wait := ActivationRun(active, w);
    var quiet := if w.subscribed then [SubscribeActive(active, true)] + Seen(active, w.seen)
                 else [SubscribeActive(active, false)];
    EffectsOfQuiet(quiet);
    assert wait.log == quiet + WaitEffects(active, wait);
    EffectsConcat(quiet, WaitEffects(active, wait));
    if wait.result.Some? {
      EffectsOfOne(ActivationEnded(active, wait.result.value));
    }
  }

  lemma AfterEffects(log: seq<Call>, rest: Ran)
    ensures Effects(After(log, rest).log) == Effects(log) + Effects(rest.log)
  {
    EffectsConcat(log, rest.log);
  }

  lemma CleaningUpEffects(wait: Ran, cleanup: seq<Call>)
    ensures Effects(CleaningUp(wait, cleanup).log) ==
            Effects(wait.log) + if wait.Failed() then Effects(cleanup) else []
  {
    EffectsConcat(wait.log, cleanup);
  }

  lemma RecoveringEffects(wait: Ran, recovery: seq<Call>, rebuild: Ran)
    ensures Effects(Recovering(wait, recovery, rebuild).log) ==
            Effects(wait.log) + if wait.Failed() then Effects(recovery) + Effects(rebuild.log) else []
  {
    EffectsConcat(wait.log, recovery);
    EffectsConcat(wait.log + recovery, rebuild.log);
  }

  function AddEffects(req: Request, device: Path, ap: Path, a: Answers): seq<Call> {
    [Add(req.ssid, req.creds, device, ap, a.add)]
    + match a.add
      case None => []
      case Some((profile, active)) =>
        var wait := ActivationRun(active, a.freshWait);
        WaitEffects(active, wait)
        + if wait.Failed() then [Deactivate(active, a.freshDeactivate), Delete(profile, a.freshDelete)] else []
  }

  function ViaSavedEffects(req: Request, saved: Path, device: Path, ap: Path, a: Answers): seq<Call> {
    [Activate(saved, device, ap, a.activate)]
    + match a.activate
      case Some(active) =>
        var wait := ActivationRun(active, a.savedWait);
        WaitEffects(active, wait)
        + if wait.Failed() && CanRebuildAfterSavedFailure(req.creds)
          then [Deactivate(active, a.savedDeactivate), Delete(saved, a.savedDelete)] + AddEffects(req, device, ap, a)
          else []
      case None =>
        if CanRebuildAfterSavedFailure(req.creds) then [Delete(saved, a.savedDelete)] + AddEffects(req, device, ap, a)
        else []
  }

  lemma AddRunEffects(req: Request, device: Path, ap: Path, a: Answers)
    ensures Effects(AddRun(req, device, ap, a).log) == AddEffects(req, device, ap, a)
  {
    var call := Add(req.ssid, req.creds, device, ap, a.add);
    EffectsOfOne(call);
    if a.add.Some? {
      var (profile, active) := a.add.value;
      var wait := ActivationRun(active, a.freshWait);
      var cleanup := [Deactivate(active, a.freshDeactivate), Delete(profile, a.freshDelete)];
      ActivationRunEffects(active, a.freshWait);
      EffectsOfTwo(cleanup[0], cleanup[1]);
      CleaningUpEffects(wait, cleanup);
      AfterEffects([call], CleaningUp(wait, cleanup));
    }
  }

  lemma RecoveredEffects(req: Request, active: Path, recovery: seq<Call>, rebuilt: Ran, a: Answers)
    requires Effects(recovery) == recovery
    ensures var wait := ActivationRun(active, a.savedWait);
            Effects(Recovering(wait, recovery, rebuilt).log) ==
            WaitEffects(active, wait) + if wait.Failed() then recovery + Effects(rebuilt.log) else []
  {
    ActivationRunEffects(active, a.savedWait);
    RecoveringEffects(ActivationRun(active, a.savedWait), recovery, rebuilt);
  }

  lemma ViaSavedRunEffects(req: Request, saved: Path, device: Path, ap: Path, a: Answers)
    ensures Effects(ViaSavedRun(req, saved, device, ap, a).log) == ViaSavedEffects(req, saved, device, ap, a)
  {
    var call := Activate(saved, device, ap, a.activate);
    var rebuilt := AddRun(req, device, ap, a);
    EffectsOfOne(call);
    AddRunEffects(req, device, ap, a);
    if a.activate.None? {
      EffectsOfTwo(call, Delete(saved, a.savedDelete));
      AfterEffects([call, Delete(saved, a.savedDelete)], rebuilt);
    } else {
      var active := a.activate.value;
      var wait := ActivationRun(active, a.savedWait);
      var recovery := [Deactivate(active, a.savedDeactivate), Delete(saved, a.savedDelete)];
      if CanRebuildAfterSavedFailure(req.creds) {
        EffectsOfTwo(recovery[0], recovery[1]);
        RecoveredEffects(req, active, recovery, rebuilt, a);
        AfterEffects([call], Recovering(wait, recovery, rebuilt));
      } else {
        ActivationRunEffects(active, a.savedWait);
        AfterEffects([call], wait);
      }
    }
  }

  // ----- Where a run gets to

  function CoreEffects(req: Request, decision: SavedDecision, device: Path, ap: Path, a: Answers): seq<Call> {
    match decision
    case UseSaved(saved) => ViaSavedEffects(req, saved, device, ap, a)
    case RebuildFresh => AddEffects(req, device, ap, a)
  }

  /** The observation shows a device torn down: unavailable or disconnected. */
  predicate ShowsTornDown(e: Call, device: Path) {
    e.ObserveDevice? && e.device == device
    && ((e.seen.Read? && e.seen.answer.Some? && IsTarget(ForDisconnect, e.seen.answer.value))
        || (e.seen.Notified? && IsTarget(ForDisconnect, e.seen.state)))
  }

  ghost predicate TornDownIn(log: seq<Call>, device: Path) {
    exists k :: 0 <= k < |log| && ShowsTornDown(log[k], device)
  }

  predicate Preparatory(e: Call) {
    e.Quiet() || e.Disconnect?
  }

  /** A wait that reports its device down has seen it down: what the disconnect loop
      promises about the observations it consumed. */
  predicate SawTarget(w: Waited) {
    w.result.Some? && w.result.value.Ok? ==>
      |w.seen| > 0 &&
      match w.seen[|w.seen| - 1]
      case Read(Some(state)) => IsTarget(ForDisconnect, state)
      case Notified(state, _) => IsTarget(ForDisconnect, state)
      case _ => false
  }

  ghost predicate EndsTornDown(log: seq<Call>, device: Path) {
    log != [] && ShowsTornDown(log[|log| - 1], device)
  }

  lemma DisconnectSawIt(device: Path, a: Answers)
    requires SawTarget(a.disconnectWait)
    ensures DisconnectRun(device, a).Succeeded() ==> EndsTornDown(DisconnectRun(device, a).log, device)
  {
  }

  lemma DisconnectIsPreparatory(device: Path, a: Answers)
    ensures forall e :: e in DisconnectRun(device, a).log ==> Preparatory(e)
  {
  }

  lemma PrepareIsQuiet(req: Request, a: Answers)
    ensures forall e :: e in Prepare(req, a).0 ==> e.Quiet()
  {
  }

  /** The effects of a whole run: at most the disconnect request, and then, if the
      preparation and the teardown went well, those of the core. */
  function TeardownEffects(device: Path, a: Answers): (es: seq<Call>)
    ensures forall e :: e in es ==> e.Disconnect?
  {
    if a.deviceState.None? || IsTarget(ForDisconnect, a.deviceState.value) then []
    else [Call.Disconnect(device, a.disconnect)]
  }

  lemma TeardownRunEffects(device: Path, a: Answers)
    ensures Effects(DisconnectRun(device, a).log) == TeardownEffects(device, a)
  {
    var read, request := ObserveDevice(device, Read(a.deviceState)), Call.Disconnect(device, a.disconnect);
    var wait := DisconnectWaitRun(device, a.disconnectWait);
    EffectsOfOne(read);
    EffectsOfOne(request);
    EffectsConcat([read], [request]);
    EffectsOfQuiet(wait.log);
    AfterEffects([read] + [request], wait);
  }

  function RunEffects(req: Request, a: Answers): seq<Call> {
    match Prepare(req, a).1
    case Ready(decision, device, ap) =>
      TeardownEffects(device, a)
      + if DisconnectRun(device, a).Succeeded() then CoreEffects(req, decision, device, ap, a) else []
    case _ => []
  }

  lemma CoreRunEffects(req: Request, decision: SavedDecision, device: Path, ap: Path, a: Answers)
    ensures Effects(CoreRun(req, decision, device, ap, a).log) == CoreEffects(req, decision, device, ap, a)
  {
    match decision
    case UseSaved(saved) => ViaSavedRunEffects(req, saved, device, ap, a);
    case RebuildFresh => AddRunEffects(req, device, ap, a);
  }

  lemma ThenEffects(first: Ran, rest: Ran)
    ensures Effects(Then(first, rest).log) == Effects(first.log) + if first.Succeeded() then Effects(rest.log) else []
  {
    EffectsConcat(first.log, rest.log);
  }

  lemma JoinedEffects(log: seq<Call>, first: Ran, rest: Ran, firstEffects: seq<Call>, restEffects: seq<Call>)
    requires Effects(log) == [] && Effects(first.log) == firstEffects && Effects(rest.log) == restEffects
    ensures Effects(After(log, Then(first, rest)).log) == firstEffects + if first.Succeeded() then restEffects else []
  {
    ThenEffects(first, rest);
    AfterEffects(log, Then(first, rest));
  }

  lemma ConnectRunEffects(req: Request, a: Answers)
    ensures Effects(ConnectRun(req, a).log) == RunEffects(req, a)
  {
    var (log, p) := Prepare(req, a);
    PrepareIsQuiet(req, a);
    EffectsOfQuiet(log);
    if p.Ready? {
      TeardownRunEffects(p.device, a);
      CoreRunEffects(req, p.decision, p.device, p.ap, a);
      JoinedEffects(log, DisconnectRun(p.device, a), CoreRun(req, p.decision, p.device, p.ap, a),
                    TeardownEffects(p.device, a), CoreEffects(req, p.decision, p.device, p.ap, a));
    }
  }

  // ----- At most one of each

  predicate AtMostOne(es: seq<Call>) {
    forall i, j :: 0 <= i < j < |es| ==> !(es[i].Activate? && es[j].Activate?) && !(es[i].Add? && es[j].Add?)
  }

  lemma AddEffectsOnce(req: Request, device: Path, ap: Path, a: Answers)
    ensures var es := AddEffects(req, device, ap, a);
            forall i :: 0 <= i < |es| ==> !es[i].Activate? && !es[i].Disconnect? && (es[i].Add? <==> i == 0)
  {
  }

  lemma ViaSavedEffectsOnce(req: Request, saved: Path, device: Path, ap: Path, a: Answers)
    ensures var es := ViaSavedEffects(req, saved, device, ap, a);
            AtMostOne(es) && forall i :: 0 <= i < |es| ==> !es[i].Disconnect?
  {
    AddEffectsOnce(req, device, ap, a);
  }

  /** Every run activates at most one saved profile and adds at most one. */
  lemma AtMostOneActivationAndOneAdd(req: Request, a: Answers)
    ensures AtMostOne(Effects(ConnectRun(req, a).log))
  {
    ConnectRunEffects(req, a);
    match Prepare(req, a).1
    case Ready(UseSaved(saved), device, ap) => ViaSavedEffectsOnce(req, saved, device, ap, a);
    case Ready(RebuildFresh, device, ap) => AddEffectsOnce(req, device, ap, a);
    case _ =>
  }

  // ----- Torn down first

  /** An activation or addition at position `i` uses a device seen torn down before. */
  ghost predicate TornDownBefore(log: seq<Call>, i: nat) {
    i < |log| && TornDownIn(log[..i], match log[i]
                                      case Activate(_, device, _, _) => device
                                      case Add(_, _, device, _, _) => device
                                      case _ => "")
  }

  predicate UsesDevice(e: Call, device: Path) {
    (e.Activate? ==> e.device == device) && (e.Add? ==> e.device == device)
  }

  lemma WaitUsesNoDevice(active: Path, w: Waited, device: Path)
    ensures forall e :: e in ActivationRun(active, w).log ==> UsesDevice(e, device)
  {
  }

  lemma AddUsesItsDevice(req: Request, device: Path, ap: Path, a: Answers)
    ensures forall e :: e in AddRun(req, device, ap, a).log ==> UsesDevice(e, device)
  {
  }

  lemma CoreUsesItsDevice(req: Request, decision: SavedDecision, device: Path, ap: Path, a: Answers)
    ensures forall e :: e in CoreRun(req, decision, device, ap, a).log ==> UsesDevice(e, device)
  {
    AddUsesItsDevice(req, device, ap, a);
    if a.activate.Some? {
      WaitUsesNoDevice(a.activate.value, a.savedWait, device);
    }
  }

  /** Every activation and every addition on a device comes after the device was observed
      disconnected or unavailable in the same run; the recovery path relies on that first
      observation and does not disconnect again. */
  lemma ActivationsFollowTeardown(req: Request, a: Answers)
    requires SawTarget(a.disconnectWait)
    ensures var log := ConnectRun(req, a).log;
            forall i :: 0 <= i < |log| && (log[i].Activate? || log[i].Add?) ==> TornDownBefore(log, i)
  {
    var (lead, p) := Prepare(req, a);
    PrepareIsQuiet(req, a);
    if p.Ready? {
      var teardown, core := DisconnectRun(p.device, a), CoreRun(req, p.decision, p.device, p.ap, a);
      DisconnectSawIt(p.device, a);
      DisconnectIsPreparatory(p.device, a);
      CoreUsesItsDevice(req, p.decision, p.device, p.ap, a);
      TeardownThenCore(lead, teardown, core, p.device);
    }
  }

  lemma TeardownThenCore(lead: seq<Call>, teardown: Ran, core: Ran, device: Path)
    requires forall e :: e in lead ==> e.Quiet()
    requires forall e :: e in teardown.log ==> Preparatory(e)
    requires forall e :: e in core.log ==> UsesDevice(e, device)
    requires teardown.Succeeded() ==> EndsTornDown(teardown.log, device)
    ensures var log := After(lead, Then(teardown, core)).log;
            forall i :: 0 <= i < |log| && (log[i].Activate? || log[i].Add?) ==> TornDownBefore(log, i)
  {
    var log := After(lead, Then(teardown, core)).log;
    assert forall i :: 0 <= i < |lead| ==> log[i] in lead;
    assert forall i :: |lead| <= i < |lead| + |teardown.log| ==> log[i] in teardown.log;
    forall i | 0 <= i < |log| && (log[i].Activate? || log[i].Add?)
      ensures TornDownBefore(log, i)
    {
      assert log[i] in core.log;
      var k := |teardown.log| - 1;
      assert log[..i][|lead| + k] == teardown.log[k];
    }
  }

  /** The call right before position `i` is the observation of its device torn down. */
  ghost predicate TornDownJustBefore(log: seq<Call>, i: nat) {
    0 < i < |log| && ShowsTornDown(log[i - 1], match log[i]
                                               case Activate(_, device, _, _) => device
                                               case Add(_, _, device, _, _) => device
                                               case _ => "")
  }

  predicate IsFirstUse(log: seq<Call>, i: nat) {
    i < |log| && (log[i].Activate? || log[i].Add?) && forall j :: 0 <= j < i ==> !log[j].Activate? && !log[j].Add?
  }

  lemma UnpreparedIsQuiet(req: Request, a: Answers)
    ensures !Prepare(req, a).1.Ready? ==> forall e :: e in ConnectRun(req, a).log ==> e.Quiet()
  {
    PrepareIsQuiet(req, a);
  }

  /** The first activation or addition comes right after the observation: nothing at all is
      asked of NetworkManager in between. */
  lemma FirstUseRightAfterTeardown(req: Request, a: Answers)
    requires SawTarget(a.disconnectWait)
    ensures var log := ConnectRun(req, a).log;
            forall i: nat :: IsFirstUse(log, i) ==> TornDownJustBefore(log, i)
  {
    var (lead, p) := Prepare(req, a);
    PrepareIsQuiet(req, a);
    if p.Ready? {
      var teardown, core := DisconnectRun(p.device, a), CoreRun(req, p.decision, p.device, p.ap, a);
      DisconnectSawIt(p.device, a);
      DisconnectIsPreparatory(p.device, a);
      CoreStartsWithUse(req, p.decision, p.device, p.ap, a);
      FirstUseIn(lead, teardown, core, p.device);
    } else {
      UnpreparedIsQuiet(req, a);
      QuietHasNoUse(ConnectRun(req, a).log);
    }
  }

  lemma QuietHasNoUse(log: seq<Call>)
    requires forall e :: e in log ==> e.Quiet()
    ensures forall i: nat :: !IsFirstUse(log, i)
  {
    assert forall i: nat :: i < |log| ==> log[i] in log;
  }

  lemma CoreStartsWithUse(req: Request, decision: SavedDecision, device: Path, ap: Path, a: Answers)
    ensures var log := CoreRun(req, decision, device, ap, a).log;
            log != [] && (log[0].Activate? || log[0].Add?) && UsesDevice(log[0], device)
  {
  }

  lemma FirstUseIn(lead: seq<Call>, teardown: Ran, core: Ran, device: Path)
    requires forall e :: e in lead ==> e.Quiet()
    requires forall e :: e in teardown.log ==> Preparatory(e)
    requires core.log != [] && (core.log[0].Activate? || core.log[0].Add?) && UsesDevice(core.log[0], device)
    requires teardown.Succeeded() ==> EndsTornDown(teardown.log, device)
    ensures var log := After(lead, Then(teardown, core)).log;
            forall i: nat :: IsFirstUse(log, i) ==> TornDownJustBefore(log, i)
  {
    var log := After(lead, Then(teardown, core)).log;
    assert forall j :: 0 <= j < |lead| ==> log[j] in lead;
    assert forall j :: |lead| <= j < |lead| + |teardown.log| ==> log[j] in teardown.log;
    forall i: nat | IsFirstUse(log, i)
      ensures TornDownJustBefore(log, i)
    {
      assert i >= |lead| + |teardown.log|;
      assert log[|lead| + |teardown.log|] == core.log[0];
    }
  }

  // ----- Stored passphrases

  lemma StoredPskEffects(req: Request, saved: Path, device: Path, ap: Path, a: Answers)
    requires req.creds.IsStoredPsk()
    ensures forall e :: e in ViaSavedEffects(req, saved, device, ap, a) ==> e.Activate? || e.ActivationEnded?
  {
  }

  predicate Harmless(e: Call) {
    e.Disconnect? || e.Activate? || e.ActivationEnded?
  }

  lemma StoredPskRunEffects(req: Request, a: Answers)
    requires req.creds.IsStoredPsk()
    ensures forall e :: e in RunEffects(req, a) ==> Harmless(e)
  {
    var p := Prepare(req, a).1;
    if p.Ready? {
      DecisionFollowsCredentials(req, a);
      StoredPskEffects(req, p.decision.profile, p.device, p.ap, a);
    }
  }

  /** Connecting with an empty passphrase asks for the stored one: such a run never adds,
      deletes or deactivates anything. */
  lemma StoredPskDestroysNothing(req: Request, a: Answers)
    requires req.creds.IsStoredPsk()
    ensures forall e :: e in ConnectRun(req, a).log ==> e.Quiet() || Harmless(e)
  {
    ConnectRunEffects(req, a);
    StoredPskRunEffects(req, a);
    assert forall e :: e in ConnectRun(req, a).log && !e.Quiet() ==> e in RunEffects(req, a);
  }

  predicate OrdinaryError(e: ConnectionError) {
    e != MissingPassword && e != ConnectionInProgress
  }

  /** It fails with a missing password exactly when the inputs are valid and every saved
      profile was read and none carries the name; nothing but that lookup has happened. */
  lemma MissingPasswordExactly(req: Request, a: Answers)
    requires forall w :: w in {a.disconnectWait, a.savedWait, a.freshWait} ==>
               w.result.Some? && w.result.value.Err? ==> OrdinaryError(w.result.value.error)
    ensures ConnectRun(req, a).result == Some(Err(MissingPassword)) <==>
            && req.creds.IsStoredPsk() && ValidateSsid(req.ssid).Ok?
            && (req.bssid.Some? ==> ValidateBssid(req.bssid.value).Ok?)
            && SavedConnectionPath(a.profiles, req.ssid) == Ok(None)
    ensures ConnectRun(req, a).result == Some(Err(MissingPassword)) ==>
              ConnectRun(req, a).log == [LookupSaved(req.ssid)]
  {
    var p := Prepare(req, a).1;
    if p.Ready? {
      CoreErrors(req, p.decision, p.device, p.ap, a);
    }
  }

  lemma CoreErrors(req: Request, decision: SavedDecision, device: Path, ap: Path, a: Answers)
    requires forall w :: w in {a.disconnectWait, a.savedWait, a.freshWait} ==>
               w.result.Some? && w.result.value.Err? ==> OrdinaryError(w.result.value.error)
    ensures Then(DisconnectRun(device, a), CoreRun(req, decision, device, ap, a)).Failed() ==>
              OrdinaryError(Then(DisconnectRun(device, a), CoreRun(req, decision, device, ap, a)).result.value.error)
  {
  }

  // ----- Deletions

  /** A deletion at position `j` is justified by an earlier failure of the same profile's
      activation: refused outright, or ended with an error. */
  ghost predicate Justified(es: seq<Call>, j: nat) {
    j < |es| && es[j].Delete? && exists i :: 0 <= i < j && FailedBefore(es, i, j)
  }

  predicate FailedBefore(es: seq<Call>, i: nat, j: nat)
    requires i < j < |es| && es[j].Delete?
  {
    match es[i]
    case Activate(profile, _, _, None) => profile == es[j].profile
    case Activate(profile, _, _, Some(active)) => profile == es[j].profile && EndedInError(es, i + 1, active)
    case Add(_, _, _, _, Some((profile, active))) => profile == es[j].profile && EndedInError(es, i + 1, active)
    case _ => false
  }

  predicate EndedInError(es: seq<Call>, k: nat, active: Path) {
    k < |es| && es[k].ActivationEnded? && es[k].active == active && es[k].outcome.Err?
  }

  lemma AddDeletionsJustified(req: Request, device: Path, ap: Path, a: Answers)
    ensures var es := AddEffects(req, device, ap, a);
            forall j :: 0 <= j < |es| && es[j].Delete? ==> Justified(es, j)
  {
    var es := AddEffects(req, device, ap, a);
    forall j | 0 <= j < |es| && es[j].Delete?
      ensures Justified(es, j)
    {
      assert FailedBefore(es, 0, j);
    }
  }

  lemma JustifiedShift(before: seq<Call>, es: seq<Call>, j: nat)
    requires Justified(es, j)
    ensures Justified(before + es, |before| + j)
  {
    var i :| 0 <= i < j && FailedBefore(es, i, j);
    var all := before + es;
    assert all[|before| + i] == es[i] && all[|before| + j] == es[j];
    assert i + 1 < |es| ==> all[|before| + i + 1] == es[i + 1];
    assert FailedBefore(all, |before| + i, |before| + j);
  }

  /** Deletions stay justified when an addition follows on a justified prefix. */
  lemma RecoveryJustified(es: seq<Call>, req: Request, device: Path, ap: Path, a: Answers)
    requires es != [] && forall j :: 0 <= j < |es| - 1 ==> !es[j].Delete?
    requires Justified(es, |es| - 1)
    ensures var all := es + AddEffects(req, device, ap, a);
            forall j :: 0 <= j < |all| && all[j].Delete? ==> Justified(all, j)
  {
    var added := AddEffects(req, device, ap, a);
    var all := es + added;
    AddDeletionsJustified(req, device, ap, a);
    forall j | 0 <= j < |all| && all[j].Delete?
      ensures Justified(all, j)
    {
      if j < |es| {
        assert all[j] == es[j];
        var i :| 0 <= i < |es| - 1 && FailedBefore(es, i, |es| - 1);
        assert all[i] == es[i] && all[i + 1] == es[i + 1];
        assert FailedBefore(all, i, j);
      } else {
        JustifiedShift(es, added, j - |es|);
      }
    }
  }

  lemma ViaSavedDeletionsJustified(req: Request, saved: Path, device: Path, ap: Path, a: Answers)
    ensures var es := ViaSavedEffects(req, saved, device, ap, a);
            forall j :: 0 <= j < |es| && es[j].Delete? ==> Justified(es, j)
  {
    var es, added := ViaSavedEffects(req, saved, device, ap, a), AddEffects(req, device, ap, a);
    var call, gone := Activate(saved, device, ap, a.activate), Delete(saved, a.savedDelete);
    if !CanRebuildAfterSavedFailure(req.creds) {
      assert forall j :: 0 <= j < |es| ==> !es[j].Delete?;
    } else if a.activate.None? {
      assert FailedBefore([call, gone], 0, 1);
      RecoveryJustified([call, gone], req, device, ap, a);
      assert es == [call, gone] + added;
    } else {
      var active := a.activate.value;
      var wait := ActivationRun(active, a.savedWait);
      if wait.Failed() {
        var own := [call, ActivationEnded(active, wait.result.value), Deactivate(active, a.savedDeactivate), gone];
        assert FailedBefore(own, 0, 3);
        RecoveryJustified(own, req, device, ap, a);
        assert es == own + added;
      }
    }
  }

  lemma PrependJustified(before: seq<Call>, core: seq<Call>)
    requires forall e :: e in before ==> !e.Delete?
    requires forall j :: 0 <= j < |core| && core[j].Delete? ==> Justified(core, j)
    ensures forall j :: 0 <= j < |before + core| && (before + core)[j].Delete? ==> Justified(before + core, j)
  {
    assert forall j :: 0 <= j < |before| ==> (before + core)[j] in before;
    forall j | 0 <= j < |before + core| && (before + core)[j].Delete?
      ensures Justified(before + core, j)
    {
      JustifiedShift(before, core, j - |before|);
    }
  }

  lemma CoreDeletionsJustified(req: Request, decision: SavedDecision, device: Path, ap: Path, a: Answers)
    ensures var es := CoreEffects(req, decision, device, ap, a);
            forall j :: 0 <= j < |es| && es[j].Delete? ==> Justified(es, j)
  {
    match decision
    case UseSaved(saved) => ViaSavedDeletionsJustified(req, saved, device, ap, a);
    case RebuildFresh => AddDeletionsJustified(req, device, ap, a);
  }

  /** A profile is deleted only after its own activation failed in this run. */
  lemma DeletionsAreJustified(req: Request, a: Answers)
    ensures var es := Effects(ConnectRun(req, a).log);
            forall j :: 0 <= j < |es| && es[j].Delete? ==> Justified(es, j)
  {
    ConnectRunEffects(req, a);
    var p := Prepare(req, a).1;
    if p.Ready? && DisconnectRun(p.device, a).Succeeded() {
      CoreDeletionsJustified(req, p.decision, p.device, p.ap, a);
      PrependJustified(TeardownEffects(p.device, a), CoreEffects(req, p.decision, p.device, p.ap, a));
    }
  }

  /** What the preparation decided follows from the credentials. */
  lemma DecisionFollowsCredentials(req: Request, a: Answers)
    requires Prepare(req, a).1.Ready?
    ensures var decision := Prepare(req, a).1.decision;
            && (req.creds.IsStoredPsk() ==> decision.UseSaved?)
            && (decision.UseSaved? ==> SavedConnectionPath(a.profiles, req.ssid) == Ok(Some(decision.profile)))
            && (decision.UseSaved? ==> req.creds.Open? || req.creds.IsStoredPsk())
  {
  }

  lemma AddEffectsKinds(req: Request, device: Path, ap: Path, a: Answers)
    ensures forall e :: e in AddEffects(req, device, ap, a) ==>
              !e.Activate? && (e.Delete? ==> a.add.Some? && e.profile == a.add.value.0)
  {
  }

  lemma SecuredRunEffects(req: Request, a: Answers)
    requires !req.creds.Open? && !req.creds.IsStoredPsk()
    ensures forall e :: e in RunEffects(req, a) ==>
              !e.Activate? && (e.Delete? ==> a.add.Some? && e.profile == a.add.value.0)
  {
    var p := Prepare(req, a).1;
    if p.Ready? {
      DecisionFollowsCredentials(req, a);
      AddEffectsKinds(req, p.device, p.ap, a);
    }
  }

  /** Deletions in a run that was not told to use an open network only ever remove what
      the same run added: a saved secured profile is never deleted, whether or not the
      caller supplied new credentials, and with new credentials it is not activated. */
  lemma SavedDeletedOnlyForOpenNetworks(req: Request, a: Answers)
    requires !req.creds.Open?
    ensures forall e :: e in ConnectRun(req, a).log && e.Delete? ==> a.add.Some? && e.profile == a.add.value.0
    ensures !req.creds.IsStoredPsk() ==> forall e :: e in ConnectRun(req, a).log ==> !e.Activate?
  {
    if req.creds.IsStoredPsk() {
      StoredPskDestroysNothing(req, a);
    } else {
      ConnectRunEffects(req, a);
      SecuredRunEffects(req, a);
      assert forall e :: e in ConnectRun(req, a).log && !e.Quiet() ==> e in RunEffects(req, a);
    }
  }

  // ----- Recovery

  /** Right before a deletion its activation was deactivated, or refused in the first place. */
  predicate ClearedBefore(es: seq<Call>, j: nat)
    requires j < |es| && es[j].Delete?
  {
    j > 0 && (es[j - 1].Deactivate? || (es[j - 1].Activate? && es[j - 1].answer.None? && es[j - 1].profile == es[j].profile))
  }

  ghost predicate DeletionsCleared(es: seq<Call>) {
    forall j :: 0 <= j < |es| && es[j].Delete? ==> ClearedBefore(es, j)
  }

  lemma ClearedConcat(before: seq<Call>, es: seq<Call>)
    requires DeletionsCleared(before) && DeletionsCleared(es)
    ensures DeletionsCleared(before + es)
  {
  }

  lemma AddCleared(req: Request, device: Path, ap: Path, a: Answers)
    ensures DeletionsCleared(AddEffects(req, device, ap, a))
  {
  }

  lemma ViaSavedCleared(req: Request, saved: Path, device: Path, ap: Path, a: Answers)
    ensures DeletionsCleared(ViaSavedEffects(req, saved, device, ap, a))
  {
    var es, added := ViaSavedEffects(req, saved, device, ap, a), AddEffects(req, device, ap, a);
    var call, gone := Activate(saved, device, ap, a.activate), Delete(saved, a.savedDelete);
    AddCleared(req, device, ap, a);
    if a.activate.None? {
      if CanRebuildAfterSavedFailure(req.creds) {
        ClearedConcat([call, gone], added);
        assert es == [call, gone] + added;
      }
    } else {
      var active := a.activate.value;
      var wait := ActivationRun(active, a.savedWait);
      if wait.Failed() && CanRebuildAfterSavedFailure(req.creds) {
        var own := [call, ActivationEnded(active, wait.result.value), Deactivate(active, a.savedDeactivate), gone];
        ClearedConcat(own, added);
        assert es == own + added;
      }
    }
  }

  /** No profile is deleted under a running activation: every deletion comes right after the
      deactivation, or after an activation of that profile that was refused. */
  lemma DeletionsFollowDeactivation(req: Request, a: Answers)
    ensures DeletionsCleared(Effects(ConnectRun(req, a).log))
  {
    ConnectRunEffects(req, a);
    var p := Prepare(req, a).1;
    if p.Ready? && DisconnectRun(p.device, a).Succeeded() {
      match p.decision {
        case UseSaved(saved) => ViaSavedCleared(req, saved, p.device, p.ap, a);
        case RebuildFresh => AddCleared(req, p.device, p.ap, a);
      }
      ClearedConcat(TeardownEffects(p.device, a), CoreEffects(req, p.decision, p.device, p.ap, a));
    }
  }

  lemma ViaSavedAdds(req: Request, saved: Path, device: Path, ap: Path, a: Answers)
    ensures (exists e :: e in ViaSavedEffects(req, saved, device, ap, a) && e.Add?) <==>
            SavedTryFailed(a) && CanRebuildAfterSavedFailure(req.creds)
  {
    if SavedTryFailed(a) && CanRebuildAfterSavedFailure(req.creds) {
      assert Add(req.ssid, req.creds, device, ap, a.add) in ViaSavedEffects(req, saved, device, ap, a);
    }
  }

  /** A run that reuses a saved profile adds a fresh one exactly when the saved one failed
      and the network is open. */
  lemma RebuildsExactlyAfterSavedFailure(req: Request, a: Answers)
    requires var p := Prepare(req, a).1; p.Ready? && p.decision.UseSaved? && DisconnectRun(p.device, a).Succeeded()
    ensures (exists e :: e in ConnectRun(req, a).log && e.Add?) <==> SavedTryFailed(a) && req.creds.Open?
  {
    AddsExactlyWhenReached(req, a);
  }

  lemma AddsAreEffects(log: seq<Call>)
    ensures (exists e :: e in log && e.Add?) <==> (exists e :: e in Effects(log) && e.Add?)
  {
  }

  lemma RunAddsInCore(req: Request, a: Answers)
    requires var p := Prepare(req, a).1; p.Ready? && DisconnectRun(p.device, a).Succeeded()
    ensures var p := Prepare(req, a).1;
            (exists e :: e in RunEffects(req, a) && e.Add?) <==>
            (exists e :: e in CoreEffects(req, p.decision, p.device, p.ap, a) && e.Add?)
  {
  }

  /** When the stored passphrase fails, the caller gets the error of that activation. */
  lemma StoredPskReportsItsFailure(req: Request, a: Answers)
    requires req.creds.IsStoredPsk()
    requires var p := Prepare(req, a).1; p.Ready? && DisconnectRun(p.device, a).Succeeded()
    ensures ConnectRun(req, a).result ==
            if a.activate.None? then Some(Err(Dbus)) else ActivationRun(a.activate.value, a.savedWait).result
  {
  }

  // ----- How runs end

  /** The last three effects clean up a fresh profile that failed with `error`. */
  predicate EndsInCleanup(es: seq<Call>, profile: Path, active: Path, error: ConnectionError) {
    var n := |es|;
    && n >= 3 && es[n - 3] == ActivationEnded(active, Err(error))
    && es[n - 2].Deactivate? && es[n - 2].active == active
    && es[n - 1].Delete? && es[n - 1].profile == profile
  }

  /** How the core ends: it succeeds exactly when it ends with an activation that succeeded;
      a failure after an addition ends with the clean-up of exactly what was added. */
  ghost predicate EndsWell(es: seq<Call>, result: Option<Answer>, a: Answers) {
    && (result.Some? && result.value.Ok? <==> es != [] && es[|es| - 1].ActivationEnded? && es[|es| - 1].outcome.Ok?)
    && (result.Some? && result.value.Err? && a.add.Some? && (exists e :: e in es && e.Add?) ==>
          EndsInCleanup(es, a.add.value.0, a.add.value.1, result.value.error))
  }

  lemma AddEndsWell(req: Request, device: Path, ap: Path, a: Answers)
    ensures EndsWell(AddEffects(req, device, ap, a), AddRun(req, device, ap, a).result, a)
  {
  }

  lemma PrependEndsWell(before: seq<Call>, es: seq<Call>, result: Option<Answer>, a: Answers)
    requires es != [] && EndsWell(es, result, a) && forall e :: e in before ==> !e.Add?
    ensures EndsWell(before + es, result, a)
  {
  }

  lemma ViaSavedEndsWell(req: Request, saved: Path, device: Path, ap: Path, a: Answers)
    ensures EndsWell(ViaSavedEffects(req, saved, device, ap, a), ViaSavedRun(req, saved, device, ap, a).result, a)
  {
    var es, added := ViaSavedEffects(req, saved, device, ap, a), AddEffects(req, device, ap, a);
    var call, gone := Activate(saved, device, ap, a.activate), Delete(saved, a.savedDelete);
    AddEndsWell(req, device, ap, a);
    if a.activate.None? {
      if CanRebuildAfterSavedFailure(req.creds) {
        PrependEndsWell([call, gone], added, AddRun(req, device, ap, a).result, a);
        assert es == [call, gone] + added;
      } else {
        assert es == [call];
      }
    } else {
      var active := a.activate.value;
      var wait := ActivationRun(active, a.savedWait);
      assert wait.result.None? ==> es == [call];
      assert wait.result.Some? && wait.result.value.Ok? ==> es == [call, ActivationEnded(active, wait.result.value)];
      if wait.Failed() && !CanRebuildAfterSavedFailure(req.creds) {
        assert es == [call, ActivationEnded(active, wait.result.value)];
      }
      if wait.Failed() && CanRebuildAfterSavedFailure(req.creds) {
        var own := [call, ActivationEnded(active, wait.result.value), Deactivate(active, a.savedDeactivate), gone];
        PrependEndsWell(own, added, AddRun(req, device, ap, a).result, a);
        assert es == own + added;
      }
    }
  }

  lemma CoreEndsWell(req: Request, decision: SavedDecision, device: Path, ap: Path, a: Answers)
    ensures var es := CoreEffects(req, decision, device, ap, a);
            es != [] && EndsWell(es, CoreRun(req, decision, device, ap, a).result, a)
  {
    match decision
    case UseSaved(saved) => ViaSavedEndsWell(req, saved, device, ap, a);
    case RebuildFresh => AddEndsWell(req, device, ap, a);
  }

  lemma RunResult(req: Request, a: Answers)
    ensures ConnectRun(req, a).result ==
            match Prepare(req, a).1
            case Refused(e) => Some(Err(e))
            case AlreadyConnected => Some(Ok(()))
            case Ready(decision, device, ap) =>
              if DisconnectRun(device, a).Succeeded() then CoreRun(req, decision, device, ap, a).result
              else DisconnectRun(device, a).result
  {
  }

  /** A run reports success exactly when it found the network already connected, and did
      nothing, or ends with an activation observed to succeed.  A run that added a profile
      and fails ends by requesting deactivation and then deletion of exactly that profile,
      and returns the error of its failed activation. */
  lemma RunsEndWell(req: Request, a: Answers)
    ensures var (es, result) := (Effects(ConnectRun(req, a).log), ConnectRun(req, a).result);
            (es == [] && result == Some(Ok(())) && req.bssid.None? && a.currentSsid == Some(req.ssid))
            || EndsWell(es, result, a)
  {
    ConnectRunEffects(req, a);
    RunResult(req, a);
    var p := Prepare(req, a).1;
    if p.Ready? && DisconnectRun(p.device, a).Succeeded() {
      CoreEndsWell(req, p.decision, p.device, p.ap, a);
      PrependEndsWell(TeardownEffects(p.device, a), CoreEffects(req, p.decision, p.device, p.ap, a),
                      ConnectRun(req, a).result, a);
    } else {
      PreparationSucceedsOnlyConnected(req, a);
    }
  }

  lemma PreparationSucceedsOnlyConnected(req: Request, a: Answers)
    ensures Prepare(req, a).1.AlreadyConnected? ==> req.bssid.None? && a.currentSsid == Some(req.ssid)
  {
  }

  // ----- The profile store

  datatype Profile = Existing(tag: nat) | Created(ssid: string, creds: Security)

  /** What a call does to NetworkManager's store; a refused call does nothing. */
  function StoreStep(store: map<Path, Profile>, e: Call): map<Path, Profile> {
    match e
    case Add(ssid, creds, _, _, Some((profile, _))) => store[profile := Created(ssid, creds)]
    case Delete(profile, true) => store - {profile}
    case _ => store
  }

  function Replay(store: map<Path, Profile>, log: seq<Call>): map<Path, Profile>
    decreases log
  {
    if log == [] then store else Replay(StoreStep(store, log[0]), log[1..])
  }

  lemma {:induction false} ReplayConcat(store: map<Path, Profile>, a: seq<Call>, b: seq<Call>)
    ensures Replay(store, a + b) == Replay(Replay(store, a), b)
    decreases a
  {
    if a == [] {
      assert a + b == b;
    } else {
      assert (a + b)[0] == a[0] && (a + b)[1..] == a[1..] + b;
      ReplayConcat(StoreStep(store, a[0]), a[1..], b);
    }
  }

  lemma ReplayOne(store: map<Path, Profile>, e: Call)
    ensures Replay(store, [e]) == StoreStep(store, e)
  {
  }

  lemma {:induction false} ReplayEffects(store: map<Path, Profile>, log: seq<Call>)
    ensures Replay(store, log) == Replay(store, Effects(log))
    decreases log
  {
    if log != [] {
      var first, rest := Effects([log[0]]), Effects(log[1..]);
      ReplayEffects(StoreStep(store, log[0]), log[1..]);
      assert log == [log[0]] + log[1..];
      EffectsConcat([log[0]], log[1..]);
      EffectsOfOne(log[0]);
      ReplayConcat(store, first, rest);
      ReplayOne(store, log[0]);
    }
  }

  lemma {:induction false} ReplayIdle(store: map<Path, Profile>, log: seq<Call>)
    requires forall e :: e in log ==> !e.Add? && !e.Delete?
    ensures Replay(store, log) == store
    decreases log
  {
    if log != [] {
      assert log[0] in log;
      ReplayIdle(store, log[1..]);
    }
  }

  /** Nothing outside `touched` changes. */
  ghost predicate SameOutside(s: map<Path, Profile>, t: map<Path, Profile>, touched: set<Path>) {
    forall p :: p !in touched ==> (p in s <==> p in t) && (p in s ==> s[p] == t[p])
  }

  predicate TouchesOnly(e: Call, touched: set<Path>) {
    && (e.Delete? ==> e.profile in touched)
    && (e.Add? && e.added.Some? ==> e.added.value.0 in touched)
  }

  lemma {:induction false} ReplayTouches(store: map<Path, Profile>, log: seq<Call>, touched: set<Path>)
    requires forall e :: e in log ==> TouchesOnly(e, touched)
    ensures SameOutside(store, Replay(store, log), touched)
    decreases log
  {
    if log != [] {
      assert log[0] in log;
      ReplayTouches(StoreStep(store, log[0]), log[1..], touched);
    }
  }

  /** Connecting with a stored passphrase leaves every profile as it was. */
  lemma StoredPskKeepsStore(req: Request, a: Answers, store: map<Path, Profile>)
    requires req.creds.IsStoredPsk()
    ensures Replay(store, ConnectRun(req, a).log) == store
  {
    StoredPskDestroysNothing(req, a);
    ReplayIdle(store, ConnectRun(req, a).log);
  }

  /** The profile chosen for reuse, and the one this run added. */
  function OwnProfiles(req: Request, a: Answers): set<Path> {
    (match SavedConnectionPath(a.profiles, req.ssid) case Ok(Some(saved)) => {saved} case _ => {})
    + (match a.add case Some((added, _)) => {added} case None => {})
  }

  lemma AddTouches(req: Request, device: Path, ap: Path, a: Answers)
    ensures forall e :: e in AddEffects(req, device, ap, a) ==> TouchesOnly(e, OwnProfiles(req, a))
  {
  }

  lemma ViaSavedTouches(req: Request, saved: Path, device: Path, ap: Path, a: Answers)
    requires saved in OwnProfiles(req, a)
    ensures forall e :: e in ViaSavedEffects(req, saved, device, ap, a) ==> TouchesOnly(e, OwnProfiles(req, a))
  {
  }

  /** No run changes any other profile. */
  lemma OtherProfilesUntouched(req: Request, a: Answers, store: map<Path, Profile>)
    ensures SameOutside(store, Replay(store, ConnectRun(req, a).log), OwnProfiles(req, a))
  {
    var p := Prepare(req, a).1;
    if p.Ready? {
      DecisionFollowsCredentials(req, a);
      match p.decision {
        case UseSaved(saved) => ViaSavedTouches(req, saved, p.device, p.ap, a);
        case RebuildFresh => AddTouches(req, p.device, p.ap, a);
      }
    }
    ConnectRunEffects(req, a);
    ReplayEffects(store, ConnectRun(req, a).log);
    ReplayTouches(store, RunEffects(req, a), OwnProfiles(req, a));
  }

  /** What an addition leaves in the store.  A failed activation is cleaned up, but nothing
      happens when NetworkManager refuses the deletion. */
  function AfterAddition(store: map<Path, Profile>, req: Request, a: Answers, failed: bool): map<Path, Profile> {
    match a.add
    case None => store
    case Some((profile, _)) =>
      if failed && a.freshDelete then store - {profile} else store[profile := Created(req.ssid, req.creds)]
  }

  lemma CleanupReplay(store: map<Path, Profile>, profile: Path, p: Profile, idle: seq<Call>, ok: bool)
    requires forall e :: e in idle ==> !e.Add? && !e.Delete?
    ensures Replay(store[profile := p], idle + [Delete(profile, ok)]) ==
            if ok then store - {profile} else store[profile := p]
  {
    var added := store[profile := p];
    ReplayConcat(added, idle, [Delete(profile, ok)]);
    ReplayIdle(added, idle);
    ReplayOne(added, Delete(profile, ok));
    assert added - {profile} == store - {profile};
  }

  lemma AddReplay(store: map<Path, Profile>, req: Request, device: Path, ap: Path, a: Answers)
    ensures Replay(store, AddEffects(req, device, ap, a)) ==
            AfterAddition(store, req, a, AddRun(req, device, ap, a).Failed())
  {
    var call, es := Add(req.ssid, req.creds, device, ap, a.add), AddEffects(req, device, ap, a);
    assert es == [call] + es[1..];
    ReplayConcat(store, [call], es[1..]);
    ReplayOne(store, call);
    if a.add.Some? {
      var (profile, active) := a.add.value;
      var wait := ActivationRun(active, a.freshWait);
      if wait.Failed() {
        var idle := [ActivationEnded(active, wait.result.value), Deactivate(active, a.freshDeactivate)];
        assert es[1..] == idle + [Delete(profile, a.freshDelete)];
        CleanupReplay(store, profile, Created(req.ssid, req.creds), idle, a.freshDelete);
      } else {
        ReplayIdle(store[profile := Created(req.ssid, req.creds)], es[1..]);
      }
    }
  }

  lemma RunReplay(store: map<Path, Profile>, req: Request, a: Answers)
    ensures var p := Prepare(req, a).1;
            Replay(store, ConnectRun(req, a).log) ==
            if p.Ready? && DisconnectRun(p.device, a).Succeeded()
            then Replay(store, CoreEffects(req, p.decision, p.device, p.ap, a)) else store
  {
    var p := Prepare(req, a).1;
    ConnectRunEffects(req, a);
    ReplayEffects(store, ConnectRun(req, a).log);
    if p.Ready? {
      var teardown := TeardownEffects(p.device, a);
      ReplayIdle(store, teardown);
      ReplayConcat(store, teardown,
                   if DisconnectRun(p.device, a).Succeeded() then CoreEffects(req, p.decision, p.device, p.ap, a) else []);
    }
  }

  /** The saved profile was tried, and its activation was refused or ended in an error. */
  predicate SavedActivationFailed(req: Request, a: Answers) {
    var p := Prepare(req, a).1;
    && p.Ready? && p.decision.UseSaved? && DisconnectRun(p.device, a).Succeeded()
    && SavedTryFailed(a)
  }

  predicate SavedTryFailed(a: Answers) {
    a.activate.None? || ActivationRun(a.activate.value, a.savedWait).Failed()
  }

  /** The run got as far as asking for a new profile: with new credentials once the device
      was torn down, with open ones only if there was no saved profile or it failed. */
  predicate ReachesAddition(req: Request, a: Answers) {
    var p := Prepare(req, a).1;
    && p.Ready? && DisconnectRun(p.device, a).Succeeded()
    && (p.decision.UseSaved? ==> SavedTryFailed(a) && req.creds.Open?)
  }

  lemma AddsExactlyWhenReached(req: Request, a: Answers)
    ensures (exists e :: e in ConnectRun(req, a).log && e.Add?) <==> ReachesAddition(req, a)
  {
    var p := Prepare(req, a).1;
    ConnectRunEffects(req, a);
    AddsAreEffects(ConnectRun(req, a).log);
    if p.Ready? && DisconnectRun(p.device, a).Succeeded() {
      DecisionFollowsCredentials(req, a);
      RunAddsInCore(req, a);
      match p.decision {
        case UseSaved(saved) => ViaSavedAdds(req, saved, p.device, p.ap, a);
        case RebuildFresh =>
          assert Add(req.ssid, req.creds, p.device, p.ap, a.add) in AddEffects(req, p.device, p.ap, a);
      }
    } else {
      assert forall e :: e in RunEffects(req, a) ==> !e.Add?;
    }
  }

  /** The store after a run: the saved profile is gone if it failed, the network is open and
      its deletion was carried out; then the addition, if it was reached, leaves its mark. */
  function FinalStore(store: map<Path, Profile>, req: Request, a: Answers): map<Path, Profile> {
    var p := Prepare(req, a).1;
    var kept := if SavedActivationFailed(req, a) && req.creds.Open? && a.savedDelete
                then store - {p.decision.profile} else store;
    if ReachesAddition(req, a) then AfterAddition(kept, req, a, ConnectRun(req, a).Failed()) else kept
  }

  lemma ViaSavedReplay(store: map<Path, Profile>, req: Request, saved: Path, device: Path, ap: Path, a: Answers)
    requires SavedTryFailed(a) && CanRebuildAfterSavedFailure(req.creds)
    ensures ViaSavedRun(req, saved, device, ap, a).result == AddRun(req, device, ap, a).result
    ensures Replay(store, ViaSavedEffects(req, saved, device, ap, a)) ==
            AfterAddition(if a.savedDelete then store - {saved} else store, req, a, AddRun(req, device, ap, a).Failed())
  {
    var es, added := ViaSavedEffects(req, saved, device, ap, a), AddEffects(req, device, ap, a);
    var gone := Delete(saved, a.savedDelete);
    var before := [Activate(saved, device, ap, a.activate)]
                  + if a.activate.None? then []
                    else WaitEffects(a.activate.value, ActivationRun(a.activate.value, a.savedWait))
                         + [Deactivate(a.activate.value, a.savedDeactivate)];
    assert es == before + ([gone] + added);
    ReplayConcat(store, before, [gone] + added);
    ReplayIdle(store, before);
    ReplayConcat(store, [gone], added);
    ReplayOne(store, gone);
    AddReplay(StoreStep(store, gone), req, device, ap, a);
  }

  lemma ViaSavedIdle(store: map<Path, Profile>, req: Request, saved: Path, device: Path, ap: Path, a: Answers)
    requires !SavedTryFailed(a) || !CanRebuildAfterSavedFailure(req.creds)
    ensures Replay(store, ViaSavedEffects(req, saved, device, ap, a)) == store
  {
    ReplayIdle(store, ViaSavedEffects(req, saved, device, ap, a));
  }

  /** Every run, however it ends and whatever NetworkManager answers, leaves exactly this
      store behind. */
  lemma FinalStoreExactly(req: Request, a: Answers, store: map<Path, Profile>)
    ensures Replay(store, ConnectRun(req, a).log) == FinalStore(store, req, a)
  {
    RunReplay(store, req, a);
    RunResult(req, a);
    var p := Prepare(req, a).1;
    if p.Ready? && DisconnectRun(p.device, a).Succeeded() {
      DecisionFollowsCredentials(req, a);
      match p.decision {
        case UseSaved(saved) =>
          if SavedTryFailed(a) && CanRebuildAfterSavedFailure(req.creds) {
            ViaSavedReplay(store, req, saved, p.device, p.ap, a);
          } else {
            ViaSavedIdle(store, req, saved, p.device, p.ap, a);
          }
        case RebuildFresh => AddReplay(store, req, p.device, p.ap, a);
      }
    }
  }

  /** NetworkManager gives a new profile a path of its own. */
  predicate FreshPath(store: map<Path, Profile>, a: Answers) {
    a.add.Some? ==> a.add.value.0 !in store
  }

  /** A failed attempt that is not open leaves the store exactly as it was, unless it got a
      profile added and NetworkManager refused to delete it again: then that profile stays. */
  lemma FailureRestoresStore(req: Request, a: Answers, store: map<Path, Profile>)
    requires !req.creds.Open? && FreshPath(store, a) && ConnectRun(req, a).Failed()
    ensures Replay(store, ConnectRun(req, a).log) ==
            if ReachesAddition(req, a) && a.add.Some? && !a.freshDelete
            then store[a.add.value.0 := Created(req.ssid, req.creds)] else store
  {
    FinalStoreExactly(req, a, store);
    if a.add.Some? {
      assert store - {a.add.value.0} == store;
    }
  }

  /** A successful attempt with new credentials adds exactly the requested profile, unless
      the network was connected already; the path may even be one in use. */
  lemma SuccessAddsOneProfile(req: Request, a: Answers, store: map<Path, Profile>)
    requires !req.creds.Open? && !req.creds.IsStoredPsk() && ConnectRun(req, a).Succeeded()
    ensures Prepare(req, a).1.AlreadyConnected? || a.add.Some?
    ensures Replay(store, ConnectRun(req, a).log) ==
            if Prepare(req, a).1.AlreadyConnected? then store
            else store[a.add.value.0 := Created(req.ssid, req.creds)]
  {
    FinalStoreExactly(req, a, store);
    RunResult(req, a);
    if Prepare(req, a).1.Ready? {
      DecisionFollowsCredentials(req, a);
    }
  }

  /** With open credentials the chosen saved profile, and no other, may be lost: after a
      failure it is gone exactly when its own activation failed and NetworkManager carried
      out the deletion.  A fresh profile stays only if its deletion was refused. */
  lemma OpenFailureLosesOnlyChosen(req: Request, a: Answers, store: map<Path, Profile>, saved: Path)
    requires req.creds.Open? && FreshPath(store, a) && ConnectRun(req, a).Failed()
    requires SavedConnectionPath(a.profiles, req.ssid) == Ok(Some(saved))
    ensures var kept := if SavedActivationFailed(req, a) && a.savedDelete then store - {saved} else store;
            Replay(store, ConnectRun(req, a).log) ==
            if SavedActivationFailed(req, a) && a.add.Some? && !a.freshDelete
            then kept[a.add.value.0 := Created(req.ssid, req.creds)] else kept
  {
    FinalStoreExactly(req, a, store);
    OpenUsesSaved(req, a, saved);
    var kept := if SavedActivationFailed(req, a) && a.savedDelete then store - {saved} else store;
    if a.add.Some? {
      assert kept - {a.add.value.0} == kept;
    }
  }

  lemma OpenUsesSaved(req: Request, a: Answers, saved: Path)
    requires req.creds.Open? && SavedConnectionPath(a.profiles, req.ssid) == Ok(Some(saved))
    ensures var p := Prepare(req, a).1; p.Ready? ==> p.decision == UseSaved(saved)
  {
  }
}
