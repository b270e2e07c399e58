/** The connect transaction as the program performs it, step by step, with its waits run
    by the real wait loops.  Every method is proved to append to the call log exactly what
    the run functions of `Connect` say, so the safety theorems hold of it; two of them no
    longer need any assumption about how a wait came to its result. */
module ConnectSession {
  import opened Wrappers
  import opened Errors
  import opened WifiSecurity
  import opened Lookup
  import opened StateWait
  import opened Connect
  import opened ConnectSafety

  // ----- Waits answered by the environment

  /** What happens during one wait; `devices` is what the devices of the connection say
      when the connection itself reports no more than a disconnected device. */
  datatype WaitScript = WaitScript(subscribed: bool, first: ReadAnswer, rounds: seq<Round>, devices: Option<seq<Option<u32>>>)

  function ActivationWait(script: WaitScript): Wait {
    ForActivation(RefineDeviceDisconnectedError(script.devices))
  }

  /** How the wait loop ends on a script. */
  function Live(w: Wait, script: WaitScript): Waited {
    if !script.subscribed then Waited(false, [], None)
    else
      var obs := Observations(script.first, script.rounds);
      FirstDecisiveIsFirst(w, obs);
      match Outcome(w, script.first, script.rounds)
      case None => Waited(true, obs, None)
      case Some((n, v)) => Waited(true, obs[..n], Some(v.result))
  }

  /** What a wait loop reports is what `Live` says. */
  lemma ReportsLive(w: Wait, script: WaitScript, result: Option<Answer>, used: nat, awaits: nat, byDeadline: bool)
    requires script.subscribed
    requires Reports(Outcome(w, script.first, script.rounds), |Observations(script.first, script.rounds)|,
                     result, used, awaits, byDeadline)
    ensures used <= |Observations(script.first, script.rounds)|
    ensures Live(w, script) == Waited(true, Observations(script.first, script.rounds)[..used], result)
  {
    var obs := Observations(script.first, script.rounds);
    FirstDecisiveIsFirst(w, obs);
    assert obs[..|obs|] == obs;
  }

  /** How a wait ends, without the loop: a refused subscription sees nothing; otherwise the
      first read or the first round that is not quiet gives the result. */
  lemma LiveSpelledOut(w: Wait, script: WaitScript, i: nat)
    requires PendingRead(w, script.first) ==> QuietBefore(w, script.rounds, i) && !QuietRound(w, script.rounds[i])
    ensures !script.subscribed ==> Live(w, script) == Waited(false, [], None)
    ensures script.subscribed ==>
              Live(w, script).subscribed && Live(w, script).result.Some?
              && exists v: Verdict :: v.result == Live(w, script).result.value
                   && if PendingRead(w, script.first) then RoundVerdict(w, script.rounds[i], v) else ReadVerdict(w, script.first, v)
  {
    VerdictSpelledOut(w, script.first, script.rounds, i);
  }

  /** The error that refines a disconnected device is the first one any device gives. */
  lemma RefinedBy(script: WaitScript)
    ensures ActivationWait(script).ForActivation?
    ensures script.devices.None? ==> ActivationWait(script).refined == ActivationFailed(3)
    ensures script.devices.Some? ==>
              && ((forall i :: 0 <= i < |script.devices.value| ==> script.devices.value[i].None?) ==>
                    ActivationWait(script).refined == ActivationFailed(3))
              && forall i :: (0 <= i < |script.devices.value| && script.devices.value[i].Some?
                              && forall j :: 0 <= j < i ==> script.devices.value[j].None?) ==>
                   ActivationWait(script).refined == ReasonToError(script.devices.value[i].value)
  {
    if script.devices.Some? {
      FirstDeviceAnswers(script.devices.value);
    }
  }

  datatype Environment = Environment(answers: Answers, disconnectScript: WaitScript, savedScript: WaitScript,
                                     freshScript: WaitScript)
  {
    /** The answers with every wait worked out by its loop. */
    function Resolved(): Answers {
      answers.(disconnectWait := Live(ForDisconnect, disconnectScript),
               savedWait := Live(ActivationWait(savedScript), savedScript),
               freshWait := Live(ActivationWait(freshScript), freshScript))
    }
  }

  lemma Appended(before: seq<Call>, first: seq<Call>, rest: seq<Call>)
    ensures before + first + rest == before + (first + rest)
  {
  }

  lemma RefusedLog(before: seq<Call>, call: Call, e: Call, rebuilt: seq<Call>)
    ensures before + [call] + ([e] + rebuilt) == before + ([call, e] + rebuilt)
  {
  }

  lemma RecoveryLog(before: seq<Call>, waited: seq<Call>, d: Call, e: Call, rebuilt: seq<Call>)
    ensures before + waited + [d] + ([e] + rebuilt) == before + (waited + [d, e] + rebuilt)
  {
  }

  // ----- The transaction

  class Session {
    const req: Request
    const env: Environment
    var log: seq<Call>

    constructor (req: Request, env: Environment)
      ensures this.req == req && this.env == env && log == []
    {
      this.req, this.env, log := req, env, [];
    }

    method AwaitActivation(active: Path, script: WaitScript) returns (result: Option<Answer>)
      modifies this`log
      ensures var run := ActivationRun(active, Live(ActivationWait(script), script));
              log == old(log) + run.log && result == run.result
    {
      // Subscribe to the signals first, so that no transition falls in between.
      if !script.subscribed {
        log := log + [SubscribeActive(active, false), ActivationEnded(active, Err(Dbus))];
        return Some(Err(Dbus));
      }
      var used, awaits, byDeadline;
      result, used, awaits, byDeadline :=
        WaitForActivationState(script.first, script.rounds, RefineDeviceDisconnectedError(script.devices));
      ReportsLive(ActivationWait(script), script, result, used, awaits, byDeadline);
      log := log + ([SubscribeActive(active, true)] + Seen(active, Observations(script.first, script.rounds)[..used]));
      if result.Some? {
        log := log + [ActivationEnded(active, result.value)];
      }
    }

    method DisconnectWifiAndWait(device: Path) returns (result: Option<Answer>)
      modifies this`log
      ensures var run := DisconnectRun(device, env.Resolved());
              log == old(log) + run.log && result == run.result
    {
      log := log + [ObserveDevice(device, Read(env.answers.deviceState))];
      if env.answers.deviceState.None? {
        return Some(Err(Dbus));
      }
      if IsTarget(ForDisconnect, env.answers.deviceState.value) {
        return Some(Ok(()));
      }
      log := log + [Call.Disconnect(device, env.answers.disconnect)];
      Appended(old(log), [ObserveDevice(device, Read(env.answers.deviceState))],
               [Call.Disconnect(device, env.answers.disconnect)]);
      if !env.answers.disconnect {
        return Some(Err(Dbus));
      }
      result := AwaitDisconnect(device, env.disconnectScript);
      Appended(old(log), [ObserveDevice(device, Read(env.answers.deviceState))] + [Call.Disconnect(device, true)],
               DisconnectWaitRun(device, Live(ForDisconnect, env.disconnectScript)).log);
    }

    method AwaitDisconnect(device: Path, script: WaitScript) returns (result: Option<Answer>)
      modifies this`log
      ensures var run := DisconnectWaitRun(device, Live(ForDisconnect, script));
              log == old(log) + run.log && result == run.result
    {
      if !script.subscribed {
        log := log + [SubscribeDevice(device, false)];
        return Some(Err(Dbus));
      }
      var used, byDeadline;
      result, used, byDeadline := WaitForDeviceState(ForDisconnect, script.first, script.rounds);
      ReportsLive(ForDisconnect, script, result, used, 0, byDeadline);
      log := log + ([SubscribeDevice(device, true)] + DeviceSeen(device, Observations(script.first, script.rounds)[..used]));
    }

    /** Adds the profile, waits for it, and cleans it up if the wait fails. */
    method AddAndActivate(device: Path, ap: Path) returns (result: Option<Answer>)
      modifies this`log
      ensures var run := AddRun(req, device, ap, env.Resolved());
              log == old(log) + run.log && result == run.result
    {
      log := log + [Add(req.ssid, req.creds, device, ap, env.answers.add)];
      if env.answers.add.None? {
        return Some(Err(Dbus));
      }
      var (profile, active) := env.answers.add.value;
      ghost var called := log;
      result := WaitForFreshActivation(profile, active);
      Appended(old(log), [Add(req.ssid, req.creds, device, ap, env.answers.add)], log[|called|..]);
    }

    method WaitForFreshActivation(profile: Path, active: Path) returns (result: Option<Answer>)
      modifies this`log
      ensures var a := env.Resolved();
              var run := CleaningUp(ActivationRun(active, a.freshWait),
                                    [Deactivate(active, a.freshDeactivate), Delete(profile, a.freshDelete)]);
              log == old(log) + run.log && result == run.result
    {
      result := AwaitActivation(active, env.freshScript);
      if result.Some? && result.value.Err? {
        log := log + [Deactivate(active, env.answers.freshDeactivate)];
        log := log + [Delete(profile, env.answers.freshDelete)];
      }
    }

    method BuildAndActivateNew(device: Path, ap: Path) returns (result: Option<Answer>)
      modifies this`log
      ensures var run := Then(DisconnectRun(device, env.Resolved()), AddRun(req, device, ap, env.Resolved()));
              log == old(log) + run.log && result == run.result
    {
      result := DisconnectWifiAndWait(device);
      if result.None? || result.value.Err? {
        return;
      }
      result := AddAndActivate(device, ap);
      Appended(old(log), DisconnectRun(device, env.Resolved()).log, AddRun(req, device, ap, env.Resolved()).log);
    }

    /** Deletes a saved profile that failed and adds a fresh one. */
    method ReplaceSaved(saved: Path, device: Path, ap: Path) returns (result: Option<Answer>)
      modifies this`log
      ensures var run := After([Delete(saved, env.answers.savedDelete)], AddRun(req, device, ap, env.Resolved()));
              log == old(log) + run.log && result == run.result
    {
      log := log + [Delete(saved, env.answers.savedDelete)];
      result := AddAndActivate(device, ap);
      Appended(old(log), [Delete(saved, env.answers.savedDelete)], AddRun(req, device, ap, env.Resolved()).log);
    }

    /** The part after an accepted activation. */
    method AwaitSaved(saved: Path, active: Path, device: Path, ap: Path) returns (result: Option<Answer>)
      modifies this`log
      ensures var a := env.Resolved();
              var wait := ActivationRun(active, a.savedWait);
              var run := if CanRebuildAfterSavedFailure(req.creds)
                         then Recovering(wait, [Deactivate(active, a.savedDeactivate), Delete(saved, a.savedDelete)],
                                         AddRun(req, device, ap, a))
                         else wait;
              log == old(log) + run.log && result == run.result
    {
      result := AwaitActivation(active, env.savedScript);
      if result.None? || result.value.Ok? || !CanRebuildAfterSavedFailure(req.creds) {
        return;
      }
      ghost var waited := ActivationRun(active, env.Resolved().savedWait).log;
      ghost var rebuilt := AddRun(req, device, ap, env.Resolved()).log;
      log := log + [Deactivate(active, env.answers.savedDeactivate)];
      result := ReplaceSaved(saved, device, ap);
      RecoveryLog(old(log), waited, Deactivate(active, env.answers.savedDeactivate),
                  Delete(saved, env.answers.savedDelete), rebuilt);
    }

    method ConnectViaSaved(saved: Path, device: Path, ap: Path) returns (result: Option<Answer>)
      modifies this`log
      ensures var run := ViaSavedRun(req, saved, device, ap, env.Resolved());
              log == old(log) + run.log && result == run.result
    {
      log := log + [Activate(saved, device, ap, env.answers.activate)];
      ghost var called := log;
      if env.answers.activate.Some? {
        result := AwaitSaved(saved, env.answers.activate.value, device, ap);
      } else if CanRebuildAfterSavedFailure(req.creds) {
        result := ReplaceSaved(saved, device, ap);
        RefusedLog(old(log), Activate(saved, device, ap, None), Delete(saved, env.answers.savedDelete),
                   AddRun(req, device, ap, env.Resolved()).log);
        return;
      } else {
        return Some(Err(Dbus));
      }
      Appended(old(log), [Activate(saved, device, ap, env.answers.activate)], log[|called|..]);
    }

    method TeardownAndConnectViaSaved(saved: Path, device: Path, ap: Path) returns (result: Option<Answer>)
      modifies this`log
      ensures var run := Then(DisconnectRun(device, env.Resolved()), ViaSavedRun(req, saved, device, ap, env.Resolved()));
              log == old(log) + run.log && result == run.result
    {
      result := DisconnectWifiAndWait(device);
      if result.None? || result.value.Err? {
        return;
      }
      result := ConnectViaSaved(saved, device, ap);
      Appended(old(log), DisconnectRun(device, env.Resolved()).log, ViaSavedRun(req, saved, device, ap, env.Resolved()).log);
    }

    /** `connect`, and `connect_to_bssid` when the request names an access point. */
    method Connect() returns (result: Option<Answer>)
      modifies this`log
      ensures var run := ConnectRun(req, env.Resolved());
              log == old(log) + run.log && result == run.result
    {
      var prepared := PrepareConnection();
      match prepared {
        case Refused(e) => result := Some(Err(e));
        case AlreadyConnected => result := Some(Ok(()));
        case Ready(decision, device, ap) =>
          match decision {
            case RebuildFresh => result := BuildAndActivateNew(device, ap);
            case UseSaved(saved) => result := TeardownAndConnectViaSaved(saved, device, ap);
          }
          Appended(old(log), Prepare(req, env.Resolved()).0,
                   Then(DisconnectRun(device, env.Resolved()), CoreRun(req, decision, device, ap, env.Resolved())).log);
      }
    }

    method PrepareConnection() returns (prepared: Preparation)
      modifies this`log
      ensures log == old(log) + Prepare(req, env.Resolved()).0 && prepared == Prepare(req, env.Resolved()).1
    {
      if req.bssid.Some? && ValidateBssid(req.bssid.value).Err? {
        return Refused(InvalidBssid);
      }
      if ValidateSsid(req.ssid).Err? {
        return Refused(InvalidAddress);
      }
      var checked := ValidateWifiSecurity(req.creds);
      if checked.Err? {
        return Refused(checked.error);
      }
      log := log + [LookupSaved(req.ssid)];
      var saved := FindSavedConnectionByName(env.answers.profiles, req.ssid);
      if saved.Err? {
        return Refused(saved.error);
      }
      var decision := DecideSavedConnection(saved.value, req.creds);
      if decision.Err? {
        return Refused(decision.error);
      }
      prepared := PrepareTarget(decision.value);
    }

    method PrepareTarget(decision: SavedDecision) returns (prepared: Preparation)
      modifies this`log
      ensures log == old(log) + PrepareDevice(req, decision, env.Resolved()).0
      ensures prepared == PrepareDevice(req, decision, env.Resolved()).1
    {
      log := log + [ListDevices];
      var device := ResolveWifiDevice(env.answers.deviceList, req.interface_);
      if device.Err? {
        return Refused(device.error);
      }
      if req.bssid.None? {
        log := log + [CurrentSsid];
        if env.answers.currentSsid == Some(req.ssid) {
          return AlreadyConnected;
        }
      }
      log := log + [RequestScan(device.value)];
      log := log + [ListAccessPoints(device.value)];
      if env.answers.accessPoints.None? {
        return Refused(Dbus);
      }
      var ap := FindAp(env.answers.accessPoints.value, req.ssid, req.bssid);
      prepared := if ap.Err? then Refused(ap.error) else Ready(decision, device.value, ap.value);
    }
  }

  // ----- What the wait loops add

  /** The disconnect loop reports success only with an observation of the device torn down
      as the last thing it consumed. */
  lemma DisconnectLoopSawTarget(script: WaitScript)
    ensures SawTarget(Live(ForDisconnect, script))
  {
    FirstDecisiveIsFirst(ForDisconnect, Observations(script.first, script.rounds));
  }

  /** An activation is reported stuck exactly when, after a good subscription, the stream
      ends in a round with nothing but pending states before it; whatever the devices say
      about a failure, it is not mistaken for that. */
  lemma ActivationStuckExactly(script: WaitScript)
    ensures var w := ActivationWait(script);
            Live(w, script).result == Some(Err(Stuck(SignalStreamEnded))) <==>
            script.subscribed && PendingRead(w, script.first) && exists i: nat :: RunsIntoStreamEnd(w, script.rounds, i)
  {
    RefinedPlainly(script.devices);
    StuckExactlyWhenStreamEnds(ActivationWait(script), script.first, script.rounds);
  }

  lemma DeviceErrorsOrdinary(devices: seq<Option<u32>>)
    ensures OrdinaryError(FirstDeviceError(devices))
  {
  }

  lemma WaitErrorsOrdinary(w: Wait, script: WaitScript)
    requires w.ForActivation? ==> OrdinaryError(w.refined)
    ensures var r := Live(w, script).result; r.Some? && r.value.Err? ==> OrdinaryError(r.value.error)
  {
    FirstDecisiveIsFirst(w, Observations(script.first, script.rounds));
  }

  /** In every run, against every environment, an activation or addition on a device comes
      after an observation of that device disconnected or unavailable. */
  lemma EveryActivationFollowsTeardown(req: Request, env: Environment)
    ensures var log := ConnectRun(req, env.Resolved()).log;
            forall i :: 0 <= i < |log| && (log[i].Activate? || log[i].Add?) ==> TornDownBefore(log, i)
  {
    DisconnectLoopSawTarget(env.disconnectScript);
    ActivationsFollowTeardown(req, env.Resolved());
  }

  /** Against every environment, the first of them comes right after that observation. */
  lemma EveryFirstUseRightAfterTeardown(req: Request, env: Environment)
    ensures var log := ConnectRun(req, env.Resolved()).log;
            forall i: nat :: IsFirstUse(log, i) ==> TornDownJustBefore(log, i)
  {
    DisconnectLoopSawTarget(env.disconnectScript);
    FirstUseRightAfterTeardown(req, env.Resolved());
  }

  /** Against every environment a run reports a missing password exactly when the inputs
      are valid, the stored passphrase was asked for, and no saved profile carries the
      name; it has then made that one lookup and nothing else. */
  lemma MissingPasswordMeansNoProfile(req: Request, env: Environment)
    ensures var run := ConnectRun(req, env.Resolved());
            && (run.result == Some(Err(MissingPassword)) <==>
                  && req.creds.IsStoredPsk() && ValidateSsid(req.ssid).Ok?
                  && (req.bssid.Some? ==> ValidateBssid(req.bssid.value).Ok?)
                  && SavedConnectionPath(env.answers.profiles, req.ssid) == Ok(None))
            && (run.result == Some(Err(MissingPassword)) ==> run.log == [LookupSaved(req.ssid)])
  {
    var a := env.Resolved();
    WaitErrorsOrdinary(ForDisconnect, env.disconnectScript);
    if env.savedScript.devices.Some? {
      DeviceErrorsOrdinary(env.savedScript.devices.value);
    }
    if env.freshScript.devices.Some? {
      DeviceErrorsOrdinary(env.freshScript.devices.value);
    }
    WaitErrorsOrdinary(ActivationWait(env.savedScript), env.savedScript);
    WaitErrorsOrdinary(ActivationWait(env.freshScript), env.freshScript);
    MissingPasswordExactly(req, a);
  }
}
