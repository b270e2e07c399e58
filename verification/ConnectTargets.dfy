/** What every run of the connect transaction is aimed at: the device, the access point and
    the profile that were asked for, and the activation it started itself. */
module ConnectTargets {
  import opened Wrappers
  import opened Errors
  import opened WifiSecurity
  import opened Lookup
  import opened StateWait
  import opened Connect
  import opened ConnectSafety

  // ----- The device and the access point asked for

  ghost predicate NamedFirst(devices: seq<DeviceAnswer>, name: string, i: nat) {
    i < |devices| && devices[i].name == Some(name) && forall j :: 0 <= j < i ==> devices[j].name != Some(name)
  }

  /** The first managed Wi-Fi device, or the first device with the requested interface name
      if it is a Wi-Fi device (type 2). */
  ghost predicate ChosenDevice(req: Request, a: Answers, device: Path) {
    a.deviceList.Some?
    && var devices := a.deviceList.value;
       match req.interface_
       case None => exists i: nat :: i < |devices| && SkippedDevices(devices, i) && UsableAt(devices, i, device)
       case Some(name) => exists i: nat :: NamedFirst(devices, name, i) && WifiAt(devices, i, device)
  }

  predicate UsableAt(devices: seq<DeviceAnswer>, i: nat, device: Path) {
    i < |devices| && devices[i].deviceType == Some(2) && devices[i].managed == Some(true) && devices[i].path == device
  }

  predicate WifiAt(devices: seq<DeviceAnswer>, i: nat, device: Path) {
    i < |devices| && devices[i].deviceType == Some(2) && devices[i].path == device
  }

  lemma {:induction false} DeviceByInterfaceIsFirst(devices: seq<DeviceAnswer>, name: string)
    ensures DeviceByInterface(devices, name).None? <==> forall i :: 0 <= i < |devices| ==> devices[i].name != Some(name)
    ensures DeviceByInterface(devices, name).Some? ==>
              exists i: nat :: NamedFirst(devices, name, i) && devices[i] == DeviceByInterface(devices, name).value
  {
    if devices != [] {
      if devices[0].name == Some(name) {
        assert NamedFirst(devices, name, 0);
      } else {
        var rest := devices[1..];
        DeviceByInterfaceIsFirst(rest, name);
        assert forall i :: 1 <= i < |devices| ==> devices[i] == rest[i - 1];
        if DeviceByInterface(rest, name).Some? {
          var i: nat :| NamedFirst(rest, name, i) && rest[i] == DeviceByInterface(rest, name).value;
          assert NamedFirst(devices, name, i + 1);
        }
      }
    }
  }

  /** The device a run works on is the one asked for; a name that no device carries, and a
      device of another kind, are told apart. */
  lemma ResolvedIsChosen(req: Request, a: Answers)
    ensures var r := ResolveWifiDevice(a.deviceList, req.interface_);
            && (r.Ok? ==> ChosenDevice(req, a, r.value))
            && (a.deviceList.Some? && req.interface_.Some? ==>
                  (r == Err(WifiInterfaceNotFound) <==>
                     forall i :: 0 <= i < |a.deviceList.value| ==> a.deviceList.value[i].name != req.interface_)
                  && (r == Err(NotAWifiDevice) <==>
                        exists i: nat :: NamedFirst(a.deviceList.value, req.interface_.value, i)
                                         && a.deviceList.value[i].deviceType.Some?
                                         && a.deviceList.value[i].deviceType != Some(2)))
  {
    if a.deviceList.Some? {
      var devices := a.deviceList.value;
      match req.interface_ {
        case None =>
          FindWifiDeviceIsFirst(devices);
          if FindWifiDevice(devices).Ok? {
            var i :| 0 <= i < |devices| && SkippedDevices(devices, i) && IsUsable(devices[i])
                     && devices[i].path == FindWifiDevice(devices).value;
            assert UsableAt(devices, i, devices[i].path);
          }
        case Some(name) =>
          DeviceByInterfaceIsFirst(devices, name);
          if DeviceByInterface(devices, name).Some? {
            var i: nat :| NamedFirst(devices, name, i) && devices[i] == DeviceByInterface(devices, name).value;
            assert forall j: nat :: NamedFirst(devices, name, j) ==> j == i;
            assert devices[i].deviceType == Some(2) ==> WifiAt(devices, i, devices[i].path);
          }
      }
    }
  }

  /** The first access point with the SSID and, if one was given, the BSSID asked for. */
  ghost predicate ChosenAp(req: Request, a: Answers, ap: Path) {
    a.accessPoints.Some?
    && exists i: nat :: WantedFirst(a.accessPoints.value, req, i) && a.accessPoints.value[i].path == ap
  }

  ghost predicate WantedFirst(aps: seq<AccessPointAnswer>, req: Request, i: nat) {
    i < |aps| && SkippedAps(aps, req.ssid, req.bssid, i) && IsWanted(aps[i], req.ssid, req.bssid)
  }

  lemma FoundIsChosen(req: Request, a: Answers)
    requires a.accessPoints.Some? && FindAp(a.accessPoints.value, req.ssid, req.bssid).Ok?
    ensures ChosenAp(req, a, FindAp(a.accessPoints.value, req.ssid, req.bssid).value)
  {
    var aps := a.accessPoints.value;
    FindApIsFirst(aps, req.ssid, req.bssid);
    var i :| 0 <= i < |aps| && SkippedAps(aps, req.ssid, req.bssid, i) && IsWanted(aps[i], req.ssid, req.bssid)
             && aps[i].path == FindAp(aps, req.ssid, req.bssid).value;
    assert WantedFirst(aps, req, i);
  }

  lemma PreparedForChosen(req: Request, a: Answers)
    requires Prepare(req, a).1.Ready?
    ensures ResolveWifiDevice(a.deviceList, req.interface_) == Ok(Prepare(req, a).1.device)
    ensures a.accessPoints.Some? && FindAp(a.accessPoints.value, req.ssid, req.bssid) == Ok(Prepare(req, a).1.ap)
  {
  }

  // ----- What the calls name

  predicate NamesDevice(e: Call) {
    e.RequestScan? || e.ListAccessPoints? || e.SubscribeDevice? || e.ObserveDevice? || e.Disconnect? || e.Activate? || e.Add?
  }

  predicate NamesActive(e: Call) {
    e.SubscribeActive? || e.ObserveActive? || e.ActivationEnded? || e.Deactivate?
  }

  /** The activations a run may have started. */
  function OwnActives(a: Answers): set<Path> {
    (if a.activate.Some? then {a.activate.value} else {}) + (if a.add.Some? then {a.add.value.1} else {})
  }

  /** The call is about this device and access point, with the request's own data. */
  predicate AimedAt(e: Call, req: Request, a: Answers, device: Path, ap: Path) {
    && (NamesDevice(e) ==> e.device == device)
    && (e.Activate? ==> e.ap == ap && e.answer == a.activate)
    && (e.Add? ==> e.ap == ap && e.ssid == req.ssid && e.creds == req.creds && e.added == a.add)
    && (NamesActive(e) ==> e.active in OwnActives(a))
    && (e.LookupSaved? ==> e.name == req.ssid)
  }

  lemma WaitAimed(active: Path, w: Waited, req: Request, a: Answers, device: Path, ap: Path)
    requires active in OwnActives(a)
    ensures forall e :: e in ActivationRun(active, w).log ==> AimedAt(e, req, a, device, ap) && !e.Activate?
  {
  }

  lemma AddAimed(req: Request, device: Path, ap: Path, a: Answers)
    ensures forall e :: e in AddRun(req, device, ap, a).log ==> AimedAt(e, req, a, device, ap) && !e.Activate?
  {
    if a.add.Some? {
      WaitAimed(a.add.value.1, a.freshWait, req, a, device, ap);
    }
  }

  lemma ViaSavedAimed(req: Request, saved: Path, device: Path, ap: Path, a: Answers)
    ensures forall e :: e in ViaSavedRun(req, saved, device, ap, a).log ==>
              AimedAt(e, req, a, device, ap) && (e.Activate? ==> e.profile == saved)
  {
    AddAimed(req, device, ap, a);
    if a.activate.Some? {
      WaitAimed(a.activate.value, a.savedWait, req, a, device, ap);
    }
  }

  lemma TeardownAimed(req: Request, device: Path, ap: Path, a: Answers)
    ensures forall e :: e in DisconnectRun(device, a).log ==> AimedAt(e, req, a, device, ap) && !e.Activate?
  {
  }

  predicate PreparingFor(e: Call, req: Request, a: Answers) {
    && !e.Activate? && !e.Add? && !NamesActive(e) && (e.LookupSaved? ==> e.name == req.ssid)
    && (NamesDevice(e) ==> ResolveWifiDevice(a.deviceList, req.interface_) == Ok(e.device))
  }

  lemma DevicePreparationAimed(req: Request, decision: SavedDecision, a: Answers)
    ensures forall e :: e in PrepareDevice(req, decision, a).0 ==> PreparingFor(e, req, a)
  {
  }

  lemma PreparationAimed(req: Request, a: Answers)
    ensures forall e :: e in Prepare(req, a).0 ==> PreparingFor(e, req, a)
  {
    DevicePreparationAimed(req, RebuildFresh, a);
    PrepareLog(req, a);
  }

  /** The calls of the preparation do not depend on what was decided about the profile. */
  lemma PrepareLog(req: Request, a: Answers)
    ensures var log := Prepare(req, a).0;
            log == [] || log == [LookupSaved(req.ssid)]
            || log == [LookupSaved(req.ssid)] + PrepareDevice(req, RebuildFresh, a).0
  {
  }

  /** A whole run as its three parts. */
  lemma RunParts(req: Request, a: Answers)
    ensures var p := Prepare(req, a).1;
            forall e :: e in ConnectRun(req, a).log ==>
              e in Prepare(req, a).0
              || (p.Ready? && (e in DisconnectRun(p.device, a).log || e in CoreRun(req, p.decision, p.device, p.ap, a).log))
  {
  }

  /** Every call of every run is aimed at what was asked for: the device by interface name or
      the first usable one, the first access point with the SSID and BSSID, the saved profile
      found under the SSID, the request's own credentials, and activations of this run. */
  lemma RunsAimAtTheRequest(req: Request, a: Answers)
    ensures forall e :: e in ConnectRun(req, a).log ==>
              && (NamesDevice(e) ==> ChosenDevice(req, a, e.device))
              && (e.Activate? ==> ChosenAp(req, a, e.ap) && SavedConnectionPath(a.profiles, req.ssid) == Ok(Some(e.profile))
                                  && e.answer == a.activate)
              && (e.Add? ==> ChosenAp(req, a, e.ap) && e.ssid == req.ssid && e.creds == req.creds && e.added == a.add)
              && (NamesActive(e) ==> e.active in OwnActives(a))
              && (e.LookupSaved? ==> e.name == req.ssid)
  {
    var p := Prepare(req, a).1;
    RunParts(req, a);
    PreparationAimed(req, a);
    ResolvedIsChosen(req, a);
    if p.Ready? {
      PreparedForChosen(req, a);
      FoundIsChosen(req, a);
      DecisionFollowsCredentials(req, a);
      TeardownAimed(req, p.device, p.ap, a);
      CoreAimed(req, p.decision, p.device, p.ap, a);
    }
  }

  lemma CoreAimed(req: Request, decision: SavedDecision, device: Path, ap: Path, a: Answers)
    ensures forall e :: e in CoreRun(req, decision, device, ap, a).log ==>
              AimedAt(e, req, a, device, ap) && (e.Activate? ==> decision == UseSaved(e.profile))
  {
    match decision
    case UseSaved(saved) => ViaSavedAimed(req, saved, device, ap, a);
    case RebuildFresh => AddAimed(req, device, ap, a);
  }

  // ----- What the log records

  /** An entry about an activation records what the wait for that activation gave. */
  predicate FromWait(e: Call, w: Waited) {
    && (e.SubscribeActive? ==> e.ok == w.subscribed)
    && (e.ObserveActive? ==> w.subscribed && e.seen in w.seen)
    && (e.ActivationEnded? ==> Waits(w) == Some(e.outcome))
  }

  /** An entry of the saved profile's activation. */
  predicate FromSaved(e: Call, a: Answers) {
    && (NamesActive(e) ==> a.activate == Some(e.active) && FromWait(e, a.savedWait))
    && (e.Deactivate? || e.Delete? ==> e.ok == if e.Deactivate? then a.savedDeactivate else a.savedDelete)
  }

  /** An entry of the added profile's activation. */
  predicate FromFresh(e: Call, a: Answers) {
    && (NamesActive(e) ==> a.add.Some? && e.active == a.add.value.1 && FromWait(e, a.freshWait))
    && (e.Delete? ==> a.add.Some? && e.profile == a.add.value.0)
    && (e.Deactivate? || e.Delete? ==> e.ok == if e.Deactivate? then a.freshDeactivate else a.freshDelete)
  }

  predicate FromTeardown(e: Call, a: Answers) {
    && (e.Disconnect? ==> e.ok == a.disconnect)
    && (e.SubscribeDevice? ==> e.ok == a.disconnectWait.subscribed)
    && (e.ObserveDevice? ==> e.seen == Read(a.deviceState) || e.seen in a.disconnectWait.seen)
  }

  lemma WaitRecorded(active: Path, w: Waited)
    ensures forall e :: e in ActivationRun(active, w).log ==>
              FromWait(e, w) && NamesActive(e) && e.active == active && !e.Deactivate?
  {
  }

  lemma AddRecorded(req: Request, device: Path, ap: Path, a: Answers)
    ensures forall e :: e in AddRun(req, device, ap, a).log ==> FromFresh(e, a) && FromTeardown(e, a)
  {
    if a.add.Some? {
      WaitRecorded(a.add.value.1, a.freshWait);
    }
  }

  lemma ViaSavedRecorded(req: Request, saved: Path, device: Path, ap: Path, a: Answers)
    ensures forall e :: e in ViaSavedRun(req, saved, device, ap, a).log ==>
              (FromSaved(e, a) || FromFresh(e, a)) && FromTeardown(e, a)
  {
    AddRecorded(req, device, ap, a);
    if a.activate.Some? {
      WaitRecorded(a.activate.value, a.savedWait);
    }
  }

  lemma TeardownRecorded(device: Path, a: Answers)
    ensures forall e :: e in DisconnectRun(device, a).log ==> FromTeardown(e, a) && !NamesActive(e) && !e.Delete?
  {
  }

  lemma PreparationRecorded(req: Request, a: Answers)
    ensures forall e :: e in Prepare(req, a).0 ==>
              !NamesActive(e) && !e.Delete? && !e.Disconnect? && !e.SubscribeDevice? && !e.ObserveDevice?
  {
    PrepareLog(req, a);
  }

  /** The log of every run records what NetworkManager answered, each answer at its call. */
  lemma RunsRecordAnswers(req: Request, a: Answers)
    ensures forall e :: e in ConnectRun(req, a).log ==> FromTeardown(e, a) && (FromSaved(e, a) || FromFresh(e, a))
  {
    var p := Prepare(req, a).1;
    RunParts(req, a);
    PreparationRecorded(req, a);
    if p.Ready? {
      TeardownRecorded(p.device, a);
      AddRecorded(req, p.device, p.ap, a);
      if p.decision.UseSaved? {
        ViaSavedRecorded(req, p.decision.profile, p.device, p.ap, a);
      }
    }
  }

  /** Without a wanted access point, or with one that cannot be read before it, nothing is
      activated or added. */
  lemma NoApNoUse(req: Request, a: Answers)
    requires a.accessPoints.None? || forall i: nat :: !WantedFirst(a.accessPoints.value, req, i)
    ensures forall e :: e in ConnectRun(req, a).log ==> !e.Activate? && !e.Add?
  {
    RunsAimAtTheRequest(req, a);
  }

  // ----- When a run has nothing to do

  predicate ValidRequest(req: Request) {
    && (req.bssid.Some? ==> ValidateBssid(req.bssid.value).Ok?)
    && ValidateSsid(req.ssid).Ok? && ValidateWifiSecurity(req.creds).Ok?
  }

  /** The profiles could be searched, and an empty passphrase found one. */
  predicate ProfileSettled(req: Request, a: Answers) {
    SavedConnectionPath(a.profiles, req.ssid).Ok?
    && (req.creds.IsStoredPsk() ==> SavedConnectionPath(a.profiles, req.ssid).value.Some?)
  }

  /** A run stops with success before touching anything exactly when the request is valid,
      the profile is settled, the device is found, no access point was named and the network
      is the current one. */
  lemma AlreadyConnectedExactly(req: Request, a: Answers)
    ensures Prepare(req, a).1.AlreadyConnected? <==>
            && ValidRequest(req) && ProfileSettled(req, a) && ResolveWifiDevice(a.deviceList, req.interface_).Ok?
            && req.bssid.None? && a.currentSsid == Some(req.ssid)
  {
  }

  /** A run gets to tear the device down exactly when, in addition, the network is not the
      current one or an access point was named, and the access point was found. */
  lemma ReadyExactly(req: Request, a: Answers)
    ensures Prepare(req, a).1.Ready? <==>
            && ValidRequest(req) && ProfileSettled(req, a) && ResolveWifiDevice(a.deviceList, req.interface_).Ok?
            && (req.bssid.Some? || a.currentSsid != Some(req.ssid))
            && a.accessPoints.Some? && FindAp(a.accessPoints.value, req.ssid, req.bssid).Ok?
  {
  }

  /** The first thing that stands in the way gives the error of a run that is refused. */
  lemma RefusalsSpelledOut(req: Request, a: Answers)
    requires Prepare(req, a).1.Refused?
    ensures var e := Prepare(req, a).1.error;
            var device := ResolveWifiDevice(a.deviceList, req.interface_);
            if req.bssid.Some? && ValidateBssid(req.bssid.value).Err? then e == InvalidBssid
            else if !ValidRequest(req) then e == InvalidAddress
            else if SavedConnectionPath(a.profiles, req.ssid).Err? then e == Dbus
            else if !ProfileSettled(req, a) then e == MissingPassword
            else if device.Err? then e == device.error
            else if a.accessPoints.None? then e == Dbus
            else FindAp(a.accessPoints.value, req.ssid, req.bssid) == Err(e)
  {
    AcceptedExactly(req.creds);
  }

  /** A scan is requested right before the access points are listed. */
  lemma ScansBeforeListing(req: Request, a: Answers, i: nat)
    requires i < |Prepare(req, a).0| && Prepare(req, a).0[i].ListAccessPoints?
    ensures i > 0 && Prepare(req, a).0[i - 1] == RequestScan(Prepare(req, a).0[i].device)
  {
    PrepareLog(req, a);
  }

  // ----- Which result

  /** What the end of a wait gives: a refused subscription is a D-Bus error. */
  function Waits(w: Waited): Option<Answer> {
    if w.subscribed then w.result else Some(Err(Dbus))
  }

  lemma AddResult(req: Request, device: Path, ap: Path, a: Answers)
    ensures AddRun(req, device, ap, a).result == if a.add.None? then Some(Err(Dbus)) else Waits(a.freshWait)
  {
  }

  lemma ViaSavedResult(req: Request, saved: Path, device: Path, ap: Path, a: Answers)
    ensures ViaSavedRun(req, saved, device, ap, a).result ==
            if SavedTryFailed(a) && !req.creds.IsStoredPsk() then AddRun(req, device, ap, a).result
            else if a.activate.None? then Some(Err(Dbus)) else Waits(a.savedWait)
  {
  }

  lemma TeardownResult(device: Path, a: Answers)
    ensures DisconnectRun(device, a).result ==
            if a.deviceState.None? then Some(Err(Dbus))
            else if a.deviceState.value == 20 || a.deviceState.value == 30 then Some(Ok(()))
            else if !a.disconnect then Some(Err(Dbus))
            else Waits(a.disconnectWait)
  {
  }

  /** The result of a run that was prepared: the teardown's unless it succeeded, then the
      addition's if the run reached one, and the saved activation's otherwise. */
  lemma ResultSpelledOut(req: Request, a: Answers)
    requires Prepare(req, a).1.Ready?
    ensures var teardown := DisconnectRun(Prepare(req, a).1.device, a);
            ConnectRun(req, a).result ==
            if !teardown.Succeeded() then teardown.result
            else if ReachesAddition(req, a) then if a.add.None? then Some(Err(Dbus)) else Waits(a.freshWait)
            else if a.activate.None? then Some(Err(Dbus)) else Waits(a.savedWait)
  {
    var p := Prepare(req, a).1;
    RunResult(req, a);
    DecisionFollowsCredentials(req, a);
    AddResult(req, p.device, p.ap, a);
    if p.decision.UseSaved? {
      ViaSavedResult(req, p.decision.profile, p.device, p.ap, a);
    }
  }

  // ----- Subscriptions come first

  /** Every state seen of an activation was seen after subscribing to it. */
  ghost predicate SubscribedFirst(log: seq<Call>) {
    forall i :: 0 <= i < |log| && log[i].ObserveActive? ==> SubscribedBefore(log, i, log[i].active)
  }

  ghost predicate SubscribedBefore(log: seq<Call>, i: nat, active: Path) {
    exists j :: 0 <= j < i < |log| && log[j] == SubscribeActive(active, true)
  }

  lemma SubscribedConcat(before: seq<Call>, rest: seq<Call>)
    requires SubscribedFirst(before) && SubscribedFirst(rest)
    ensures SubscribedFirst(before + rest)
  {
    var log := before + rest;
    forall i | 0 <= i < |log| && log[i].ObserveActive?
      ensures SubscribedBefore(log, i, log[i].active)
    {
      if i < |before| {
        var j :| 0 <= j < i && before[j] == SubscribeActive(log[i].active, true);
        assert log[j] == before[j];
      } else {
        var j :| 0 <= j < i - |before| && rest[j] == SubscribeActive(log[i].active, true);
        assert log[|before| + j] == rest[j];
      }
    }
  }

  lemma WaitSubscribed(active: Path, w: Waited)
    ensures SubscribedFirst(ActivationRun(active, w).log)
  {
    var log := ActivationRun(active, w).log;
    forall i | 0 <= i < |log| && log[i].ObserveActive?
      ensures SubscribedBefore(log, i, log[i].active)
    {
      assert log[0] == SubscribeActive(active, true);
    }
  }

  lemma NoneObserved(log: seq<Call>)
    requires forall e :: e in log ==> !e.ObserveActive?
    ensures SubscribedFirst(log)
  {
  }

  lemma AddSubscribed(req: Request, device: Path, ap: Path, a: Answers)
    ensures SubscribedFirst(AddRun(req, device, ap, a).log)
  {
    if a.add.Some? {
      var (profile, active) := a.add.value;
      var wait, cleanup := ActivationRun(active, a.freshWait), [Deactivate(active, a.freshDeactivate), Delete(profile, a.freshDelete)];
      WaitSubscribed(active, a.freshWait);
      NoneObserved(cleanup);
      SubscribedConcat(wait.log, cleanup);
      SubscribedConcat([Add(req.ssid, req.creds, device, ap, a.add)], CleaningUp(wait, cleanup).log);
    }
  }

  lemma RecoveringSubscribed(wait: Ran, recovery: seq<Call>, rebuild: Ran)
    requires SubscribedFirst(wait.log) && SubscribedFirst(recovery) && SubscribedFirst(rebuild.log)
    ensures SubscribedFirst(Recovering(wait, recovery, rebuild).log)
  {
    SubscribedConcat(wait.log, recovery);
    SubscribedConcat(wait.log + recovery, rebuild.log);
  }

  lemma ViaSavedSubscribed(req: Request, saved: Path, device: Path, ap: Path, a: Answers)
    ensures SubscribedFirst(ViaSavedRun(req, saved, device, ap, a).log)
  {
    var call, rebuilt := Activate(saved, device, ap, a.activate), AddRun(req, device, ap, a);
    AddSubscribed(req, device, ap, a);
    if a.activate.Some? {
      var active := a.activate.value;
      var wait := ActivationRun(active, a.savedWait);
      var recovery := [Deactivate(active, a.savedDeactivate), Delete(saved, a.savedDelete)];
      WaitSubscribed(active, a.savedWait);
      RecoveringSubscribed(wait, recovery, rebuilt);
      SubscribedConcat([call], wait.log);
      SubscribedConcat([call], Recovering(wait, recovery, rebuilt).log);
    } else {
      SubscribedConcat([call, Delete(saved, a.savedDelete)], rebuilt.log);
    }
  }

  lemma TeardownObservesDevices(device: Path, a: Answers)
    ensures forall e :: e in DisconnectRun(device, a).log ==> !e.ObserveActive?
  {
  }

  /** No transition of an activation can fall between asking for it and watching it: in every
      run the subscription comes before the first look at the state. */
  lemma RunsSubscribeFirst(req: Request, a: Answers)
    ensures SubscribedFirst(ConnectRun(req, a).log)
  {
    var (lead, p) := Prepare(req, a);
    PreparationAimed(req, a);
    NoneObserved(lead);
    if p.Ready? {
      var teardown, core := DisconnectRun(p.device, a), CoreRun(req, p.decision, p.device, p.ap, a);
      TeardownObservesDevices(p.device, a);
      NoneObserved(teardown.log);
      match p.decision {
        case UseSaved(saved) => ViaSavedSubscribed(req, saved, p.device, p.ap, a);
        case RebuildFresh => AddSubscribed(req, p.device, p.ap, a);
      }
      SubscribedConcat(teardown.log, core.log);
      SubscribedConcat(lead, Then(teardown, core).log);
    }
  }

  /** A device that was told to disconnect is watched only after subscribing to it. */
  lemma TeardownSubscribesFirst(device: Path, a: Answers, i: nat)
    requires var log := DisconnectRun(device, a).log;
             i < |log| && log[i].ObserveDevice? && exists j :: 0 <= j < i && log[j].Disconnect?
    ensures exists j :: 0 <= j < i && DisconnectRun(device, a).log[j] == SubscribeDevice(device, true)
  {
    var log := DisconnectRun(device, a).log;
    assert a.deviceState.Some? && a.disconnect && !IsTarget(ForDisconnect, a.deviceState.value);
    assert a.disconnectWait.subscribed ==> log[2] == SubscribeDevice(device, true);
  }
}
