/** The connect transaction: reuse a saved profile or add a fresh one, wait for the
    activation, and clean up after failures.

    NetworkManager is an adversary.  `Answers` holds what it answers at every call site
    (each is reached at most once in a run), so a statement for all answers is a
    statement for every run.  A run is its result together with the log of the calls it
    made; it may also end blocked in a wait that has not decided yet. */
module Connect {
  import opened Wrappers
  import opened Errors
  import opened WifiSecurity
  import opened Lookup
  import opened StateWait

  // ----- Calls and answers

  type Answer = Result<(), ConnectionError>

  datatype Call =
    | CheckConnecting
    | LookupSaved(name: string)
    | ListDevices
    | CurrentSsid
    | RequestScan(device: Path)
    | ListAccessPoints(device: Path)
    | SubscribeDevice(device: Path, ok: bool)
    | ObserveDevice(device: Path, seen: Observation)
    | SubscribeActive(active: Path, ok: bool)
    | ObserveActive(active: Path, seen: Observation)
    | Disconnect(device: Path, ok: bool)
    | Activate(profile: Path, device: Path, ap: Path, answer: Option<Path>)
    | Add(ssid: string, creds: Security, device: Path, ap: Path, added: Option<(Path, Path)>)
    | ActivationEnded(active: Path, outcome: Answer)
    | Deactivate(active: Path, ok: bool)
    | Delete(profile: Path, ok: bool)
  {
    /** Queries and observations change nothing in NetworkManager. */
    predicate Quiet() {
      CheckConnecting? || LookupSaved? || ListDevices? || CurrentSsid? || RequestScan? || ListAccessPoints?
      || SubscribeDevice? || ObserveDevice? || SubscribeActive? || ObserveActive?
    }
  }

  /** How a wait went: whether the subscription worked, what was observed, and the
      result; `None` while it is still waiting. */
  datatype Waited = Waited(subscribed: bool, seen: seq<Observation>, result: Option<Answer>)

  /** Building a proxy and using it is one call that may fail. */
  datatype Answers = Answers(
    profiles: Option<seq<ProfileAnswer>>,
    deviceList: Option<seq<DeviceAnswer>>,
    currentSsid: Option<string>,
    accessPoints: Option<seq<AccessPointAnswer>>,
    deviceState: ReadAnswer,
    disconnect: bool,
    disconnectWait: Waited,
    activate: Option<Path>,
    savedWait: Waited,
    savedDeactivate: bool,
    savedDelete: bool,
    add: Option<(Path, Path)>,
    freshWait: Waited,
    freshDeactivate: bool,
    freshDelete: bool)

  datatype Request = Request(ssid: string, bssid: Option<string>, interface_: Option<string>, creds: Security)

  /** `None`: still waiting. */
  datatype Ran = Ran(log: seq<Call>, result: Option<Answer>) {
    predicate Succeeded() {
      result.Some? && result.value.Ok?
    }

    predicate Failed() {
      result.Some? && result.value.Err?
    }
  }

  function Failing(log: seq<Call>, e: ConnectionError): Ran {
    Ran(log, Some(Err(e)))
  }

  function After(log: seq<Call>, rest: Ran): Ran {
    Ran(log + rest.log, rest.result)
  }

  // ----- The decisions

  datatype SavedDecision = UseSaved(profile: Path) | RebuildFresh

  function DecideSavedConnection(saved: Option<Path>, creds: Security): Checked<SavedDecision> {
    match saved
    case Some(path) => if creds.Open? || creds.IsStoredPsk() then Ok(UseSaved(path)) else Ok(RebuildFresh)
    case None => if creds.IsStoredPsk() then Err(MissingPassword) else Ok(RebuildFresh)
  }

  predicate CanRebuildAfterSavedFailure(creds: Security) {
    !creds.IsStoredPsk()
  }

  // ----- What a run does

  function Seen(active: Path, obs: seq<Observation>): (log: seq<Call>)
    ensures |log| == |obs| && forall i :: 0 <= i < |obs| ==> log[i] == ObserveActive(active, obs[i])
  {
    seq(|obs|, i requires 0 <= i < |obs| => ObserveActive(active, obs[i]))
  }

  function DeviceSeen(device: Path, obs: seq<Observation>): (log: seq<Call>)
    ensures |log| == |obs| && forall i :: 0 <= i < |obs| ==> log[i] == ObserveDevice(device, obs[i])
  {
    seq(|obs|, i requires 0 <= i < |obs| => ObserveDevice(device, obs[i]))
  }

  function ActivationRun(active: Path, w: Waited): Ran {
    if !w.subscribed then Failing([SubscribeActive(active, false), ActivationEnded(active, Err(Dbus))], Dbus)
    else
      var log := [SubscribeActive(active, true)] + Seen(active, w.seen);
      Ran(if w.result.None? then log else log + [ActivationEnded(active, w.result.value)], w.result)
  }

  function DisconnectWaitRun(device: Path, w: Waited): Ran {
    if !w.subscribed then Failing([SubscribeDevice(device, false)], Dbus)
    else Ran([SubscribeDevice(device, true)] + DeviceSeen(device, w.seen), w.result)
  }

  function DisconnectRun(device: Path, a: Answers): Ran {
    var read := ObserveDevice(device, Read(a.deviceState));
    if a.deviceState.None? then Failing([read], Dbus)
    else if IsTarget(ForDisconnect, a.deviceState.value) then Ran([read], Some(Ok(())))
    else if !a.disconnect then Failing([read] + [Call.Disconnect(device, false)], Dbus)
    else After([read] + [Call.Disconnect(device, true)], DisconnectWaitRun(device, a.disconnectWait))
  }

  /** If the wait failed, the log goes on with `cleanup`. */
  function CleaningUp(wait: Ran, cleanup: seq<Call>): Ran {
    if wait.Failed() then Ran(wait.log + cleanup, wait.result) else wait
  }

  /** If the wait failed, it is forgotten: `recovery` and then `rebuild` decide. */
  function Recovering(wait: Ran, recovery: seq<Call>, rebuild: Ran): Ran {
    if wait.Failed() then After(wait.log + recovery, rebuild) else wait
  }

  /** The rest runs only if the first part succeeded. */
  function Then(first: Ran, rest: Ran): Ran {
    if first.Succeeded() then After(first.log, rest) else first
  }

  /** Adds a profile and waits for it; a failed wait deactivates and deletes it. */
  function AddRun(req: Request, device: Path, ap: Path, a: Answers): Ran {
    var call := Add(req.ssid, req.creds, device, ap, a.add);
    match a.add
    case None => Failing([call], Dbus)
    case Some((profile, active)) =>
      After([call], CleaningUp(ActivationRun(active, a.freshWait),
                               [Deactivate(active, a.freshDeactivate), Delete(profile, a.freshDelete)]))
  }

  /** Activates a saved profile.  If that fails and the caller's settings can stand alone,
      the profile is deleted and a fresh one is added, without disconnecting again. */
  function ViaSavedRun(req: Request, saved: Path, device: Path, ap: Path, a: Answers): Ran {
    var call := Activate(saved, device, ap, a.activate);
    match a.activate
    case Some(active) =>
      var wait := ActivationRun(active, a.savedWait);
      After([call],
            if CanRebuildAfterSavedFailure(req.creds)
            then Recovering(wait, [Deactivate(active, a.savedDeactivate), Delete(saved, a.savedDelete)],
                            AddRun(req, device, ap, a))
            else wait)
    case None =>
      if !CanRebuildAfterSavedFailure(req.creds) then Failing([call], Dbus)
      else After([call, Delete(saved, a.savedDelete)], AddRun(req, device, ap, a))
  }

  function CoreRun(req: Request, decision: SavedDecision, device: Path, ap: Path, a: Answers): Ran {
    match decision
    case UseSaved(saved) => ViaSavedRun(req, saved, device, ap, a)
    case RebuildFresh => AddRun(req, device, ap, a)
  }

  /** What the read-only lookups come to. */
  datatype Preparation =
    | Refused(error: ConnectionError)
    | AlreadyConnected
    | Ready(decision: SavedDecision, device: Path, ap: Path)

  /** A failed scan request is only logged; the access points are listed all the same. */
  function PrepareScan(req: Request, decision: SavedDecision, device: Path, a: Answers): (seq<Call>, Preparation) {
    ([RequestScan(device), ListAccessPoints(device)],
     if a.accessPoints.None? then Refused(Dbus)
     else
       match FindAp(a.accessPoints.value, req.ssid, req.bssid)
       case Err(e) => Refused(e)
       case Ok(ap) => Ready(decision, device, ap))
  }

  /** The current network is looked at only when no particular access point is wanted. */
  function PrepareDevice(req: Request, decision: SavedDecision, a: Answers): (seq<Call>, Preparation) {
    match ResolveWifiDevice(a.deviceList, req.interface_)
    case Err(e) => ([ListDevices], Refused(e))
    case Ok(device) =>
      var (log, p) := PrepareScan(req, decision, device, a);
      if req.bssid.Some? then ([ListDevices] + log, p)
      else if a.currentSsid == Some(req.ssid) then ([ListDevices, CurrentSsid], AlreadyConnected)
      else ([ListDevices, CurrentSsid] + log, p)
  }

  function Prepare(req: Request, a: Answers): (seq<Call>, Preparation) {
    if req.bssid.Some? && ValidateBssid(req.bssid.value).Err? then ([], Refused(InvalidBssid))
    else if ValidateSsid(req.ssid).Err? then ([], Refused(InvalidAddress))
    else if ValidateWifiSecurity(req.creds).Err? then ([], Refused(ValidateWifiSecurity(req.creds).error))
    else
      match SavedConnectionPath(a.profiles, req.ssid)
      case Err(e) => ([LookupSaved(req.ssid)], Refused(e))
      case Ok(saved) =>
        match DecideSavedConnection(saved, req.creds)
        case Err(e) => ([LookupSaved(req.ssid)], Refused(e))
        case Ok(decision) =>
          var (log, p) := PrepareDevice(req, decision, a);
          ([LookupSaved(req.ssid)] + log, p)
  }

  /** A whole run of `connect`, or of `connect_to_bssid` when a BSSID is given. */
  function ConnectRun(req: Request, a: Answers): Ran {
    var (log, p) := Prepare(req, a);
    match p
    case Refused(e) => Failing(log, e)
    case AlreadyConnected => Ran(log, Some(Ok(())))
    case Ready(decision, device, ap) =>
      After(log, Then(DisconnectRun(device, a), CoreRun(req, decision, device, ap, a)))
  }
}
