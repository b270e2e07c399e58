# nmrs verification model

A Dafny model of the concurrent and transactional core of nmrs, a Rust client library for
NetworkManager, with machine-checked proofs of the properties its documentation and its
tests rely on. `dafny verify dfyconfig.toml` checks everything.

## What is modelled

**Secret agent** (`SecretResponder`, `PendingRegistry`, `SecretAgent`). Any number of
`get_secrets` calls, cancellations and consumer actions interleave. A call takes an id,
registers a cancel sender in the shared map, pushes its request into the bounded queue,
waits, decides, cleans up and returns, each as a separate atomic step. A run is any
sequence of enabled events from the empty state; the theorems hold at every position of
every run. `future::select` polls its left argument first. A cancellation takes its key out
of the map in one step and signals the taken senders one by one afterwards, the map staying
locked meanwhile. Room in the queue, and whether a sender is still parked after its item was
accepted, are decided by the environment, so a request can be seen by the consumer while its
caller is still sending, and nothing is claimed about a call that never gets past sending.
Ids are unbounded naturals (the 64-bit counter is assumed not to wrap) and a call's future is
not dropped midway. A request that is given up before it reached the queue is dropped in the
deciding step.

**Wait loops** (`StateWait`). A wait is a first read followed by rounds, each a read and
then whatever woke the `select!`: a signal, a malformed signal, the end of the stream, or
the timer with one last read. The methods are the loops; the specification is "the first
decisive observation". A verdict carries a flag that tells a timeout by the timer from a
signal that happens to carry a timeout reason (`ConnectTimeout` gives the same error).

**Connect transaction** (`Lookup`, `Connect`, `ConnectSafety`, `ConnectSession`,
`ConnectTargets`). What
NetworkManager answers at each call site is arbitrary; a run is the log of calls together
with its result, and may end blocked in a wait. `ConnectSafety` proves the properties of all
runs, including what they do to NetworkManager's profile store. `ConnectSession` is the code
step by step, using the real wait loops, and appends to its log exactly those runs.
`ConnectTargets` says what every run is aimed at and which result it gives. A read
of several properties is one logged query, building a proxy is part of the call that uses it,
and `ActivationEnded` is a marker for the end of a wait, not a D-Bus call.

**Guard** (`ConnectGuard`). Tasks of any kind run under shared mutexes; try operations are
refused when theirs is locked; tasks may return, block or be dropped at any point. A mutex is
free as soon as its holder is done. The mutex of the program hands its permit straight to a
task already queued for it; here that is a return followed at once by the next task's lock, so
the free state in between is an idealisation when tasks are waiting.

**Settings** (`SettingsDict`, `SavedConnection`, `WifiSecurity`, `WifiBuilder`,
`WifiProfiles`). Profiles are two-level maps. Patches are merged into them (the loops visit
keys in an arbitrary order), decoders read them, and the Wi-Fi builder writes them. A panic of
the builder is the absence of a result. `Text` holds UTF-8, white space, splitting and
decimal numbers as Rust defines them. Conversions out of a D-Bus value do not look through
nested variants except where the code unboxes them itself.

**VPN strings** (`VpnCodec`). The OpenVPN remote parser, and the textual and dictionary
encodings of a WireGuard peer.

## Findings

- `connect_via_saved` describes itself as recovering from outdated saved passwords by
  deleting the profile. Since new credentials never choose a saved profile and an empty
  passphrase forbids the recovery, a saved profile is deleted only when connecting to an open
  network (`ConnectSafety.SavedDeletedOnlyForOpenNetworks`).
- `build_openvpn_connection` prints `host:port` without brackets, so an IPv6 host given
  bare is read back as a host that includes the port, with port 1194
  (`VpnCodec.BuiltRemoteExactly`, `VpnCodec.BuiltBracketedRemote`).
- When the signal stream closes, the state is not read again, so an activation that happened
  after the last read is reported as stuck (`StateWait.StreamEndMissesActivation`). A wait ends
  that way exactly when the stream ends in a round with nothing but pending states before it
  (`StateWait.StuckExactlyWhenStreamEnds`, `ConnectSession.ActivationStuckExactly`); against a
  history that reaches its target in time, a wait that returns succeeds exactly when no such
  end, no failed read and no deactivation comes before its first sight of the target
  (`StateWait.ReachedTargetSucceeds`).
- An `allowed-ips=` token without addresses is read as one empty address, and empty items
  survive in the textual form but not in the semicolon list of a dictionary
  (`VpnCodec.EmptyListToken`, `VpnCodec.SemicolonListsAgreeExactly`).
- The passphrase limits are documented in characters; the code counts UTF-8 bytes. The two
  rules differ at both ends (`WifiSecurity.CharacterRuleFails`), and a passphrase is judged as
  documented exactly when its byte length does not cross a limit that its character length
  does not cross (`WifiSecurity.CharacterRuleHoldsExactly`).

## Model

| member | source | states |
|---|---|---|
| SecretResponder.ExactlyOneSend | nmrs/src/agent/request.rs:321-338 | over a responder's whole life exactly one reply is sent, the one of the chosen response, or NoSecrets on drop; nothing done to it later sends again |
| SecretResponder.Responder.Send | nmrs/src/agent/request.rs:321-328 | the sender is given up on the first reply; success exactly when it was still held and the receiver is alive |
| SecretResponder.Responder.Drop | nmrs/src/agent/request.rs:331-338 | a responder that still holds its sender replies NoSecrets, any other stays silent |
| SecretResponder.Responder.Respond | nmrs/src/agent/request.rs:232-319 | a response method followed by its drop sends its own reply and nothing else |
| SecretResponder.RepliesSpelledOut | nmrs/src/agent/request.rs:232-319 | the section and key names and the values that each response puts into its reply |
| PendingRegistry.Registry.FetchAddRequestId | nmrs/src/agent/iface.rs:86 | ids are handed out once each, in increasing order |
| PendingRegistry.Registry.Register | nmrs/src/agent/iface.rs:89-94 | appends the call's entry under its key and touches no other key |
| PendingRegistry.Registry.RemovePendingRequest | nmrs/src/agent/iface.rs:39-48 | removes exactly the entries with that id, in place, and the key when nothing is left |
| PendingRegistry.Registry.TakeForCancel | nmrs/src/agent/iface.rs:174-183 | takes the whole list of one key out of the map |
| PendingRegistry.RemoveUndoesPush | nmrs/src/agent/iface.rs:39-48 | removing a request that was registered under a fresh id restores the map |
| SecretAgent.StepInv | nmrs/src/agent/iface.rs:68-183 | every step of every party keeps the invariant on calls, map, taken senders and queue |
| SecretAgent.MapListsExactlyPendingCalls | nmrs/src/agent/iface.rs:86-94 | in every reachable state no id occurs twice, no key maps to an empty list, and a call is listed under a key exactly when it registered there, was not hit by a cancellation and has not cleaned up |
| SecretAgent.AllReturnedLeavesNothingPending | nmrs/src/agent/iface.rs:116-139 | once all calls have returned the map is empty |
| SecretAgent.CancelHitsExactlyItsKey | nmrs/src/agent/iface.rs:174-183 | a cancellation hits exactly the calls pending under its key at that step and changes nothing else about any call |
| SecretAgent.SignalledExactlyWhenHit | nmrs/src/agent/iface.rs:180-182 | when the map is unlocked, a call has been signalled exactly when it was hit, and a cancel sender is dropped only by its own call's clean-up |
| SecretAgent.CanceledOnlyByOwnKey | nmrs/src/agent/iface.rs:117-121 | "canceled by NetworkManager" is returned only if the call's own key was cancelled while it was registered |
| SecretAgent.CancellationWins | nmrs/src/agent/iface.rs:112-146 | a cancellation signalled before the deciding poll wins over a ready queue slot, a reply and the timer, in every continuation |
| SecretAgent.LaterCallsAreSpared | nmrs/src/agent/iface.rs:174-183 | a call that no cancellation of its key follows is not cancelled, whatever cancellations and clean-ups are still under way |
| SecretAgent.ListedUntilOwnCleanup | nmrs/src/agent/iface.rs:118-139 | a registered call stays listed until its own clean-up or a cancellation of its key; late clean-ups of other calls with the same key do not unregister it |
| SecretAgent.ReplyComesFromOwnResponder | nmrs/src/agent/iface.rs:148-154 | each responder has sent at most once, exactly once when it is gone, and what a call returns is what its own responder sent |
| SecretAgent.SentForGood | nmrs/src/agent/request.rs:321-338 | a send is never repeated, replaced or taken back in any continuation |
| SecretAgent.QuiescentMeansAllReplied | nmrs/src/agent/request.rs:331-338 | when the stream is closed, the consumer holds nothing and all calls returned, every responder ever made has sent exactly once |
| SecretAgent.TimesOutOnlyUnanswered | nmrs/src/agent/iface.rs:137-160 | a waiting call that decides times out exactly when it is neither cancelled nor answered at that poll |
| SecretAgent.PollSendMovesExactly | nmrs/src/agent/iface.rs:112-130 | a polled sending call is cancelled exactly when its channel was used, fails exactly when the queue closed before its request was in, and goes on to wait exactly when it is in; a request given up is answered with NoSecrets |
| SecretAgent.PollWaitDecidesExactly | nmrs/src/agent/iface.rs:134-163 | a polled waiting call decides exactly when it was cancelled, answered or timed out; in that order the outcome is "canceled", what the one reply says, or the timeout |
| SecretAgent.OutcomeIsFinal | nmrs/src/agent/iface.rs:139-164 | what a call decided is what it returns, in every continuation |
| SecretAgent.CallsMoveOn | nmrs/src/agent/iface.rs:86-139 | registering starts the send, cleaning up and returning carry the outcome along, and a response is the one send of that call's responder |
| SecretAgent.ReceivesInOrder | nmrs/src/agent/iface.rs:114-115 | the consumer receives requests in the order in which they entered the queue |
| SecretAgent.SignalsInOrder | nmrs/src/agent/iface.rs:174-183 | a cancellation that holds the map can always go on, and signals the senders it took one by one in their order |
| SecretAgent.SecretsComeFromConsumer | nmrs/src/agent/iface.rs:148 | a call returns secrets only if the consumer answered that very call with them earlier in the run |
| SecretAgent.ChannelClosedOnlyAfterClose | nmrs/src/agent/iface.rs:124-129 | "request channel closed" is returned only after the consumer closed the stream |
| SecretAgent.IdsNeedNotBeSorted | nmrs/src/agent/iface.rs:86-94 | a reachable state lists a later id before an earlier one under the same key |
| StateWait.CheckState | nmrs/src/core/state_wait.rs:64-97 | classification and result of one state code agree with the specification, and the refine future is awaited at most once, only for a verdict |
| StateWait.WaitForActivationState | nmrs/src/core/state_wait.rs:99-172 | the loop returns what the first decisive observation of the interleaved log says, consumes nothing after it, and awaits the refine future exactly when that verdict is the refined one |
| StateWait.AwaitOneRound | nmrs/src/core/state_wait.rs:126-171 | one turn of that loop |
| StateWait.WaitForDeviceState | nmrs/src/core/state_wait.rs:198-239 | the device loop returns what the first decisive observation says, for the disconnect wait and the ready wait |
| StateWait.AwaitOneDeviceRound | nmrs/src/core/state_wait.rs:220-238 | one turn of that loop |
| StateWait.FirstDecisiveIsFirst | nmrs/src/core/state_wait.rs:114-172 | the specification names an observation that decides and has nothing decisive before it; a wait is pending exactly when nothing decides |
| StateWait.FirstDecisiveConcat | nmrs/src/core/state_wait.rs:126-171 | where the log is cut does not matter |
| StateWait.MalformedSignalsNeverDecide | nmrs/src/core/state_wait.rs:166 | dropping a malformed signal from a log never changes the verdict |
| StateWait.TimesOutExactlyWhenAllPending | nmrs/src/core/state_wait.rs:139-151 | the timer decides if and only if every read, every signal and the read after the timer showed a pending state |
| StateWait.NoTransitionLost | nmrs/src/core/state_wait.rs:114-151 | against any history that reaches the target before the deadline and stays there, no wait times out |
| StateWait.SuccessWasReached | nmrs/src/core/state_wait.rs:182-239 | a wait succeeds only if the history was in the target set at some time |
| StateWait.StuckExactlyWhenStreamEnds | nmrs/src/core/state_wait.rs:55-62 | the end of the signal stream is reported if and only if the stream ends in a round with only pending reads and quiet wakes before it |
| StateWait.FailsExactly | nmrs/src/core/state_wait.rs:99-239 | a wait fails if and only if a failed read, a deactivation, the end of the stream or the timer comes before its first sight of the target |
| StateWait.ReachedTargetSucceeds | nmrs/src/core/state_wait.rs:114-239 | against such a history a wait that returns succeeds exactly when no failed read, no deactivation and no end of the stream comes before its first sight of the target |
| StateWait.StreamEndMissesActivation | nmrs/src/core/state_wait.rs:167 | the stream-end exception to that is real |
| StateWait.TargetsSpelledOut | nmrs/src/core/state_wait.rs:64-69 | the states waited for and the deactivated state, by number |
| StateWait.DecidesExactly | nmrs/src/core/state_wait.rs:99-239 | a wait decides exactly when its first read or some round is not quiet |
| StateWait.VerdictSpelledOut | nmrs/src/core/state_wait.rs:55-172 | which result a wait ends with, in terms of the reads, signals, reasons and timer of its first round that is not quiet: success, D-Bus error, the error of the signalled reason, the refined device error for reason 3 and for a deactivation, Timeout, stuck in the last state, or Wi-Fi not ready |
| StateWait.FirstDeviceAnswers | nmrs/src/core/state_wait.rs:243-262 | the refined error is that of the first device that answers |
| StateWait.DeviceReasonsSpelledOut | nmrs/src/api/models/state_reason.rs:234-253 | which device reasons give which error, by number; all others are passed on |
| Lookup.FindSavedConnectionByName | nmrs/src/core/connection_settings.rs:20-59 | the loop returns the first profile with that id, or the first failure before it |
| Lookup.FirstMatchIsFirst | nmrs/src/core/connection_settings.rs:36-58 | the profile found matches and no earlier one does; "none" exactly when all were read and none matches |
| Lookup.SearchFailsExactly | nmrs/src/core/connection_settings.rs:20-46 | the search fails exactly when the list cannot be had or a profile cannot be read with none of that name before it |
| Lookup.FindWifiDeviceIsFirst | nmrs/src/core/connection.rs:473-506 | the first managed Wi-Fi device; "no device" exactly when all were read and none is |
| Lookup.FindApIsFirst | nmrs/src/core/connection.rs:563-619 | the first access point with that SSID and, case aside, that BSSID; "not found" exactly when what was needed was read and none fits |
| Lookup.SsidReadExactly | nmrs/src/util/utils.rs:85-97 | bytes are read as a name exactly when they are its UTF-8 form, and as the empty name also when they are no text |
| Lookup.CaseAsideExactly | nmrs/src/core/connection.rs:588-619 | addresses are equal exactly when they are the same letter by letter, case aside |
| Lookup.BssidAcceptedExactly | nmrs/src/util/validation.rs:804-818 | a BSSID is accepted exactly when it is six pairs of hexadecimal digits between colons |
| WifiSecurity.AcceptedExactly | nmrs/src/util/validation.rs:112-251 | exactly which credentials pass validation, in terms of the fields; every rejection is an invalid-address error |
| WifiSecurity.SsidAcceptedExactly | nmrs/src/util/validation.rs:39-63 | an SSID is accepted exactly when some character is not white space and it takes at most 32 bytes |
| WifiSecurity.CharacterRuleFails | nmrs/src/util/validation.rs:106-137 | the documented character limits fail at both ends: a short passphrase of two-byte characters is accepted, a long one within the limits rejected |
| WifiSecurity.CharacterRuleHoldsExactly | nmrs/src/util/validation.rs:106-137 | a passphrase is judged by the character limits exactly when its byte length does not cross one that its character length does not |
| ConnectSession.Session.AwaitActivation | nmrs/src/core/state_wait.rs:278-309 | subscribes before reading, runs the activation loop, logs what it saw |
| ConnectSession.Session.DisconnectWifiAndWait | nmrs/src/core/connection.rs:430-466 | reads the state, requests the disconnect unless already down, and waits |
| ConnectSession.Session.WaitForFreshActivation | nmrs/src/core/connection.rs:838-860 | a failed wait deactivates and then deletes the fresh profile and returns the wait's error |
| ConnectSession.Session.BuildAndActivateNew | nmrs/src/core/connection.rs:868-915 | tears down first, then adds and waits |
| ConnectSession.Session.ConnectViaSaved | nmrs/src/core/connection.rs:726-836 | activates the saved profile and recovers by deletion and addition where allowed, without a second teardown |
| ConnectSession.Session.Connect | nmrs/src/core/connection.rs:41-122 | the whole transaction appends to the log and returns what the run specification says, for connect and, with a BSSID, for connect_to_bssid |
| ConnectSession.EveryActivationFollowsTeardown | nmrs/src/core/connection.rs:441-460 | against every environment, each activation or addition is preceded by an observation of that device in state 20 or 30, composed through the disconnect loop |
| ConnectSession.EveryFirstUseRightAfterTeardown | nmrs/src/core/connection.rs:88-102 | the first activation or addition of a run comes right after that observation |
| ConnectSession.ActivationStuckExactly | nmrs/src/core/state_wait.rs:278-309 | an activation is reported stuck exactly when, after a good subscription, the stream ends with only pending states before it |
| ConnectSession.MissingPasswordMeansNoProfile | nmrs/src/core/connection.rs:952-969 | a missing password is reported exactly when the inputs are valid, the stored passphrase was asked for and no profile carries the name; only that lookup has then been made |
| ConnectSession.DisconnectLoopSawTarget | nmrs/src/core/state_wait.rs:174-239 | the disconnect loop succeeds only with a torn-down device as the last thing it observed |
| ConnectSession.LiveSpelledOut | nmrs/src/core/state_wait.rs:278-309 | how a wait of a run ends, in terms of what happens during it alone |
| ConnectSession.RefinedBy | nmrs/src/core/state_wait.rs:243-262 | the refined error of a run is the first one any of the connection's devices gives |
| ConnectTargets.DeviceByInterfaceIsFirst | nmrs/src/core/connection.rs:535-553 | the first device with the interface name, and the exact conditions of every error |
| ConnectTargets.RunsAimAtTheRequest | nmrs/src/core/connection.rs:65-113 | for every run and every call in it: the device is the first usable one or the one with the requested interface name, the access point the first with the SSID and BSSID asked for, the profile the one saved under the SSID, the credentials the request's own, and only activations of this run are touched |
| ConnectTargets.RunsRecordAnswers | nmrs/src/core/connection.rs:726-915 | the log of every run records what NetworkManager answered, each answer at its own call |
| ConnectTargets.NoApNoUse | nmrs/src/core/connection.rs:588-619 | without a wanted access point nothing is activated or added |
| ConnectTargets.AlreadyConnectedExactly | nmrs/src/core/connection.rs:76-84 | a run stops with nothing to do exactly when request, profile and device are in order, no access point was named and the network is the current one |
| ConnectTargets.ReadyExactly | nmrs/src/core/connection.rs:63-104 | a run gets to the teardown exactly when these are in order, there is something to do and the access point was found |
| ConnectTargets.RefusalsSpelledOut | nmrs/src/core/connection.rs:63-86 | the error of a refused run is that of the first thing in its way |
| ConnectTargets.ScansBeforeListing | nmrs/src/core/connection.rs:662-668 | a scan is requested right before the access points are listed |
| ConnectTargets.ResultSpelledOut | nmrs/src/core/connection.rs:88-115 | the result of a run that got that far: the teardown's unless it succeeded, then the addition's if one was reached, and the saved activation's otherwise |
| ConnectTargets.TeardownResult | nmrs/src/core/connection.rs:430-466 | the result of the teardown: success when the device is already down, a D-Bus error when a call fails, and otherwise that of the wait |
| ConnectTargets.RunsSubscribeFirst | nmrs/src/core/state_wait.rs:278-309 | in every run an activation is watched only after subscribing to it |
| ConnectTargets.TeardownSubscribesFirst | nmrs/src/core/connection.rs:441-460 | a device told to disconnect is watched only after subscribing to it |
| ConnectSafety.ConnectRunEffects | nmrs/src/core/connection.rs:726-915 | the effects of a whole run, computed call by call, are the closed form the theorems below reason about |
| ConnectSafety.AtMostOneActivationAndOneAdd | nmrs/src/core/connection.rs:738-835 | every run activates at most one saved profile and adds at most one |
| ConnectSafety.ActivationsFollowTeardown | nmrs/src/core/connection.rs:88-102 | the teardown precedes every activation and addition, the recovery path included |
| ConnectSafety.FirstUseRightAfterTeardown | nmrs/src/core/connection.rs:88-102 | nothing is asked of NetworkManager between the observation and the first activation or addition |
| ConnectSafety.StoredPskDestroysNothing | nmrs/src/core/connection.rs:801-804 | with an empty passphrase no run adds, deletes or deactivates anything |
| ConnectSafety.StoredPskKeepsStore | nmrs/src/core/connection.rs:757-760 | the profile store at the end equals the store at the start |
| ConnectSafety.StoredPskReportsItsFailure | nmrs/src/core/connection.rs:750-760 | the caller gets the error of the stored profile's own activation |
| ConnectSafety.MissingPasswordExactly | nmrs/src/core/connection.rs:964-966 | the if-and-only-if above for all answers, given that waits report ordinary errors |
| ConnectSafety.DeletionsAreJustified | nmrs/src/core/connection.rs:764-771 | a profile is deleted only after its own activation failed in this run |
| ConnectSafety.DeletionsFollowDeactivation | nmrs/src/core/connection.rs:764-771 | every deletion comes right after a deactivation, or after that profile's activation was refused |
| ConnectSafety.RebuildsExactlyAfterSavedFailure | nmrs/src/core/connection.rs:773-831 | a run that reuses a saved profile adds a fresh one exactly when the saved one failed and the network is open |
| ConnectSafety.SavedDeletedOnlyForOpenNetworks | nmrs/src/core/connection.rs:952-975 | with any credentials but open ones, only the profile this run added is ever deleted; with new credentials no saved profile is activated |
| ConnectSafety.RunsEndWell | nmrs/src/core/connection.rs:845-857 | success exactly when already connected or when the run ends with an activation seen to succeed; a failed run that added a profile ends by deactivating and then deleting exactly that profile and returns its activation's error |
| ConnectSafety.OtherProfilesUntouched | nmrs/src/core/connection.rs:738-835 | no run changes a profile other than the chosen saved one and the one it added |
| ConnectSafety.AddsExactlyWhenReached | nmrs/src/core/connection.rs:773-910 | a run asks for a new profile exactly when the device was torn down and the saved profile, if one was chosen, failed on an open network |
| ConnectSafety.FinalStoreExactly | nmrs/src/core/connection.rs:738-915 | the store every run leaves behind, for all answers, refused deletions included |
| ConnectSafety.FailureRestoresStore | nmrs/src/core/connection.rs:847-856 | a failed attempt that is not open leaves the store as it was, except that a profile it added stays when its deletion is refused |
| ConnectSafety.SuccessAddsOneProfile | nmrs/src/core/connection.rs:889-910 | a successful attempt with new credentials adds exactly the requested profile, unless already connected |
| ConnectSafety.OpenFailureLosesOnlyChosen | nmrs/src/core/connection.rs:768-812 | after a failed open attempt the chosen saved profile is gone exactly when its own activation failed and its deletion was carried out; an added profile stays exactly when its deletion was refused; nothing else changed |
| ConnectGuard.IsConnectingExactly | nmrs/src/core/device.rs:270-295 | "connecting" exactly when some device is in a transitional state and all before it could be read |
| ConnectGuard.DeviceStatesSpelledOut | nmrs/src/api/models/device.rs:407-425 | every device state by its number, and which numbers are transitional |
| ConnectGuard.CheckDevices | nmrs/src/core/device.rs:270-295 | the loop over the devices computes that check |
| ConnectGuard.TryGoesOnExactly | nmrs/src/api/network_manager.rs:1196-1210 | once it has the mutex, a try operation goes on exactly when every device could be read and none is in state 40 to 90 or 110; otherwise it makes no call of its own |
| ConnectGuard.Scope.TryConnect | nmrs/src/api/network_manager.rs:1190-1211 | with the mutex locked: in progress, no call made; otherwise the check and then the transaction, and the mutex is free on every return |
| ConnectGuard.Scope.Connect | nmrs/src/api/wifi_scope.rs:70-80 | does not start while the mutex is locked, runs the transaction otherwise, and frees the mutex on every return |
| ConnectGuard.StepInv | nmrs/src/api/network_manager.rs:577-628 | every step of every task keeps the guard invariant |
| ConnectGuard.LogIsConcatenationOfRuns | nmrs/src/api/network_manager.rs:151-176 | under each mutex the call log is the concatenation, in turn order, of the calls of the tasks that had it: whole runs for tasks that returned, nothing for refused ones, a prefix for any other |
| ConnectGuard.NoCallInBetween | nmrs/src/api/network_manager.rs:584-593 | between two calls of one task no other task with the same mutex makes a call |
| ConnectGuard.MutualExclusion | nmrs/src/api/wifi_scope.rs:70-161 | at most one task runs under a mutex, and it is free exactly when none does |
| ConnectGuard.MutexFollowsTasks | nmrs/src/api/network_manager.rs:1196-1210 | the mutex is free right after a task returns or is dropped; a try operation is refused exactly when another task is running under its mutex |
| ConnectGuard.HeldUpExactly | nmrs/src/api/network_manager.rs:584 | a task that has not ended is held up exactly when it waits for a mutex another task is running under, or has made all its calls and gets no answer |
| ConnectGuard.StepsMove | nmrs/src/api/network_manager.rs:577-628 | every step moves its task by its next call or to the phase named: running, refused, returned with the run's result, or dropped |
| ConnectGuard.StepsSpareOthers | nmrs/src/api/network_manager.rs:577-628 | no step changes another task, and a new task has everything before it |
| ConnectGuard.StepsLog | nmrs/src/api/network_manager.rs:577-628 | only a call adds to the log, and nothing is taken out of it |
| ConnectGuard.ActivationsAreUndisturbed | nmrs/src/api/wifi_scope.rs:108-155 | in every interleaving of connect operations, each activation or addition follows an observation of its device torn down, made by the same task, with no call of another task with that mutex in between |
| ConnectGuard.SeparateManagersInterleave | nmrs/src/api/network_manager.rs:183-190 | calls of two separately created managers do interleave |
| SettingsDict.UnboxVariant | nmrs/src/core/vpn.rs:59-64 | strips every layer of variant |
| SettingsDict.UnboxBox | nmrs/src/core/saved_connection.rs:103-108 | unboxing sees through any depth |
| SettingsDict.InsertAll | nmrs/src/core/saved_connection.rs:70-72 | the result does not depend on the order in which keys are visited |
| SettingsDict.Profile.MergeSettingsPatchDelta | nmrs/src/core/saved_connection.rs:64-74 | in any order of sections and keys the loops produce the one merge |
| SettingsDict.MergeLookup | nmrs/src/core/saved_connection.rs:64-74 | every lookup is answered by the delta first and the original otherwise; the section set is the union |
| SettingsDict.MergeIdempotent | nmrs/src/core/saved_connection.rs:64-74 | merging a delta again changes nothing |
| SettingsDict.MergeAssociative | nmrs/src/core/saved_connection.rs:64-74 | merging two deltas in turn is merging their merge |
| SettingsDict.MergeCommutesExactly | nmrs/src/core/saved_connection.rs:64-74 | two deltas can be merged in either order exactly when they agree wherever both speak |
| SavedConnection.TakeStrVec | nmrs/src/core/saved_connection.rs:130-144 | the strings of an array in order, through any boxing, others passed over |
| SavedConnection.FindEndpoint | nmrs/src/core/saved_connection.rs:383-391 | the loop stops at the first endpoint that is a string |
| SavedConnection.SummaryFieldsExactly | nmrs/src/core/saved_connection.rs:219-428 | for arbitrary settings and every connection type: the right kind of summary, each field given exactly when its entry has a value of the right type, the endpoint of the first entry that has one, every dictionary key counted, WireGuard recognised anywhere in a service name |
| SavedConnection.KeyMgmtSpelledOut | nmrs/src/core/saved_connection.rs:298-313 | an if-and-only-if for each key-management class, on the text itself and the presence of 802.1X entries |
| SavedConnection.SummaryReadsOnly | nmrs/src/core/saved_connection.rs:219-428 | a summary depends on nothing but the named entries of its own sections |
| SavedConnection.ContainsExactly | nmrs/src/core/saved_connection.rs:243-251 | the service test holds exactly when the name occurs at some position |
| SavedConnection.FirstEndpointIsFirst | nmrs/src/core/saved_connection.rs:380-393 | the endpoint is that of the first entry that has one, and absent exactly when none has |
| SavedConnection.BriefAgreesWithFull | nmrs/src/core/saved_connection.rs:147-217 | the brief decoder accepts the same settings, gives the same identity and the same error |
| SavedConnection.DecodesExactly | nmrs/src/core/saved_connection.rs:153-166 | a profile decodes exactly when its uuid, id and type are strings |
| SavedConnection.SavedFieldsExactly | nmrs/src/core/saved_connection.rs:159-189 | for arbitrary settings every general field comes from its own entry, with the defaults spelled out |
| SavedConnection.BuildSettingsPatchDelta | nmrs/src/core/saved_connection.rs:19-62 | the built delta is the typed fields with the overlay merged over them |
| SavedConnection.PatchPrecedence | nmrs/src/core/saved_connection.rs:19-74 | every lookup after a patch is overlay first, then typed field, then original; sections are the union |
| SavedConnection.EmptyDeltaExactly | nmrs/src/core/saved_connection.rs:703-706 | the update is skipped exactly when the patch says nothing |
| SavedConnection.UpdateSavedConnection | nmrs/src/core/saved_connection.rs:687-744 | what is sent, if anything, is the stored settings with the patch merged in, to the call the unsaved flag selects; nothing is sent for an empty patch or after a failed read; success and error in every case |
| SavedConnection.SummaryIgnoresConnection | nmrs/src/core/saved_connection.rs:219-428 | no type-specific summary depends on the connection section |
| SavedConnection.PatchThenDecode | nmrs/src/core/saved_connection.rs:147-241 | patching without overlay changes exactly the patched fields of the decoded profile; a cleared interface name decodes to none |
| SavedConnection.PatchedDecodesExactly | nmrs/src/core/saved_connection.rs:153-166 | with any patch, the result decodes exactly when the three identity entries that win are strings |
| Text.Utf8RoundTrip | nmrs/src/util/utils.rs:85-97 | decoding the bytes of any SSID gives the SSID back |
| Text.DecodedUtf8IsEncoding | nmrs/src/util/utils.rs:85-97 | only encodings are accepted |
| Text.WhitespaceSpelledOut | nmrs/src/core/vpn.rs:137 | the 25 characters that separate tokens and are trimmed, one by one |
| Text.TrimExactly | nmrs/src/core/vpn.rs:132 | trimming takes white space off both ends, all of it and nothing else |
| Text.EncodedAsUtf8 | nmrs/src/util/utils.rs:85-97 | the bytes of a character have the length, the marks and the payload of RFC 3629, section 3 |
| Text.ParsesExactly | nmrs/src/core/vpn.rs:144-147 | a text is a number exactly when it is decimal digits behind one plus sign or none, within the width of the type |
| WifiBuilder.ConnectionBuilder.ApplyOptions | nmrs/src/api/builders/connection_builder.rs:211-224 | sets autoconnect, and priority and retries when given, in the connection section only |
| WifiBuilder.ConnectionBuilder.WithSection | nmrs/src/api/builders/connection_builder.rs:468-475 | replaces one section |
| WifiBuilder.ConnectionBuilder.WithoutSection | nmrs/src/api/builders/connection_builder.rs:477-480 | removes one section |
| WifiBuilder.WifiConnectionBuilder.OpenSecurity | nmrs/src/api/builders/wifi_builder.rs:149-156 | removes both security sections and clears the flag |
| WifiBuilder.WifiConnectionBuilder.WpaPskSecurity | nmrs/src/api/builders/wifi_builder.rs:164-177 | sets the PSK section, removes the 802.1X one, sets the flag |
| WifiBuilder.WifiConnectionBuilder.WpaEapShared | nmrs/src/api/builders/wifi_builder.rs:196-262 | sets both sections, or panics exactly on a path together with a blob it looks at |
| WifiBuilder.WifiConnectionBuilder.Perform | nmrs/src/api/builders/wifi_builder.rs:149-369 | every builder call changes the builder as its step says |
| WifiBuilder.WifiConnectionBuilder.Build | nmrs/src/api/builders/wifi_builder.rs:376-406 | adds the wireless section with its link to the security section |
| WifiBuilder.PathOrBlob | nmrs/src/api/builders/wifi_builder.rs:415-437 | a path becomes its bytes with a final NUL, a blob itself; panics exactly when both are given |
| WifiBuilder.BuildDot1x | nmrs/src/api/builders/wifi_builder.rs:206-257 | the 802.1X section of every method, or the panic |
| WifiBuilder.BuildWifiConnection | nmrs/src/api/builders/wifi.rs:62-80 | the composed profile, or the panic |
| WifiProfiles.PanicsExactly | nmrs/src/api/builders/wifi_builder.rs:420-427 | a sequence of builder calls panics exactly when one is given both a path and a blob for something it looks at |
| WifiProfiles.ValidatedNeverPanics | nmrs/src/util/validation.rs:112-251 | credentials that pass validation never reach the panic |
| WifiProfiles.ValidatedTlsCarriesKeyAndCert | nmrs/src/util/validation.rs:195-216 | the profile built from validated TLS credentials carries its private key and its client certificate |
| WifiProfiles.LastSecurityIsLast | nmrs/src/api/builders/wifi_builder.rs:149-262 | the last security call is the one with no security call after it, absent exactly when there is none |
| WifiProfiles.LastSecurityDecides | nmrs/src/api/builders/wifi_builder.rs:149-262 | after every call sequence the last security call alone determines both security sections and the flag |
| WifiProfiles.SecurityWritten | nmrs/src/api/builders/wifi_builder.rs:149-262 | after every call sequence the built profile says what the last security call said: neither section, the passphrase as given with its three fixed entries, or every 802.1X option as given, with the exact condition for each entry to be there |
| WifiProfiles.CredentialsWritten | nmrs/src/api/builders/wifi.rs:62-80 | the profile composed for given credentials says exactly what they say, and is missing exactly when enterprise credentials give a path and a blob for one thing |
| WifiProfiles.BuiltHoldsLastIp | nmrs/src/api/builders/wifi_builder.rs:340-369 | an address section holds the method of the last call about it, and is there exactly when there was one |
| WifiProfiles.BothSectionsAuto | nmrs/src/api/builders/wifi.rs:62-80 | a composed profile asks for automatic addresses in both sections |
| WifiProfiles.NoOtherSections | nmrs/src/api/builders/wifi_builder.rs:376-406 | a built profile has no other section |
| WifiProfiles.SectionsFitTogether | nmrs/src/api/builders/wifi_builder.rs:399-403 | the flag holds exactly when the security section exists, the wireless section links to it exactly then, and 802.1X comes only with enterprise key management |
| WifiProfiles.LastCallDecides | nmrs/src/api/builders/wifi_builder.rs:266-338 | every other field holds what the last call that mentions it said |
| WifiProfiles.OtherEntriesStay | nmrs/src/api/builders/connection_builder.rs:138-149 | no Wi-Fi builder call touches any other entry of the connection section |
| WifiProfiles.BuiltConnection | nmrs/src/api/builders/connection_builder.rs:138-224 | every entry of the connection section of every built profile: identity, type, and the three options as last set |
| WifiProfiles.BuiltDecodes | nmrs/src/core/saved_connection.rs:147-327 | the decoded profile of every call sequence that does not panic, field by field |
| WifiProfiles.WifiRoundTrip | nmrs/src/api/builders/wifi.rs:62-80 | for every SSID, every accepted credential and all options, building does not panic and decoding gives back SSID, options, key-management class, PSK presence and EAP method, with no security summary exactly for open networks |
| VpnCodec.ParsePrintedExactly | nmrs/src/core/vpn.rs:1137-1160 | parsing the printed remote returns host and port exactly when no closing bracket ends the host early |
| VpnCodec.BuiltRemoteExactly | nmrs/src/api/builders/vpn.rs:196 | parsing what the profile builder prints returns host and port exactly when the host has no colon and is not in brackets |
| VpnCodec.BuiltBracketedRemote | nmrs/src/core/vpn.rs:1140-1148 | a host given to the builder in brackets is read back without them |
| VpnCodec.ReprintExactly | nmrs/src/core/vpn.rs:1137-1160 | exactly which parsed remotes are stable under printing and parsing again |
| VpnCodec.MissingPortIsDefault | nmrs/src/core/vpn.rs:1137-1160 | for every remote the port is the 16-bit number it spells out, in brackets or behind its only colon, and 1194 if it spells out none |
| VpnCodec.BracketedPort | nmrs/src/core/vpn.rs:1140-1148 | after a bracketed host, whatever follows is a port only behind a colon |
| VpnCodec.PlainPort | nmrs/src/core/vpn.rs:1150-1157 | a single colon without brackets separates host and port |
| VpnCodec.DecodeWgFirstPeer | nmrs/src/core/vpn.rs:126-183 | the decoder computes the specification of both encodings |
| VpnCodec.DecodeTokens | nmrs/src/core/vpn.rs:133-148 | the token loop keeps the last token of each kind |
| VpnCodec.NothingReadElsewhere | nmrs/src/core/vpn.rs:126-183 | peers that are neither text nor a list starting with a dictionary are read as no peer |
| VpnCodec.TextRoundTrip | nmrs/src/core/vpn.rs:130-149 | the fields of every writable peer are read back from its tokens in any order, among other tokens, with any white space, before any further peers |
| VpnCodec.DictRoundTrip | nmrs/src/core/vpn.rs:150-180 | the fields of every peer are read back from its dictionary, entries in any order and boxed to any depth, the addresses as an array, a semicolon list or no entry, the keepalive as a number or as text |
| VpnCodec.EncodingsAgree | nmrs/src/core/vpn.rs:126-183 | the two encodings of a writable peer are read alike |
| VpnCodec.IpListExactly | nmrs/src/core/vpn.rs:142-143 | the semicolon list gives back its items exactly when there are some and none contains a semicolon |
| VpnCodec.PaddedListRead | nmrs/src/core/vpn.rs:157-162 | white space around the items of a dictionary's semicolon list, and blank items, make no difference |
| VpnCodec.SemicolonListsAgreeExactly | nmrs/src/core/vpn.rs:157-162 | the two readings of a semicolon list agree exactly when it has no empty item |
| VpnCodec.EmptyListToken | nmrs/src/core/vpn.rs:142-143 | the empty list has a dictionary form but no token |

## Left out

- WifiBuilder.WifiConnectionBuilder.WpaEapShared: says nothing about the builder after a panic, because the builder is lost with it.
- ConnectGuard.Scope.Connect: waiting for the mutex is returning without having started; the waiting itself is in the state machine of the same module.
- Error texts carried by errors; only the kind of error and the codes in it are kept.
- Sorting of `data_keys` and the order of `sections` in summaries: kept as a multiset and as a set.
- Random and name-derived UUIDs: parameters.
- The `SaveSecrets` and `DeleteSecrets` events, the cancel notification stream, and the parsing of request details: one call or a small table each.
- Registering and unregistering the agent, and telling agent errors apart by name: thin wrappers.
- Fields of zbus proxies may be cached; a read is taken to return the current state.
- Wired, Bluetooth and VPN connection operations, `disconnect`, `forget` and airplane mode: in the guard they are runs like any other; what they do is not modelled.
- `add_connection`, `update_saved_connection` and `delete_saved_connection` do not take the guard, so nothing is claimed about their order.
- Device and scan listing, monitoring streams, connectivity, rfkill: mostly input and output.
- `.ovpn` import and the certificate store, the other builders and validators, and the remaining VPN plugin decoders.
- Static addresses, routes and DNS of `ConnectionBuilder`: further insertions into the IP sections.
