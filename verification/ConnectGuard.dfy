/** The mutex that serializes connection operations.  A manager, its clones and the scopes
    made from it share one mutex; other managers have their own.

    Tasks run operations of any kind concurrently.  What an operation would do and how
    NetworkManager would answer it is fixed when its task is created but otherwise
    arbitrary, so quantifying over all tasks covers every way the answers could come. */
module ConnectGuard {
  import opened Wrappers
  import opened Errors
  import opened WifiSecurity
  import opened StateWait
  import opened Lookup
  import opened Connect
  import opened ConnectSafety
  import opened ConnectSession

  // ----- The check made by the try operations

  datatype DeviceState =
    | Unmanaged | Unavailable | Disconnected | Prepare | Config | NeedAuth | IpConfig | IpCheck | Secondaries
    | Activated | Deactivating | Failed | Other(code: u32)
  {
    predicate IsTransitional() {
      Prepare? || Config? || NeedAuth? || IpConfig? || IpCheck? || Secondaries? || Deactivating?
    }
  }

  function DeviceStateFrom(code: u32): DeviceState {
    match code
    case 10 => Unmanaged
    case 20 => Unavailable
    case 30 => Disconnected
    case 40 => Prepare
    case 50 => Config
    case 60 => NeedAuth
    case 70 => IpConfig
    case 80 => IpCheck
    case 90 => Secondaries
    case 100 => DeviceState.Activated
    case 110 => DeviceState.Deactivating
    case 120 => Failed
    case other => Other(other)
  }

  /** NetworkManager's numbers; any other is kept as it is. */
  lemma DeviceStatesSpelledOut(code: u32)
    ensures var state := DeviceStateFrom(code);
            && (state.Unmanaged? <==> code == 10) && (state.Unavailable? <==> code == 20) && (state.Disconnected? <==> code == 30)
            && (state.Prepare? <==> code == 40) && (state.Config? <==> code == 50) && (state.NeedAuth? <==> code == 60)
            && (state.IpConfig? <==> code == 70) && (state.IpCheck? <==> code == 80) && (state.Secondaries? <==> code == 90)
            && (state.Activated? <==> code == 100) && (state.Deactivating? <==> code == 110) && (state.Failed? <==> code == 120)
            && (state.Other? ==> state.code == code)
    ensures DeviceStateFrom(code).IsTransitional() <==> Changing(code)
  {
  }

  /** Whether any device is changing state; the first unreadable one is an error, unless a
      changing device came before it. */
  function IsConnecting(states: seq<ReadAnswer>): Checked<bool> {
    if states == [] then Ok(false)
    else if states[0].None? then Err(Dbus)
    else if DeviceStateFrom(states[0].value).IsTransitional() then Ok(true)
    else IsConnecting(states[1..])
  }

  method CheckDevices(states: seq<ReadAnswer>) returns (connecting: Checked<bool>)
    ensures connecting == IsConnecting(states)
  {
    for i := 0 to |states|
      invariant IsConnecting(states) == IsConnecting(states[i..])
    {
      if states[i].None? {
        return Err(Dbus);
      }
      var state := DeviceStateFrom(states[i].value);
      if state.IsTransitional() {
        return Ok(true);
      }
    }
    return Ok(false);
  }

  predicate Changing(code: u32) {
    code in {40, 50, 60, 70, 80, 90, 110}
  }

  /** Device `i` is changing state, by its code, and everything before it could be read. */
  ghost predicate SeenChanging(states: seq<ReadAnswer>, i: nat) {
    && i < |states| && states[i].Some? && Changing(states[i].value)
    && forall j :: 0 <= j < i ==> states[j].Some?
  }

  /** Device `i` is the first that cannot be read, and no device before it is changing state. */
  ghost predicate Unreadable(states: seq<ReadAnswer>, i: nat) {
    && i < |states| && states[i].None?
    && forall j :: 0 <= j < i ==> states[j].Some? && !Changing(states[j].value)
  }

  /** It says "connecting" exactly when some device is changing state and every device
      before it could be read, and fails exactly when one cannot be read and none before it
      is changing. */
  lemma {:induction false} IsConnectingExactly(states: seq<ReadAnswer>)
    ensures IsConnecting(states) == Ok(true) <==> exists i: nat :: SeenChanging(states, i)
    ensures IsConnecting(states) == Err(Dbus) <==> exists i: nat :: Unreadable(states, i)
    ensures IsConnecting(states) in {Ok(true), Ok(false), Err(Dbus)}
  {
    if states != [] {
      var rest := states[1..];
      IsConnectingExactly(rest);
      if i: nat :| SeenChanging(states, i) {
        assert i > 0 ==> SeenChanging(rest, i - 1);
      }
      if i: nat :| Unreadable(states, i) {
        assert i > 0 ==> Unreadable(rest, i - 1);
      }
      if states[0].None? {
        assert Unreadable(states, 0);
      } else if Changing(states[0].value) {
        assert SeenChanging(states, 0);
      } else {
        if i: nat :| SeenChanging(rest, i) {
          assert SeenChanging(states, i + 1);
        }
        if i: nat :| Unreadable(rest, i) {
          assert Unreadable(states, i + 1);
        }
      }
    }
  }

  /** A try operation, once it has the mutex. */
  function TryRun(check: Checked<bool>, run: Ran): Ran {
    match check
    case Err(e) => Failing([CheckConnecting], e)
    case Ok(true) => Failing([CheckConnecting], ConnectionInProgress)
    case Ok(false) => After([CheckConnecting], run)
  }

  /** Once it has the mutex, a try operation goes on exactly when every device could be
      read and none is changing state; otherwise the check is all it does. */
  lemma TryGoesOnExactly(states: seq<ReadAnswer>, run: Ran)
    ensures var tried := TryRun(IsConnecting(states), run);
            && ((exists i: nat :: SeenChanging(states, i)) ==> tried == Ran([CheckConnecting], Some(Err(ConnectionInProgress))))
            && ((exists i: nat :: Unreadable(states, i)) ==> tried == Ran([CheckConnecting], Some(Err(Dbus))))
            && ((forall i :: 0 <= i < |states| ==> states[i].Some? && !Changing(states[i].value)) ==>
                  tried == Ran([CheckConnecting] + run.log, run.result))
  {
    IsConnectingExactly(states);
  }

  // ----- One operation, step by step

  class Mutex {
    var locked: bool

    constructor ()
      ensures !locked
    {
      locked := false;
    }
  }

  /** A manager or one of its scopes, about to serve one request. */
  class Scope {
    const guard: Mutex
    const session: Session

    constructor (guard: Mutex, session: Session)
      ensures this.guard == guard && this.session == session
    {
      this.guard, this.session := guard, session;
    }

    /** The future of an operation still waiting keeps the mutex; every way of returning
        releases it. */
    method TryConnect(states: seq<ReadAnswer>) returns (result: Option<Answer>)
      modifies guard, session`log
      ensures old(guard.locked) ==>
                result == Some(Err(ConnectionInProgress)) && session.log == old(session.log) && guard.locked
      ensures !old(guard.locked) ==>
                var run := TryRun(IsConnecting(states), ConnectRun(session.req, session.env.Resolved()));
                session.log == old(session.log) + run.log && result == run.result && (guard.locked <==> result.None?)
    {
      if guard.locked {
        return Some(Err(ConnectionInProgress));
      }
      guard.locked := true;
      session.log := session.log + [CheckConnecting];
      var connecting := CheckDevices(states);
      if connecting.Err? {
        guard.locked := false;
        return Some(Err(connecting.error));
      }
      if connecting.value {
        guard.locked := false;
        return Some(Err(ConnectionInProgress));
      }
      result := session.Connect();
      guard.locked := result.None?;
      Appended(old(session.log), [CheckConnecting], ConnectRun(session.req, session.env.Resolved()).log);
    }

    /** `None` while the mutex is not free: the operation has not started. */
    method Connect() returns (result: Option<Answer>)
      modifies guard, session`log
      ensures old(guard.locked) ==> result.None? && session.log == old(session.log) && guard.locked
      ensures !old(guard.locked) ==>
                var run := ConnectRun(session.req, session.env.Resolved());
                session.log == old(session.log) + run.log && result == run.result && (guard.locked <==> result.None?)
    {
      if guard.locked {
        return None;
      }
      guard.locked := true;
      result := session.Connect();
      guard.locked := result.None?;
    }
  }

  // ----- Tasks

  /** `Refused`: a try operation found the mutex locked and returned that a connection is
      in progress.  `Abandoned`: the future was dropped, and with it a guard it held. */
  datatype Phase = Arriving | Running | Refused | Returned(result: Answer) | Abandoned

  /** `done`: how many of the operation's calls have been made. */
  datatype Task = Task(guard: nat, trying: bool, run: Ran, phase: Phase, done: nat) {
    /** The calls made so far. */
    function Made(): seq<Call> {
      if done <= |run.log| then run.log[..done] else run.log
    }
  }

  /** A call, with the task that made it and its place in that task's run. */
  datatype Entry = Entry(guard: nat, task: nat, index: nat, call: Call)

  /** `held` maps a locked mutex to its holder; `turns` is the order in which tasks got
      their mutex. */
  datatype State = State(tasks: seq<Task>, held: map<nat, nat>, log: seq<Entry>, turns: seq<nat>)

  const INITIAL := State([], map[], [], [])

  datatype Event =
    | Spawn(guard: nat, trying: bool, run: Ran)
    | Lock(task: nat)
    | TryLock(task: nat)
    | Emit(task: nat)
    | Return(task: nat)
    | Abandon(task: nat)

  predicate Enabled(s: State, e: Event) {
    match e
    case Spawn(_, _, _) => true
    case Lock(t) => t < |s.tasks| && s.tasks[t].phase.Arriving? && !s.tasks[t].trying && s.tasks[t].guard !in s.held
    case TryLock(t) => t < |s.tasks| && s.tasks[t].phase.Arriving? && s.tasks[t].trying
    case Emit(t) => t < |s.tasks| && s.tasks[t].phase.Running? && s.tasks[t].done < |s.tasks[t].run.log|
    case Return(t) =>
      t < |s.tasks| && s.tasks[t].phase.Running? && s.tasks[t].done == |s.tasks[t].run.log| && s.tasks[t].run.result.Some?
    case Abandon(t) => t < |s.tasks| && (s.tasks[t].phase.Arriving? || s.tasks[t].phase.Running?)
  }

  function Acquire(s: State, t: nat): State
    requires t < |s.tasks|
  {
    s.(tasks := s.tasks[t := s.tasks[t].(phase := Running)], held := s.held[s.tasks[t].guard := t], turns := s.turns + [t])
  }

  function Finish(s: State, t: nat, phase: Phase): State
    requires t < |s.tasks|
  {
    s.(tasks := s.tasks[t := s.tasks[t].(phase := phase)],
       held := if s.tasks[t].phase.Running? then s.held - {s.tasks[t].guard} else s.held)
  }

  function Apply(s: State, e: Event): State
    requires Enabled(s, e)
  {
    match e
    case Spawn(guard, trying, run) => s.(tasks := s.tasks + [Task(guard, trying, run, Arriving, 0)])
    case Lock(t) => Acquire(s, t)
    case TryLock(t) =>
      if s.tasks[t].guard in s.held then Finish(s, t, Phase.Refused) else Acquire(s, t)
    case Emit(t) =>
      var task := s.tasks[t];
      s.(tasks := s.tasks[t := task.(done := task.done + 1)],
         log := s.log + [Entry(task.guard, t, task.done, task.run.log[task.done])])
    case Return(t) => Finish(s, t, Returned(s.tasks[t].run.result.value))
    case Abandon(t) => Finish(s, t, Abandoned)
  }

  // ----- Invariant

  /** The mutexes are held by exactly the running tasks. */
  ghost predicate HoldersOk(s: State) {
    && (forall g :: g in s.held ==> s.held[g] < |s.tasks| && s.tasks[s.held[g]].guard == g && s.tasks[s.held[g]].phase.Running?)
    && (forall t :: 0 <= t < |s.tasks| && s.tasks[t].phase.Running? ==>
          s.tasks[t].guard in s.held && s.held[s.tasks[t].guard] == t)
  }

  predicate TaskOk(task: Task) {
    && task.done <= |task.run.log|
    && (task.phase.Arriving? ==> task.done == 0)
    && (task.phase.Refused? ==> task.trying && task.done == 0)
    && (task.phase.Returned? ==> task.done == |task.run.log| && task.run.result == Some(task.phase.result))
  }

  ghost predicate TasksOk(s: State) {
    forall t :: 0 <= t < |s.tasks| ==> TaskOk(s.tasks[t])
  }

  predicate EntryOk(s: State, e: Entry) {
    && e.task < |s.tasks| && e.guard == s.tasks[e.task].guard
    && e.index < s.tasks[e.task].done <= |s.tasks[e.task].run.log| && e.call == s.tasks[e.task].run.log[e.index]
  }

  ghost predicate Made(s: State, t: nat, i: nat) {
    exists n :: 0 <= n < |s.log| && s.log[n].task == t && s.log[n].index == i
  }

  /** The log holds each task's calls made so far, each once and in order. */
  ghost predicate LogOk(s: State) {
    && (forall n :: 0 <= n < |s.log| ==> EntryOk(s, s.log[n]))
    && (forall n, m :: 0 <= n < m < |s.log| && s.log[n].task == s.log[m].task ==> s.log[n].index < s.log[m].index)
    && (forall t, i :: 0 <= t < |s.tasks| && 0 <= i < s.tasks[t].done ==> Made(s, t, i))
  }

  /** Once a holder has made a call, no other task with the same mutex makes any. */
  ghost predicate HolderLast(s: State) {
    forall g, n, m :: (g in s.held && 0 <= n < m < |s.log| && s.log[n].task == s.held[g] && s.log[m].guard == g) ==>
      s.log[m].task == s.held[g]
  }

  ghost predicate Contiguous(log: seq<Entry>) {
    forall n, m, k :: (0 <= n < m < k < |log| && log[n].task == log[k].task && log[m].guard == log[k].guard) ==>
      log[m].task == log[k].task
  }

  ghost predicate Inv(s: State) {
    HoldersOk(s) && TasksOk(s) && LogOk(s) && HolderLast(s) && Contiguous(s.log) && TurnsOk(s) && BlocksOk(s)
  }

  // ----- Blocks

  /** The calls made under one mutex, in order. */
  function CallsUnder(log: seq<Entry>, g: nat): seq<Call> {
    if log == [] then []
    else
      var n := |log| - 1;
      CallsUnder(log[..n], g) + if log[n].guard == g then [log[n].call] else []
  }

  predicate Turns(tasks: seq<Task>, turns: seq<nat>) {
    forall k :: 0 <= k < |turns| ==> turns[k] < |tasks|
  }

  /** The calls of the tasks that had the mutex, one task after the other. */
  function Blocks(tasks: seq<Task>, turns: seq<nat>, g: nat): seq<Call>
    requires Turns(tasks, turns)
  {
    if turns == [] then []
    else
      var n := |turns| - 1;
      Blocks(tasks, turns[..n], g) + if tasks[turns[n]].guard == g then tasks[turns[n]].Made() else []
  }

  /** Every task had its turn at most once, and a holder had the last turn of its mutex. */
  ghost predicate TurnsOk(s: State) {
    && Turns(s.tasks, s.turns)
    && (forall k :: 0 <= k < |s.turns| ==> !s.tasks[s.turns[k]].phase.Arriving? && !s.tasks[s.turns[k]].phase.Refused?)
    && (forall a, b :: 0 <= a < b < |s.turns| ==> s.turns[a] != s.turns[b])
    && (forall t :: 0 <= t < |s.tasks| && s.tasks[t].phase.Running? ==> HadTurn(s, t))
    && (forall a, b :: (0 <= a < b < |s.turns| && s.tasks[s.turns[a]].phase.Running?) ==>
          s.tasks[s.turns[b]].guard != s.tasks[s.turns[a]].guard)
  }

  ghost predicate HadTurn(s: State, t: nat) {
    exists k :: 0 <= k < |s.turns| && s.turns[k] == t
  }

  ghost predicate BlocksOk(s: State) {
    Turns(s.tasks, s.turns) && forall g :: CallsUnder(s.log, g) == Blocks(s.tasks, s.turns, g)
  }

  lemma {:induction false} SameBlocks(tasks: seq<Task>, changed: seq<Task>, turns: seq<nat>, g: nat)
    requires Turns(tasks, turns) && Turns(changed, turns)
    requires forall k :: 0 <= k < |turns| ==>
               changed[turns[k]].guard == tasks[turns[k]].guard
               && (tasks[turns[k]].guard == g ==> changed[turns[k]].Made() == tasks[turns[k]].Made())
    ensures Blocks(changed, turns, g) == Blocks(tasks, turns, g)
  {
    if turns != [] {
      SameBlocks(tasks, changed, turns[..|turns| - 1], g);
    }
  }

  /** A call of the last task to have the mutex extends the last block. */
  lemma {:induction false} BlocksGrow(tasks: seq<Task>, turns: seq<nat>, a: nat, changed: seq<Task>, call: Call)
    requires Turns(tasks, turns) && Turns(changed, turns) && a < |turns|
    requires forall b :: 0 <= b < |turns| && b != a ==> changed[turns[b]] == tasks[turns[b]]
    requires changed[turns[a]].guard == tasks[turns[a]].guard
    requires changed[turns[a]].Made() == tasks[turns[a]].Made() + [call]
    requires forall b :: a < b < |turns| ==> tasks[turns[b]].guard != tasks[turns[a]].guard
    ensures Blocks(changed, turns, tasks[turns[a]].guard) == Blocks(tasks, turns, tasks[turns[a]].guard) + [call]
  {
    var n, g := |turns| - 1, tasks[turns[a]].guard;
    if a == n {
      SameBlocks(tasks, changed, turns[..n], g);
    } else {
      BlocksGrow(tasks, turns[..n], a, changed, call);
    }
  }

  lemma InitialInv()
    ensures Inv(INITIAL)
  {
  }

  // ----- Steps that make no call

  /** No call is made, and no task forgets any. */
  ghost predicate NoCallMade(s: State, u: State) {
    && u.log == s.log && |s.tasks| <= |u.tasks|
    && (forall t :: 0 <= t < |s.tasks| ==>
          u.tasks[t].guard == s.tasks[t].guard && u.tasks[t].run == s.tasks[t].run && u.tasks[t].done == s.tasks[t].done)
    && (forall t :: |s.tasks| <= t < |u.tasks| ==> u.tasks[t].done == 0)
  }

  lemma NoCallKeepsLog(s: State, u: State)
    requires LogOk(s) && NoCallMade(s, u)
    ensures LogOk(u)
  {
    assert forall n :: 0 <= n < |s.log| ==> EntryOk(s, s.log[n]);
    assert forall r, i :: Made(s, r, i) ==> Made(u, r, i);
  }

  lemma NoCallKeepsBlocks(s: State, u: State)
    requires BlocksOk(s) && NoCallMade(s, u) && Turns(u.tasks, u.turns)
    requires u.turns == s.turns
             || (exists t: nat :: u.turns == s.turns + [t] && t < |u.tasks| && u.tasks[t].done == 0)
    ensures BlocksOk(u)
  {
    forall g
      ensures CallsUnder(u.log, g) == Blocks(u.tasks, u.turns, g)
    {
      SameBlocks(s.tasks, u.tasks, s.turns, g);
      assert CallsUnder(s.log, g) == Blocks(s.tasks, s.turns, g);
      if u.turns != s.turns {
        assert u.turns[..|s.turns|] == s.turns;
      }
    }
  }

  predicate MayAcquire(s: State, t: nat) {
    t < |s.tasks| && s.tasks[t].phase.Arriving? && s.tasks[t].guard !in s.held
  }

  lemma AcquireKeepsTurns(s: State, t: nat)
    requires TurnsOk(s) && HoldersOk(s) && MayAcquire(s, t)
    ensures TurnsOk(Acquire(s, t))
  {
    var u := Acquire(s, t);
    forall r | 0 <= r < |u.tasks| && u.tasks[r].phase.Running?
      ensures HadTurn(u, r)
    {
      if r == t {
        assert u.turns[|s.turns|] == t;
      } else {
        var k :| 0 <= k < |s.turns| && s.turns[k] == r;
        assert u.turns[k] == r;
      }
    }
  }

  /** A task that has only just arrived has no calls in the log. */
  lemma AcquireKeepsHolderLast(s: State, t: nat)
    requires LogOk(s) && TasksOk(s) && HolderLast(s) && MayAcquire(s, t)
    ensures HolderLast(Acquire(s, t))
  {
  }

  lemma AcquireKeepsHolders(s: State, t: nat)
    requires HoldersOk(s) && TasksOk(s) && MayAcquire(s, t)
    ensures HoldersOk(Acquire(s, t)) && TasksOk(Acquire(s, t))
  {
  }

  lemma AcquireInv(s: State, t: nat)
    requires Inv(s) && MayAcquire(s, t)
    ensures Inv(Acquire(s, t))
  {
    AcquireKeepsHolders(s, t);
    AcquireKeepsTurns(s, t);
    AcquireKeepsHolderLast(s, t);
    NoCallKeepsLog(s, Acquire(s, t));
    NoCallKeepsBlocks(s, Acquire(s, t));
  }

  predicate MayFinish(s: State, t: nat, phase: Phase) {
    && t < |s.tasks| && (s.tasks[t].phase.Arriving? || s.tasks[t].phase.Running?)
    && (phase.Returned? || phase.Abandoned? || (phase.Refused? && s.tasks[t].phase.Arriving?))
    && TaskOk(s.tasks[t].(phase := phase))
  }

  lemma FinishKeepsHolders(s: State, t: nat, phase: Phase)
    requires HoldersOk(s) && HolderLast(s) && MayFinish(s, t, phase)
    ensures HoldersOk(Finish(s, t, phase)) && HolderLast(Finish(s, t, phase))
  {
  }

  lemma FinishKeepsTurns(s: State, t: nat, phase: Phase)
    requires TurnsOk(s) && MayFinish(s, t, phase)
    ensures TurnsOk(Finish(s, t, phase))
  {
  }

  lemma FinishInv(s: State, t: nat, phase: Phase)
    requires Inv(s) && MayFinish(s, t, phase)
    ensures Inv(Finish(s, t, phase))
  {
    FinishKeepsHolders(s, t, phase);
    FinishKeepsTurns(s, t, phase);
    NoCallKeepsLog(s, Finish(s, t, phase));
    NoCallKeepsBlocks(s, Finish(s, t, phase));
  }

  lemma SpawnInv(s: State, guard: nat, trying: bool, run: Ran)
    requires Inv(s)
    ensures Inv(Apply(s, Spawn(guard, trying, run)))
  {
    var u := Apply(s, Spawn(guard, trying, run));
    SpawnKeepsHolders(s, u);
    NoCallKeepsLog(s, u);
    NoCallKeepsBlocks(s, u);
  }

  lemma SpawnKeepsHolders(s: State, u: State)
    requires HoldersOk(s) && TurnsOk(s) && HolderLast(s)
    requires u.held == s.held && u.log == s.log && u.turns == s.turns
    requires |u.tasks| == |s.tasks| + 1 && u.tasks[..|s.tasks|] == s.tasks && u.tasks[|s.tasks|].phase.Arriving?
    ensures HoldersOk(u) && TurnsOk(u) && HolderLast(u)
  {
    assert forall t :: 0 <= t < |s.tasks| ==> u.tasks[t] == u.tasks[..|s.tasks|][t];
    assert forall r :: HadTurn(s, r) ==> HadTurn(u, r);
  }

  // ----- Making a call

  lemma EmitKeepsTurns(s: State, t: nat)
    requires TurnsOk(s) && Enabled(s, Emit(t))
    ensures TurnsOk(Apply(s, Emit(t)))
  {
  }

  lemma EmitKeepsBlocks(s: State, t: nat)
    requires TurnsOk(s) && BlocksOk(s) && Enabled(s, Emit(t))
    ensures BlocksOk(Apply(s, Emit(t)))
  {
    var u, task := Apply(s, Emit(t)), s.tasks[t];
    var call := task.run.log[task.done];
    assert HadTurn(s, t);
    var a :| 0 <= a < |s.turns| && s.turns[a] == t;
    assert u.tasks[t].Made() == task.Made() + [call];
    forall g
      ensures CallsUnder(u.log, g) == Blocks(u.tasks, u.turns, g)
    {
      assert u.log[..|s.log|] == s.log;
      assert CallsUnder(s.log, g) == Blocks(s.tasks, s.turns, g);
      if g == task.guard {
        BlocksGrow(s.tasks, s.turns, a, u.tasks, call);
      } else {
        SameBlocks(s.tasks, u.tasks, s.turns, g);
      }
    }
  }

  lemma EmitMadeOne(s: State, t: nat, r: nat, i: nat)
    requires LogOk(s) && Enabled(s, Emit(t)) && r < |s.tasks| && i < Apply(s, Emit(t)).tasks[r].done
    ensures Made(Apply(s, Emit(t)), r, i)
  {
    var u := Apply(s, Emit(t));
    if r == t && i == s.tasks[t].done {
      assert u.log[|s.log|].task == r;
    } else {
      assert Made(s, r, i);
      var n :| 0 <= n < |s.log| && s.log[n].task == r && s.log[n].index == i;
      assert u.log[n] == s.log[n];
    }
  }

  lemma EmitKeepsLog(s: State, t: nat)
    requires LogOk(s) && Enabled(s, Emit(t))
    ensures LogOk(Apply(s, Emit(t)))
  {
    assert forall n :: 0 <= n < |s.log| ==> EntryOk(s, s.log[n]);
    forall r, i | 0 <= r < |s.tasks| && 0 <= i < Apply(s, Emit(t)).tasks[r].done
      ensures Made(Apply(s, Emit(t)), r, i)
    {
      EmitMadeOne(s, t, r, i);
    }
  }

  lemma EmitKeepsBlocksApart(s: State, t: nat)
    requires HoldersOk(s) && LogOk(s) && HolderLast(s) && Contiguous(s.log) && Enabled(s, Emit(t))
    ensures HolderLast(Apply(s, Emit(t))) && Contiguous(Apply(s, Emit(t)).log)
  {
    assert s.held[s.tasks[t].guard] == t;
    assert forall n :: 0 <= n < |s.log| ==> EntryOk(s, s.log[n]);
  }

  lemma EmitInv(s: State, t: nat)
    requires Inv(s) && Enabled(s, Emit(t))
    ensures Inv(Apply(s, Emit(t)))
  {
    EmitKeepsTurns(s, t);
    EmitKeepsBlocks(s, t);
    EmitKeepsLog(s, t);
    EmitKeepsBlocksApart(s, t);
    EmitKeepsTasks(s, t);
  }

  lemma EmitKeepsTasks(s: State, t: nat)
    requires HoldersOk(s) && TasksOk(s) && Enabled(s, Emit(t))
    ensures HoldersOk(Apply(s, Emit(t))) && TasksOk(Apply(s, Emit(t)))
  {
  }

  lemma StepInv(s: State, e: Event)
    requires Inv(s) && Enabled(s, e)
    ensures Inv(Apply(s, e))
  {
    match e
    case Spawn(guard, trying, run) => SpawnInv(s, guard, trying, run);
    case Lock(t) => AcquireInv(s, t);
    case TryLock(t) =>
      if s.tasks[t].guard in s.held {
        FinishInv(s, t, Phase.Refused);
      } else {
        AcquireInv(s, t);
      }
    case Emit(t) => EmitInv(s, t);
    case Return(t) => FinishInv(s, t, Returned(s.tasks[t].run.result.value));
    case Abandon(t) => FinishInv(s, t, Abandoned);
  }

  // ----- Every interleaving

  predicate Next(s: State, e: Event, t: State) {
    Enabled(s, e) && t == Apply(s, e)
  }

  ghost predicate Behavior(states: seq<State>, events: seq<Event>) {
    && |states| == |events| + 1 && states[0] == INITIAL
    && forall n {:trigger events[n]} :: 0 <= n < |events| ==> Next(states[n], events[n], states[n + 1])
  }

  lemma {:induction false} BehaviorInv(states: seq<State>, events: seq<Event>, n: nat)
    requires Behavior(states, events) && n <= |events|
    ensures Inv(states[n])
  {
    if n == 0 {
      InitialInv();
    } else {
      BehaviorInv(states, events, n - 1);
      assert Next(states[n - 1], events[n - 1], states[n]);
      StepInv(states[n - 1], events[n - 1]);
    }
  }

  lemma StepAt(states: seq<State>, events: seq<Event>, n: nat)
    requires Behavior(states, events) && n < |events|
    ensures Inv(states[n]) && Inv(states[n + 1]) && Next(states[n], events[n], states[n + 1])
  {
    BehaviorInv(states, events, n);
    BehaviorInv(states, events, n + 1);
    assert Next(states[n], events[n], states[n + 1]);
  }

  /** Under every mutex the calls made are the calls of one task after another, in the
      order in which the tasks got the mutex, no task having two turns; a task that
      returned made all the calls of its run and returned its result, a refused one made
      none, and any other made a prefix. */
  lemma LogIsConcatenationOfRuns(states: seq<State>, events: seq<Event>, n: nat, g: nat)
    requires Behavior(states, events) && n <= |events|
    ensures var s := states[n];
            && Turns(s.tasks, s.turns) && CallsUnder(s.log, g) == Blocks(s.tasks, s.turns, g)
            && (forall a, b :: 0 <= a < b < |s.turns| ==> s.turns[a] != s.turns[b])
            && (forall k :: 0 <= k < |s.turns| ==> !s.tasks[s.turns[k]].phase.Refused?)
            && (forall t :: 0 <= t < |s.tasks| ==>
                  var task := s.tasks[t];
                  && task.Made() <= task.run.log
                  && (task.phase.Returned? ==> task.Made() == task.run.log && task.run.result == Some(task.phase.result))
                  && (task.phase.Refused? ==> task.trying && task.Made() == []))
  {
    BehaviorInv(states, events, n);
    var s := states[n];
    assert CallsUnder(s.log, g) == Blocks(s.tasks, s.turns, g);
    assert forall t :: 0 <= t < |s.tasks| ==> TaskOk(s.tasks[t]);
  }

  /** Two calls of one task have no call of another task with the same mutex in between. */
  lemma NoCallInBetween(states: seq<State>, events: seq<Event>, n: nat, i: nat, j: nat, k: nat)
    requires Behavior(states, events) && n <= |events| && i <= j <= k < |states[n].log|
    requires states[n].log[i].task == states[n].log[k].task && states[n].log[j].guard == states[n].log[k].guard
    ensures states[n].log[j].task == states[n].log[k].task
  {
    BehaviorInv(states, events, n);
  }

  /** A mutex is held by at most one running task, and free exactly when none runs. */
  lemma MutualExclusion(states: seq<State>, events: seq<Event>, n: nat, g: nat)
    requires Behavior(states, events) && n <= |events|
    ensures var s := states[n];
            && (forall t, u :: (0 <= t < |s.tasks| && 0 <= u < |s.tasks| && s.tasks[t].phase.Running? && s.tasks[u].phase.Running?
                  && s.tasks[t].guard == s.tasks[u].guard) ==> t == u)
            && (g in s.held <==> exists t :: 0 <= t < |s.tasks| && s.tasks[t].phase.Running? && s.tasks[t].guard == g)
  {
    BehaviorInv(states, events, n);
  }

  /** However a task ends, the mutex it held is free right after; and a try operation is
      refused exactly when another task is running under its mutex at that moment. */
  lemma MutexFollowsTasks(states: seq<State>, events: seq<Event>, n: nat, t: nat)
    requires Behavior(states, events) && n < |events| && t < |states[n].tasks|
    ensures (events[n] == Return(t) || (events[n] == Abandon(t) && states[n].tasks[t].phase.Running?)) ==>
              states[n].tasks[t].guard !in states[n + 1].held
    ensures events[n] == TryLock(t) ==>
              (states[n + 1].tasks[t].phase.Refused? <==>
                 exists u :: 0 <= u < |states[n].tasks| && u != t && states[n].tasks[u].phase.Running?
                             && states[n].tasks[u].guard == states[n].tasks[t].guard)
    ensures events[n] == TryLock(t) && !states[n + 1].tasks[t].phase.Refused? ==> states[n + 1].tasks[t].phase.Running?
  {
    StepAt(states, events, n);
  }

  /** What task `t` can do of its own accord. */
  predicate CanMove(s: State, t: nat) {
    Enabled(s, Lock(t)) || Enabled(s, TryLock(t)) || Enabled(s, Emit(t)) || Enabled(s, Return(t))
  }

  /** Another task is running under the mutex of `t`. */
  ghost predicate Blocked(s: State, t: nat) {
    t < |s.tasks| && exists u :: 0 <= u < |s.tasks| && u != t && s.tasks[u].phase.Running? && s.tasks[u].guard == s.tasks[t].guard
  }

  /** No task is held up without a reason: one that has not ended can go on unless it is a
      plain operation and another one is running under its mutex, or it has made all its
      calls and NetworkManager never answers the last. */
  lemma HeldUpExactly(states: seq<State>, events: seq<Event>, n: nat, t: nat)
    requires Behavior(states, events) && n <= |events| && t < |states[n].tasks|
    requires states[n].tasks[t].phase.Arriving? || states[n].tasks[t].phase.Running?
    ensures var (s, task) := (states[n], states[n].tasks[t]);
            !CanMove(s, t) <==> (task.phase.Arriving? && !task.trying && Blocked(s, t))
                                || (task.phase.Running? && task.Made() == task.run.log && task.run.result.None?)
  {
    BehaviorInv(states, events, n);
    MutualExclusion(states, events, n, states[n].tasks[t].guard);
    assert TaskOk(states[n].tasks[t]);
  }

  /** The next call of the run, for a step that makes one. */
  function NewCalls(s: State, e: Event): seq<Call> {
    if e.Emit? && e.task < |s.tasks| && |s.tasks[e.task].Made()| < |s.tasks[e.task].run.log|
    then [s.tasks[e.task].run.log[|s.tasks[e.task].Made()|]] else []
  }

  lemma TaskOkAt(states: seq<State>, events: seq<Event>, n: nat, t: nat)
    requires Behavior(states, events) && n <= |events| && t < |states[n].tasks|
    ensures TaskOk(states[n].tasks[t])
  {
    BehaviorInv(states, events, n);
  }

  /** Every step moves the task it is about, by its next call or to the phase named. */
  lemma StepsMove(states: seq<State>, events: seq<Event>, n: nat)
    requires Behavior(states, events) && n < |events| && !events[n].Spawn?
    ensures var (s, e, u) := (states[n], events[n], states[n + 1]);
            && e.task < |s.tasks| == |u.tasks|
            && u.tasks[e.task].Made() == s.tasks[e.task].Made() + NewCalls(s, e)
            && var phase := u.tasks[e.task].phase;
               match e
               case Lock(t) => phase == Phase.Running
               case TryLock(t) => phase == if Blocked(s, t) then Phase.Refused else Phase.Running
               case Emit(t) => phase == Phase.Running && NewCalls(s, e) != []
               case Return(t) => s.tasks[t].run.result.Some? && phase == Returned(s.tasks[t].run.result.value)
               case Abandon(t) => phase == Phase.Abandoned
               case Spawn(_, _, _) => true
  {
    assert Next(states[n], events[n], states[n + 1]);
    TaskOkAt(states, events, n, events[n].task);
    if events[n].TryLock? {
      MutexFollowsTasks(states, events, n, events[n].task);
    }
  }

  /** It leaves every other task alone, and a new task has everything before it. */
  lemma StepsSpareOthers(states: seq<State>, events: seq<Event>, n: nat, t: nat)
    requires Behavior(states, events) && n < |events|
    ensures var (s, e, u) := (states[n], events[n], states[n + 1]);
            && (t < |s.tasks| && (e.Spawn? || e.task != t) ==> t < |u.tasks| && u.tasks[t] == s.tasks[t])
            && (e.Spawn? ==> |u.tasks| == |s.tasks| + 1 && u.tasks[|s.tasks|] == Task(e.guard, e.trying, e.run, Arriving, 0))
  {
    assert Next(states[n], events[n], states[n + 1]);
  }

  /** Only a call adds to the log, and nothing is ever taken out of it. */
  lemma StepsLog(states: seq<State>, events: seq<Event>, n: nat)
    requires Behavior(states, events) && n < |events|
    ensures var (s, e, u) := (states[n], events[n], states[n + 1]);
            && (!e.Emit? ==> u.log == s.log)
            && (e.Emit? ==> |u.log| == |s.log| + 1 && u.log[..|s.log|] == s.log && u.log[|s.log|].task == e.task)
  {
    assert Next(states[n], events[n], states[n + 1]);
  }

  /** A device seen torn down, by the same task, with nothing done under the mutex by any
      other task from then on up to the call at position `k`. */
  ghost predicate TornDownUndisturbed(s: State, device: Path, k: nat) {
    k < |s.log| && exists j :: 0 <= j < k && Teardown(s, device, j, k)
  }

  ghost predicate Teardown(s: State, device: Path, j: nat, k: nat)
    requires j < k < |s.log|
  {
    && s.log[j].task == s.log[k].task && ShowsTornDown(s.log[j].call, device)
    && forall m :: j <= m <= k && s.log[m].guard == s.log[k].guard ==> s.log[m].task == s.log[k].task
  }

  ghost predicate TearsDownFirst(log: seq<Call>) {
    forall i :: 0 <= i < |log| && (log[i].Activate? || log[i].Add?) ==> TornDownBefore(log, i)
  }

  lemma TryTearsDownFirst(check: Checked<bool>, run: Ran)
    requires TearsDownFirst(run.log)
    ensures TearsDownFirst(TryRun(check, run).log)
  {
    var log := TryRun(check, run).log;
    forall i | 0 <= i < |log| && (log[i].Activate? || log[i].Add?)
      ensures TornDownBefore(log, i)
    {
      assert TornDownBefore(run.log, i - 1);
      var j :| 0 <= j < i - 1 && ShowsTornDown(run.log[..i - 1][j], log[i].device);
      assert ShowsTornDown(log[..i][j + 1], log[i].device);
    }
  }

  /** A connect operation: plain, or a try operation whose check came out as given. */
  function ConnectOperation(check: Option<Checked<bool>>, req: Request, env: Environment): Ran {
    match check
    case None => ConnectRun(req, env.Resolved())
    case Some(c) => TryRun(c, ConnectRun(req, env.Resolved()))
  }

  lemma ConnectTearsDownFirst(check: Option<Checked<bool>>, req: Request, env: Environment)
    ensures TearsDownFirst(ConnectOperation(check, req, env).log)
  {
    EveryActivationFollowsTeardown(req, env);
    if check.Some? {
      TryTearsDownFirst(check.value, ConnectRun(req, env.Resolved()));
    }
  }

  /** An earlier call of the run is earlier in the log too. */
  lemma EarlierCall(s: State, k: nat, i: nat) returns (j: nat)
    requires LogOk(s) && Contiguous(s.log) && k < |s.log| && i < s.log[k].index
    ensures j < k && s.log[j].task == s.log[k].task && EntryOk(s, s.log[j]) && s.log[j].index == i
    ensures forall m :: j <= m <= k && s.log[m].guard == s.log[k].guard ==> s.log[m].task == s.log[k].task
  {
    assert EntryOk(s, s.log[k]);
    assert Made(s, s.log[k].task, i);
    j :| 0 <= j < |s.log| && s.log[j].task == s.log[k].task && s.log[j].index == i;
    assert EntryOk(s, s.log[j]);
  }

  lemma UndisturbedIn(s: State, k: nat)
    requires LogOk(s) && Contiguous(s.log) && k < |s.log| && EntryOk(s, s.log[k])
    requires TearsDownFirst(s.tasks[s.log[k].task].run.log)
    requires s.log[k].call.Activate? || s.log[k].call.Add?
    ensures TornDownUndisturbed(s, s.log[k].call.device, k)
  {
    var log, e := s.tasks[s.log[k].task].run.log, s.log[k];
    assert TornDownBefore(log, e.index);
    var i :| 0 <= i < e.index && ShowsTornDown(log[..e.index][i], e.call.device);
    var j := EarlierCall(s, k, i);
    assert Teardown(s, e.call.device, j, k);
  }

  /** The whole system at once: in every interleaving, each activation or addition made by
      a connect operation, plain or try, is preceded by an observation, made by the same
      task, of the device disconnected or unavailable, and no other task with the same
      mutex made any call between the two. */
  lemma ActivationsAreUndisturbed(states: seq<State>, events: seq<Event>, n: nat, k: nat,
                                  check: Option<Checked<bool>>, req: Request, env: Environment)
    requires Behavior(states, events) && n <= |events| && k < |states[n].log|
    requires states[n].log[k].task < |states[n].tasks|
    requires states[n].tasks[states[n].log[k].task].run == ConnectOperation(check, req, env)
    requires states[n].log[k].call.Activate? || states[n].log[k].call.Add?
    ensures TornDownUndisturbed(states[n], states[n].log[k].call.device, k)
  {
    BehaviorInv(states, events, n);
    ConnectTearsDownFirst(check, req, env);
    assert EntryOk(states[n], states[n].log[k]);
    UndisturbedIn(states[n], k);
  }

  /** A state is reached when some behavior ends in it. */
  ghost predicate Reachable(s: State) {
    exists states, events :: Behavior(states, events) && states[|events|] == s
  }

  lemma OneMore(s: State, e: Event)
    requires Reachable(s) && Enabled(s, e)
    ensures Reachable(Apply(s, e))
  {
    var states, events :| Behavior(states, events) && states[|events|] == s;
    var longer, more := states + [Apply(s, e)], events + [e];
    forall n | 0 <= n < |more|
      ensures Next(longer[n], more[n], longer[n + 1])
    {
      if n < |events| {
        assert Next(states[n], events[n], states[n + 1]);
      }
    }
    assert Behavior(longer, more) && longer[|more|] == Apply(s, e);
  }

  lemma TwoManagersRunning(run: Ran)
    ensures Reachable(State([Task(0, false, run, Running, 0), Task(1, false, run, Running, 0)], map[0 := 0, 1 := 1], [], [0, 1]))
  {
    var none: seq<Event> := [];
    assert Behavior([INITIAL], none) && [INITIAL][|none|] == INITIAL;
    var idle := Task(0, false, run, Arriving, 0);
    OneMore(INITIAL, Spawn(0, false, run));
    OneMore(State([idle], map[], [], []), Spawn(1, false, run));
    OneMore(State([idle, idle.(guard := 1)], map[], [], []), Lock(0));
    OneMore(State([idle.(phase := Running), idle.(guard := 1)], map[0 := 0], [], [0]), Lock(1));
  }

  /** Sharing the mutex is what it takes: the calls of two managers do interleave. */
  lemma SeparateManagersInterleave(run: Ran)
    requires |run.log| >= 2
    ensures exists s :: Reachable(s) && |s.log| == 3 && s.log[0].task == s.log[2].task && s.log[1].task != s.log[0].task
  {
    TwoManagersRunning(run);
    var a, b := Task(0, false, run, Running, 0), Task(1, false, run, Running, 0);
    var first, second := Entry(0, 0, 0, run.log[0]), Entry(1, 1, 0, run.log[0]);
    var held, turns := map[0 := 0, 1 := 1], [0, 1];
    OneMore(State([a, b], held, [], turns), Emit(0));
    OneMore(State([a.(done := 1), b], held, [first], turns), Emit(1));
    OneMore(State([a.(done := 1), b.(done := 1)], held, [first, second], turns), Emit(0));
  }
}
