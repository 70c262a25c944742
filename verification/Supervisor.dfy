/** The attempt lifecycle of `Supervisor` in scripts/a3-worker-supervisor.py.

    `Next` is one section under `self.lock`. A launch is three sections (admission, reservation,
    completion) with the lock dropped in between; an action is reserved and settled in two; a teardown
    begins and finishes in two. Anything may happen between sections. `Step` puts a section together
    with its save, which may fail: that ends the request and leaves memory ahead of the journal. A crash
    at any point forgets the threads and all that was not saved, and `recover` then tears down every
    attempt that is not terminal before anybody is served. */
module AttemptLifecycle {
  import opened Prelude

  const LEASE_SECONDS: int := 30

  type RunId = nat
  type AttemptId = nat

  datatype Stage = Launching | Running | Human | Stopping | Stopped | Lost | Refused

  datatype ActionState = Started | Done | Failed | Uncertain

  datatype Action = Action(ordinal: nat, state: ActionState)

  /** Recovery stands for `supervisor_recovery` and `guest_lost`. */
  datatype Reason = LaunchRefused | Recovery | Other

  /** `record` tells apart two journal records that were stored under the same attempt id. */
  datatype Attempt = Attempt(
    record: nat, run: RunId, fence: nat, stage: Stage, spawned: bool, browser: bool, actions: seq<Action>,
    lease: int, receipt: bool, reason: Reason, takenOver: bool)

  /** Everything a launch pins for its run: policy, limits, credential (as `policy`), time and actions. */
  datatype Terms = Terms(policy: nat, maxSeconds: Option<nat>, maxActions: Option<nat>)

  datatype Run = Run(terms: Terms, deadline: Option<int>, maxFence: nat, actionCount: nat, attempts: seq<AttemptId>)

  datatype Spec = Spec(attempt: AttemptId, run: RunId, fence: nat, terms: Terms, browser: bool)

  /** The thread holding `launch_lock`, if any, and how far it is. */
  datatype Launch = Idle | Admitted(spec: Spec) | Spawned(id: AttemptId)

  /** `teardowns` are the threads between the two sections of `_teardown_once`, each with the record it
      holds; `hooks` counts uses of the crash proof hook per run. */
  datatype State = State(
    runs: map<RunId, Run>, attempts: map<AttemptId, Attempt>, active: Option<AttemptId>, launch: Launch,
    teardowns: map<AttemptId, nat>, records: nat, hooks: map<RunId, nat>)

  datatype Event =
    | Admit(spec: Spec, now: int)
    | RefuseLaunch
    | Reserve(now: int)
    | CompleteLaunch(now: int)
    | FailLaunch
    | Act(id: AttemptId, ordinal: Option<nat>, now: int)
    | Settle(id: AttemptId, index: nat, outcome: ActionState, answered: bool, now: int)
    | CrashHook(id: AttemptId, now: int)
    | TakeOver(id: AttemptId, now: int)
    | Renew(id: AttemptId, now: int)
    | HoldControl(id: AttemptId, now: int)
    | ModelReply(id: AttemptId, now: int)
    | StopUnknown(id: AttemptId, run: RunId, fence: nat)
    | BeginTeardown(id: AttemptId, reason: Reason)
    | FinishTeardown(id: AttemptId, verified: bool)

  predicate Terminal(a: Attempt) {
    a.stage.Stopped? || a.stage.Lost? || a.stage.Refused?
  }

  predicate Worker(s: State, id: AttemptId) {
    id in s.attempts && s.attempts[id].spawned && !Terminal(s.attempts[id])
  }

  /** `_live` is empty. */
  predicate NoneLive(s: State) {
    forall id :: id in s.attempts ==> Terminal(s.attempts[id])
  }

  function NextLease(run: Run, now: int): int {
    if run.deadline.Some? && run.deadline.value < now + LEASE_SECONDS then run.deadline.value else now + LEASE_SECONDS
  }

  /** `_usable`: neither the deadline nor the lease has passed. */
  predicate Usable(s: State, a: Attempt, now: int) {
    && a.run in s.runs
    && (s.runs[a.run].deadline.Some? ==> now < s.runs[a.run].deadline.value)
    && now < a.lease
  }

  predicate Acceptable(s: State, spec: Spec, now: int) {
    spec.run in s.runs ==>
      var run := s.runs[spec.run];
      && run.terms == spec.terms && spec.fence > run.maxFence
      && (run.deadline.Some? ==> now < run.deadline.value)
      && (run.terms.maxActions.Some? ==> run.actionCount < run.terms.maxActions.value)
  }

  /** A record for an attempt this supervisor never started, so that it never can be. */
  function NeverLaunched(s: State, run: RunId, fence: nat): Attempt {
    Attempt(s.records, run, fence, Launching, false, false, [], 0, false, Other, false)
  }

  function Recording(s: State, id: AttemptId, run: RunId, fence: nat): State {
    if id in s.attempts then s
    else s.(attempts := s.attempts[id := NeverLaunched(s, run, fence)], records := s.records + 1)
  }

  /** The run a launch continues, or begins. */
  function RunFor(s: State, spec: Spec, now: int): Run {
    if spec.run in s.runs then s.runs[spec.run]
    else Run(spec.terms,
             if spec.terms.maxSeconds.Some? then Some(now + spec.terms.maxSeconds.value) else None, 0, 0, [])
  }

  /** The reservation section of `launch`; it does not look again at what admission looked at. */
  function Reserving(s: State, spec: Spec, now: int): State {
    var run := RunFor(s, spec, now);
    if run.deadline.Some? && run.deadline.value - now < 1 then s.(launch := Idle)
    else
      s.(runs := s.runs[spec.run := run.(maxFence := spec.fence, attempts := run.attempts + [spec.attempt])],
         attempts := s.attempts[spec.attempt :=
           Attempt(s.records, spec.run, spec.fence, Launching, true, spec.browser, [],
                   now + LEASE_SECONDS, false, Other, false)],
         active := Some(spec.attempt), launch := Spawned(spec.attempt), records := s.records + 1)
  }

  /** All ordinals reserved in a run, attempt by attempt. */
  function Ordinals(attempts: map<AttemptId, Attempt>, ids: seq<AttemptId>): seq<nat> {
    if ids == [] then []
    else Ordinals(attempts, ids[..|ids| - 1]) + OrdinalsOf(attempts, ids[|ids| - 1])
  }

  function OrdinalsOf(attempts: map<AttemptId, Attempt>, id: AttemptId): seq<nat> {
    if id in attempts then Numbers(attempts[id].actions) else []
  }

  function Numbers(actions: seq<Action>): (numbers: seq<nat>)
    ensures |numbers| == |actions|
    ensures forall i :: 0 <= i < |actions| ==> numbers[i] == actions[i].ordinal
  {
    seq(|actions|, i requires 0 <= i < |actions| => actions[i].ordinal)
  }

  /** An outcome changes no ordinal. */
  lemma NumbersKept(actions: seq<Action>, index: nat, outcome: ActionState)
    requires index < |actions|
    ensures Numbers(actions[index := actions[index].(state := outcome)]) == Numbers(actions)
  {
  }

  function Largest(numbers: seq<nat>): nat {
    if numbers == [] then 0
    else
      var rest := Largest(numbers[..|numbers| - 1]);
      if numbers[|numbers| - 1] > rest then numbers[|numbers| - 1] else rest
  }

  /** `_action_ordinal`: the requested step id, or the next unused one; a repeated id is refused. */
  function NextOrdinal(s: State, run: Run, requested: Option<nat>): Option<nat> {
    var previous := Largest(Ordinals(s.attempts, run.attempts));
    var ordinal := if requested.Some? then requested.value else previous + 1;
    if ordinal >= 1 && ordinal > previous then Some(ordinal) else None
  }

  predicate MayAct(s: State, id: AttemptId, now: int) {
    && id in s.attempts && s.attempts[id].stage.Running? && s.attempts[id].browser
    && Usable(s, s.attempts[id], now)
  }

  /** The ordinal an action is reserved under, if it may be reserved at all. */
  function ReservedOrdinal(s: State, id: AttemptId, requested: Option<nat>, now: int): Option<nat> {
    if !MayAct(s, id, now) then None
    else
      var run := s.runs[s.attempts[id].run];
      if run.terms.maxActions.Some? && run.actionCount >= run.terms.maxActions.value then None
      else NextOrdinal(s, run, requested)
  }

  /** One more action: counted in the run, recorded as started in the attempt. */
  function Acting(s: State, id: AttemptId, ordinal: nat): State
    requires id in s.attempts && s.attempts[id].run in s.runs
  {
    var a := s.attempts[id];
    var run := s.runs[a.run];
    s.(runs := s.runs[a.run := run.(actionCount := run.actionCount + 1)],
       attempts := s.attempts[id := a.(actions := a.actions + [Action(ordinal, Started)])])
  }

  /** One more use of the crash proof hook. */
  function Hooked(hooks: map<RunId, nat>, run: RunId): map<RunId, nat> {
    hooks[run := if run in hooks then hooks[run] + 1 else 1]
  }

  function MarkUncertain(actions: seq<Action>): (marked: seq<Action>)
    ensures Numbers(marked) == Numbers(actions)
    ensures |marked| == |actions| && forall i :: 0 <= i < |actions| ==>
              marked[i] == if actions[i].state.Started? then actions[i].(state := Uncertain) else actions[i]
  {
    var marked := seq(|actions|, i requires 0 <= i < |actions| =>
                        if actions[i].state.Started? then actions[i].(state := Uncertain) else actions[i]);
    assert Numbers(marked) == Numbers(actions);
    marked
  }

  /** The first section of `_teardown_once`: no more actions, those in flight become uncertain. */
  function TearingDown(s: State, id: AttemptId, reason: Reason): State {
    if id !in s.attempts || Terminal(s.attempts[id]) || id in s.teardowns then s
    else
      var a := s.attempts[id];
      var stopping := if a.stage.Stopping? then a
                      else a.(stage := Stopping, reason := reason, actions := MarkUncertain(a.actions));
      s.(attempts := s.attempts[id := stopping], teardowns := s.teardowns[id := a.record])
  }

  function FinalStage(a: Attempt): Stage {
    if a.reason.LaunchRefused? then Refused else if a.reason.Recovery? then Lost else Stopped
  }

  /** The attempts once a teardown that held `record` is verified; a record replaced meanwhile is out of
      its reach. */
  function Ended(attempts: map<AttemptId, Attempt>, id: AttemptId, record: nat): map<AttemptId, Attempt> {
    if id !in attempts || attempts[id].record != record then attempts
    else attempts[id := attempts[id].(stage := FinalStage(attempts[id]), receipt := true)]
  }

  /** The last section of `_teardown_once`; unless the end was verified, only the thread ends. */
  function Finishing(s: State, id: AttemptId, verified: bool): State {
    if id !in s.teardowns then s
    else if !verified then s.(teardowns := s.teardowns - {id})
    else
      s.(teardowns := s.teardowns - {id}, active := if s.active == Some(id) then None else s.active,
         attempts := Ended(s.attempts, id, s.teardowns[id]))
  }

  function Next(s: State, e: Event): State {
    match e
    case Admit(spec, now) =>
      if !s.launch.Idle? || spec.fence < 1 || spec.attempt in s.attempts || !NoneLive(s) then s
      else if Acceptable(s, spec, now) then s.(launch := Admitted(spec))
      else Recording(s, spec.attempt, spec.run, spec.fence)
    case RefuseLaunch =>
      if !s.launch.Admitted? then s
      else Recording(s, s.launch.spec.attempt, s.launch.spec.run, s.launch.spec.fence).(launch := Idle)
    case Reserve(now) =>
      if s.launch.Admitted? then Reserving(s, s.launch.spec, now) else s
    case CompleteLaunch(now) =>
      if !s.launch.Spawned? || s.launch.id !in s.attempts || s.attempts[s.launch.id].run !in s.runs then s
      else
        var a := s.attempts[s.launch.id];
        s.(attempts := s.attempts[s.launch.id := a.(stage := Running, lease := NextLease(s.runs[a.run], now))],
           launch := Idle)
    case FailLaunch => s.(launch := Idle)
    case Act(id, requested, now) =>
      var ordinal := ReservedOrdinal(s, id, requested, now);
      if ordinal.Some? then Acting(s, id, ordinal.value) else s
    case Settle(id, index, outcome, answered, now) =>
      if id !in s.attempts || s.attempts[id].run !in s.runs || index >= |s.attempts[id].actions|
         || outcome.Started? then s
      else
        var a := s.attempts[id];
        var lease := if a.stage.Running? && answered then NextLease(s.runs[a.run], now) else a.lease;
        s.(attempts := s.attempts[id := a.(actions := a.actions[index := a.actions[index].(state := outcome)],
                                          lease := lease)])
    case CrashHook(id, now) =>
      if !(id in s.attempts && s.attempts[id].stage.Running? && Usable(s, s.attempts[id], now)) then s
      else
        var run := s.attempts[id].run;
        Acting(s, id, Largest(Ordinals(s.attempts, s.runs[run].attempts)) + 1).(hooks := Hooked(s.hooks, run))
    case TakeOver(id, now) =>
      if !MayAct(s, id, now) then s
      else s.(attempts := s.attempts[id := s.attempts[id].(stage := Human, takenOver := true)])
    case Renew(id, now) =>
      if id !in s.attempts || !(s.attempts[id].stage.Running? || s.attempts[id].stage.Human?)
         || !Usable(s, s.attempts[id], now) then s
      else s.(attempts := s.attempts[id := s.attempts[id].(lease := NextLease(s.runs[s.attempts[id].run], now))])
    case HoldControl(id, now) =>
      if id !in s.attempts || !s.attempts[id].takenOver || s.attempts[id].run !in s.runs then s
      else s.(attempts := s.attempts[id := s.attempts[id].(lease := NextLease(s.runs[s.attempts[id].run], now))])
    case ModelReply(id, now) =>
      if id !in s.attempts || !s.attempts[id].stage.Running? || s.attempts[id].run !in s.runs then s
      else s.(attempts := s.attempts[id := s.attempts[id].(lease := NextLease(s.runs[s.attempts[id].run], now))])
    case StopUnknown(id, run, fence) => Recording(s, id, run, fence)
    case BeginTeardown(id, reason) => TearingDown(s, id, reason)
    case FinishTeardown(id, verified) => Finishing(s, id, verified)
  }

  const INITIAL: State := State(map[], map[], None, Idle, map[], 0, map[])

  // --------------------------------------------------------------- what every reachable state keeps

  ghost predicate Increasing(numbers: seq<nat>) {
    forall i, j :: 0 <= i < j < |numbers| ==> numbers[i] < numbers[j]
  }

  function Hooks(s: State, r: RunId): nat {
    if r in s.hooks then s.hooks[r] else 0
  }

  ghost predicate IsLast(ids: seq<AttemptId>, id: AttemptId) {
    |ids| > 0 && ids[|ids| - 1] == id
  }

  ghost predicate AttemptAt(s: State, id: AttemptId) {
    id in s.attempts ==>
      var a := s.attempts[id];
      && a.record < s.records
      && (a.spawned ==> a.run in s.runs && id in s.runs[a.run].attempts)
      && (!a.spawned ==> a.actions == [] && !a.stage.Running? && !a.stage.Human? && !a.takenOver)
      && (a.takenOver ==> !a.stage.Launching? && !a.stage.Running?)
      && (Terminal(a) ==> a.receipt && a.stage == FinalStage(a))
      && (a.spawned && !Terminal(a) ==> IsLast(s.runs[a.run].attempts, id) && !s.launch.Admitted?)
  }

  /** The attempts a run launched, in order: all real, under growing fences. */
  ghost predicate Lineage(s: State, r: RunId, run: Run) {
    && (forall i :: 0 <= i < |run.attempts| ==>
          run.attempts[i] in s.attempts && s.attempts[run.attempts[i]].spawned && s.attempts[run.attempts[i]].run == r)
    && (forall i, j :: 0 <= i < j < |run.attempts| ==>
          s.attempts[run.attempts[i]].fence < s.attempts[run.attempts[j]].fence)
    && (forall i :: 0 <= i < |run.attempts| ==> s.attempts[run.attempts[i]].fence <= run.maxFence)
  }

  /** Its actions: strictly increasing ordinals from 1 across all attempts, counted exactly, and within
      the limit except for uses of the crash proof hook. */
  ghost predicate Counted(s: State, r: RunId, run: Run) {
    var numbers := Ordinals(s.attempts, run.attempts);
    && Increasing(numbers) && (forall n :: n in numbers ==> n >= 1)
    && |numbers| == run.actionCount
    && (run.terms.maxActions.Some? ==> run.actionCount <= run.terms.maxActions.value + Hooks(s, r))
  }

  ghost predicate RunAt(s: State, r: RunId) {
    r in s.runs ==> Lineage(s, r, s.runs[r]) && Counted(s, r, s.runs[r])
  }

  ghost predicate SingleWorker(s: State) {
    forall id, other :: Worker(s, id) && Worker(s, other) ==> id == other
  }

  ghost predicate LaunchOk(s: State) {
    match s.launch
    case Idle => true
    case Admitted(spec) =>
      && spec.fence >= 1
      && (spec.attempt in s.attempts ==> !s.attempts[spec.attempt].spawned)
      && (spec.run in s.runs ==> s.runs[spec.run].terms == spec.terms && s.runs[spec.run].maxFence < spec.fence)
    case Spawned(id) =>
      && id in s.attempts && s.attempts[id].spawned && !s.attempts[id].takenOver
      && !s.attempts[id].stage.Running? && !s.attempts[id].stage.Human?
      && s.attempts[id].run in s.runs && IsLast(s.runs[s.attempts[id].run].attempts, id)
      && (forall other :: Worker(s, other) ==> other == id)
  }

  ghost predicate Inv(s: State) {
    && (forall id {:trigger AttemptAt(s, id)} :: AttemptAt(s, id))
    && (forall r {:trigger RunAt(s, r)} :: RunAt(s, r))
    && SingleWorker(s)
    && LaunchOk(s)
  }

  /** What never goes back: a run's terms, deadline and launched attempts; its reserved ordinals, which
      only grow at the end; and an attempt once taken over, which acts no more. */
  ghost predicate RunLater(s: State, t: State, r: RunId) {
    r in s.runs ==>
      && r in t.runs
      && var before, after := s.runs[r], t.runs[r];
      && after.terms == before.terms && after.deadline == before.deadline && before.maxFence <= after.maxFence
      && before.attempts <= after.attempts
      && Ordinals(s.attempts, before.attempts) <= Ordinals(t.attempts, after.attempts)
  }

  ghost predicate TakenLater(s: State, t: State, id: AttemptId) {
    id in s.attempts && s.attempts[id].takenOver ==>
      id in t.attempts && t.attempts[id].takenOver && Numbers(t.attempts[id].actions) == Numbers(s.attempts[id].actions)
  }

  ghost predicate Later(s: State, t: State) {
    && (forall r {:trigger RunLater(s, t, r)} :: RunLater(s, t, r))
    && (forall id {:trigger TakenLater(s, t, id)} :: TakenLater(s, t, id))
  }

  lemma LaterTransitive(s: State, t: State, u: State)
    requires Later(s, t) && Later(t, u)
    ensures Later(s, u)
  {
    forall r
      ensures RunLater(s, u, r)
    {
      assert RunLater(s, t, r) && RunLater(t, u, r);
    }
    forall id
      ensures TakenLater(s, u, id)
    {
      assert TakenLater(s, t, id) && TakenLater(t, u, id);
    }
  }

  // --------------------------------------------------------------------------- ordinals of a run

  lemma {:induction false} OrdinalsFrame(attempts: map<AttemptId, Attempt>, changed: map<AttemptId, Attempt>,
                  ids: seq<AttemptId>)
    requires forall i :: 0 <= i < |ids| ==> OrdinalsOf(changed, ids[i]) == OrdinalsOf(attempts, ids[i])
    ensures Ordinals(changed, ids) == Ordinals(attempts, ids)
  {
    if ids != [] {
      OrdinalsFrame(attempts, changed, ids[..|ids| - 1]);
    }
  }

  /** One more action of the last attempt is one more ordinal at the end. */
  lemma OrdinalsGrow(attempts: map<AttemptId, Attempt>, ids: seq<AttemptId>, id: AttemptId, action: Action)
    requires id in attempts && IsLast(ids, id) && forall i :: 0 <= i < |ids| - 1 ==> ids[i] != id
    ensures var a := attempts[id];
            Ordinals(attempts[id := a.(actions := a.actions + [action])], ids)
              == Ordinals(attempts, ids) + [action.ordinal]
  {
    var a := attempts[id];
    var changed := attempts[id := a.(actions := a.actions + [action])];
    OrdinalsFrame(attempts, changed, ids[..|ids| - 1]);
    assert Numbers(a.actions + [action]) == Numbers(a.actions) + [action.ordinal];
  }

  lemma {:induction false} LargestBounds(numbers: seq<nat>)
    ensures forall n :: n in numbers ==> n <= Largest(numbers)
    ensures numbers != [] ==> Largest(numbers) in numbers || Largest(numbers) == 0
  {
    if numbers != [] {
      LargestBounds(numbers[..|numbers| - 1]);
      assert numbers == numbers[..|numbers| - 1] + [numbers[|numbers| - 1]];
    }
  }

  // ----------------------------------------------------------------------- every step keeps them

  /** The same attempt as far as its run is concerned. */
  ghost predicate SameToRun(s: State, t: State, id: AttemptId) {
    && id in s.attempts && id in t.attempts
    && var a, b := s.attempts[id], t.attempts[id];
    b.run == a.run && b.fence == a.fence && b.spawned == a.spawned && Numbers(b.actions) == Numbers(a.actions)
  }

  lemma RunFrame(s: State, t: State, r: RunId)
    requires r in s.runs && r in t.runs && t.runs[r] == s.runs[r] && RunAt(s, r) && Hooks(s, r) <= Hooks(t, r)
    requires forall i :: 0 <= i < |s.runs[r].attempts| ==> SameToRun(s, t, s.runs[r].attempts[i])
    ensures RunAt(t, r) && RunLater(s, t, r)
  {
    var ids := s.runs[r].attempts;
    assert forall i :: 0 <= i < |ids| ==>
           SameToRun(s, t, ids[i]) && OrdinalsOf(t.attempts, ids[i]) == OrdinalsOf(s.attempts, ids[i]);
    OrdinalsFrame(s.attempts, t.attempts, ids);
  }

  /** Changing one record without its identity or its ordinals. */
  ghost predicate Touches(s: State, t: State, id: AttemptId) {
    && id in s.attempts && id in t.attempts && t.attempts == s.attempts[id := t.attempts[id]]
    && t.runs == s.runs && t.hooks == s.hooks && t.records == s.records
    && var a, b := s.attempts[id], t.attempts[id];
    && b.record == a.record && b.run == a.run && b.fence == a.fence && b.spawned == a.spawned
    && Numbers(b.actions) == Numbers(a.actions) && (a.takenOver ==> b.takenOver)
  }

  lemma TouchKeepsRuns(s: State, t: State, id: AttemptId)
    requires Inv(s) && Touches(s, t, id)
    ensures (forall r :: RunAt(t, r)) && Later(s, t)
  {
    forall r
      ensures RunAt(t, r) && RunLater(s, t, r)
    {
      assert RunAt(s, r);
      if r in s.runs {
        RunFrame(s, t, r);
      }
    }
    forall other
      ensures TakenLater(s, t, other)
    {
    }
  }

  /** ... and without making anything but the launching attempt a worker again. */
  lemma TouchKeeps(s: State, t: State, id: AttemptId)
    requires Inv(s) && Touches(s, t, id) && AttemptAt(t, id)
    requires t.launch == s.launch || t.launch.Idle?
    requires Worker(t, id) ==> Worker(s, id) || s.launch == Spawned(id)
    requires t.launch == Spawned(id) ==>
               !t.attempts[id].takenOver && !t.attempts[id].stage.Running? && !t.attempts[id].stage.Human?
    ensures Inv(t) && Later(s, t)
  {
    TouchKeepsRuns(s, t, id);
    forall other
      ensures AttemptAt(t, other)
    {
      assert AttemptAt(s, other);
    }
    assert forall other :: other != id ==> Worker(t, other) == Worker(s, other);
  }

  /** Threads, the active hint and a finished launch are not part of the invariant. */
  lemma ThreadsDoNotMatter(s: State, t: State)
    requires Inv(s) && t.runs == s.runs && t.attempts == s.attempts && t.records == s.records && t.hooks == s.hooks
    requires t.launch == s.launch || t.launch.Idle?
    ensures Inv(t) && Later(s, t)
  {
    forall id
      ensures AttemptAt(t, id)
    {
      assert AttemptAt(s, id);
    }
    forall r
      ensures RunAt(t, r) && RunLater(s, t, r)
    {
      assert RunAt(s, r);
    }
    assert forall id :: Worker(t, id) == Worker(s, id);
  }

  lemma RecordingKeepsRuns(s: State, id: AttemptId, run: RunId, fence: nat)
    requires Inv(s) && id !in s.attempts
    ensures var t := Recording(s, id, run, fence); forall r :: RunAt(t, r) && RunLater(s, t, r)
  {
    var t := Recording(s, id, run, fence);
    forall r
      ensures RunAt(t, r) && RunLater(s, t, r)
    {
      assert RunAt(s, r);
      if r in s.runs {
        RunFrame(s, t, r);
      }
    }
  }

  lemma RecordingKeeps(s: State, id: AttemptId, run: RunId, fence: nat)
    requires Inv(s)
    ensures Inv(Recording(s, id, run, fence)) && Later(s, Recording(s, id, run, fence))
  {
    var t := Recording(s, id, run, fence);
    if id in s.attempts {
      ThreadsDoNotMatter(s, s);
    } else {
      RecordingKeepsRuns(s, id, run, fence);
      forall other
        ensures AttemptAt(t, other) && Worker(t, other) == Worker(s, other) && TakenLater(s, t, other)
      {
        assert AttemptAt(s, other);
      }
    }
  }

  /** The run is as it should be before the reservation. */
  ghost predicate Admissible(s: State, spec: Spec, now: int) {
    var run := RunFor(s, spec, now);
    && Lineage(s, spec.run, run) && Counted(s, spec.run, run)
    && run.maxFence < spec.fence && run.terms == spec.terms && spec.attempt !in run.attempts
  }

  lemma RunForOk(s: State, now: int)
    requires Inv(s) && s.launch.Admitted?
    ensures Admissible(s, s.launch.spec, now)
  {
    assert RunAt(s, s.launch.spec.run);
  }

  lemma NewAttemptNoOrdinals(attempts: map<AttemptId, Attempt>, ids: seq<AttemptId>, id: AttemptId, a: Attempt)
    requires a.actions == [] && id !in ids
    ensures Ordinals(attempts[id := a], ids + [id]) == Ordinals(attempts, ids)
  {
    OrdinalsFrame(attempts, attempts[id := a], ids);
    assert (ids + [id])[..|ids|] == ids;
    assert Numbers(a.actions) == [];
  }

  lemma NewAttemptLineage(s: State, t: State, r: RunId, run: Run, next: Run, id: AttemptId)
    requires Lineage(s, r, run) && id !in run.attempts && next.attempts == run.attempts + [id]
    requires id in t.attempts && t.attempts == s.attempts[id := t.attempts[id]]
    requires t.attempts[id].spawned && t.attempts[id].run == r && run.maxFence < t.attempts[id].fence == next.maxFence
    ensures Lineage(t, r, next)
  {
    forall i | 0 <= i < |run.attempts|
      ensures next.attempts[i] == run.attempts[i] && t.attempts[next.attempts[i]] == s.attempts[run.attempts[i]]
    {
    }
  }

  lemma CountedSame(s: State, t: State, r: RunId, run: Run, next: Run)
    requires Counted(s, r, run) && Ordinals(t.attempts, next.attempts) == Ordinals(s.attempts, run.attempts)
    requires next.actionCount == run.actionCount && next.terms == run.terms && t.hooks == s.hooks
    ensures Counted(t, r, next)
  {
  }

  lemma ReservingOrdinals(s: State, spec: Spec, now: int)
    requires spec.attempt !in RunFor(s, spec, now).attempts && s.launch.Admitted?
             && Reserving(s, spec, now).launch.Spawned?
    ensures var t := Reserving(s, spec, now);
      Ordinals(t.attempts, t.runs[spec.run].attempts) == Ordinals(s.attempts, RunFor(s, spec, now).attempts)
  {
    var t := Reserving(s, spec, now);
    NewAttemptNoOrdinals(s.attempts, RunFor(s, spec, now).attempts, spec.attempt, t.attempts[spec.attempt]);
  }

  lemma ReservingLineage(s: State, spec: Spec, now: int)
    requires s.launch.Admitted? && Reserving(s, spec, now).launch.Spawned?
    requires var run := RunFor(s, spec, now);
      Lineage(s, spec.run, run) && run.maxFence < spec.fence && spec.attempt !in run.attempts
    ensures var t := Reserving(s, spec, now); Lineage(t, spec.run, t.runs[spec.run])
  {
    var t := Reserving(s, spec, now);
    NewAttemptLineage(s, t, spec.run, RunFor(s, spec, now), t.runs[spec.run], spec.attempt);
  }

  lemma ReservingCounted(s: State, spec: Spec, now: int)
    requires s.launch.Admitted? && Reserving(s, spec, now).launch.Spawned?
    requires var run := RunFor(s, spec, now); Counted(s, spec.run, run) && spec.attempt !in run.attempts
    ensures var t := Reserving(s, spec, now); Counted(t, spec.run, t.runs[spec.run])
  {
    var run, t := RunFor(s, spec, now), Reserving(s, spec, now);
    ReservingOrdinals(s, spec, now);
    CountedSame(s, t, spec.run, run, t.runs[spec.run]);
  }

  lemma ReservingRunLater(s: State, spec: Spec, now: int)
    requires var run := RunFor(s, spec, now); spec.attempt !in run.attempts && run.maxFence < spec.fence
    requires s.launch.Admitted? && Reserving(s, spec, now).launch.Spawned?
    ensures RunLater(s, Reserving(s, spec, now), spec.run)
  {
    ReservingOrdinals(s, spec, now);
    assert RunFor(s, spec, now).attempts <= Reserving(s, spec, now).runs[spec.run].attempts;
  }

  lemma ReservingOther(s: State, now: int, r: RunId)
    requires LaunchOk(s) && s.launch.Admitted? && Reserving(s, s.launch.spec, now).launch.Spawned?
    requires r in s.runs && r != s.launch.spec.run && RunAt(s, r)
    ensures var t := Reserving(s, s.launch.spec, now); RunAt(t, r) && RunLater(s, t, r)
  {
    var t := Reserving(s, s.launch.spec, now);
    forall i | 0 <= i < |s.runs[r].attempts|
      ensures SameToRun(s, t, s.runs[r].attempts[i])
    {
    }
    RunFrame(s, t, r);
  }

  /** The reservation: its run's lineage and ordinals go on, every other run is untouched. */
  lemma ReservingKeepsRuns(s: State, now: int)
    requires Inv(s) && s.launch.Admitted? && Reserving(s, s.launch.spec, now).launch.Spawned?
    ensures var t := Reserving(s, s.launch.spec, now); (forall r :: RunAt(t, r)) && Later(s, t)
  {
    var spec := s.launch.spec;
    var t := Reserving(s, spec, now);
    forall r
      ensures RunAt(t, r) && RunLater(s, t, r)
    {
      assert RunAt(s, r);
      if r == spec.run {
        RunForOk(s, now);
        ReservingLineage(s, spec, now);
        ReservingCounted(s, spec, now);
        ReservingRunLater(s, spec, now);
      } else if r in s.runs {
        ReservingOther(s, now, r);
      }
    }
    forall id
      ensures TakenLater(s, t, id)
    {
      assert AttemptAt(s, id);
    }
  }

  lemma ReservingKeeps(s: State, now: int)
    requires Inv(s) && s.launch.Admitted?
    ensures Inv(Reserving(s, s.launch.spec, now)) && Later(s, Reserving(s, s.launch.spec, now))
  {
    var spec := s.launch.spec;
    var t := Reserving(s, spec, now);
    if t.launch.Idle? {
      ThreadsDoNotMatter(s, t);
    } else {
      ReservingKeepsRuns(s, now);
      RunForOk(s, now);
      forall id
        ensures AttemptAt(t, id)
        ensures Worker(t, id) ==> id == spec.attempt
      {
        assert AttemptAt(s, id);
      }
    }
  }

  lemma ActingRun(s: State, id: AttemptId, ordinal: nat, t: State)
    requires AttemptAt(s, id) && id in s.attempts && s.attempts[id].stage.Running?
    requires s.attempts[id].run in s.runs && RunAt(s, s.attempts[id].run)
    requires var run := s.runs[s.attempts[id].run];
      && ordinal >= 1 && ordinal > Largest(Ordinals(s.attempts, run.attempts))
      && (run.terms.maxActions.Some? ==>
            run.actionCount + 1 <= run.terms.maxActions.value + Hooks(t, s.attempts[id].run))
    requires t.runs == Acting(s, id, ordinal).runs && t.attempts == Acting(s, id, ordinal).attempts
    ensures RunAt(t, s.attempts[id].run) && RunLater(s, t, s.attempts[id].run)
  {
    var r := s.attempts[id].run;
    var run, next := s.runs[r], t.runs[r];
    LineageFrame(s, t, r, run, next);
    assert forall i :: 0 <= i < |run.attempts| - 1 ==> run.attempts[i] != id;
    OrdinalsGrow(s.attempts, run.attempts, id, Action(ordinal, Started));
    CountedGrows(s, t, r, run, next, ordinal);
  }

  lemma LineageFrame(s: State, t: State, r: RunId, run: Run, next: Run)
    requires Lineage(s, r, run) && next.attempts == run.attempts && next.maxFence == run.maxFence
    requires forall i :: 0 <= i < |run.attempts| ==>
      && run.attempts[i] in s.attempts && run.attempts[i] in t.attempts
      && var a, b := s.attempts[run.attempts[i]], t.attempts[run.attempts[i]];
      b.run == a.run && b.fence == a.fence && b.spawned == a.spawned
    ensures Lineage(t, r, next)
  {
  }

  lemma CountedGrows(s: State, t: State, r: RunId, run: Run, next: Run, ordinal: nat)
    requires Counted(s, r, run) && ordinal >= 1 && ordinal > Largest(Ordinals(s.attempts, run.attempts))
    requires Ordinals(t.attempts, next.attempts) == Ordinals(s.attempts, run.attempts) + [ordinal]
    requires next.actionCount == run.actionCount + 1 && next.terms == run.terms
    requires run.terms.maxActions.Some? ==> run.actionCount + 1 <= run.terms.maxActions.value + Hooks(t, r)
    ensures Counted(t, r, next)
  {
    LargestBounds(Ordinals(s.attempts, run.attempts));
  }

  /** One more action of a running attempt, under an ordinal nobody used. */
  lemma ActingKeeps(s: State, id: AttemptId, ordinal: nat, t: State)
    requires Inv(s) && id in s.attempts && s.attempts[id].stage.Running? && s.attempts[id].run in s.runs
    requires var run := s.runs[s.attempts[id].run];
      && ordinal >= 1 && ordinal > Largest(Ordinals(s.attempts, run.attempts))
      && (run.terms.maxActions.Some? ==>
            run.actionCount + 1 <= run.terms.maxActions.value + Hooks(t, s.attempts[id].run))
    requires t.runs == Acting(s, id, ordinal).runs && t.attempts == Acting(s, id, ordinal).attempts
    requires t.records == s.records && (t.launch == s.launch || t.launch.Idle?)
    requires forall r :: Hooks(s, r) <= Hooks(t, r)
    ensures Inv(t) && Later(s, t)
  {
    assert AttemptAt(s, id);
    forall other
      ensures AttemptAt(t, other) && TakenLater(s, t, other)
      ensures Worker(t, other) == Worker(s, other)
    {
      assert AttemptAt(s, other);
    }
    ActingKeepsRuns(s, id, ordinal, t);
  }

  lemma ActingKeepsRuns(s: State, id: AttemptId, ordinal: nat, t: State)
    requires Inv(s) && id in s.attempts && s.attempts[id].stage.Running? && s.attempts[id].run in s.runs
    requires var run := s.runs[s.attempts[id].run];
      && ordinal >= 1 && ordinal > Largest(Ordinals(s.attempts, run.attempts))
      && (run.terms.maxActions.Some? ==>
            run.actionCount + 1 <= run.terms.maxActions.value + Hooks(t, s.attempts[id].run))
    requires t.runs == Acting(s, id, ordinal).runs && t.attempts == Acting(s, id, ordinal).attempts
    requires forall r :: Hooks(s, r) <= Hooks(t, r)
    ensures forall r :: RunAt(t, r) && RunLater(s, t, r)
  {
    forall r
      ensures RunAt(t, r) && RunLater(s, t, r)
    {
      assert RunAt(s, r) && Hooks(s, r) <= Hooks(t, r);
      if r == s.attempts[id].run {
        assert AttemptAt(s, id);
        ActingRun(s, id, ordinal, t);
      } else if r in s.runs {
        forall i | 0 <= i < |s.runs[r].attempts|
          ensures SameToRun(s, t, s.runs[r].attempts[i])
        {
        }
        RunFrame(s, t, r);
      }
    }
  }

  /** Every section keeps the invariant, whatever happened before it. */
  lemma SectionKeeps(s: State, e: Event)
    requires Inv(s)
    ensures Inv(Next(s, e)) && Later(s, Next(s, e))
  {
    var t := Next(s, e);
    match e {
      case Admit(spec, now) => AdmissionKeeps(s, spec, now);
      case RefuseLaunch =>
        if s.launch.Admitted? {
          var spec := s.launch.spec;
          RecordingKeeps(s, spec.attempt, spec.run, spec.fence);
          ThreadsDoNotMatter(Recording(s, spec.attempt, spec.run, spec.fence), t);
          LaterTransitive(s, Recording(s, spec.attempt, spec.run, spec.fence), t);
        } else {
          ThreadsDoNotMatter(s, t);
        }
      case Reserve(now) =>
        if s.launch.Admitted? { ReservingKeeps(s, now); } else { ThreadsDoNotMatter(s, t); }
      case Act(id, requested, now) => ActKeeps(s, id, requested, now);
      case CrashHook(id, now) => HookKeeps(s, id, now);
      case StopUnknown(id, run, fence) => RecordingKeeps(s, id, run, fence);
      case CompleteLaunch(now) => TakingOverKeeps(s, e);
      case Settle(id, index, outcome, answered, now) => SettlingKeeps(s, e);
      case TakeOver(id, now) => TakingOverKeeps(s, e);
      case Renew(id, now) => SettlingKeeps(s, e);
      case HoldControl(id, now) => SettlingKeeps(s, e);
      case ModelReply(id, now) => SettlingKeeps(s, e);
      case BeginTeardown(id, reason) => TearingDownKeeps(s, id, reason);
      case FinishTeardown(id, verified) => FinishingKeeps(s, id, verified);
      case FailLaunch => ThreadsDoNotMatter(s, t);
    }
  }

  lemma AdmissionKeeps(s: State, spec: Spec, now: int)
    requires Inv(s)
    ensures Inv(Next(s, Admit(spec, now))) && Later(s, Next(s, Admit(spec, now)))
  {
    var t := Next(s, Admit(spec, now));
    if t.launch == s.launch {
      RecordingKeeps(s, spec.attempt, spec.run, spec.fence);
      ThreadsDoNotMatter(s, s);
    } else {
      forall id
        ensures AttemptAt(t, id) && !Worker(t, id)
      {
        assert AttemptAt(s, id);
      }
      forall r
        ensures RunAt(t, r) && RunLater(s, t, r)
      {
        assert RunAt(s, r);
      }
    }
  }

  lemma ActKeeps(s: State, id: AttemptId, requested: Option<nat>, now: int)
    requires Inv(s)
    ensures Inv(Next(s, Act(id, requested, now))) && Later(s, Next(s, Act(id, requested, now)))
  {
    var ordinal := ReservedOrdinal(s, id, requested, now);
    if ordinal.Some? {
      ActingKeeps(s, id, ordinal.value, Acting(s, id, ordinal.value));
    } else {
      ThreadsDoNotMatter(s, s);
    }
  }

  /** What an action may pass its limit by grows with the hook. */
  lemma HookLeavesRoom(s: State, t: State, r: RunId)
    requires r in s.runs && Counted(s, r, s.runs[r]) && t.hooks == Hooked(s.hooks, r)
    ensures var run := s.runs[r];
      run.terms.maxActions.Some? ==> run.actionCount + 1 <= run.terms.maxActions.value + Hooks(t, r)
    ensures forall k :: Hooks(s, k) <= Hooks(t, k)
  {
  }

  lemma HookKeeps(s: State, id: AttemptId, now: int)
    requires Inv(s)
    ensures Inv(Next(s, CrashHook(id, now))) && Later(s, Next(s, CrashHook(id, now)))
  {
    if id in s.attempts && s.attempts[id].stage.Running? && Usable(s, s.attempts[id], now) {
      var run := s.attempts[id].run;
      assert RunAt(s, run);
      HookLeavesRoom(s, Next(s, CrashHook(id, now)), run);
      ActingKeeps(s, id, Largest(Ordinals(s.attempts, s.runs[run].attempts)) + 1, Next(s, CrashHook(id, now)));
    } else {
      ThreadsDoNotMatter(s, s);
    }
  }

  /** The sections that change at most one existing record, but neither its stage ... */
  lemma SettlingKeeps(s: State, e: Event)
    requires Inv(s) && (e.Settle? || e.Renew? || e.HoldControl? || e.ModelReply?)
    ensures Inv(Next(s, e)) && Later(s, Next(s, e))
  {
    var t := Next(s, e);
    if t.attempts == s.attempts {
      ThreadsDoNotMatter(s, t);
    } else {
      assert AttemptAt(s, e.id);
      if e.Settle? {
        NumbersKept(s.attempts[e.id].actions, e.index, e.outcome);
      }
      TouchKeeps(s, t, e.id);
    }
  }

  /** ... or its stage as well. */
  lemma TakingOverKeeps(s: State, e: Event)
    requires Inv(s) && (e.TakeOver? || e.CompleteLaunch?)
    ensures Inv(Next(s, e)) && Later(s, Next(s, e))
  {
    var t := Next(s, e);
    if t.attempts == s.attempts {
      ThreadsDoNotMatter(s, t);
    } else {
      var id := if e.CompleteLaunch? then s.launch.id else e.id;
      assert AttemptAt(s, id);
      TouchKeeps(s, t, id);
    }
  }

  lemma TearingDownKeeps(s: State, id: AttemptId, reason: Reason)
    requires Inv(s)
    ensures Inv(TearingDown(s, id, reason)) && Later(s, TearingDown(s, id, reason))
  {
    var t := TearingDown(s, id, reason);
    if t.attempts == s.attempts {
      ThreadsDoNotMatter(s, t);
    } else {
      assert AttemptAt(s, id);
      TouchKeeps(s, t, id);
    }
  }

  lemma FinishingKeeps(s: State, id: AttemptId, verified: bool)
    requires Inv(s)
    ensures var t := Next(s, FinishTeardown(id, verified)); Inv(t) && Later(s, t)
  {
    var t := Next(s, FinishTeardown(id, verified));
    if t.attempts == s.attempts {
      ThreadsDoNotMatter(s, t);
    } else {
      assert AttemptAt(s, id);
      TouchKeeps(s, t, id);
    }
  }

  // ---------------------------------------------------------------------------------- leases

  /** A running or human attempt never holds a lease past its run's deadline. */
  ghost predicate LeaseAt(s: State, id: AttemptId) {
    id in s.attempts && (s.attempts[id].stage.Running? || s.attempts[id].stage.Human?) ==>
      && s.attempts[id].run in s.runs
      && var deadline := s.runs[s.attempts[id].run].deadline;
      deadline.Some? ==> s.attempts[id].lease <= deadline.value
  }

  /** The sections fall into three groups, for proofs that take them group by group. */
  predicate OfLaunch(e: Event) {
    e.Admit? || e.RefuseLaunch? || e.Reserve? || e.CompleteLaunch? || e.FailLaunch?
  }

  predicate OfTeardown(e: Event) {
    e.StopUnknown? || e.BeginTeardown? || e.FinishTeardown?
  }

  lemma LeaseKeptByLaunch(s: State, e: Event, id: AttemptId)
    requires LeaseAt(s, id) && OfLaunch(e)
    ensures LeaseAt(Next(s, e), id)
  {
  }

  lemma LeaseKeptByTeardown(s: State, e: Event, id: AttemptId)
    requires LeaseAt(s, id) && OfTeardown(e)
    ensures LeaseAt(Next(s, e), id)
  {
  }

  lemma LeaseKeeps(s: State, e: Event, id: AttemptId)
    requires LeaseAt(s, id)
    ensures LeaseAt(Next(s, e), id)
  {
    if OfLaunch(e) {
      LeaseKeptByLaunch(s, e, id);
    } else if OfTeardown(e) {
      LeaseKeptByTeardown(s, e, id);
    }
  }

  // -------------------------------------------------------------------- memory, journal and restarts

  /** `serving` is false from a restart until `recover` is through. */
  datatype System = System(memory: State, journal: State, serving: bool)

  /** A section with the fate of its save, a crash with the restart after it, or the end of `recover`. */
  datatype Occurrence = Section(e: Event, saved: bool) | Restart | Serve

  /** What a save writes: not the threads. */
  function Forget(s: State): State {
    s.(launch := Idle, teardowns := map[])
  }

  /** Memory after a section whose save failed: the request ends there. A launch lets go of its lock
      before anything is started, and a teardown that could not be recorded goes no further. */
  function Aborted(s: State, e: Event): State {
    var t := Next(s, e);
    if e.Reserve? && s.launch.Admitted? then t.(launch := Idle)
    else if e.BeginTeardown? && e.id in s.attempts && !s.attempts[e.id].stage.Stopping? && e.id !in s.teardowns
    then t.(teardowns := s.teardowns)
    else t
  }

  predicate AllEnding(s: State) {
    forall id :: id in s.attempts ==> Terminal(s.attempts[id]) || s.attempts[id].stage.Stopping?
  }

  /** Memory is lost here: a crash, or a save that fails in `recover`, which ends the process. */
  predicate Reloads(y: System, o: Occurrence) {
    o.Restart? || (o.Section? && !y.serving && (o.e.BeginTeardown? || o.e.FinishTeardown?) && !o.saved)
  }

  function Step(y: System, o: Occurrence): System {
    if Reloads(y, o) then System(y.journal, y.journal, false)
    else if o.Serve? then y.(serving := y.serving || AllEnding(y.memory))
    else if !y.serving && !(o.e.BeginTeardown? || o.e.FinishTeardown?) then y // nobody is served yet
    else if o.saved then var t := Next(y.memory, o.e); y.(memory := t, journal := Forget(t))
    else y.(memory := Aborted(y.memory, o.e))
  }

  const START: System := System(INITIAL, INITIAL, true)

  /** A history: what occurred, and the system before, between and after. */
  ghost predicate History(ys: seq<System>, os: seq<Occurrence>) {
    && |ys| == |os| + 1 && ys[0] == START
    && forall n {:trigger Linked(ys, os, n)} :: 0 <= n < |os| ==> Linked(ys, os, n)
  }

  ghost predicate Linked(ys: seq<System>, os: seq<Occurrence>, n: nat)
    requires n < |os| && |ys| == |os| + 1
  {
    ys[n + 1] == Step(ys[n], os[n])
  }

  /** It runs, is taken over, or its worker may be about to be started. */
  predicate Active(s: State, id: AttemptId) {
    && id in s.attempts
    && (s.attempts[id].stage.Running? || s.attempts[id].stage.Human?
        || s.attempts[id].takenOver || s.launch == Spawned(id))
  }

  /** Whatever is active is in the journal, so that recovery will find it. */
  ghost predicate DurableAt(y: System, id: AttemptId) {
    Active(y.memory, id) ==>
      && id in y.journal.attempts && y.journal.attempts[id].spawned
      && y.journal.attempts[id].record == y.memory.attempts[id].record
      && Numbers(y.journal.attempts[id].actions) <= Numbers(y.memory.attempts[id].actions)
  }

  ghost predicate Sound(s: State) {
    Inv(s) && forall id {:trigger LeaseAt(s, id)} :: LeaseAt(s, id)
  }

  ghost predicate SystemInv(y: System) {
    && Sound(y.memory) && Sound(y.journal) && Later(y.journal, y.memory)
    && y.journal == Forget(y.journal) && (!y.serving ==> y.memory.launch.Idle?)
    && (forall id {:trigger DurableAt(y, id)} :: DurableAt(y, id))
  }

  /** Ending a request, or forgetting all of them, changes no record. */
  lemma ThreadsEnd(s: State, t: State)
    requires Sound(s) && (t == Forget(s) || t == s.(launch := Idle) || t == s.(teardowns := t.teardowns))
    ensures Sound(t) && Later(s, t) && Later(t, s)
  {
    ThreadsDoNotMatter(s, t);
    ThreadsDoNotMatter(t, t.(launch := Idle));
    forall r
      ensures RunLater(t, s, r)
    {
      assert RunAt(s, r);
    }
    forall id
      ensures LeaseAt(t, id) && TakenLater(t, s, id)
    {
      assert LeaseAt(s, id);
    }
  }

  lemma NextSound(s: State, e: Event)
    requires Sound(s)
    ensures Sound(Next(s, e)) && Later(s, Next(s, e))
  {
    SectionKeeps(s, e);
    forall id
      ensures LeaseAt(Next(s, e), id)
    {
      assert LeaseAt(s, id);
      LeaseKeeps(s, e, id);
    }
  }

  lemma AbortedSound(s: State, e: Event)
    requires Sound(s)
    ensures Sound(Aborted(s, e)) && Later(s, Aborted(s, e))
  {
    NextSound(s, e);
    ThreadsEnd(Next(s, e), Aborted(s, e));
    LaterTransitive(s, Next(s, e), Aborted(s, e));
  }

  /** A section makes nothing active that was not, and only adds to its actions. */
  ghost predicate StaysActive(s: State, t: State, id: AttemptId) {
    Active(t, id) ==>
      Active(s, id) && t.attempts[id].record == s.attempts[id].record
      && Numbers(s.attempts[id].actions) <= Numbers(t.attempts[id].actions)
  }

  lemma ReserveAborted(s: State, now: int, id: AttemptId)
    ensures StaysActive(s, Aborted(s, Reserve(now)), id)
  {
  }

  lemma LaunchAborted(s: State, e: Event, id: AttemptId)
    requires OfLaunch(e) && !e.Reserve?
    ensures StaysActive(s, Aborted(s, e), id)
  {
  }

  lemma TearingAborted(s: State, ending: AttemptId, reason: Reason, id: AttemptId)
    ensures StaysActive(s, TearingDown(s, ending, reason), id)
  {
  }

  lemma FinishAborted(s: State, ending: AttemptId, verified: bool, id: AttemptId)
    ensures StaysActive(s, Finishing(s, ending, verified), id)
  {
  }

  lemma TeardownAborted(s: State, e: Event, id: AttemptId)
    requires OfTeardown(e) && LaunchOk(s)
    ensures StaysActive(s, Aborted(s, e), id)
  {
    if e.BeginTeardown? {
      TearingAborted(s, e.id, e.reason, id);
    } else if e.FinishTeardown? {
      FinishAborted(s, e.id, e.verified, id);
    }
  }

  lemma ActionAborted(s: State, e: Event, id: AttemptId)
    requires !OfLaunch(e) && !OfTeardown(e)
    ensures StaysActive(s, Aborted(s, e), id)
  {
    if e.Settle? && e.id in s.attempts && e.index < |s.attempts[e.id].actions| {
      NumbersKept(s.attempts[e.id].actions, e.index, e.outcome);
    }
  }

  /** A section that is not saved makes nothing run that the journal does not know. */
  lemma AbortedDurable(y: System, e: Event, id: AttemptId)
    requires DurableAt(y, id) && LaunchOk(y.memory)
    ensures DurableAt(y.(memory := Aborted(y.memory, e)), id)
  {
    if e.Reserve? {
      ReserveAborted(y.memory, e.now, id);
    } else if OfLaunch(e) {
      LaunchAborted(y.memory, e, id);
    } else if OfTeardown(e) {
      TeardownAborted(y.memory, e, id);
    } else {
      ActionAborted(y.memory, e, id);
    }
    assert StaysActive(y.memory, Aborted(y.memory, e), id);
  }

  lemma SavedSection(y: System, e: Event)
    requires SystemInv(y) && (!y.serving ==> e.BeginTeardown? || e.FinishTeardown?)
    ensures var t := Next(y.memory, e); var z := y.(memory := t, journal := Forget(t));
      SystemInv(z) && Later(y.journal, z.journal) && Later(y.memory, z.memory)
  {
    var t := Next(y.memory, e);
    NextSound(y.memory, e);
    ThreadsEnd(t, Forget(t));
    LaterTransitive(y.journal, y.memory, t);
    LaterTransitive(y.journal, t, Forget(t));
    var z := y.(memory := t, journal := Forget(t));
    forall id
      ensures DurableAt(z, id)
    {
      assert AttemptAt(t, id);
    }
  }

  lemma UnsavedSection(y: System, e: Event)
    requires SystemInv(y) && y.serving
    ensures var z := y.(memory := Aborted(y.memory, e)); SystemInv(z) && Later(y.memory, z.memory)
  {
    AbortedSound(y.memory, e);
    LaterTransitive(y.journal, y.memory, Aborted(y.memory, e));
    forall id
      ensures DurableAt(y.(memory := Aborted(y.memory, e)), id)
    {
      assert DurableAt(y, id) && AttemptAt(y.memory, id);
      AbortedDurable(y, e, id);
    }
  }

  lemma NothingWritten(y: System, z: System)
    requires SystemInv(y) && z.journal == y.journal && (z.memory == y.memory || z.memory == y.journal)
    requires !z.serving ==> z.memory.launch.Idle?
    ensures SystemInv(z) && Later(y.journal, z.journal) && Later(y.memory, y.memory)
  {
    ThreadsEnd(y.journal, y.journal);
    ThreadsEnd(y.memory, y.memory);
    forall id
      ensures DurableAt(z, id)
    {
      assert DurableAt(y, id) && AttemptAt(y.journal, id);
    }
  }

  /** Every step keeps the invariant, whether its save succeeds or fails; and the journal only moves
      forward, as does memory in any step that does not lose it. */
  lemma StepKeeps(y: System, o: Occurrence)
    requires SystemInv(y)
    ensures SystemInv(Step(y, o)) && Later(y.journal, Step(y, o).journal)
    ensures !Reloads(y, o) ==> Later(y.memory, Step(y, o).memory)
  {
    NothingWritten(y, y);
    if Reloads(y, o) || o.Serve? || (!y.serving && !(o.e.BeginTeardown? || o.e.FinishTeardown?)) {
      NothingWritten(y, Step(y, o));
    } else if o.saved {
      SavedSection(y, o.e);
    } else {
      UnsavedSection(y, o.e);
    }
  }

  // ------------------------------------------------------------------------------ whole histories

  lemma StartIsSound()
    ensures SystemInv(START)
  {
    assert forall id :: !Worker(INITIAL, id);
    ThreadsDoNotMatter(INITIAL, INITIAL);
  }

  lemma {:induction false} Reachable(ys: seq<System>, os: seq<Occurrence>, n: nat)
    requires History(ys, os) && n <= |os|
    ensures SystemInv(ys[n])
  {
    if n == 0 {
      StartIsSound();
    } else {
      Reachable(ys, os, n - 1);
      assert Linked(ys, os, n - 1);
      StepKeeps(ys[n - 1], os[n - 1]);
    }
  }

  /** What holds of memory and of the journal alike: at most one spawned attempt is not terminal; a run's
      fences grow with each launch; its ordinals grow across all its attempts; its count is the number of
      action records and, but for the proof hook, within the limit; every terminal attempt carries a
      receipt; and no running or human lease outlives the deadline. */
  ghost predicate Orderly(s: State) {
    && (forall id, other :: Worker(s, id) && Worker(s, other) ==> id == other)
    && (forall r :: r in s.runs ==> Lineage(s, r, s.runs[r]) && Counted(s, r, s.runs[r]))
    && (forall id :: id in s.attempts && Terminal(s.attempts[id]) ==> s.attempts[id].receipt)
    && (forall id :: id in s.attempts && (s.attempts[id].stage.Running? || s.attempts[id].stage.Human?) ==>
          && s.attempts[id].run in s.runs
          && (s.runs[s.attempts[id].run].deadline.Some? ==>
                s.attempts[id].lease <= s.runs[s.attempts[id].run].deadline.value))
  }

  lemma SoundIsOrderly(s: State)
    requires Sound(s)
    ensures Orderly(s)
  {
    forall r | r in s.runs
      ensures Lineage(s, r, s.runs[r]) && Counted(s, r, s.runs[r])
    {
      assert RunAt(s, r);
    }
    forall id | id in s.attempts
      ensures Terminal(s.attempts[id]) ==> s.attempts[id].receipt
      ensures s.attempts[id].stage.Running? || s.attempts[id].stage.Human? ==>
        && s.attempts[id].run in s.runs
        && (s.runs[s.attempts[id].run].deadline.Some? ==>
              s.attempts[id].lease <= s.runs[s.attempts[id].run].deadline.value)
    {
      assert AttemptAt(s, id) && LeaseAt(s, id);
    }
  }

  /** In every reachable state, over every interleaving, launch gap, failed save and crash: memory and
      journal are orderly, and every attempt that runs, or whose worker may be about to be started, is in
      the journal under the same record, so that recovery finds whatever was started. */
  lemma ReachableStates(ys: seq<System>, os: seq<Occurrence>, n: nat)
    requires History(ys, os) && n <= |os|
    ensures Orderly(ys[n].memory) && Orderly(ys[n].journal)
    ensures forall id :: Active(ys[n].memory, id) ==>
      && id in ys[n].journal.attempts && ys[n].journal.attempts[id].spawned
      && ys[n].journal.attempts[id].record == ys[n].memory.attempts[id].record
  {
    Reachable(ys, os, n);
    SoundIsOrderly(ys[n].memory);
    SoundIsOrderly(ys[n].journal);
    forall id | Active(ys[n].memory, id)
      ensures DurableAt(ys[n], id)
    {
    }
  }

  lemma HistoryStep(ys: seq<System>, os: seq<Occurrence>, n: nat)
    requires History(ys, os) && n < |os|
    ensures SystemInv(ys[n]) && SystemInv(ys[n + 1]) && Later(ys[n].journal, ys[n + 1].journal)
    ensures !Reloads(ys[n], os[n]) ==> Later(ys[n].memory, ys[n + 1].memory)
  {
    Reachable(ys, os, n);
    assert Linked(ys, os, n);
    StepKeeps(ys[n], os[n]);
  }

  /** Between any two moments of a history the journal only moves forward, and memory is never behind
      what the journal was: terms, deadlines, launched attempts and reserved ordinals only grow, and an
      attempt recorded as taken over reserves nothing more. */
  lemma {:induction false} NothingSavedGoesBack(ys: seq<System>, os: seq<Occurrence>, i: nat, j: nat)
    requires History(ys, os) && i <= j <= |os|
    ensures Later(ys[i].journal, ys[j].journal) && Later(ys[i].journal, ys[j].memory)
    decreases j
  {
    if i == j {
      Reachable(ys, os, i);
      NothingWritten(ys[i], ys[i]);
    } else {
      NothingSavedGoesBack(ys, os, i, j - 1);
      HistoryStep(ys, os, j - 1);
      LaterTransitive(ys[i].journal, ys[j - 1].journal, ys[j].journal);
      LaterTransitive(ys[i].journal, ys[j].journal, ys[j].memory);
    }
  }

  /** Memory too moves only forward for as long as the process lives. */
  lemma {:induction false} NothingGoesBack(ys: seq<System>, os: seq<Occurrence>, i: nat, j: nat)
    requires History(ys, os) && i <= j <= |os|
    requires forall k {:trigger os[k]} :: i <= k < j ==> !Reloads(ys[k], os[k])
    ensures Later(ys[i].memory, ys[j].memory)
    decreases j
  {
    if i == j {
      Reachable(ys, os, i);
      NothingWritten(ys[i], ys[i]);
    } else {
      NothingGoesBack(ys, os, i, j - 1);
      HistoryStep(ys, os, j - 1);
      LaterTransitive(ys[i].memory, ys[j - 1].memory, ys[j].memory);
    }
  }

  // ------------------------------------------------------------------- steps that reach the browser

  /** An action is reserved under this ordinal and saved, so that it goes to the worker. */
  predicate Performs(y: System, o: Occurrence, run: RunId, ordinal: nat) {
    && o.Section? && o.e.Act? && o.saved && y.serving
    && ReservedOrdinal(y.memory, o.e.id, o.e.ordinal, o.e.now) == Some(ordinal)
    && y.memory.attempts[o.e.id].run == run
  }

  lemma ActingRecords(s: State, id: AttemptId, ordinal: nat)
    requires Inv(s) && id in s.attempts && s.attempts[id].stage.Running? && s.attempts[id].run in s.runs
    ensures var t, run := Acting(s, id, ordinal), s.attempts[id].run;
      ordinal in Ordinals(t.attempts, t.runs[run].attempts)
  {
    var run := s.attempts[id].run;
    assert AttemptAt(s, id) && RunAt(s, run);
    var ids := s.runs[run].attempts;
    assert forall i :: 0 <= i < |ids| - 1 ==> ids[i] != id;
    OrdinalsGrow(s.attempts, ids, id, Action(ordinal, Started));
    var grown := Ordinals(s.attempts, ids) + [ordinal];
    assert grown[|grown| - 1] == ordinal;
  }

  lemma PerformedIsSaved(y: System, o: Occurrence, run: RunId, ordinal: nat)
    requires SystemInv(y) && Performs(y, o, run, ordinal)
    ensures var j := Step(y, o).journal; run in j.runs && ordinal in Ordinals(j.attempts, j.runs[run].attempts)
  {
    assert Step(y, o).journal == Forget(Acting(y.memory, o.e.id, ordinal));
    ActingRecords(y.memory, o.e.id, ordinal);
  }

  /** No step is performed twice: over all attempts of a run, all restarts and all failed saves, the
      ordinals of the actions that reach the browser strictly increase. */
  lemma StepsNeverRepeat(ys: seq<System>, os: seq<Occurrence>, i: nat, j: nat, run: RunId, first: nat, second: nat)
    requires History(ys, os) && i < j < |os|
    requires Performs(ys[i], os[i], run, first) && Performs(ys[j], os[j], run, second)
    ensures first < second
  {
    Reachable(ys, os, i);
    PerformedIsSaved(ys[i], os[i], run, first);
    assert Linked(ys, os, i);
    NothingSavedGoesBack(ys, os, i + 1, j);
    SavedStepIsPassed(ys[i + 1].journal, ys[j], os[j], run, first, second);
  }

  lemma SavedStepIsPassed(saved: State, y: System, o: Occurrence, run: RunId, first: nat, second: nat)
    requires Later(saved, y.memory) && run in saved.runs && first in Ordinals(saved.attempts, saved.runs[run].attempts)
    requires Performs(y, o, run, second)
    ensures first < second
  {
    var m := y.memory;
    assert RunLater(saved, m, run);
    var before, after := Ordinals(saved.attempts, saved.runs[run].attempts), Ordinals(m.attempts, m.runs[run].attempts);
    var k :| 0 <= k < |before| && before[k] == first;
    LargestBounds(after);
    assert after[k] == first && after[k] in after && first <= Largest(after);
    assert NextOrdinal(m, m.runs[run], o.e.ordinal).value > Largest(after);
  }

  // ------------------------------------------------------------------------------------- takeover

  ghost predicate HasAtMost(s: State, id: AttemptId, numbers: seq<nat>) {
    id in s.attempts && Numbers(s.attempts[id].actions) <= numbers
  }

  /** The attempt is past running: taken over, stopping or terminal, and not being launched. */
  predicate PastRunning(s: State, id: AttemptId) {
    && id in s.attempts
    && (s.attempts[id].takenOver || s.attempts[id].stage.Stopping? || Terminal(s.attempts[id]))
    && s.launch != Spawned(id) && !(s.launch.Admitted? && s.launch.spec.attempt == id)
  }

  lemma PastInLaunch(s: State, e: Event, id: AttemptId, numbers: seq<nat>)
    requires AttemptAt(s, id) && PastRunning(s, id) && HasAtMost(s, id, numbers) && OfLaunch(e)
    ensures PastRunning(Next(s, e), id) && HasAtMost(Next(s, e), id, numbers)
  {
  }

  lemma PastInTeardown(s: State, e: Event, id: AttemptId, numbers: seq<nat>)
    requires HasAtMost(s, id, numbers) && OfTeardown(e)
    ensures HasAtMost(Next(s, e), id, numbers) && (PastRunning(s, id) ==> PastRunning(Next(s, e), id))
  {
  }

  /** An attempt past running never runs again and never reserves another step. */
  lemma PastNext(s: State, e: Event, id: AttemptId, numbers: seq<nat>)
    requires AttemptAt(s, id) && PastRunning(s, id) && HasAtMost(s, id, numbers)
    ensures PastRunning(Next(s, e), id) && HasAtMost(Next(s, e), id, numbers)
  {
    if OfLaunch(e) {
      PastInLaunch(s, e, id, numbers);
    } else if OfTeardown(e) {
      PastInTeardown(s, e, id, numbers);
    } else if e.Settle? && e.id in s.attempts && e.index < |s.attempts[e.id].actions| {
      NumbersKept(s.attempts[e.id].actions, e.index, e.outcome);
    }
  }

  /** After a takeover: in memory and journal no more than these ordinals, and past running whenever
      anybody is served. */
  ghost predicate AtRest(y: System, id: AttemptId, numbers: seq<nat>) {
    HasAtMost(y.memory, id, numbers) && HasAtMost(y.journal, id, numbers) && (y.serving ==> PastRunning(y.memory, id))
  }

  lemma RestStep(y: System, o: Occurrence, id: AttemptId, numbers: seq<nat>)
    requires SystemInv(y) && AtRest(y, id, numbers)
    ensures AtRest(Step(y, o), id, numbers)
  {
    if !Reloads(y, o) && o.Section? {
      assert AttemptAt(y.memory, id);
      if y.serving {
        PastNext(y.memory, o.e, id, numbers);
      } else if o.e.BeginTeardown? || o.e.FinishTeardown? {
        PastInTeardown(y.memory, o.e, id, numbers);
      }
    }
  }

  lemma TakenOverRests(y: System, id: AttemptId)
    requires SystemInv(y) && id in y.memory.attempts && y.memory.attempts[id].takenOver
    ensures AtRest(y, id, Numbers(y.memory.attempts[id].actions))
  {
    assert DurableAt(y, id) && AttemptAt(y.memory, id);
  }

  lemma {:induction false} StaysAtRest(ys: seq<System>, os: seq<Occurrence>, i: nat, j: nat,
                  id: AttemptId, numbers: seq<nat>)
    requires History(ys, os) && i <= j <= |os| && AtRest(ys[i], id, numbers)
    ensures AtRest(ys[j], id, numbers)
    decreases j
  {
    if i < j {
      StaysAtRest(ys, os, i, j - 1, id, numbers);
      Reachable(ys, os, j - 1);
      assert Linked(ys, os, j - 1);
      RestStep(ys[j - 1], os[j - 1], id, numbers);
    }
  }

  /** From a takeover on, over every crash and even if the takeover itself was not saved: the attempt is
      not running at any moment when anybody is served, and its list of actions never grows. */
  lemma TakeoverIsForever(ys: seq<System>, os: seq<Occurrence>, i: nat, j: nat, id: AttemptId)
    requires History(ys, os) && i <= j <= |os| && id in ys[i].memory.attempts && ys[i].memory.attempts[id].takenOver
    ensures id in ys[j].memory.attempts && (ys[j].serving ==> !ys[j].memory.attempts[id].stage.Running?)
    ensures Numbers(ys[j].memory.attempts[id].actions) <= Numbers(ys[i].memory.attempts[id].actions)
  {
    Reachable(ys, os, i);
    Reachable(ys, os, j);
    TakenOverRests(ys[i], id);
    StaysAtRest(ys, os, i, j, id, Numbers(ys[i].memory.attempts[id].actions));
    assert AttemptAt(ys[j].memory, id);
  }

  // ------------------------------------------------------------ terminal attempts, and the launch gap

  predicate NoneStarted(actions: seq<Action>) {
    forall i :: 0 <= i < |actions| ==> !actions[i].state.Started?
  }

  /** A terminal attempt stays what it is; only replies still on their way may change an action's outcome. */
  ghost predicate FinalFor(s: State, t: State, id: AttemptId) {
    id in s.attempts && Terminal(s.attempts[id]) ==>
      && id in t.attempts
      && var a, b := s.attempts[id], t.attempts[id];
      b.stage == a.stage && b.receipt && b.record == a.record && Numbers(b.actions) == Numbers(a.actions)
  }

  /** The two writes of `launch` that do not look at the record they replace. */
  predicate Revives(s: State, e: Event) {
    || (e.Reserve? && s.launch.Admitted? && Reserving(s, s.launch.spec, e.now).launch.Spawned?
        && s.launch.spec.attempt in s.attempts && Terminal(s.attempts[s.launch.spec.attempt]))
    || (e.CompleteLaunch? && s.launch.Spawned? && s.launch.id in s.attempts && Terminal(s.attempts[s.launch.id]))
  }

  /** Exactly when a section disturbs a terminal attempt: when a stop landed in one of launch's gaps. */
  lemma FinalUnlessRevived(s: State, e: Event)
    requires Inv(s)
    ensures (forall id :: FinalFor(s, Next(s, e), id)) <==> !Revives(s, e)
  {
    if Revives(s, e) {
      var id := if e.Reserve? then s.launch.spec.attempt else s.launch.id;
      assert AttemptAt(s, id);
      assert !FinalFor(s, Next(s, e), id);
    } else {
      forall id
        ensures FinalFor(s, Next(s, e), id)
      {
        assert AttemptAt(s, id);
        FinalAt(s, e, id);
      }
    }
  }

  lemma FinalInLaunch(s: State, e: Event, id: AttemptId)
    requires AttemptAt(s, id) && !Revives(s, e) && OfLaunch(e)
    ensures FinalFor(s, Next(s, e), id)
  {
  }

  lemma FinalInTeardown(s: State, e: Event, id: AttemptId)
    requires AttemptAt(s, id) && OfTeardown(e)
    ensures FinalFor(s, Next(s, e), id)
  {
  }

  lemma FinalAt(s: State, e: Event, id: AttemptId)
    requires AttemptAt(s, id) && !Revives(s, e)
    ensures FinalFor(s, Next(s, e), id)
  {
    if OfLaunch(e) {
      FinalInLaunch(s, e, id);
    } else if OfTeardown(e) {
      FinalInTeardown(s, e, id);
    } else if e.Settle? && e.id in s.attempts && e.index < |s.attempts[e.id].actions| {
      NumbersKept(s.attempts[e.id].actions, e.index, e.outcome);
    }
  }

  lemma FinalTransitive(s: State, t: State, u: State, id: AttemptId)
    requires FinalFor(s, t, id) && FinalFor(t, u, id)
    ensures FinalFor(s, u, id)
  {
  }

  /** Every attempt terminal in memory is terminal in the journal. */
  ghost predicate EndsSaved(y: System) {
    forall id :: id in y.memory.attempts && Terminal(y.memory.attempts[id]) ==>
      id in y.journal.attempts && Terminal(y.journal.attempts[id])
  }

  /** A terminal attempt is disturbed: by a blind write of launch, or by losing an end that was not saved. */
  ghost predicate Undoes(y: System, o: Occurrence) {
    if Reloads(y, o) then !EndsSaved(y) else o.Section? && Revives(y.memory, o.e)
  }

  /** What is terminal in the journal is the same in memory. */
  ghost predicate JournalFinal(y: System) {
    forall id {:trigger FinalFor(y.journal, y.memory, id)} :: FinalFor(y.journal, y.memory, id)
  }

  lemma SectionFinal(y: System, o: Occurrence, id: AttemptId)
    requires SystemInv(y) && !Reloads(y, o) && !Undoes(y, o)
    ensures FinalFor(y.memory, Step(y, o).memory, id)
  {
    assert AttemptAt(y.memory, id);
    if o.Section? {
      FinalAt(y.memory, o.e, id);
      assert Aborted(y.memory, o.e).attempts == Next(y.memory, o.e).attempts;
    }
  }

  lemma StepFinal(y: System, o: Occurrence, id: AttemptId)
    requires SystemInv(y) && JournalFinal(y) && !Undoes(y, o)
    ensures FinalFor(y.memory, Step(y, o).memory, id)
    ensures FinalFor(Step(y, o).journal, Step(y, o).memory, id)
  {
    var z := Step(y, o);
    StepKeeps(y, o);
    assert AttemptAt(y.journal, id) && AttemptAt(z.memory, id) && FinalFor(y.journal, y.memory, id);
    if !Reloads(y, o) {
      SectionFinal(y, o, id);
      FinalTransitive(y.journal, y.memory, z.memory, id);
    }
  }

  lemma UndoneStep(y: System, o: Occurrence) returns (id: AttemptId)
    requires SystemInv(y) && Undoes(y, o)
    ensures !FinalFor(y.memory, Step(y, o).memory, id)
  {
    if Reloads(y, o) {
      id :| id in y.memory.attempts && Terminal(y.memory.attempts[id])
            && !(id in y.journal.attempts && Terminal(y.journal.attempts[id]));
    } else {
      FinalUnlessRevived(y.memory, o.e);
      id :| !FinalFor(y.memory, Next(y.memory, o.e), id);
      assert Aborted(y.memory, o.e).attempts == Next(y.memory, o.e).attempts;
    }
  }

  lemma {:induction false} JournalStaysFinal(ys: seq<System>, os: seq<Occurrence>, n: nat)
    requires History(ys, os) && n <= |os|
    requires forall k {:trigger Undoes(ys[k], os[k])} :: 0 <= k < n ==> !Undoes(ys[k], os[k])
    ensures JournalFinal(ys[n])
  {
    if n > 0 {
      JournalStaysFinal(ys, os, n - 1);
      Reachable(ys, os, n - 1);
      assert Linked(ys, os, n - 1) && !Undoes(ys[n - 1], os[n - 1]);
      forall id
        ensures FinalFor(ys[n].journal, ys[n].memory, id)
      {
        StepFinal(ys[n - 1], os[n - 1], id);
      }
    }
  }

  lemma {:induction false} FinalForward(ys: seq<System>, os: seq<Occurrence>, i: nat, j: nat, id: AttemptId)
    requires History(ys, os) && i <= j <= |os|
    requires forall k {:trigger Undoes(ys[k], os[k])} :: 0 <= k < |os| ==> !Undoes(ys[k], os[k])
    ensures FinalFor(ys[i].memory, ys[j].memory, id)
    decreases j
  {
    if i == j {
      Reachable(ys, os, i);
      assert AttemptAt(ys[i].memory, id);
    } else {
      FinalForward(ys, os, i, j - 1, id);
      Reachable(ys, os, j - 1);
      JournalStaysFinal(ys, os, j - 1);
      assert Linked(ys, os, j - 1) && !Undoes(ys[j - 1], os[j - 1]);
      StepFinal(ys[j - 1], os[j - 1], id);
      FinalTransitive(ys[i].memory, ys[j - 1].memory, ys[j].memory, id);
    }
  }

  /** Exactly when terminal attempts are final over a whole history: when no stop landed in one of
      launch's gaps and no restart lost an end that was not saved. */
  lemma FinalExactly(ys: seq<System>, os: seq<Occurrence>)
    requires History(ys, os)
    ensures (forall i, j, id :: 0 <= i <= j <= |os| ==> FinalFor(ys[i].memory, ys[j].memory, id))
            <==> (forall k {:trigger Undoes(ys[k], os[k])} :: 0 <= k < |os| ==> !Undoes(ys[k], os[k]))
  {
    if forall k {:trigger Undoes(ys[k], os[k])} :: 0 <= k < |os| ==> !Undoes(ys[k], os[k]) {
      forall i, j, id | 0 <= i <= j <= |os|
        ensures FinalFor(ys[i].memory, ys[j].memory, id)
      {
        FinalForward(ys, os, i, j, id);
      }
    } else {
      var k :| 0 <= k < |os| && Undoes(ys[k], os[k]);
      Reachable(ys, os, k);
      assert Linked(ys, os, k);
      var id := UndoneStep(ys[k], os[k]);
      assert !FinalFor(ys[k].memory, ys[k + 1].memory, id);
    }
  }

  predicate BeingLaunched(s: State, id: AttemptId) {
    (s.launch.Admitted? && s.launch.spec.attempt == id) || s.launch == Spawned(id)
  }

  /** No teardown of the attempt that is being launched begins here. */
  predicate Undisturbed(s: State, e: Event) {
    e.BeginTeardown? ==> !BeingLaunched(s, e.id)
  }

  ghost predicate ClosedAt(s: State, id: AttemptId) {
    if id !in s.attempts then id !in s.teardowns else
      var a := s.attempts[id];
      && (Terminal(a) || a.stage.Stopping? ==> NoneStarted(a.actions))
      && (id in s.teardowns ==> a.stage.Stopping?)
      && (BeingLaunched(s, id) ==> a.stage.Launching?)
  }

  lemma ClosedReserve(s: State, spec: Spec, now: int, id: AttemptId)
    requires ClosedAt(s, id) && s.launch == Admitted(spec)
    ensures ClosedAt(Reserving(s, spec, now), id)
  {
  }

  lemma ClosedLaunch(s: State, e: Event, id: AttemptId)
    requires ClosedAt(s, id) && OfLaunch(e)
    ensures ClosedAt(Next(s, e), id)
  {
    if e.Reserve? && s.launch.Admitted? {
      ClosedReserve(s, s.launch.spec, e.now, id);
    }
  }

  lemma ClosedTeardown(s: State, e: Event, id: AttemptId)
    requires Undisturbed(s, e) && ClosedAt(s, id) && OfTeardown(e)
    ensures ClosedAt(Next(s, e), id)
  {
  }

  lemma ClosedAction(s: State, e: Event, id: AttemptId)
    requires ClosedAt(s, id) && !OfLaunch(e) && !OfTeardown(e)
    ensures ClosedAt(Next(s, e), id)
  {
    if e.Settle? && e.id == id && id in s.attempts && e.index < |s.attempts[id].actions| {
      var a := s.attempts[id];
      assert NoneStarted(a.actions) && !e.outcome.Started? ==>
        NoneStarted(a.actions[e.index := a.actions[e.index].(state := e.outcome)]);
    }
  }

  lemma ClosedNext(s: State, e: Event, id: AttemptId)
    requires Undisturbed(s, e) && ClosedAt(s, id)
    ensures ClosedAt(Next(s, e), id) && ClosedAt(Forget(Next(s, e)), id) && ClosedAt(Aborted(s, e), id)
  {
    if OfLaunch(e) {
      ClosedLaunch(s, e, id);
    } else if OfTeardown(e) {
      ClosedTeardown(s, e, id);
    } else {
      ClosedAction(s, e, id);
    }
  }

  ghost predicate Closed(y: System) {
    && (forall id {:trigger ClosedAt(y.memory, id)} :: ClosedAt(y.memory, id))
    && (forall id {:trigger ClosedAt(y.journal, id)} :: ClosedAt(y.journal, id))
  }

  lemma ClosedStep(y: System, o: Occurrence)
    requires Closed(y) && (o.Section? ==> Undisturbed(y.memory, o.e))
    ensures Closed(Step(y, o)) && (o.Section? ==> !Revives(y.memory, o.e))
  {
    var z := Step(y, o);
    forall id
      ensures ClosedAt(z.memory, id) && ClosedAt(z.journal, id)
    {
      assert ClosedAt(y.memory, id) && ClosedAt(y.journal, id);
      if o.Section? {
        ClosedNext(y.memory, o.e, id);
      }
    }
    if y.memory.launch.Admitted? {
      assert ClosedAt(y.memory, y.memory.launch.spec.attempt);
    } else if y.memory.launch.Spawned? {
      assert ClosedAt(y.memory, y.memory.launch.id);
    }
  }

  /** A history in which no teardown of an attempt begins while that attempt is being launched. */
  ghost predicate Calm(ys: seq<System>, os: seq<Occurrence>) {
    |ys| == |os| + 1 && forall k {:trigger os[k]} :: 0 <= k < |os| && os[k].Section? ==>
      Undisturbed(ys[k].memory, os[k].e)
  }

  lemma {:induction false} ClosedHistory(ys: seq<System>, os: seq<Occurrence>, n: nat)
    requires History(ys, os) && Calm(ys, os) && n <= |os|
    ensures Closed(ys[n])
    ensures n < |os| && os[n].Section? ==> !Revives(ys[n].memory, os[n].e)
  {
    if n > 0 {
      ClosedHistory(ys, os, n - 1);
      assert Linked(ys, os, n - 1);
      ClosedStep(ys[n - 1], os[n - 1]);
    }
    if n < |os| {
      ClosedStep(ys[n], os[n]);
    }
  }

  lemma CalmStep(y: System, o: Occurrence, s: State, id: AttemptId)
    requires SystemInv(y) && FinalFor(s, y.journal, id) && FinalFor(s, y.memory, id)
    requires o.Section? ==> !Revives(y.memory, o.e)
    ensures FinalFor(s, Step(y, o).journal, id) && FinalFor(s, Step(y, o).memory, id)
  {
    if !Reloads(y, o) {
      SectionFinal(y, o, id);
      FinalTransitive(s, y.memory, Step(y, o).memory, id);
    }
  }

  /** An end that is in the journal is final, over every crash and every failed save, unless a teardown
      of an attempt begins while it is being launched. */
  lemma {:induction false} SavedEndIsFinal(ys: seq<System>, os: seq<Occurrence>, i: nat, j: nat, id: AttemptId)
    requires History(ys, os) && Calm(ys, os) && i <= j <= |os|
    ensures FinalFor(ys[i].journal, ys[j].journal, id) && FinalFor(ys[i].journal, ys[j].memory, id)
    decreases j
  {
    if i == j {
      Reachable(ys, os, i);
      CalmlyFinal(ys, os, i, id);
    } else {
      SavedEndIsFinal(ys, os, i, j - 1, id);
      Reachable(ys, os, j - 1);
      ClosedHistory(ys, os, j - 1);
      assert Linked(ys, os, j - 1);
      CalmStep(ys[j - 1], os[j - 1], ys[i].journal, id);
    }
  }

  lemma {:induction false} CalmlyFinal(ys: seq<System>, os: seq<Occurrence>, n: nat, id: AttemptId)
    requires History(ys, os) && Calm(ys, os) && n <= |os|
    ensures FinalFor(ys[n].journal, ys[n].journal, id) && FinalFor(ys[n].journal, ys[n].memory, id)
  {
    Reachable(ys, os, n);
    assert AttemptAt(ys[n].journal, id);
    if n > 0 {
      CalmlyFinal(ys, os, n - 1, id);
      Reachable(ys, os, n - 1);
      ClosedHistory(ys, os, n - 1);
      assert Linked(ys, os, n - 1) && AttemptAt(ys[n].memory, id);
      CalmStep(ys[n - 1], os[n - 1], ys[n - 1].journal, id);
    }
  }

  /** With nothing disturbing a launch and every restart finding ends saved, every terminal attempt is
      final from the moment it became terminal, in memory as well; and in any calm history every ended
      attempt, in memory and journal, has its receipt and no action still started. */
  lemma TerminalIsFinal(ys: seq<System>, os: seq<Occurrence>, i: nat, j: nat, id: AttemptId)
    requires History(ys, os) && Calm(ys, os) && i <= j <= |os|
    ensures (forall k {:trigger os[k]} :: 0 <= k < |os| && Reloads(ys[k], os[k]) ==> EndsSaved(ys[k])) ==>
              FinalFor(ys[i].memory, ys[j].memory, id)
    ensures forall s | s == ys[j].memory || s == ys[j].journal ::
      id in s.attempts && Terminal(s.attempts[id]) ==> s.attempts[id].receipt && NoneStarted(s.attempts[id].actions)
  {
    if forall k {:trigger os[k]} :: 0 <= k < |os| && Reloads(ys[k], os[k]) ==> EndsSaved(ys[k]) {
      forall k | 0 <= k < |os|
        ensures !Undoes(ys[k], os[k])
      {
        ClosedHistory(ys, os, k);
      }
      FinalForward(ys, os, i, j, id);
    }
    Reachable(ys, os, j);
    ClosedHistory(ys, os, j);
    assert AttemptAt(ys[j].memory, id) && ClosedAt(ys[j].memory, id);
    assert AttemptAt(ys[j].journal, id) && ClosedAt(ys[j].journal, id);
  }

  // ----------------------------------------------------------------- actions that outlive their attempt

  /** No ended attempt holds an action that is still started. */
  ghost predicate QuietAt(s: State, id: AttemptId) {
    id in s.attempts && Terminal(s.attempts[id]) ==> NoneStarted(s.attempts[id].actions)
  }

  ghost predicate Quiet(s: State) {
    forall id {:trigger QuietAt(s, id)} :: QuietAt(s, id)
  }

  /** A verified end is written over a record that holds a started action: `launch` set it running again
      after its teardown had begun. */
  predicate EndsStarted(y: System, o: Occurrence) {
    && !Reloads(y, o) && o.Section? && o.e.FinishTeardown? && o.e.verified
    && o.e.id in y.memory.teardowns && o.e.id in y.memory.attempts
    && y.memory.attempts[o.e.id].record == y.memory.teardowns[o.e.id]
    && !NoneStarted(y.memory.attempts[o.e.id].actions)
  }

  lemma QuietLaunch(s: State, e: Event, id: AttemptId)
    requires QuietAt(s, id) && OfLaunch(e)
    ensures QuietAt(Next(s, e), id)
  {
  }

  lemma QuietTeardown(s: State, e: Event, id: AttemptId)
    requires QuietAt(s, id) && (e.StopUnknown? || e.BeginTeardown?)
    ensures QuietAt(Next(s, e), id)
  {
  }

  lemma QuietFinish(s: State, ending: AttemptId, verified: bool, id: AttemptId)
    requires QuietAt(s, id)
    requires verified && ending in s.teardowns && ending in s.attempts
             && s.attempts[ending].record == s.teardowns[ending] ==>
               NoneStarted(s.attempts[ending].actions)
    ensures QuietAt(Finishing(s, ending, verified), id)
  {
  }

  lemma QuietAction(s: State, e: Event, id: AttemptId)
    requires QuietAt(s, id) && !OfLaunch(e) && !OfTeardown(e)
    ensures QuietAt(Next(s, e), id)
  {
    if e.Settle? && e.id == id && id in s.attempts && e.index < |s.attempts[id].actions| {
      var a := s.attempts[id];
      assert NoneStarted(a.actions) && !e.outcome.Started? ==>
        NoneStarted(a.actions[e.index := a.actions[e.index].(state := e.outcome)]);
    }
  }

  lemma QuietStep(y: System, o: Occurrence)
    requires Quiet(y.memory) && Quiet(y.journal) && !EndsStarted(y, o)
    ensures Quiet(Step(y, o).memory) && Quiet(Step(y, o).journal)
  {
    var z := Step(y, o);
    forall id
      ensures QuietAt(z.memory, id) && QuietAt(z.journal, id)
    {
      assert QuietAt(y.memory, id) && QuietAt(y.journal, id);
      if o.Section? && !Reloads(y, o) {
        if OfLaunch(o.e) {
          QuietLaunch(y.memory, o.e, id);
        } else if o.e.FinishTeardown? {
          QuietFinish(y.memory, o.e.id, o.e.verified, id);
        } else if OfTeardown(o.e) {
          QuietTeardown(y.memory, o.e, id);
        } else {
          QuietAction(y.memory, o.e, id);
        }
        assert Aborted(y.memory, o.e).attempts == Next(y.memory, o.e).attempts;
      }
    }
  }

  lemma EndedStarted(y: System, o: Occurrence)
    requires EndsStarted(y, o)
    ensures !QuietAt(Step(y, o).memory, o.e.id)
  {
  }

  lemma {:induction false} StaysQuiet(ys: seq<System>, os: seq<Occurrence>, n: nat)
    requires History(ys, os) && n <= |os|
    requires forall k {:trigger EndsStarted(ys[k], os[k])} :: 0 <= k < n ==> !EndsStarted(ys[k], os[k])
    ensures Quiet(ys[n].memory) && Quiet(ys[n].journal)
  {
    if n > 0 {
      StaysQuiet(ys, os, n - 1);
      assert Linked(ys, os, n - 1) && !EndsStarted(ys[n - 1], os[n - 1]);
      QuietStep(ys[n - 1], os[n - 1]);
    }
  }

  /** Exactly when no ended attempt holds a started action at any moment of a history, in memory or in the
      journal: when no verified end was written over one. */
  lemma QuietExactly(ys: seq<System>, os: seq<Occurrence>)
    requires History(ys, os)
    ensures (forall n :: 0 <= n <= |os| ==> Quiet(ys[n].memory) && Quiet(ys[n].journal))
            <==> (forall k {:trigger EndsStarted(ys[k], os[k])} :: 0 <= k < |os| ==> !EndsStarted(ys[k], os[k]))
  {
    if forall k {:trigger EndsStarted(ys[k], os[k])} :: 0 <= k < |os| ==> !EndsStarted(ys[k], os[k]) {
      forall n | 0 <= n <= |os|
        ensures Quiet(ys[n].memory) && Quiet(ys[n].journal)
      {
        StaysQuiet(ys, os, n);
      }
    } else {
      var k :| 0 <= k < |os| && EndsStarted(ys[k], os[k]);
      assert Linked(ys, os, k);
      EndedStarted(ys[k], os[k]);
      assert !Quiet(ys[k + 1].memory);
    }
  }

  lemma Continued(ys: seq<System>, os: seq<Occurrence>, o: Occurrence)
    requires History(ys, os)
    ensures History(ys + [Step(ys[|os|], o)], os + [o])
  {
    var zs, ps := ys + [Step(ys[|os|], o)], os + [o];
    forall n | 0 <= n < |ps|
      ensures Linked(zs, ps, n)
    {
      assert n < |os| ==> Linked(ys, os, n);
    }
  }

  /** A first launch that has reserved its attempt and not completed. */
  lemma MidLaunch() returns (ys: seq<System>, os: seq<Occurrence>, y: System)
    ensures History(ys, os) && ys[|os|] == y && y.serving && y.journal == Forget(y.memory)
    ensures var s := y.memory;
      && s.launch == Spawned(1) && s.teardowns == map[] && s.attempts.Keys == {1}
      && s.runs.Keys == {1} && s.runs[1] == Run(Terms(0, None, None), None, 1, 0, [1])
      && s.attempts[1] == Attempt(0, 1, 1, Launching, true, true, [], LEASE_SECONDS, false, Other, false)
  {
    var admit := Section(Admit(Spec(1, 1, 1, Terms(0, None, None), true), 0), true);
    var reserve := Section(Reserve(0), true);
    Continued([START], [], admit);
    var admitted := Step(START, admit);
    Continued([START] + [admitted], [] + [admit], reserve);
    y := Step(admitted, reserve);
    assert [] + [1] == [1];
    ys, os := [START] + [admitted] + [y], [] + [admit] + [reserve];
  }

  /** A history goes on with one saved section. */
  lemma SavedStep(ys: seq<System>, os: seq<Occurrence>, y: System, e: Event)
    returns (zs: seq<System>, ps: seq<Occurrence>, z: System)
    requires History(ys, os) && ys[|os|] == y && y.serving
    ensures History(zs, ps) && zs[|ps|] == z && z.serving && z.memory == Next(y.memory, e)
    ensures z.journal == Forget(z.memory)
  {
    z := Step(y, Section(e, true));
    Continued(ys, os, Section(e, true));
    zs, ps := ys + [z], os + [Section(e, true)];
  }

  /** In the gap a teardown ends the attempt, and the launch then sets it running. */
  lemma EndedInTheGap(s: State)
    requires s.launch == Spawned(1) && s.teardowns == map[] && 1 in s.attempts && 1 in s.runs
    requires s.attempts[1] == Attempt(0, 1, 1, Launching, true, true, [], LEASE_SECONDS, false, Other, false)
    ensures var t := Next(s, BeginTeardown(1, Other)); var u := Next(t, FinishTeardown(1, true));
      && 1 in t.attempts && t.attempts[1].stage.Stopping?
      && 1 in u.attempts && Terminal(u.attempts[1]) && u.attempts[1].receipt
      && var v := Next(u, CompleteLaunch(0)); 1 in v.attempts && v.attempts[1].stage.Running?
  {
  }

  /** The gap is real: a stop between reservation and completion leaves a signed, terminal attempt, saved,
      that the launch then sets running. */
  lemma StopInTheGap() returns (ys: seq<System>, os: seq<Occurrence>)
    ensures History(ys, os)
    ensures var s := ys[|os|].journal; 1 in s.attempts && Terminal(s.attempts[1]) && s.attempts[1].receipt
    ensures var t := Step(ys[|os|], Section(CompleteLaunch(0), true)).journal;
      1 in t.attempts && t.attempts[1].stage.Running?
  {
    var zs, ps, y := MidLaunch();
    var s, u;
    EndedInTheGap(y.memory);
    zs, ps, s := SavedStep(zs, ps, y, BeginTeardown(1, Other));
    ys, os, u := SavedStep(zs, ps, s, FinishTeardown(1, true));
  }

  /** So is the loss: an end whose save failed is gone after a restart, and is torn down again. */
  lemma LostEnd() returns (ys: seq<System>, os: seq<Occurrence>)
    ensures History(ys, os)
    ensures var s := ys[|os|].memory; 1 in s.attempts && Terminal(s.attempts[1]) && s.attempts[1].receipt
    ensures var t := Step(ys[|os|], Restart).memory; 1 in t.attempts && !Terminal(t.attempts[1])
  {
    var zs, ps, y := MidLaunch();
    var s;
    EndedInTheGap(y.memory);
    zs, ps, s := SavedStep(zs, ps, y, BeginTeardown(1, Other));
    var finish := Section(FinishTeardown(1, true), false);
    Continued(zs, ps, finish);
    ys, os := zs + [Step(s, finish)], ps + [finish];
  }

  lemma FirstOrdinal(s: State, run: Run)
    requires run.attempts == [1] && 1 in s.attempts && s.attempts[1].actions == []
    ensures NextOrdinal(s, run, None) == Some(1)
  {
    assert run.attempts[..0] == [];
    assert Ordinals(s.attempts, []) == [];
    assert Ordinals(s.attempts, run.attempts) == Ordinals(s.attempts, []) + OrdinalsOf(s.attempts, 1);
    assert Numbers(s.attempts[1].actions) == [];
  }

  /** A teardown that begins in the gap does not keep the launch from setting its attempt running. */
  lemma RunningAgain(s: State)
    requires s.launch == Spawned(1) && s.teardowns == map[] && 1 in s.attempts && 1 in s.runs
    requires s.runs[1] == Run(Terms(0, None, None), None, 1, 0, [1])
    requires s.attempts[1] == Attempt(0, 1, 1, Launching, true, true, [], LEASE_SECONDS, false, Other, false)
    ensures var t := Next(Next(s, BeginTeardown(1, Other)), CompleteLaunch(0));
      && t.runs == s.runs && t.teardowns == map[1 := 0] && 1 in t.attempts
      && t.attempts[1] == Attempt(0, 1, 1, Running, true, true, [], LEASE_SECONDS, false, Other, false)
  {
  }

  lemma ActsAndEnds(s: State)
    requires s.teardowns == map[1 := 0] && 1 in s.attempts && 1 in s.runs
    requires s.runs[1] == Run(Terms(0, None, None), None, 1, 0, [1])
    requires s.attempts[1] == Attempt(0, 1, 1, Running, true, true, [], LEASE_SECONDS, false, Other, false)
    ensures var t := Next(Next(s, Act(1, None, 0)), FinishTeardown(1, true));
      && 1 in t.attempts && Terminal(t.attempts[1]) && t.attempts[1].receipt
      && t.attempts[1].actions == [Action(1, Started)]
  {
    FirstOrdinal(s, s.runs[1]);
    assert ReservedOrdinal(s, 1, None, 0) == Some(1);
    assert [] + [Action(1, Started)] == [Action(1, Started)];
    assert Next(s, Act(1, None, 0)) == Acting(s, 1, 1);
  }

  /** And so are actions that outlive their attempt: torn down in the gap, set running, acted once, ended. */
  lemma StartedAtTheEnd() returns (ys: seq<System>, os: seq<Occurrence>)
    ensures History(ys, os)
    ensures var s := ys[|os|].journal;
      && 1 in s.attempts && Terminal(s.attempts[1]) && s.attempts[1].receipt
      && s.attempts[1].actions == [Action(1, Started)]
  {
    var zs, ps, y := MidLaunch();
    var s, t, u, v;
    RunningAgain(y.memory);
    zs, ps, s := SavedStep(zs, ps, y, BeginTeardown(1, Other));
    zs, ps, t := SavedStep(zs, ps, s, CompleteLaunch(0));
    ActsAndEnds(t.memory);
    zs, ps, u := SavedStep(zs, ps, t, Act(1, None, 0));
    ys, os, v := SavedStep(zs, ps, u, FinishTeardown(1, true));
  }

  // ---------------------------------------------------------------------------------- the object

  lemma LargestOfMore(numbers: seq<nat>, n: nat)
    ensures Largest(numbers + [n]) == if n > Largest(numbers) then n else Largest(numbers)
  {
    assert (numbers + [n])[..|numbers|] == numbers;
  }

  lemma OrdinalsUpTo(attempts: map<AttemptId, Attempt>, ids: seq<AttemptId>, i: nat)
    requires i < |ids|
    ensures Ordinals(attempts, ids[..i + 1]) == Ordinals(attempts, ids[..i]) + OrdinalsOf(attempts, ids[i])
  {
    assert ids[..i + 1][..i] == ids[..i];
  }

  /** Halfway through `recover`: only `pending` attempts may still be neither terminal nor stopping. */
  ghost predicate RecoveringFrom(s: State, t: State, pending: set<AttemptId>) {
    && t.attempts.Keys == s.attempts.Keys && t.runs == s.runs && pending <= t.attempts.Keys
    && (forall id :: id in t.teardowns ==> id in t.attempts && t.attempts[id].stage.Stopping?)
    && (forall id :: id in t.attempts && id !in pending ==> Terminal(t.attempts[id]) || t.attempts[id].stage.Stopping?)
    && (forall id :: id in t.attempts ==> Numbers(t.attempts[id].actions) == Numbers(s.attempts[id].actions))
  }

  lemma RecoverRound(s: State, t: State, pending: set<AttemptId>, id: AttemptId)
    requires RecoveringFrom(s, t, pending) && id in pending
    ensures RecoveringFrom(s, TearingDown(t, id, Recovery), pending - {id})
    ensures Terminal(t.attempts[id]) || id in t.teardowns ==> TearingDown(t, id, Recovery) == t
  {
  }

  /** The inner loop of `_action_ordinal`: the largest ordinal so far, with one attempt's actions added. */
  method LargestWith(actions: seq<Action>, largest: nat, ghost seen: seq<nat>) returns (larger: nat)
    requires largest == Largest(seen)
    ensures larger == Largest(seen + Numbers(actions))
  {
    larger := largest;
    assert seen + Numbers(actions)[..0] == seen;
    for j := 0 to |actions|
      invariant larger == Largest(seen + Numbers(actions)[..j])
    {
      LargestOfMore(seen + Numbers(actions)[..j], actions[j].ordinal);
      assert seen + Numbers(actions)[..j + 1] == seen + Numbers(actions)[..j] + [actions[j].ordinal];
      if actions[j].ordinal > larger {
        larger := actions[j].ordinal;
      }
    }
    assert Numbers(actions)[..|actions|] == Numbers(actions);
  }

  /** The loop that marks actions in flight as uncertain. */
  method MarkInFlight(actions: seq<Action>) returns (marked: seq<Action>)
    ensures marked == MarkUncertain(actions)
  {
    marked := actions;
    for i := 0 to |actions|
      invariant |marked| == |actions|
      invariant forall k :: 0 <= k < |actions| ==> marked[k] == if k < i then MarkUncertain(actions)[k] else actions[k]
    {
      if marked[i].state.Started? {
        marked := marked[i := marked[i].(state := Uncertain)];
      }
    }
  }

  /** The verified end of a teardown on the record it holds. */
  method WriteReceipt(attempts: map<AttemptId, Attempt>, id: AttemptId, record: nat)
    returns (ended: map<AttemptId, Attempt>)
    ensures ended == Ended(attempts, id, record)
    ensures id in ended && ended[id].record == record ==> Terminal(ended[id]) && ended[id].receipt
  {
    ended := attempts;
    if id in attempts && attempts[id].record == record {
      var attempt := attempts[id].(receipt := true);
      attempt := attempt.(stage := FinalStage(attempt));
      ended := attempts[id := attempt];
    }
  }

  class Supervisor {
    var state: State // what the process holds
    var journal: State // what it saved last
    var serving: bool

    function Whole(): System
      reads this
    {
      System(state, journal, serving)
    }

    ghost predicate Valid()
      reads this
    {
      SystemInv(Whole())
    }

    constructor ()
      ensures Valid() && Whole() == START
    {
      state, journal, serving := INITIAL, INITIAL, true;
      new;
      StartIsSound();
    }

    /** `_save`: everything but the threads replaces the journal, or the request ends without that. */
    method Save(succeeds: bool)
      modifies this`journal
      ensures journal == if succeeds then Forget(state) else old(journal)
    {
      if succeeds {
        journal := state.(launch := Idle, teardowns := map[]);
      }
    }

    /** The outer loop of `_action_ordinal`. */
    method PreviousOrdinal(run: Run) returns (previous: nat)
      ensures previous == Largest(Ordinals(state.attempts, run.attempts))
    {
      previous := 0;
      for i := 0 to |run.attempts|
        invariant previous == Largest(Ordinals(state.attempts, run.attempts[..i]))
      {
        OrdinalsUpTo(state.attempts, run.attempts, i);
        if run.attempts[i] in state.attempts {
          previous := LargestWith(state.attempts[run.attempts[i]].actions, previous,
                                  Ordinals(state.attempts, run.attempts[..i]));
        } else {
          assert Ordinals(state.attempts, run.attempts[..i]) + [] == Ordinals(state.attempts, run.attempts[..i]);
        }
      }
      assert run.attempts[..|run.attempts|] == run.attempts;
    }

    /** One whole section: memory changes, then `_save`. */
    method Commit(next: State, ghost e: Event, saved: bool)
      requires Valid() && next == Next(state, e) && (saved || !(e.Reserve? || e.BeginTeardown?))
      requires serving || (saved && (e.BeginTeardown? || e.FinishTeardown?))
      modifies this
      ensures Valid() && Whole() == Step(old(Whole()), Section(e, saved))
      ensures state == next && serving == old(serving) && journal == if saved then Forget(next) else old(journal)
    {
      StepKeeps(Whole(), Section(e, saved));
      state := next;
      Save(saved);
    }

    /** A section whose save fails where that changes what the request goes on to do. */
    method Abort(next: State, ghost e: Event)
      requires Valid() && serving && next == Aborted(state, e)
      modifies this`state
      ensures Valid() && Whole() == Step(old(Whole()), Section(e, false)) && state == next
    {
      StepKeeps(Whole(), Section(e, false));
      state := next;
    }

    /** The checks of `action`, and the ordinal it will run under. */
    method NumberAction(id: AttemptId, requested: Option<nat>, now: int) returns (ordinal: Option<nat>)
      ensures ordinal == ReservedOrdinal(state, id, requested, now)
    {
      if !MayAct(state, id, now) {
        return None;
      }
      var run := state.runs[state.attempts[id].run];
      if run.terms.maxActions.Some? && run.actionCount >= run.terms.maxActions.value {
        return None;
      }
      var previous := PreviousOrdinal(run);
      var number := if requested.Some? then requested.value else previous + 1;
      return if number < 1 || number <= previous then None else Some(number);
    }

    /** `action`, reservation section: the action is sent only if its reservation was saved. */
    method ReserveAction(id: AttemptId, requested: Option<nat>, now: int, saved: bool)
      returns (ordinal: Option<nat>, sent: bool)
      requires Valid() && serving
      modifies this
      ensures Valid() && Whole() == Step(old(Whole()), Section(Act(id, requested, now), sent))
      ensures ordinal == ReservedOrdinal(old(state), id, requested, now) && sent == (saved && ordinal.Some?)
      ensures ordinal.Some? ==> id in state.attempts && Action(ordinal.value, Started) in state.attempts[id].actions
      ensures sent ==> id in journal.attempts && Action(ordinal.value, Started) in journal.attempts[id].actions
    {
      ordinal := NumberAction(id, requested, now);
      sent := saved && ordinal.Some?;
      if ordinal.Some? {
        var attempt := state.attempts[id];
        var run := state.runs[attempt.run];
        run := run.(actionCount := run.actionCount + 1);
        attempt := attempt.(actions := attempt.actions + [Action(ordinal.value, Started)]);
        Commit(state.(runs := state.runs[attempt.run := run], attempts := state.attempts[id := attempt]),
               Act(id, requested, now), saved);
      }
    }

    /** `action`, last section: the reply's outcome goes into the record, whatever happened meanwhile. */
    method SettleAction(id: AttemptId, index: nat, outcome: ActionState, answered: bool, now: int, saved: bool)
      requires Valid() && serving && id in state.attempts && state.attempts[id].run in state.runs
      requires index < |state.attempts[id].actions| && !outcome.Started?
      modifies this
      ensures Valid() && Whole() == Step(old(Whole()), Section(Settle(id, index, outcome, answered, now), saved))
      ensures id in state.attempts && state.attempts[id].stage == old(state).attempts[id].stage
      ensures Numbers(state.attempts[id].actions) == Numbers(old(state).attempts[id].actions)
    {
      var attempt := state.attempts[id];
      attempt := attempt.(actions := attempt.actions[index := attempt.actions[index].(state := outcome)]);
      if attempt.stage.Running? && answered {
        attempt := attempt.(lease := NextLease(state.runs[attempt.run], now));
      }
      NumbersKept(state.attempts[id].actions, index, outcome);
      Commit(state.(attempts := state.attempts[id := attempt]), Settle(id, index, outcome, answered, now), saved);
    }

    /** `renew`: never past the run's deadline. */
    method RenewLease(id: AttemptId, now: int, saved: bool) returns (allowed: bool)
      requires Valid() && serving
      modifies this
      ensures Valid() && Whole() == Step(old(Whole()), Section(Renew(id, now), saved && allowed))
      ensures allowed ==>
        && id in state.attempts && state.attempts[id].lease <= now + LEASE_SECONDS
        && state.attempts[id].run in state.runs
        && var deadline := state.runs[state.attempts[id].run].deadline;
        deadline.Some? ==> now < deadline.value && state.attempts[id].lease <= deadline.value
      ensures !allowed ==> Whole() == old(Whole())
    {
      if id !in state.attempts {
        return false;
      }
      var attempt := state.attempts[id];
      if !(attempt.stage.Running? || attempt.stage.Human?) || !Usable(state, attempt, now) {
        return false;
      }
      attempt := attempt.(lease := NextLease(state.runs[attempt.run], now));
      Commit(state.(attempts := state.attempts[id := attempt]), Renew(id, now), saved);
      return true;
    }

    /** `takeover` and the first section of `dashboard_takeover`. */
    method TakeControl(id: AttemptId, now: int, saved: bool) returns (taken: bool)
      requires Valid() && serving
      modifies this
      ensures Valid() && Whole() == Step(old(Whole()), Section(TakeOver(id, now), saved && taken))
      ensures taken <==> MayAct(old(state), id, now)
      ensures taken ==> id in state.attempts && state.attempts[id].stage.Human? && !MayAct(state, id, now)
    {
      taken := MayAct(state, id, now);
      if taken {
        Commit(state.(attempts := state.attempts[id := state.attempts[id].(stage := Human, takenOver := true)]),
               TakeOver(id, now), saved);
      }
    }

    /** `launch`, admission: one launch at a time, no live attempt, and for a known run the same terms, a
        higher fence, time and actions left. A refusal is recorded, so that this attempt can never start. */
    method AdmitLaunch(spec: Spec, now: int, saved: bool) returns (admitted: bool)
      requires Valid() && serving
      modifies this
      ensures Valid() && Whole() == Step(old(Whole()),
                                Section(Admit(spec, now), saved && state.attempts != old(state).attempts))
      ensures admitted <==> old(state).launch.Idle? && state.launch == Admitted(spec)
      ensures admitted ==>
        && (forall id :: !Worker(state, id)) && spec.attempt !in state.attempts
        && (spec.run in state.runs ==>
              state.runs[spec.run].terms == spec.terms && state.runs[spec.run].maxFence < spec.fence)
    {
      if !state.launch.Idle? || spec.fence < 1 || spec.attempt in state.attempts || !NoneLive(state) {
        return false;
      }
      if Acceptable(state, spec, now) {
        Commit(state.(launch := Admitted(spec)), Admit(spec, now), false);
        return true;
      }
      Commit(Recording(state, spec.attempt, spec.run, spec.fence), Admit(spec, now), saved);
      return false;
    }

    /** `stop` of an attempt nobody knows: a record that it was never started, so that it never can be. */
    method Refuse(id: AttemptId, run: RunId, fence: nat, saved: bool)
      requires Valid() && serving
      modifies this
      ensures Valid() && Whole() == Step(old(Whole()),
                                Section(StopUnknown(id, run, fence), saved && id !in old(state).attempts))
      ensures id in state.attempts && forall other :: Worker(state, other) == Worker(old(state), other)
    {
      if id !in state.attempts {
        Commit(state.(attempts := state.attempts[id := NeverLaunched(state, run, fence)], records := state.records + 1),
               StopUnknown(id, run, fence), saved);
      }
    }

    /** `launch`, reservation: durable before anything is started; unless it was saved, the launch ends. */
    method ReserveAttempt(now: int, saved: bool) returns (started: bool)
      requires Valid() && serving && state.launch.Admitted?
      modifies this
      ensures Valid() && Whole() == Step(old(Whole()), Section(Reserve(now), started))
      ensures started ==> saved && state.launch == Spawned(old(state).launch.spec.attempt) && journal == Forget(state)
      ensures !started ==> state.launch.Idle? && journal == old(journal)
    {
      var spec := state.launch.spec;
      var run := RunFor(state, spec, now);
      if run.deadline.Some? && run.deadline.value - now < 1 {
        Abort(state.(launch := Idle), Reserve(now));
        return false;
      }
      var attempt := Attempt(state.records, spec.run, spec.fence, Launching, true, spec.browser, [],
                             now + LEASE_SECONDS, false, Other, false);
      run := run.(maxFence := spec.fence, attempts := run.attempts + [spec.attempt]);
      var next := state.(runs := state.runs[spec.run := run], attempts := state.attempts[spec.attempt := attempt],
                         active := Some(spec.attempt), launch := Spawned(spec.attempt), records := state.records + 1);
      if saved {
        Commit(next, Reserve(now), true);
      } else {
        Abort(next.(launch := Idle), Reserve(now));
      }
      return saved;
    }

    /** `launch`, its last write, which does not look at the state it overwrites. */
    method FinishLaunch(now: int, saved: bool)
      requires Valid() && serving && state.launch.Spawned?
      modifies this
      ensures Valid() && Whole() == Step(old(Whole()), Section(CompleteLaunch(now), saved))
      ensures var id := old(state).launch.id;
        && id in state.attempts && state.attempts[id].stage.Running? && state.launch.Idle?
        && forall other :: Worker(state, other) ==> other == id
    {
      var id := state.launch.id;
      var attempt := state.attempts[id];
      attempt := attempt.(stage := Running);
      attempt := attempt.(lease := NextLease(state.runs[attempt.run], now));
      Commit(state.(attempts := state.attempts[id := attempt], launch := Idle), CompleteLaunch(now), saved);
      assert AttemptAt(state, id) && Worker(state, id);
    }

    /** `_teardown_once`, first section: no more actions, and those in flight become uncertain. The thread
        goes on only with a record that was saved, or was stopping already. */
    method StartTeardown(id: AttemptId, reason: Reason, saved: bool)
      requires Valid() && (serving || saved) && id in state.attempts
               && !Terminal(state.attempts[id]) && id !in state.teardowns
      modifies this
      ensures Valid() && serving == old(serving)
      ensures old(state).attempts[id].stage.Stopping? && serving ==>
        Whole() == Step(old(Whole()), Section(BeginTeardown(id, reason), false)) && journal == old(journal)
      ensures !(old(state).attempts[id].stage.Stopping? && serving) ==>
        Whole() == Step(old(Whole()), Section(BeginTeardown(id, reason), saved))
      ensures saved ==> state == TearingDown(old(state), id, reason)
    {
      var attempt := state.attempts[id];
      if !attempt.stage.Stopping? {
        var actions := MarkInFlight(attempt.actions);
        attempt := attempt.(stage := Stopping, reason := reason, actions := actions);
      }
      var next := state.(attempts := state.attempts[id := attempt], teardowns := state.teardowns[id := attempt.record]);
      if state.attempts[id].stage.Stopping? && serving {
        Abort(next, BeginTeardown(id, reason));
      } else if saved {
        Commit(next, BeginTeardown(id, reason), true);
      } else {
        Abort(next.(teardowns := state.teardowns), BeginTeardown(id, reason));
      }
    }

    /** `_teardown_once`, last section: the record this thread holds becomes terminal, with its receipt. */
    method EndTeardown(id: AttemptId, verified: bool, saved: bool)
      requires Valid() && (serving || saved) && id in state.teardowns
      modifies this
      ensures Valid() && Whole() == Step(old(Whole()), Section(FinishTeardown(id, verified), saved))
      ensures id !in state.teardowns
      ensures verified && id in state.attempts && state.attempts[id].record == old(state).teardowns[id] ==>
        Terminal(state.attempts[id]) && state.attempts[id].receipt && state.active != Some(id)
      ensures !verified ==> state.attempts == old(state).attempts
    {
      var attempts, active := state.attempts, state.active;
      if verified {
        attempts := WriteReceipt(attempts, id, state.teardowns[id]);
        if active == Some(id) {
          active := None;
        }
      }
      Commit(state.(teardowns := state.teardowns - {id}, attempts := attempts, active := active),
             FinishTeardown(id, verified), saved);
    }

    /** A crash and `_load`: memory is what was saved, and nobody is served yet. */
    method Reload()
      requires Valid()
      modifies this
      ensures Valid() && Whole() == Step(old(Whole()), Restart)
      ensures state == journal == old(journal) == Forget(journal) && !serving
    {
      StepKeeps(Whole(), Restart);
      state, serving := journal, false;
    }

    /** `recover`: every attempt that is not terminal is being torn down, nothing is replayed, and only then
        is anybody served. */
    method Recover()
      requires Valid()
      modifies this
      ensures Valid() && serving && AllEnding(state)
      ensures state.attempts.Keys == old(journal).attempts.Keys && state.runs == old(journal).runs
      ensures forall id :: id in state.attempts ==>
        Numbers(state.attempts[id].actions) == Numbers(old(journal).attempts[id].actions)
    {
      Reload();
      var pending := state.attempts.Keys;
      while pending != {}
        invariant Valid() && !serving && RecoveringFrom(old(journal), state, pending)
        decreases pending
      {
        var id :| id in pending;
        RecoverRound(old(journal), state, pending, id);
        if !Terminal(state.attempts[id]) && id !in state.teardowns {
          StartTeardown(id, Recovery, true);
        }
        pending := pending - {id};
      }
      StartServing();
    }

    method StartServing()
      requires Valid() && AllEnding(state)
      modifies this`serving
      ensures Valid() && serving && Whole() == Step(old(Whole()), Serve)
    {
      StepKeeps(Whole(), Serve);
      serving := true;
    }
  }
}
