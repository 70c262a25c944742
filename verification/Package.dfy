/** The crash-safe package transaction of scripts/selected-runtime-package.py.

    One value of type `Disk` is everything that survives a process crash. Every durable
    effect (a `Tree` write or removal, a journal save, one `systemctl` call) is one call of
    `Package.Store`, which may find that the process has already died. `Store` demands the
    invariant of the disk it is about to produce, so a method that verifies keeps the
    invariant at every point where it could be cut off. An environment check that refuses
    (`preserved`, `health`, `unit_check`) ends the process without further effects, so it is
    the same event as a crash at that point. */
module RuntimePackage {
  import opened Prelude

  // `OWNED` in the order of the source: six legacy and seven selected supervisor files,
  // three units, three proxy files, the proxy unit, the broker and its unit, three journals.
  const OWNED: nat := 25
  const FIRST_JOURNAL: nat := 22
  const PRIVATE: nat := 0x180 // 0o600
  const PUBLIC: nat := 0x1a4 // 0o644
  const REVIEW_SECONDS: int := 900

  datatype File = File(data: Bytes, mode: nat)

  datatype Pin = Pin(sha256: Digest, bytes: nat, mode: nat)

  datatype Unit = Broker | Proxy | Supervisor | RenewTimer

  datatype Operation = Install | Update | Recover | Rollback | Commit

  datatype Phase = Prepared | Stopped | Replacing | Applied | Restoring | RolledBack | Committed

  datatype Record = Record(before: Option<Pin>, after: Pin)

  /** Host identity, protected files and the two runtime ledgers; `boot` alone may differ at recovery. */
  datatype Facts = Facts(boot: nat, rest: nat)

  /** The gateway state directory: absent, or present with these entries. */
  type Gateway = Option<set<string>>

  datatype Plan =
    | Change(operation: Operation, facts: Facts, gateway: Gateway, files: seq<Record>)
    | Recovery(operation: Operation, transaction: Transaction, facts: Facts,
                   gateway: Gateway, current: seq<Option<Pin>>)

  datatype PlanDigest = PlanSha256(plan: Plan)

  datatype Transaction = Transaction(
    id: nat, phase: Phase, operation: Operation, plan: PlanDigest, facts: Facts, gateway: Gateway,
    files: seq<Record>, gatewayCreated: bool)

  datatype Receipt = Receipt(operation: Operation, plan: PlanDigest, reviewedAt: int, expiresAt: int, token: nat)

  /** The private directory of one transaction: `old-n` and `new-n` by position in `OWNED`. */
  datatype Generation = Generation(before: map<nat, File>, after: map<nat, File>)

  datatype Disk = Disk(
    files: seq<Option<File>>, generations: map<nat, Generation>, transaction: Option<Transaction>,
    review: Option<Receipt>, gateway: Gateway, running: set<Unit>)

  /** What one look at the outside world shows: clock, host facts and the checkout's candidate bytes. */
  datatype Moment = Moment(now: int, facts: Facts, candidate: seq<Bytes>)

  /** Refused: no service or installed byte was touched. Interrupted: cut off at some later point. */
  datatype Outcome = Done | Refused | Interrupted

  const UNITS: set<Unit> := {Broker, Proxy, Supervisor, RenewTimer}
  const STOP_ORDER: seq<Unit> := [RenewTimer, Supervisor, Proxy, Broker]
  const START_ORDER: seq<Unit> := [Broker, Proxy, Supervisor, RenewTimer]

  function TargetMode(n: nat): nat {
    if n >= FIRST_JOURNAL then PRIVATE else PUBLIC
  }

  /** The files only a selected-browser package has; absent before a first install. */
  predicate SelectedOnly(n: nat) {
    6 <= n < 13 || n == 17 || n == 18
  }

  function PinOf(f: Option<File>): Option<Pin> {
    if f.None? then None else Some(Pin(Sha256(f.value.data), |f.value.data|, f.value.mode))
  }

  function NewPin(n: nat, data: Bytes): Pin {
    Pin(Sha256(data), |data|, TargetMode(n))
  }

  function Pins(files: seq<Option<File>>): (pins: seq<Option<Pin>>)
    ensures |pins| == |files|
    ensures forall n :: 0 <= n < |files| ==> pins[n] == PinOf(files[n])
  {
    seq(|files|, n requires 0 <= n < |files| => PinOf(files[n]))
  }

  predicate Open(d: Disk) {
    d.transaction.Some? && d.transaction.value.phase !in {RolledBack, Committed}
  }

  predicate SameHost(a: Facts, b: Facts) {
    a.rest == b.rest
  }

  /** `ledger_equal`: a directory the package itself created, still empty, counts as absent. */
  predicate LedgerEqual(current: Gateway, previous: Gateway) {
    current == previous || (previous.None? && current == Some({}))
  }

  predicate StagedAs(f: File, pin: Pin) {
    Sha256(f.data) == pin.sha256 && |f.data| == pin.bytes && f.mode == PRIVATE
  }

  predicate StagedOk(generations: map<nat, Generation>, id: nat, records: seq<Record>)
    requires |records| == OWNED
  {
    id in generations &&
    var g := generations[id];
    forall n :: 0 <= n < OWNED ==>
      && (records[n].before.Some? ==> n in g.before && StagedAs(g.before[n], records[n].before.value))
      && n in g.after && StagedAs(g.after[n], records[n].after)
  }

  predicate IsOld(files: seq<Option<File>>, records: seq<Record>, n: nat)
    requires n < |files| && n < |records|
  {
    PinOf(files[n]) == records[n].before
  }

  predicate IsNew(files: seq<Option<File>>, records: seq<Record>, n: nat)
    requires n < |files| && n < |records|
  {
    PinOf(files[n]) == Some(records[n].after)
  }

  predicate AllOld(files: seq<Option<File>>, records: seq<Record>)
    requires |files| == |records| == OWNED
  {
    forall n :: 0 <= n < OWNED ==> IsOld(files, records, n)
  }

  predicate AllNew(files: seq<Option<File>>, records: seq<Record>)
    requires |files| == |records| == OWNED
  {
    forall n :: 0 <= n < OWNED ==> IsNew(files, records, n)
  }

  predicate OldOrNew(files: seq<Option<File>>, records: seq<Record>)
    requires |files| == |records| == OWNED
  {
    forall n :: 0 <= n < OWNED ==> IsOld(files, records, n) || IsNew(files, records, n)
  }

  /** `verify_transaction`: staged bytes match the journal, installed bytes are recognised. */
  predicate Verified(d: Disk, t: Transaction, requireNew: bool)
    requires |d.files| == |t.files| == OWNED
  {
    StagedOk(d.generations, t.id, t.files) &&
    if requireNew then AllNew(d.files, t.files) else OldOrNew(d.files, t.files)
  }

  /** `installed`: modes, and which files may be absent before the operation. */
  predicate Installed(operation: Operation, files: seq<Option<File>>)
    requires |files| == OWNED
  {
    forall n :: 0 <= n < OWNED ==>
      if operation.Install? && SelectedOnly(n) then files[n].None?
      else files[n].Some? && files[n].value.mode == TargetMode(n)
  }

  predicate PhaseAdmits(operation: Operation, phase: Phase) {
    match operation
    case Commit => phase == Applied
    case Recover => phase in {Prepared, Stopped, Replacing, Restoring}
    case Rollback => phase in {Applied, Committed}
    case _ => false
  }

  function Records(files: seq<Option<File>>, candidate: seq<Bytes>): (records: seq<Record>)
    requires |files| == |candidate| == OWNED
    ensures |records| == OWNED
    ensures forall n :: 0 <= n < OWNED ==> records[n] == Record(PinOf(files[n]), NewPin(n, candidate[n]))
  {
    seq(OWNED, n requires 0 <= n < OWNED => Record(PinOf(files[n]), NewPin(n, candidate[n])))
  }

  /** `snapshot`: the plan an operation would run now, or a refusal. */
  function Snapshot(d: Disk, operation: Operation, m: Moment): (plan: Option<Plan>)
    requires |d.files| == OWNED
  {
    if operation.Install? || operation.Update? then
      if Installed(operation, d.files) && !Open(d) && d.running == UNITS && |m.candidate| == OWNED then
        Some(Change(operation, m.facts, d.gateway, Records(d.files, m.candidate)))
      else None
    else if d.transaction.None? then None
    else
      var t := d.transaction.value;
      if && |t.files| == OWNED && SameHost(m.facts, t.facts) && LedgerEqual(d.gateway, t.gateway)
         && PhaseAdmits(operation, t.phase) && Verified(d, t, operation.Commit?)
      then Some(Recovery(operation, t, m.facts, d.gateway, Pins(d.files)))
      else None
  }

  /** `reviewed`: a fresh receipt for exactly this operation, and a plan that has not drifted. */
  predicate Reviewed(d: Disk, operation: Operation, expected: PlanDigest, m: Moment)
    requires |d.files| == OWNED
  {
    && d.review.Some?
    && var r := d.review.value;
    && r.operation == operation && r.plan == expected
    && r.reviewedAt <= m.now < r.expiresAt <= r.reviewedAt + REVIEW_SECONDS
    && Snapshot(d, operation, m) == Some(expected.plan)
  }

  // ---------------------------------------------------------------- what every state keeps

  /** What the journal's phase says about installed bytes and services. Once a transaction is
      closed, other owners may write the paths again, so nothing is claimed. */
  ghost predicate PhaseOk(d: Disk, t: Transaction)
    requires |d.files| == |t.files| == OWNED
  {
    match t.phase
    case Prepared => AllOld(d.files, t.files)
    case Stopped => AllOld(d.files, t.files) && d.running == {}
    case Replacing => OldOrNew(d.files, t.files) && (d.running != {} ==> AllNew(d.files, t.files))
    case Applied => AllNew(d.files, t.files)
    case Restoring => OldOrNew(d.files, t.files) && (d.running != {} ==> AllOld(d.files, t.files))
    case RolledBack => true
    case Committed => true
  }

  ghost predicate TransactionOk(d: Disk, t: Transaction)
    requires |d.files| == OWNED
  {
    && |t.files| == OWNED
    && (forall n :: 0 <= n < OWNED ==>
          && t.files[n].after.mode == TargetMode(n)
          && (t.files[n].before.Some? ==> t.files[n].before.value.mode == TargetMode(n)))
    && (t.gatewayCreated <==> t.gateway.None?)
    && StagedOk(d.generations, t.id, t.files)
    && PhaseOk(d, t)
  }

  /** The installed bytes seen by one service start, or when a journal was closed. */
  datatype Sighting = Sighting(transaction: Transaction, pins: seq<Option<Pin>>) {
    predicate Old() {
      |pins| == |transaction.files| && forall n :: 0 <= n < |pins| ==> pins[n] == transaction.files[n].before
    }
    predicate New() {
      |pins| == |transaction.files| && forall n :: 0 <= n < |pins| ==> pins[n] == Some(transaction.files[n].after)
    }
  }

  /** Everything that ever happened, kept for stating properties of whole runs: receipts under
      which a transaction was opened, receipts under which services were touched, the image under
      every unit start, and the image at every rollback or commit. */
  datatype History = History(authorised: seq<nat>, served: seq<nat>, starts: seq<Sighting>, closed: seq<Sighting>)

  ghost predicate Extends(h: History, later: History) {
    h.authorised <= later.authorised && h.served <= later.served && h.starts <= later.starts && h.closed <= later.closed
  }

  ghost predicate HistoryOk(h: History, names: nat) {
    && Distinct(h.authorised) && (forall k :: k in h.authorised ==> k < names)
    && Distinct(h.served) && (forall k :: k in h.served ==> k < names)
    && (forall s :: s in h.starts ==> s.Old() || s.New())
    && (forall s :: s in h.closed ==>
          || (s.transaction.phase == Committed && s.New())
          || (s.transaction.phase == RolledBack && s.Old()))
  }

  ghost predicate ReviewOk(d: Disk, names: nat, h: History) {
    d.review.Some? ==>
      var r := d.review.value;
      && r.token < names
      && r.token !in h.served
      && (r.token in h.authorised ==>
            && (r.operation.Install? || r.operation.Update?)
            && d.transaction.Some? && d.transaction.value.phase == Prepared)
  }

  ghost predicate Inv(d: Disk, names: nat, h: History) {
    && |d.files| == OWNED
    && (forall id :: id in d.generations ==> id < names)
    && ReviewOk(d, names, h)
    && HistoryOk(h, names)
    && (d.transaction.Some? ==> TransactionOk(d, d.transaction.value))
  }

  /** The host and the gateway directory are as the journal of the open transaction recorded them. */
  predicate Undrifted(d: Disk, facts: Facts) {
    d.transaction.Some? && SameHost(facts, d.transaction.value.facts)
    && LedgerEqual(d.gateway, d.transaction.value.gateway)
  }

  /** While a transaction is open, recovery's own check accepts whatever a crash left behind. */
  lemma RecoveryAccepts(d: Disk, names: nat, h: History, m: Moment)
    requires Inv(d, names, h) && Open(d)
    ensures Snapshot(d, OperationFor(d.transaction.value.phase), m).Some? <==> Undrifted(d, m.facts)
    ensures d.running != {} ==> AllOld(d.files, d.transaction.value.files) || AllNew(d.files, d.transaction.value.files)
  {
  }

  /** Exactly when an open transaction can be closed by any command: when neither host nor gateway has
      drifted from its journal. A drift shuts out recovery, rollback and commit alike, and a new apply. */
  lemma SomeCommandAccepts(d: Disk, names: nat, h: History, m: Moment)
    requires Inv(d, names, h) && Open(d)
    ensures (exists operation :: Snapshot(d, operation, m).Some?) <==> Undrifted(d, m.facts)
  {
    RecoveryAccepts(d, names, h, m);
  }

  function OperationFor(phase: Phase): Operation {
    if phase == Applied || phase == Committed then Rollback else Recover
  }

  lemma NoUnit(running: set<Unit>)
    requires forall k :: 0 <= k < |STOP_ORDER| ==> STOP_ORDER[k] !in running
    ensures running == {}
  {
    if u :| u in running {
      assert u == STOP_ORDER[0] || u == STOP_ORDER[1] || u == STOP_ORDER[2] || u == STOP_ORDER[3];
    }
  }

  lemma EveryUnit(running: set<Unit>)
    requires forall k :: 0 <= k < |START_ORDER| ==> START_ORDER[k] in running
    ensures running == UNITS
  {
    forall u | u in running + UNITS
      ensures u in running && u in UNITS
    {
      assert u == START_ORDER[0] || u == START_ORDER[1] || u == START_ORDER[2] || u == START_ORDER[3];
    }
  }

  /** Writing one path leaves every other path as it was. */
  lemma OthersKept(files: seq<Option<File>>, written: seq<Option<File>>, records: seq<Record>, n: nat)
    requires |files| == |written| == |records| == OWNED && n < OWNED && written == files[n := written[n]]
    ensures forall k :: 0 <= k < OWNED && k != n ==> IsOld(written, records, k) == IsOld(files, records, k)
    ensures forall k :: 0 <= k < OWNED && k != n ==> IsNew(written, records, k) == IsNew(files, records, k)
  {
  }

  /** Staging under an id that is not the journal's own disturbs nothing. */
  lemma StagingKeeps(d: Disk, names: nat, h: History, id: nat, g: Generation)
    requires Inv(d, names, h) && id < names
    requires d.transaction.Some? ==> d.transaction.value.id != id
    ensures Inv(d.(generations := d.generations[id := g]), names, h)
  {
  }

  /** The staged generation after the first `upTo` rounds of the staging loop. */
  ghost predicate Staged(g: Generation, plan: Plan, candidate: seq<Bytes>, seen: seq<Option<File>>, upTo: nat)
    requires plan.Change? && |plan.files| == |candidate| == |seen| == OWNED && upTo <= OWNED
  {
    forall n :: 0 <= n < upTo ==>
      && (plan.files[n].before.Some? ==>
            n in g.before && seen[n].Some? && g.before[n] == File(seen[n].value.data, PRIVATE))
      && n in g.after && g.after[n] == File(candidate[n], PRIVATE)
  }

  lemma StagedRound(g: Generation, next: Generation, plan: Plan, candidate: seq<Bytes>, seen: seq<Option<File>>, n: nat)
    requires plan.Change? && |plan.files| == |candidate| == |seen| == OWNED && n < OWNED
    requires Staged(g, plan, candidate, seen, n)
    requires plan.files[n].before.Some? ==>
                 seen[n].Some? && next.before == g.before[n := File(seen[n].value.data, PRIVATE)]
    requires plan.files[n].before.None? ==> next.before == g.before
    requires next.after == g.after[n := File(candidate[n], PRIVATE)]
    ensures Staged(next, plan, candidate, seen, n + 1)
  {
  }

  /** A start over a uniform image, and a closure over the image its phase names, keep the history. */
  lemma SightingKeeps(h: History, names: nat, files: seq<Option<File>>, t: Transaction)
    requires HistoryOk(h, names) && |files| == |t.files| == OWNED
    ensures AllOld(files, t.files) || AllNew(files, t.files) ==>
              HistoryOk(h.(starts := h.starts + [Sighting(t, Pins(files))]), names)
    ensures (t.phase == RolledBack && AllOld(files, t.files)) || (t.phase == Committed && AllNew(files, t.files)) ==>
              HistoryOk(h.(closed := h.closed + [Sighting(t, Pins(files))]), names)
  {
    var s := Sighting(t, Pins(files));
    assert AllOld(files, t.files) ==> s.Old() by {
      assert forall n :: 0 <= n < OWNED && IsOld(files, t.files, n) ==> s.pins[n] == t.files[n].before;
    }
    assert AllNew(files, t.files) ==> s.New() by {
      assert forall n :: 0 <= n < OWNED && IsNew(files, t.files, n) ==> s.pins[n] == Some(t.files[n].after);
    }
  }

  /** After the second review and the staged-byte check, saving the journal is safe: the plan the
      receipt names records exactly the bytes installed now. */
  lemma OpeningKeeps(d: Disk, names: nat, h: History, t: Transaction, m: Moment)
    requires Inv(d, names, h) && d.review.Some? && !Open(d)
    requires var r := d.review.value;
      && (r.operation.Install? || r.operation.Update?) && Reviewed(d, r.operation, t.plan, m)
      && t == Transaction(t.id, Prepared, r.operation, r.plan, r.plan.plan.facts, r.plan.plan.gateway,
                          r.plan.plan.files, r.plan.plan.gateway.None?)
    requires Verified(d, t, false)
    ensures Inv(d.(transaction := Some(t)), names, h.(authorised := h.authorised + [d.review.value.token]))
    ensures d.review.value.token !in h.authorised
  {
    assert t.files == Records(d.files, m.candidate);
    assert forall n :: 0 <= n < OWNED ==> IsOld(d.files, t.files, n);
  }

  // ------------------------------------------------------------------------- the operations

  /** What may happen: the four commands, and the rest of the host. */
  datatype Event =
    | ReviewPlan(operation: Operation, expected: PlanDigest, m: Moment)
    | ApplyPlan(expected: PlanDigest, first: Moment, seen: seq<Option<File>>, during: seq<Option<File>>,
                second: Moment, later: Facts)
    | RestorePlan(operation: Operation, expected: PlanDigest, m: Moment)
    | CommitPlan(expected: PlanDigest, m: Moment)
    | OtherWriter(files: seq<Option<File>>)
    | GatewayWrites(entries: set<string>)
    | OperatorStarts(unit: Unit)

  class Package {
    var disk: Disk
    var names: nat // fresh names: review tokens and transaction ids below this are taken
    var power: Option<nat> // durable effects left before the process dies; None never dies
    ghost var history: History

    ghost predicate Valid()
      reads this
    {
      Inv(disk, names, history)
    }

    constructor (files: seq<Option<File>>, gateway: Gateway, running: set<Unit>)
      requires |files| == OWNED
      ensures Valid() && names == 0 && history == History([], [], [], []) && power.None?
      ensures disk == Disk(files, map[], None, None, gateway, running)
    {
      disk := Disk(files, map[], None, None, gateway, running);
      names, power := 0, None;
      history := History([], [], [], []);
    }

    /** One durable effect, unless the process is already dead. */
    method Store(next: Disk, ghost past: History) returns (alive: bool)
      requires Valid() && Inv(next, names, past) && Extends(history, past)
      modifies this`disk, this`power, this`history
      ensures Valid()
      ensures alive <==> old(power) != Some(0)
      ensures disk == if alive then next else old(disk)
      ensures history == if alive then past else old(history)
      ensures power == if old(power).Some? && alive then Some(old(power).value - 1) else old(power)
    {
      if power == Some(0) {
        return false;
      }
      if power.Some? {
        power := Some(power.value - 1);
      }
      disk := next;
      history := past;
      return true;
    }

    /** The loop of `verify_transaction`, which also measures the installed pins. */
    method VerifyTransaction(t: Transaction, requireNew: bool) returns (ok: bool, current: seq<Option<Pin>>)
      requires |disk.files| == |t.files| == OWNED
      ensures ok <==> Verified(disk, t, requireNew)
      ensures ok ==> current == Pins(disk.files)
    {
      current := [];
      if t.id !in disk.generations {
        return false, current;
      }
      var g := disk.generations[t.id];
      for n := 0 to OWNED
        invariant |current| == n && forall k :: 0 <= k < n ==> current[k] == PinOf(disk.files[k])
        invariant forall k :: 0 <= k < n ==>
          && (t.files[k].before.Some? ==> k in g.before && StagedAs(g.before[k], t.files[k].before.value))
          && k in g.after && StagedAs(g.after[k], t.files[k].after)
          && (IsNew(disk.files, t.files, k) || (!requireNew && IsOld(disk.files, t.files, k)))
      {
        var record := t.files[n];
        if record.before.Some? && (n !in g.before || !StagedAs(g.before[n], record.before.value)) {
          return false, current;
        }
        if n !in g.after || !StagedAs(g.after[n], record.after) {
          return false, current;
        }
        var pin := PinOf(disk.files[n]);
        if pin != Some(record.after) && (requireNew || pin != record.before) {
          assert !IsNew(disk.files, t.files, n);
          return false, current;
        }
        current := current + [pin];
      }
      return true, current;
    }

    /** `stop`, one unit at a time; the first call is the receipt's service effect. */
    method StopServices(ghost token: nat) returns (alive: bool)
      requires Valid() && disk.review.None? && token < names && token !in history.served
      modifies this`disk, this`power, this`history
      ensures Valid()
      ensures disk == old(disk).(running := disk.running)
      ensures alive ==> disk.running == {}
      ensures history == old(history) || history == old(history).(served := old(history.served) + [token])
      ensures alive || disk.running != old(disk.running) ==> history.served == old(history.served) + [token]
      ensures old(power).None? ==> alive && power.None?
    {
      for i := 0 to |STOP_ORDER|
        invariant Valid() && disk.review.None?
        invariant disk == old(disk).(running := disk.running) && (i == 0 ==> disk == old(disk))
        invariant forall k :: 0 <= k < i ==> STOP_ORDER[k] !in disk.running
        invariant history == if i == 0 then old(history) else old(history).(served := old(history.served) + [token])
        invariant old(power).None? ==> power.None?
      {
        alive := Store(disk.(running := disk.running - {STOP_ORDER[i]}),
                       if i == 0 then history.(served := history.served + [token]) else history);
        if !alive {
          return;
        }
      }
      alive := true;
      NoUnit(disk.running);
    }

    /** `start`: every unit is started over an image that is entirely old or entirely new. */
    method StartServices(t: Transaction) returns (alive: bool)
      requires Valid() && disk.transaction == Some(t)
      requires || (t.phase == Replacing && AllNew(disk.files, t.files))
               || (t.phase == Restoring && AllOld(disk.files, t.files))
      modifies this`disk, this`power, this`history
      ensures Valid()
      ensures disk == old(disk).(running := disk.running)
      ensures alive ==> disk.running == UNITS
      ensures history == old(history).(starts := history.starts) && Extends(old(history), history)
      ensures alive || disk.running != old(disk.running) ==> history.starts != old(history.starts)
      ensures old(power).None? ==> alive && power.None?
    {
      ghost var sighting := Sighting(t, Pins(disk.files));
      for i := 0 to |START_ORDER|
        invariant Valid()
        invariant disk == old(disk).(running := disk.running) && (i == 0 ==> disk == old(disk))
        invariant forall k :: 0 <= k < i ==> START_ORDER[k] in disk.running
        invariant history == old(history).(starts := history.starts) && Extends(old(history), history)
        invariant i > 0 ==> history.starts != old(history.starts)
        invariant old(power).None? ==> power.None?
      {
        SightingKeeps(history, names, disk.files, t);
        alive := Store(disk.(running := disk.running + {START_ORDER[i]}),
                       history.(starts := history.starts + [sighting]));
        if !alive {
          return;
        }
      }
      alive := true;
      EveryUnit(disk.running);
    }

    /** `review`: a fresh receipt for the plan as it stands, replacing any earlier receipt. */
    method Review(operation: Operation, expected: PlanDigest, m: Moment) returns (outcome: Outcome)
      requires Valid()
      modifies this
      ensures Valid()
      ensures outcome.Refused? <==> Snapshot(old(disk), operation, m) != Some(expected.plan)
      ensures !outcome.Done? ==> disk == old(disk)
      ensures outcome.Done? ==>
        && disk == old(disk).(review := Some(Receipt(operation, expected, m.now, m.now + REVIEW_SECONDS, old(names))))
        && names == old(names) + 1
      ensures history == old(history)
      ensures old(power).None? ==> !outcome.Interrupted? && power.None?
    {
      if Snapshot(disk, operation, m) != Some(expected.plan) {
        return Refused;
      }
      var token := names;
      names := names + 1;
      var alive := Store(disk.(review := Some(Receipt(operation, expected, m.now, m.now + REVIEW_SECONDS, token))),
                              history);
      return if alive then Done else Interrupted;
    }

    /** One staged file more, in a generation that no transaction refers to. */
    method StoreGeneration(id: nat, g: Generation) returns (alive: bool)
      requires Valid() && id < names && (disk.transaction.Some? ==> disk.transaction.value.id != id)
      modifies this`disk, this`power, this`history
      ensures Valid() && history == old(history)
      ensures alive <==> old(power) != Some(0)
      ensures disk == if alive then old(disk).(generations := old(disk).generations[id := g]) else old(disk)
      ensures old(power).None? ==> power.None?
    {
      StagingKeeps(disk, names, history, id, g);
      alive := Store(disk.(generations := disk.generations[id := g]), history);
    }

    /** The first half of `apply`: stage both generations under a fresh id. Another owner may
        change installed files meanwhile: `seen[n]` is what the staging read of path n returned. */
    method Stage(plan: Plan, candidate: seq<Bytes>, seen: seq<Option<File>>) returns (outcome: Outcome, id: nat)
      requires Valid() && plan.Change? && |plan.files| == |candidate| == |seen| == OWNED
      modifies this
      ensures Valid()
      ensures disk == old(disk).(generations := disk.generations) && history == old(history)
      ensures id == old(names) && names == id + 1
      ensures outcome.Done? ==> id in disk.generations && Staged(disk.generations[id], plan, candidate, seen, OWNED)
      ensures old(power).None? ==> power.None? && !outcome.Interrupted?
      ensures (forall n :: 0 <= n < OWNED && plan.files[n].before.Some? ==> seen[n].Some?) ==> !outcome.Refused?
    {
      id := names;
      names := names + 1;
      var g := Generation(map[], map[]);
      var alive := StoreGeneration(id, g);
      if !alive {
        return Interrupted, id;
      }
      for n := 0 to OWNED
        invariant Valid() && names == id + 1 && history == old(history)
        invariant disk == old(disk).(generations := disk.generations)
        invariant id in disk.generations && disk.generations[id] == g
        invariant disk.transaction.Some? ==> disk.transaction.value.id != id
        invariant Staged(g, plan, candidate, seen, n)
        invariant old(power).None? ==> power.None?
      {
        ghost var before := g;
        if plan.files[n].before.Some? {
          if seen[n].None? {
            return Refused, id;
          }
          g := g.(before := g.before[n := File(seen[n].value.data, PRIVATE)]);
          alive := StoreGeneration(id, g);
          if !alive {
            return Interrupted, id;
          }
        }
        g := g.(after := g.after[n := File(candidate[n], PRIVATE)]);
        StagedRound(before, g, plan, candidate, seen, n);
        alive := StoreGeneration(id, g);
        if !alive {
          return Interrupted, id;
        }
      }
      return Done, id;
    }

    /** The replacement loop of `apply`, reading the staged new generation. */
    method ReplaceAll(t: Transaction) returns (alive: bool)
      requires Valid() && disk.transaction == Some(t) && t.phase == Replacing
      requires AllOld(disk.files, t.files) && disk.running == {}
      modifies this`disk, this`power, this`history
      ensures Valid()
      ensures disk == old(disk).(files := disk.files) && history == old(history)
      ensures alive ==> AllNew(disk.files, t.files)
      ensures old(power).None? ==> alive && power.None?
    {
      for n := 0 to OWNED
        invariant Valid() && history == old(history)
        invariant disk == old(disk).(files := disk.files)
        invariant forall k :: 0 <= k < n ==> IsNew(disk.files, t.files, k)
        invariant forall k :: n <= k < OWNED ==> IsOld(disk.files, t.files, k)
        invariant old(power).None? ==> power.None?
      {
        var data := disk.generations[t.id].after[n].data;
        var files := disk.files[n := Some(File(data, t.files[n].after.mode))];
        assert IsNew(files, t.files, n);
        OthersKept(disk.files, files, t.files, n);
        alive := Store(disk.(files := files), history);
        if !alive {
          return;
        }
      }
      alive := true;
    }

    /** The restoring loop of `restore`: a file that did not exist before is removed again. */
    method RestoreAll(t: Transaction) returns (alive: bool)
      requires Valid() && disk.transaction == Some(t) && t.phase == Restoring && disk.running == {}
      modifies this`disk, this`power, this`history
      ensures Valid()
      ensures disk == old(disk).(files := disk.files) && history == old(history)
      ensures alive ==> AllOld(disk.files, t.files)
      ensures old(power).None? ==> alive && power.None?
    {
      for n := 0 to OWNED
        invariant Valid() && history == old(history)
        invariant disk == old(disk).(files := disk.files)
        invariant forall k :: 0 <= k < n ==> IsOld(disk.files, t.files, k)
        invariant old(power).None? ==> power.None?
      {
        var files := disk.files;
        if t.files[n].before.None? {
          if disk.files[n].Some? {
            files := disk.files[n := None];
          }
        } else {
          files := disk.files[n := Some(File(disk.generations[t.id].before[n].data, t.files[n].before.value.mode))];
        }
        assert IsOld(files, t.files, n);
        OthersKept(disk.files, files, t.files, n);
        if files != disk.files || t.files[n].before.Some? {
          alive := Store(disk.(files := files), history);
          if !alive {
            return;
          }
        }
      }
      alive := true;
    }

    /** `apply` before its journal exists: review, stage, review again, verify the staged bytes.
        `during` is what the installed paths hold at the second look: until the journal is saved
        another owner may still write them. */
    method Prepare(expected: PlanDigest, first: Moment, seen: seq<Option<File>>,
                   during: seq<Option<File>>, second: Moment)
      returns (ok: bool, t: Transaction)
      requires Valid() && |seen| == |during| == OWNED
      modifies this
      ensures Valid() && history == old(history)
      ensures disk == old(disk).(files := disk.files, generations := disk.generations)
      ensures Open(old(disk)) ==> !ok && disk == old(disk)
      ensures ok ==>
        && disk.review.Some? && !Open(disk) && disk.running == UNITS
        && t.plan == expected && t.phase == Prepared && |t.files| == OWNED
        && disk.review.value.token !in history.authorised
        && Inv(disk.(transaction := Some(t)), names,
               history.(authorised := history.authorised + [disk.review.value.token]))
      ensures && old(power).None? && first == second && seen == during == old(disk.files)
              && old(disk.review).Some? && old(disk.review).value.operation in {Install, Update}
              && Reviewed(old(disk), old(disk.review).value.operation, expected, first) ==>
              ok && t.facts == first.facts && t.gateway == disk.gateway
      ensures old(power).None? ==> power.None?
    {
      ok, t := false, Transaction(0, Prepared, Install, expected, first.facts, None, [], false);
      if disk.review.None? || disk.review.value.operation !in {Install, Update} {
        return;
      }
      var operation := disk.review.value.operation;
      if !Reviewed(disk, operation, expected, first) {
        return;
      }
      var plan := expected.plan;
      var staged, id := Stage(plan, first.candidate, seen);
      disk := disk.(files := during);
      if !staged.Done? {
        return;
      }
      t := Transaction(id, Prepared, operation, expected, plan.facts, plan.gateway, plan.files, plan.gateway.None?);
      if !Reviewed(disk, operation, expected, second) {
        return;
      }
      var current;
      ok, current := VerifyTransaction(t, false);
      if ok {
        OpeningKeeps(disk, names, history, t, second);
      }
    }

    /** `apply` up to its first service effect: save the journal, then spend the receipt. */
    method OpenTransaction(expected: PlanDigest, first: Moment, seen: seq<Option<File>>,
                           during: seq<Option<File>>, second: Moment)
      returns (outcome: Outcome, t: Transaction)
      requires Valid() && |seen| == |during| == OWNED
      modifies this
      ensures Valid() && Extends(old(history), history)
      ensures outcome.Refused? ==> disk == old(disk).(files := disk.files, generations := disk.generations)
      ensures Open(old(disk)) ==> outcome.Refused? && disk == old(disk)
      ensures outcome.Done? ==>
        && old(disk.review).Some?
        && history == old(history).(authorised := old(history.authorised) + [old(disk.review).value.token])
        && old(disk.review).value.token < names && old(disk.review).value.token !in history.served
        && disk.review.None? && disk.transaction == Some(t) && t.phase == Prepared && t.plan == expected
        && |t.files| == OWNED && disk.running == UNITS
      ensures && old(power).None? && first == second && seen == during == old(disk.files)
              && old(disk.review).Some? && old(disk.review).value.operation in {Install, Update}
              && Reviewed(old(disk), old(disk.review).value.operation, expected, first) ==>
              outcome.Done? && t.facts == first.facts && t.gateway == disk.gateway
      ensures old(power).None? ==> power.None?
    {
      var ok;
      ok, t := Prepare(expected, first, seen, during, second);
      if !ok {
        return Refused, t;
      }
      var alive := Store(disk.(transaction := Some(t)),
                         history.(authorised := history.authorised + [disk.review.value.token]));
      if !alive {
        return Refused, t;
      }
      alive := Store(disk.(review := None), history);
      return if alive then Done else Interrupted, t;
    }

    /** `apply` from its first service effect to the journal's `replacing`; `later` is the host as
        `preserved` finds it. */
    method StopForReplacement(t: Transaction, ghost token: nat, later: Facts) returns (alive: bool)
      requires Valid() && disk.transaction == Some(t) && t.phase == Prepared && disk.review.None?
      requires token < names && token !in history.served
      modifies this`disk, this`power, this`history
      ensures Valid() && Extends(old(history), history)
      ensures disk.transaction.Some? && disk.transaction == Some(t.(phase := disk.transaction.value.phase))
      ensures disk.files == old(disk.files) && disk.generations == old(disk.generations) && disk.review.None?
      ensures alive ==>
        && disk.transaction.value.phase == Replacing && disk.running == {}
        && disk.gateway == if t.gatewayCreated && old(disk.gateway).None? then Some({}) else old(disk.gateway)
      ensures old(power).None? ==> power.None?
      ensures old(power).None? && SameHost(later, t.facts) && LedgerEqual(old(disk.gateway), t.gateway) ==> alive
    {
      alive := StopServices(token);
      if !alive {
        return;
      }
      if !SameHost(later, t.facts) || !LedgerEqual(disk.gateway, t.gateway) {
        return false;
      }
      alive := Store(disk.(transaction := Some(t.(phase := Stopped))), history);
      if !alive {
        return;
      }
      if t.gatewayCreated && disk.gateway.None? {
        alive := Store(disk.(gateway := Some({})), history);
        if !alive {
          return;
        }
      }
      alive := Store(disk.(transaction := Some(t.(phase := Replacing))), history);
    }

    /** `apply` from its first service effect on. */
    method Replace(t: Transaction, ghost token: nat, later: Facts) returns (alive: bool)
      requires Valid() && disk.transaction == Some(t) && t.phase == Prepared && disk.review.None?
      requires token < names && token !in history.served
      modifies this`disk, this`power, this`history
      ensures Valid() && Extends(old(history), history)
      ensures disk.transaction.Some? && disk.transaction == Some(t.(phase := disk.transaction.value.phase))
      ensures disk.generations == old(disk.generations) && disk.review.None?
      ensures alive ==>
        && disk.transaction.value.phase == Applied && AllNew(disk.files, t.files) && disk.running == UNITS
        && disk.gateway == if t.gatewayCreated && old(disk.gateway).None? then Some({}) else old(disk.gateway)
      ensures old(power).None? && SameHost(later, t.facts) && LedgerEqual(old(disk.gateway), t.gateway) ==> alive
    {
      alive := StopForReplacement(t, token, later);
      if !alive {
        return;
      }
      var replacing := t.(phase := Replacing);
      alive := ReplaceAll(replacing);
      if !alive {
        return;
      }
      alive := StartServices(replacing);
      if !alive {
        return;
      }
      alive := Store(disk.(transaction := Some(t.(phase := Applied))), history);
    }

    /** `apply`. */
    method Apply(expected: PlanDigest, first: Moment, seen: seq<Option<File>>, during: seq<Option<File>>,
                 second: Moment, later: Facts)
      returns (outcome: Outcome)
      requires Valid() && |seen| == |during| == OWNED
      modifies this
      ensures Valid() && Extends(old(history), history)
      ensures Open(old(disk)) ==> outcome.Refused? && disk == old(disk)
      ensures outcome.Refused? ==> disk == old(disk).(files := disk.files, generations := disk.generations)
      ensures outcome.Done? ==>
        && disk.review.None? && disk.transaction.Some? && disk.transaction.value.phase == Applied
        && disk.transaction.value.plan == expected
        && AllNew(disk.files, disk.transaction.value.files) && disk.running == UNITS
      ensures && old(power).None? && first == second && seen == during == old(disk.files)
              && SameHost(later, first.facts)
              && old(disk.review).Some? && old(disk.review).value.operation in {Install, Update}
              && Reviewed(old(disk), old(disk.review).value.operation, expected, first) ==>
              outcome.Done?
    {
      ghost var token := if disk.review.Some? then disk.review.value.token else 0;
      var t;
      outcome, t := OpenTransaction(expected, first, seen, during, second);
      if outcome.Done? {
        var alive := Replace(t, token, later);
        outcome := if alive then Done else Interrupted;
      }
    }

    /** `restore` once its journal says so: old bytes, old gateway directory, services, closure. */
    method RestoreImage(t: Transaction) returns (alive: bool)
      requires Valid() && disk.transaction == Some(t) && t.phase == Restoring && disk.running == {}
      requires LedgerEqual(disk.gateway, t.gateway)
      modifies this`disk, this`power, this`history
      ensures Valid() && Extends(old(history), history)
      ensures disk.generations == old(disk.generations) && disk.review == old(disk.review)
      ensures LedgerEqual(disk.gateway, t.gateway)
      ensures alive ==>
        && disk.transaction == Some(t.(phase := RolledBack)) && AllOld(disk.files, t.files)
        && disk.gateway == t.gateway && disk.running == UNITS
      ensures !alive ==> disk.transaction == Some(t) && old(power).Some?
    {
      alive := RestoreAll(t);
      if !alive {
        return;
      }
      if t.gatewayCreated && disk.gateway.Some? {
        assert disk.gateway == Some({}); // never delete runtime history
        alive := Store(disk.(gateway := None), history);
        if !alive {
          return;
        }
      }
      alive := StartServices(t);
      if !alive {
        return;
      }
      var closed := t.(phase := RolledBack);
      SightingKeeps(history, names, disk.files, closed);
      alive := Store(disk.(transaction := Some(closed)),
                     history.(closed := history.closed + [Sighting(closed, Pins(disk.files))]));
    }

    /** `restore`, as recovery of an unfinished transaction or rollback of an applied one. */
    method Restore(operation: Operation, expected: PlanDigest, m: Moment) returns (outcome: Outcome)
      requires Valid() && (operation.Recover? || operation.Rollback?)
      modifies this`disk, this`power, this`history
      ensures Valid() && Extends(old(history), history)
      ensures outcome.Refused? <==> !Reviewed(old(disk), operation, expected, m)
      ensures outcome.Refused? ==> disk == old(disk)
      ensures old(disk.transaction).Some? ==>
        && disk.transaction.Some?
        && disk.transaction == Some(old(disk.transaction).value.(phase := disk.transaction.value.phase))
      ensures disk.generations == old(disk.generations)
      ensures !outcome.Refused? ==> LedgerEqual(disk.gateway, disk.transaction.value.gateway)
      ensures outcome.Done? ==>
        && disk.review.None? && disk.transaction.value.phase == RolledBack
        && AllOld(disk.files, disk.transaction.value.files)
        && disk.gateway == disk.transaction.value.gateway && disk.running == UNITS
      ensures Open(old(disk)) && !outcome.Done? ==> Open(disk)
      ensures outcome.Interrupted? ==> old(power).Some?
    {
      if !Reviewed(disk, operation, expected, m) {
        return Refused;
      }
      var t := disk.transaction.value;
      ghost var token := disk.review.value.token;
      var alive := Store(disk.(review := None), history);
      if !alive {
        return Interrupted;
      }
      alive := StopServices(token);
      if !alive {
        return Interrupted;
      }
      var restoring := t.(phase := Restoring);
      alive := Store(disk.(transaction := Some(restoring)), history);
      if !alive {
        return Interrupted;
      }
      alive := RestoreImage(restoring);
      return if alive then Done else Interrupted;
    }

    /** `commit`: only over an entirely new image with every service healthy. */
    method CommitApplied(expected: PlanDigest, m: Moment) returns (outcome: Outcome)
      requires Valid()
      modifies this`disk, this`power, this`history
      ensures Valid() && Extends(old(history), history)
      ensures outcome.Refused? <==> !(Reviewed(old(disk), Commit, expected, m) && old(disk.running) == UNITS)
      ensures outcome.Refused? ==> disk == old(disk)
      ensures disk == old(disk).(transaction := disk.transaction, review := disk.review)
      ensures disk.transaction == old(disk.transaction) ||
              ( && old(disk.transaction).Some? && old(disk.transaction).value.phase == Applied
                && AllNew(disk.files, old(disk.transaction).value.files)
                && disk.transaction == Some(old(disk.transaction).value.(phase := Committed)))
      ensures outcome.Done? ==> disk.transaction.Some? && disk.transaction.value.phase == Committed && disk.review.None?
      ensures outcome.Interrupted? ==> old(power).Some?
    {
      if !Reviewed(disk, Commit, expected, m) || disk.running != UNITS {
        return Refused;
      }
      var closed := disk.transaction.value.(phase := Committed);
      SightingKeeps(history, names, disk.files, closed);
      var alive := Store(disk.(transaction := Some(closed)),
                         history.(closed := history.closed + [Sighting(closed, Pins(disk.files))]));
      if !alive {
        return Interrupted;
      }
      alive := Store(disk.(review := None), history);
      return if alive then Done else Interrupted;
    }

    /** One reviewed recovery with the process dying after `steps` durable effects, if ever. After a drift
        it changes nothing. */
    method TryRecovery(m: Moment, steps: Option<nat>) returns (done: bool)
      requires Valid() && Open(disk)
      modifies this
      ensures Valid() && disk.transaction.Some?
      ensures disk.transaction == Some(old(disk.transaction).value.(phase := disk.transaction.value.phase))
      ensures Undrifted(disk, m.facts) <==> Undrifted(old(disk), m.facts)
      ensures !Undrifted(old(disk), m.facts) ==> !done && disk == old(disk)
      ensures !done ==> Open(disk) && (steps.Some? || !Undrifted(disk, m.facts))
      ensures done ==>
        && disk.transaction.value.phase == RolledBack && AllOld(disk.files, disk.transaction.value.files)
        && disk.gateway == disk.transaction.value.gateway && disk.running == UNITS
    {
      power := steps;
      RecoveryAccepts(disk, names, history, m);
      var operation := OperationFor(disk.transaction.value.phase);
      var plan := Snapshot(disk, operation, m);
      if plan.None? {
        return false;
      }
      var expected := PlanSha256(plan.value);
      var reviewed := Review(operation, expected, m);
      if !reviewed.Done? {
        return false;
      }
      var outcome := Restore(operation, expected, m);
      done := outcome.Done?;
    }

    /** From any crash state, after any number of further interrupted restores, one uninterrupted
        restore brings back every old file, the old gateway directory and the services, if and only if
        neither host nor gateway has drifted; after a drift every restore leaves everything as it is. */
    method RecoverThroughCrashes(m: Moment, crashes: seq<nat>) returns (done: bool)
      requires Valid() && Open(disk)
      modifies this
      ensures Valid()
      ensures done <==> Undrifted(old(disk), m.facts)
      ensures !done ==> disk == old(disk)
      ensures done ==>
        && disk.transaction == Some(old(disk.transaction).value.(phase := RolledBack))
        && AllOld(disk.files, disk.transaction.value.files)
        && disk.gateway == disk.transaction.value.gateway && disk.running == UNITS
    {
      done := false;
      var i := 0;
      while i < |crashes| && !done
        invariant Valid() && disk.transaction.Some?
        invariant disk.transaction == Some(old(disk.transaction).value.(phase := disk.transaction.value.phase))
        invariant Undrifted(disk, m.facts) <==> Undrifted(old(disk), m.facts)
        invariant !Undrifted(old(disk), m.facts) ==> !done && disk == old(disk)
        invariant if done then
                    && disk.transaction.value.phase == RolledBack
                    && AllOld(disk.files, disk.transaction.value.files)
                    && disk.gateway == disk.transaction.value.gateway && disk.running == UNITS
                  else Open(disk)
        decreases |crashes| - i
      {
        done := TryRecovery(m, Some(crashes[i]));
        i := i + 1;
      }
      if !done {
        done := TryRecovery(m, None);
      }
    }

    /** A running proxy writes its state directory. */
    method WriteGateway(entries: set<string>)
      requires Valid() && disk.running != {}
      modifies this`disk
      ensures Valid() && disk == old(disk).(gateway := Some(entries))
    {
      disk := disk.(gateway := Some(entries));
    }

    /** Any sequence of operator commands and outside events, each cut off anywhere. No receipt ever
        opened two transactions or touched services twice; every unit was started over an image that
        was entirely old or entirely new; every commit found all paths new and every rollback left
        all paths old; and an unfinished transaction's partial work is always recognised, with
        services down unless the image is uniform. */
    method Run(script: seq<(Event, Option<nat>)>)
      requires Valid()
      modifies this
      ensures Valid() && Extends(old(history), history)
      ensures Distinct(history.authorised) && Distinct(history.served)
      ensures forall s :: s in history.starts ==> s.Old() || s.New()
      ensures forall s :: s in history.closed ==> if s.transaction.phase == Committed then s.New() else s.Old()
      ensures Open(disk) ==>
        var t := disk.transaction.value;
        && |disk.files| == |t.files| == OWNED && Verified(disk, t, false)
        && (disk.running != {} ==> AllOld(disk.files, t.files) || AllNew(disk.files, t.files))
    {
      for i := 0 to |script|
        invariant Valid() && Extends(old(history), history)
      {
        power := script[i].1;
        match script[i].0 {
          case ReviewPlan(operation, expected, m) =>
            var _ := Review(operation, expected, m);
          case ApplyPlan(expected, first, seen, during, second, later) =>
            if |seen| == |during| == OWNED {
              var _ := Apply(expected, first, seen, during, second, later);
            }
          case RestorePlan(operation, expected, m) =>
            if operation.Recover? || operation.Rollback? {
              var _ := Restore(operation, expected, m);
            }
          case CommitPlan(expected, m) =>
            var _ := CommitApplied(expected, m);
          case OtherWriter(files) =>
            if !Open(disk) && |files| == OWNED {
              disk := disk.(files := files);
            }
          case GatewayWrites(entries) =>
            if disk.running != {} {
              WriteGateway(entries);
            }
          case OperatorStarts(unit) =>
            if !Open(disk) {
              disk := disk.(running := disk.running + {unit});
            }
        }
      }
    }
  }

  /** The drift does occur: once an applied update's gateway has written one entry, no operation has a plan
      any more at any moment, and the transaction is still open. */
  method UpdateThenGatewayWrites(candidate: seq<Bytes>, now: int, facts: Facts) returns (p: Package)
    requires |candidate| == OWNED
    ensures fresh(p) && p.Valid() && Open(p.disk) && p.disk.transaction.value.phase == Applied
    ensures AllNew(p.disk.files, p.disk.transaction.value.files) && p.disk.running == UNITS
    ensures forall operation, m: Moment :: Snapshot(p.disk, operation, m).None?
  {
    var files := seq(OWNED, n requires 0 <= n < OWNED => Some(File([], TargetMode(n))));
    var m := Moment(now, facts, candidate);
    p := new Package(files, None, UNITS);
    var expected := PlanSha256(Change(Update, facts, None, Records(files, candidate)));
    assert Snapshot(p.disk, Update, m) == Some(expected.plan);
    var reviewed := p.Review(Update, expected, m);
    assert Reviewed(p.disk, Update, expected, m);
    var outcome := p.Apply(expected, m, files, files, m, facts);
    p.WriteGateway(if p.disk.transaction.value.gateway == Some({"entry"}) then {"other"} else {"entry"});
    forall operation, m: Moment
      ensures Snapshot(p.disk, operation, m).None?
    {
      SomeCommandAccepts(p.disk, p.names, p.history, m);
    }
  }

  /** No command closes it, touches a service or writes a file: review, restore and commit refuse every
      plan, a new apply refuses over an open transaction. */
  method StaysOpen(p: Package, operation: Operation, expected: PlanDigest, m: Moment,
                     files: seq<Option<File>>, crashes: seq<nat>)
    requires p.Valid() && Open(p.disk) && !Undrifted(p.disk, m.facts) && |files| == OWNED
    modifies p
    ensures p.Valid() && p.disk == old(p.disk)
  {
    SomeCommandAccepts(p.disk, p.names, p.history, m);
    var _ := p.Review(operation, expected, m);
    var _ := p.Apply(expected, m, files, files, m, m.facts);
    var _ := p.CommitApplied(expected, m);
    if operation.Recover? || operation.Rollback? {
      var _ := p.Restore(operation, expected, m);
    }
    var _ := p.RecoverThroughCrashes(m, crashes);
  }
}
