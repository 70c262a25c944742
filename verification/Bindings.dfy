/** Credential bindings of `Broker` in scripts/a4-credential-broker.py.

    `memory` is what the process holds and `journal` what it last saved; every section changes memory
    first and saves then, and a save may fail, which ends the request that tried it and leaves memory
    ahead of the journal until some later save or a restart. `rotate` and `deliver` each hold the lock
    twice with a vault round trip in between, so rotations, revocations, deliveries, vault writes, lost
    saves and crashes interleave freely between their sections. `Next` is one such section. */
module CredentialBindings {
  import opened Prelude

  const KEPT_HISTORY: nat := 50

  type BindingId = nat
  type RunId = nat
  type ThreadId = nat
  type VaultKey = nat

  datatype Turn = Turn(revision: nat, version: nat)

  datatype Binding = Binding(
    project: nat, profile: nat, key: VaultKey, version: nat, revision: nat, active: bool, history: seq<Turn>)

  datatype Credential = Credential(binding: BindingId, project: nat, profile: nat, revision: nat)

  /** The part of the broker's state that a save writes and a restart reads back. */
  datatype Books = Books(bindings: map<BindingId, Binding>, runs: map<RunId, Option<Credential>>)

  /** A delivery between its two checks: what it decided to read, and whether it has read it. */
  datatype Delivery = Delivery(run: RunId, binding: BindingId, key: VaultKey, version: nat, read: bool)

  datatype Rotation = Rotation(binding: BindingId, expected: nat, key: VaultKey, fetched: Option<nat>)

  /** `vault` holds the current version of every value. */
  datatype Desk = Desk(
    memory: Books, journal: Books, vault: map<VaultKey, nat>,
    deliveries: map<ThreadId, Delivery>, rotations: map<ThreadId, Rotation>)

  datatype Event =
    | BindNew(id: BindingId, project: nat, profile: nat, key: VaultKey, behind: nat, saved: bool)
    | Pin(run: RunId, credential: Option<Credential>, saved: bool)
    | RotateBegin(t: ThreadId, binding: BindingId, expected: nat)
    | Fetch(t: ThreadId)
    | RotateEnd(t: ThreadId, saved: bool)
    | RevokeBinding(binding: BindingId, saved: bool)
    | DeliverBegin(t: ThreadId, run: RunId, binding: BindingId)
    | Read(t: ThreadId)
    | DeliverEnd(t: ThreadId)
    | Abandon(t: ThreadId) // a refusal or an exception in the middle of a rotation or delivery
    | NewVersion(key: VaultKey)
    | Flush // any other section's save, such as the entry `deliver` logs at its end
    | Crash

  // ------------------------------------------------------------------------------------ sections

  /** The binding exists, is active, has this scope and stands at this revision. */
  predicate Usable(b: Books, c: Credential) {
    && c.binding in b.bindings && c.revision >= 1
    && var x := b.bindings[c.binding];
    x.active && x.project == c.project && x.profile == c.profile && x.revision == c.revision
  }

  predicate Pinnable(b: Books, run: RunId, credential: Option<Credential>) {
    && (credential.Some? ==> Usable(b, credential.value))
    && (run in b.runs ==> b.runs[run] == credential)
  }

  /** `_usable`: the binding pinned to this run, active at the pinned revision. */
  predicate Deliverable(b: Books, run: RunId, binding: BindingId) {
    && run in b.runs && b.runs[run].Some? && b.runs[run].value.binding == binding
    && binding in b.bindings && b.bindings[binding].active
    && b.bindings[binding].revision == b.runs[run].value.revision
  }

  /** The check of both sections of `rotate`. */
  predicate Rotatable(b: Books, binding: BindingId, expected: nat) {
    binding in b.bindings && b.bindings[binding].active && b.bindings[binding].revision == expected
  }

  function NewBinding(project: nat, profile: nat, key: VaultKey, version: nat): Binding {
    Binding(project, profile, key, version, 1, true, [Turn(1, version)])
  }

  /** `del history[:-50]`. */
  function LastTurns(turns: seq<Turn>): seq<Turn> {
    if |turns| > KEPT_HISTORY then turns[|turns| - KEPT_HISTORY..] else turns
  }

  /** What the second section of `rotate` writes. */
  function Rotated(b: Binding, version: nat): Binding {
    b.(revision := b.revision + 1, version := version,
       history := LastTurns(b.history + [Turn(b.revision + 1, version)]))
  }

  /** A section's change of memory, followed by `_save`. */
  function Adopt(d: Desk, books: Books, saved: bool): Desk {
    d.(memory := books, journal := if saved then books else d.journal)
  }

  function Put(b: Books, id: BindingId, x: Binding): Books {
    b.(bindings := b.bindings[id := x])
  }

  /** The vault reads only a version that is the current one. */
  predicate Readable(d: Desk, t: ThreadId) {
    t in d.deliveries && d.deliveries[t].key in d.vault && d.vault[d.deliveries[t].key] == d.deliveries[t].version
  }

  predicate Wins(d: Desk, t: ThreadId) {
    t in d.rotations && d.rotations[t].fetched.Some?
    && Rotatable(d.memory, d.rotations[t].binding, d.rotations[t].expected)
  }

  function Next(d: Desk, e: Event): Desk {
    match e
    case BindNew(id, project, profile, key, behind, saved) =>
      // The version was fetched `behind` vault writes ago.
      if key in d.vault && behind < d.vault[key] && id !in d.memory.bindings
      then Adopt(d, Put(d.memory, id, NewBinding(project, profile, key, d.vault[key] - behind)), saved)
      else d
    case Pin(run, credential, saved) =>
      if Pinnable(d.memory, run, credential) && run !in d.memory.runs
      then Adopt(d, d.memory.(runs := d.memory.runs[run := credential]), saved)
      else d
    case RotateBegin(t, binding, expected) =>
      if t !in d.rotations && Rotatable(d.memory, binding, expected)
      then d.(rotations := d.rotations[t := Rotation(binding, expected, d.memory.bindings[binding].key, None)])
      else d
    case Fetch(t) =>
      if t in d.rotations && d.rotations[t].key in d.vault
      then d.(rotations := d.rotations[t := d.rotations[t].(fetched := Some(d.vault[d.rotations[t].key]))])
      else d
    case RotateEnd(t, saved) =>
      if !Wins(d, t) then d.(rotations := d.rotations - {t})
      else
        var r := d.rotations[t];
        Adopt(d.(rotations := d.rotations - {t}),
              Put(d.memory, r.binding, Rotated(d.memory.bindings[r.binding], r.fetched.value)), saved)
    case RevokeBinding(binding, saved) =>
      if binding in d.memory.bindings && d.memory.bindings[binding].active
      then Adopt(d, Put(d.memory, binding, d.memory.bindings[binding].(active := false)), saved)
      else d
    case DeliverBegin(t, run, binding) =>
      if t !in d.deliveries && Deliverable(d.memory, run, binding)
      then
        var b := d.memory.bindings[binding];
        d.(deliveries := d.deliveries[t := Delivery(run, binding, b.key, b.version, false)])
      else d
    case Read(t) =>
      if Readable(d, t) then d.(deliveries := d.deliveries[t := d.deliveries[t].(read := true)])
      else d.(deliveries := d.deliveries - {t})
    case DeliverEnd(t) => d.(deliveries := d.deliveries - {t})
    case Abandon(t) => d.(deliveries := d.deliveries - {t}, rotations := d.rotations - {t})
    case NewVersion(key) => d.(vault := d.vault[key := if key in d.vault then d.vault[key] + 1 else 1])
    case Flush => Adopt(d, d.memory, true)
    case Crash => Desk(d.journal, d.journal, d.vault, map[], map[])
  }

  /** The second check of `deliver` passes and the credential goes to the worker. */
  predicate Delivers(d: Desk, e: Event) {
    && e.DeliverEnd? && e.t in d.deliveries && d.deliveries[e.t].read
    && Deliverable(d.memory, d.deliveries[e.t].run, d.deliveries[e.t].binding)
  }

  function Start(vault: map<VaultKey, nat>): Desk {
    Desk(Books(map[], map[]), Books(map[], map[]), vault, map[], map[])
  }

  function Exec(d: Desk, events: seq<Event>): Desk {
    if events == [] then d else Next(Exec(d, events[..|events| - 1]), events[|events| - 1])
  }

  /** The desk after the first `n` events of a history. */
  function At(d: Desk, events: seq<Event>, n: nat): Desk
    requires n <= |events|
  {
    Exec(d, events[..n])
  }

  lemma AtNext(d: Desk, events: seq<Event>, n: nat)
    requires n < |events|
    ensures At(d, events, n + 1) == Next(At(d, events, n), events[n])
  {
    assert events[..n + 1][..n] == events[..n];
  }

  lemma ExecStep(d: Desk, events: seq<Event>, e: Event)
    ensures Exec(d, events + [e]) == Next(Exec(d, events), e)
  {
    assert (events + [e])[..|events|] == events;
  }

  lemma ExecTwo(d: Desk, first: Event, second: Event)
    ensures Exec(d, [first, second]) == Next(Next(d, first), second)
  {
    ExecStep(d, [], first);
    ExecStep(d, [first], second);
    assert [] + [first] == [first] && [first] + [second] == [first, second];
  }

  lemma {:induction false} ExecSplit(d: Desk, first: seq<Event>, rest: seq<Event>)
    ensures Exec(d, first + rest) == Exec(Exec(d, first), rest)
  {
    if rest == [] {
      assert first + rest == first;
    } else {
      var n := |rest| - 1;
      ExecSplit(d, first, rest[..n]);
      assert first + rest == (first + rest[..n]) + [rest[n]];
      ExecStep(d, first + rest[..n], rest[n]);
    }
  }

  // ------------------------------------------------------------------ what one set of books keeps

  /** The journalled history: the last fifty turns in order, ending where the binding stands, with
      versions that never go back. */
  ghost predicate HistoryOk(b: Binding) {
    && b.revision >= 1 && b.version >= 1
    && |b.history| == (if b.revision < KEPT_HISTORY then b.revision else KEPT_HISTORY)
    && (forall i :: 0 <= i < |b.history| ==> b.history[i].revision == b.revision - |b.history| + 1 + i)
    && (forall i, j :: 0 <= i < j < |b.history| ==> b.history[i].version <= b.history[j].version)
    && b.history[|b.history| - 1].version == b.version
  }

  /** The revisions whose version the binding's history still shows. */
  predicate Shows(b: Binding, revision: nat) {
    b.revision - |b.history| < revision <= b.revision
  }

  function VersionOf(b: Binding, revision: nat): nat
    requires Shows(b, revision)
  {
    b.history[revision - (b.revision - |b.history|) - 1].version
  }

  ghost predicate BindingAt(b: Books, vault: map<VaultKey, nat>, id: BindingId) {
    id in b.bindings ==>
      HistoryOk(b.bindings[id]) && b.bindings[id].key in vault && b.bindings[id].version <= vault[b.bindings[id].key]
  }

  /** A pinned credential names a revision its binding really had, under the binding's own scope. */
  ghost predicate RunAt(b: Books, r: RunId) {
    r in b.runs && b.runs[r].Some? ==>
      var c := b.runs[r].value;
      && c.binding in b.bindings && 1 <= c.revision <= b.bindings[c.binding].revision
      && c.project == b.bindings[c.binding].project && c.profile == b.bindings[c.binding].profile
  }

  ghost predicate Good(b: Books, vault: map<VaultKey, nat>) {
    && (forall id {:trigger BindingAt(b, vault, id)} :: BindingAt(b, vault, id))
    && (forall r {:trigger RunAt(b, r)} :: RunAt(b, r))
  }

  /** What never goes back: scope and key are fixed, revisions and versions only grow, the version of a
      revision never changes, and revoked stays revoked. */
  ghost predicate BindingLater(b: Binding, c: Binding) {
    && c.project == b.project && c.profile == b.profile && c.key == b.key
    && b.revision <= c.revision && b.version <= c.version && (c.active ==> b.active)
    && (forall r {:trigger Shows(b, r)} :: Shows(b, r) && Shows(c, r) ==> VersionOf(b, r) == VersionOf(c, r))
  }

  ghost predicate LaterAt(x: Books, y: Books, id: BindingId) {
    id in x.bindings ==> id in y.bindings && BindingLater(x.bindings[id], y.bindings[id])
  }

  ghost predicate Later(x: Books, y: Books) {
    && (forall id {:trigger LaterAt(x, y, id)} :: LaterAt(x, y, id))
    && (forall r :: r in x.runs ==> r in y.runs && y.runs[r] == x.runs[r])
  }

  lemma BindingLaterTransitive(a: Binding, b: Binding, c: Binding)
    requires BindingLater(a, b) && BindingLater(b, c) && HistoryOk(b) && HistoryOk(c)
    ensures BindingLater(a, c)
  {
    forall r | Shows(a, r) && Shows(c, r)
      ensures VersionOf(a, r) == VersionOf(c, r)
    {
      assert Shows(b, r);
    }
  }

  lemma LaterTransitive(x: Books, y: Books, z: Books, vault: map<VaultKey, nat>)
    requires Later(x, y) && Later(y, z) && Good(y, vault) && Good(z, vault)
    ensures Later(x, z)
  {
    forall id
      ensures LaterAt(x, z, id)
    {
      assert LaterAt(x, y, id) && LaterAt(y, z, id) && BindingAt(y, vault, id) && BindingAt(z, vault, id);
      if id in x.bindings {
        BindingLaterTransitive(x.bindings[id], y.bindings[id], z.bindings[id]);
      }
    }
  }

  lemma LaterReflexive(x: Books)
    ensures Later(x, x)
  {
    forall id
      ensures LaterAt(x, x, id)
    {
    }
  }

  lemma SameHistory(b: Binding, c: Binding)
    requires BindingLater(b, c) && BindingLater(c, b) && HistoryOk(b) && HistoryOk(c)
    ensures b == c
  {
    forall i | 0 <= i < |b.history|
      ensures b.history[i] == c.history[i]
    {
      var r := b.revision - |b.history| + 1 + i;
      assert Shows(b, r) && VersionOf(b, r) == VersionOf(c, r);
    }
  }

  /** Books that are later than each other are the same books. */
  lemma LaterBothWays(x: Books, y: Books, vault: map<VaultKey, nat>)
    requires Later(x, y) && Later(y, x) && Good(x, vault) && Good(y, vault)
    ensures x == y
  {
    forall id
      ensures id in x.bindings <==> id in y.bindings
      ensures id in x.bindings ==> x.bindings[id] == y.bindings[id]
    {
      assert LaterAt(x, y, id) && LaterAt(y, x, id) && BindingAt(x, vault, id) && BindingAt(y, vault, id);
      if id in x.bindings {
        SameHistory(x.bindings[id], y.bindings[id]);
      }
    }
    assert x.runs == y.runs;
  }

  // ---------------------------------------------------------------- what every reachable desk keeps

  /** What a delivery in progress remembers is the version of the revision its run is pinned to. */
  ghost predicate DeliveryOk(b: Books, x: Delivery) {
    && x.run in b.runs && b.runs[x.run].Some? && b.runs[x.run].value.binding == x.binding
    && x.binding in b.bindings && b.bindings[x.binding].key == x.key
    && (Shows(b.bindings[x.binding], b.runs[x.run].value.revision) ==>
          VersionOf(b.bindings[x.binding], b.runs[x.run].value.revision) == x.version)
    && b.runs[x.run].value.revision <= b.bindings[x.binding].revision
  }

  /** A rotation that can still win has fetched a version no older than the binding's. */
  ghost predicate RotationOk(b: Books, vault: map<VaultKey, nat>, r: Rotation) {
    && r.binding in b.bindings && r.expected <= b.bindings[r.binding].revision && r.key == b.bindings[r.binding].key
    && (r.fetched.Some? && r.expected == b.bindings[r.binding].revision ==>
          r.key in vault && b.bindings[r.binding].version <= r.fetched.value <= vault[r.key])
  }

  ghost predicate DeliveryAt(d: Desk, t: ThreadId) {
    t in d.deliveries ==> DeliveryOk(d.memory, d.deliveries[t])
  }

  ghost predicate RotationAt(d: Desk, t: ThreadId) {
    t in d.rotations ==> RotationOk(d.memory, d.vault, d.rotations[t])
  }

  ghost predicate ThreadsOk(d: Desk) {
    && (forall t {:trigger DeliveryAt(d, t)} :: DeliveryAt(d, t))
    && (forall t {:trigger RotationAt(d, t)} :: RotationAt(d, t))
  }

  ghost predicate Inv(d: Desk) {
    Good(d.memory, d.vault) && Good(d.journal, d.vault) && Later(d.journal, d.memory) && ThreadsOk(d)
  }

  /** One section moves the journal and the vault only forward, and memory too unless it is a restart. */
  ghost predicate Forward(d: Desk, e: Event, d': Desk) {
    && Later(d.journal, d'.journal) && (!e.Crash? ==> Later(d.memory, d'.memory))
    && (forall k :: k in d.vault ==> k in d'.vault && d.vault[k] <= d'.vault[k])
  }

  lemma DeliveryLater(b: Books, c: Books, vault: map<VaultKey, nat>, x: Delivery)
    requires DeliveryOk(b, x) && Later(b, c) && Good(b, vault) && Good(c, vault)
    ensures DeliveryOk(c, x)
  {
    assert LaterAt(b, c, x.binding) && BindingAt(b, vault, x.binding) && BindingAt(c, vault, x.binding);
    var revision := b.runs[x.run].value.revision;
    assert Shows(c.bindings[x.binding], revision) ==> Shows(b.bindings[x.binding], revision);
  }

  lemma RotationLater(b: Books, c: Books, vault: map<VaultKey, nat>, r: Rotation)
    requires RotationOk(b, vault, r) && Later(b, c) && Good(b, vault) && Good(c, vault)
    ensures RotationOk(c, vault, r)
  {
    assert LaterAt(b, c, r.binding) && BindingAt(b, vault, r.binding) && BindingAt(c, vault, r.binding);
    var x, y := b.bindings[r.binding], c.bindings[r.binding];
    if x.revision == y.revision {
      assert Shows(x, x.revision) && Shows(y, x.revision);
    }
  }

  /** Threads in progress stay right as memory moves on. */
  lemma ThreadsLater(d: Desk, books: Books, saved: bool)
    requires Inv(d) && Good(books, d.vault) && Later(d.memory, books)
    ensures ThreadsOk(Adopt(d, books, saved))
  {
    var d' := Adopt(d, books, saved);
    forall t
      ensures DeliveryAt(d', t)
    {
      assert DeliveryAt(d, t);
      if t in d.deliveries {
        DeliveryLater(d.memory, books, d.vault, d.deliveries[t]);
      }
    }
    forall t
      ensures RotationAt(d', t)
    {
      assert RotationAt(d, t);
      if t in d.rotations {
        RotationLater(d.memory, books, d.vault, d.rotations[t]);
      }
    }
  }

  lemma AdoptKeeps(d: Desk, books: Books, saved: bool)
    requires Inv(d) && Good(books, d.vault) && Later(d.memory, books)
    ensures var d' := Adopt(d, books, saved);
      Inv(d') && Later(d.journal, d'.journal) && Later(d.memory, d'.memory)
  {
    ThreadsLater(d, books, saved);
    LaterTransitive(d.journal, d.memory, books, d.vault);
    LaterReflexive(d.journal);
    LaterReflexive(books);
  }

  lemma PutIsLater(b: Books, vault: map<VaultKey, nat>, id: BindingId, x: Binding)
    requires Good(b, vault) && HistoryOk(x) && x.key in vault && x.version <= vault[x.key]
    requires id in b.bindings ==> BindingLater(b.bindings[id], x)
    ensures Good(Put(b, id, x), vault) && Later(b, Put(b, id, x))
  {
    var c := Put(b, id, x);
    forall k
      ensures BindingAt(c, vault, k) && LaterAt(b, c, k)
    {
      assert BindingAt(b, vault, k);
    }
    forall r
      ensures RunAt(c, r)
    {
      assert RunAt(b, r);
    }
  }

  lemma PinIsLater(b: Books, vault: map<VaultKey, nat>, run: RunId, credential: Option<Credential>)
    requires Good(b, vault) && run !in b.runs && (credential.Some? ==> Usable(b, credential.value))
    ensures var c := b.(runs := b.runs[run := credential]); Good(c, vault) && Later(b, c)
  {
    var c := b.(runs := b.runs[run := credential]);
    forall k
      ensures BindingAt(c, vault, k) && LaterAt(b, c, k)
    {
      assert BindingAt(b, vault, k);
    }
    forall r
      ensures RunAt(c, r)
    {
      assert RunAt(b, r);
    }
  }

  /** A rotation appends one turn and drops the fifty-first. */
  lemma RotatedTurns(b: Binding, version: nat)
    requires HistoryOk(b)
    ensures var c := Rotated(b, version); var cut := |b.history| + 1 - |c.history|;
      && |c.history| == (if c.revision < KEPT_HISTORY then c.revision else KEPT_HISTORY) && (cut == 0 || cut == 1)
      && (forall i :: 0 <= i < |c.history| - 1 ==> c.history[i] == b.history[i + cut])
      && c.history[|c.history| - 1] == Turn(c.revision, version)
  {
  }

  lemma RotatedHistory(b: Binding, version: nat)
    requires HistoryOk(b) && b.version <= version
    ensures HistoryOk(Rotated(b, version))
  {
    RotatedTurns(b, version);
    var c := Rotated(b, version);
    forall i | 0 <= i < |c.history| - 1
      ensures c.history[i].version <= b.version
    {
    }
  }

  /** ... and changes no earlier revision's version. */
  lemma RotatedIsLater(b: Binding, version: nat)
    requires HistoryOk(b) && b.version <= version
    ensures BindingLater(b, Rotated(b, version))
  {
    RotatedTurns(b, version);
  }

  lemma RotateKeeps(d: Desk, t: ThreadId, saved: bool)
    requires Inv(d) && Wins(d, t)
    ensures var d' := Next(d, RotateEnd(t, saved)); Inv(d') && Forward(d, RotateEnd(t, saved), d')
  {
    var r := d.rotations[t];
    assert RotationAt(d, t) && BindingAt(d.memory, d.vault, r.binding);
    var x := d.memory.bindings[r.binding];
    RotatedHistory(x, r.fetched.value);
    RotatedIsLater(x, r.fetched.value);
    PutIsLater(d.memory, d.vault, r.binding, Rotated(x, r.fetched.value));
    DroppingKeeps(d, d.deliveries, d.rotations - {t});
    AdoptKeeps(d.(rotations := d.rotations - {t}), Put(d.memory, r.binding, Rotated(x, r.fetched.value)), saved);
  }

  /** Threads may end at any time. */
  lemma DroppingKeeps(d: Desk, deliveries: map<ThreadId, Delivery>, rotations: map<ThreadId, Rotation>)
    requires Inv(d)
    requires forall t :: t in deliveries ==>
                 t in d.deliveries && deliveries[t].(read := false) == d.deliveries[t].(read := false)
    requires forall t :: t in rotations ==> t in d.rotations && rotations[t] == d.rotations[t]
    ensures Inv(d.(deliveries := deliveries, rotations := rotations))
  {
    var d' := d.(deliveries := deliveries, rotations := rotations);
    forall t
      ensures DeliveryAt(d', t) && RotationAt(d', t)
    {
      assert DeliveryAt(d, t) && RotationAt(d, t);
    }
  }

  lemma RotationKeeps(d: Desk, t: ThreadId, r: Rotation)
    requires Inv(d) && RotationOk(d.memory, d.vault, r)
    ensures Inv(d.(rotations := d.rotations[t := r]))
  {
    var d' := d.(rotations := d.rotations[t := r]);
    forall k
      ensures DeliveryAt(d', k) && RotationAt(d', k)
    {
      assert DeliveryAt(d, k) && RotationAt(d, k);
    }
  }

  lemma DeliverKeeps(d: Desk, t: ThreadId, x: Delivery)
    requires Inv(d) && DeliveryOk(d.memory, x)
    ensures Inv(d.(deliveries := d.deliveries[t := x]))
  {
    var d' := d.(deliveries := d.deliveries[t := x]);
    forall k
      ensures DeliveryAt(d', k) && RotationAt(d', k)
    {
      assert DeliveryAt(d, k) && RotationAt(d, k);
    }
  }

  lemma VaultGrows(b: Books, vault: map<VaultKey, nat>, more: map<VaultKey, nat>)
    requires Good(b, vault) && forall k :: k in vault ==> k in more && vault[k] <= more[k]
    ensures Good(b, more)
  {
    forall id
      ensures BindingAt(b, more, id)
    {
      assert BindingAt(b, vault, id);
    }
  }

  lemma VaultKeeps(d: Desk, key: VaultKey)
    requires Inv(d)
    ensures var d' := Next(d, NewVersion(key)); Inv(d') && Forward(d, NewVersion(key), d')
  {
    var d' := Next(d, NewVersion(key));
    VaultGrows(d.memory, d.vault, d'.vault);
    VaultGrows(d.journal, d.vault, d'.vault);
    forall t
      ensures DeliveryAt(d', t) && RotationAt(d', t)
    {
      assert DeliveryAt(d, t) && RotationAt(d, t);
    }
    LaterReflexive(d.memory);
    LaterReflexive(d.journal);
  }

  /** The sections that change the books. */
  lemma BooksStep(d: Desk, e: Event)
    requires Inv(d) && (e.BindNew? || e.Pin? || e.RevokeBinding? || e.Flush?)
    ensures Inv(Next(d, e)) && Forward(d, e, Next(d, e))
  {
    LaterReflexive(d.memory);
    LaterReflexive(d.journal);
    match e {
      case BindNew(id, project, profile, key, behind, saved) =>
        if key in d.vault && behind < d.vault[key] && id !in d.memory.bindings {
          var x := NewBinding(project, profile, key, d.vault[key] - behind);
          PutIsLater(d.memory, d.vault, id, x);
          AdoptKeeps(d, Put(d.memory, id, x), saved);
        }
      case Pin(run, credential, saved) =>
        if Pinnable(d.memory, run, credential) && run !in d.memory.runs {
          PinIsLater(d.memory, d.vault, run, credential);
          AdoptKeeps(d, d.memory.(runs := d.memory.runs[run := credential]), saved);
        }
      case RevokeBinding(binding, saved) =>
        if binding in d.memory.bindings && d.memory.bindings[binding].active {
          assert BindingAt(d.memory, d.vault, binding);
          var x := d.memory.bindings[binding].(active := false);
          PutIsLater(d.memory, d.vault, binding, x);
          AdoptKeeps(d, Put(d.memory, binding, x), saved);
        }
      case Flush => AdoptKeeps(d, d.memory, true);
    }
  }

  /** The sections that change only a rotation in progress ... */
  lemma RotationStep(d: Desk, e: Event)
    requires Inv(d) && (e.RotateBegin? || e.Fetch? || e.Abandon?)
    ensures Inv(Next(d, e)) && Forward(d, e, Next(d, e))
  {
    LaterReflexive(d.memory);
    LaterReflexive(d.journal);
    var d' := Next(d, e);
    if e.Abandon? {
      DroppingKeeps(d, d'.deliveries, d'.rotations);
    } else if d' != d {
      if e.Fetch? {
        assert RotationAt(d, e.t) && BindingAt(d.memory, d.vault, d.rotations[e.t].binding);
      }
      RotationKeeps(d, e.t, d'.rotations[e.t]);
    }
  }

  /** ... or a delivery in progress. */
  lemma DeliveryStep(d: Desk, e: Event)
    requires Inv(d) && (e.DeliverBegin? || e.Read? || e.DeliverEnd?)
    ensures Inv(Next(d, e)) && Forward(d, e, Next(d, e))
  {
    LaterReflexive(d.memory);
    LaterReflexive(d.journal);
    var d' := Next(d, e);
    if !e.DeliverBegin? {
      DroppingKeeps(d, d'.deliveries, d.rotations);
    } else if d' != d {
      assert BindingAt(d.memory, d.vault, e.binding) && RunAt(d.memory, e.run);
      DeliverKeeps(d, e.t, d'.deliveries[e.t]);
    }
  }

  /** Every section keeps the invariant, whatever happened before it and whether or not it was saved. */
  lemma StepKeeps(d: Desk, e: Event)
    requires Inv(d)
    ensures Inv(Next(d, e)) && Forward(d, e, Next(d, e))
  {
    if e.BindNew? || e.Pin? || e.RevokeBinding? || e.Flush? {
      BooksStep(d, e);
    } else if e.NewVersion? {
      VaultKeeps(d, e.key);
    } else if e.Crash? {
      LaterReflexive(d.journal);
    } else if e.RotateEnd? {
      if Wins(d, e.t) {
        RotateKeeps(d, e.t, e.saved);
      } else {
        DroppingKeeps(d, d.deliveries, d.rotations - {e.t});
        LaterReflexive(d.memory);
        LaterReflexive(d.journal);
      }
    } else if e.RotateBegin? || e.Fetch? || e.Abandon? {
      RotationStep(d, e);
    } else {
      DeliveryStep(d, e);
    }
  }

  // ------------------------------------------------------------------------------ whole histories

  lemma StartIsGood(vault: map<VaultKey, nat>)
    ensures Inv(Start(vault))
  {
  }

  lemma {:induction false} Reachable(d: Desk, events: seq<Event>)
    requires Inv(d)
    ensures Inv(Exec(d, events))
  {
    if events != [] {
      Reachable(d, events[..|events| - 1]);
      StepKeeps(Exec(d, events[..|events| - 1]), events[|events| - 1]);
    }
  }

  lemma HistoryStep(d: Desk, events: seq<Event>, n: nat)
    requires Inv(d) && n < |events|
    ensures Inv(At(d, events, n)) && Inv(At(d, events, n + 1))
    ensures Forward(At(d, events, n), events[n], At(d, events, n + 1))
  {
    Reachable(d, events[..n]);
    AtNext(d, events, n);
    StepKeeps(At(d, events, n), events[n]);
  }

  lemma LaterThen(x: Books, y: Books, z: Books, vault: map<VaultKey, nat>, more: map<VaultKey, nat>)
    requires Later(x, y) && Later(y, z) && Good(y, vault) && Good(z, more)
    requires forall k :: k in vault ==> k in more && vault[k] <= more[k]
    ensures Later(x, z)
  {
    VaultGrows(y, vault, more);
    LaterTransitive(x, y, z, more);
  }

  /** Over every interleaving, lost save and crash the journal only moves forward, and memory is always
      at least as far as the journal ever was. */
  lemma {:induction false} JournalNeverGoesBack(d: Desk, events: seq<Event>, i: nat, j: nat)
    requires Inv(d) && i <= j <= |events|
    ensures Later(At(d, events, i).journal, At(d, events, j).journal)
    ensures Later(At(d, events, i).journal, At(d, events, j).memory)
    decreases j
  {
    if i == j {
      Reachable(d, events[..j]);
      LaterReflexive(At(d, events, i).journal);
    } else {
      JournalNeverGoesBack(d, events, i, j - 1);
      HistoryStep(d, events, j - 1);
      LaterThen(At(d, events, i).journal, At(d, events, j - 1).journal, At(d, events, j).journal,
                At(d, events, j - 1).vault, At(d, events, j).vault);
      LaterThen(At(d, events, i).journal, At(d, events, j).journal, At(d, events, j).memory,
                At(d, events, j).vault, At(d, events, j).vault);
    }
  }

  // --------------------------------------------------------------------- what is in the journal lasts

  /** Once a revocation is on disk, the binding is never active again, in memory or on disk. */
  lemma SavedRevocationLasts(d: Desk, events: seq<Event>, i: nat, j: nat, id: BindingId)
    requires Inv(d) && i <= j <= |events|
    requires id in At(d, events, i).journal.bindings && !At(d, events, i).journal.bindings[id].active
    ensures var later := At(d, events, j);
      && id in later.memory.bindings && !later.memory.bindings[id].active
      && id in later.journal.bindings && !later.journal.bindings[id].active
  {
    JournalNeverGoesBack(d, events, i, j);
    assert LaterAt(At(d, events, i).journal, At(d, events, j).memory, id);
    assert LaterAt(At(d, events, i).journal, At(d, events, j).journal, id);
  }

  /** The event is a rotation that wins with this expected revision. */
  predicate WinsWith(d: Desk, e: Event, id: BindingId, expected: nat) {
    e.RotateEnd? && Wins(d, e.t) && d.rotations[e.t].binding == id && d.rotations[e.t].expected == expected
  }

  predicate WinsAt(d: Desk, events: seq<Event>, n: nat, id: BindingId, expected: nat) {
    n < |events| && WinsWith(At(d, events, n), events[n], id, expected)
  }

  lemma SavedRotationLasts(d: Desk, events: seq<Event>, i: nat, j: nat, id: BindingId, expected: nat)
    requires Inv(d) && i < j <= |events| && WinsAt(d, events, i, id, expected) && events[i].saved
    ensures var later := At(d, events, j); id in later.memory.bindings && later.memory.bindings[id].revision > expected
  {
    AtNext(d, events, i);
    JournalNeverGoesBack(d, events, i + 1, j);
    assert LaterAt(At(d, events, i + 1).journal, At(d, events, j).memory, id);
  }

  /** A winner whose save succeeded is the only one there is: nobody wins with that expected revision
      again, saved or not, before or after any crash. */
  lemma OneSavedWinner(d: Desk, events: seq<Event>, i: nat, j: nat, id: BindingId, expected: nat)
    requires Inv(d) && i < j && WinsAt(d, events, i, id, expected) && events[i].saved
    ensures !WinsAt(d, events, j, id, expected)
  {
    if j <= |events| {
      SavedRotationLasts(d, events, i, j, id, expected);
    }
  }

  // ------------------------------------------------------------- what is only in memory, exactly

  /** No restart found memory ahead of the journal. */
  ghost predicate NothingLost(d: Desk, events: seq<Event>) {
    forall k {:trigger events[k]} :: 0 <= k < |events| && events[k].Crash? ==>
      At(d, events, k).memory == At(d, events, k).journal
  }

  lemma {:induction false} MemoryForward(d: Desk, events: seq<Event>, i: nat, j: nat)
    requires Inv(d) && NothingLost(d, events) && i <= j <= |events|
    ensures Later(At(d, events, i).memory, At(d, events, j).memory)
    decreases j
  {
    if i == j {
      LaterReflexive(At(d, events, i).memory);
    } else {
      MemoryForward(d, events, i, j - 1);
      HistoryStep(d, events, j - 1);
      AfterRestart(d, events, j - 1);
      LaterThen(At(d, events, i).memory, At(d, events, j - 1).memory, At(d, events, j).memory,
                At(d, events, j - 1).vault, At(d, events, j).vault);
    }
  }

  lemma AfterRestart(d: Desk, events: seq<Event>, k: nat)
    requires k < |events|
    ensures events[k].Crash? ==> At(d, events, k + 1).memory == At(d, events, k).journal
    ensures events[k].Crash? && At(d, events, k).memory == At(d, events, k).journal ==>
              Later(At(d, events, k).memory, At(d, events, k + 1).memory)
  {
    AtNext(d, events, k);
    LaterReflexive(At(d, events, k).memory);
  }

  /** Exactly when memory never goes back over a whole history, so that every revocation, rotation and
      pin in it lasts: when every restart found everything saved. */
  lemma MemoryNeverGoesBack(d: Desk, events: seq<Event>)
    requires Inv(d)
    ensures (forall i, j :: 0 <= i <= j <= |events| ==> Later(At(d, events, i).memory, At(d, events, j).memory))
            <==> NothingLost(d, events)
  {
    if NothingLost(d, events) {
      forall i, j | 0 <= i <= j <= |events|
        ensures Later(At(d, events, i).memory, At(d, events, j).memory)
      {
        MemoryForward(d, events, i, j);
      }
    } else {
      var k :| 0 <= k < |events| && events[k].Crash? && At(d, events, k).memory != At(d, events, k).journal;
      AfterRestart(d, events, k);
      Reachable(d, events[..k]);
      var p := At(d, events, k);
      if Later(p.memory, At(d, events, k + 1).memory) {
        LaterBothWays(p.journal, p.memory, p.vault);
      }
    }
  }

  /** Memory holds a revision as long as no restart reads a journal without it. */
  lemma {:induction false} RevisionHolds(d: Desk, events: seq<Event>, i: nat, j: nat, id: BindingId, revision: nat)
    requires Inv(d) && i <= j <= |events| && Reached(At(d, events, i).memory, id, revision)
    requires forall k {:trigger events[k]} :: i <= k < j && events[k].Crash? ==>
                 Reached(At(d, events, k).journal, id, revision)
    ensures Reached(At(d, events, j).memory, id, revision)
    decreases j
  {
    if i < j {
      RevisionHolds(d, events, i, j - 1, id, revision);
      HistoryStep(d, events, j - 1);
      AfterRestart(d, events, j - 1);
      assert events[j - 1].Crash? || LaterAt(At(d, events, j - 1).memory, At(d, events, j).memory, id);
    }
  }

  predicate Reached(b: Books, id: BindingId, revision: nat) {
    id in b.bindings && b.bindings[id].revision >= revision
  }

  /** Two winners with one expected revision: a restart in between read a journal without the first. */
  lemma SecondWinnerNeedsLostSave(d: Desk, events: seq<Event>, i: nat, j: nat, id: BindingId, expected: nat)
    requires Inv(d) && i < j && WinsAt(d, events, i, id, expected) && WinsAt(d, events, j, id, expected)
    ensures exists k :: i < k < j && events[k].Crash? && !Reached(At(d, events, k).journal, id, expected + 1)
  {
    AtNext(d, events, i);
    if forall k {:trigger events[k]} :: i < k < j && events[k].Crash? ==>
           Reached(At(d, events, k).journal, id, expected + 1) {
      RevisionHolds(d, events, i + 1, j, id, expected + 1);
    }
  }

  ghost predicate CanWin(d: Desk, id: BindingId, expected: nat) {
    exists more, e :: WinsWith(Exec(d, more), e, id, expected)
  }

  /** A rotation with this expected revision may still win: the binding can be bound, or is active and
      has not passed it. */
  predicate Winnable(b: Books, id: BindingId, expected: nat) {
    expected >= 1 && (id in b.bindings ==> b.bindings[id].active && b.bindings[id].revision <= expected)
  }

  /** One rotation from beginning to end, with nothing in between. */
  function Turnover(id: BindingId, expected: nat): seq<Event> {
    [RotateBegin(0, id, expected), Fetch(0), RotateEnd(0, true)]
  }

  lemma BeforeTurnover(d: Desk, id: BindingId)
    requires Inv(d) && d.rotations == map[] && id in d.memory.bindings && d.memory.bindings[id].active
    ensures var b := d.memory.bindings[id]; var ready := Exec(d, [RotateBegin(0, id, b.revision), Fetch(0)]);
      && b.key in d.vault
      && ready == d.(rotations := map[0 := Rotation(id, b.revision, b.key, Some(d.vault[b.key]))])
      && WinsWith(ready, RotateEnd(0, true), id, b.revision)
  {
    var b := d.memory.bindings[id];
    assert BindingAt(d.memory, d.vault, id);
    ExecStep(d, [], RotateBegin(0, id, b.revision));
    ExecStep(d, [RotateBegin(0, id, b.revision)], Fetch(0));
  }

  lemma AfterTurnover(d: Desk, id: BindingId)
    requires Inv(d) && d.rotations == map[] && id in d.memory.bindings && d.memory.bindings[id].active
    ensures var b := d.memory.bindings[id]; var done := Exec(d, Turnover(id, b.revision));
      && b.key in d.vault && done.vault == d.vault && done.rotations == map[]
      && id in done.memory.bindings && done.memory.bindings[id] == Rotated(b, d.vault[b.key])
  {
    var b := d.memory.bindings[id];
    BeforeTurnover(d, id);
    ExecStep(d, [RotateBegin(0, id, b.revision), Fetch(0)], RotateEnd(0, true));
    assert Turnover(id, b.revision) == [RotateBegin(0, id, b.revision), Fetch(0)] + [RotateEnd(0, true)];
  }

  /** An active binding can be rotated up to any revision it has not passed. */
  lemma {:induction false} RotateUp(d: Desk, id: BindingId, target: nat) returns (more: seq<Event>)
    requires Inv(d) && d.rotations == map[]
    requires id in d.memory.bindings && d.memory.bindings[id].active && d.memory.bindings[id].revision <= target
    ensures var b, done := d.memory.bindings[id], Exec(d, more);
      && Inv(done) && done.vault == d.vault && done.rotations == map[]
      && id in done.memory.bindings && done.memory.bindings[id].active && done.memory.bindings[id].revision == target
      && (if b.revision == target then done == d
          else b.key in d.vault && done.memory.bindings[id].version == d.vault[b.key])
    decreases target - d.memory.bindings[id].revision
  {
    var b := d.memory.bindings[id];
    if b.revision == target {
      more := [];
    } else {
      AfterTurnover(d, id);
      Reachable(d, Turnover(id, b.revision));
      var rest := RotateUp(Exec(d, Turnover(id, b.revision)), id, target);
      more := Turnover(id, b.revision) + rest;
      ExecSplit(d, Turnover(id, b.revision), rest);
    }
  }

  /** A binding the books do not know can be bound, at a version newer than any the vault had. */
  lemma BindAnew(d: Desk, id: BindingId, key: VaultKey) returns (more: seq<Event>)
    requires Inv(d) && id !in d.memory.bindings
    ensures var done := Exec(d, more);
      && Inv(done) && done.rotations == d.rotations && key in done.vault
      && (key in d.vault ==> d.vault[key] < done.vault[key])
      && id in done.memory.bindings && done.memory.bindings[id] == NewBinding(0, 0, key, done.vault[key])
  {
    more := [NewVersion(key), BindNew(id, 0, 0, key, 0, true)];
    ExecStep(d, [], NewVersion(key));
    ExecStep(d, [NewVersion(key)], BindNew(id, 0, 0, key, 0, true));
    Reachable(d, more);
  }

  lemma WinnableWins(d: Desk, id: BindingId, expected: nat)
    requires Inv(d) && d.rotations == map[] && id in d.memory.bindings && Winnable(d.memory, id, expected)
    ensures CanWin(d, id, expected)
  {
    var up := RotateUp(d, id, expected);
    var there := Exec(d, up);
    BeforeTurnover(there, id);
    ExecSplit(d, up, [RotateBegin(0, id, expected), Fetch(0)]);
    assert WinsWith(Exec(d, up + [RotateBegin(0, id, expected), Fetch(0)]), RotateEnd(0, true), id, expected);
  }

  lemma WinnersAreWinnable(d: Desk, more: seq<Event>, e: Event, id: BindingId, expected: nat)
    requires Inv(d) && WinsWith(Exec(d, more), e, id, expected)
    ensures Winnable(d.journal, id, expected)
  {
    var p := Exec(d, more);
    assert more[..0] == [] && more[..|more|] == more;
    JournalNeverGoesBack(d, more, 0, |more|);
    Reachable(d, more);
    assert LaterAt(d.journal, p.memory, id) && BindingAt(p.memory, p.vault, id);
  }

  /** Exactly when a crash at this moment lets a rotation win with this expected revision again (or for
      the first time): when the journal, not memory, leaves room for it. */
  lemma WinsAfterCrash(d: Desk, id: BindingId, expected: nat)
    requires Inv(d)
    ensures CanWin(Next(d, Crash), id, expected) <==> Winnable(d.journal, id, expected)
  {
    var c := Next(d, Crash);
    StepKeeps(d, Crash);
    if Winnable(d.journal, id, expected) {
      if id in d.journal.bindings {
        WinnableWins(c, id, expected);
      } else {
        var bind := BindAnew(c, id, 0);
        WinnableWins(Exec(c, bind), id, expected);
        var more, e :| WinsWith(Exec(Exec(c, bind), more), e, id, expected);
        ExecSplit(c, bind, more);
      }
    }
    if CanWin(c, id, expected) {
      var more, e :| WinsWith(Exec(c, more), e, id, expected);
      WinnersAreWinnable(c, more, e, id, expected);
    }
  }

  ghost predicate CanBeActive(d: Desk, id: BindingId) {
    exists more :: id in Exec(d, more).memory.bindings && Exec(d, more).memory.bindings[id].active
  }

  /** Exactly when a revoked binding may yet be active again: unless the revocation is in the journal. */
  lemma ActiveAgain(d: Desk, id: BindingId)
    requires Inv(d) && id in d.memory.bindings && !d.memory.bindings[id].active
    ensures CanBeActive(d, id) <==> !(id in d.journal.bindings && !d.journal.bindings[id].active)
  {
    var c := Next(d, Crash);
    StepKeeps(d, Crash);
    ExecStep(d, [], Crash);
    if id !in d.journal.bindings {
      var bind := BindAnew(c, id, 0);
      ExecSplit(d, [Crash], bind);
      assert CanBeActive(d, id);
    } else if d.journal.bindings[id].active {
      assert id in Exec(d, [Crash]).memory.bindings && Exec(d, [Crash]).memory.bindings[id].active;
    } else {
      forall more
        ensures !(id in Exec(d, more).memory.bindings && Exec(d, more).memory.bindings[id].active)
      {
        assert more[..0] == [] && more[..|more|] == more;
        SavedRevocationLasts(d, more, 0, |more|, id);
      }
    }
  }

  // ----------------------------------------------------------------------------------- deliveries

  /** The value of this delivery was read here, at exactly the version it remembers, and the process has
      lived from then on. */
  ghost predicate ReadAt(d: Desk, events: seq<Event>, r: nat, n: nat, t: ThreadId, x: Delivery)
    requires n <= |events|
  {
    && r < n && events[r] == Read(t)
    && Readable(At(d, events, r), t) && At(d, events, r).deliveries[t].(read := true) == x
    && (forall k :: r <= k < n ==> !events[k].Crash?)
  }

  /** A delivery that has read its value has just done so, or had before this section. */
  lemma ReadComesFrom(d: Desk, e: Event, t: ThreadId)
    requires t in Next(d, e).deliveries && Next(d, e).deliveries[t].read
    ensures !e.Crash? && t in d.deliveries
    ensures if e == Read(t) then Readable(d, t) && d.deliveries[t].(read := true) == Next(d, e).deliveries[t]
            else d.deliveries[t] == Next(d, e).deliveries[t]
  {
  }

  lemma {:induction false} ReadBefore(d: Desk, events: seq<Event>, n: nat, t: ThreadId) returns (r: nat)
    requires d.deliveries == map[] && n <= |events|
    requires t in At(d, events, n).deliveries && At(d, events, n).deliveries[t].read
    ensures ReadAt(d, events, r, n, t, At(d, events, n).deliveries[t])
    decreases n
  {
    assert n > 0;
    AtNext(d, events, n - 1);
    ReadComesFrom(At(d, events, n - 1), events[n - 1], t);
    if events[n - 1] == Read(t) {
      r := n - 1;
    } else {
      r := ReadBefore(d, events, n - 1, t);
    }
  }

  /** Every delivery, over every interleaving, lost save and crash: at its second check the binding is
      active at the revision the run is pinned to, and the value was read at exactly the vault version of
      that revision, earlier and in the same life of the process. */
  lemma DeliveredAsPinned(d: Desk, events: seq<Event>, n: nat)
    requires Inv(d) && d.deliveries == map[] && n < |events| && Delivers(At(d, events, n), events[n])
    ensures var now := At(d, events, n); var x := now.deliveries[events[n].t];
      && x.run in now.memory.runs && x.binding in now.memory.bindings
      && now.memory.runs[x.run].Some? && now.memory.runs[x.run].value.binding == x.binding
      && var b := now.memory.bindings[x.binding];
      && b.active && b.revision == now.memory.runs[x.run].value.revision && b.key == x.key && b.version == x.version
      && exists r :: ReadAt(d, events, r, n, events[n].t, x)
  {
    var now := At(d, events, n);
    var x := now.deliveries[events[n].t];
    Reachable(d, events[..n]);
    assert DeliveryAt(now, events[n].t) && BindingAt(now.memory, now.vault, x.binding);
    var r := ReadBefore(d, events, n, events[n].t);
  }

  /** A delivery at a revision that is in the journal is never contradicted: as long as the history shows
      that revision, it shows the delivered version. */
  lemma SavedDeliveryLasts(d: Desk, events: seq<Event>, n: nat, j: nat)
    requires Inv(d) && d.deliveries == map[] && n < j <= |events| && Delivers(At(d, events, n), events[n])
    requires var x := At(d, events, n).deliveries[events[n].t];
      Reached(At(d, events, n).journal, x.binding, At(d, events, n).memory.runs[x.run].value.revision)
    ensures var x := At(d, events, n).deliveries[events[n].t];
            var revision := At(d, events, n).memory.runs[x.run].value.revision;
      && x.binding in At(d, events, j).memory.bindings
      && var b := At(d, events, j).memory.bindings[x.binding];
      && b.key == x.key && revision <= b.revision && (Shows(b, revision) ==> VersionOf(b, revision) == x.version)
  {
    var now, later := At(d, events, n), At(d, events, j);
    var x := now.deliveries[events[n].t];
    DeliveredAsPinned(d, events, n);
    Reachable(d, events[..n]);
    JournalNeverGoesBack(d, events, n, j);
    assert LaterAt(now.journal, now.memory, x.binding) && LaterAt(now.journal, later.memory, x.binding);
    assert BindingAt(now.memory, now.vault, x.binding) && BindingAt(now.journal, now.vault, x.binding);
    assert Shows(now.journal.bindings[x.binding], now.memory.runs[x.run].value.revision);
  }

  /** The binding can come to stand at this revision with another version. */
  ghost predicate CanDisagree(d: Desk, id: BindingId, revision: nat, version: nat) {
    exists more :: Disagrees(Exec(d, more).memory, id, revision, version)
  }

  predicate Disagrees(b: Books, id: BindingId, revision: nat, version: nat) {
    id in b.bindings && b.bindings[id].revision == revision && b.bindings[id].version != version
  }

  /** From books without this revision, a newer vault version can become its version. */
  lemma AnotherVersion(d: Desk, id: BindingId, key: VaultKey, revision: nat, version: nat)
    requires Inv(d) && d.rotations == map[] && revision >= 1 && key in d.vault && version <= d.vault[key]
    requires id in d.memory.bindings ==>
      var b := d.memory.bindings[id]; b.active && b.key == key && b.revision < revision
    ensures CanDisagree(d, id, revision, version)
  {
    var first: seq<Event>;
    if id in d.memory.bindings {
      first := [NewVersion(key)];
      ExecStep(d, [], NewVersion(key));
    } else {
      first := BindAnew(d, id, key);
    }
    Reachable(d, first);
    var up := RotateUp(Exec(d, first), id, revision);
    ExecSplit(d, first, up);
    assert Disagrees(Exec(d, first + up).memory, id, revision, version);
  }

  lemma SameRevisionSameVersion(b: Binding, c: Binding)
    requires BindingLater(b, c) && HistoryOk(b) && HistoryOk(c) && c.revision == b.revision
    ensures c.version == b.version
  {
    assert Shows(b, b.revision) && VersionOf(b, b.revision) == b.version;
  }

  lemma JournalledVersionStays(d: Desk, more: seq<Event>, id: BindingId, revision: nat)
    requires Inv(d) && id in d.memory.bindings && d.memory.bindings[id].revision == revision
    requires Reached(d.journal, id, revision)
    ensures !Disagrees(Exec(d, more).memory, id, revision, d.memory.bindings[id].version)
  {
    var later := Exec(d, more);
    assert more[..0] == [] && more[..|more|] == more;
    JournalNeverGoesBack(d, more, 0, |more|);
    Reachable(d, more);
    assert LaterAt(d.journal, d.memory, id) && LaterAt(d.journal, later.memory, id);
    assert BindingAt(d.journal, d.vault, id) && BindingAt(d.memory, d.vault, id)
               && BindingAt(later.memory, later.vault, id);
    SameRevisionSameVersion(d.journal.bindings[id], d.memory.bindings[id]);
    if later.memory.bindings[id].revision == revision {
      SameRevisionSameVersion(d.journal.bindings[id], later.memory.bindings[id]);
    }
  }

  /** Exactly when the version of the revision an active binding stands at, and so of what is delivered
      at it, may yet be another one: when the journal does not have that revision. */
  lemma ServedVersionCanChange(d: Desk, id: BindingId)
    requires Inv(d) && id in d.memory.bindings && d.memory.bindings[id].active
    ensures var b := d.memory.bindings[id];
      CanDisagree(d, id, b.revision, b.version) <==> !Reached(d.journal, id, b.revision)
  {
    var b, c := d.memory.bindings[id], Next(d, Crash);
    if Reached(d.journal, id, b.revision) {
      forall more
        ensures !Disagrees(Exec(d, more).memory, id, b.revision, b.version)
      {
        JournalledVersionStays(d, more, id, b.revision);
      }
    } else {
      StepKeeps(d, Crash);
      ExecStep(d, [], Crash);
      assert BindingAt(d.memory, d.vault, id) && LaterAt(d.journal, d.memory, id);
      AnotherVersion(c, id, b.key, b.revision, b.version);
      var more :| Disagrees(Exec(c, more).memory, id, b.revision, b.version);
      ExecSplit(d, [Crash], more);
    }
  }

  // ---------------------------------------------------------------------- two histories of lost saves

  lemma Bound() returns (events: seq<Event>)
    ensures var d := Exec(Start(map[]), events); var books := Books(map[1 := NewBinding(0, 0, 0, 1)], map[]);
      d == Desk(books, books, map[0 := 1], map[], map[])
  {
    events := [NewVersion(0), BindNew(1, 0, 0, 0, 0, true)];
    ExecStep(Start(map[]), [], NewVersion(0));
    ExecStep(Start(map[]), [NewVersion(0)], BindNew(1, 0, 0, 0, 0, true));
  }

  /** A revocation whose save fails is gone after a restart. */
  lemma LostRevocation() returns (events: seq<Event>)
    ensures var revoked, restarted := Exec(Start(map[]), events), Exec(Start(map[]), events + [Crash]);
      && 1 in revoked.memory.bindings && !revoked.memory.bindings[1].active
      && 1 in restarted.memory.bindings && restarted.memory.bindings[1].active
  {
    var bound := Bound();
    events := bound + [RevokeBinding(1, false)];
    ExecStep(Start(map[]), bound, RevokeBinding(1, false));
    ExecStep(Start(map[]), events, Crash);
  }

  /** A rotation whose save fails: a run is pinned to its revision and served its version, and after a
      restart a second rotation wins with the same expected revision, at another version. */
  lemma LostRotation() returns (first: seq<Event>, served: seq<Event>, second: seq<Event>)
    ensures var start := Start(map[]);
      && WinsWith(Exec(start, first), RotateEnd(0, false), 1, 1)
      && Delivers(Exec(start, first + served), DeliverEnd(0))
      && Exec(start, first + served).deliveries[0].version == 1
      && Exec(start, first + served).memory.runs == map[1 := Some(Credential(1, 0, 0, 2))]
      && WinsWith(Exec(start, first + served + second), RotateEnd(0, true), 1, 1)
      && var last := Exec(start, first + served + second + [RotateEnd(0, true)]);
      && 1 in last.journal.bindings && last.journal.bindings[1].revision == 2 && last.journal.bindings[1].version == 2
  {
    var bound := Bound();
    var start, d := Start(map[]), Exec(Start(map[]), bound);
    first := bound + [RotateBegin(0, 1, 1), Fetch(0)];
    StartIsGood(map[]);
    Reachable(start, bound);
    BeforeTurnover(d, 1);
    ExecSplit(start, bound, [RotateBegin(0, 1, 1), Fetch(0)]);
    served := [RotateEnd(0, false)] + ServedEvents();
    var b := Exec(start, first);
    var s := ServedAtLost(Next(b, RotateEnd(0, false)));
    ExecStep(b, [], RotateEnd(0, false));
    ExecSplit(b, [RotateEnd(0, false)], ServedEvents());
    ExecSplit(start, first, served);
    second := [Crash, NewVersion(0)] + [RotateBegin(0, 1, 1), Fetch(0)];
    Reachable(start, first + served);
    SecondTurn(s);
    ExecSplit(start, first + served, second);
    ExecStep(start, first + served + second, RotateEnd(0, true));
  }

  function ServedEvents(): seq<Event> {
    [Pin(1, Some(Credential(1, 0, 0, 2)), false), DeliverBegin(0, 1, 1), Read(0)]
  }

  lemma ServedAtLost(d: Desk) returns (s: Desk)
    requires d.memory.runs == map[] && d.deliveries == map[] && d.vault == map[0 := 1]
    requires d.memory.bindings == map[1 := Rotated(NewBinding(0, 0, 0, 1), 1)]
    ensures s == Exec(d, ServedEvents()) && s.journal == d.journal && s.vault == d.vault
    ensures Delivers(s, DeliverEnd(0)) && s.deliveries[0].version == 1
    ensures s.memory.runs == map[1 := Some(Credential(1, 0, 0, 2))]
  {
    var credential := Credential(1, 0, 0, 2);
    var pinned := Next(d, Pin(1, Some(credential), false));
    assert Usable(d.memory, credential);
    assert pinned == d.(memory := d.memory.(runs := map[1 := Some(credential)]));
    var begun := Next(pinned, DeliverBegin(0, 1, 1));
    assert Deliverable(pinned.memory, 1, 1);
    assert begun.deliveries == map[0 := Delivery(1, 1, 0, 1, false)];
    s := Next(begun, Read(0));
    assert Readable(begun, 0);
    ExecTwo(d, Pin(1, Some(credential), false), DeliverBegin(0, 1, 1));
    ExecStep(d, [Pin(1, Some(credential), false), DeliverBegin(0, 1, 1)], Read(0));
    assert ServedEvents() == [Pin(1, Some(credential), false), DeliverBegin(0, 1, 1)] + [Read(0)];
  }

  lemma SecondTurn(d: Desk)
    requires Inv(d) && d.journal == Books(map[1 := NewBinding(0, 0, 0, 1)], map[]) && d.vault == map[0 := 1]
    ensures var ready := Exec(d, [Crash, NewVersion(0)] + [RotateBegin(0, 1, 1), Fetch(0)]);
      && WinsWith(ready, RotateEnd(0, true), 1, 1) && ready.rotations[0].fetched == Some(2)
      && ready.memory == d.journal
  {
    ExecTwo(d, Crash, NewVersion(0));
    Reachable(d, [Crash, NewVersion(0)]);
    BeforeTurnover(Exec(d, [Crash, NewVersion(0)]), 1);
    ExecSplit(d, [Crash, NewVersion(0)], [RotateBegin(0, 1, 1), Fetch(0)]);
  }

  // ---------------------------------------------------------------------------------- the object

  class BindingDesk {
    var desk: Desk

    ghost predicate Valid()
      reads this
    {
      Inv(desk)
    }

    constructor (vault: map<VaultKey, nat>)
      ensures Valid() && desk == Start(vault)
    {
      desk := Start(vault);
      new;
      StartIsGood(vault);
    }

    /** `_save`: all of memory replaces the journal, or the request ends with memory ahead of it. */
    method Save(succeeds: bool)
      modifies this
      ensures desk == Adopt(old(desk), old(desk).memory, succeeds)
    {
      if succeeds {
        desk := desk.(journal := desk.memory);
      }
    }

    /** `bind`: the version was fetched `behind` vault writes ago. */
    method Bind(id: BindingId, project: nat, profile: nat, key: VaultKey, behind: nat, saved: bool) returns (ok: bool)
      requires Valid()
      modifies this
      ensures Valid() && Later(old(desk).journal, desk.journal) && Later(old(desk).memory, desk.memory)
      ensures desk == Next(old(desk), BindNew(id, project, profile, key, behind, saved))
      ensures ok ==> id in desk.journal.bindings && desk.journal == desk.memory
      ensures id !in old(desk).memory.bindings && id in desk.memory.bindings ==>
        desk.memory.bindings[id] ==
          Binding(project, profile, key, old(desk).vault[key] - behind, 1, true,
            [Turn(1, old(desk).vault[key] - behind)])
    {
      StepKeeps(desk, BindNew(id, project, profile, key, behind, saved));
      if key !in desk.vault || behind >= desk.vault[key] || id in desk.memory.bindings {
        return false;
      }
      var version := desk.vault[key] - behind;
      var binding := Binding(project, profile, key, version, 1, true, [Turn(1, version)]);
      desk := desk.(memory := desk.memory.(bindings := desk.memory.bindings[id := binding]));
      Save(saved);
      return saved;
    }

    /** `pin_run`: pinned once, and a repeat must be equal. */
    method PinRun(run: RunId, credential: Option<Credential>, saved: bool) returns (ok: bool)
      requires Valid()
      modifies this
      ensures Valid() && Later(old(desk).journal, desk.journal) && Later(old(desk).memory, desk.memory)
      ensures desk == Next(old(desk), Pin(run, credential, saved))
      ensures ok <==> Pinnable(old(desk).memory, run, credential) && (saved || run in old(desk).memory.runs)
      ensures ok ==> run in desk.memory.runs && desk.memory.runs[run] == credential
      ensures ok && run !in old(desk).memory.runs ==> desk.journal == desk.memory
    {
      StepKeeps(desk, Pin(run, credential, saved));
      if credential.Some? && !Usable(desk.memory, credential.value) {
        return false;
      }
      if run in desk.memory.runs {
        return desk.memory.runs[run] == credential;
      }
      desk := desk.(memory := desk.memory.(runs := desk.memory.runs[run := credential]));
      Save(saved);
      return saved;
    }

    /** `rotate`, first section: the caller must name the current revision of an active binding. */
    method RotateCheck(t: ThreadId, binding: BindingId, expected: nat) returns (ok: bool)
      requires Valid() && t !in desk.rotations
      modifies this
      ensures Valid() && desk == Next(old(desk), RotateBegin(t, binding, expected))
      ensures desk.memory == old(desk).memory && desk.journal == old(desk).journal
      ensures ok <==> Rotatable(desk.memory, binding, expected) && t in desk.rotations
    {
      StepKeeps(desk, RotateBegin(t, binding, expected));
      if binding !in desk.memory.bindings || !desk.memory.bindings[binding].active {
        return false;
      }
      var record := desk.memory.bindings[binding];
      if record.revision != expected {
        return false;
      }
      desk := desk.(rotations := desk.rotations[t := Rotation(binding, expected, record.key, None)]);
      return true;
    }

    /** `current_version`, outside the lock. */
    method RotateFetch(t: ThreadId)
      requires Valid() && t in desk.rotations
      modifies this
      ensures Valid() && desk == Next(old(desk), Fetch(t))
      ensures t in desk.rotations && desk.rotations[t].key in desk.vault
      ensures desk.rotations[t].fetched == Some(desk.vault[desk.rotations[t].key])
    {
      StepKeeps(desk, Fetch(t));
      assert RotationAt(desk, t) && BindingAt(desk.memory, desk.vault, desk.rotations[t].binding);
      var r := desk.rotations[t];
      desk := desk.(rotations := desk.rotations[t := r.(fetched := Some(desk.vault[r.key]))]);
    }

    /** `rotate`, second section: the first rotation to get here with an expected revision wins in memory,
        and has won for good once it is saved. */
    method RotateCommit(t: ThreadId, saved: bool) returns (ok: bool)
      requires Valid() && t in desk.rotations && desk.rotations[t].fetched.Some?
      modifies this
      ensures Valid() && Later(old(desk).journal, desk.journal) && Later(old(desk).memory, desk.memory)
      ensures desk == Next(old(desk), RotateEnd(t, saved))
      ensures ok <==> Wins(old(desk), t) && saved
      ensures ok ==>
        var r := old(desk).rotations[t];
        && r.binding in desk.journal.bindings && desk.journal == desk.memory
        && desk.journal.bindings[r.binding].revision == r.expected + 1
        && desk.journal.bindings[r.binding].version == r.fetched.value
    {
      StepKeeps(desk, RotateEnd(t, saved));
      var r := desk.rotations[t];
      desk := desk.(rotations := desk.rotations - {t});
      if r.binding !in desk.memory.bindings || !desk.memory.bindings[r.binding].active {
        return false;
      }
      var record := desk.memory.bindings[r.binding];
      if record.revision != r.expected {
        return false;
      }
      record := record.(revision := record.revision + 1);
      record := record.(version := r.fetched.value);
      record := record.(history := record.history + [Turn(record.revision, record.version)]);
      if |record.history| > KEPT_HISTORY {
        record := record.(history := record.history[|record.history| - KEPT_HISTORY..]);
      }
      desk := desk.(memory := desk.memory.(bindings := desk.memory.bindings[r.binding := record]));
      Save(saved);
      return saved;
    }

    /** `revoke`. */
    method Revoke(binding: BindingId, saved: bool) returns (ok: bool)
      requires Valid()
      modifies this
      ensures Valid() && Later(old(desk).journal, desk.journal) && Later(old(desk).memory, desk.memory)
      ensures desk == Next(old(desk), RevokeBinding(binding, saved))
      ensures ok <==> saved && binding in old(desk).memory.bindings && old(desk).memory.bindings[binding].active
      ensures binding in old(desk).memory.bindings ==>
        binding in desk.memory.bindings && !desk.memory.bindings[binding].active
      ensures ok ==> binding in desk.journal.bindings && !desk.journal.bindings[binding].active
    {
      StepKeeps(desk, RevokeBinding(binding, saved));
      if binding !in desk.memory.bindings || !desk.memory.bindings[binding].active {
        return false;
      }
      var record := desk.memory.bindings[binding].(active := false);
      desk := desk.(memory := desk.memory.(bindings := desk.memory.bindings[binding := record]));
      Save(saved);
      return saved;
    }

    /** `deliver`, first check: remember which version to read. */
    method DeliverCheck(t: ThreadId, run: RunId, binding: BindingId) returns (ok: bool)
      requires Valid() && t !in desk.deliveries
      modifies this
      ensures Valid() && desk == Next(old(desk), DeliverBegin(t, run, binding))
      ensures desk.memory == old(desk).memory && desk.journal == old(desk).journal
      ensures ok <==> Deliverable(desk.memory, run, binding) && t in desk.deliveries
      ensures ok ==> desk.deliveries[t].version == desk.memory.bindings[binding].version
    {
      StepKeeps(desk, DeliverBegin(t, run, binding));
      if run !in desk.memory.runs || desk.memory.runs[run].None? || desk.memory.runs[run].value.binding != binding {
        return false;
      }
      if binding !in desk.memory.bindings || !desk.memory.bindings[binding].active {
        return false;
      }
      var record := desk.memory.bindings[binding];
      if record.revision != desk.memory.runs[run].value.revision {
        return false;
      }
      desk := desk.(deliveries := desk.deliveries[t := Delivery(run, binding, record.key, record.version, false)]);
      return true;
    }

    /** The vault read, at exactly the remembered version; it refuses a version that is not current,
        which ends the delivery. */
    method DeliverRead(t: ThreadId) returns (ok: bool)
      requires Valid() && t in desk.deliveries
      modifies this
      ensures Valid() && desk == Next(old(desk), Read(t))
      ensures ok <==> Readable(old(desk), t)
      ensures ok <==> t in desk.deliveries && desk.deliveries[t].read
    {
      StepKeeps(desk, Read(t));
      var x := desk.deliveries[t];
      if x.key !in desk.vault || desk.vault[x.key] != x.version {
        desk := desk.(deliveries := desk.deliveries - {t});
        return false;
      }
      desk := desk.(deliveries := desk.deliveries[t := x.(read := true)]);
      return true;
    }

    /** `deliver`, second check: revocation or rotation while fetching wins over delivery. */
    method DeliverRecheck(t: ThreadId) returns (delivered: Option<Delivery>)
      requires Valid() && t in desk.deliveries && desk.deliveries[t].read
      modifies this
      ensures Valid() && desk == Next(old(desk), DeliverEnd(t))
      ensures delivered.Some? <==> Delivers(old(desk), DeliverEnd(t))
      ensures delivered.Some? ==>
        && delivered.value == old(desk).deliveries[t] && delivered.value.run in desk.memory.runs
        && delivered.value.binding in desk.memory.bindings && desk.memory.runs[delivered.value.run].Some?
        && var b := desk.memory.bindings[delivered.value.binding];
        && b.active && b.revision == desk.memory.runs[delivered.value.run].value.revision
        && b.key == delivered.value.key && b.version == delivered.value.version
    {
      StepKeeps(desk, DeliverEnd(t));
      assert DeliveryAt(desk, t) && BindingAt(desk.memory, desk.vault, desk.deliveries[t].binding);
      var x := desk.deliveries[t];
      desk := desk.(deliveries := desk.deliveries - {t});
      return if Deliverable(desk.memory, x.run, x.binding) then Some(x) else None;
    }

    /** A crash forgets every request in progress and whatever was not saved; `_load` reads the journal. */
    method Restart()
      requires Valid()
      modifies this
      ensures Valid() && desk == Next(old(desk), Crash)
      ensures Later(desk.memory, old(desk).memory)
    {
      StepKeeps(desk, Crash);
      desk := Desk(desk.journal, desk.journal, desk.vault, map[], map[]);
    }
  }
}
