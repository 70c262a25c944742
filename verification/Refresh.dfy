/** The four-file refresh of scripts/review-runtime-refresh.py (journal version 1).

    Unlike the package transaction it keeps one set of backups, `old-0` to `old-3`, overwritten in
    place by every refresh, and rollback never records a phase of its own. As in `RuntimePackage`,
    every durable effect goes through `Store`, which demands the invariant of the disk it produces. */
module RuntimeRefresh {
  import opened Prelude

  const TARGETS: nat := 4 // supervisor, broker and their two installation journals

  datatype Phase = Prepared | Replacing | Applied | Committed | RolledBack

  datatype Entry = Entry(before: Digest, after: Digest)

  datatype Journal = Journal(phase: Phase, files: seq<Entry>, facts: nat)

  datatype Disk = Disk(
    targets: seq<Bytes>, backups: seq<Option<Bytes>>, journal: Option<Journal>, supervisorUp: bool, brokerUp: bool)

  datatype Outcome = Done | Skipped | Refused | Interrupted

  predicate Closed(d: Disk) {
    d.journal.None? || d.journal.value.phase in {Committed, RolledBack}
  }

  predicate IsOld(targets: seq<Bytes>, files: seq<Entry>, n: nat)
    requires n < |targets| && n < |files|
  {
    Sha256(targets[n]) == files[n].before
  }

  predicate IsNew(targets: seq<Bytes>, files: seq<Entry>, n: nat)
    requires n < |targets| && n < |files|
  {
    Sha256(targets[n]) == files[n].after
  }

  predicate AllOld(targets: seq<Bytes>, files: seq<Entry>)
    requires |targets| == |files| == TARGETS
  {
    forall n :: 0 <= n < TARGETS ==> IsOld(targets, files, n)
  }

  predicate AllNew(targets: seq<Bytes>, files: seq<Entry>)
    requires |targets| == |files| == TARGETS
  {
    forall n :: 0 <= n < TARGETS ==> IsNew(targets, files, n)
  }

  predicate OldOrNew(targets: seq<Bytes>, files: seq<Entry>)
    requires |targets| == |files| == TARGETS
  {
    forall n :: 0 <= n < TARGETS ==> IsOld(targets, files, n) || IsNew(targets, files, n)
  }

  predicate BackedUp(backups: seq<Option<Bytes>>, files: seq<Entry>)
    requires |backups| == |files| == TARGETS
  {
    forall n :: 0 <= n < TARGETS ==> backups[n].Some? && Sha256(backups[n].value) == files[n].before
  }

  /** The check `rollback` makes before it touches anything: every backup is the recorded old file, and
      every target is recognised. */
  predicate RollbackAccepts(d: Disk)
    requires |d.targets| == |d.backups| == TARGETS
  {
    d.journal.Some? && |d.journal.value.files| == TARGETS
    && BackedUp(d.backups, d.journal.value.files) && OldOrNew(d.targets, d.journal.value.files)
  }

  function Entries(before: seq<Bytes>, after: seq<Bytes>): (files: seq<Entry>)
    requires |before| == |after| == TARGETS
    ensures |files| == TARGETS && AllOld(before, files) && AllNew(after, files)
  {
    seq(TARGETS, n requires 0 <= n < TARGETS => Entry(Sha256(before[n]), Sha256(after[n])))
  }

  /** The bytes under a service start, or under a closing save, with the journal at that moment. */
  datatype Sighting = Sighting(journal: Journal, targets: seq<Bytes>)

  datatype History = History(starts: seq<Sighting>, closed: seq<Sighting>)

  ghost predicate Shaped(s: Sighting) {
    |s.targets| == |s.journal.files| == TARGETS
  }

  ghost predicate HistoryOk(h: History) {
    && (forall s :: s in h.starts ==>
             Shaped(s) && (AllOld(s.targets, s.journal.files) || AllNew(s.targets, s.journal.files)))
    && (forall s :: s in h.closed ==>
          && Shaped(s)
          && if s.journal.phase == Committed then AllNew(s.targets, s.journal.files)
             else s.journal.phase == RolledBack && AllOld(s.targets, s.journal.files))
  }

  ghost predicate Extends(h: History, later: History) {
    h.starts <= later.starts && h.closed <= later.closed
  }

  /** In every crash state: while the journal is unfinished the backups are its recorded old bytes, and
      from `replacing` on each target is old or new and a service is up only over four old or four new
      files. A prepared journal says nothing of the targets: another owner may have written them after
      their old bytes were read. */
  ghost predicate Inv(d: Disk, h: History) {
    && |d.targets| == |d.backups| == TARGETS
    && HistoryOk(h)
    && (d.journal.Some? ==> |d.journal.value.files| == TARGETS)
    && (!Closed(d) ==>
          var j := d.journal.value;
          && BackedUp(d.backups, j.files)
          && (j.phase != Prepared ==>
                && OldOrNew(d.targets, j.files)
                && (d.supervisorUp || d.brokerUp ==> AllOld(d.targets, j.files) || AllNew(d.targets, j.files))))
  }

  /** Exactly when the check of `rollback` accepts an unfinished refresh: when no target holds foreign
      bytes. That is always so once anything was replaced. */
  lemma RollbackAcceptsExactly(d: Disk, h: History)
    requires Inv(d, h) && !Closed(d)
    ensures RollbackAccepts(d) <==> OldOrNew(d.targets, d.journal.value.files)
    ensures d.journal.value.phase != Prepared ==> RollbackAccepts(d)
  {
  }

  /** The unfinished refresh can be taken back on a host with these facts: its protected files and runtime
      ledgers are as the journal recorded them, and no target holds foreign bytes. */
  predicate CanRollBack(d: Disk, facts: nat) {
    && d.journal.Some? && |d.targets| == |d.journal.value.files| == TARGETS
    && facts == d.journal.value.facts && OldOrNew(d.targets, d.journal.value.files)
  }

  /** Targets of which each is the one before or the one after a write of all four. */
  ghost predicate Between(targets: seq<Bytes>, before: seq<Bytes>, after: seq<Bytes>) {
    |targets| == |before| == |after| && forall n :: 0 <= n < |targets| ==>
      targets[n] == before[n] || targets[n] == after[n]
  }

  lemma BetweenIsOldOrNew(targets: seq<Bytes>, before: seq<Bytes>, after: seq<Bytes>)
    requires |before| == |after| == TARGETS
    ensures Between(targets, before, after) <==> |targets| == TARGETS && OldOrNew(targets, Entries(before, after))
  {
    if |targets| == TARGETS && OldOrNew(targets, Entries(before, after)) {
      forall n | 0 <= n < TARGETS
        ensures targets[n] == before[n] || targets[n] == after[n]
      {
        assert IsOld(targets, Entries(before, after), n) || IsNew(targets, Entries(before, after), n);
        assert IsOld(before, Entries(before, after), n) && IsNew(after, Entries(before, after), n);
      }
    }
  }

  lemma AllOldIsOld(targets: seq<Bytes>, before: seq<Bytes>, after: seq<Bytes>)
    requires |targets| == |before| == |after| == TARGETS
    ensures AllOld(targets, Entries(before, after)) <==> targets == before
  {
    if AllOld(targets, Entries(before, after)) {
      forall n | 0 <= n < TARGETS
        ensures targets[n] == before[n]
      {
        assert IsOld(targets, Entries(before, after), n) && IsOld(before, Entries(before, after), n);
      }
    }
  }

  lemma RestoringKeeps(targets: seq<Bytes>, before: seq<Bytes>, after: seq<Bytes>, files: seq<Entry>)
    requires Between(targets, before, after) && |targets| == |files| == TARGETS
    requires OldOrNew(before, files) && AllOld(after, files)
    ensures OldOrNew(targets, files)
  {
    forall n | 0 <= n < TARGETS
      ensures IsOld(targets, files, n) || IsNew(targets, files, n)
    {
      assert IsOld(before, files, n) || IsNew(before, files, n);
      assert IsOld(after, files, n);
    }
  }

  lemma OthersKept(targets: seq<Bytes>, written: seq<Bytes>, files: seq<Entry>, n: nat)
    requires |targets| == |written| == |files| == TARGETS && n < TARGETS && written == targets[n := written[n]]
    ensures forall k :: 0 <= k < TARGETS && k != n ==> IsOld(written, files, k) == IsOld(targets, files, k)
    ensures forall k :: 0 <= k < TARGETS && k != n ==> IsNew(written, files, k) == IsNew(targets, files, k)
  {
  }

  datatype Event =
    | ApplyRefresh(candidate: seq<Bytes>, during: seq<Bytes>, facts: nat, later: nat)
    | RollbackRefresh(facts: nat)
    | CommitRefresh(identityKept: bool)
    | OtherOwner(targets: seq<Bytes>, supervisorUp: bool, brokerUp: bool)

  class Refresh {
    var disk: Disk
    var power: Option<nat> // durable effects left before the process dies; None never dies
    ghost var history: History

    ghost predicate Valid()
      reads this
    {
      Inv(disk, history)
    }

    constructor (targets: seq<Bytes>, supervisorUp: bool, brokerUp: bool)
      requires |targets| == TARGETS
      ensures Valid() && history == History([], []) && power.None?
      ensures disk == Disk(targets, [None, None, None, None], None, supervisorUp, brokerUp)
    {
      disk := Disk(targets, [None, None, None, None], None, supervisorUp, brokerUp);
      power := None;
      history := History([], []);
    }

    method Store(next: Disk, ghost past: History) returns (alive: bool)
      requires Valid() && Inv(next, past) && Extends(history, past)
      modifies this
      ensures Valid()
      ensures alive <==> old(power) != Some(0)
      ensures disk == if alive then next else old(disk)
      ensures history == if alive then past else old(history)
      ensures power == if old(power).Some? && alive then Some(old(power).value - 1) else old(power)
    {
      if power == Some(0) {
        return false;
      }
      if power.Some? {
        power := Some(power.value - 1);
      }
      disk := next;
      history := past;
      return true;
    }

    /** `stop`: supervisor, then broker. */
    method Stop() returns (alive: bool)
      requires Valid()
      modifies this
      ensures Valid() && history == old(history)
      ensures disk == old(disk).(supervisorUp := disk.supervisorUp, brokerUp := disk.brokerUp)
      ensures alive ==> !disk.supervisorUp && !disk.brokerUp
      ensures old(power).None? ==> alive && power.None?
    {
      alive := Store(disk.(supervisorUp := false), history);
      if alive {
        alive := Store(disk.(brokerUp := false), history);
      }
    }

    /** `start`: broker, then supervisor, each over a uniform image. */
    method Start() returns (alive: bool)
      requires Valid() && !Closed(disk)
      requires AllOld(disk.targets, disk.journal.value.files) || AllNew(disk.targets, disk.journal.value.files)
      modifies this
      ensures Valid() && Extends(old(history), history) && history.closed == old(history.closed)
      ensures disk == old(disk).(supervisorUp := disk.supervisorUp, brokerUp := disk.brokerUp)
      ensures alive ==> disk.supervisorUp && disk.brokerUp && |history.starts| == |old(history.starts)| + 2
      ensures old(power).None? ==> alive && power.None?
    {
      ghost var seen := Sighting(disk.journal.value, disk.targets);
      alive := Store(disk.(brokerUp := true), history.(starts := history.starts + [seen]));
      if alive {
        alive := Store(disk.(supervisorUp := true), history.(starts := history.starts + [seen]));
      }
    }

    /** Write `content` over the four targets, in order, with both services down. */
    method WriteTargets(content: seq<Bytes>) returns (alive: bool)
      requires Valid() && !Closed(disk) && !disk.supervisorUp && !disk.brokerUp
      requires |content| == TARGETS && OldOrNew(content, disk.journal.value.files)
      requires disk.journal.value.phase == Prepared ==> AllOld(content, disk.journal.value.files)
      modifies this
      ensures Valid() && history == old(history)
      ensures disk == old(disk).(targets := disk.targets)
      ensures Between(disk.targets, old(disk.targets), content)
      ensures alive ==> disk.targets == content
      ensures old(power).None? ==> alive && power.None?
    {
      for n := 0 to TARGETS
        invariant Valid() && history == old(history)
        invariant disk == old(disk).(targets := disk.targets)
        invariant forall k :: 0 <= k < n ==> disk.targets[k] == content[k]
        invariant forall k :: n <= k < TARGETS ==> disk.targets[k] == old(disk.targets)[k]
        invariant old(power).None? ==> power.None?
      {
        ghost var files := disk.journal.value.files;
        var written := disk.targets[n := content[n]];
        assert IsOld(content, files, n) == IsOld(written, files, n)
               && IsNew(content, files, n) == IsNew(written, files, n);
        OthersKept(disk.targets, written, files, n);
        alive := Store(disk.(targets := written), history);
        if !alive {
          return;
        }
      }
      alive := true;
    }

    /** The backup loop of `apply`: allowed to overwrite `old-n` because the journal is closed. */
    method BackUp(content: seq<Bytes>) returns (alive: bool)
      requires Valid() && Closed(disk) && |content| == TARGETS
      modifies this
      ensures Valid() && history == old(history)
      ensures disk == old(disk).(backups := disk.backups)
      ensures alive ==> forall n :: 0 <= n < TARGETS ==> disk.backups[n] == Some(content[n])
      ensures old(power).None? ==> alive && power.None?
    {
      for n := 0 to TARGETS
        invariant Valid() && history == old(history)
        invariant disk == old(disk).(backups := disk.backups)
        invariant forall k :: 0 <= k < n ==> disk.backups[k] == Some(content[k])
        invariant old(power).None? ==> power.None?
      {
        alive := Store(disk.(backups := disk.backups[n := Some(content[n])]), history);
        if !alive {
          return;
        }
      }
      alive := true;
    }

    /** The loop of `apply` over the installed bytes, with the services stopped. */
    method StillOld() returns (same: bool)
      requires Valid() && !Closed(disk)
      ensures same <==> AllOld(disk.targets, disk.journal.value.files)
    {
      for n := 0 to TARGETS
        invariant forall k :: 0 <= k < n ==> IsOld(disk.targets, disk.journal.value.files, k)
      {
        if Sha256(disk.targets[n]) != disk.journal.value.files[n].before {
          assert !IsOld(disk.targets, disk.journal.value.files, n);
          return false;
        }
      }
      return true;
    }

    /** `apply` until its journal is saved: the old bytes are read and backed up, and another owner may
        write the targets meanwhile. */
    method Begin(candidate: seq<Bytes>, during: seq<Bytes>, facts: nat) returns (alive: bool)
      requires Valid() && Closed(disk) && |candidate| == |during| == TARGETS
      modifies this
      ensures Valid() && history == old(history)
      ensures disk.supervisorUp == old(disk.supervisorUp) && disk.brokerUp == old(disk.brokerUp)
      ensures alive ==>
        && disk.journal == Some(Journal(Prepared, Entries(old(disk.targets), candidate), facts))
        && disk.targets == during
        && forall n :: 0 <= n < TARGETS ==> disk.backups[n] == Some(old(disk.targets)[n])
      ensures !alive ==> Closed(disk) && (disk.targets == during || disk.targets == old(disk.targets))
      ensures old(power).None? ==> alive && power.None?
    {
      var previous := disk.targets;
      alive := BackUp(previous);
      if alive {
        disk := disk.(targets := during);
        alive := Store(disk.(journal := Some(Journal(Prepared, Entries(previous, candidate), facts))), history);
      }
    }

    /** `apply` from its first service effect on: the installed bytes are checked once more with the
        services stopped, and replaced only if they are still the recorded ones. */
    method Replace(candidate: seq<Bytes>) returns (alive: bool)
      requires Valid() && disk.journal.Some? && disk.journal.value.phase == Prepared
      requires |candidate| == TARGETS && AllNew(candidate, disk.journal.value.files)
      modifies this
      ensures Valid() && Extends(old(history), history) && disk.backups == old(disk.backups)
      ensures alive ==>
        && AllOld(old(disk.targets), old(disk.journal).value.files)
        && disk.targets == candidate && disk.supervisorUp && disk.brokerUp
        && disk.journal == Some(old(disk.journal).value.(phase := Applied))
      ensures !Closed(disk) && disk.journal == Some(old(disk.journal).value.(phase := disk.journal.value.phase))
      ensures AllOld(old(disk.targets), old(disk.journal).value.files) ==>
        OldOrNew(disk.targets, disk.journal.value.files)
      ensures !AllOld(old(disk.targets), old(disk.journal).value.files) ==>
        disk.targets == old(disk.targets) && disk.journal == old(disk.journal)
      ensures old(power).None? && AllOld(old(disk.targets), old(disk.journal).value.files) ==> alive
    {
      var journal := disk.journal.value;
      alive := Stop();
      if !alive {
        return;
      }
      var same := StillOld();
      if !same {
        return false;
      }
      alive := Store(disk.(journal := Some(journal.(phase := Replacing))), history);
      if !alive {
        return;
      }
      alive := WriteTargets(candidate);
      if !alive {
        return;
      }
      alive := Start();
      if !alive {
        return;
      }
      alive := Store(disk.(journal := Some(journal.(phase := Applied))), history);
    }

    /** `apply`: read, back up, journal, stop, check, replace, start. `facts` stands for the protected
        files and runtime ledgers as recorded, `later` as found again before services are stopped.
        Another owner may write the targets between the reading of their old bytes and the saving of the
        journal: `during` is what they hold then. */
    method Apply(candidate: seq<Bytes>, during: seq<Bytes>, facts: nat, later: nat) returns (outcome: Outcome)
      requires Valid() && |candidate| == |during| == TARGETS
      modifies this
      ensures Valid() && Extends(old(history), history)
      ensures !Closed(old(disk)) ==> outcome.Refused? && disk == old(disk)
      ensures outcome.Refused? <==> !Closed(old(disk)) || !old(disk.supervisorUp) || !old(disk.brokerUp)
      ensures outcome.Skipped? <==> !outcome.Refused? && old(disk.targets)[..2] == candidate[..2]
      ensures outcome.Skipped? || outcome.Refused? ==> disk == old(disk)
      ensures outcome.Done? ==>
        && disk.targets == candidate && disk.supervisorUp && disk.brokerUp
        && disk.journal == Some(Journal(Applied, Entries(old(disk.targets), candidate), facts))
        && forall n :: 0 <= n < TARGETS ==> disk.backups[n] == Some(old(disk.targets)[n])
      ensures outcome.Interrupted? && !Closed(disk) ==>
        && disk.journal.value.files == Entries(old(disk.targets), candidate)
        && forall found :: CanRollBack(disk, found) <==> found == facts && Between(during, old(disk.targets), candidate)
      ensures outcome.Done? ==> forall found :: CanRollBack(disk, found) <==> found == facts
      ensures && old(power).None? && Closed(old(disk)) && old(disk.supervisorUp) && old(disk.brokerUp)
              && old(disk.targets)[..2] != candidate[..2] ==>
              (outcome.Done? <==> during == old(disk.targets) && facts == later)
      ensures during != old(disk.targets) || facts != later ==>
        && !outcome.Done? && (disk.targets == during || disk.targets == old(disk.targets))
        && (old(power).None? && outcome.Interrupted? ==>
              disk.targets == during
              && disk.journal == Some(Journal(Prepared, Entries(old(disk.targets), candidate), facts)))
    {
      if !Closed(disk) || !disk.supervisorUp || !disk.brokerUp {
        return Refused;
      }
      if disk.targets[0] == candidate[0] && disk.targets[1] == candidate[1] {
        assert disk.targets[..2] == candidate[..2];
        return Skipped;
      }
      assert disk.targets[..2][0] != candidate[..2][0] || disk.targets[..2][1] != candidate[..2][1];
      AllOldIsOld(during, disk.targets, candidate);
      BetweenIsOldOrNew(during, disk.targets, candidate);
      var alive := Begin(candidate, during, facts);
      if !alive || later != facts {
        return Interrupted;
      }
      alive := Replace(candidate);
      return if alive then Done else Interrupted;
    }

    /** The first loop of `rollback`: every backup and every target is checked before anything is touched. */
    method ReadBackups() returns (content: Option<seq<Bytes>>)
      requires |disk.targets| == |disk.backups| == TARGETS && disk.journal.Some?
               && |disk.journal.value.files| == TARGETS
      ensures content.Some? <==> RollbackAccepts(disk)
      ensures content.Some? ==> |content.value| == TARGETS && AllOld(content.value, disk.journal.value.files)
    {
      var files := disk.journal.value.files;
      var read: seq<Bytes> := [];
      for n := 0 to TARGETS
        invariant |read| == n
        invariant forall k :: 0 <= k < n ==> disk.backups[k] == Some(read[k]) && Sha256(read[k]) == files[k].before
        invariant forall k :: 0 <= k < n ==> IsOld(disk.targets, files, k) || IsNew(disk.targets, files, k)
      {
        if disk.backups[n].None? || Sha256(disk.backups[n].value) != files[n].before {
          return None;
        }
        if Sha256(disk.targets[n]) !in {files[n].before, files[n].after} {
          assert !IsOld(disk.targets, files, n) && !IsNew(disk.targets, files, n);
          return None;
        }
        read := read + [disk.backups[n].value];
      }
      return Some(read);
    }

    /** `rollback`: read and check every backup first, then stop, restore, start. */
    method Rollback(facts: nat) returns (outcome: Outcome)
      requires Valid()
      modifies this
      ensures Valid() && Extends(old(history), history)
      ensures outcome.Skipped? <==> Closed(old(disk))
      ensures outcome.Refused? <==> !Closed(old(disk)) && !CanRollBack(old(disk), facts)
      ensures outcome.Skipped? || outcome.Refused? ==> disk == old(disk)
      ensures disk.backups == old(disk.backups)
      ensures outcome.Interrupted? ==>
        && disk.journal == old(disk.journal) && old(power).Some? && CanRollBack(disk, facts)
      ensures outcome.Done? ==>
        && disk.journal == Some(old(disk.journal).value.(phase := RolledBack))
        && AllOld(disk.targets, disk.journal.value.files) && disk.supervisorUp && disk.brokerUp
    {
      if Closed(disk) {
        return Skipped;
      }
      var journal := disk.journal.value;
      var read := ReadBackups();
      RollbackAcceptsExactly(disk, history);
      if facts != journal.facts || read.None? {
        return Refused;
      }
      var content := read.value;
      var alive := Stop();
      if !alive {
        return Interrupted;
      }
      ghost var found := disk.targets;
      alive := WriteTargets(content);
      RestoringKeeps(disk.targets, found, content, journal.files);
      if !alive {
        return Interrupted;
      }
      alive := Start();
      if !alive {
        return Interrupted;
      }
      var closed := journal.(phase := RolledBack);
      alive := Store(disk.(journal := Some(closed)),
                     history.(closed := history.closed + [Sighting(closed, disk.targets)]));
      return if alive then Done else Interrupted;
    }

    /** `commit`: exactly when the refresh is applied and all four files are still the new ones.
        Nothing here looks at the services. */
    method CommitApplied(identityKept: bool) returns (outcome: Outcome)
      requires Valid()
      modifies this
      ensures Valid() && Extends(old(history), history)
      ensures disk == old(disk).(journal := disk.journal)
      ensures outcome.Skipped? <==> Closed(old(disk))
      ensures !outcome.Done? ==> disk == old(disk)
      ensures outcome.Done? ==> disk.journal == Some(old(disk.journal).value.(phase := Committed))
      ensures outcome.Done? || outcome.Interrupted? <==>
        && !Closed(old(disk)) && old(disk.journal).value.phase == Applied && identityKept
        && AllNew(old(disk.targets), old(disk.journal).value.files)
      ensures outcome.Interrupted? ==> old(power).Some?
    {
      if Closed(disk) {
        return Skipped;
      }
      var journal := disk.journal.value;
      if journal.phase != Applied || !identityKept {
        return Refused;
      }
      for n := 0 to TARGETS
        invariant forall k :: 0 <= k < n ==> IsNew(disk.targets, journal.files, k)
      {
        if Sha256(disk.targets[n]) != journal.files[n].after {
          assert !IsNew(disk.targets, journal.files, n);
          return Refused;
        }
      }
      var closed := journal.(phase := Committed);
      var alive := Store(disk.(journal := Some(closed)),
                         history.(closed := history.closed + [Sighting(closed, disk.targets)]));
      return if alive then Done else Interrupted;
    }

    /** From any unfinished refresh, after any number of interrupted rollbacks, one that is not
        interrupted restores the four files the journal recorded, if and only if the host has not drifted
        and no target holds foreign bytes; otherwise no rollback changes anything. */
    method RollBackThroughCrashes(facts: nat, crashes: seq<nat>) returns (done: bool)
      requires Valid() && !Closed(disk)
      modifies this
      ensures Valid()
      ensures done <==>
        facts == old(disk.journal).value.facts && OldOrNew(old(disk.targets), old(disk.journal).value.files)
      ensures !done ==> disk == old(disk)
      ensures done ==>
        && disk.journal == Some(old(disk.journal).value.(phase := RolledBack))
        && AllOld(disk.targets, disk.journal.value.files) && disk.supervisorUp && disk.brokerUp
    {
      for i := 0 to |crashes|
        invariant Valid() && disk.journal == old(disk.journal)
        invariant if CanRollBack(old(disk), facts) then CanRollBack(disk, facts) else disk == old(disk)
      {
        power := Some(crashes[i]);
        var outcome := Rollback(facts);
        if outcome.Done? {
          return true;
        }
      }
      power := None;
      var last := Rollback(facts);
      return last.Done?;
    }

    /** Any sequence of commands, each cut off anywhere, other owners writing only between refreshes. */
    method Run(script: seq<(Event, Option<nat>)>)
      requires Valid()
      modifies this
      ensures Valid() && Extends(old(history), history)
      ensures !Closed(disk) ==>
        var files := disk.journal.value.files;
        && |disk.targets| == |disk.backups| == |files| == TARGETS
        && BackedUp(disk.backups, files)
        && (disk.journal.value.phase != Prepared ==>
              && OldOrNew(disk.targets, files)
              && (disk.supervisorUp || disk.brokerUp ==> AllOld(disk.targets, files) || AllNew(disk.targets, files)))
      ensures forall s :: s in history.starts ==>
        |s.targets| == |s.journal.files| == TARGETS &&
        (AllOld(s.targets, s.journal.files) || AllNew(s.targets, s.journal.files))
    {
      for i := 0 to |script|
        invariant Valid() && Extends(old(history), history)
      {
        power := script[i].1;
        match script[i].0 {
          case ApplyRefresh(candidate, during, facts, later) =>
            if |candidate| == |during| == TARGETS {
              var _ := Apply(candidate, during, facts, later);
            }
          case RollbackRefresh(facts) =>
            var _ := Rollback(facts);
          case CommitRefresh(identityKept) =>
            var _ := CommitApplied(identityKept);
          case OtherOwner(targets, supervisorUp, brokerUp) =>
            if Closed(disk) && |targets| == TARGETS {
              disk := disk.(targets := targets, supervisorUp := supervisorUp, brokerUp := brokerUp);
            }
        }
      }
    }
  }

  /** The gap before the journal is real: a target written in it stays foreign. */
  method ForeignWrite(candidate: seq<Bytes>, facts: nat) returns (r: Refresh)
    requires |candidate| == TARGETS && candidate[0] == [1]
    ensures fresh(r) && r.Valid() && r.disk.journal.Some? && r.disk.journal.value.phase == Prepared
    ensures !OldOrNew(r.disk.targets, r.disk.journal.value.files)
  {
    var previous: seq<Bytes> := [[0], [], [], []];
    var during: seq<Bytes> := [[2], [], [], []];
    r := new Refresh(previous, true, true);
    assert during[0] != previous[0] && during[0] != candidate[0];
    assert previous[..2][0] != candidate[..2][0];
    var outcome := r.Apply(candidate, during, facts, facts);
    BetweenIsOldOrNew(during, previous, candidate);
  }

  /** So is the drift: an applied refresh, all of whose files are new and whose services are up, cannot be
      rolled back any more once protected files or ledgers are not those of its journal. */
  method AppliedThenDrift(candidate: seq<Bytes>, facts: nat, drifted: nat) returns (r: Refresh)
    requires |candidate| == TARGETS && candidate[0] == [1] && drifted != facts
    ensures fresh(r) && r.Valid() && r.disk.journal.Some? && r.disk.journal.value.phase == Applied
    ensures |r.disk.targets| == |r.disk.journal.value.files| == TARGETS
    ensures AllNew(r.disk.targets, r.disk.journal.value.files) && r.disk.supervisorUp && r.disk.brokerUp
    ensures !CanRollBack(r.disk, drifted)
  {
    var previous: seq<Bytes> := [[0], [], [], []];
    r := new Refresh(previous, true, true);
    assert previous[..2][0] != candidate[..2][0];
    var outcome := r.Apply(candidate, previous, facts, facts);
  }

  /** ... or, noticed before the services are stopped, leaves a prepared refresh over its old files. */
  method DriftBeforeStop(candidate: seq<Bytes>, facts: nat, drifted: nat) returns (r: Refresh)
    requires |candidate| == TARGETS && candidate[0] == [1] && drifted != facts
    ensures fresh(r) && r.Valid() && r.disk.journal.Some? && r.disk.journal.value.phase == Prepared
    ensures |r.disk.targets| == |r.disk.journal.value.files| == TARGETS
    ensures AllOld(r.disk.targets, r.disk.journal.value.files) && !CanRollBack(r.disk, drifted)
  {
    var previous: seq<Bytes> := [[0], [], [], []];
    r := new Refresh(previous, true, true);
    assert previous[..2][0] != candidate[..2][0];
    var outcome := r.Apply(candidate, previous, facts, drifted);
  }

  /** From either on, for as long as it lasts, every command leaves everything as it is, but for a commit of
      an applied refresh whose files are all still new. */
  method StaysUnfinished(r: Refresh, candidate: seq<Bytes>, during: seq<Bytes>, facts: nat, later: nat, kept: bool,
                         crashes: seq<nat>)
    requires r.Valid() && !Closed(r.disk) && !CanRollBack(r.disk, facts)
    requires |candidate| == |during| == TARGETS
    modifies r
    ensures r.Valid()
    ensures var j := old(r.disk.journal).value;
      if j.phase == Applied && kept && AllNew(old(r.disk.targets), j.files)
      then r.disk == old(r.disk) || r.disk == old(r.disk).(journal := Some(j.(phase := Committed)))
      else r.disk == old(r.disk)
  {
    var _ := r.Apply(candidate, during, facts, later);
    var _ := r.Rollback(facts);
    var _ := r.RollBackThroughCrashes(facts, crashes);
    var _ := r.CommitApplied(kept);
  }
}
