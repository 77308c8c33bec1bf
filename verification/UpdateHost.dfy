/** The update code itself, as methods over a host whose disk outlives a crash. */
module UpdateHost {
  import opened Wrappers
  import opened UpdateDisk
  import opened UpdateTransaction

  class Host {
    /** Durable state: the installed and staged paths, whether the transaction
        directory exists, and the manifest in it. */
    var tree: Tree
    var root: bool
    var manifest: Option<Manifest>
    /** Faults still to come, one per durable step; none left means no more faults. */
    var faults: seq<Fault>

    /** What the running or last transaction started from, and what it installs. */
    ghost var base: map<Key, Node>
    ghost var candidates: seq<Candidate>

    ghost predicate Valid()
      reads this
    {
      Consistent(tree, root, manifest, base, candidates)
    }

    constructor (tree: Tree, faults: seq<Fault>, ghost candidates: seq<Candidate>)
      requires NoTransaction(tree)
      requires forall r :: r in Installed(tree) ==> Installed(tree)[r].mode <= MAX_MODE
      requires ValidCandidates(candidates)
      ensures Valid()
      ensures this.tree == tree && !root && this.faults == faults && base == Installed(tree)
    {
      this.tree := tree;
      this.root := false;
      this.manifest := None;
      this.faults := faults;
      this.base := Installed(tree);
      this.candidates := candidates;
    }

    // ── Durable steps ─────────────────────────────────────────────

    method NextFault() returns (fault: Fault)
      modifies this`faults
      ensures NoMore(old(faults), faults)
      ensures !fault.Clean? ==> |faults| < |old(faults)| && Real(faults) < Real(old(faults))
      ensures Harmless(old(faults)) ==> Harmless(faults) && (fault.Clean? || fault.Before?)
    {
      if faults == [] {
        fault := Clean;
      } else {
        fault, faults := faults[0], faults[1..];
      }
    }

    /** `renameUpdatePath`. */
    method Rename(key: Key, source: Area, destination: Area) returns (o: Outcome)
      modifies this`tree, this`faults
      ensures OnlyTouches(old(tree), tree, key)
      ensures !CanRename(old(SlotAt(tree, key)), source, destination) ==>
        o == Failed(BadRename) && tree == old(tree) && faults == old(faults)
      ensures CanRename(old(SlotAt(tree, key)), source, destination) ==>
        && Spent(o, old(faults), faults)
        && (SlotAt(tree, key) == old(SlotAt(tree, key))
            || SlotAt(tree, key) == Renamed(old(SlotAt(tree, key)), source, destination))
        && (o.Ok? ==> SlotAt(tree, key) == Renamed(old(SlotAt(tree, key)), source, destination))
      ensures Harmless(old(faults)) ==> Harmless(faults) && (!o.Ok? ==> tree == old(tree))
    {
      hide Real, Harmless;
      if !CanRename(SlotAt(tree, key), source, destination) {
        return Failed(BadRename);
      }
      var fault := NextFault();
      if fault.Clean? || fault.After? {
        tree := tree[key := Renamed(SlotAt(tree, key), source, destination)];
      }
      o := if fault.Clean? then Ok else Stop(fault.crash);
    }

    /** `removeUpdatePath` on one path; removing a directory can stop halfway. */
    method Remove(key: Key, area: Area) returns (o: Outcome)
      modifies this`tree, this`faults
      ensures Get(old(SlotAt(tree, key)), area).None? ==> o.Ok? && tree == old(tree) && faults == old(faults)
      ensures Spent(o, old(faults), faults)
      ensures OnlyTouches(old(tree), tree, key)
      ensures exists node :: SlotAt(tree, key) == Put(old(SlotAt(tree, key)), area, node)
      ensures o.Ok? ==> SlotAt(tree, key) == Put(old(SlotAt(tree, key)), area, None)
      ensures Harmless(old(faults)) ==> Harmless(faults) && (!o.Ok? ==> tree == old(tree))
    {
      hide Real, Harmless;
      var slot := SlotAt(tree, key);
      ghost var node := Get(slot, area);
      assert slot == Put(slot, area, node);
      if Get(slot, area).None? {
        return Ok;
      }
      var fault := NextFault();
      match fault
      case Clean =>
        tree := tree[key := Put(slot, area, None)];
        o := Ok;
      case After(crash) =>
        tree := tree[key := Put(slot, area, None)];
        o := Stop(crash);
      case Before(crash) =>
        o := Stop(crash);
      case During(crash, left, _) =>
        tree := tree[key := Put(slot, area, ErodedNode(Get(slot, area), Place(area, key), left))];
        o := Stop(crash);
    }

    /** `chmodUpdatePath`. */
    method Chmod(key: Key, area: Area, mode: nat) returns (o: Outcome)
      requires Get(SlotAt(tree, key), area).Some?
      modifies this`tree, this`faults
      ensures Spent(o, old(faults), faults)
      ensures OnlyTouches(old(tree), tree, key)
      ensures
        var slot := old(SlotAt(tree, key));
        var changed := Put(slot, area, Some(Get(slot, area).value.(mode := mode)));
        SlotAt(tree, key) == changed || (!o.Ok? && SlotAt(tree, key) == slot)
    {
      hide Real, Harmless;
      var slot := SlotAt(tree, key);
      var fault := NextFault();
      if fault.Clean? || fault.After? {
        tree := tree[key := Put(slot, area, Some(Get(slot, area).value.(mode := mode)))];
      }
      o := if fault.Clean? then Ok else Stop(fault.crash);
    }

    /** `copyUpdatePath` or `writeFileDurable` into the transaction directory. */
    method Create(key: Key, area: Area, kind: Kind, content: nat) returns (o: Outcome)
      requires area != Target
      modifies this`tree, this`faults
      ensures Spent(o, old(faults), faults)
      ensures OnlyTouches(old(tree), tree, key)
      ensures exists node :: SlotAt(tree, key) == Put(old(SlotAt(tree, key)), area, node)
      ensures o.Ok? ==> SlotAt(tree, key) == Put(old(SlotAt(tree, key)), area, Some(Node(kind, content, COPY_MODE)))
    {
      hide Real, Harmless;
      var slot := SlotAt(tree, key);
      ghost var node := Get(slot, area);
      assert slot == Put(slot, area, node);
      var fault := NextFault();
      match fault
      case Clean =>
        tree := tree[key := Put(slot, area, Some(Node(kind, content, COPY_MODE)))];
        o := Ok;
      case After(crash) =>
        tree := tree[key := Put(slot, area, Some(Node(kind, content, COPY_MODE)))];
        o := Stop(crash);
      case Before(crash) =>
        o := Stop(crash);
      case During(crash, left, _) =>
        if Place(area, key) in left {
          tree := tree[key := Put(slot, area, Some(Node(kind, left[Place(area, key)], COPY_MODE)))];
        }
        o := Stop(crash);
    }

    /** `writeJsonAtomic` of the manifest. */
    method WriteManifest(m: Manifest) returns (o: Outcome)
      modifies this`manifest, this`faults
      ensures Spent(o, old(faults), faults)
      ensures manifest == old(manifest) || manifest == Some(m)
      ensures o.Ok? ==> manifest == Some(m)
    {
      hide Real, Harmless;
      var fault := NextFault();
      if fault.Clean? || fault.After? {
        manifest := Some(m);
      }
      o := if fault.Clean? then Ok else Stop(fault.crash);
    }

    /** `removeUpdatePath` of the whole transaction directory: files go in any order,
        the manifest among them. */
    method RemoveRoot() returns (o: Outcome)
      requires !root ==> manifest.None? && NoTransaction(tree)
      modifies this`tree, this`manifest, this`root, this`faults
      ensures Spent(o, old(faults), faults)
      ensures SameTargets(old(tree), tree)
      ensures manifest == old(manifest) || manifest == None
      ensures !root ==> manifest.None? && NoTransaction(tree)
      ensures o.Ok? ==> !root
    {
      hide Real, Harmless;
      if !root {
        return Ok;
      }
      var fault := NextFault();
      match fault
      case Before(crash) =>
        o := Stop(crash);
      case During(crash, left, manifestLeft) =>
        tree := map r | r in tree :: ErodedSlot(tree[r], r, left);
        manifest := if manifestLeft then manifest else None;
        o := Stop(crash);
      case Clean =>
        tree := map r | r in tree :: EMPTY.(target := tree[r].target);
        manifest, root := None, false;
        o := Ok;
      case After(crash) =>
        tree := map r | r in tree :: EMPTY.(target := tree[r].target);
        manifest, root := None, false;
        o := Stop(crash);
    }

    // ── Publishing and restoring one path ─────────────────────────

    /** `publishUpdatePath`: whatever happens, the entry stays recoverable, and a single call
        that fails leaves the original installed. */
    method Publish(e: Entry, ghost c: Candidate, ghost was: Option<Node>) returns (o: Outcome)
      requires e == EntryFor(c, was, e.state)
      requires IsStaged(SlotAt(tree, e.key), NewNode(c), was)
      modifies this`tree, this`faults
      ensures Spent(o, old(faults), faults)
      ensures OnlyTouches(old(tree), tree, e.key)
      ensures InPublish(SlotAt(tree, e.key), NewNode(c), was)
      ensures o.Ok? ==> IsPublished(SlotAt(tree, e.key), NewNode(c), was)
      ensures o.Failed? && Harmless(old(faults)) && Real(old(faults)) <= 1 ==> SlotAt(tree, e.key).target == was
    {
      hide Real, Harmless;
      if KindAt(tree, Staged, e.key) != Some(e.kind) {
        return Failed(StagedInvalid);
      }
      var current := KindAt(tree, Target, e.key);
      if current.Some? != e.original.Some? || (current.Some? && current.value != e.original.value.kind) {
        return Failed(TargetChanged);
      }
      if e.kind.File? && current != Some(Directory) {
        o := Rename(e.key, Staged, Target);
        return;
      }
      o := Remove(e.key, Displaced);
      if !o.Ok? {
        return;
      }
      if current.Some? {
        o := Rename(e.key, Target, Displaced);
        if !o.Ok? {
          return;
        }
      }
      o := Rename(e.key, Staged, Target);
      if o.Failed? && current.Some? && KindAt(tree, Displaced, e.key).Some? && KindAt(tree, Target, e.key).None? {
        var undo := Rename(e.key, Displaced, Target);
        if !undo.Ok? {
          return undo;
        }
      }
    }

    /** What is installed goes to the discarded place, which is emptied first. */
    method MoveAside(key: Key) returns (o: Outcome)
      modifies this`tree, this`faults
      ensures Spent(o, old(faults), faults)
      ensures OnlyTouches(old(tree), tree, key)
      ensures StillPreserved(old(SlotAt(tree, key)), SlotAt(tree, key))
      ensures o.Ok? ==>
        SlotAt(tree, key) == old(SlotAt(tree, key)).(target := None, discarded := old(SlotAt(tree, key)).target)
      ensures Harmless(old(faults)) ==> Harmless(faults) && (!o.Ok? ==> SlotAt(tree, key).target == old(SlotAt(tree, key)).target)
    {
      hide Real, SlotAt, Harmless;
      var current := KindAt(tree, Target, key);
      o := Remove(key, Discarded);
      if !o.Ok? {
        return;
      }
      if current.Some? {
        o := Rename(key, Target, Discarded);
      }
    }

    /** The directory branch of `replaceTargetFromPreserved`: move what is there aside,
        then the preserved original in. */
    method SwapIn(from: Area, key: Key) returns (o: Outcome)
      requires from == Displaced || from == Backup
      requires Get(SlotAt(tree, key), from).Some?
      modifies this`tree, this`faults
      ensures Spent(o, old(faults), faults)
      ensures OnlyTouches(old(tree), tree, key)
      ensures PutBack(old(SlotAt(tree, key)), SlotAt(tree, key), from)
           || (!o.Ok? && StillPreserved(old(SlotAt(tree, key)), SlotAt(tree, key)))
      ensures o.Failed? && Harmless(old(faults)) && Real(old(faults)) <= 1 ==> SlotAt(tree, key).target == old(SlotAt(tree, key)).target
    {
      hide Real, SlotAt, Harmless;
      var current := KindAt(tree, Target, key);
      o := MoveAside(key);
      if !o.Ok? {
        return;
      }
      o := Rename(key, from, Target);
      if o.Failed? && current.Some? && KindAt(tree, Discarded, key).Some? && KindAt(tree, Target, key).None? {
        var undo := Rename(key, Discarded, Target);
        if !undo.Ok? {
          return undo;
        }
      }
    }

    /** `replaceTargetFromPreserved`: put a displaced or backed-up original back. */
    method ReplaceFromPreserved(from: Area, e: Entry, ghost was: Node) returns (o: Outcome)
      requires from == Displaced || from == Backup
      requires e.original == Some(Original(was.kind, was.mode))
      requires Get(SlotAt(tree, e.key), from) == Some(was)
      modifies this`tree, this`faults
      ensures Spent(o, old(faults), faults)
      ensures OnlyTouches(old(tree), tree, e.key)
      ensures PutBack(old(SlotAt(tree, e.key)), SlotAt(tree, e.key), from)
           || (!o.Ok? && StillPreserved(old(SlotAt(tree, e.key)), SlotAt(tree, e.key)))
    {
      hide Real, Harmless;
      if KindAt(tree, from, e.key) != Some(e.original.value.kind) {
        return Failed(SourceInvalid);
      }
      if e.original.value.kind.File? && KindAt(tree, Target, e.key) != Some(Directory) {
        o := Rename(e.key, from, Target);
      } else {
        o := SwapIn(from, e.key);
      }
      if o.Ok? {
        o := Chmod(e.key, Target, e.original.value.mode);
      }
    }

    /** `restoreUpdatePath`. From any state a publish or an interrupted restore can leave,
        it raises none of its own errors, stays restorable when it is interrupted, and
        puts the original back when it completes; then the path is settled, and a restore
        of a settled path changes nothing. */
    method Restore(e: Entry, wasRestoring: bool, ghost c: Candidate, ghost was: Option<Node>) returns (o: Outcome)
      requires e.original == EntryFor(c, was, e.state).original
      requires InRestore(SlotAt(tree, e.key), was)
      requires !wasRestoring ==> InPublish(SlotAt(tree, e.key), NewNode(c), was)
      modifies this`tree, this`faults
      ensures Spent(o, old(faults), faults)
      ensures OnlyTouches(old(tree), tree, e.key)
      ensures InRestore(SlotAt(tree, e.key), was)
      ensures o.Ok? ==> Get(SlotAt(tree, e.key), Target) == was && Settled(SlotAt(tree, e.key), was)
      ensures Settled(SlotAt(old(tree), e.key), was) ==> SlotAt(tree, e.key) == SlotAt(old(tree), e.key)
    {
      hide Real, Harmless;
      var staged := KindAt(tree, Staged, e.key);
      var displaced := KindAt(tree, Displaced, e.key);
      var backup := KindAt(tree, Backup, e.key);
      if e.original.None? {
        if staged.Some? {
          if KindAt(tree, Target, e.key).Some? {
            return Failed(UnexpectedPath);
          }
          return Ok;
        }
        o := Remove(e.key, Target);
        return;
      }
      if displaced.Some? {
        o := ReplaceFromPreserved(Displaced, e, was.value);
        return;
      }
      if staged.Some? {
        if KindAt(tree, Target, e.key) != Some(e.original.value.kind) {
          return Failed(CannotVerify);
        }
        return Ok;
      }
      if backup.Some? {
        o := ReplaceFromPreserved(Backup, e, was.value);
        return;
      }
      if !wasRestoring {
        return Failed(SourceMissing);
      }
      if KindAt(tree, Target, e.key) != Some(e.original.value.kind) {
        return Failed(RollbackIncomplete);
      }
      o := Chmod(e.key, Target, e.original.value.mode);
    }

    // ── The transaction ───────────────────────────────────────────

    ghost function Decision(): map<Key, Node>
      reads this
    {
      Decided(tree, manifest, base, candidates)
    }

    /** One turn of the rollback loop: journal `restoring`, restore, journal `restored`. */
    method RestoreEntry(m: Manifest, k: nat) returns (o: Outcome, now: Manifest)
      requires Valid() && root && manifest == Some(m) && m.phase == RollingBack
      requires k < |m.entries|
      modifies this`tree, this`manifest, this`faults
      ensures Valid()
      ensures Spent(o, old(faults), faults)
      ensures manifest.Some? && manifest.value.phase == RollingBack
      ensures |now.entries| == |m.entries|
      ensures o.Ok? ==> manifest == Some(now) && now.entries[k].state in {Pending, Restored}
      ensures o.Ok? ==> forall j :: 0 <= j < |m.entries| && j != k ==> now.entries[j] == m.entries[j]
    {
      hide Real, Harmless, SlotAt, Installed, IsStaged, IsMovedAside, IsPublished, InRestore, Updated;
      now := m;
      var e := m.entries[k];
      if e.state == Pending || e.state == Restored {
        return Ok, m;
      }
      var wasRestoring := e.state == Restoring;
      ghost var was := Lookup(base, candidates[k].key);
      PublishFitsRestore(e.state, SlotAt(tree, e.key), NewNode(candidates[k]), was);
      if !wasRestoring {
        now := WithState(m, k, Restoring);
        JournalStep(tree, root, m, base, candidates, k, Restoring);
        o := WriteManifest(now);
        if !o.Ok? {
          return;
        }
      }
      ghost var before := tree;
      o := Restore(e, wasRestoring, candidates[k], was);
      DiskStep(before, tree, root, now, base, candidates, k);
      if !o.Ok? {
        return;
      }
      JournalStep(tree, root, now, base, candidates, k, Restored);
      now := WithState(now, k, Restored);
      o := WriteManifest(now);
    }

    /** `rollbackUpdateTransaction` with the manifest in memory, which may be ahead of
        the durable one. */
    method Rollback(memory: Manifest) returns (o: Outcome)
      requires Valid() && root
      requires Describes(memory, base, candidates)
      requires OthersKept(tree, base, candidates) && EntriesFit(tree, memory, base, candidates)
      modifies this`tree, this`manifest, this`faults
      ensures Valid()
      ensures Spent(o, old(faults), faults)
      ensures o.Ok? ==> manifest.Some? && manifest.value.phase == RolledBack
      ensures Decision() == old(Decision()) || Decision() == base
    {
      hide Real, Harmless, SlotAt, Installed, IsMovedAside, IsPublished, InPublish, InRestore, Updated;
      var m := memory.(phase := RollingBack);
      o := WriteManifest(m);
      if !o.Ok? {
        return;
      }
      var i := |m.entries|;
      while i > 0
        invariant 0 <= i <= |m.entries|
        invariant NoMore(old(faults), faults)
        invariant manifest == Some(m) && m.phase == RollingBack && Valid()
        invariant forall j :: i <= j < |m.entries| ==> m.entries[j].state in {Pending, Restored}
      {
        i := i - 1;
        o, m := RestoreEntry(m, i);
        if !o.Ok? {
          return;
        }
      }
      AllOriginal(tree, base, candidates);
      o := WriteManifest(m.(phase := RolledBack));
    }

    /** `recoverInterruptedUpdate`. It raises no error of its own, keeps to what the
        durable manifest decided whatever interrupts it, and, completed, leaves that
        decision installed and no transaction behind. */
    method Recover() returns (o: Outcome, interrupted: bool)
      requires Valid()
      modifies this`tree, this`manifest, this`root, this`faults
      ensures Valid()
      ensures Spent(o, old(faults), faults)
      ensures Decision() == old(Decision())
      ensures !old(root) ==> o.Ok? && faults == old(faults)
      ensures o.Ok? ==> !root && Installed(tree) == old(Decision())
      ensures o.Ok? ==> (interrupted <==>
        old(manifest).Some? && old(manifest).value.phase in {Committing, RollingBack})
    {
      hide Real, Harmless;
      interrupted := false;
      if !root {
        return Ok, false;
      }
      if manifest.Some? {
        var m := manifest.value;
        DescribedIsValid(m, base, candidates);
        if !ValidManifest(m) {
          return Failed(InvalidManifest), false;
        }
        if m.phase == Committing || m.phase == RollingBack {
          interrupted := true;
          o := Rollback(m);
          if !o.Ok? {
            return;
          }
        }
      }
      ghost var before := tree;
      o := RemoveRoot();
      SameTargetsInstalled(before, tree);
    }

    /** One candidate's staging in `prepareUpdateTransaction`: the new path, its mode,
        and a backup when a file replaces a file. */
    method Stage(c: Candidate) returns (o: Outcome, e: Entry)
      requires SlotAt(tree, c.key) == EMPTY.(target := SlotAt(tree, c.key).target)
      modifies this`tree, this`faults
      ensures Spent(o, old(faults), faults)
      ensures OnlyTouches(old(tree), tree, c.key)
      ensures SlotAt(tree, c.key).target == old(SlotAt(tree, c.key).target)
      ensures o.Ok? ==> IsStaged(SlotAt(tree, c.key), NewNode(c), SlotAt(tree, c.key).target)
      ensures o.Ok? ==> e == EntryFor(c, SlotAt(tree, c.key).target, Pending)
    {
      hide Real, Harmless;
      var original := SlotAt(tree, c.key).target;
      e := EntryFor(c, original, Pending);
      o := Create(c.key, Staged, c.kind, c.content);
      if o.Ok? && c.executable {
        o := Chmod(c.key, Staged, EXECUTABLE_MODE);
      }
      if o.Ok? && original.Some? && c.kind.File? && original.value.kind.File? {
        o := Create(c.key, Backup, original.value.kind, original.value.content);
        if o.Ok? {
          o := Chmod(c.key, Backup, original.value.mode);
        }
      }
    }

    /** The staging loop of `prepareUpdateTransaction`. */
    method StageAll(cs: seq<Candidate>) returns (o: Outcome, entries: seq<Entry>)
      requires forall i, j :: 0 <= i < j < |cs| ==> cs[i].key != cs[j].key
      requires NoTransaction(tree)
      modifies this`tree, this`faults
      ensures Spent(o, old(faults), faults)
      ensures SameTargets(old(tree), tree)
      ensures o.Ok? ==> |entries| == |cs| && forall j :: 0 <= j < |cs| ==>
        && entries[j] == EntryFor(cs[j], SlotAt(tree, cs[j].key).target, Pending)
        && IsStaged(SlotAt(tree, cs[j].key), NewNode(cs[j]), SlotAt(tree, cs[j].key).target)
    {
      hide Real, SlotAt, IsStaged, EntryFor;
      o, entries := Ok, [];
      for i := 0 to |cs|
        invariant NoMore(old(faults), faults) && |entries| == i && o.Ok?
        invariant SameTargets(old(tree), tree)
        invariant forall j :: 0 <= j < i ==>
          && entries[j] == EntryFor(cs[j], SlotAt(tree, cs[j].key).target, Pending)
          && IsStaged(SlotAt(tree, cs[j].key), NewNode(cs[j]), SlotAt(tree, cs[j].key).target)
        invariant forall j :: i <= j < |cs| ==> SlotAt(tree, cs[j].key) == EMPTY.(target := SlotAt(tree, cs[j].key).target)
      {
        var e;
        o, e := Stage(cs[i]);
        if !o.Ok? {
          return;
        }
        entries := entries + [e];
      }
    }

    /** `prepareUpdateTransaction`: nothing installed changes, and only a complete
        staging gets a manifest. */
    method Prepare(cs: seq<Candidate>) returns (o: Outcome, m: Manifest)
      requires Valid() && ValidCandidates(cs)
      modifies this
      ensures Valid()
      ensures old(root) ==> o == Failed(TransactionExists) && Decision() == old(Decision())
      ensures !old(root) ==>
        && Spent(o, old(faults), faults)
        && base == old(Decision()) && candidates == cs
        && Installed(tree) == base && Decision() == base
        && (o.Failed? && Real(old(faults)) <= 1 && root ==> manifest.None? && NoTransaction(tree))
        && (o.Ok? ==>
              && root && manifest == Some(m) && Describes(m, base, candidates)
              && forall i :: 0 <= i < |cs| ==>
                   m.entries[i].state == Pending && IsStaged(SlotAt(tree, cs[i].key), NewNode(cs[i]), Lookup(base, cs[i].key)))
    {
      hide Real, Installed, StateFits, IsStaged, Updated;
      m := Manifest(Prepared, []);
      if root {
        return Failed(TransactionExists), m;
      }
      UpdatedModes(base, candidates);
      base, candidates := Installed(tree), cs;
      var fault := NextFault();
      if fault.Clean? || fault.After? {
        root := true;
      }
      if !fault.Clean? {
        return Stop(fault.crash), m;
      }
      var entries;
      o, entries := StageAll(cs);
      SameTargetsInstalled(old(tree), tree);
      InstalledIs(tree, base);
      if o.Ok? {
        m := Manifest(Prepared, entries);
        o := WriteManifest(m);
      }
      if o.Failed? {
        ghost var before := tree;
        var cleanup := RemoveRoot();
        SameTargetsInstalled(before, tree);
        if cleanup.Crashed? {
          o := Crashed;
        }
      }
    }

    /** One turn of the publish loop: journal `publishing`, publish, journal `published`.
        The manifest in memory is the durable one or one step ahead of it, and fits the
        disk either way. */
    method PublishEntry(m: Manifest, k: nat) returns (o: Outcome, now: Manifest)
      requires Valid() && root && manifest == Some(m) && m.phase == Committing
      requires k < |m.entries| && m.entries[k].state == Pending
      modifies this`tree, this`manifest, this`faults
      ensures Valid()
      ensures Spent(o, old(faults), faults)
      ensures manifest.Some? && manifest.value.phase == Committing
      ensures Consistent(tree, root, Some(now), base, candidates) && now.phase == Committing
      ensures o.Ok? ==> manifest == Some(now) && now.entries[k].state == Published
      ensures forall j :: 0 <= j < |m.entries| && j != k ==> now.entries[j] == m.entries[j]
    {
      hide Real, Harmless;
      now := WithState(m, k, Publishing);
      JournalStep(tree, root, m, base, candidates, k, Publishing);
      o := WriteManifest(now);
      if !o.Ok? {
        return;
      }
      ghost var before := tree;
      o := Publish(m.entries[k], candidates[k], Lookup(base, candidates[k].key));
      DiskStep(before, tree, root, now, base, candidates, k);
      if !o.Ok? {
        return;
      }
      JournalStep(tree, root, now, base, candidates, k, Published);
      now := WithState(now, k, Published);
      o := WriteManifest(now);
    }

    /** The `try` block of `commitUpdateTransaction`. */
    method PublishAll(prepared: Manifest) returns (o: Outcome, m: Manifest)
      requires Valid() && root && manifest == Some(prepared) && prepared.phase == Committing
      requires forall j :: 0 <= j < |prepared.entries| ==> prepared.entries[j].state == Pending
      modifies this`tree, this`manifest, this`faults
      ensures Valid()
      ensures Spent(o, old(faults), faults)
      ensures !o.Ok? ==> Consistent(tree, root, Some(m), base, candidates) && m.phase == Committing
      ensures manifest.Some? && manifest.value.phase in {Committing, Committed}
      ensures o.Ok? ==> manifest.value.phase == Committed
    {
      hide Real, Harmless, SlotAt, Installed, IsStaged, IsMovedAside, IsPublished, InPublish, InRestore, Updated;
      m := prepared;
      o := Ok;
      for i := 0 to |m.entries|
        invariant NoMore(old(faults), faults)
        invariant |m.entries| == |candidates|
        invariant Valid() && manifest == Some(m) && m.phase == Committing
        invariant forall j :: 0 <= j < i ==> m.entries[j].state == Published
        invariant forall j :: i <= j < |m.entries| ==> m.entries[j].state == Pending
      {
        o, m := PublishEntry(m, i);
        if !o.Ok? {
          return;
        }
      }
      AllPublished(tree, base, candidates);
      o := WriteManifest(m.(phase := Committed));
    }

    /** `commitUpdateTransaction`. A reported success is a complete update; a reported
        failure whose transaction is gone left everything as it was; anything else is
        left for recovery, with its decision already made. A single failure is undone on
        the spot: everything is as it was, and the transaction is gone unless the first
        journal write failed, before anything was published. */
    method Commit(prepared: Manifest) returns (o: Outcome)
      requires Valid() && root && manifest == Some(prepared) && Describes(prepared, base, candidates)
      requires Installed(tree) == base
      requires forall i :: 0 <= i < |candidates| ==>
        && prepared.entries[i].state == Pending
        && IsStaged(SlotAt(tree, candidates[i].key), NewNode(candidates[i]), Lookup(base, candidates[i].key))
      modifies this`tree, this`manifest, this`root, this`faults
      ensures Valid()
      ensures Spent(o, old(faults), faults)
      ensures Decision() == base || Decision() == Updated(base, candidates)
      ensures o.Ok? ==> Decision() == Updated(base, candidates) && Installed(tree) == Updated(base, candidates)
      ensures o.Failed? && !root ==> Installed(tree) == base
      ensures o.Failed? && Real(old(faults)) <= 1 ==>
        Installed(tree) == base && (root ==> tree == old(tree) && manifest.Some? && manifest.value.entries == prepared.entries)
      ensures Real(old(faults)) == 0 ==> o.Ok? && !root
    {
      hide Real, Harmless, SlotAt, Installed, IsStaged, IsMovedAside, IsPublished, InPublish, InRestore, Updated, ValidCandidates;
      var m := prepared.(phase := Committing);
      InstalledIs(tree, base);
      o := WriteManifest(m);
      if !o.Ok? {
        return;
      }
      o, m := PublishAll(m);
      if o.Crashed? {
        return;
      }
      if o.Failed? {
        var undo := Rollback(m);
        if !undo.Ok? {
          return undo;
        }
      }
      ghost var before := tree;
      var cleanup := RemoveRoot();
      SameTargetsInstalled(before, tree);
      if cleanup.Crashed? || o.Failed? {
        return if cleanup.Ok? then o else cleanup;
      }
    }

    // ── Whole runs ────────────────────────────────────────────────

    /** `installUpdateCandidate`: recover, prepare, commit. */
    method Update(cs: seq<Candidate>) returns (o: Outcome)
      requires Valid() && ValidCandidates(cs)
      modifies this
      ensures Valid()
      ensures Spent(o, old(faults), faults)
      ensures Decision() == old(Decision()) || Decision() == Updated(old(Decision()), cs)
      ensures o.Ok? ==> Decision() == Updated(old(Decision()), cs)
      ensures o.Failed? && !old(root) && Real(old(faults)) <= 1 ==> Installed(tree) == old(Decision())
      ensures Real(old(faults)) == 0 ==> o.Ok? && !root && Installed(tree) == Updated(old(Decision()), cs)
    {
      hide Real, Harmless;
      var interrupted;
      o, interrupted := Recover();
      if !o.Ok? {
        return;
      }
      var m;
      o, m := Prepare(cs);
      if !o.Ok? {
        return;
      }
      o := Commit(m);
    }

    /** Recoveries, each of which may itself crash or fail, until one completes. */
    method RecoverFully()
      requires Valid()
      modifies this`tree, this`manifest, this`root, this`faults
      ensures Valid()
      ensures !root && Installed(tree) == old(Decision())
    {
      hide Real, Harmless;
      var o, interrupted := Recover();
      while !o.Ok?
        invariant Valid() && Decision() == old(Decision())
        invariant o.Ok? ==> !root && Installed(tree) == old(Decision())
        decreases |faults|, !o.Ok?
      {
        o, interrupted := Recover();
      }
    }

    /** All or nothing over whole runs: after any updates, each crashing or failing
        anywhere, and recoveries doing the same, a completed recovery leaves exactly
        the original installation with some of the updates applied whole and in order,
        every update that reported success among them. */
    method Session(attempts: seq<seq<Candidate>>) returns (reported: seq<bool>, ghost chosen: seq<bool>)
      requires Valid()
      requires forall k :: 0 <= k < |attempts| ==> ValidCandidates(attempts[k])
      modifies this
      ensures |reported| == |chosen| == |attempts|
      ensures forall k :: 0 <= k < |attempts| && reported[k] ==> chosen[k]
      ensures !root && Installed(tree) == Replayed(old(Decision()), attempts, chosen)
    {
      hide Real, Consistent, Updated, Decided, ValidCandidates;
      reported, chosen := [], [];
      for k := 0 to |attempts|
        invariant Valid() && |reported| == |chosen| == k
        invariant forall j :: 0 <= j < k && reported[j] ==> chosen[j]
        invariant Decision() == Replayed(old(Decision()), attempts[..k], chosen)
      {
        ghost var before := Decision();
        var o := Update(attempts[k]);
        ghost var applied := Decision() == Updated(before, attempts[k]);
        assert attempts[..k + 1][..k] == attempts[..k];
        assert (chosen + [applied])[..k] == chosen;
        reported, chosen := reported + [o.Ok?], chosen + [applied];
      }
      assert attempts[..|attempts|] == attempts;
      RecoverFully();
    }
  }
}
