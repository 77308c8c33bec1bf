/** The crash-safe frontend update of `oore-web`: stage every new path, journal a
    manifest, publish by rename, and roll back or recover after a crash. */
module UpdateTransaction {
  import opened Wrappers
  import opened UpdateDisk

  // ── The journal ─────────────────────────────────────────────────

  datatype Phase = Prepared | Committing | Committed | RollingBack | RolledBack

  datatype State = Pending | Publishing | Published | Restoring | Restored

  /** `original` is the manifest's had_original, original_kind and original_mode. */
  datatype Original = Original(kind: Kind, mode: nat)

  datatype Entry = Entry(key: Key, kind: Kind, original: Option<Original>, state: State)

  datatype Manifest = Manifest(phase: Phase, entries: seq<Entry>)

  datatype Candidate = Candidate(key: Key, kind: Kind, content: nat, executable: bool)

  const COPY_MODE: nat := 0x1A4        // 0o644
  const EXECUTABLE_MODE: nat := 0x1ED  // 0o755
  const MAX_MODE: nat := 0x1FF         // 0o777

  /** What a candidate installs. */
  function NewNode(c: Candidate): Node {
    Node(c.kind, c.content, if c.executable then EXECUTABLE_MODE else COPY_MODE)
  }

  /** The kind each path must have. */
  function KindFor(key: Key): Kind {
    if key.Dist? then Directory else File
  }

  function Keys(cs: seq<Candidate>): (keys: seq<Key>)
    ensures |keys| == |cs|
    ensures forall i :: 0 <= i < |cs| ==> keys[i] == cs[i].key
  {
    seq(|cs|, i requires 0 <= i < |cs| => cs[i].key)
  }

  /** What `validateUpdateManifest` checks of a manifest this code writes: each path at
      most once, with its kind, and every path but the license present. */
  predicate ValidManifest(m: Manifest) {
    && (forall i :: 0 <= i < |m.entries| ==>
          && m.entries[i].kind == KindFor(m.entries[i].key)
          && (m.entries[i].original.Some? ==> m.entries[i].original.value.mode <= MAX_MODE))
    && (forall i, j :: 0 <= i < j < |m.entries| ==> m.entries[i].key != m.entries[j].key)
    && (forall key: Key :: !key.License? ==> exists i :: 0 <= i < |m.entries| && m.entries[i].key == key)
  }

  /** The candidate lists `installUpdateCandidate` builds. */
  ghost predicate ValidCandidates(cs: seq<Candidate>) {
    && (forall i :: 0 <= i < |cs| ==> cs[i].kind == KindFor(cs[i].key))
    && (forall i, j :: 0 <= i < j < |cs| ==> cs[i].key != cs[j].key)
    && (forall key: Key :: !key.License? ==> key in Keys(cs))
  }

  // ── What one path goes through ──────────────────────────────────

  /** The backup `prepareUpdateTransaction` takes: only for a file over a file. */
  function BackupFor(node: Node, was: Option<Node>): Option<Node> {
    if was.Some? && node.kind.File? && was.value.kind.File? then was else None
  }

  /** Whether publishing moves the original aside instead of renaming over it. */
  predicate MovesAside(node: Node, was: Option<Node>) {
    was.Some? && (node.kind.Directory? || was.value.kind.Directory?)
  }

  ghost predicate IsStaged(s: Slot, node: Node, was: Option<Node>) {
    s.target == was && s.staged == Some(node) && s.displaced == None && s.backup == BackupFor(node, was)
  }

  ghost predicate IsMovedAside(s: Slot, node: Node, was: Option<Node>) {
    MovesAside(node, was) && s.target == None && s.staged == Some(node) && s.displaced == was && s.backup == None
  }

  ghost predicate IsPublished(s: Slot, node: Node, was: Option<Node>) {
    && s.target == Some(node) && s.staged == None
    && s.displaced == (if MovesAside(node, was) then was else None)
    && s.backup == BackupFor(node, was)
  }

  ghost predicate InPublish(s: Slot, node: Node, was: Option<Node>) {
    IsStaged(s, node, was) || IsMovedAside(s, node, was) || IsPublished(s, node, was)
  }

  /** Restored by an earlier, interrupted restore, or never published. */
  ghost predicate Settled(s: Slot, was: Option<Node>) {
    && s.target == was
    && (was.Some? ==> s.displaced == None && (s.staged.Some? || s.backup == None))
  }

  /** Everything a restore, itself interrupted any number of times, can leave. */
  ghost predicate InRestore(s: Slot, was: Option<Node>) {
    if was.None? then
      s.staged.Some? ==> s.target == None
    else
      || (s.displaced == was && s.backup == None)
      || Settled(s, was)
      || (s.displaced == None && s.staged == None && s.backup == was)
  }

  ghost predicate StateFits(state: State, s: Slot, node: Node, was: Option<Node>) {
    match state
    case Pending => IsStaged(s, node, was)
    case Publishing => InPublish(s, node, was)
    case Published => IsPublished(s, node, was)
    case Restoring => InRestore(s, was)
    case Restored => s.target == was
  }

  lemma PublishFitsRestore(state: State, s: Slot, node: Node, was: Option<Node>)
    requires StateFits(state, s, node, was)
    requires state != Restored
    ensures InRestore(s, was)
  {
  }

  /** A put-back that stopped before its last rename: the preserved copy is still there. */
  ghost predicate StillPreserved(s: Slot, now: Slot) {
    now == s.(target := now.target, discarded := now.discarded)
  }

  /** A put-back that made its last rename. */
  ghost predicate PutBack(s: Slot, now: Slot, from: Area) {
    now == Put(s, from, None).(target := Get(s, from), discarded := now.discarded)
  }

  // ── The whole transaction ───────────────────────────────────────

  function Lookup(installed: map<Key, Node>, key: Key): Option<Node> {
    if key in installed then Some(installed[key]) else None
  }

  /** The installation with every candidate in place. */
  function Updated(base: map<Key, Node>, cs: seq<Candidate>): map<Key, Node> {
    if cs == [] then base
    else Updated(base, cs[..|cs| - 1])[cs[|cs| - 1].key := NewNode(cs[|cs| - 1])]
  }

  function EntryFor(c: Candidate, was: Option<Node>, state: State): Entry {
    Entry(c.key, c.kind, if was.Some? then Some(Original(was.value.kind, was.value.mode)) else None, state)
  }

  /** The journal describes these candidates over this installation. */
  ghost predicate Describes(m: Manifest, base: map<Key, Node>, cs: seq<Candidate>) {
    && |m.entries| == |cs|
    && forall i :: 0 <= i < |cs| ==>
         m.entries[i] == EntryFor(cs[i], Lookup(base, cs[i].key), m.entries[i].state)
  }

  ghost predicate EntriesFit(tree: Tree, m: Manifest, base: map<Key, Node>, cs: seq<Candidate>)
    requires |m.entries| == |cs|
  {
    forall i :: 0 <= i < |cs| ==>
      StateFits(m.entries[i].state, SlotAt(tree, cs[i].key), NewNode(cs[i]), Lookup(base, cs[i].key))
  }

  /** Paths the transaction does not name keep what was installed. */
  ghost predicate OthersKept(tree: Tree, base: map<Key, Node>, cs: seq<Candidate>) {
    forall r: Key :: r !in Keys(cs) ==> SlotAt(tree, r).target == Lookup(base, r)
  }

  /** What holds between any two durable steps, for the durable manifest alone. */
  ghost predicate Consistent(tree: Tree, root: bool, manifest: Option<Manifest>, base: map<Key, Node>, cs: seq<Candidate>) {
    && ValidCandidates(cs)
    && (forall r :: r in base ==> base[r].mode <= MAX_MODE)
    && (!root ==> manifest.None? && NoTransaction(tree))
    && match manifest
       case None => Installed(tree) == base || Installed(tree) == Updated(base, cs)
       case Some(m) =>
         && Describes(m, base, cs)
         && match m.phase
            case Prepared => Installed(tree) == base
            case RolledBack => Installed(tree) == base
            case Committed => Installed(tree) == Updated(base, cs)
            case Committing => OthersKept(tree, base, cs) && EntriesFit(tree, m, base, cs)
            case RollingBack => OthersKept(tree, base, cs) && EntriesFit(tree, m, base, cs)
  }

  lemma {:induction false} UpdatedAt(base: map<Key, Node>, cs: seq<Candidate>, r: Key)
    requires forall i, j :: 0 <= i < j < |cs| ==> cs[i].key != cs[j].key
    ensures r !in Keys(cs) ==> Lookup(Updated(base, cs), r) == Lookup(base, r)
    ensures forall i :: 0 <= i < |cs| && cs[i].key == r ==> Lookup(Updated(base, cs), r) == Some(NewNode(cs[i]))
  {
    if cs != [] {
      var init := cs[..|cs| - 1];
      UpdatedAt(base, init, r);
      if r !in Keys(cs) {
        assert forall i :: 0 <= i < |init| ==> Keys(init)[i] == Keys(cs)[i];
        assert r !in Keys(init);
        assert Keys(cs)[|cs| - 1] == cs[|cs| - 1].key;
      }
      forall i | 0 <= i < |cs| && cs[i].key == r
        ensures Lookup(Updated(base, cs), r) == Some(NewNode(cs[i]))
      {
        if i < |cs| - 1 {
          assert init[i].key == r;
        }
      }
    }
  }

  lemma InstalledIs(tree: Tree, version: map<Key, Node>)
    ensures Installed(tree) == version <==> forall r: Key :: SlotAt(tree, r).target == Lookup(version, r)
  {
    if forall r: Key :: SlotAt(tree, r).target == Lookup(version, r) {
      forall r: Key
        ensures r in Installed(tree) <==> r in version
        ensures r in Installed(tree) ==> Installed(tree)[r] == version[r]
      {
        assert SlotAt(tree, r).target == Lookup(version, r);
      }
    }
    if Installed(tree) == version {
      forall r: Key
        ensures SlotAt(tree, r).target == Lookup(version, r)
      {
        assert r in Installed(tree) <==> r in version;
      }
    }
  }

  /** All entries published: every target is new, at once. */
  lemma AllPublished(tree: Tree, base: map<Key, Node>, cs: seq<Candidate>)
    requires ValidCandidates(cs)
    requires OthersKept(tree, base, cs)
    requires forall i :: 0 <= i < |cs| ==>
      IsPublished(SlotAt(tree, cs[i].key), NewNode(cs[i]), Lookup(base, cs[i].key))
    ensures Installed(tree) == Updated(base, cs)
  {
    forall r: Key
      ensures SlotAt(tree, r).target == Lookup(Updated(base, cs), r)
    {
      UpdatedAt(base, cs, r);
      if r in Keys(cs) {
        var i :| 0 <= i < |cs| && Keys(cs)[i] == r;
        assert SlotAt(tree, cs[i].key).target == Some(NewNode(cs[i]));
      }
    }
    InstalledIs(tree, Updated(base, cs));
  }

  /** All targets hold what they held: nothing changed. */
  lemma AllOriginal(tree: Tree, base: map<Key, Node>, cs: seq<Candidate>)
    requires OthersKept(tree, base, cs)
    requires forall i :: 0 <= i < |cs| ==> SlotAt(tree, cs[i].key).target == Lookup(base, cs[i].key)
    ensures Installed(tree) == base
  {
    forall r: Key
      ensures SlotAt(tree, r).target == Lookup(base, r)
    {
      if r in Keys(cs) {
        var i :| 0 <= i < |cs| && Keys(cs)[i] == r;
        assert SlotAt(tree, cs[i].key).target == Lookup(base, r);
      }
    }
    InstalledIs(tree, base);
  }

  /** A change to one entry's path leaves the other entries and paths as they were. */
  lemma OneEntryChanged(was: Tree, now: Tree, base: map<Key, Node>, cs: seq<Candidate>, k: nat)
    requires k < |cs|
    requires forall i, j :: 0 <= i < j < |cs| ==> cs[i].key != cs[j].key
    requires OnlyTouches(was, now, cs[k].key)
    ensures forall i :: 0 <= i < |cs| && i != k ==> SlotAt(now, cs[i].key) == SlotAt(was, cs[i].key)
    ensures OthersKept(was, base, cs) ==> OthersKept(now, base, cs)
  {
    assert Keys(cs)[k] == cs[k].key;
  }

  predicate IsActive(phase: Phase) {
    phase == Committing || phase == RollingBack
  }

  function WithState(m: Manifest, k: nat, state: State): Manifest
    requires k < |m.entries|
  {
    m.(entries := m.entries[k := m.entries[k].(state := state)])
  }

  /** Journalling a state that fits the disk keeps the whole transaction consistent. */
  lemma JournalStep(tree: Tree, root: bool, m: Manifest, base: map<Key, Node>, cs: seq<Candidate>, k: nat, state: State)
    requires Consistent(tree, root, Some(m), base, cs) && IsActive(m.phase)
    requires k < |cs|
    requires StateFits(state, SlotAt(tree, cs[k].key), NewNode(cs[k]), Lookup(base, cs[k].key))
    ensures Consistent(tree, root, Some(WithState(m, k, state)), base, cs)
  {
  }

  /** Changing one path in a way its journalled state allows keeps it consistent. */
  lemma DiskStep(was: Tree, now: Tree, root: bool, m: Manifest, base: map<Key, Node>, cs: seq<Candidate>, k: nat)
    requires root && Consistent(was, root, Some(m), base, cs) && IsActive(m.phase)
    requires k < |cs|
    requires OnlyTouches(was, now, cs[k].key)
    requires StateFits(m.entries[k].state, SlotAt(now, cs[k].key), NewNode(cs[k]), Lookup(base, cs[k].key))
    ensures Consistent(now, root, Some(m), base, cs)
  {
    OneEntryChanged(was, now, base, cs, k);
  }

  /** Until the journal says committed no original is lost: what was installed is still
      whole in its target, its displaced copy or its backup. */
  lemma OriginalNeverLost(tree: Tree, root: bool, m: Manifest, base: map<Key, Node>, cs: seq<Candidate>, r: Key)
    requires Consistent(tree, root, Some(m), base, cs)
    requires m.phase != Committed
    requires r in base
    ensures
      var s := SlotAt(tree, r);
      Some(base[r]) in {s.target, s.displaced, s.backup}
  {
    if IsActive(m.phase) {
      if r in Keys(cs) {
        var i :| 0 <= i < |cs| && Keys(cs)[i] == r;
        assert StateFits(m.entries[i].state, SlotAt(tree, r), NewNode(cs[i]), Lookup(base, r));
      }
    } else {
      InstalledIs(tree, base);
    }
  }

  lemma DescribedIsValid(m: Manifest, base: map<Key, Node>, cs: seq<Candidate>)
    requires Describes(m, base, cs) && ValidCandidates(cs)
    requires forall r :: r in base ==> base[r].mode <= MAX_MODE
    ensures ValidManifest(m)
  {
    forall key: Key | !key.License?
      ensures exists i :: 0 <= i < |m.entries| && m.entries[i].key == key
    {
      assert key in Keys(cs);
      var i :| 0 <= i < |cs| && Keys(cs)[i] == key;
      assert m.entries[i].key == key;
    }
  }

  /** The installation a completed recovery settles on, given what is durable now: the
      manifest decides, and without one the update is already decided. */
  ghost function Decided(tree: Tree, manifest: Option<Manifest>, base: map<Key, Node>, cs: seq<Candidate>): map<Key, Node> {
    if manifest.None? then Installed(tree)
    else if manifest.value.phase.Committed? then Updated(base, cs)
    else base
  }

  lemma {:induction false} UpdatedModes(base: map<Key, Node>, cs: seq<Candidate>)
    requires forall r :: r in base ==> base[r].mode <= MAX_MODE
    ensures forall r :: r in Updated(base, cs) ==> Updated(base, cs)[r].mode <= MAX_MODE
  {
    if cs != [] {
      UpdatedModes(base, cs[..|cs| - 1]);
    }
  }

  /** The updates marked in `chosen`, applied in order. */
  function Replayed(start: map<Key, Node>, attempts: seq<seq<Candidate>>, chosen: seq<bool>): map<Key, Node>
    requires |chosen| == |attempts|
  {
    if attempts == [] then start
    else
      var k := |attempts| - 1;
      var before := Replayed(start, attempts[..k], chosen[..k]);
      if chosen[k] then Updated(before, attempts[k]) else before
  }
}
