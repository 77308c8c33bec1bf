/** The disk a frontend update works on, and the durable steps it takes there.

    Every installed path has five places: where it is installed (`Target`) and four
    inside the transaction directory. A durable step is one rename, one mode change,
    one copy, one manifest write or one recursive removal. The steps read a fault
    schedule: at any step the machine may crash, or the call may fail, before the
    step, after it, or (removals and copies only) in the middle of it. */
module UpdateDisk {
  import opened Wrappers

  datatype Kind = File | Directory

  /** The paths a frontend update may replace: `bin/oore-web`, `web-dist`, `WEB_VERSION`,
      `WEB_CHANNEL`, `WEB_GITHUB_REPO` and `LICENSE`. */
  datatype Key = Launcher | Dist | Version | Channel | Repo | License

  /** What a path holds; `content` identifies the bytes of a file or a whole directory. */
  datatype Node = Node(kind: Kind, content: nat, mode: nat)

  datatype Area = Target | Staged | Displaced | Backup | Discarded

  datatype Place = Place(area: Area, key: Key)

  /** The five places of one path. */
  datatype Slot = Slot(
    target: Option<Node>, staged: Option<Node>, displaced: Option<Node>, backup: Option<Node>,
    discarded: Option<Node>)

  const EMPTY: Slot := Slot(None, None, None, None, None)

  type Tree = map<Key, Slot>

  datatype Fault =
    | Clean
    | Before(crash: bool)
    | After(crash: bool)
      /** A removal or copy stops halfway: `left` gives the places that remain, and the
          content of the directories among them; `manifestLeft` says whether the
          manifest file is still there. */
    | During(crash: bool, left: map<Place, nat>, manifestLeft: bool)

  datatype Error =
    | Io
    | BadRename
    | TransactionExists
    | InvalidManifest
    | StagedInvalid
    | TargetChanged
    | SourceInvalid
    | UnexpectedPath
    | CannotVerify
    | SourceMissing
    | RollbackIncomplete

  datatype Outcome = Ok | Crashed | Failed(error: Error)

  function Stop(crash: bool): Outcome {
    if crash then Crashed else Failed(Io)
  }

  /** How many faults of a schedule are real. */
  function Real(faults: seq<Fault>): nat {
    if faults == [] then 0 else (if faults[0].Clean? then 0 else 1) + Real(faults[1..])
  }

  /** No call fails after it did some of its work. */
  ghost predicate Harmless(faults: seq<Fault>) {
    forall i :: 0 <= i < |faults| ==> faults[i].Clean? || faults[i].Before?
  }

  /** No fault comes back. */
  ghost predicate NoMore(was: seq<Fault>, now: seq<Fault>) {
    |now| <= |was| && Real(now) <= Real(was)
  }

  /** How an outcome relates to the schedule: anything but success used up a real fault,
      and the only error a step raises by itself is an I/O error. */
  ghost predicate Spent(o: Outcome, was: seq<Fault>, now: seq<Fault>) {
    && NoMore(was, now)
    && (!o.Ok? ==> |now| < |was| && Real(now) < Real(was))
    && (o.Failed? ==> o.error == Io)
  }

  function SlotAt(tree: Tree, key: Key): Slot {
    if key in tree then tree[key] else EMPTY
  }

  function Get(s: Slot, area: Area): Option<Node> {
    match area
    case Target => s.target
    case Staged => s.staged
    case Displaced => s.displaced
    case Backup => s.backup
    case Discarded => s.discarded
  }

  function Put(s: Slot, area: Area, node: Option<Node>): Slot {
    match area
    case Target => s.(target := node)
    case Staged => s.(staged := node)
    case Displaced => s.(displaced := node)
    case Backup => s.(backup := node)
    case Discarded => s.(discarded := node)
  }

  function KindOf(node: Option<Node>): Option<Kind> {
    if node.Some? then Some(node.value.kind) else None
  }

  /** `updatePathKind` of one of a path's places. */
  function KindAt(tree: Tree, area: Area, key: Key): Option<Kind> {
    KindOf(Get(SlotAt(tree, key), area))
  }

  /** `rename` as POSIX allows it here: onto nothing, or a file onto a file. */
  predicate CanRename(s: Slot, source: Area, destination: Area) {
    && Get(s, source).Some?
    && source != destination
    && (Get(s, destination).Some? ==>
          Get(s, source).value.kind.File? && Get(s, destination).value.kind.File?)
  }

  function Renamed(s: Slot, source: Area, destination: Area): Slot {
    Put(Put(s, source, None), destination, Get(s, source))
  }

  /** What an interrupted removal may leave at a place: a file, or nothing, or a
      directory with some of its files gone. */
  function ErodedNode(node: Option<Node>, place: Place, left: map<Place, nat>): Option<Node> {
    if node.None? || place !in left then None
    else if node.value.kind.File? then node
    else Some(node.value.(content := left[place]))
  }

  /** What is left of a path's transaction places; the target is not in the directory. */
  function ErodedSlot(s: Slot, key: Key, left: map<Place, nat>): Slot {
    Slot(s.target, ErodedNode(s.staged, Place(Staged, key), left),
         ErodedNode(s.displaced, Place(Displaced, key), left),
         ErodedNode(s.backup, Place(Backup, key), left),
         ErodedNode(s.discarded, Place(Discarded, key), left))
  }

  /** What is installed: the targets only. */
  function Installed(tree: Tree): map<Key, Node> {
    map r | r in tree && tree[r].target.Some? :: tree[r].target.value
  }

  ghost predicate OnlyTouches(was: Tree, now: Tree, key: Key) {
    forall r: Key :: r != key ==> SlotAt(was, r) == SlotAt(now, r)
  }

  ghost predicate SameTargets(was: Tree, now: Tree) {
    forall r: Key :: SlotAt(was, r).target == SlotAt(now, r).target
  }

  ghost predicate NoTransaction(tree: Tree) {
    forall r: Key :: SlotAt(tree, r) == EMPTY.(target := SlotAt(tree, r).target)
  }

  lemma SameTargetsInstalled(was: Tree, now: Tree)
    requires SameTargets(was, now)
    ensures Installed(was) == Installed(now)
  {
    forall r: Key
      ensures r in Installed(was) <==> r in Installed(now)
      ensures r in Installed(was) ==> Installed(was)[r] == Installed(now)[r]
    {
      assert SlotAt(was, r).target == SlotAt(now, r).target;
    }
  }
}
