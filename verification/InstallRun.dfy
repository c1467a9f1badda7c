/** The applications-only install as a run over a file tree: `install_apps` with its failure handler,
    and `uninstall_apps`. Every step that touches the disk can fail; `left` is the number of steps that
    still succeed, and `torn` says whether a write that fails leaves part of the file behind. */
module InstallRun {
  import opened Basics
  import opened InstallTree

  datatype Item = Item(dest: Path, content: Content)

  /** What to install, where the manifest lies, and the process id in the temporaries' names. */
  datatype Plan = Plan(items: seq<Item>, record: Path, pid: string)

  /** The variables of a run. `junk` records the file a failed step left behind. */
  datatype Run = Run(
    tree: Tree, moved: seq<Path>, written: seq<Path>, created: seq<Path>, entries: seq<Entry>,
    left: nat, failed: bool, junk: Option<Path>)

  /** What a run knows of the installation it replaces, and how it computes checksums. */
  datatype Job = Job(plan: Plan, hash: Content -> int, torn: bool, previous: Manifest, moving: seq<Path>)

  // ---- the manifest ----

  datatype Loaded = Absent | Found(manifest: Manifest) | Invalid

  function Load(t: Tree, record: Path): Loaded {
    match Get(t, record)
    case Some(File(Record(m))) => Found(m)
    case Some(File(_)) => Invalid
    case _ => Absent
  }

  function Owned(files: seq<Entry>): (r: set<Path>)
    ensures forall p :: p in r <==> exists i :: 0 <= i < |files| && files[i].path == p
  {
    set i | 0 <= i < |files| :: files[i].path
  }

  /** The backup an earlier manifest records for a path; of several entries the last one counts. */
  function FormerBackup(files: seq<Entry>, p: Path): Option<Path> {
    if files == [] then None
    else if files[|files| - 1].path == p then files[|files| - 1].backup
    else FormerBackup(files[..|files| - 1], p)
  }

  // ---- what is in the way ----

  /** The destinations that exist and are not the installation's own, in plan order, each once. */
  function InTheWay(t: Tree, items: seq<Item>, owned: set<Path>): (r: seq<Path>)
    ensures forall p :: p in r <==> p in t && p !in owned && exists i :: 0 <= i < |items| && items[i].dest == p
    ensures forall i, j :: 0 <= i < j < |r| ==> r[i] != r[j]
  {
    if items == [] then [] else
    var rest := InTheWay(t, items[..|items| - 1], owned);
    var d := items[|items| - 1].dest;
    if d in owned || d !in t || d in rest then rest else rest + [d]
  }

  function Dests(items: seq<Item>): (r: set<Path>)
    ensures forall p :: p in r <==> exists i :: 0 <= i < |items| && items[i].dest == p
  {
    set i | 0 <= i < |items| :: items[i].dest
  }

  predicate Blocked(t: Tree, moving: seq<Path>) {
    exists i :: 0 <= i < |moving| && Bak(moving[i]) in t
  }

  // ---- the steps ----

  function MoveOne(r: Run, d: Path): Run {
    if r.failed || r.left == 0 then r.(failed := true)
    else r.(tree := Rename(r.tree, d, Bak(d)), moved := r.moved + [d], left := r.left - 1)
  }

  function MoveAll(r: Run, ds: seq<Path>, i: nat): Run
    requires i <= |ds|
    decreases |ds| - i
  {
    if r.failed || i == |ds| then r else MoveAll(MoveOne(r, ds[i]), ds, i + 1)
  }

  /** The folders that have to be made for p to exist, outermost first. */
  function Missing(t: Tree, p: Path): (r: seq<Path>) {
    if p in t || p == [] then [] else Missing(t, Parent(p)) + [p]
  }

  /** The folders a file at p still needs. */
  function Folders(t: Tree, p: Path): seq<Path> {
    if p == [] then [] else Missing(t, Parent(p))
  }

  function MakeDir(r: Run, p: Path): Run {
    if r.failed || r.left == 0 || p == [] || p in r.tree || Get(r.tree, Parent(p)) != Some(Dir) then r.(failed := true)
    else r.(tree := r.tree[p := Dir], created := r.created + [p], left := r.left - 1)
  }

  function MakeAll(r: Run, dirs: seq<Path>, i: nat): Run
    requires i <= |dirs|
    decreases |dirs| - i
  {
    if r.failed || i == |dirs| then r else MakeAll(MakeDir(r, dirs[i]), dirs, i + 1)
  }

  predicate CanWrite(t: Tree, p: Path) {
    p != [] && Get(t, Parent(p)) == Some(Dir) && (p !in t || t[p].File?)
  }

  function Write(r: Run, p: Path, c: Content, torn: bool): Run {
    if r.failed || !CanWrite(r.tree, p) then r.(failed := true)
    else if r.left > 0 then r.(tree := r.tree[p := File(c)], left := r.left - 1)
    else if torn then r.(tree := r.tree[p := File(Torn)], failed := true, junk := Some(p))
    else r.(failed := true)
  }

  /** Setting the mode and stripping: it can fail, and the temporary is there by then. */
  function Finish(r: Run, tmp: Path): Run {
    if r.failed then r else if r.left == 0 then r.(failed := true, junk := Some(tmp)) else r.(left := r.left - 1)
  }

  function Replace(r: Run, tmp: Path, p: Path, c: Content): Run {
    if r.failed then r
    else if r.left == 0 || Get(r.tree, p) == Some(Dir) then r.(failed := true, junk := Some(tmp))
    else r.(tree := (r.tree - {tmp})[p := File(c)], left := r.left - 1)
  }

  function NoteWritten(r: Run, p: Path, owned: set<Path>): Run {
    if r.failed || p in owned then r else r.(written := r.written + [p])
  }

  function NoteEntry(r: Run, p: Path, c: Content, job: Job): Run {
    if r.failed || r.left == 0 then r.(failed := true) else
    var backup := if p in job.moving then Some(Bak(p)) else FormerBackup(job.previous.files, p);
    r.(entries := r.entries + [Entry(p, job.hash(c), backup)], left := r.left - 1)
  }

  /** Makes the folders of a file and writes its temporary. */
  function Stage(r: Run, item: Item, job: Job): Run {
    var tmp := Tmp(item.dest, job.plan.pid);
    var made := MakeAll(r, Folders(r.tree, item.dest), 0);
    NoteWritten(Finish(Write(made, tmp, item.content, job.torn), tmp), item.dest, Owned(job.previous.files))
  }

  /** Puts the temporary in place and records the file. */
  function Put(s: Run, item: Item, job: Job): Run {
    NoteEntry(Replace(s, Tmp(item.dest, job.plan.pid), item.dest, item.content), item.dest, item.content, job)
  }

  function Place(r: Run, item: Item, job: Job): Run {
    Put(Stage(r, item, job), item, job)
  }

  function PlaceAll(r: Run, items: seq<Item>, i: nat, job: Job): Run
    requires i <= |items|
    decreases |items| - i
  {
    if r.failed || i == |items| then r else PlaceAll(Place(r, items[i], job), items, i + 1, job)
  }

  /** Whether a file is still the one the manifest recorded. */
  predicate Unchanged(t: Tree, e: Entry, hash: Content -> int) {
    e.path in t && t[e.path].File? && hash(t[e.path].content) == e.sha
  }

  /** Removes the files of the former installation that this one no longer ships. */
  function DropOld(r: Run, files: seq<Entry>, i: nat, shipped: set<Path>, hash: Content -> int): Run
    requires i <= |files|
    decreases |files| - i
  {
    if r.failed || i == |files| then r
    else if files[i].path in shipped || !Unchanged(r.tree, files[i], hash) then DropOld(r, files, i + 1, shipped, hash)
    else if r.left == 0 then r.(failed := true)
    else DropOld(r.(tree := r.tree - {files[i].path}, left := r.left - 1), files, i + 1, shipped, hash)
  }

  /** Everything the run does inside its try block. */
  function Attempt(r: Run, job: Job): Run {
    var placed := PlaceAll(MoveAll(r, job.moving, 0), job.plan.items, 0, job);
    var dropped := DropOld(placed, job.previous.files, 0, Dests(job.plan.items), job.hash);
    Write(dropped, job.plan.record, Record(Manifest(dropped.entries, dropped.created)), job.torn)
  }

  // ---- the failure handler ----

  function Erase(t: Tree, ps: seq<Path>, i: nat): Tree
    requires i <= |ps|
    decreases |ps| - i
  {
    if i == |ps| then t else Erase(t - {ps[i]}, ps, i + 1)
  }

  /** The tree once the entries from the last one down to the i-th are back in their places. */
  function Restore(t: Tree, ds: seq<Path>, i: nat): Tree
    requires i <= |ds|
    decreases |ds| - i
  {
    if i == |ds| then t else Rename(Restore(t, ds, i + 1), Bak(ds[i]), ds[i])
  }

  predicate IsEmptyDir(t: Tree, p: Path) {
    Get(t, p) == Some(Dir) && forall k :: k in t && Under(k, p) ==> k == p
  }

  function Rmdir(t: Tree, p: Path): Tree {
    if IsEmptyDir(t, p) then t - {p} else t
  }

  /** The tree once the folders from the last one down to the i-th are removed if they are empty. */
  function Prune(t: Tree, dirs: seq<Path>, i: nat): Tree
    requires i <= |dirs|
    decreases |dirs| - i
  {
    if i == |dirs| then t else Rmdir(Prune(t, dirs, i + 1), dirs[i])
  }

  function Rollback(r: Run): Tree {
    Prune(Restore(Erase(r.tree, r.written, 0), r.moved, 0), r.created, 0)
  }

  // ---- a whole install ----

  /** Refused before anything was touched; failed and rolled back; or done. */
  datatype Outcome = Refused | Failed(tree: Tree, junk: Option<Path>) | Installed(tree: Tree)

  function Begin(t: Tree, left: nat, previous: Manifest): Run {
    Run(t, [], [], previous.dirs, [], left, false, None)
  }

  function JobFor(t: Tree, plan: Plan, hash: Content -> int, torn: bool, previous: Manifest): Job {
    Job(plan, hash, torn, previous, InTheWay(t, plan.items, Owned(previous.files)))
  }

  function Install(t: Tree, plan: Plan, hash: Content -> int, left: nat, torn: bool): Outcome {
    var loaded := Load(t, plan.record);
    if loaded.Invalid? then Refused else
    var previous := if loaded.Found? then loaded.manifest else Manifest([], []);
    var job := JobFor(t, plan, hash, torn, previous);
    if Blocked(t, job.moving) then Refused else
    var r := Attempt(Begin(t, left, previous), job);
    if r.failed then Failed(Rollback(r), r.junk) else Installed(r.tree)
  }

  // ---- uninstalling ----

  /** Takes one recorded file out and puts the file it displaced back. */
  function Undo(t: Tree, e: Entry, hash: Content -> int): Tree {
    if e.path in t && !Unchanged(t, e, hash) then t else
    var gone := t - {e.path};
    if e.backup.Some? && e.backup.value in gone && e.path !in gone then Rename(gone, e.backup.value, e.path) else gone
  }

  /** The tree once the entries from the last one down to the i-th are undone. */
  function UndoAll(t: Tree, files: seq<Entry>, i: nat, hash: Content -> int): Tree
    requires i <= |files|
    decreases |files| - i
  {
    if i == |files| then t else Undo(UndoAll(t, files, i + 1, hash), files[i], hash)
  }

  const CACHES: seq<string> := ["mimeinfo.cache", "icon-theme.cache"]

  /** Removes a cache file when it is all that is left in a folder. */
  function DropCache(t: Tree, dir: Path, cache: string): Tree {
    if dir + [cache] in t && forall k :: k in t && |k| == |dir| + 1 && Under(k, dir) ==> k == dir + [cache]
    then t - {dir + [cache]} else t
  }

  function RemoveDir(t: Tree, dir: Path): Tree {
    if Get(t, dir) != Some(Dir) then t
    else Rmdir(DropCache(DropCache(t, dir, CACHES[0]), dir, CACHES[1]), dir)
  }

  /** The tree once the folders from the last one down to the i-th are looked at. */
  function RemoveDirs(t: Tree, dirs: seq<Path>, i: nat): Tree
    requires i <= |dirs|
    decreases |dirs| - i
  {
    if i == |dirs| then t else RemoveDir(RemoveDirs(t, dirs, i + 1), dirs[i])
  }

  /** The tree after an uninstall, or nothing when there is no usable manifest. */
  function Uninstall(t: Tree, record: Path, hash: Content -> int): Option<Tree> {
    match Load(t, record)
    case Found(m) =>
      var undone := UndoAll(t, m.files, 0, hash);
      Some(RemoveDirs(undone - {record}, m.dirs, 0))
    case _ => None
  }
}
