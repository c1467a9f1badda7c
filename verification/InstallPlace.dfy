/** Installing the planned files one after another. */
module InstallPlace {
  import opened Basics
  import opened InstallTree
  import opened InstallRun
  import opened InstallSteps

  lemma {:induction false} MissingPrefixes(t: Tree, q: Path)
    ensures forall i :: 0 <= i < |Missing(t, q)| ==> Under(q, Missing(t, q)[i])
    decreases |q|
  {
    if q !in t && q != [] {
      MissingPrefixes(t, Parent(q));
      var ms := Missing(t, Parent(q));
      forall i | 0 <= i < |ms| ensures Under(q, ms[i]) { UnderTrans(q, Parent(q), ms[i]); }
    }
  }

  lemma FoldersAbove(g: Ground, t: Tree, p: Path)
    requires p in g.dests
    ensures forall i :: 0 <= i < |Folders(t, p)| ==> Above(g, Folders(t, p)[i])
  {
    if p != [] {
      var q := Parent(p);
      MissingPrefixes(t, q);
      forall i | 0 <= i < |Missing(t, q)| ensures Above(g, Missing(t, q)[i]) {
        UnderTrans(p, q, Missing(t, q)[i]);
      }
    }
  }

  lemma MakeDirRun(r: Run, c: Path, g: Ground, away: set<Path>, files: map<Path, Content>)
    requires RunIs(r, g, away, files) && Above(g, c)
    ensures RunIs(MakeDir(r, c), g, away, files)
  {
    if MakeDir(r, c).failed {
      SameRun(r, MakeDir(r, c), g, away, files);
    } else {
      MkdirStep(r, g, away, files, c);
    }
  }

  /** Two runs differ in the tree, the folders made and the steps left at most. */
  ghost predicate OnlyFolders(r: Run, s: Run) {
    s == r.(tree := s.tree, created := s.created, left := s.left, failed := s.failed)
  }

  lemma {:induction false} MakeAllRun(r: Run, dirs: seq<Path>, i: nat, g: Ground, away: set<Path>, files: map<Path, Content>)
    requires RunIs(r, g, away, files) && i <= |dirs| && forall k :: 0 <= k < |dirs| ==> Above(g, dirs[k])
    ensures RunIs(MakeAll(r, dirs, i), g, away, files) && OnlyFolders(r, MakeAll(r, dirs, i))
    decreases |dirs| - i
  {
    if !r.failed && i < |dirs| {
      MakeDirRun(r, dirs[i], g, away, files);
      MakeAllRun(MakeDir(r, dirs[i]), dirs, i + 1, g, away, files);
    }
  }

  /** The files once the temporary is written, or failed to be. */
  ghost function WithTmp(r: Run, tmp: Path, c: Content, torn: bool, files: map<Path, Content>): map<Path, Content> {
    if r.failed || !CanWrite(r.tree, tmp) then files
    else if r.left > 0 then files[tmp := c]
    else if torn then files[tmp := Torn]
    else files
  }

  lemma TmpStep(r: Run, tmp: Path, c: Content, torn: bool, g: Ground, away: set<Path>, files: map<Path, Content>)
    requires RunIs(r, g, away, files) && IsTmp(g, tmp)
    ensures RunIs(Finish(Write(r, tmp, c, torn), tmp), g, away, WithTmp(r, tmp, c, torn, files))
  {
    AtSite(g, away, tmp);
    var s := Finish(Write(r, tmp, c, torn), tmp);
    if r.failed || !CanWrite(r.tree, tmp) || (r.left == 0 && !torn) {
      SameRun(r, s, g, away, files);
    } else {
      var content := if r.left > 0 then c else Torn;
      WriteStep(r, g, away, files, tmp, content);
      SameRun(r.(tree := r.tree[tmp := File(content)]), s, g, away, files[tmp := content]);
    }
  }

  /** Writing the temporary and finishing it. */
  lemma WriteRun(r: Run, p: Path, c: Content, torn: bool, g: Ground, away: set<Path>, files: map<Path, Content>)
    returns (files': map<Path, Content>)
    requires RunIs(r, g, away, files) && p in g.dests && Tmp(p, g.pid) !in files
    ensures var tmp := Tmp(p, g.pid);
            var s := Finish(Write(r, tmp, c, torn), tmp);
            RunIs(s, g, away, files') && StagedOr(r, s, tmp, c, files, files')
  {
    files' := WithTmp(r, Tmp(p, g.pid), c, torn, files);
    TmpStep(r, Tmp(p, g.pid), c, torn, g, away, files);
    StagedIs(r, Tmp(p, g.pid), c, torn, files);
  }

  lemma StagedIs(r: Run, tmp: Path, c: Content, torn: bool, files: map<Path, Content>)
    ensures StagedOr(r, Finish(Write(r, tmp, c, torn), tmp), tmp, c, files, WithTmp(r, tmp, c, torn, files))
  {
  }

  /** The one file more is the temporary. */
  ghost predicate OnlyMore(files: map<Path, Content>, files': map<Path, Content>, tmp: Path) {
    tmp in files' && files' == files[tmp := files'[tmp]]
  }

  /** The temporary is there, or the run failed with or without leaving it behind. */
  ghost predicate StagedOr(r: Run, s: Run, tmp: Path, c: Content, files: map<Path, Content>, files': map<Path, Content>) {
    && s.moved == r.moved && s.entries == r.entries
    && (!s.failed ==> files' == files[tmp := c] && s.junk == r.junk)
    && (s.failed ==> ((s.junk == r.junk && files' == files)
                      || (s.junk == Some(tmp) && OnlyMore(files, files', tmp))))
  }

  lemma NotedRun(r: Run, item: Item, job: Job, g: Ground, away: set<Path>, files: map<Path, Content>)
    returns (files': map<Path, Content>)
    requires RunIs(r, g, away, files) && item.dest in g.dests && Tmp(item.dest, g.pid) !in files
    ensures var tmp := Tmp(item.dest, g.pid);
            var s := NoteWritten(Finish(Write(r, tmp, item.content, job.torn), tmp), item.dest, Owned(job.previous.files));
            RunIs(s, g, away, files') && StagedOr(r, s, tmp, item.content, files, files')
  {
    files' := WriteRun(r, item.dest, item.content, job.torn, g, away, files);
    var tmp := Tmp(item.dest, g.pid);
    var s := Finish(Write(r, tmp, item.content, job.torn), tmp);
    SameRun(s, NoteWritten(s, item.dest, Owned(job.previous.files)), g, away, files');
  }

  lemma StageRun(r: Run, item: Item, job: Job, g: Ground, away: set<Path>, files: map<Path, Content>)
    returns (files': map<Path, Content>)
    requires RunIs(r, g, away, files) && item.dest in g.dests && job.plan.pid == g.pid && Tmp(item.dest, g.pid) !in files
    ensures var s := Stage(r, item, job);
            RunIs(s, g, away, files') && StagedOr(r, s, Tmp(item.dest, g.pid), item.content, files, files')
  {
    FoldersAbove(g, r.tree, item.dest);
    MakeAllRun(r, Folders(r.tree, item.dest), 0, g, away, files);
    files' := NotedRun(MakeAll(r, Folders(r.tree, item.dest), 0), item, job, g, away, files);
  }

  /** A file is noted as written once its temporary is there. */
  lemma StageWritten(r: Run, item: Item, job: Job)
    requires !r.failed
    ensures var s := Stage(r, item, job);
            s.written == if s.failed then r.written else NoteWritten(r, item.dest, Owned(job.previous.files)).written
  {
    MakeAllShape(r, Folders(r.tree, item.dest), 0);
  }

  lemma {:induction false} MakeAllShape(r: Run, dirs: seq<Path>, i: nat)
    requires i <= |dirs|
    ensures OnlyFolders(r, MakeAll(r, dirs, i))
    decreases |dirs| - i
  {
    if !r.failed && i < |dirs| { MakeAllShape(MakeDir(r, dirs[i]), dirs, i + 1); }
  }

  lemma PutAndDrop(files: map<Path, Content>, k: Path, c: Content)
    requires k !in files
    ensures files[k := c] - {k} == files && files[k := c].Keys == files.Keys + {k}
  {
  }

  /** Putting the temporary in place. */
  lemma ReplaceRun(s: Run, item: Item, g: Ground, away: set<Path>, files: map<Path, Content>)
    returns (files': map<Path, Content>)
    requires item.dest in g.dests && At(g.base, away, item.dest) == None && !s.failed
    requires Tmp(item.dest, g.pid) !in files && RunIs(s, g, away, files[Tmp(item.dest, g.pid) := item.content])
    ensures var put := Replace(s, Tmp(item.dest, g.pid), item.dest, item.content);
            && RunIs(put, g, away, files')
            && (!put.failed ==> files' == files[item.dest := item.content])
            && (put.failed ==> put.junk == Some(Tmp(item.dest, g.pid)) && OnlyMore(files, files', Tmp(item.dest, g.pid)))
  {
    var p, tmp := item.dest, Tmp(item.dest, g.pid);
    var staged := files[tmp := item.content];
    PutAndDrop(files, tmp, item.content);
    if Replace(s, tmp, p, item.content).failed {
      files' := staged;
      SameRun(s, Replace(s, tmp, p, item.content), g, away, files');
    } else {
      ReplaceStep(s, g, away, staged, p, item.content);
      files' := (staged - {tmp})[p := item.content];
    }
  }

  /** The file is in place and recorded, or the run failed with the file in place or with the
      temporary left behind. */
  ghost predicate PutOr(s: Run, r: Run, item: Item, job: Job, tmp: Path, files: map<Path, Content>, files': map<Path, Content>) {
    && r.moved == s.moved && r.written == s.written
    && (!r.failed ==> r.entries == s.entries + [EntryFor(item, job)])
    && ((r.junk == s.junk && files' == files[item.dest := item.content])
        || (r.failed && r.junk == Some(tmp) && OnlyMore(files, files', tmp)))
  }

  lemma PutRun(s: Run, item: Item, job: Job, g: Ground, away: set<Path>, files: map<Path, Content>)
    returns (files': map<Path, Content>)
    requires item.dest in g.dests && At(g.base, away, item.dest) == None && !s.failed && job.plan.pid == g.pid
    requires Tmp(item.dest, g.pid) !in files && RunIs(s, g, away, files[Tmp(item.dest, g.pid) := item.content])
    ensures RunIs(Put(s, item, job), g, away, files')
    ensures PutOr(s, Put(s, item, job), item, job, Tmp(item.dest, g.pid), files, files')
  {
    files' := ReplaceRun(s, item, g, away, files);
    SameRun(Replace(s, Tmp(item.dest, g.pid), item.dest, item.content), Put(s, item, job), g, away, files');
  }

  lemma PlaceRun(r: Run, item: Item, job: Job, g: Ground, away: set<Path>, files: map<Path, Content>)
    returns (files': map<Path, Content>)
    requires RunIs(r, g, away, files) && !r.failed && item.dest in g.dests && job.plan.pid == g.pid
    requires At(g.base, away, item.dest) == None && Tmp(item.dest, g.pid) !in files
    ensures RunIs(Place(r, item, job), g, away, files')
    ensures PlacedOr(r, Place(r, item, job), item, job, Tmp(item.dest, g.pid), files, files')
  {
    files' := StageRun(r, item, job, g, away, files);
    StageWritten(r, item, job);
    var s := Stage(r, item, job);
    if s.failed {
      SameRun(s, Put(s, item, job), g, away, files');
    } else {
      files' := PutRun(s, item, job, g, away, files);
    }
  }

  function EntryFor(item: Item, job: Job): Entry {
    Entry(item.dest, job.hash(item.content),
          if item.dest in job.moving then Some(Bak(item.dest)) else FormerBackup(job.previous.files, item.dest))
  }

  /** Where installing one file leaves the run. On success the file is in place, noted and recorded.
      A failure leaves nothing, or the file in place and noted as written, or the temporary. */
  ghost predicate PlacedOr(r: Run, r': Run, item: Item, job: Job, tmp: Path,
                           files: map<Path, Content>, files': map<Path, Content>) {
    var noted := NoteWritten(r, item.dest, Owned(job.previous.files)).written;
    && r'.moved == r.moved
    && (r'.written == r.written || r'.written == noted)
    && (!r'.failed ==>
          && files' == files[item.dest := item.content] && r'.junk == r.junk
          && r'.written == noted && r'.entries == r.entries + [EntryFor(item, job)])
    && (r'.failed ==>
          (|| (r'.junk == r.junk && files' == files)
           || (r'.junk == r.junk && files' == files[item.dest := item.content] && r'.written == noted)
           || (r'.junk == Some(tmp) && OnlyMore(files, files', tmp))))
  }
}
