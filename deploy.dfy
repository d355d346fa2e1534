/** `handleProject` of the webhook server in index.js: clone the repository
    into one temporary directory, save the persistent files into a second,
    wipe the live directory, restore the persistent files, then activate the
    project by its kind. Each fallible step's outcome is an input; the result
    is the trace of actions performed. */
module Deploy {
  import opened Config
  import opened Commands
  import opened Steps

  /** The outcome of each step that can fail (true: success). Each
      `async.each` batch has one outcome. */
  datatype Outcomes = Outcomes(clone: bool, snapshot: bool, wipe: bool, restore: bool, copy: bool, pull: bool)

  /** Persistent name n is saved from `<path>/n` to `<persistentDir>/<shortName>/n`. */
  function SaveCopies(req: Redeploy, persistentDir: string): seq<Copy> {
    Copies([req.project.path], [persistentDir, req.shortName], req.project.persistent)
  }

  /** Persistent name n is restored from `<persistentDir>/<shortName>/n` to `<path>/n`. */
  function RestoreCopies(req: Redeploy, persistentDir: string): seq<Copy> {
    Copies([persistentDir, req.shortName], [req.project.path], req.project.persistent)
  }

  /** The compose files, then the other files, from the clone into the live directory. */
  function FileCopies(req: Redeploy, tmpDir: string): seq<Copy> {
    Copies([tmpDir, req.shortName], [req.project.path], req.project.composeFiles + req.project.otherFiles)
  }

  /** The steps of a redeploy on which nothing fails, in callback order. */
  function Plan(req: Redeploy, tmpDir: string, persistentDir: string): seq<Action> {
    var p := req.project;
    [Clone(CloneCommand(tmpDir, p.branch, req.projectName)),
     Snapshot(SaveCopies(req, persistentDir)),
     Wipe([p.path]),
     Restore(RestoreCopies(req, persistentDir))]
    + (if p.kind == GitFolder then
         [MakeParentDir([p.path, p.repoPath]),
          CopyTree(Copy([tmpDir, req.shortName, p.repoPath], [p.path]))]
       else if p.kind == DockerCompose then
         [CopyFiles(FileCopies(req, tmpDir)),
          Pull(PullCommand(p.path, p.composeFiles)),
          Up(UpCommand(p.path, p.composeFiles, p.serviceName))]
       else [])
  }

  /** The outcome of each plan step. A mkdirp error is ignored, and the last
      step's outcome decides nothing (both of its branches clean up). */
  function StepOutcomes(kind: string, o: Outcomes): seq<bool> {
    [o.clone, o.snapshot, o.wipe, o.restore]
    + (if kind == GitFolder then [true, true]
       else if kind == DockerCompose then [o.copy, o.pull, true]
       else [])
  }

  /** Whether the run ends with `cleanUp`. Two paths do not: a failed
      snapshot batch only logs its error, and a project kind other than
      `git-folder` and `docker-compose` falls out of the chain silently. */
  predicate CleansUp(kind: string, o: Outcomes) {
    if !o.clone then true
    else if !o.snapshot then false
    else if !o.wipe || !o.restore then true
    else kind == GitFolder || kind == DockerCompose
  }

  /** The trace of one redeploy: the two temporary directories are allocated,
      the plan runs until its first failing step, and `cleanUp` removes both
      directories where the code calls it. */
  function Run(req: Redeploy, tmpDir: string, persistentDir: string, o: Outcomes): seq<Action> {
    [Allocate([tmpDir, persistentDir])]
    + Performed(Plan(req, tmpDir, persistentDir), StepOutcomes(req.project.kind, o))
    + (if CleansUp(req.project.kind, o) then [CleanUp([tmpDir, persistentDir])] else [])
  }

  /** The run as a prefix of the plan: what `HandleProject` builds step by step. */
  lemma RunIsPrefix(req: Redeploy, tmpDir: string, persistentDir: string, o: Outcomes, n: nat)
    requires n == Reach(StepOutcomes(req.project.kind, o))
    ensures n <= |Plan(req, tmpDir, persistentDir)|
    ensures Run(req, tmpDir, persistentDir, o)
         == [Allocate([tmpDir, persistentDir])] + Plan(req, tmpDir, persistentDir)[..n]
            + (if CleansUp(req.project.kind, o) then [CleanUp([tmpDir, persistentDir])] else [])
  {
  }

  /** The callback chain of `handleProject`, one step at a time. `tmpDir` and
      `persistentDir` are the names `tmp.dirSync` returned. */
  method HandleProject(req: Redeploy, tmpDir: string, persistentDir: string, o: Outcomes)
    returns (trace: seq<Action>)
    ensures trace == Run(req, tmpDir, persistentDir, o)
  {
    var p := req.project;
    var dirs := [tmpDir, persistentDir];
    ghost var plan := Plan(req, tmpDir, persistentDir);
    ghost var ok := StepOutcomes(p.kind, o);
    trace := [Allocate(dirs)];

    trace := trace + [Clone(CloneCommand(tmpDir, p.branch, req.projectName))];
    assert trace == [Allocate(dirs)] + plan[..1];
    if !o.clone {
      LeadIs(ok, 0);
      RunIsPrefix(req, tmpDir, persistentDir, o, 1);
      trace := trace + [CleanUp(dirs)];
      return;
    }

    trace := trace + [Snapshot(SaveCopies(req, persistentDir))];
    assert trace == [Allocate(dirs)] + plan[..2];
    if !o.snapshot {
      // the batch callback only logs the error
      LeadIs(ok, 1);
      RunIsPrefix(req, tmpDir, persistentDir, o, 2);
      return;
    }

    trace := trace + [Wipe([p.path])];
    assert trace == [Allocate(dirs)] + plan[..3];
    if !o.wipe {
      LeadIs(ok, 2);
      RunIsPrefix(req, tmpDir, persistentDir, o, 3);
      trace := trace + [CleanUp(dirs)];
      return;
    }

    trace := trace + [Restore(RestoreCopies(req, persistentDir))];
    assert trace == [Allocate(dirs)] + plan[..4];
    if !o.restore {
      LeadIs(ok, 3);
      RunIsPrefix(req, tmpDir, persistentDir, o, 4);
      trace := trace + [CleanUp(dirs)];
      return;
    }

    if p.kind == GitFolder {
      trace := trace + [MakeParentDir([p.path, p.repoPath])];
      trace := trace + [CopyTree(Copy([tmpDir, req.shortName, p.repoPath], [p.path]))];
      assert trace == [Allocate(dirs)] + plan[..6];
      // the copy's callback calls cleanUp whether or not the copy failed
      LeadIs(ok, 6);
      RunIsPrefix(req, tmpDir, persistentDir, o, 6);
      trace := trace + [CleanUp(dirs)];
    } else if p.kind == DockerCompose {
      trace := trace + [CopyFiles(FileCopies(req, tmpDir))];
      assert trace == [Allocate(dirs)] + plan[..5];
      if !o.copy {
        LeadIs(ok, 4);
        RunIsPrefix(req, tmpDir, persistentDir, o, 5);
        trace := trace + [CleanUp(dirs)];
        return;
      }
      trace := trace + [Pull(PullCommand(p.path, p.composeFiles))];
      assert trace == [Allocate(dirs)] + plan[..6];
      if !o.pull {
        LeadIs(ok, 5);
        RunIsPrefix(req, tmpDir, persistentDir, o, 6);
        trace := trace + [CleanUp(dirs)];
        return;
      }
      trace := trace + [Up(UpCommand(p.path, p.composeFiles, p.serviceName))];
      assert trace == [Allocate(dirs)] + plan[..7];
      // the up callback calls cleanUp whether or not it failed
      LeadIs(ok, 7);
      RunIsPrefix(req, tmpDir, persistentDir, o, 7);
      trace := trace + [CleanUp(dirs)];
    } else {
      // no branch matches the kind: nothing more happens, not even cleanUp
      LeadIs(ok, 4);
      RunIsPrefix(req, tmpDir, persistentDir, o, 4);
    }
  }

  // ---------------------------------------------------------------- properties of a run

  /** How many plan steps run, read off the outcomes in callback order. */
  function Depth(kind: string, o: Outcomes): nat {
    if !o.clone then 1
    else if !o.snapshot then 2
    else if !o.wipe then 3
    else if !o.restore then 4
    else if kind == GitFolder then 6
    else if kind == DockerCompose then (if !o.copy then 5 else if !o.pull then 6 else 7)
    else 4
  }

  lemma DepthIsReach(kind: string, o: Outcomes)
    ensures Depth(kind, o) == Reach(StepOutcomes(kind, o))
  {
    var ok := StepOutcomes(kind, o);
    if !o.clone { LeadIs(ok, 0); }
    else if !o.snapshot { LeadIs(ok, 1); }
    else if !o.wipe { LeadIs(ok, 2); }
    else if !o.restore { LeadIs(ok, 3); }
    else if kind == GitFolder { LeadIs(ok, 6); }
    else if kind == DockerCompose {
      if !o.copy { LeadIs(ok, 4); }
      else if !o.pull { LeadIs(ok, 5); }
      else { LeadIs(ok, 7); }
    } else { LeadIs(ok, 4); }
  }

  /** The run is the allocation, the first `Depth` plan steps and the optional cleanup. */
  lemma RunShape(req: Redeploy, tmpDir: string, persistentDir: string, o: Outcomes)
    ensures Depth(req.project.kind, o) <= |Plan(req, tmpDir, persistentDir)|
    ensures Run(req, tmpDir, persistentDir, o)
         == [Allocate([tmpDir, persistentDir])] + Plan(req, tmpDir, persistentDir)[..Depth(req.project.kind, o)]
            + (if CleansUp(req.project.kind, o) then [CleanUp([tmpDir, persistentDir])] else [])
  {
    DepthIsReach(req.project.kind, o);
    RunIsPrefix(req, tmpDir, persistentDir, o, Depth(req.project.kind, o));
  }

  /** A failed clone stops the chain and removes both temporary directories. */
  lemma CloneFailure(req: Redeploy, tmpDir: string, persistentDir: string, o: Outcomes)
    requires !o.clone
    ensures Run(req, tmpDir, persistentDir, o)
         == [Allocate([tmpDir, persistentDir]),
             Clone(CloneCommand(tmpDir, req.project.branch, req.projectName)),
             CleanUp([tmpDir, persistentDir])]
  {
    RunShape(req, tmpDir, persistentDir, o);
  }

  /** A failed snapshot batch stops the chain before the wipe, and nothing
      removes the temporary directories. */
  lemma SnapshotFailureGap(req: Redeploy, tmpDir: string, persistentDir: string, o: Outcomes)
    requires o.clone && !o.snapshot
    ensures Run(req, tmpDir, persistentDir, o)
         == [Allocate([tmpDir, persistentDir]),
             Clone(CloneCommand(tmpDir, req.project.branch, req.projectName)),
             Snapshot(SaveCopies(req, persistentDir))]
  {
    RunShape(req, tmpDir, persistentDir, o);
  }

  /** A project kind other than the two known ones: after the restore nothing
      runs, and nothing removes the temporary directories. */
  lemma UnknownKindGap(req: Redeploy, tmpDir: string, persistentDir: string, o: Outcomes)
    requires o.clone && o.snapshot && o.wipe && o.restore
    requires req.project.kind != GitFolder && req.project.kind != DockerCompose
    ensures Run(req, tmpDir, persistentDir, o)
         == [Allocate([tmpDir, persistentDir]),
             Clone(CloneCommand(tmpDir, req.project.branch, req.projectName)),
             Snapshot(SaveCopies(req, persistentDir)),
             Wipe([req.project.path]),
             Restore(RestoreCopies(req, persistentDir))]
  {
    RunShape(req, tmpDir, persistentDir, o);
  }

  /** The live directory is wiped exactly when the clone and the whole
      snapshot batch succeeded, and the wipe comes right after the snapshot. */
  lemma WipeAfterSnapshot(req: Redeploy, tmpDir: string, persistentDir: string, o: Outcomes)
    ensures (exists i :: 0 <= i < |Run(req, tmpDir, persistentDir, o)| && Run(req, tmpDir, persistentDir, o)[i].Wipe?)
            <==> o.clone && o.snapshot
    ensures forall i :: 0 <= i < |Run(req, tmpDir, persistentDir, o)| && Run(req, tmpDir, persistentDir, o)[i].Wipe? ==>
              i == 3 && Run(req, tmpDir, persistentDir, o)[i] == Wipe([req.project.path])
              && Run(req, tmpDir, persistentDir, o)[2] == Snapshot(SaveCopies(req, persistentDir))
  {
    RunShape(req, tmpDir, persistentDir, o);
    var t := Run(req, tmpDir, persistentDir, o);
    if o.clone && o.snapshot {
      assert t[3].Wipe?;
    }
  }

  /** `up` runs only for a docker-compose project, only after every earlier
      step succeeded, right after the `pull` and two steps after the file
      copies; and it does run once all of those succeeded. */
  lemma UpNeedsPull(req: Redeploy, tmpDir: string, persistentDir: string, o: Outcomes)
    ensures forall i :: 0 <= i < |Run(req, tmpDir, persistentDir, o)| && Run(req, tmpDir, persistentDir, o)[i].Up? ==>
              req.project.kind == DockerCompose
              && o.clone && o.snapshot && o.wipe && o.restore && o.copy && o.pull
              && i == 7
              && Run(req, tmpDir, persistentDir, o)[i] == Up(UpCommand(req.project.path, req.project.composeFiles, req.project.serviceName))
              && Run(req, tmpDir, persistentDir, o)[i - 1] == Pull(PullCommand(req.project.path, req.project.composeFiles))
              && Run(req, tmpDir, persistentDir, o)[i - 2] == CopyFiles(FileCopies(req, tmpDir))
    ensures req.project.kind == DockerCompose && o.clone && o.snapshot && o.wipe && o.restore && o.copy && o.pull ==>
              |Run(req, tmpDir, persistentDir, o)| > 7 && Run(req, tmpDir, persistentDir, o)[7].Up?
  {
    RunShape(req, tmpDir, persistentDir, o);
  }

  /** `cleanUp` is called exactly on the paths `CleansUp` names, always as the
      last action and always on both temporary directories. */
  lemma CleanUpLast(req: Redeploy, tmpDir: string, persistentDir: string, o: Outcomes)
    ensures (exists i :: 0 <= i < |Run(req, tmpDir, persistentDir, o)| && Run(req, tmpDir, persistentDir, o)[i].CleanUp?)
            <==> CleansUp(req.project.kind, o)
    ensures forall i :: 0 <= i < |Run(req, tmpDir, persistentDir, o)| && Run(req, tmpDir, persistentDir, o)[i].CleanUp? ==>
              i == |Run(req, tmpDir, persistentDir, o)| - 1
              && Run(req, tmpDir, persistentDir, o)[i] == CleanUp([tmpDir, persistentDir])
  {
    RunShape(req, tmpDir, persistentDir, o);
    var t := Run(req, tmpDir, persistentDir, o);
    if CleansUp(req.project.kind, o) {
      assert t[|t| - 1].CleanUp?;
    }
  }

  /** Actions happen in pipeline order: allocation, clone, snapshot, wipe,
      restore, activation, cleanup, with no stage repeated. */
  lemma RunOrdered(req: Redeploy, tmpDir: string, persistentDir: string, o: Outcomes)
    ensures Ordered(Run(req, tmpDir, persistentDir, o))
  {
    var plan := Plan(req, tmpDir, persistentDir);
    var ok := StepOutcomes(req.project.kind, o);
    var dirs := [tmpDir, persistentDir];
    var last := if CleansUp(req.project.kind, o) then [CleanUp(dirs)] else [];
    assert Ordered(plan);
    OrderedRun(Allocate(dirs), plan, ok, last);
  }

  /** Each persistent name is saved from the live directory to
      `<persistentDir>/<shortName>/<name>` and restored from exactly there. */
  lemma RestoreMirrorsSnapshot(req: Redeploy, persistentDir: string)
    ensures |RestoreCopies(req, persistentDir)| == |SaveCopies(req, persistentDir)| == |req.project.persistent|
    ensures forall i :: 0 <= i < |req.project.persistent| ==>
              SaveCopies(req, persistentDir)[i]
                == Copy([req.project.path, req.project.persistent[i]], [persistentDir, req.shortName, req.project.persistent[i]])
              && RestoreCopies(req, persistentDir)[i] == Reversed(SaveCopies(req, persistentDir)[i])
  {
    CopiesBack([req.project.path], [persistentDir, req.shortName], req.project.persistent);
  }
}
