/** `handleProject` of hooks.js, the variant for a host where docker runs
    elsewhere: clone into one temporary directory, delete the live files that
    are not persistent with a `find … -delete` line, then copy the new files
    in by the project's kind. No snapshot, no restore, no docker commands. */
module Hooks {
  import opened Config
  import opened Commands
  import opened Steps

  /** The outcome of each step that can fail (true: success). */
  datatype Outcomes = Outcomes(clone: bool, delete: bool, copy: bool)

  /** The compose files, then the other files, from the clone into the live directory. */
  function FileCopies(req: Redeploy, tmpDir: string): seq<Copy> {
    Copies([tmpDir, req.shortName], [req.project.path], req.project.composeFiles + req.project.otherFiles)
  }

  /** The steps of a redeploy on which nothing fails, in callback order. */
  function Plan(req: Redeploy, tmpDir: string): seq<Action> {
    var p := req.project;
    [Clone(CloneCommand(tmpDir, p.branch, req.projectName)),
     FindDelete(FindCommand(p.path, p.persistent))]
    + (if p.kind == GitFolder then [CopyTree(Copy([tmpDir, req.shortName, p.repoPath], [p.path]))]
       else if p.kind == DockerCompose then [CopyFiles(FileCopies(req, tmpDir))]
       else [])
  }

  /** The outcome of each plan step; the copy is the last step, and both of
      its branches clean up, so its outcome decides nothing. */
  function StepOutcomes(kind: string, o: Outcomes): seq<bool> {
    [o.clone, o.delete] + (if kind == GitFolder || kind == DockerCompose then [true] else [])
  }

  /** Whether the run ends with `cleanUp`: on every path except an unknown
      project kind after a successful delete. */
  predicate CleansUp(kind: string, o: Outcomes) {
    !o.clone || !o.delete || kind == GitFolder || kind == DockerCompose
  }

  /** The trace of one redeploy: one temporary directory is allocated, the
      plan runs until its first failing step, and `cleanUp` removes the
      directory where the code calls it. */
  function Run(req: Redeploy, tmpDir: string, o: Outcomes): seq<Action> {
    [Allocate([tmpDir])]
    + Performed(Plan(req, tmpDir), StepOutcomes(req.project.kind, o))
    + (if CleansUp(req.project.kind, o) then [CleanUp([tmpDir])] else [])
  }

  /** How many plan steps run. */
  function Depth(kind: string, o: Outcomes): nat {
    if !o.clone then 1
    else if !o.delete then 2
    else if kind == GitFolder || kind == DockerCompose then 3
    else 2
  }

  lemma DepthIsReach(kind: string, o: Outcomes)
    ensures Depth(kind, o) == Reach(StepOutcomes(kind, o))
  {
    var ok := StepOutcomes(kind, o);
    if !o.clone { LeadIs(ok, 0); }
    else if !o.delete { LeadIs(ok, 1); }
    else if kind == GitFolder || kind == DockerCompose { LeadIs(ok, 3); }
    else { LeadIs(ok, 2); }
  }

  /** The run is the allocation, the first `Depth` plan steps and the optional cleanup. */
  lemma RunShape(req: Redeploy, tmpDir: string, o: Outcomes)
    ensures Depth(req.project.kind, o) <= |Plan(req, tmpDir)|
    ensures Run(req, tmpDir, o)
         == [Allocate([tmpDir])] + Plan(req, tmpDir)[..Depth(req.project.kind, o)]
            + (if CleansUp(req.project.kind, o) then [CleanUp([tmpDir])] else [])
  {
    DepthIsReach(req.project.kind, o);
  }

  /** The callback chain of `handleProject`, one step at a time. `tmpDir` is
      the name `tmp.dirSync` returned. */
  method HandleProject(req: Redeploy, tmpDir: string, o: Outcomes) returns (trace: seq<Action>)
    ensures trace == Run(req, tmpDir, o)
  {
    var p := req.project;
    ghost var plan := Plan(req, tmpDir);
    RunShape(req, tmpDir, o);
    trace := [Allocate([tmpDir])];

    trace := trace + [Clone(CloneCommand(tmpDir, p.branch, req.projectName))];
    assert trace == [Allocate([tmpDir])] + plan[..1];
    if !o.clone {
      trace := trace + [CleanUp([tmpDir])];
      return;
    }

    trace := trace + [FindDelete(FindCommand(p.path, p.persistent))];
    assert trace == [Allocate([tmpDir])] + plan[..2];
    if !o.delete {
      trace := trace + [CleanUp([tmpDir])];
      return;
    }

    if p.kind == GitFolder {
      // the copy's callback calls cleanUp whether or not the copy failed
      trace := trace + [CopyTree(Copy([tmpDir, req.shortName, p.repoPath], [p.path]))];
      assert trace == [Allocate([tmpDir])] + plan[..3];
      trace := trace + [CleanUp([tmpDir])];
    } else if p.kind == DockerCompose {
      // the batch callback calls cleanUp whether or not a copy failed
      trace := trace + [CopyFiles(FileCopies(req, tmpDir))];
      assert trace == [Allocate([tmpDir])] + plan[..3];
      trace := trace + [CleanUp([tmpDir])];
    }
    // any other kind: nothing more happens, not even cleanUp
  }

  // ---------------------------------------------------------------- properties of a run

  /** The delete runs exactly when the clone succeeded, right after it. */
  lemma DeleteAfterClone(req: Redeploy, tmpDir: string, o: Outcomes)
    ensures (exists i :: 0 <= i < |Run(req, tmpDir, o)| && Run(req, tmpDir, o)[i].FindDelete?) <==> o.clone
    ensures forall i :: 0 <= i < |Run(req, tmpDir, o)| && Run(req, tmpDir, o)[i].FindDelete? ==>
              i == 2 && Run(req, tmpDir, o)[i] == FindDelete(FindCommand(req.project.path, req.project.persistent))
              && Run(req, tmpDir, o)[1] == Clone(CloneCommand(tmpDir, req.project.branch, req.projectName))
  {
    RunShape(req, tmpDir, o);
    if o.clone {
      assert Run(req, tmpDir, o)[2].FindDelete?;
    }
  }

  /** Files are copied in exactly when the clone and the delete succeeded and
      the kind is known, right after the delete. */
  lemma CopyAfterDelete(req: Redeploy, tmpDir: string, o: Outcomes)
    ensures (exists i :: 0 <= i < |Run(req, tmpDir, o)| && (Run(req, tmpDir, o)[i].CopyTree? || Run(req, tmpDir, o)[i].CopyFiles?))
            <==> o.clone && o.delete && (req.project.kind == GitFolder || req.project.kind == DockerCompose)
    ensures forall i :: 0 <= i < |Run(req, tmpDir, o)| && (Run(req, tmpDir, o)[i].CopyTree? || Run(req, tmpDir, o)[i].CopyFiles?) ==>
              i == 3 && Run(req, tmpDir, o)[2] == FindDelete(FindCommand(req.project.path, req.project.persistent))
  {
    RunShape(req, tmpDir, o);
    if o.clone && o.delete && (req.project.kind == GitFolder || req.project.kind == DockerCompose) {
      assert Run(req, tmpDir, o)[3].CopyTree? || Run(req, tmpDir, o)[3].CopyFiles?;
    }
  }

  /** A docker-compose project gets its compose files and then its other
      files copied, and this variant never pulls or starts containers. */
  lemma DockerCopiesOnly(req: Redeploy, tmpDir: string, o: Outcomes)
    ensures forall i :: 0 <= i < |Run(req, tmpDir, o)| ==> !Run(req, tmpDir, o)[i].Pull? && !Run(req, tmpDir, o)[i].Up?
    ensures req.project.kind == DockerCompose && o.clone && o.delete ==>
              Run(req, tmpDir, o)[3]
                == CopyFiles(Copies([tmpDir, req.shortName], [req.project.path], req.project.composeFiles + req.project.otherFiles))
  {
    RunShape(req, tmpDir, o);
  }

  /** Only one temporary directory is ever allocated, and `cleanUp` always
      removes exactly it, as the last action; it is called on every path but
      one: an unknown project kind after a successful delete. */
  lemma SingleTempDir(req: Redeploy, tmpDir: string, o: Outcomes)
    ensures forall i :: 0 <= i < |Run(req, tmpDir, o)| && Run(req, tmpDir, o)[i].Allocate? ==>
              i == 0 && Run(req, tmpDir, o)[i].dirs == [tmpDir]
    ensures (exists i :: 0 <= i < |Run(req, tmpDir, o)| && Run(req, tmpDir, o)[i].CleanUp?)
            <==> !o.clone || !o.delete || req.project.kind == GitFolder || req.project.kind == DockerCompose
    ensures forall i :: 0 <= i < |Run(req, tmpDir, o)| && Run(req, tmpDir, o)[i].CleanUp? ==>
              i == |Run(req, tmpDir, o)| - 1 && Run(req, tmpDir, o)[i] == CleanUp([tmpDir])
  {
    RunShape(req, tmpDir, o);
    var t := Run(req, tmpDir, o);
    if CleansUp(req.project.kind, o) {
      assert t[|t| - 1].CleanUp?;
    }
  }

  /** An unknown project kind: after a successful delete nothing runs, the
      live directory is left emptied, and the temporary directory stays. */
  lemma UnknownKindGap(req: Redeploy, tmpDir: string, o: Outcomes)
    requires o.clone && o.delete
    requires req.project.kind != GitFolder && req.project.kind != DockerCompose
    ensures Run(req, tmpDir, o)
         == [Allocate([tmpDir]),
             Clone(CloneCommand(tmpDir, req.project.branch, req.projectName)),
             FindDelete(FindCommand(req.project.path, req.project.persistent))]
  {
    RunShape(req, tmpDir, o);
  }

  /** Actions happen in pipeline order: allocation, clone, delete, copy, cleanup. */
  lemma RunOrdered(req: Redeploy, tmpDir: string, o: Outcomes)
    ensures Ordered(Run(req, tmpDir, o))
  {
    var plan := Plan(req, tmpDir);
    var last := if CleansUp(req.project.kind, o) then [CleanUp([tmpDir])] else [];
    assert Ordered(plan);
    OrderedRun(Allocate([tmpDir]), plan, StepOutcomes(req.project.kind, o), last);
  }
}
