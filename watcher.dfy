/** docker-watcher.js: merge the two project tables, keep the docker-compose
    projects, watch their directories (skipping dot-files), and on a change
    pull and restart the project whose path the changed file lies under. */
module Watcher {
  import opened Config
  import opened Commands
  import opened Steps
  import Triggers

  // ---------------------------------------------------------------- Object.assign

  /** `target[k] = v`: a key already present keeps its position and takes
      the new value; a new key goes last. */
  function Put(t: Table, k: string, v: Project): Table {
    if t == [] then [Entry(k, v)]
    else if t[0].name == k then [Entry(k, v)] + t[1..]
    else [t[0]] + Put(t[1..], k, v)
  }

  lemma KeysCons(e: Entry, t: Table)
    ensures Keys([e] + t) == [e.name] + Keys(t)
  {
  }

  lemma LookupCons(e: Entry, t: Table, k: string)
    ensures Lookup([e] + t, k) == if e.name == k then Some(e.project) else Lookup(t, k)
  {
    assert ([e] + t)[1..] == t;
  }

  /** An assignment adds k at the end exactly when it was missing, and
      leaves the order of the other keys alone. */
  lemma {:induction false} PutKeys(t: Table, k: string, v: Project)
    ensures Keys(Put(t, k, v)) == if k in Keys(t) then Keys(t) else Keys(t) + [k]
  {
    if t != [] {
      KeysCons(t[0], t[1..]);
      assert t == [t[0]] + t[1..];
      if t[0].name == k {
        KeysCons(Entry(k, v), t[1..]);
      } else {
        PutKeys(t[1..], k, v);
        KeysCons(t[0], Put(t[1..], k, v));
      }
    }
  }

  /** An assignment gives k the new value and changes no other key. */
  lemma {:induction false} PutLookup(t: Table, k: string, v: Project, k': string)
    ensures Lookup(Put(t, k, v), k') == if k' == k then Some(v) else Lookup(t, k')
  {
    if t != [] {
      assert t == [t[0]] + t[1..];
      LookupCons(t[0], t[1..], k');
      if t[0].name == k {
        LookupCons(Entry(k, v), t[1..], k');
      } else {
        PutLookup(t[1..], k, v, k');
        LookupCons(t[0], Put(t[1..], k, v), k');
      }
    }
  }

  lemma PutUnique(t: Table, k: string, v: Project)
    requires UniqueKeys(t)
    ensures UniqueKeys(Put(t, k, v))
  {
    PutKeys(t, k, v);
    if k !in Keys(t) {
      var ks := Keys(t) + [k];
      forall i, j | 0 <= i < j < |ks| ensures ks[i] != ks[j] {
        if j == |ks| - 1 {
          assert ks[i] == Keys(t)[i];
        } else {
          assert ks[i] == Keys(t)[i] && ks[j] == Keys(t)[j];
        }
      }
    }
  }

  /** `Object.assign(target, source)`: each entry of source is put in order. */
  function Assign(target: Table, source: Table): Table
    decreases |source|
  {
    if source == [] then target
    else Assign(Put(target, source[0].name, source[0].project), source[1..])
  }

  /** The keys of `ks` that are not in `seen`, in order. */
  function Fresh(ks: seq<string>, seen: seq<string>): seq<string>
  {
    if ks == [] then []
    else (if ks[0] in seen then [] else [ks[0]]) + Fresh(ks[1..], seen)
  }

  lemma {:induction false} FreshSkips(ks: seq<string>, seen: seq<string>, x: string)
    requires x !in ks
    ensures Fresh(ks, seen + [x]) == Fresh(ks, seen)
  {
    if ks != [] {
      FreshSkips(ks[1..], seen, x);
    }
  }

  lemma {:induction false} FreshOfNothing(ks: seq<string>)
    ensures Fresh(ks, []) == ks
  {
    if ks != [] {
      FreshOfNothing(ks[1..]);
      assert ks == [ks[0]] + ks[1..];
    }
  }

  lemma UniqueTail(t: Table)
    requires t != [] && UniqueKeys(t)
    ensures UniqueKeys(t[1..])
    ensures t[0].name !in Keys(t[1..])
  {
    var ks, ks' := Keys(t), Keys(t[1..]);
    forall i, j | 0 <= i < j < |ks'| ensures ks'[i] != ks'[j] {
      assert ks'[i] == ks[i + 1] && ks'[j] == ks[j + 1];
    }
    forall i | 0 <= i < |ks'| ensures ks'[i] != t[0].name {
      assert ks'[i] == ks[i + 1];
    }
  }

  /** After the assignment, a key of the source has the source's value and
      every other key keeps the target's value. */
  lemma {:induction false} AssignLookup(target: Table, source: Table, k: string)
    requires UniqueKeys(source)
    ensures Lookup(Assign(target, source), k) == if k in Keys(source) then Lookup(source, k) else Lookup(target, k)
    decreases |source|
  {
    if source != [] {
      var e := source[0];
      UniqueTail(source);
      PutLookup(target, e.name, e.project, k);
      assert source == [e] + source[1..];
      LookupCons(e, source[1..], k);
      AssignLookup(Put(target, e.name, e.project), source[1..], k);
      assert Keys(source) == [e.name] + Keys(source[1..]);
    }
  }

  lemma FreshCons(x: string, ks: seq<string>, seen: seq<string>)
    ensures Fresh([x] + ks, seen) == (if x in seen then [] else [x]) + Fresh(ks, seen)
  {
    assert ([x] + ks)[1..] == ks;
  }

  /** The target's keys keep their order, and the source's new keys follow in source order. */
  lemma {:induction false} AssignKeys(target: Table, source: Table)
    requires UniqueKeys(source)
    ensures Keys(Assign(target, source)) == Keys(target) + Fresh(Keys(source), Keys(target))
    decreases |source|
  {
    if source != [] {
      var e := source[0];
      var put := Put(target, e.name, e.project);
      var rest := Keys(source[1..]);
      UniqueTail(source);
      PutKeys(target, e.name, e.project);
      AssignKeys(put, source[1..]);
      KeysCons(e, source[1..]);
      assert source == [e] + source[1..];
      FreshCons(e.name, rest, Keys(target));
      if e.name !in Keys(target) {
        FreshSkips(rest, Keys(target), e.name);
      }
      KeysAfterPut(Keys(target), Keys(put), e.name, rest, Keys(Assign(put, source[1..])));
    }
  }

  /** One step of `AssignKeys`, on the key lists alone. */
  lemma KeysAfterPut(before: seq<string>, after: seq<string>, k: string, rest: seq<string>, result: seq<string>)
    requires after == if k in before then before else before + [k]
    requires k !in before ==> Fresh(rest, before + [k]) == Fresh(rest, before)
    requires result == after + Fresh(rest, after)
    ensures result == before + Fresh([k] + rest, before)
  {
    FreshCons(k, rest, before);
    if k in before {
      assert Fresh([k] + rest, before) == Fresh(rest, before);
    } else {
      assert Fresh([k] + rest, before) == [k] + Fresh(rest, before);
      assert before + [k] + Fresh(rest, before) == before + ([k] + Fresh(rest, before));
    }
  }

  lemma {:induction false} AssignUnique(target: Table, source: Table)
    requires UniqueKeys(target)
    ensures UniqueKeys(Assign(target, source))
    decreases |source|
  {
    if source != [] {
      var e := source[0];
      var put := Put(target, e.name, e.project);
      PutUnique(target, e.name, e.project);
      AssignUnique(put, source[1..]);
    }
  }

  /** `Object.assign({}, PROJECTS.github, PROJECTS.travis)`. */
  function ProjectTable(s: Settings): Table {
    Assign(Assign([], s.github), s.travis)
  }

  /** The merged table holds every GitHub key and then the Travis keys that
      are new, each once. */
  lemma ProjectTableKeys(s: Settings)
    requires UniqueKeys(s.github) && UniqueKeys(s.travis)
    ensures Keys(ProjectTable(s)) == Keys(s.github) + Fresh(Keys(s.travis), Keys(s.github))
    ensures UniqueKeys(ProjectTable(s))
  {
    AssignKeys([], s.github);
    FreshOfNothing(Keys(s.github));
    assert Keys(Assign([], s.github)) == Keys(s.github);
    AssignKeys(Assign([], s.github), s.travis);
    AssignUnique([], s.github);
    AssignUnique(Assign([], s.github), s.travis);
  }

  /** A key in both tables takes the Travis project; any other key keeps
      the project of the table that has it. */
  lemma ProjectTableLookup(s: Settings, k: string)
    requires UniqueKeys(s.github) && UniqueKeys(s.travis)
    ensures Lookup(ProjectTable(s), k) == if k in Keys(s.travis) then Lookup(s.travis, k) else Lookup(s.github, k)
  {
    AssignLookup([], s.github, k);
    AssignLookup(Assign([], s.github), s.travis, k);
  }

  // ---------------------------------------------------------------- selection

  /** `projects[name].type === "docker-compose"`. */
  predicate IsDocker(t: Table, name: string) {
    Lookup(t, name).Some? && Lookup(t, name).value.kind == DockerCompose
  }

  /** `names.filter(name => projects[name].type === "docker-compose")`. */
  function DockerNames(t: Table, names: seq<string>): (r: seq<string>)
    ensures forall n :: n in r <==> n in names && IsDocker(t, n)
  {
    if names == [] then []
    else (if IsDocker(t, names[0]) then [names[0]] else []) + DockerNames(t, names[1..])
  }

  /** The filter keeps the order of the names it selects. */
  lemma {:induction false} DockerNamesAppend(t: Table, a: seq<string>, b: seq<string>)
    ensures DockerNames(t, a + b) == DockerNames(t, a) + DockerNames(t, b)
  {
    if a == [] {
      assert a + b == b;
    } else {
      assert (a + b)[1..] == a[1..] + b;
      DockerNamesAppend(t, a[1..], b);
    }
  }

  /** `projectNames`: the docker-compose projects in table order. */
  function ProjectNames(t: Table): seq<string> {
    DockerNames(t, Keys(t))
  }

  function PathOf(t: Table, name: string): string
    requires name in Keys(t)
  {
    Lookup(t, name).value.path
  }

  /** `names.map(name => path.resolve(projects[name].path))`; `resolve` stands
      for `path.resolve`. */
  function Watching(t: Table, names: seq<string>, resolve: string -> string): (r: seq<string>)
    requires forall n :: n in names ==> n in Keys(t)
    ensures |r| == |names|
    ensures forall i :: 0 <= i < |names| ==> r[i] == resolve(PathOf(t, names[i]))
  {
    if names == [] then []
    else [resolve(PathOf(t, names[0]))] + Watching(t, names[1..], resolve)
  }

  /** The watched paths are the resolved paths of the docker-compose projects,
      one per project, in table order, and only those. */
  lemma WatchedPaths(t: Table, resolve: string -> string)
    ensures forall n :: n in ProjectNames(t) <==> n in Keys(t) && Lookup(t, n).value.kind == DockerCompose
    ensures |Watching(t, ProjectNames(t), resolve)| == |ProjectNames(t)|
    ensures forall i :: 0 <= i < |ProjectNames(t)| ==>
              Watching(t, ProjectNames(t), resolve)[i] == resolve(Lookup(t, ProjectNames(t)[i]).value.path)
  {
  }

  // ---------------------------------------------------------------- ignored paths

  predicate IsSeparator(c: char) {
    c == '/' || c == '\\'
  }

  /** The characters a regular-expression `.` does not match. */
  predicate IsLineTerminator(c: char) {
    c == '\n' || c == '\r' || c == '\U{2028}' || c == '\U{2029}'
  }

  /** The pattern `(^|[\/\\])\..` matches at i: a dot that starts the path or
      follows a separator (when i is 0, `atStart` says whether it starts
      the path), then one more character that is not a line terminator. */
  predicate DotAt(p: string, i: int, atStart: bool) {
    0 <= i < |p| - 1 && p[i] == '.' && (if i == 0 then atStart else IsSeparator(p[i - 1]))
    && !IsLineTerminator(p[i + 1])
  }

  /** chokidar's `ignored` pattern: the path names a dot-file or dot-directory somewhere. */
  predicate Ignored(p: string) {
    exists i :: 0 <= i < |p| && DotAt(p, i, true)
  }

  /** The pattern as a left-to-right scan; `boundary` says whether the
      previous character was a separator (or there was none). */
  predicate Scan(p: string, boundary: bool) {
    if |p| < 2 then false
    else (boundary && p[0] == '.' && !IsLineTerminator(p[1])) || Scan(p[1..], IsSeparator(p[0]))
  }

  lemma {:induction false} ScanIff(p: string, boundary: bool)
    ensures Scan(p, boundary) <==> exists i :: 0 <= i < |p| && DotAt(p, i, boundary)
  {
    if |p| >= 2 {
      var b' := IsSeparator(p[0]);
      ScanIff(p[1..], b');
      if boundary && p[0] == '.' && !IsLineTerminator(p[1]) {
        assert DotAt(p, 0, boundary);
      }
      if Scan(p[1..], b') {
        var j :| 0 <= j < |p[1..]| && DotAt(p[1..], j, b');
        assert p[j + 1] == p[1..][j] && p[j + 2] == p[1..][j + 1];
        assert DotAt(p, j + 1, boundary);
      }
      if i :| 0 <= i < |p| && DotAt(p, i, boundary) {
        if i > 0 {
          assert p[1..][i - 1] == p[i] && p[1..][i] == p[i + 1];
          assert DotAt(p[1..], i - 1, b');
        }
      }
    } else {
      assert forall i :: !DotAt(p, i, boundary);
    }
  }

  /** The scan decides exactly the pattern. */
  lemma ScanIgnored(p: string)
    ensures Scan(p, true) <==> Ignored(p)
  {
    ScanIff(p, true);
  }

  /** A dot-file anywhere in the path is ignored; a dot inside a name, a
      lone trailing dot and a dot followed by a newline are not. */
  lemma IgnoredExamples()
    ensures Ignored(".git")
    ensures Ignored("a/.env")
    ensures Ignored("a\\.b")
    ensures !Ignored("a.yml")
    ensures !Ignored("a/.")
    ensures !Ignored(".\n")
  {
    assert DotAt(".git", 0, true);
    assert DotAt("a/.env", 2, true);
    assert DotAt("a\\.b", 2, true);
    ScanIgnored("a.yml");
    ScanIgnored("a/.");
    ScanIgnored(".\n");
  }

  // ---------------------------------------------------------------- a change

  /** `changed.startsWith(projects[name].path)`. */
  predicate Under(t: Table, name: string, changed: string) {
    name in Keys(t) && Lookup(t, name).value.path <= changed
  }

  /** `names.filter(name => changed.startsWith(projects[name].path))`. */
  function Covering(t: Table, names: seq<string>, changed: string): (r: seq<string>)
    ensures forall n :: n in r ==> n in names && Under(t, n, changed)
    ensures forall n :: n in names && Under(t, n, changed) ==> n in r
  {
    if names == [] then []
    else
      assert forall n :: n in names ==> n == names[0] || n in names[1..] by {
        assert names == [names[0]] + names[1..];
      }
      (if Under(t, names[0], changed) then [names[0]] else []) + Covering(t, names[1..], changed)
  }

  /** The filter is empty exactly when no name is under the change, and
      otherwise starts with the first name that is. */
  lemma {:induction false} CoveringFirst(t: Table, names: seq<string>, changed: string)
    ensures Covering(t, names, changed) == [] <==> forall i :: 0 <= i < |names| ==> !Under(t, names[i], changed)
    ensures Covering(t, names, changed) != [] ==>
              exists i :: 0 <= i < |names| && names[i] == Covering(t, names, changed)[0] && Under(t, names[i], changed)
                          && forall j :: 0 <= j < i ==> !Under(t, names[j], changed)
  {
    if names != [] {
      var rest := Covering(t, names[1..], changed);
      CoveringFirst(t, names[1..], changed);
      if !Under(t, names[0], changed) {
        assert Covering(t, names, changed) == rest;
        if rest != [] {
          var i :| 0 <= i < |names[1..]| && names[1..][i] == rest[0] && Under(t, names[1..][i], changed)
                   && forall j :: 0 <= j < i ==> !Under(t, names[1..][j], changed);
          assert names[i + 1] == rest[0];
          forall j | 0 <= j < i + 1 ensures !Under(t, names[j], changed) {
            if j > 0 { assert names[j] == names[1..][j - 1]; }
          }
        } else {
          forall i | 0 <= i < |names| ensures !Under(t, names[i], changed) {
            if i > 0 { assert names[i] == names[1..][i - 1]; }
          }
        }
      } else {
        assert Covering(t, names, changed)[0] == names[0];
      }
    }
  }

  /** `filter(…)[0]`: the first selected project whose path is a prefix of the
      changed path, or nothing (`undefined`). */
  function FindProject(t: Table, names: seq<string>, changed: string): (r: Option<string>)
    ensures r.None? <==> forall i :: 0 <= i < |names| ==> !Under(t, names[i], changed)
    ensures r.Some? ==> exists i :: 0 <= i < |names| && names[i] == r.value && Under(t, names[i], changed)
                                    && forall j :: 0 <= j < i ==> !Under(t, names[j], changed)
  {
    CoveringFirst(t, names, changed);
    var c := Covering(t, names, changed);
    if c == [] then None else Some(c[0])
  }

  /** The actions of a change to project p: pull, then up if the pull succeeded. */
  function WatcherActions(p: Project, pullOk: bool): (r: seq<Action>)
    ensures 1 <= |r| <= 2 && r[0] == Pull(PullCommand(p.path, p.composeFiles))
    ensures |r| == 2 <==> pullOk
    ensures |r| == 2 ==> r[1] == Up(UpCommand(p.path, p.composeFiles, p.serviceName))
  {
    [Pull(PullCommand(p.path, p.composeFiles))]
    + (if pullOk then [Up(UpCommand(p.path, p.composeFiles, p.serviceName))] else [])
  }

  /** `onFileChange` on a project table: the actions for the project the
      changed path lies under. With no such project, `projects[undefined].path`
      throws and nothing runs (None). */
  function Respond(t: Table, changed: string, pullOk: bool): Option<seq<Action>> {
    match FindProject(t, ProjectNames(t), changed)
    case None => None
    case Some(n) => Some(WatcherActions(Lookup(t, n).value, pullOk))
  }

  /** `onFileChange` after the debounce, on the merged table. */
  function OnFileChange(s: Settings, changed: string, pullOk: bool): Option<seq<Action>> {
    Respond(ProjectTable(s), changed, pullOk)
  }

  /** A change no watched project's path is a prefix of runs nothing. */
  lemma ChangeOutside(t: Table, changed: string, pullOk: bool)
    ensures Respond(t, changed, pullOk).None?
            <==> forall i :: 0 <= i < |ProjectNames(t)| ==> !Under(t, ProjectNames(t)[i], changed)
  {
    CoveringFirst(t, ProjectNames(t), changed);
  }

  /** The project a change redeploys is the first docker-compose project, in
      table order, whose path is a prefix of the changed path; the pull and
      the up name that project's directory, compose files and service. */
  lemma ChangeTargetsFirst(t: Table, changed: string, pullOk: bool)
    ensures Respond(t, changed, pullOk).Some? ==>
              exists i :: 0 <= i < |ProjectNames(t)|
                          && Under(t, ProjectNames(t)[i], changed)
                          && Lookup(t, ProjectNames(t)[i]).value.kind == DockerCompose
                          && (forall j :: 0 <= j < i ==> !Under(t, ProjectNames(t)[j], changed))
                          && Respond(t, changed, pullOk).value == WatcherActions(Lookup(t, ProjectNames(t)[i]).value, pullOk)
  {
    var names := ProjectNames(t);
    CoveringFirst(t, names, changed);
    if Respond(t, changed, pullOk).Some? {
      var i :| 0 <= i < |names| && names[i] == Covering(t, names, changed)[0] && Under(t, names[i], changed)
               && forall j :: 0 <= j < i ==> !Under(t, names[j], changed);
      assert names[i] in names;
    }
  }

  // ---------------------------------------------------------------- with the triggers

  /** A docker-compose project a Travis build redeploys is also watched, and
      the watcher acts on that same project. */
  lemma TravisProjectWatched(s: Settings, e: Triggers.TravisEvent)
    requires UniqueKeys(s.github) && UniqueKeys(s.travis)
    requires Triggers.OnTravisSuccess(s, e).Some?
    requires Triggers.OnTravisSuccess(s, e).value.project.kind == DockerCompose
    ensures Triggers.OnTravisSuccess(s, e).value.projectName in ProjectNames(ProjectTable(s))
    ensures Lookup(ProjectTable(s), Triggers.OnTravisSuccess(s, e).value.projectName)
            == Some(Triggers.OnTravisSuccess(s, e).value.project)
  {
    var name := Triggers.OnTravisSuccess(s, e).value.projectName;
    ProjectTableLookup(s, name);
  }

  /** The repository a push redeploys is in the merged table, with the
      push's project unless the Travis table names the same repository, whose
      entry then wins; a docker-compose project a push redeploys and Travis
      does not override is watched. */
  lemma PushProjectWatched(s: Settings, e: Triggers.PushEvent)
    requires UniqueKeys(s.github) && UniqueKeys(s.travis)
    requires Triggers.OnPush(s, e).Some?
    ensures e.fullName in Keys(ProjectTable(s))
    ensures Lookup(ProjectTable(s), e.fullName)
            == if e.fullName in Keys(s.travis) then Lookup(s.travis, e.fullName)
               else Some(Triggers.OnPush(s, e).value.project)
    ensures e.fullName !in Keys(s.travis) && Triggers.OnPush(s, e).value.project.kind == DockerCompose ==>
              e.fullName in ProjectNames(ProjectTable(s))
  {
    ProjectTableLookup(s, e.fullName);
  }
}
