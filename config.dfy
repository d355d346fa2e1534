/** The deployment agent's configuration: the projects it may redeploy,
    held in the two tables `PROJECTS.github` and `PROJECTS.travis`. */
module Config {

  datatype Option<+T> = None | Some(value: T)

  /** One configured project. `kind` is the configuration's `type` string;
      the fields a kind does not read are simply unused. */
  datatype Project = Project(
    kind: string,
    branch: string,
    path: string,
    persistent: seq<string>,
    repoPath: string,
    composeFiles: seq<string>,
    otherFiles: seq<string>,
    serviceName: string)

  const GitFolder: string := "git-folder"
  const DockerCompose: string := "docker-compose"

  /** A JavaScript object used as a table: its keys in insertion order,
      each with its value. */
  datatype Entry = Entry(name: string, project: Project)
  type Table = seq<Entry>

  /** The parts of `config.json` the agent reads. */
  datatype Settings = Settings(automatedBuildMessage: string, github: Table, travis: Table)

  /** What a trigger hands to `handleProject`: the full repository name,
      the short name (the directory the clone creates) and the project. */
  datatype Redeploy = Redeploy(projectName: string, shortName: string, project: Project)

  /** `Object.keys`: the keys in table order. */
  function Keys(t: Table): (ks: seq<string>)
    ensures |ks| == |t|
    ensures forall i :: 0 <= i < |t| ==> ks[i] == t[i].name
  {
    if t == [] then [] else [t[0].name] + Keys(t[1..])
  }

  predicate Distinct(ks: seq<string>) {
    forall i, j :: 0 <= i < j < |ks| ==> ks[i] != ks[j]
  }

  /** An object never holds a key twice. */
  predicate UniqueKeys(t: Table) {
    Distinct(Keys(t))
  }

  /** `t[k]` after a `k in t` test: the value of the (first) entry named k. */
  function Lookup(t: Table, k: string): (r: Option<Project>)
    ensures r.Some? <==> k in Keys(t)
    ensures r.Some? ==> exists i :: 0 <= i < |t| && t[i] == Entry(k, r.value) &&
                                    forall j :: 0 <= j < i ==> t[j].name != k
  {
    if t == [] then None
    else if t[0].name == k then Some(t[0].project)
    else
      var r := Lookup(t[1..], k);
      assert r.Some? ==> exists i :: 0 <= i < |t| && t[i] == Entry(k, r.value) &&
                                     forall j :: 0 <= j < i ==> t[j].name != k by {
        if r.Some? {
          var i :| 0 <= i < |t[1..]| && t[1..][i] == Entry(k, r.value) &&
                   forall j :: 0 <= j < i ==> t[1..][j].name != k;
          assert t[i + 1] == Entry(k, r.value);
          assert forall j :: 0 <= j < i + 1 ==> t[j].name != k by {
            forall j | 0 <= j < i + 1 ensures t[j].name != k {
              if j > 0 { assert t[j] == t[1..][j - 1]; }
            }
          }
        }
      }
      r
  }

  /** In a table with unique keys, the entry at position i is what `t[name]` gives. */
  lemma {:induction false} LookupAt(t: Table, i: int)
    requires UniqueKeys(t)
    requires 0 <= i < |t|
    ensures Lookup(t, t[i].name) == Some(t[i].project)
  {
    var k := t[i].name;
    var r := Lookup(t, k);
    assert k == Keys(t)[i];
    var m :| 0 <= m < |t| && t[m] == Entry(k, r.value) && forall j :: 0 <= j < m ==> t[j].name != k;
    assert Keys(t)[m] == k == Keys(t)[i];
  }
}
