/** The side effects a redeploy performs, as abstract actions, and the
    callback-chain discipline both `handleProject` variants follow: run the
    steps of a plan in order and stop after the first step that fails. */
module Steps {

  /** An abstract `path.resolve(a, b, …)`: the segments, in order. */
  type Path = seq<string>

  /** One `ncp(from, to)` copy. */
  datatype Copy = Copy(from: Path, to: Path)

  datatype Action =
    | Allocate(dirs: seq<string>)      // tmp.dirSync() for each temporary directory
    | Clone(command: string)           // exec of the git clone line
    | Snapshot(copies: seq<Copy>)      // async.each batch saving the persistent files
    | Wipe(target: Path)               // rimraf of the live directory
    | FindDelete(command: string)      // exec of the find … -delete line
    | Restore(copies: seq<Copy>)       // async.each batch copying the persistent files back
    | MakeParentDir(of: Path)          // mkdirp(path.dirname(of)); its error is ignored
    | CopyTree(copy: Copy)             // one ncp of the repository sub-folder
    | CopyFiles(copies: seq<Copy>)     // async.each batch copying compose and other files
    | Pull(command: string)            // exec of docker-compose … pull
    | Up(command: string)              // exec of docker-compose … up -d <service>
    | CleanUp(dirs: seq<string>)       // cleanUp: rimraf of each temporary directory

  /** Where an action sits in the pipeline; an ordered trace climbs strictly. */
  function Stage(a: Action): nat {
    match a
    case Allocate(_) => 0
    case Clone(_) => 1
    case Snapshot(_) => 2
    case Wipe(_) => 3
    case FindDelete(_) => 3
    case Restore(_) => 4
    case MakeParentDir(_) => 5
    case CopyTree(_) => 6
    case CopyFiles(_) => 6
    case Pull(_) => 7
    case Up(_) => 8
    case CleanUp(_) => 9
  }

  /** Every action comes after all actions of earlier stages, and no stage repeats. */
  predicate Ordered(t: seq<Action>) {
    forall i, j :: 0 <= i < j < |t| ==> Stage(t[i]) < Stage(t[j])
  }

  /** How many steps succeed before the first failure. */
  function Lead(ok: seq<bool>): (n: nat)
    ensures n <= |ok|
    ensures forall i :: 0 <= i < n ==> ok[i]
    ensures n < |ok| ==> !ok[n]
  {
    if ok == [] || !ok[0] then 0 else 1 + Lead(ok[1..])
  }

  /** The number of steps a callback chain performs: all of them if none
      fails, else up to and including the first failing one. */
  function Reach(ok: seq<bool>): nat {
    if Lead(ok) == |ok| then |ok| else Lead(ok) + 1
  }

  /** The steps of `plan` the chain performs, given each step's outcome. */
  function Performed(plan: seq<Action>, ok: seq<bool>): seq<Action>
    requires |ok| == |plan|
  {
    plan[..Reach(ok)]
  }

  /** A step of the chain runs exactly when every earlier step succeeded. */
  lemma StepRunsIff(plan: seq<Action>, ok: seq<bool>, i: int)
    requires |ok| == |plan|
    requires 0 <= i < |plan|
    ensures i < |Performed(plan, ok)| <==> forall j :: 0 <= j < i ==> ok[j]
  {
    if !(i < Reach(ok)) {
      assert !ok[Lead(ok)];
    }
  }

  /** The chain stops early exactly when some step fails, and then its last
      performed step is the first one that failed. */
  lemma ChainStops(plan: seq<Action>, ok: seq<bool>)
    requires |ok| == |plan|
    ensures (exists j :: 0 <= j < |ok| && !ok[j]) <==> Lead(ok) < |ok|
    ensures Lead(ok) < |ok| ==> |Performed(plan, ok)| == Lead(ok) + 1 && !ok[Lead(ok)]
  {
  }

  /** The outcome of a chain whose steps succeed up to position n exactly. */
  lemma LeadIs(ok: seq<bool>, n: nat)
    requires n <= |ok|
    requires forall i :: 0 <= i < n ==> ok[i]
    requires n < |ok| ==> !ok[n]
    ensures Lead(ok) == n
  {
  }

  /** `Copy(src/n, dst/n)` for each name n, in order: one batch of `ncp` calls. */
  function Copies(src: Path, dst: Path, names: seq<string>): seq<Copy> {
    seq(|names|, i requires 0 <= i < |names| => Copy(src + [names[i]], dst + [names[i]]))
  }

  function Reversed(c: Copy): Copy {
    Copy(c.to, c.from)
  }

  /** Copying the same names back between the same two roots undoes each
      copy: entry i goes back from exactly where entry i was saved to. */
  lemma CopiesBack(src: Path, dst: Path, names: seq<string>)
    ensures |Copies(dst, src, names)| == |Copies(src, dst, names)|
    ensures forall i :: 0 <= i < |names| ==> Copies(dst, src, names)[i] == Reversed(Copies(src, dst, names)[i])
  {
  }

  /** A trace made of a first action, a prefix of an ordered plan and an
      optional last action is ordered when the stages fit around the plan. */
  lemma OrderedRun(first: Action, plan: seq<Action>, ok: seq<bool>, last: seq<Action>)
    requires |ok| == |plan|
    requires Ordered(plan)
    requires forall i :: 0 <= i < |plan| ==> Stage(first) < Stage(plan[i])
    requires |last| <= 1
    requires last != [] ==> Stage(first) < Stage(last[0])
    requires last != [] ==> forall i :: 0 <= i < |plan| ==> Stage(plan[i]) < Stage(last[0])
    ensures Ordered([first] + Performed(plan, ok) + last)
  {
    var t := [first] + Performed(plan, ok) + last;
    var p := Performed(plan, ok);
    forall i, j | 0 <= i < j < |t| ensures Stage(t[i]) < Stage(t[j]) {
      if i > 0 && j <= |p| {
        assert t[i] == plan[i - 1] && t[j] == plan[j - 1];
      } else if i > 0 && i <= |p| {
        assert t[i] == plan[i - 1];
      }
    }
  }
}
