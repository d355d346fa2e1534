/** The shell command lines the agent builds by string concatenation:
    the `git clone`, the `docker-compose … pull` / `up -d` pair and the
    `find … -delete` that empties a live directory. Each is related to the
    list of words it is made of. */
module Commands {
  import opened Text

  // ---------------------------------------------------------------- git clone

  function CloneCommand(dir: string, branch: string, projectName: string): string {
    "cd " + dir + " && git clone -b " + branch + " --single-branch https://github.com/" + projectName + ".git"
  }

  /** The words of the clone line: change into the temporary directory, then
      clone only `branch` of the GitHub repository `projectName` over https. */
  function CloneArgs(dir: string, branch: string, projectName: string): seq<string> {
    ["cd", dir, "&&", "git", "clone", "-b", branch, "--single-branch",
     "https://github.com/" + projectName + ".git"]
  }

  lemma CloneCommandIsArgs(dir: string, branch: string, projectName: string)
    ensures CloneCommand(dir, branch, projectName) == Join(" ", CloneArgs(dir, branch, projectName))
  {
    var url := "https://github.com/" + projectName + ".git";
    JoinCons(" ", "--single-branch", [url]);
    JoinCons(" ", branch, ["--single-branch", url]);
    JoinCons(" ", "-b", [branch, "--single-branch", url]);
    JoinCons(" ", "clone", ["-b", branch, "--single-branch", url]);
    JoinCons(" ", "git", ["clone", "-b", branch, "--single-branch", url]);
    JoinCons(" ", "&&", ["git", "clone", "-b", branch, "--single-branch", url]);
    JoinCons(" ", dir, ["&&", "git", "clone", "-b", branch, "--single-branch", url]);
    JoinCons(" ", "cd", [dir, "&&", "git", "clone", "-b", branch, "--single-branch", url]);
    // regroup the space-joined words into the literal pieces of the source line
    var t := "--single-branch" + " " + url;
    UrlPiece(projectName);
    SpaceAfter(branch, t);
    var u := branch + " " + t;
    ClonePiece(u);
    var v := "&&" + " " + ("git" + " " + ("clone" + " " + ("-b" + " " + u)));
    SpaceAfter(dir, v);
    CdPiece(dir + " " + v);
    CloneRegroup(dir, branch, projectName);
  }

  lemma SpaceAfter(a: string, b: string)
    ensures a + " " + b == a + (" " + b)
  {
  }

  lemma CdPiece(x: string)
    ensures "cd" + " " + x == "cd " + x
  {
  }

  lemma ClonePiece(x: string)
    ensures " " + ("&&" + " " + ("git" + " " + ("clone" + " " + ("-b" + " " + x)))) == " && git clone -b " + x
  {
  }

  lemma UrlPiece(name: string)
    ensures " " + ("--single-branch" + " " + ("https://github.com/" + name + ".git"))
         == " --single-branch https://github.com/" + (name + ".git")
  {
  }

  lemma CloneRegroup(dir: string, branch: string, name: string)
    ensures CloneCommand(dir, branch, name)
         == "cd " + (dir + (" && git clone -b " + (branch + (" --single-branch https://github.com/" + (name + ".git")))))
  {
  }

  /** For a space-free directory, branch and name the line splits into exactly
      those words. */
  lemma CloneCommandWords(dir: string, branch: string, projectName: string)
    requires IsWord(dir) && IsWord(branch) && NoSpace(projectName)
    ensures Words(CloneCommand(dir, branch, projectName)) == CloneArgs(dir, branch, projectName)
  {
    CloneCommandIsArgs(dir, branch, projectName);
    var url := "https://github.com/" + projectName + ".git";
    assert NoSpace(url);
    WordsJoin(CloneArgs(dir, branch, projectName));
  }

  // ---------------------------------------------------------- docker-compose

  /** `composeFiles.reduce((a, b) => a + " -f " + b, "")`: a left fold. */
  function ComposeFlags(files: seq<string>): string {
    if files == [] then ""
    else ComposeFlags(files[..|files| - 1]) + " -f " + files[|files| - 1]
  }

  /** The words the fold contributes: `-f` and the file, for each file in list order. */
  function FlagArgs(files: seq<string>): (args: seq<string>)
    ensures |args| == 2 * |files|
    ensures forall i :: 0 <= i < |files| ==> args[2 * i] == "-f" && args[2 * i + 1] == files[i]
  {
    if files == [] then []
    else FlagArgs(files[..|files| - 1]) + ["-f", files[|files| - 1]]
  }

  /** `"cd " + path + " && docker-compose"` followed by the fold. */
  function DockerBase(path: string, files: seq<string>): string {
    "cd " + path + " && docker-compose" + ComposeFlags(files)
  }

  function PullCommand(path: string, files: seq<string>): string {
    DockerBase(path, files) + " pull"
  }

  function UpCommand(path: string, files: seq<string>, service: string): string {
    DockerBase(path, files) + " up -d " + service
  }

  function BaseArgs(path: string, files: seq<string>): seq<string> {
    ["cd", path, "&&", "docker-compose"] + FlagArgs(files)
  }

  function PullArgs(path: string, files: seq<string>): seq<string> {
    BaseArgs(path, files) + ["pull"]
  }

  function UpArgs(path: string, files: seq<string>, service: string): seq<string> {
    BaseArgs(path, files) + ["up", "-d", service]
  }

  /** The base command is the words `cd <path> && docker-compose` followed by
      `-f <file>` for every compose file, in list order, joined by single spaces. */
  lemma {:induction false} DockerBaseIsArgs(path: string, files: seq<string>)
    ensures DockerBase(path, files) == Join(" ", BaseArgs(path, files))
  {
    if files == [] {
      DockerBaseNoFiles(path);
    } else {
      var init, f := files[..|files| - 1], files[|files| - 1];
      DockerBaseIsArgs(path, init);
      DockerBaseSnoc(path, files);
      assert BaseArgs(path, files) == BaseArgs(path, init) + ["-f", f];
      JoinAppend(" ", BaseArgs(path, init), ["-f", f]);
      JoinCons(" ", "-f", [f]);
    }
  }

  lemma DockerBaseNoFiles(path: string)
    ensures DockerBase(path, []) == Join(" ", BaseArgs(path, []))
  {
    assert BaseArgs(path, []) == ["cd", path, "&&", "docker-compose"];
    JoinCons(" ", "&&", ["docker-compose"]);
    JoinCons(" ", path, ["&&", "docker-compose"]);
    JoinCons(" ", "cd", [path, "&&", "docker-compose"]);
    var v := "&&" + " " + "docker-compose";
    SpaceAfter(path, v);
    CdPiece(path + " " + v);
    assert " " + v == " && docker-compose";
    assert DockerBase(path, []) == "cd " + (path + " && docker-compose");
  }

  lemma DockerBaseSnoc(path: string, files: seq<string>)
    requires files != []
    ensures DockerBase(path, files)
         == DockerBase(path, files[..|files| - 1]) + " " + ("-f" + " " + files[|files| - 1])
  {
    var init, f := files[..|files| - 1], files[|files| - 1];
    var p := "cd " + path + " && docker-compose";
    assert ComposeFlags(files) == ComposeFlags(init) + " -f " + f;
    Regroup(p, ComposeFlags(init), f);
    FlagPiece(p + ComposeFlags(init), f);
  }

  lemma Regroup(p: string, c: string, f: string)
    ensures p + (c + " -f " + f) == p + c + " -f " + f
  {
  }

  lemma FlagPiece(x: string, f: string)
    ensures x + " -f " + f == x + " " + ("-f" + " " + f)
  {
  }

  /** The pull line is the base words followed by `pull`. */
  lemma PullCommandIsArgs(path: string, files: seq<string>)
    ensures PullCommand(path, files) == Join(" ", PullArgs(path, files))
  {
    DockerBaseIsArgs(path, files);
    JoinAppend(" ", BaseArgs(path, files), ["pull"]);
  }

  /** The up line is the base words followed by `up -d <service>`. */
  lemma UpCommandIsArgs(path: string, files: seq<string>, service: string)
    ensures UpCommand(path, files, service) == Join(" ", UpArgs(path, files, service))
  {
    DockerBaseIsArgs(path, files);
    JoinAppend(" ", BaseArgs(path, files), ["up", "-d", service]);
    JoinCons(" ", "up", ["-d", service]);
    JoinCons(" ", "-d", [service]);
  }

  predicate AllWords(ws: seq<string>) {
    forall i :: 0 <= i < |ws| ==> IsWord(ws[i])
  }

  /** For space-free operands the two lines split into exactly their words:
      `pull` and `up` differ only after the shared base. */
  lemma DockerCommandWords(path: string, files: seq<string>, service: string)
    requires IsWord(path) && IsWord(service) && AllWords(files)
    ensures Words(PullCommand(path, files)) == PullArgs(path, files)
    ensures Words(UpCommand(path, files, service)) == UpArgs(path, files, service)
  {
    var flags := FlagArgs(files);
    assert AllWords(flags) by {
      forall k | 0 <= k < |flags| ensures IsWord(flags[k]) {
        if k % 2 == 0 { assert flags[2 * (k / 2)] == "-f"; }
        else { assert flags[2 * (k / 2) + 1] == files[k / 2]; }
      }
    }
    PullCommandIsArgs(path, files);
    UpCommandIsArgs(path, files, service);
    WordsJoin(PullArgs(path, files));
    WordsJoin(UpArgs(path, files, service));
  }

  // -------------------------------------------------------------------- find

  /** One `persistent` entry mapped to its exclusion clause. */
  function FindClause(name: string): string {
    "-not -name '" + name + "' -type f "
  }

  /** `persistent.map(clause)`. */
  function FindClauses(names: seq<string>): seq<string> {
    seq(|names|, i requires 0 <= i < |names| => FindClause(names[i]))
  }

  /** `"find " + path + " " + persistent.map(clause).join(" ") + " -delete"`. */
  function FindCommand(path: string, persistent: seq<string>): string {
    "find " + path + " " + Join(" ", FindClauses(persistent)) + " -delete"
  }

  function Quoted(name: string): string {
    "'" + name + "'"
  }

  /** The words every persistent name contributes, in list order. */
  function FindArgs(names: seq<string>): (args: seq<string>)
    ensures |args| == 5 * |names|
  {
    if names == [] then []
    else ["-not", "-name", Quoted(names[0]), "-type", "f"] + FindArgs(names[1..])
  }

  /** Position of each name's clause among the words. */
  lemma {:induction false} FindArgsAt(names: seq<string>, i: int)
    requires 0 <= i < |names|
    ensures FindArgs(names)[5 * i..5 * i + 5] == ["-not", "-name", Quoted(names[i]), "-type", "f"]
  {
    if i > 0 {
      FindArgsAt(names[1..], i - 1);
      var rest := FindArgs(names[1..]);
      assert FindArgs(names)[5 * i..5 * i + 5] == rest[5 * (i - 1)..5 * (i - 1) + 5];
    }
  }

  lemma ClauseWords(name: string)
    requires NoSpace(name)
    ensures Words(FindClause(name)) == ["-not", "-name", Quoted(name), "-type", "f"]
  {
    var q := Quoted(name);
    assert NoSpace(q);
    var s4 := "f" + " " + "";
    var s3 := "-type" + " " + s4;
    var s2 := q + " " + s3;
    var s1 := "-name" + " " + s2;
    ClauseRegroup(name);
    WordThen("f", "");
    WordsOfEmpty();
    WordThen("-type", s4);
    WordThen(q, s3);
    WordThen("-name", s2);
    WordThen("-not", s1);
  }

  lemma ClauseRegroup(name: string)
    ensures FindClause(name) == "-not" + " " + ("-name" + " " + (Quoted(name) + " " + ("-type" + " " + ("f" + " " + ""))))
  {
  }

  lemma {:induction false} ClausesWords(names: seq<string>)
    requires forall i :: 0 <= i < |names| ==> NoSpace(names[i])
    ensures Words(Join(" ", FindClauses(names))) == FindArgs(names)
  {
    if names == [] {
      WordsOfEmpty();
    } else if |names| == 1 {
      ClauseWords(names[0]);
      assert FindArgs(names[1..]) == [];
    } else {
      var cs := FindClauses(names);
      assert cs == [cs[0]] + cs[1..];
      assert cs[1..] == FindClauses(names[1..]);
      JoinCons(" ", cs[0], cs[1..]);
      WordsAppend(cs[0], Join(" ", cs[1..]));
      ClauseWords(names[0]);
      ClausesWords(names[1..]);
    }
  }

  /** The delete line splits into `find <path>`, the five words
      `-not -name '<p>' -type f` for each persistent name in list order, and
      `-delete`. (Each clause ends in a space and the clauses are joined with
      one, so the line itself has double spaces; only its words are stated.) */
  lemma FindCommandWords(path: string, persistent: seq<string>)
    requires IsWord(path)
    requires forall i :: 0 <= i < |persistent| ==> NoSpace(persistent[i])
    ensures Words(FindCommand(path, persistent)) == ["find", path] + FindArgs(persistent) + ["-delete"]
  {
    var j := Join(" ", FindClauses(persistent));
    ClausesThenDelete(persistent);
    FindPrefixWords(path, j, FindArgs(persistent));
    FindRegroup(path, j);
  }

  lemma ClausesThenDelete(persistent: seq<string>)
    requires forall i :: 0 <= i < |persistent| ==> NoSpace(persistent[i])
    ensures Words(Join(" ", FindClauses(persistent)) + " " + "-delete") == FindArgs(persistent) + ["-delete"]
  {
    ClausesWords(persistent);
    ThenDelete(Join(" ", FindClauses(persistent)));
  }

  lemma FindPrefixWords(path: string, j: string, args: seq<string>)
    requires IsWord(path)
    requires Words(j + " " + "-delete") == args + ["-delete"]
    ensures Words("find" + " " + (path + " " + (j + " " + "-delete"))) == ["find", path] + args + ["-delete"]
  {
    var t := j + " " + "-delete";
    var u := path + " " + t;
    WordThen(path, t);
    WordThen("find", u);
    assert ["find"] + ([path] + (args + ["-delete"])) == ["find", path] + args + ["-delete"];
  }

  lemma ThenDelete(j: string)
    ensures Words(j + " " + "-delete") == Words(j) + ["-delete"]
  {
    WordsAppend(j, "-delete");
    WordsOfWord("-delete");
  }

  lemma FindRegroup(path: string, j: string)
    ensures "find " + path + " " + j + " -delete" == "find" + " " + (path + " " + (j + " " + "-delete"))
  {
  }
}
