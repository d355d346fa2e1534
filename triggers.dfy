/** The webhook rules that decide whether an event redeploys a project:
    a GitHub push made by the automated build, or a successful Travis build. */
module Triggers {
  import opened Config

  datatype Commit = Commit(message: string)

  /** The fields of a GitHub push payload the rule reads. */
  datatype PushEvent = PushEvent(fullName: string, name: string, commits: seq<Commit>)

  /** The fields of a Travis build-success payload the rule reads. */
  datatype TravisEvent = TravisEvent(ownerName: string, name: string)

  /** A push redeploys only when it carries exactly one commit, that commit's
      message is the configured automated-build message, and the repository's
      full name is a key of `PROJECTS.github`; the redeploy then names that
      entry's project. */
  function OnPush(s: Settings, e: PushEvent): (r: Option<Redeploy>)
    ensures r.Some? <==> |e.commits| == 1 && e.commits[0].message == s.automatedBuildMessage
                         && e.fullName in Keys(s.github)
    ensures r.Some? ==> r.value.projectName == e.fullName && r.value.shortName == e.name
                        && Lookup(s.github, e.fullName) == Some(r.value.project)
  {
    if |e.commits| == 1 then
      if e.commits[0].message == s.automatedBuildMessage then
        match Lookup(s.github, e.fullName)
        case Some(p) => Some(Redeploy(e.fullName, e.name, p))
        case None => None
      else None
    else None
  }

  /** The key a Travis build is looked up under. */
  function TravisName(ownerName: string, name: string): string {
    ownerName + "/" + name
  }

  /** A successful Travis build redeploys exactly when `owner/name` is a key
      of `PROJECTS.travis`; the short name is the bare repository name. */
  function OnTravisSuccess(s: Settings, e: TravisEvent): (r: Option<Redeploy>)
    ensures r.Some? <==> e.ownerName + "/" + e.name in Keys(s.travis)
    ensures r.Some? ==> r.value.projectName == e.ownerName + "/" + e.name && r.value.shortName == e.name
                        && Lookup(s.travis, e.ownerName + "/" + e.name) == Some(r.value.project)
  {
    var fullName := TravisName(e.ownerName, e.name);
    match Lookup(s.travis, fullName)
    case Some(p) => Some(Redeploy(fullName, e.name, p))
    case None => None
  }

  /** Owner names never contain '/', so two different repositories never
      share a Travis key: the key determines both of its parts. */
  lemma TravisNameInjective(o1: string, n1: string, o2: string, n2: string)
    requires '/' !in o1 && '/' !in o2
    requires TravisName(o1, n1) == TravisName(o2, n2)
    ensures o1 == o2 && n1 == n2
  {
    var k1, k2 := TravisName(o1, n1), TravisName(o2, n2);
    FirstSlash(o1, n1);
    FirstSlash(o2, n2);
    assert |o1| == |o2|;
    assert o1 == k1[..|o1|] == k2[..|o2|] == o2;
    assert n1 == k1[|o1| + 1..] == k2[|o2| + 1..] == n2;
  }

  /** The first '/' of a Travis key ends the owner name. */
  lemma FirstSlash(owner: string, name: string)
    requires '/' !in owner
    ensures TravisName(owner, name)[|owner|] == '/'
    ensures forall i :: 0 <= i < |owner| ==> TravisName(owner, name)[i] != '/'
  {
    var k := TravisName(owner, name);
    forall i | 0 <= i < |owner| ensures k[i] != '/' {
      assert k[i] == owner[i];
    }
  }

  /** Extra commits defeat the rule even when every one of them carries the
      automated-build message: a push of two automated builds redeploys nothing. */
  lemma TwoAutomatedCommitsIgnored(s: Settings, fullName: string, name: string)
    ensures OnPush(s, PushEvent(fullName, name, [Commit(s.automatedBuildMessage), Commit(s.automatedBuildMessage)])) == None
  {
  }
}
