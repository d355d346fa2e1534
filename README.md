# node-deployment, modelled in Dafny

node-deployment is a small deployment agent. A webhook server (`index.js`, or
`hooks.js` on a host where docker runs elsewhere) redeploys a configured
project. It does so after a GitHub push made by the automated build, or after a
successful Travis build. A file watcher (`docker-watcher.js`) pulls and restarts
a docker-compose project whenever a file in its directory changes.

This project models three pieces of logic inside the I/O code:

- **Triggers** (`triggers.dfy`, on the tables of `config.dfy`). These are the
  rules that decide whether a push or a Travis success redeploys, and which
  project it redeploys. `hooks.js` lines 1-131 are the same text as `index.js`
  lines 1-131, so the rules are modelled once and cited from `index.js`.
- **Command lines** (`commands.dfy`, on the join/split of `text.dfy`). These are
  the `git clone` line, the `docker-compose … pull` and `… up -d <service>`
  lines, and the `find … -delete` line. The clone and docker lines are proved
  equal to the space-join of an explicit word list, and to split back into
  exactly those words when the parts contain no spaces. The find line has
  double spaces (each clause ends in a space and the clauses are joined with
  one), so only its words are stated: it splits into `find <path>`, the
  clause words of each persistent name in order, then `-delete`.
- **The redeploy step sequence.** Both variants of `handleProject` are modelled
  as a method that builds a trace of actions from abstract step outcomes:
  - `deploy.dfy` is the `index.js` variant: clone, snapshot, wipe, restore, then
    activate by kind.
  - `hooks.dfy` is the `hooks.js` variant: clone, find-delete, copy.

  `steps.dfy` holds the chain discipline both variants share. A step runs only
  when every earlier step succeeded. The chain stops after the first failure.
  Each method is proved equal to a specification function `Run`, and the
  ordering and cleanup properties are proved about `Run`. Two gaps in the source
  are reproduced, not repaired:
  - in `index.js`, a failed snapshot batch never calls `cleanUp`;
  - in both files, a project kind other than `git-folder` and `docker-compose`
    stops without `cleanUp`.
- **The watcher** (`watcher.dfy`). It models:
  - `Object.assign` of the two tables;
  - the docker-compose filter;
  - the watched paths;
  - chokidar's dot-file pattern `(^|[\/\\])\..`, given as a declarative
    predicate and as a scan, which are proved equivalent;
  - the first-prefix project lookup;
  - the pull-then-up chain.

A JavaScript object is a `Table`: a list of entries in insertion order. Order
matters here, because `Object.keys`, `Object.assign` and `filter(…)[0]` all
depend on it. A parsed `config.json` never repeats a key, so the lemmas about
merged tables assume `UniqueKeys` of the two input tables.

## Model

| member | source | states |
|---|---|---|
| Config.Lookup | index.js:100-104 | `t[k]` after `k in t`: defined exactly when k is a key, and then the value of the first entry named k |
| Config.LookupAt | index.js:104 | in a table without repeated keys, looking up an entry's own name gives that entry's project |
| Triggers.OnPush | index.js:95-106 | a push redeploys iff it has exactly one commit, the commit's message is the automated-build message, and the full name is a GitHub key; the redeploy carries full name, short name and that entry's project |
| Triggers.OnTravisSuccess | index.js:112-128 | a Travis success redeploys iff `owner_name + "/" + name` is a Travis key; the redeploy carries that name, the bare name and the entry's project |
| Triggers.TravisNameInjective | index.js:113 | for owner names without '/', the Travis key determines both owner and repository name |
| Triggers.TwoAutomatedCommitsIgnored | index.js:95 | a push of two commits redeploys nothing, even if both carry the automated-build message |
| Commands.CloneCommand | index.js:147-154 | definition: the clone line built by string concatenation (its words are stated by `CloneCommandIsArgs` and `CloneCommandWords`) |
| Commands.ComposeFlags | index.js:286-288 | definition: the `reduce` that appends ` -f <file>` per compose file (stated by `FlagArgs`) |
| Commands.DockerBase | docker-watcher.js:40-46 | definition: `cd <path> && docker-compose` plus the compose flags (stated by `DockerBaseIsArgs`) |
| Commands.PullCommand | index.js:283-290 | definition: the base line plus ` pull` (stated by `PullCommandIsArgs`) |
| Commands.UpCommand | index.js:297-305 | definition: the base line plus ` up -d <service>` (stated by `UpCommandIsArgs`) |
| Commands.CloneCommandIsArgs | index.js:147-154 | the clone line is the space-join of `cd <tmp> && git clone -b <branch> --single-branch https://github.com/<name>.git` |
| Commands.CloneCommandWords | hooks.js:146-153 | for space-free parts, the clone line splits back into exactly those nine words |
| Commands.FlagArgs | index.js:286-288 | the compose-file fold contributes `-f` and the file for each compose file, in list order |
| Commands.DockerBaseIsArgs | docker-watcher.js:40-46 | the base line is the space-join of `cd <path> && docker-compose` followed by `-f <f>` for each compose file in order |
| Commands.PullCommandIsArgs | index.js:283-290 | the pull line is the base words followed by `pull` |
| Commands.UpCommandIsArgs | index.js:297-305 | the up line is the base words followed by `up -d <service>` |
| Commands.DockerCommandWords | index.js:283-305 | for space-free parts, the pull and up lines split back into exactly their word lists |
| Commands.FindClauses | hooks.js:169-172 | definition: `persistent.map(...)`, one clause string per persistent name, in order (its words are stated by `ClausesWords`) |
| Commands.FindCommand | hooks.js:165-174 | definition: `find <path> `, the joined clauses, then ` -delete` (stated by `FindCommandWords`) |
| Commands.FindArgsAt | hooks.js:165-174 | persistent name i contributes the words `-not -name '<p>' -type f` at positions 5i to 5i+4 |
| Commands.ClauseWords | hooks.js:171 | one clause splits into the five words `-not`, `-name`, `'<p>'`, `-type`, `f` |
| Commands.ClausesWords | hooks.js:169-173 | the joined clauses split into the clause words of every name, in order |
| Commands.FindCommandWords | hooks.js:165-174 | the delete line splits into `find <path>`, the clause words of each persistent name in order, then `-delete` |
| Steps.Lead | index.js:155-329 | the number of steps that succeed before the first failure: all earlier ones succeeded, the next one failed |
| Steps.StepRunsIff | index.js:155-329 | a step of the chain runs iff every earlier step succeeded |
| Steps.ChainStops | index.js:155-329 | the chain stops early iff some step fails, and then its last step is the first failing one |
| Steps.Copies | index.js:166-187 | definition: the copy list an `async.each` batch issues, one per name in list order (stated by `CopiesBack` and `Deploy.RestoreMirrorsSnapshot`) |
| Steps.CopiesBack | index.js:203-219 | copying the same names between the same roots the other way undoes each copy |
| Steps.OrderedRun | index.js:132-329 | an allocation, a prefix of an ordered plan and an optional final action form an ordered trace |
| Deploy.Plan | index.js:132-329 | definition: the steps of a redeploy on which nothing fails, in callback order, with the activation chosen by kind (ordered by `RunOrdered`) |
| Deploy.StepOutcomes | index.js:155-329 | definition: the outcome each plan step reports; the steps whose both branches clean up report success (read by `DepthIsReach`) |
| Deploy.CleansUp | index.js:155-329 | definition: the paths on which the code calls `cleanUp` (stated by `CleanUpLast`) |
| Deploy.Run | index.js:132-329 | definition: allocation, the plan up to its first failure, optional cleanup (built by `HandleProject`, shaped by `RunShape`) |
| Deploy.HandleProject | index.js:132-329 | the callback chain builds exactly `Run`: allocate both temporary directories, run the plan up to its first failure, and clean up where the code does |
| Deploy.RunIsPrefix | index.js:155-329 | the run is the allocation, the plan steps the chain reaches, and the optional cleanup |
| Deploy.DepthIsReach | index.js:155-329 | how many plan steps run, read off the outcomes in callback order |
| Deploy.RunShape | index.js:155-329 | the run is the allocation, the first `Depth` plan steps, and the cleanup when `CleansUp` holds |
| Deploy.CloneFailure | index.js:155-160 | a failed clone runs nothing else and cleans up both temporary directories |
| Deploy.SnapshotFailureGap | index.js:188-192 | a failed snapshot batch stops before the wipe and never calls `cleanUp` |
| Deploy.WipeAfterSnapshot | index.js:188-195 | the live directory is wiped iff the clone and the whole snapshot batch succeeded, and only right after the snapshot |
| Deploy.UpNeedsPull | index.js:266-297 | `up` runs iff the project is docker-compose and every earlier step succeeded; it comes right after the pull, which comes right after the file copies |
| Deploy.CleanUpLast | index.js:155-316 | `cleanUp` runs iff `CleansUp` holds (every failure and both successful endings, except a failed snapshot and an unknown kind); it is the last action and names both temporary directories |
| Deploy.UnknownKindGap | index.js:228-320 | for an unknown kind, after the restore nothing runs and there is no cleanup |
| Deploy.RunOrdered | index.js:132-329 | the actions are strictly in pipeline order: allocate, clone, snapshot, wipe, restore, mkdir, copy, pull, up, cleanup |
| Deploy.RestoreMirrorsSnapshot | index.js:181-217 | each persistent name is saved to `<persistentDir>/<shortName>/<name>` and restored from exactly there to `<path>/<name>` |
| Hooks.Plan | hooks.js:132-232 | definition: clone, find-delete, then the copy chosen by kind (ordered by `RunOrdered`) |
| Hooks.StepOutcomes | hooks.js:154-228 | definition: the outcome each plan step reports; the last copy reports success because both its branches clean up (read by `DepthIsReach`) |
| Hooks.CleansUp | hooks.js:154-228 | definition: the paths on which the code calls `cleanUp` (stated by `SingleTempDir`) |
| Hooks.Run | hooks.js:132-232 | definition: allocation, the plan up to its first failure, optional cleanup (built by `HandleProject`, shaped by `RunShape`) |
| Hooks.HandleProject | hooks.js:132-232 | the callback chain builds exactly `Run`: one temporary directory, clone, delete, copy by kind, cleanup where the code calls it |
| Hooks.DepthIsReach | hooks.js:154-228 | how many plan steps run, read off the outcomes in callback order |
| Hooks.RunShape | hooks.js:154-228 | the run is the allocation, the first `Depth` plan steps, and the cleanup when `CleansUp` holds |
| Hooks.DeleteAfterClone | hooks.js:154-174 | the find-delete runs iff the clone succeeded, and right after it |
| Hooks.CopyAfterDelete | hooks.js:175-226 | files are copied iff the clone and the delete succeeded and the kind is known, right after the delete |
| Hooks.DockerCopiesOnly | hooks.js:207-226 | a docker-compose project gets its compose files and then its other files copied, and there is never a pull or an up |
| Hooks.SingleTempDir | hooks.js:133-224 | only one temporary directory is allocated; it is cleaned up on clone, delete or copy failure and on copy success, and not for an unknown kind; the cleanup is the last action |
| Hooks.UnknownKindGap | hooks.js:182-228 | for an unknown kind, the run ends after the delete with no cleanup |
| Hooks.RunOrdered | hooks.js:132-232 | the actions are strictly in pipeline order: allocate, clone, delete, copy, cleanup |
| Watcher.Put | docker-watcher.js:9-13 | definition: one property assignment on an ordered table (stated by `PutKeys`, `PutLookup`, `PutUnique`) |
| Watcher.Assign | docker-watcher.js:9-13 | definition: `Object.assign` as one assignment per source entry, in source order (stated by `AssignKeys`, `AssignLookup`, `AssignUnique`) |
| Watcher.ProjectTable | docker-watcher.js:9-13 | definition: `{}` assigned the GitHub table, then the Travis table (stated by `ProjectTableKeys`, `ProjectTableLookup`) |
| Watcher.PutKeys | docker-watcher.js:9-13 | an assignment keeps the key order and appends k exactly when it was missing |
| Watcher.PutLookup | docker-watcher.js:9-13 | an assignment gives k the new value and changes no other key |
| Watcher.PutUnique | docker-watcher.js:9-13 | an assignment never repeats a key |
| Watcher.AssignLookup | docker-watcher.js:9-13 | after `Object.assign`, a source key has the source's value and every other key keeps the target's value |
| Watcher.AssignKeys | docker-watcher.js:9-13 | after `Object.assign`, the keys are the target's keys followed by the source's new keys, in source order |
| Watcher.AssignUnique | docker-watcher.js:9-13 | `Object.assign` never repeats a key |
| Watcher.ProjectTableKeys | docker-watcher.js:9-13 | the merged table holds the GitHub keys, then the Travis keys that are new, each once |
| Watcher.ProjectTableLookup | docker-watcher.js:9-13 | a key in both tables takes the Travis project; any other key takes the project of the table that has it |
| Watcher.ProjectNames | docker-watcher.js:15-17 | definition: `Object.keys(projects).filter(type === "docker-compose")` (stated by `DockerNames`, `WatchedPaths`) |
| Watcher.DockerNames | docker-watcher.js:15-17 | a name is selected iff it is among the names and its project's type is `docker-compose` |
| Watcher.DockerNamesAppend | docker-watcher.js:15-17 | the filter keeps the order of the names it selects |
| Watcher.Watching | docker-watcher.js:19-21 | one watched path per selected name: the resolved path of that name's project, in the same order |
| Watcher.WatchedPaths | docker-watcher.js:15-21 | the watched paths are exactly the resolved paths of the docker-compose projects, in table order |
| Watcher.DotAt | docker-watcher.js:28 | definition: a match of `(^\|[\/\\])\..` whose dot is at index i (used by `ScanIff`) |
| Watcher.Ignored | docker-watcher.js:28 | definition: the ignore pattern matches somewhere in the path (decided by the scan, `ScanIgnored`) |
| Watcher.ScanIff | docker-watcher.js:28 | the left-to-right scan finds a match iff some dot starts the path or follows `/` or `\` and is followed by a non-line-terminator |
| Watcher.ScanIgnored | docker-watcher.js:28 | the scan decides exactly the ignore pattern |
| Watcher.IgnoredExamples | docker-watcher.js:28 | `.git`, `a/.env` and `a\.b` are ignored; `a.yml`, a trailing `a/.` and a dot before a newline are not |
| Watcher.Under | docker-watcher.js:34-36 | definition: `changed.startsWith(projects[name].path)` for a name in the table |
| Watcher.Covering | docker-watcher.js:32-38 | the filter keeps a given name iff its project path is a prefix of the changed path |
| Watcher.CoveringFirst | docker-watcher.js:32-38 | the filter is empty iff no name is under the change, and otherwise starts with the first name that is |
| Watcher.FindProject | docker-watcher.js:32-38 | nothing is found iff no selected name lies under the changed path; otherwise the result is the first selected name that does |
| Watcher.Respond | docker-watcher.js:32-64 | definition: the pull/up actions of the found project, or None where the source throws (stated by `ChangeOutside`, `ChangeTargetsFirst`) |
| Watcher.OnFileChange | docker-watcher.js:32-64 | definition: `Respond` on the merged table |
| Watcher.WatcherActions | docker-watcher.js:48-64 | the pull comes first; the up for the same directory, compose files and service follows iff the pull succeeded |
| Watcher.ChangeOutside | docker-watcher.js:32-46 | a change under no watched project's path runs nothing |
| Watcher.ChangeTargetsFirst | docker-watcher.js:32-64 | a change redeploys the first docker-compose project in table order whose path is a prefix of the changed path, with that project's pull and up |
| Watcher.TravisProjectWatched | docker-watcher.js:9-17 | a docker-compose project that a Travis build redeploys is also selected by the watcher, with the same project |
| Watcher.PushProjectWatched | docker-watcher.js:9-13 | the repository a push redeploys is in the merged table; it has the push's project unless the Travis table also names it; a docker-compose project pushed and not named by Travis is watched |

## Left out

- The HTTP server, the Travis public-key fetch and the webhook signature checks (index.js:19-81, hooks.js:19-81) are network I/O and foreign libraries. So is `setupHandlers`' assignment of the module-level handlers.
- What `exec`, `ncp`, `rimraf`, `mkdirp` and `tmp.dirSync` do to disk is not modelled. Each call is an abstract action whose success or failure is an input. The shell's parsing and quoting of the generated lines are not modelled either: the word lists are what a split at spaces gives.
- Concurrency inside `async.each`: each batch (snapshot, restore, file copies) has one outcome. The copies are listed in the order the batch issues them, and no completion order is claimed.
- The per-file `mkdirp` of each snapshot and restore item is folded into that batch's action. The error branches in the `mkdirp` callbacks (index.js:175-179, 210-212, 236-238) test an outer `err` that is already falsy, so they never run; `mkdirp`'s own error is ignored by the code.
- `cleanUp` (index.js:332-342, hooks.js:235-245) is a single action naming the directories it removes. Its own `rimraf` errors are only logged.
- The outcome of the last step of each chain (the git-folder copy, the `up`, the hooks.js copy) is not an input, because both of its branches call `cleanUp`.
- chokidar's event delivery and the 10-second debounce (docker-watcher.js:27-30, 67-72) are timing. The ignore pattern is modelled on the path string it is matched against.
- `path.resolve` and `path.dirname` are abstract segment lists in the redeploy traces. In the watcher, `resolve` is a function parameter.
- JavaScript objects: the ordering of integer-like keys and the prototype chain seen by `in` (a key such as `constructor`) are not modelled. Project names contain `/`, so neither arises for real names.
- Watcher.Respond: when no project matches, the source reads `projects[undefined]` and throws a TypeError on `.path` inside the debounced callback. Nothing catches it, so the watcher process ends and no later change is handled. The model returns None for that one change and does not model the process ending. The model also does not cover a table with a key literally named `undefined`. `startsWith` compares the changed path, which chokidar reports resolved, with the configured path as written (docker-watcher.js:36), so a relative or non-normalised `path` in `config.json` matches no change and the first change ends the watcher.
- The find line's meaning to `find` is not modelled. `-name` matches base names only, so a persistent entry that contains `/` protects nothing. `-type f` means directories are never deleted. An empty persistent list gives `find <path>  -delete`, which deletes every file and directory under `<path>` and `<path>` itself.
- Logging to the console is not modelled.
