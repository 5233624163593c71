# The session lifecycle of sansbox-sql, verified

A Dafny model of the protocol that creates, extends, nukes and reaps sandbox sessions, and proofs about
every run of it. The store, the service, the reaper and the external effects (compose file, container,
data volume, general log, ssh tunnel) form one transition system: a step is one store transaction or one
external effect, every effect may fail (having done nothing, part or all of its work), calls in flight hold
what they read before, and any worker process may die at any point, with the calls it was running. In the
imperative code how each effect goes and which transactions raise are inputs, so that every contract says
exactly what a call does for every course of events.

How the files follow the program:

- `Config.dfy`, `Ports.dfy`: settings arithmetic and the port search.
- `Store.dfy`: the `sessions` table; each transaction as a function on tables and as a method of the class
  `SessionStore` that commits or rolls back.
- `World.dfy`, `Sandboxes.dfy`: the external effects, as functions and as methods of the class `Host`.
- `CreateScript.dfy`: the program points of a create and what each step does for every outcome.
- `Protocol.dfy`: the transition system, its runs, and the assumptions a result may name.
- `RowSafety.dfy`, `RowTheorems.dfy`, `Lifetime.dfy`: what holds of the rows in every run.
- `Publication.dfy`: what a create has done at every point of every run, read off the run itself.
- `WorldSafety.dfy`, `NoLeak.dfy`, `Runs.dfy`, `Leaks.dfy`: what holds of containers, files, volumes and
  tunnels, under exactly which assumptions, and a breaking run for every assumption dropped.
- `Interference.dfy`: what other calls do to a create that is still working, and exactly when that matters.
- `Exactness.dfy`: the container results hold under exactly the assumptions they name.
- `Volumes.dfy`: what ever removes a data volume.
- `Service.dfy`: the service's calls as imperative code; a create is proved to be a run of the script.
- `Reaper.dfy`: `reap_once` as imperative code, proved equal to a plain sweep.
- `Calls.dfy`: a reset, a nuke and a `reap_once` alone are runs of the protocol too.
- `Requests.dfy`, `Classify.dfy`: what a valid request guarantees, and how a failed clone is classified.

Facts of the code that the proofs settle, where its comments or documentation suggest otherwise (the line
numbers are those of the program's own README, not of this file):

- `nuked` is not terminal: a create that loses the race writes `error` over it (`Leaks.NukedIsNotTerminal`, a
  run from the empty store), exactly at the creator's committed error write (`NukedIsLeftExactly`), and at most
  once in a row's life (`NukedIsLeftAtMostOnce`).
- A nuke that straddles the end of a create, a nuke whose `down` fails, a create that outlives its
  placeholder, and a failed cleanup `down` each leave a running container behind a `nuked` row, which no
  reaper pass looks at again (the four `...Leaks` lemmas). Without those four, nothing is ever lost, crashes
  included, and with any one of them something can be (`RecoverableExactly`).
- A nuke's `down -v` between the two halves of a create's restart makes the create return success for a
  public container with an empty volume (`NukeDuringRestartEmpties`). What the create did before publishing
  needs no assumption (`PublicMeansCloned`); the volume still holds it exactly if nobody removed it while the
  create worked (`Interference.PublicMeansComplete`).
- Lines 294 and 313 of the program's README say that volumes are destroyed, and that the reaper sweeps stuck
  rows with `-v` so that a crash mid-create is not a leak. Under the reaper loop's defaults only a nuke ever
  removes a volume once a create is over (`OnlyNukesRemoveVolumes`); sessions that are reaped, and creates
  that crash, leave theirs behind with all its data (`ReapedKeepsVolume`, `CrashLeavesVolume`).
- Line 313 also speaks of a 5-minute grace. A stuck row is due 3600 seconds after its creation, or at its
  session's own expiry if it had been ready (`StuckFrom`).
- The categories "validation" and "grant" are never given to a failure (`UnusedCategories`), and a health
  timeout is reported as "port" exactly if a TCP probe has run or docker's status says so (`TimeoutCategory`).
- A database or table name with one trailing newline is accepted, because `$` matches before it
  (`ValidNameExactly`).

## Model

| member | source | states |
|---|---|---|
| `Ports.AllocatePort` | api/docker_ops.py:38-43 | the search loop returns the lowest port of the range not in use, and fails exactly when the whole range is used |
| `Config.Range` | api/config.py:100-102 | the port range holds exactly the ports from start to end, both included, and so has end - start + 1 of them |
| `Store.SessionStore.ReserveSession` | api/state.py:111-155 | allocation and insertion are one transaction: the lowest free port of the range and a placeholder row due in 3600 seconds, or no change; it fails for want of a port exactly when every port of the range is used |
| `Store.UsedPortsExactly` | api/state.py:134-155 | a port is taken if and only if a row in starting, ready or expired has it |
| `Store.SessionStore.Commit` | api/state.py:66-75 | the end of a transaction keeps what was written, or raises and puts back the table it is handed (each transaction hands it the one it began with) |
| `Store.SessionStore.ClaimExpired` | api/state.py:187-206 | returns exactly the overdue ready and expired rows, each once, as they were before, and marks them expired |
| `Store.SessionStore.ClaimStuck` | api/state.py:238-258 | returns exactly the overdue starting and error rows, each once, and changes nothing |
| `Store.SessionStore.SetStatus` | api/state.py:208-214 | writes the status of one row unconditionally, or nothing if it raises |
| `Store.SessionStore.UpdateToReady` | api/state.py:216-236 | reports success exactly when the row was starting, and only then writes status, credentials and lifetimes |
| `Store.SessionStore.MarkNuked` | api/state.py:260-265 | nukes any row that is neither nuked nor expired |
| `Store.SessionStore.UpdateTtl` | api/state.py:267-273 | moves the expiry and the extension flag of a row whatever its status |
| `Store.Select` | api/state.py:194-206 | a SELECT lists every due row once and no other |
| `Protocol.StepIsMove` | api/service.py:220-490 | a step of the whole system never removes a session and touches each one only in the way of its own move |
| `Protocol.StepAdds` | api/service.py:119-170 | a session appears only when a create reserves it, on the port the allocator found |
| `Protocol.ResetReadExactly` | api/service.py:432-447 | a reset goes on to write if and only if the row is ready, not extended and before its hard limit, and then with the expiry moved by the configured time, capped by the limit |
| `Protocol.NukeReadExactly` | api/service.py:457-486 | a nuke goes on to tear down if and only if the row exists and, by ticket, has that ticket and is not nuked |
| `Protocol.StepIsTransaction` | api/state.py:134-273 | every step makes exactly one of the store's transactions on the rows, or none: reservation, both claims, ready, status, mark-nuked and ttl writes |
| `RowSafety.StepKeepsRows` | api/state.py:111-273 | every step keeps port exclusivity, the shape of every row, and the truth of every stale snapshot in flight |
| `RowSafety.StepMoves` | api/service.py:181-193 | a status never goes back, credentials and extensions are never lost, and only its own creator's error step takes a row out of nuked |
| `RowTheorems.PortExclusivity` | api/state.py:134-155 | in every state of every run two rows in starting, ready or expired have different ports, all inside the range |
| `RowTheorems.Capacity` | api/docker_ops.py:38-43 | live rows never outnumber the ports of the range; a reservation fails exactly when they are as many, and then changes nothing |
| `RowTheorems.LifecycleOnlyAdvances` | api/state.py:187-265 | starting < ready < expired < {error, nuked} never decreases between any two points of any run: no way back to starting, from expired to ready, or from error or nuked to the others |
| `RowTheorems.NukedIsLeftAtMostOnce` | api/service.py:181-193 | a row leaves nuked at most once in any run, and never once its creator has finished or died |
| `RowTheorems.NukedIsLeftExactly` | api/service.py:181-193 | a step takes a row out of nuked if and only if it is its own creator's committed error write |
| `RowTheorems.OneShotExtension` | api/service.py:432-455 | whatever stale resets interleave, a row that has been ready keeps created + max as its hard limit and has expiry created + default, or the one extended value, which never moves again |
| `RowTheorems.SessionPersists` | api/state.py:216-273 | from any point of a run on, the session stays, with its plan, its having been ready and its extension |
| `RowTheorems.ViewAgreesWithCreate` | api/service.py:374-430 | after a create has returned, every later view shows the returned port, databases and hard limit, and the returned expiry or the one extended from it |
| `RowTheorems.PlaceholderIsNotViewable` | api/service.py:411-415 | a view raises on a row exactly while the row has never been ready |
| `RowTheorems.TicketNukeIsIdempotent` | api/service.py:467-490 | after the creator has finished, every later call on a nuked session changes nothing, and a wrong ticket never changes anything |
| `RowTheorems.StuckTestIsProvenance` | api/reaper.py:88-100 | in every state of every pass the commit loop's test is true exactly for the records of the second claim |
| `Publication.PublicMeansCloned` | api/service.py:287-345 | in every prefix of every run, whoever interferes: the public address, and the credentials, come only after every requested database was cloned exactly once, in order, with the requested tables, and the grants were applied |
| `Publication.AllOrNothing` | api/service.py:155-193 | in every run: a create that ends returned if and only if nothing it needs failed and its own commit moved its row from starting to ready; otherwise it raised after one error write and exactly one teardown with volumes, or two if it lost the race for its row |
| `Publication.DumpIsNotAudited` | api/service.py:276-319 | in every run a create clones only after exactly one attempt to switch the audit log off, and with it off if that worked; it grants only after exactly one attempt to switch it on again, and with it on if that worked |
| `Publication.RunKeepsHistory` | api/service.py:220-395 | a create's history and its program point agree along every run |
| `Lifetime.HardCeiling` | api/reaper.py:58-108 | a pass started after created + max(3600, ttl_max), with no create in flight for the row, leaves it nuked once it is past its records of the row with their teardowns successful, whatever interleaves and whatever else fails |
| `Lifetime.ExpiryBelowCeiling` | api/config.py:89-98 | no row of an accepted configuration is due later than created + max(3600, ttl_max) |
| `Lifetime.StuckFrom` | api/state.py:238-258 | in every run a row is due as stuck if and only if it is in starting or error and past created + 3600, or past its session's expiry if it had been ready; no grace period enters |
| `WorldSafety.MoveKeepsOrder` | api/service.py:255-345 | the public address appears in file and container only after their steps, and the tunnel is open only while cloning, whoever interferes |
| `WorldSafety.MoveKeepsCompose` | api/service.py:397-409 | the compose file outlives the container through every step and every failed effect |
| `WorldSafety.MoveKeepsPlaces` | api/service.py:255-345 | file, container and audit log are exactly those of the program point while nobody else tears down |
| `WorldSafety.MoveKeepsLoad` | api/service.py:276-345 | the volume's contents are exactly those of the program point until somebody else removes the volume |
| `WorldSafety.VolumesLeftAlone` | api/reaper.py:78-80 | nobody removes the volume of a working create if only returned sessions are nuked and passes keep volumes or claim no working create |
| `WorldSafety.InterferenceIsLate` | api/service.py:457-465 | under ownership no nuke or reaper step ever touches a session whose create is still working |
| `NoLeak.NeverPublicWithTunnel` | api/service.py:287-345 | in every prefix of every run, crashes included, the prod tunnel is never open while the container is public |
| `NoLeak.UntouchedMeansComplete` | api/service.py:276-345 | in runs in which only returned sessions are nuked, and passes keep volumes or claim no working create, a public container always holds everything |
| `NoLeak.OwnedStateAtReady` | api/service.py:320-361 | in runs in which only returned sessions are nuked and no working create is claimed, every commit finds the full public state |
| `NoLeak.AbsentFileMeansNothingRuns` | api/reaper.py:20-23 | in every reachable state a missing compose file means no running container, if cleanup downs work |
| `NoLeak.RunningIsRecoverable` | api/reaper.py:58-62 | with crashes, raising transactions and failing reaper teardowns allowed, every running container keeps its file and a row that a later pass claims |
| `NoLeak.NoLeakAtQuiescence` | api/reaper.py:82-105 | with no create, reset, nuke or reap under way every running container belongs to a ready row |
| `NoLeak.RunKeepsWorld` | api/service.py:220-490 | all container invariants hold along every run, each under the assumptions it names |
| `Interference.PublicMeansComplete` | api/service.py:276-345 | in every run: a public container holds every requested database, each cloned exactly once and completely, and the grants, if and only if nobody removed this session's volume while its create worked |
| `Interference.StateAtReady` | api/service.py:320-361 | in every run: when a row becomes ready the container is up publicly, the volume survived the restart with everything in it and the audit log is on even if both flips failed, if and only if nobody removed the volume while the create worked or took down the container after its last health check |
| `Interference.RunKeepsHarm` | api/service.py:255-345 | what other calls did to a create and the state of its file, container and volume agree along every run |
| `Exactness.RunUnderFewer` | api/service.py:220-490 | a run under some assumptions is a run under fewer, with the same end |
| `Exactness.NoLeakExactly` | api/reaper.py:82-105 | at quiescence every running container belongs to a ready row in all runs if and only if all seven assumptions are made: cleanup, nuke and reaper downs work, no worker dies, no reaper transaction raises, only returned sessions are nuked, and no create outlives its placeholder |
| `Exactness.RecoverableExactly` | api/reaper.py:58-62 | every running container keeps its file and a claimable row in all runs if and only if cleanup and nuke downs work, only returned sessions are nuked and no create outlives its placeholder |
| `Exactness.AbsentFileExactly` | api/reaper.py:20-23 | a missing compose file means no running container in all runs if and only if cleanup downs work |
| `Exactness.TunnelExactly` | api/ssh_tunnel.py:29-40 | the tunnel is never open beside a public container in all runs if and only if closing a tunnel works |
| `Exactness.PublicIsFullExactly` | api/service.py:276-345 | a public container serves everything in all runs if and only if only returned sessions are nuked, and passes keep volumes or claim no working create |
| `Exactness.StateAtReadyExactly` | api/service.py:320-361 | every commit finds the full public state in all runs if and only if only returned sessions are nuked and no working create is claimed |
| `Leaks.NukeDuringCreateLeaks` | api/service.py:457-465 | a nuke that tears down before the last up and writes its status after the commit leaks a returned session |
| `Leaks.OutlivedPlaceholderLeaks` | api/state.py:252-265 | a create that outlives its placeholder returns success and is then marked nuked with its container running |
| `Leaks.NukeDuringRestartEmpties` | api/service.py:343-345 | a nuke's `down -v` between the restart's down and up makes the create return success with a ready row, a public container and an empty volume |
| `Leaks.VolumeSweepEmpties` | api/reaper.py:78-80 | so does a sweep with `-v` of a create that has outlived its placeholder |
| `Leaks.OutlivedPlaceholderCommitsNothing` | api/service.py:345-361 | a create that has outlived its placeholder can move its row to ready with its container just torn down |
| `Leaks.NukeAtCommitCommitsNothing` | api/service.py:345-361 | so can one that is nuked before it has returned |
| `Leaks.NukedIsNotTerminal` | api/service.py:181-193 | from the empty store, for every request: a row goes to nuked, to error by its creator's error write, and to nuked again |
| `Leaks.FailedNukeLeaks` | api/service.py:461-465 | a nuke whose down fails leaves a nuked row with a running container |
| `Leaks.FailedCleanupLeaks` | api/service.py:397-409 | a failed cleanup down loses the container: its file is deleted and the reaper takes that for nothing to do |
| `Leaks.CrashStrands` | api/service.py:266-275 | a crash leaves a container running behind a starting row |
| `Leaks.RaisingClaimStrands` | api/reaper.py:61-62 | a pass that dies between its claims leaves an expired row running at quiescence |
| `Leaks.FailedTeardownStrands` | api/reaper.py:83-86 | a failed reaper teardown leaves an expired row running at quiescence |
| `Leaks.UnclosedTunnelStaysOpen` | api/ssh_tunnel.py:29-40 | a close that fails silently leaves the tunnel open behind a public container |
| `Leaks.HappyRun` | api/service.py:242-395 | from any point a create with every step succeeding runs through the whole script to its response, for any number of databases |
| `Volumes.VolumeChangesExactly` | api/reaper.py:67-80 | once a create is over, a step changes its volume if and only if it is a nuke's down, or the teardown of a stuck record in a pass asked to remove volumes, that gets that far through an existing compose file |
| `Volumes.OnlyNukesRemoveVolumes` | api/reaper.py:111-128 | in every run whose passes use the loop's defaults a session's volume stays as its create left it unless a nuke removes it |
| `Volumes.ReapedKeepsVolume` | api/reaper.py:77-105 | for every request there is a faultless run in which the session is reaped and its volume stays behind with everything in it |
| `Volumes.CrashLeavesVolume` | api/reaper.py:46-80 | a crash mid-create leaks the cloned volume although the stuck row is swept |
| `Service.SessionService.Create` | api/service.py:119-193 | all or nothing: it succeeds if and only if its directories can be made, a port is free, the reservation commits and every needed effect goes well; then the row is ready with exactly the returned values and everything is served; a failure after the reservation raises after a teardown with volumes, the removal of the files and the error write, as each of them goes; one before it leaves at most empty directories; no other session is touched |
| `Service.SessionService.CreateReserved` | api/service.py:155-193 | the attempt and the error path around it follow the script from the reserved row to its end |
| `Service.SessionService.CreateForRequest` | api/service.py:232-394 | a validated request is served if and only if all goes well, and then response, stored token and volume agree: the databases in order with the requested tables, the user u_name_suffix and the password drawn for each, one clone each of exactly those tables (a full dump if and only if the whole database was requested), and exactly those grants |
| `Service.SessionService.Provision` | api/service.py:242-286 | the steps up to an answering private server are the script's, with its failures |
| `Service.SessionService.CloneAll` | api/service.py:287-310 | one clone per database in order, each of its own table list, inside a tunnel that is closed on success and on failure |
| `Service.SessionService.GrantAll` | api/service.py:311-329 | the audit flip cannot fail a create, the grants can |
| `Service.SessionService.Publish` | api/service.py:331-345 | re-render, restart and health check on the public address are the script's, in that order |
| `Service.SessionService.Finish` | api/service.py:347-395 | a response if and only if the commit went well and found the row starting; a lost race is torn down with volumes and raised |
| `Service.SessionService.CleanupFailedCreate` | api/service.py:397-409 | the error path never raises, tears down with volumes, removes the files and writes error, each as it goes |
| `Service.SessionService.ViewSession` | api/service.py:411-430 | a missing row and the placeholder credentials are told apart; otherwise the row's own columns, status included, and the databases of its token |
| `Service.SessionService.ResetTtl` | api/service.py:432-455 | each refusal for exactly its own reason; otherwise the expiry moves by the configured time or to the hard limit, whichever is earlier, the extension is used up, and nothing else changes |
| `Service.SessionService.Nuke` | api/service.py:457-465 | on any existing row the `down -v` is made and the row is nuked whether or not it succeeded |
| `Service.SessionService.NukeByTicket` | api/service.py:467-490 | a wrong ticket is an unknown session, an already nuked one is left alone; on anything else the `down -v` is made and the row is nuked |
| `Service.SoloIsARun` | api/service.py:119-193 | every create run alone, however its effects go, is a run of the protocol of its own steps, so its results apply |
| `Service.SoloResult` | api/service.py:220-395 | wherever a lone create stops, it has returned with everything or its row is still starting or ready |
| `Service.Able` | api/service.py:242-361 | alone, every step up to the response finds what it needs, so only its own effect can fail it |
| `Service.TunnelHolds` | api/service.py:287-310 | alone, the tunnel is open while cloning and afterwards only if its close failed |
| `Calls.ResetIsARun` | api/service.py:432-455 | a reset alone is a run of the protocol that ends in the store's ttl write |
| `Calls.NukeIsARun` | api/service.py:457-490 | a nuke of either kind alone is a run of the protocol that ends in its down and its status write |
| `Calls.ReapIsARun` | api/reaper.py:40-108 | a `reap_once` alone is a run of the protocol that ends in the plain sweep of rows and worlds |
| `Reaper.ReapOnce` | api/reaper.py:40-108 | with no other writer: it raises if and only if a claim does or the commit of an overdue row whose teardown succeeded; otherwise overdue rows are nuked if their teardown succeeds, ready ones otherwise expire, all else is unchanged, in any order of teardowns, and exactly the records whose teardown succeeded are returned, each once and in claim order; a pass that raises in a claim tears nothing down, one that raises in a commit nukes only rows whose teardown succeeded |
| `Reaper.TearDownAll` | api/reaper.py:67-80 | the pool's result does not depend on the order in which teardowns finish |
| `Reaper.CommitAll` | api/reaper.py:82-105 | the successful teardowns are committed and listed in order up to the first commit that raises; the rest are only claimed |
| `Reaper.CommitOne` | api/reaper.py:88-100 | whichever write the loop picks for a record nukes its row |
| `Reaper.Teardown` | api/reaper.py:16-37 | a missing compose file counts as torn down, a failing down does not |
| `Reaper.JobsAreTheDueRows` | api/reaper.py:61-80 | the two claims together are the overdue rows, each exactly once, told apart by the commit test |
| `Reaper.SweepRemovesVolume` | api/reaper.py:77-80 | a sweep removes a volume if and only if it was asked to, the row is due as stuck, its compose file exists, and the down gets that far |
| `Requests.NormaliseTables` | api/models.py:40-61 | accepts exactly null, "all", a valid bare name and non-empty lists of distinct valid names, gives them back as they are, and otherwise reports the first offending item |
| `Requests.NameCharsExactly` | api/models.py:14 | the name characters are the digits, both alphabets and the underscore |
| `Requests.ValidNameExactly` | api/models.py:14-21 | a name is accepted if and only if it is clean, or clean and followed by one newline, within 64 characters |
| `Requests.ValidateRequest` | api/models.py:77-102 | a request is accepted if and only if it has one to ten acceptable databases with different names, and then each clone is asked for exactly the tables given, and for a full dump exactly where the whole database was |
| `Requests.PartialStaysPartial` | api/models.py:63-74 | the table list of a valid spec reaches the clone as it is, duplicate-free, and empty only for a full spec |
| `Requests.SizesTellDuplicates` | api/models.py:96-102 | comparing sizes accepts exactly the lists without duplicates |
| `Requests.UserNameInjective` | api/service.py:235 | different databases or suffixes never give the same user, even with underscores in names |
| `Requests.BuildCreds` | api/service.py:232-240 | credentials and grants match the databases one to one, with pairwise different users |
| `Classify.CloneReport` | api/mysql_ops.py:228-245 | the report's text, for the restore, the dump, or both in this order, and its category: a dump failure exactly when the dump failed or the names or restore text say mysqldump |
| `Classify.CloneCategory` | api/service.py:53-59 | the same of the message itself, in both directions |
| `Classify.RestorePartMentions` | api/mysql_ops.py:235-238 | a restore-only report mentions mysqldump exactly when the database name or the restore's text does: no occurrence straddles its parts |
| `Classify.UnusedCategories` | api/service.py:49-66 | a category is given to some failure if and only if it is neither validation nor grant |
| `Classify.CategoryExactly` | api/service.py:49-66 | each category stands for exactly one kind of exception, told apart by mysqldump or port in its message, in any mix of cases |
| `Classify.TimeoutCategory` | api/docker_ops.py:182-185 | a health timeout is a port failure if and only if a probe has run or docker's status mentions port, otherwise a container failure |

## Left out

- Service.SessionService.Create: does not model which error category a failed create reports; the categories are modelled on the exceptions alone, in `Classify`.
- Service.SessionService.CreateForRequest: draws the user suffixes, passwords and the sid from its caller, where the code uses random sources; a fresh uuid is assumed to be fresh.
- Classify.CloneCategory: lower-casing is ASCII only, and the reports are those with both exit codes known; the timeout and CREATE DATABASE messages are not modelled.
- The FastAPI routes, authentication, nginx, systemd, scripts and metrics: plumbing around the calls modelled here.
- SQLite, docker, ssh and mysql themselves: serial atomic transactions and effects that may fail. A compose file is written by its own step or not at all, and any damage to it shows as a failing later `up` or `down`. A docker client killed on its timeout is a failed step; that the daemon may go on and finish the work during later steps is not modelled.
- Fernet, certificates and password strength: an encrypt/decrypt pair, and one step of the script that may fail.
- `SessionStore.create`, `update_port`, `delete` and the deprecated compose rewriting: the service never calls them, and they would break the invariants.
- The unreachable second half of `create` (api/service.py:194-218), the polling inside the waits, `reap_loop`'s timing, and the fallback of `_teardown` for older signatures.
- Columns that are constant or derived from the id: hosts, paths, container name, date, dbs_json.
