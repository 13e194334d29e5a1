# A verified model of the Minecraft control plane

This project models the control plane of `backend/`: a SQLite registry of users and servers, a Docker host that the
handlers drive through calls that may fail, a bounded pool of host ports, a log endpoint that turns Docker's
multiplexed stream into server-sent events, and the small codecs beside them (session tokens, heap sizes, container
environments). It states what these are for and proves it. `dafny verify dfyconfig.toml` checks everything.

## How it is laid out

The same requests appear in three forms, and the forms are proved to agree.

* **Handlers.** `Handlers.Api` holds the request handlers as methods over three mutable objects: the tables
  (`Registries.Store`), the Docker client (`DockerHosts.Client`) and the port allocator (`Ports.Allocator`). They follow
  the Go code statement by statement: snapshots, early returns, ignored results, the two calls to
  `recreateContainer`. Each is proved equal to a step function.
* **Requests, one at a time.** `Lifecycle` holds those step functions on a `World` of registry, host and minted IDs.
  `Invariant` proves one invariant over every request, every Docker failure and every outside event; `Guarantees` and
  `Isolation` draw the consequences. `Outcomes` says what each request answers and leaves behind, in terms of the tables and
  the host alone.
  `WorldData` follows what the game has written, over whole histories.
* **Requests, interleaved.** `CreateRace`, `AdminRace` and `CascadeRace` cut creates, account requests and account
  deletions into SQL statements, and `Durability` cuts server requests into Docker calls and statements, with any number
  of requests in flight. `PerServer` runs the `Durability` machine with at most one request per server and proves the
  container-record invariant at every call. `SoloRuns` proves that a request served alone is one of the runs of those
  models, in which it begins and then makes nothing but its own calls; `LostWrites` uses this to show what one lost write
  does.

`Demux`, `Json`, `Utf8`, `Sse` and `LogPump` are the log pipeline, from the bytes Docker sends to what the page makes of
the bytes it gets. `Decimal` and `MemoryLimit`, `Base64` and `Session`, and `Environment` are the codecs. `Models`,
`Credential` and `Text` are shared.

## Assumptions

* In `Lifecycle`, handlers are serialised, and writes to existing rows succeed. The code ignores or only logs several of
  those writes (`backend/internal/api/servers.go:143`, `151-153`, `338-340`); `LostWrites.LostWriteStrands` proves that
  the invariant needs this assumption. Of the interleaved models only `PerServer` makes it, and only for the write of a new
  container's ID.
* A failed container create leaves no container. Every other Docker call that reports an error may or may not have taken
  effect (`DockerHosts.Outcome`). Docker reports "not found" only for what does not exist; about what does not exist it
  may also report any other error (`DockerHosts.Missing`).
* UUIDs and container IDs are never minted twice.
* In `Lifecycle`, what happens outside the platform (`docker rm`, a container that exits or comes back, a game that
  saves its world) happens between requests. In `Durability` and `PerServer` it happens between any two calls.
* Each SQL statement is atomic, since the store has one connection (`backend/internal/store/sqlite.go:79`).
* The ports that host probing finds busy are an arbitrary set. Channel operations and `select` are modelled by arbitrary
  schedules. The signer is an arbitrary function into hexadecimal strings. What Go makes of a log line's bytes as
  characters is an arbitrary function.
* Times, fresh IDs, password hashes and Docker's answers are parameters.

## Where the code and its documentation part

* The comment at `backend/internal/ports/allocator.go:32-34` says that the mutex keeps two creates from picking the same
  port between the read and the insert. It does not: the mutex is released when `Allocate` returns.
  `CreateRace.BoundIsTight` gives, for every K, a run in which K requests pick one port and K-1 of them fail. The UNIQUE
  column is what keeps ports apart.
* The server cap (`backend/internal/api/servers.go:76-86`) is checked before the insert, so K creates in flight can leave
  K-1 servers over it, and no more (`CreateRace.CapOvershoot`, `CreateRace.OvershootIsReached`).
* `?deleteData=true` is documented to destroy the world, and it does: over every history, whatever Docker did, a delete
  that reports success leaves no world content (`WorldData.CompletedDeleteLeavesNoWorld`). It does not always remove the
  volume. The handler skips Docker altogether when the record carries no container ID, so the blank volume of a create
  that failed half way stays, with nothing left to name it. That is exactly when it stays, and
  `WorldData.DeleteCanLeakVolume` is a history in which it does.
* A start is meant never to leave a server "permanently unstartable" (`backend/internal/api/servers.go:213-215`). That
  holds in every sound state (`Guarantees.StartHeals`). `LostWrites.StartHealsExactlyUnlessStranded` gives the exact
  condition in all states, and `LostWrites.RetriesNeverHeal` shows that a stranded server stays so.
* The last-admin check is meant to keep the platform administrable. It does so for one demotion or deletion at a time and
  for no more (`AdminRace.AdminSurvivesExactlyWithoutOverlap`): from every state with two admins or more, requests of which
  at most two overlap can take them all (`AdminRace.TwoOverlappingLoseEveryAdmin`). When requests are served one at a time
  the check can never refuse anything (`Guarantees.LastAdminRefusalIsUnreachable`).
* Reassigning servers before an account goes is meant to leave no container without its record
  (`backend/internal/api/admin.go:183-189`). The count, the reassignment and the DELETE are three statements, and a record
  that becomes the account's in between goes with it. `CascadeRace.CascadeDropsExactlyLatecomers` and
  `CascadeRace.CascadeStrandsExactlyLatecomers` say exactly which records and containers; in
  `CascadeRace.CreateLosesItsRecord` it is the account's own create.
* An account update that is refused for its password has already changed the role
  (`Guarantees.RefusedUpdateKeepsRoleExactlyWhen`). The stored username is checked again with the password, so the password
  of an admin who was seeded under a name that registration would refuse can never be reset (`Guarantees.ResetWorksExactlyWhen`).

## Model

| member | source | states |
|---|---|---|
| Invariant.ServeKeepsInv | backend/internal/api/servers.go:63-342 | Every request, with any Docker failure at any call, and every outside event keeps the invariant: each container is exactly what one record says it is (ID, derived name, derived volume, port), tables obey their constraints, statuses rest, some admin exists |
| Invariant.RunKeepsInv | backend/internal/api/servers.go:63-342 | The invariant holds after every run of requests and outside events, from any sound state |
| Invariant.ReachedIsSound | backend/internal/api/servers.go:63-342 | Every world that a history from the empty installation leads to is sound |
| Invariant.OneRecordPerContainer | backend/internal/docker/minecraft.go:78-131 | Each existing container belongs to exactly one record; no other record shares its ID, name, volume or port |
| Invariant.ContainersAreDisjoint | backend/internal/docker/minecraft.go:93-131 | No two containers share a host port, a volume or a name |
| Invariant.AllocatedPortIsUnheld | backend/internal/ports/allocator.go:45-68 | The claimed set covers every port a container holds, so the allocator never hands such a port out |
| Invariant.NoNameConflict | backend/internal/api/servers.go:326-330 | A record without a live container never meets a container that has its derived name |
| Invariant.NoPortConflict | backend/internal/docker/minecraft.go:133-142 | A stopped container never finds its port bound by another record's container |
| Invariant.CreateKeepsInv | backend/internal/api/servers.go:63-156 | A create keeps the invariant, whether refused, failed half way or completed |
| Invariant.RebuildKeepsCore | backend/internal/api/servers.go:325-342 | Rebuilding a missing container keeps containers and records matched, whether or not it succeeds |
| Invariant.StartKeepsInv | backend/internal/api/servers.go:198-236 | A start keeps the invariant on each of its branches |
| Invariant.StopKeepsInv | backend/internal/api/servers.go:239-265 | A stop keeps the invariant, also when the container is already gone |
| Invariant.TeardownKeepsHostSound | backend/internal/docker/minecraft.go:161-173 | However a removal fails, every remaining container still has its record and its volume; a reported success means the container is gone |
| Invariant.DeleteKeepsInv | backend/internal/api/servers.go:270-295 | A delete never drops a record whose container may still exist |
| Invariant.RenameKeepsInv | backend/internal/api/servers.go:166-193 | A rename, which rewrites the mutable columns from a snapshot, keeps the invariant when served alone |
| Invariant.SetRoleKeepsInv | backend/internal/api/admin.go:128-148 | Promotion and demotion keep the invariant, some admin included |
| Invariant.UpdateUserKeepsInv | backend/internal/api/admin.go:114-181 | A role change followed by a password reset keeps the invariant, also when the second half is refused |
| Invariant.RemoveUserKeepsInv | backend/internal/api/admin.go:190-239 | Deleting an account leaves no container without its record, in spite of the cascade |
| Handlers.Api.HandleCreateServer | backend/internal/api/servers.go:63-136 | The handler does what the create step says: validation, cap, CurseForge key, port and defaults in that order |
| Handlers.Api.InstallServer | backend/internal/api/servers.go:127-156 | Record first, then container; the record ends stopped with its ID or in error with Docker's text |
| Handlers.Api.HandleUpdateServer | backend/internal/api/servers.go:166-193 | The rename changes the trimmed name of an owned record and nothing else |
| Handlers.Api.RecreateContainer | backend/internal/api/servers.go:325-342 | Clears the stale container without its volume, provisions, and records the new ID on success only |
| Handlers.Api.HandleStartServer | backend/internal/api/servers.go:198-236 | The two-path start (no ID, stale ID) does what the start step says |
| Handlers.Api.HandleStopServer | backend/internal/api/servers.go:239-265 | The stop passes through "stopping" and ends where the stop step says |
| Handlers.Api.HandleDeleteServer | backend/internal/api/servers.go:270-295 | The record goes only after Docker reports success or "not found" |
| Handlers.Api.Lookup | backend/internal/api/servers.go:301-321 | Only an owner or an admin gets a record; to anyone else another's server is answered exactly like an ID that no row has |
| Handlers.Api.FailServer | backend/internal/api/servers.go:394-400 | The failure is on the record, in status error with a non-empty message; its container ID and every other row stay |
| Handlers.Api.HandleRegister | backend/internal/api/auth.go:170-208 | Refused when closed or for bad credentials; the first account to register is the admin, and no later one |
| Handlers.Api.SeedAdmin | backend/internal/api/auth.go:258-279 | An admin is seeded exactly when the table is empty and credentials were supplied |
| Handlers.Api.HandleCreateUser | backend/internal/api/admin.go:74-104 | Only an admin creates accounts, with good credentials and a free username |
| Handlers.Api.EnsureAnotherAdmin | backend/internal/api/admin.go:260-274 | Going ahead against an admin leaves another admin in place; refusing means no two admins exist |
| Handlers.LastAdminHasNoPeer | backend/internal/api/admin.go:262-274 | The count refuses exactly the admin who has no peer |
| Handlers.Api.HandleUpdateUser | backend/internal/api/admin.go:114-181 | The role change with its refusals and then the password reset do what their steps say, in that order |
| Guarantees.RefusedUpdateKeepsRoleExactlyWhen | backend/internal/api/admin.go:128-172 | A refused update has changed the role if and only if the role was to change and could, and the password was refused |
| Guarantees.ResetWorksExactlyWhen | backend/internal/api/admin.go:150-172 | A password reset succeeds if and only if the password is good, hashing succeeds and the stored name would still be accepted; it changes that hash only |
| Credential.Credentials.Validate | backend/internal/api/auth.go:157-166 | Accepts exactly good passwords under names that are good once trimmed, and leaves the trimmed name behind |
| Credential.AcceptsExactly | backend/internal/api/auth.go:157-166 | 3 to 32 bytes once trimmed, and a password of 8 bytes or more |
| Handlers.Api.HandleDeleteUser | backend/internal/api/admin.go:190-239 | Servers move to the caller before the account goes, or the request is refused |
| Handlers.Api.Serve | backend/internal/api/servers.go:63-342 | Every request on the mutable objects equals its step and keeps the invariant |
| Handlers.Api.ServeAll | backend/internal/api/servers.go:63-342 | A whole sequence of requests ends in the state of the run and keeps the invariant |
| Guarantees.CreateLeavesRecord | backend/internal/api/servers.go:60-156 | An admitted create leaves its record, with the requested or default settings, on the lowest free port, either with its own stopped container or in error; the reply tells which |
| Guarantees.StartHeals | backend/internal/api/servers.go:195-236 | From every reachable state a start that Docker does not fail ends with the record's own container running on its own port and volume, world untouched |
| Guarantees.FailedDeleteKeepsRecord | backend/internal/api/servers.go:278-285 | A failed delete keeps the record, its port and its container ID, and stays possible |
| Guarantees.DeleteFreesEverything | backend/internal/api/servers.go:270-295 | One good delete frees record, container and port; the volume goes if and only if deleteData is set and an ID is recorded |
| WorldData.CompletedDeleteLeavesNoWorld | backend/internal/api/servers.go:270-295 | Over every history and with any Docker failure, a delete with deleteData=true that reports success leaves no world content; its volume stays if and only if it was there and the record named no container |
| WorldData.ReachedIsBlank | backend/internal/api/servers.go:138-155 | In every reachable world the volume of a record without a container ID is blank |
| WorldData.DeleteCanLeakVolume | backend/internal/api/servers.go:276-285 | A whole history after which a delete with deleteData=true leaves a blank volume behind |
| Guarantees.RetryFinishesDelete | backend/internal/api/servers.go:270-295 | After any number of deletes failed half way, one good delete finishes the job |
| Guarantees.StopStops | backend/internal/api/servers.go:239-265 | After a good stop no container of that server runs |
| Guarantees.RunKeepsIdentity | backend/internal/store/sqlite.go:362-408 | Over any run a server's port never changes and a recorded container ID is never cleared |
| Guarantees.LastAdminRefusalIsUnreachable | backend/internal/api/admin.go:128-148 | With serial handlers the last-admin refusal can never be met |
| Guarantees.RemoveUserConservesServers | backend/internal/api/admin.go:206-235 | Account deletion conserves servers, ports and containers; the caller's count grows by the target's; the counts add up |
| Isolation.ServersAreIsolated | backend/internal/api/servers.go:63-342 | A request about one server leaves every other record, container, volume and its content as it was |
| Outcomes.LookupAnswers | backend/internal/api/servers.go:301-321 | A record is handed out if and only if the caller is signed in and is an admin or the owner of an existing server; 401 exactly for who is not signed in, 404 for everything else |
| Outcomes.RequireAdminAnswers | backend/internal/api/admin.go:18-26 | 401 exactly for who is not signed in, 403 exactly for who is signed in and no admin |
| Outcomes.WithoutRightNothingHappens | backend/internal/api/servers.go:301-321 | A rename, start, stop or delete by anyone else changes nothing at all |
| Outcomes.AdmitAnswers | backend/internal/api/servers.go:63-103 | Each refusal of a create, and its admission, if and only if: signed in, acceptable, below the cap, a key for CurseForge, some port neither on a record nor busy |
| Outcomes.RefusedCreateDoesNothing | backend/internal/api/servers.go:63-103 | A refused create changes nothing and answers with that refusal |
| Outcomes.CreateAnswers | backend/internal/api/servers.go:127-156 | An admitted create replies 201 and leaves a stopped server on its new container if and only if Docker fails neither call; otherwise 500 and the failing call's text is on the record |
| Outcomes.RefusedInsertAnswers | backend/internal/api/servers.go:127-136 | An insert is answered 409 if and only if its ID or port was taken meanwhile, and 500 if only its owner is gone; Docker is not called |
| Outcomes.RenameAnswers | backend/internal/api/servers.go:166-193 | A name of 1 to 64 bytes once trimmed is set, trimmed, and nothing else changes; any other name is refused; no name, no change |
| Outcomes.StartAnswers | backend/internal/api/servers.go:198-236 | A start replies 200 if and only if none of the Docker calls it needs fails, and then the server runs in its own container; otherwise 500 and "docker: " with that call's text; nothing but status, message and a rebuilt container's ID changes |
| Outcomes.StopAnswers | backend/internal/api/servers.go:239-265 | 409 without a container ID; 200 and "stopped" exactly if Docker does not fail the stop, be the container there or not; otherwise 500 and "docker: " with its text; nothing else in the registry changes |
| Outcomes.StopEffect | backend/internal/docker/minecraft.go:147-156 | After a stop that replied 200 no container of the server runs; a refused one leaves the host alone; other containers are as they were |
| Outcomes.DeleteAnswers | backend/internal/api/servers.go:270-295 | 204 if and only if none of the calls a delete makes fails, and then exactly this row and this container are gone, and the volume exactly if asked; otherwise 500, and the row says why |
| Outcomes.TeardownAnswers | backend/internal/docker/minecraft.go:161-173 | A removal fails exactly when Docker fails the container or the requested volume, and what is not there is no failure |
| Outcomes.RegisterAnswers | backend/internal/api/auth.go:170-212 | Each reply to a registration if and only if; 201 adds exactly the trimmed name with an admin flag that is set only on an empty table, so later registrations leave the admins as they were |
| Outcomes.NewUserAnswers | backend/internal/api/admin.go:74-104 | The same for an account an admin makes, with exactly the flag asked for |
| Outcomes.SeedAnswers | backend/internal/api/auth.go:258-279 | One admin is added to an empty table if name, password and hash are there; otherwise nothing |
| Outcomes.UpdateUserRefusals | backend/internal/api/admin.go:114-148 | 401, 403, 404 and 409 if and only if the caller is unknown, no admin, the target unknown, or the caller drops their own flag; then nothing changes |
| Outcomes.UpdateUserAnswers | backend/internal/api/admin.go:128-181 | Otherwise the role asked for is set, and the hash exactly if the password is accepted, which decides the reply |
| Outcomes.RemoveUserAnswers | backend/internal/api/admin.go:190-239 | Each reply to an account deletion if and only if; 204 takes the account, hands each of its servers to the caller, and changes nothing else |
| LostWrites.StartHealsExactlyUnlessStranded | backend/internal/api/servers.go:198-236 | In any state, sound or not, a start without Docker faults succeeds if and only if the server is not stranded and its port is not held |
| LostWrites.RetriesNeverHeal | backend/internal/api/servers.go:212-225 | A stranded server stays unstartable however often and with whatever luck a start is retried |
| LostWrites.LostWriteStrands | backend/internal/api/servers.go:337-341 | From every sound state, a start that has to rebuild its container, served alone with no Docker fault, in whose run exactly one call fails, the write of the new ID, strands the server and breaks the invariant |
| SoloRuns.SoloStart | backend/internal/api/servers.go:198-236 | A start served alone is a run of the interleaved machine that begins with that request, makes only its own calls, each met as Docker decides, and ends in the registry and host of the serial step |
| SoloRuns.SoloStop | backend/internal/api/servers.go:239-265 | The same for a stop, with a container ID or without |
| SoloRuns.SoloDelete | backend/internal/api/servers.go:270-295 | The same for a delete |
| SoloRuns.SoloUnknown | backend/internal/api/servers.go:301-311 | The same for a start, stop or delete of a server that is not there |
| SoloRuns.SoloInstall | backend/internal/api/servers.go:127-156 | The same for a create |
| SoloRuns.SoloAdmission | backend/internal/api/servers.go:76-136 | A create served alone makes the three statements of the race model and never loses its port |
| SoloRuns.SoloRemoval | backend/internal/api/servers.go:287-294 | A delete served alone gives its port back in the statement-level model of creates |
| SoloRuns.SoloSetRole | backend/internal/api/admin.go:128-148 | A role change served alone is a run of the statement-level account model |
| SoloRuns.SoloRemoveUser | backend/internal/api/admin.go:190-239 | An account deletion served alone is a run of the statement-level account model |
| SoloRuns.SoloRegister | backend/internal/api/auth.go:170-208 | A registration with good credentials served alone is a run of the statement-level model |
| SoloRuns.SoloSeed | backend/internal/api/auth.go:258-279 | The same for seeding at startup |
| SoloRuns.SoloNewUser | backend/internal/api/admin.go:74-104 | The same for an account an admin makes |
| CreateRace.EveryLossHasAWinner | backend/internal/api/servers.go:94-136 | Under every interleaving each "port was just taken" is owed to another create that inserted the same port between this one's read and insert; ports stay distinct |
| CreateRace.LostRacesAreBounded | backend/internal/api/servers.go:127-132 | With K requests in flight, retrying freely, lost races never exceed K-1 times the successful inserts |
| CreateRace.BoundIsTight | backend/internal/ports/allocator.go:32-68 | For every K some run has one winner and K-1 losers on one port, mutex or not |
| CreateRace.CapOvershoot | backend/internal/api/servers.go:76-86 | With K requests in flight rows never exceed the cap by more than K-1; with one the cap is exact |
| CreateRace.OvershootIsReached | backend/internal/api/servers.go:76-86 | For every cap, K and large enough pool some run ends exactly K-1 over the cap |
| CreateRace.RowsFitThePool | backend/internal/store/sqlite.go:45 | From an empty registry rows hold pairwise distinct ports within the range under every interleaving, so never more than the pool has |
| CreateRace.PoolOutlastsCap | backend/internal/ports/allocator.go:58-67 | With probing off no request past the cap check finds the pool exhausted while MaxServers+K-2 is below the pool size |
| AdminRace.NextKeepsInv | backend/internal/api/admin.go:128-148 | Each statement of any account request keeps an admin, and keeps another admin in place for the one narrowing request past its count |
| AdminRace.AlwaysAnAdmin | backend/internal/api/admin.go:260-274 | From a fresh install, under every interleaving without overlapping demotions or deletions, an installation with users has an admin |
| AdminRace.AdminSurvivesExactlyWithoutOverlap | backend/internal/api/admin.go:260-274 | An admin always remains under at most K overlapping demotions or deletions if and only if K is at most 1 |
| AdminRace.TwoOverlappingLoseEveryAdmin | backend/internal/api/admin.go:136-145 | From every resting state with at least two admins some run, with at most two such requests overlapping, ends with none |
| AdminRace.OverlapLosesBothAdmins | backend/internal/api/admin.go:136-145 | Wherever exactly two admins exist, two overlapping demotions leave none |
| AdminRace.OverlapCanLoseEveryAdmin | backend/internal/api/admin.go:136-145 | A whole history from a fresh install that ends with users and no admin |
| CascadeRace.CascadeDropsExactlyLatecomers | backend/internal/api/admin.go:206-235 | From any registry and under every interleaving, the DELETE drops a record if and only if a statement after the count or reassignment inserted it for the target or handed it over, and no later one took it away |
| CascadeRace.NothingDroppedWithoutNewcomers | backend/internal/api/admin.go:206-235 | If no statement in between inserts for the target or reassigns to it, nothing is dropped |
| CascadeRace.AddsExactlyIfItCanGive | backend/internal/api/admin.go:206-235 | The statements ruled out there are exactly those that can give the target a record in some registry |
| CascadeRace.CascadeStrandsExactlyLatecomers | backend/internal/api/admin.go:183-189 | A container is left without its record exactly when that record is such a latecomer |
| CascadeRace.CreateLosesItsRecord | backend/internal/api/admin.go:206-235 | A concrete run in which the target's own create inserts its row, records its container, and loses both to the DELETE; the container is stranded |
| CascadeRace.SoloDeletion | backend/internal/api/admin.go:206-235 | Left alone, the three statements of a deletion do what the serial step does |
| CascadeRace.GivesUpExactlyWhen | backend/internal/api/admin.go:206-235 | In each phase the exact condition under which the deletion gives up, which changes nothing |
| PerServer.MoveKeepsSound | backend/internal/api/servers.go:127-342 | With at most one request per server in flight, and whatever fails but the write of a new container's ID, every call, statement and outside event keeps containers and records matched |
| PerServer.EveryContainerHasItsRecord | backend/internal/api/servers.go:127-342 | At every moment of every such interleaving each container belongs to exactly one record, which names it or is just about to, and no two share a port, a volume or a name |
| PerServer.AtRestTheRecordNamesIt | backend/internal/api/servers.go:325-342 | Whenever nothing is in flight for a server its record names its container, whatever goes on with the others |
| Durability.NextKeepsInv | backend/internal/docker/minecraft.go:76-173 | Each call of any interleaved request keeps containers on their own volumes |
| Durability.ContainersKeepToTheirVolumes | backend/internal/api/servers.go:325-342 | However requests interleave, every container of a server, recreated or not, mounts that server's volume, and no two share one |
| Durability.WorldOutlivesEverything | backend/internal/api/servers.go:267-295 | Over any interleaved run with any database or Docker fault, a volume keeps all its content unless a delete of that same server with deleteData=true removes it |
| Durability.SavesLast | backend/internal/docker/minecraft.go:93-131 | Under the same interleavings, what a running game saves is appended to its server's volume and stays for as long |
| Text.TrimSpaceExactly | backend/internal/store/models.go:131 | Trimming takes away exactly the space around a text that neither starts nor ends with any |
| Models.NamesAreInjective | backend/internal/store/models.go:97-107 | Names derived from distinct IDs never collide |
| Models.NormalisingIsIdempotent | backend/internal/store/models.go:130-159 | Validating an accepted request again changes nothing |
| Models.AcceptsExactly | backend/internal/store/models.go:130-159 | Which raw requests are accepted, and to what they are normalised, with the literal types, providers, defaults and bound |
| Models.CreateServerInput.Validate | backend/internal/store/models.go:130-159 | Accepts exactly the requests whose normalised form is acceptable and leaves that form behind; of any other it names the first fault |
| Ports.LowestFree | backend/internal/ports/allocator.go:45-68 | The answer is the lowest port in range that is neither claimed nor busy, and none only if there is no such port |
| Ports.Allocator.Allocate | backend/internal/ports/allocator.go:49-68 | The counting loop finds that port from the registry's current claims |
| Ports.ExhaustedMeansAllClaimed | backend/internal/ports/allocator.go:58-67 | With probing off the pool is exhausted if and only if every port of the range is claimed |
| Registries.DeleteUserKeepsConsistency | backend/internal/store/sqlite.go:208-224 | Deleting a user leaves no server without an owner, thanks to the cascade |
| Registries.ReassignmentShieldsRows | backend/internal/store/sqlite.go:226-238 | After a reassignment the cascade has nothing to drop: rows change only their owner |
| Registries.TransferAndDeleteKeepsConsistency | backend/internal/store/sqlite.go:208-238 | Reassigning and then deleting keeps every table constraint |
| Registries.InsertServerKeepsConsistency | backend/internal/store/sqlite.go:267-289 | An accepted insert keeps ports unique and owners present |
| Registries.InsertServerAcceptsExactly | backend/internal/store/sqlite.go:267-289 | An insert is accepted if and only if the ID is free and the table keeps its constraints with the row; a taken ID or port is told apart from a missing owner |
| Registries.InsertUserAcceptsExactly | backend/internal/store/sqlite.go:98-113 | The same for an account |
| Registries.UpdateServerAnswers | backend/internal/store/sqlite.go:363-379 | A full-row update changes one row, in every column but port and owner |
| Registries.DeleteUserAnswers | backend/internal/store/sqlite.go:208-224 | The cascade takes the rows of the deleted user, all of them and no other |
| Registries.GroupedCountsTotal | backend/internal/store/sqlite.go:240-259 | The grouped counts always add up to the number of rows |
| Registries.Store.Reassign | backend/internal/store/sqlite.go:229-238 | Moves exactly the rows of one owner and reports how many |
| Registries.Store.RemoveUser | backend/internal/store/sqlite.go:215-224 | Removes the user and, by the cascade, that user's rows |
| Registries.Store.SetPassword | backend/internal/store/sqlite.go:197-206 | Changes one user's hash and nothing else |
| Registries.Store.CreateServer | backend/internal/store/sqlite.go:270-289 | Inserts unless the ID or port is taken or the owner is missing |
| Registries.Store.Update | backend/internal/store/sqlite.go:363-379 | Rewrites the mutable columns; port and owner stay |
| Registries.Store.RecordContainerID | backend/internal/store/sqlite.go:397-408 | Changes one row's container ID and nothing else |
| Registries.Store.RecordStatus | backend/internal/store/sqlite.go:383-394 | Changes one row's status and message and nothing else |
| Registries.Store.ServerCountsByOwner | backend/internal/store/sqlite.go:242-259 | Counts the rows of each owner who has any |
| Registries.Store.UsedPorts | backend/internal/store/sqlite.go:344-360 | Returns exactly the ports of the rows |
| DockerHosts.Client.CreateServer | backend/internal/docker/minecraft.go:78-131 | Volume, then a stopped container on it; a failure after the volume leaves the volume only |
| DockerHosts.Client.StartServer | backend/internal/docker/minecraft.go:134-142 | Starts a container, and tells a missing one from a failure, which a missing one may also meet |
| DockerHosts.Client.StopServer | backend/internal/docker/minecraft.go:147-156 | Stops a container, and tells a missing one from a failure, which a missing one may also meet |
| DockerHosts.Client.RemoveServer | backend/internal/docker/minecraft.go:161-173 | Removes the container and on request the volume; what Docker reports missing is not an error, what Docker fails on is, there or not |
| Demux.LinesOfFrames | backend/internal/docker/logs.go:34-71 | Demultiplexing an encoded frame list followed by anything yields the frames' tagged lines, then the rest's; padding is ignored and empty frames say nothing |
| Demux.FrameSays | backend/internal/docker/logs.go:42-64 | A frame says exactly the lines of its payload, in order, under "stderr" if and only if its first byte is 2, and then the rest of the stream is read |
| Demux.TruncationKeepsPrefix | backend/internal/docker/logs.go:34-58 | Cutting any byte stream anywhere yields a prefix of its lines |
| Demux.PayloadLinesRejoin | backend/internal/docker/logs.go:60-64 | Lines hold no newline and rejoin to the payload without its trailing newlines; no other list does |
| Demux.OnlyNewlines | backend/internal/docker/logs.go:64 | A payload yields the single empty line if and only if it is all newlines |
| Demux.HeaderSize | backend/internal/docker/logs.go:47 | The big-endian length of a header is the length it was written for |
| Demux.ReadFrame | backend/internal/docker/logs.go:34-58 | Takes one whole frame off the stream, or finds that no further line can come |
| Demux.DemuxLogs | backend/internal/docker/logs.go:28-72 | Emits exactly the lines of the stream, or exactly the first n when cancelled at the n-th send; always closes the stream |
| LogPump.NextKeepsInv | backend/internal/api/logs.go:60-98 | Every step accounts for every line: written, lost in a failed write, or in the channel, in order and once |
| LogPump.DeliveredInOrder | backend/internal/api/logs.go:60-98 | Under every schedule the events delivered are a prefix of the lines in order, and all of them on a normal end |
| LogPump.PageSeesPrefix | backend/internal/api/logs.go:74-98 | The browser's reading of the bytes on the wire, with a last write broken at any byte, is a prefix of the lines, and all of them on a normal end |
| LogPump.PageSeesContainerLog | backend/internal/api/logs.go:60-98 | The same from the raw bytes of the container's log to the parsed page |
| LogPump.AbandonedProducerIsBounded | backend/internal/docker/logs.go:64-70 | Once the consumer has returned nothing more is written and at most 64 minus the buffered lines are sent |
| LogPump.NeverStuck | backend/internal/docker/logs.go:26-27 | Until both have finished, the goroutine or the loop can take a step if and only if the log is not quiet; when the client has left or the loop has returned, the producer can stop even while it waits in a read |
| LogPump.RankDrops | backend/internal/api/logs.go:74-98 | Every step other than a keepalive strictly lowers a rank |
| LogPump.SchedulesEnd | backend/internal/api/logs.go:74-98 | In every schedule the steps that are not keepalives number at most the rank at its start |
| LogPump.UndisturbedDeliversAll | backend/internal/api/logs.go:60-98 | If the client stays and no write fails, the handler returns only after the log has ended and with every line on the wire, and after the log's end some step remains until it does |
| LogPump.LogRequest.TakeStep | backend/internal/api/logs.go:60-98 | The goroutine's turn, or one round of the select loop, on the channel and the response |
| LogPump.LogRequest.Run | backend/internal/api/logs.go:60-98 | Any schedule on the mutable objects ends where the model says |
| Json.MarshalRoundTrip | backend/internal/docker/logs.go:12-17 | A reader of RFC 8259 objects that finds "stream" and "text" by name, in any order and with any space, gets the line back from what is written, whatever characters it holds |
| Json.Marshal | backend/internal/api/logs.go:80-84 | The payload holds no control character, so no line break |
| Json.MarshalHasNoMarkup | backend/internal/api/logs.go:80-84 | Nor does it hold any of the characters that Go escapes for HTML and JavaScript |
| Sse.ReceivesExactlyTheEvents | backend/internal/api/logs.go:84-93 | Decoding the bytes and parsing them by sections 9.2.5 and 9.2.6 of the WHATWG HTML standard gives exactly the payloads, whatever keepalives come between |
| Sse.BrokenStreamLosesOnlyTheTail | backend/internal/api/logs.go:84-93 | A stream cut at any byte, inside a character or not, still parses to a prefix of the payloads |
| Utf8.ByteLengthCountsBytes | backend/internal/store/models.go:135 | The length of a name is the number of bytes of its UTF-8 form |
| Utf8.RoundTrip | backend/internal/api/logs.go:84 | The UTF-8 decoder of the WHATWG Encoding standard reads back every string that was written |
| Utf8.BrokenStream | backend/internal/api/logs.go:84 | However many bytes get through, they read as the first characters and at most one replacement character |
| Sse.ParsedIsWhatWasSent | backend/internal/api/logs.go:80-84 | The page's reading of each event is the line that was sent |
| MemoryLimit.ParseSize | backend/internal/docker/minecraft.go:317-338 | The imperative parser computes the wrapped product of number and unit |
| MemoryLimit.DeriveMemoryLimit | backend/internal/docker/minecraft.go:308-314 | Zero for an unparsable or zero size, otherwise the wrapped sum with 2^30 |
| MemoryLimit.BuildResourcesMemory | backend/internal/docker/minecraft.go:295-338 | An explicit cap is never replaced; otherwise the cap is congruent to heap plus 2^30 modulo 2^64, and absent if and only if the heap does not parse or it or that sum is 0 modulo 2^64 |
| MemoryLimit.LimitIsHeapPlusHeadroom | backend/internal/docker/minecraft.go:303-314 | For a positive number the limit is heap plus 2^30, and above the heap, if and only if n times the unit is at most 2^63-1-2^30 |
| MemoryLimit.UncappedExactlyWhen | backend/internal/docker/minecraft.go:308-314 | The limit is 0 exactly on a parse error or when the wrapped product is 0 or -2^30 |
| MemoryLimit.UncappedResidues | backend/internal/docker/minecraft.go:317-338 | The same as congruences on the number, per suffix |
| MemoryLimit.UnitsAgree | backend/internal/docker/minecraft.go:316-338 | nG, 1024n M and 1024^2 n K parse equal even when the product wraps |
| MemoryLimit.CaseIsIgnored | backend/internal/docker/minecraft.go:318 | Upper-casing a size first makes no difference |
| MemoryLimit.SuffixesMean | backend/internal/docker/minecraft.go:317-338 | G, M and K in either case multiply a number by 2^30, 2^20 and 2^10, with any space around number and suffix |
| MemoryLimit.PlainNumberMeansBytes | backend/internal/docker/minecraft.go:317-338 | A number without a suffix is a number of bytes |
| Decimal.ParseFormatInt | backend/internal/api/auth.go:108 | Printing then parsing gives the number back exactly when it fits 64 bits |
| Decimal.ParseIntReads | backend/internal/api/auth.go:108 | Digits with or without a sign are read as their number if and only if it fits 64 bits |
| Decimal.ParseIntAccepts | backend/internal/api/auth.go:108 | Nothing but an optional sign and at least one digit is a number |
| Base64.RoundTrip | backend/internal/api/auth.go:49 | Decoding undoes encoding in unpadded base64url (section 5 of RFC 4648), for every byte string |
| Base64.Alphabet | backend/internal/api/auth.go:49 | The alphabet of base64url |
| Base64.Vectors | backend/internal/api/auth.go:49 | Vectors of section 10 of RFC 4648, without padding |
| Session.Response.IssueSession | backend/internal/api/auth.go:46-62 | Sets the cookie to the signed token of the user and the expiry thirty days on |
| Session.IssuedTokenParses | backend/internal/api/auth.go:85-113 | An issued token parses to its user if and only if the ID has no bar and the expiry has not passed |
| Session.AcceptsExactlyGoodCookies | backend/internal/api/auth.go:85-113 | For every signer into hexadecimal, every cookie and time: the answer is a user if and only if the cookie decodes to that user, an unexpired number and their signature, joined by bars |
| Session.HexEncodingIsHex | backend/internal/api/auth.go:77-82 | The hexadecimal form of any keyed hash is an admissible signature |
| Session.TokensAreDistinct | backend/internal/api/auth.go:46-49 | Distinct pairs of user and expiry give distinct tokens, for any signer |
| Environment.BuildEnv | backend/internal/docker/minecraft.go:244-284 | For every map iteration order the loop lists the merged variables without empty values |
| Environment.Merge | backend/internal/docker/minecraft.go:272-274 | In any visiting order the extra variables win |
| Environment.ExtraWins | backend/internal/docker/minecraft.go:272-283 | A variable is seen with its extra value if there is one, not at all if that is empty, and otherwise as computed |
| Environment.CommonEnvironment | backend/internal/docker/minecraft.go:244-284 | Every container sees the accepted licence, no remote console, its heap if one is set, its name, and no variable that nobody asked for |
| Environment.EnvironmentReadsBack | backend/internal/docker/minecraft.go:276-283 | One entry per variable, and cutting at the first '=' gives the variables back if and only if no name holds an '=' |
| Environment.AdmittedEnvironment | backend/internal/api/servers.go:345-367 | For every admitted request VERSION is set exactly without a modpack, TYPE matches provider or loader, EULA, ENABLE_RCON, MEMORY, MOTD and the modpack variables are those of the record and there are no others, and every entry reads back |

## Left out

- AdminRace.AlwaysAnAdmin: holds only when demotions and deletions do not overlap from user lookup to final write, which
  AdminRace.AdminSurvivesExactlyWithoutOverlap proves to be the exact limit. Authentication before the first statement is
  one condition on when a request may begin, so an actor demoted meanwhile is covered.
- DockerHosts.Client.CreateServer: creates a container with its name, port, volume and running flag; its environment and
  memory cap are modelled in Environment and MemoryLimit, and its image, labels and restart policy not at all, since no
  later step reads them.
- MemoryLimit.CaseIsIgnored: upper-casing is modelled on ASCII letters; no other character turns into a digit, a sign, a
  unit or a space.
- Json.MarshalRoundTrip: the text is already decoded to characters; invalid UTF-8 in a log line becomes whatever Go's
  conversion makes of it (LogPump.PageSeesContainerLog).
- CascadeRace.CascadeDropsExactlyLatecomers: the deletion's checks before its count do not touch servers and are not
  steps of that model; AdminRace interleaves them.
- Several requests at once on one server: the update rewrites the mutable columns from a snapshot, so the container
  invariant is stated for serial handlers and for at most one request per server; world durability is stated for every
  interleaving.
- PerServer.MoveKeepsSound: row changes by other requests are those that keep every ID and port, as renames and changes
  of owner do; rows lost to the cascade of an account deletion are the subject of CascadeRace.
- Failures of database reads and of inserts other than constraint violations: they end a request with an error before it
  changes anything; the interleaved models cover them as abandoned requests.
- Malformed request bodies, reply bodies and live container state in replies.
- How passwords are hashed and compared, login, logout and cookie flags.
- CPU limits as NanoCPUs: a floating-point conversion. The limit itself is carried as a real number.
- Health, exit codes and log tail length: they do not decide any modelled step.
- Creation, update and activity timestamps, and listing in their order.
- `FindByServerID`, idle reaping and reconciliation: nothing calls them in a request.
- Event stream features the handler never uses: event names, IDs, retry and a byte order mark; and escapes of surrogate
  pairs when reading JSON.
- HTTP routing, CORS, middleware, configuration loading, the frontend and the scripts.
