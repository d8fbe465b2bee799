# Container reconciliation agent: a verified model

The agent on an edge device keeps the containers of a device in line with a target
state. A round plans an ordered list of steps from the remembered state (`calculateSteps`)
and executes them one by one, continuing past failures (`applyTargetState`, `executeStep`).
A sync rebuilds the remembered state from Docker (`syncStateFromDocker`); it is not part of
every round: a new target and the periodic tick go straight to `applyTargetState`
(agent/src/containers/container-manager.ts:534 and :1133). The convergence theorems need a
sync before each round; `NoDuplicatesEver` and `BoundedDownloads` also cover rounds that keep
the remembered state, which the model writes as a sync whose listing fails.

This project models that
engine together with the state machines and parsers around it, and proves what they
keep over whole runs. All paths below are relative to the repository.

## How the model is laid out

| files | what they hold |
|---|---|
| `Text`, `Serialised`, `Types` | strings of the runtime, sorting and `JSON.stringify`, the data model |
| `StateHelpers`, `Docker`, `DockerSync` | the in-memory state, the Docker side and its manager, the sync |
| `Planner`, `PlannerLoops` | the plan as a function, and the loops that compute it |
| `Retry`, `Executor` | the retry table; executing steps, rounds, the container manager |
| `Isolation`, `NoDuplicates` | what a step leaves alone; at most one container per service |
| `PlanFacts`, `NetworkPlanning`, `Replanning`, `RoundFacts` | the shape of a plan, networks and volumes, planning twice, networks at a start |
| `RoundTrip` | printing a service into a container and reading it back |
| `Outcomes`, `Readiness`, `OneRound`, `Convergence` | from the steps of one service to the convergence theorems |
| `LostNetwork`, `FailedStart` | a ready device on which a network has vanished; a start that fails after the create |
| `Pulls` | which image pulls the retry table gates, over whole runs of the agent |
| `HealthProbes`, `Locks`, `LogFrames`, `Incidents`, `ResourceNames`, `Versions`, `SemVer` | the supporting state machines and parsers |

Code that changes things step by step is a class whose methods, or a method whose
loops, are proved equal to a function of the old state; the theorems are about those
functions. A `World` holds the current and the target state, Docker, the retry table
and the clock. Docker is a map of fresh container ids to records with unique names,
plus networks, volumes, images and a count of pulls. What chance decides about a step
(which calls fail, how many pulls in a row, which networks cannot be joined, what the
image brings, how long it takes) is one `Luck` record per step; a theorem that holds
"whatever fails" holds for every such record, and `Calm` says that Docker refuses only
what the modelled calls make it refuse ("Left out" names what else it refuses).

## Main results

* Convergence (`Convergence.TwoRounds`, `Convergence.FourRounds`). From any sane set of
  running, paused and exited containers, at most one per service, two calm rounds reach
  a canonical target whose services are all wanted running, and nothing is planned any
  more. For targets that mix running and paused services four rounds do. Behind it is a
  distance of at most 4 that falls in every round from every ready world (`RankFalls`): the
  rank of the container or, for a service about to be started without all of its networks, 2
  if it is wanted running and 4 if paused (`FreshRank`). The rank is zero everywhere exactly
  when nothing is planned (`NothingPlanned`).
  Docker also refuses to start a container whose host port another one holds. That is not
  modelled, and with it two rounds need not do. Say a paused container that holds port 80 is
  wanted running on 81, and a new service wants 80: the first round only resumes the paused
  one, so the new service cannot start; if the next listing puts the new one first, its
  second start comes before the other is replaced; only a third round settles both.
* No duplicates (`NoDuplicates.NoDuplicatesEver`). After every step of every round, under
  any failures, with targets that change and agents that restart between rounds, each
  (app id, service id) has at most one container.
* Minimal disturbance (`Isolation.MinimalDisturbance`, `RoundFacts.MatchingUnchanged`).
* Bounded downloads (`Pulls.BoundedDownloads`): over any number of rounds with changing
  targets and restarts the retry manager lets at most max(1, maxRetries) downloads of an
  image through that keeps failing, spaced by the backoff.
* Networks and volumes are planned exactly and in a safe order (`NetworkPlanning.PlanExact`),
  and which networks a start finds (`RoundFacts.StartHasNetworks`, `RestartHasNetworks`).
* What the serialised comparisons decide, and the create/read-back round trip with its
  exact conditions (`Serialised`, `RoundTrip`).

Some expectations that the code or its comments suggest hold only in part. Each has its
exact condition and a concrete case:

* Planning twice without executing may reorder the creations, because the comparison sorts
  the target's lists in place: the plan is the same exactly if each compared service already
  introduces its new names in sorted order (`Replanning.PlanTwice`, `PlanTwiceReorders`).
* A service's steps depend on more than its own records: for an absent service with a blocked
  image it matters whether another service of its app is current (`PlanFacts.GroupDepends`,
  `NeighbourDecides`).
* A created container is judged up to date only if its configuration can be read back
  (`RoundTrip.CreateReadBack`). Two mappings of one container port, or ports in the host's
  network, lead to a replacement in every round (`SharedPortNeverSettles`,
  `HostPortsNeverSettle`).
* A container is started with all of its networks only if those that current services of the
  app already list exist (`RoundFacts.StartHasNetworks`); an exited container may list one
  that is gone (`LostNetwork.StartsWithoutNetwork`).
* A failed start is not always made up for. It leaves a container that was created and never
  started, and a sync reads it as running. The next calm round starts the service exactly if
  it is wanted running and has a port, a network other than its mode, or something else that
  cannot be read back; a service with an image and nothing more stays down
  (`FailedStart.RepairedIff`, `BareStaysDown`).
* The bound on retries holds of `downloadImage` steps. A start that finds its image absent
  pulls up to three times without asking. With a blocked image a service is still started
  exactly if its app is new and it is wanted running, or it is replaced, and a replacement
  removes the working container first (`Pulls.BlockedStarts`, `BlockedRemoves`, `PlannedStartPulls`,
  `StuckPullsThrice`).
* A lock can be taken again exactly if no container is left that will never be removed
  (`Locks.LockTakeable`). A failing stop leaves one, and so does a hold that outlasts the
  container's command, `sleep 300`: the stop then answers 304, which the release treats as
  an error, so the removal is never tried (`FailedReleaseDooms`, `HeldTooLong`).
* The alert cooldown fails exactly if an event within the first hour reaches an incident whose
  last alert is noted at time zero (`Incidents.AlertsSpacedIff`, `ZeroClock`).
* `compareVersions` is documented as comparing semantic versions. It does for releases; where
  it does for pre-releases is stated in `SemVer` (`MixedAgree`, `PreReleasesAgree`). An update goes back from a release M.m.0 to its pre-releases without force,
  and not on from 1.0.0-rc.1 to 1.0.0 (`BackToPreRelease`, `OnToRelease`, `ReleaseCandidate`).
* The volume-name expression is not anchored, unlike the one for networks: the parts of a
  name print back to it exactly if it was generated for a non-empty name without white space,
  and `01_a` is read as belonging to app 1 (`ResourceNames.ReadAsItself`,
  `UnanchoredVolume`, `LeadingZero`).

## Model

| member | source | states |
|---|---|---|
| Serialised.ListsDifferIff | agent/src/containers/reconciliation-planner.ts:378-401 | ports, volumes and networks count as changed exactly when their multisets differ |
| Serialised.EnvDiffersIff | agent/src/containers/reconciliation-planner.ts:382-391 | the environment counts as changed exactly when the target's variables are not all in the current one with equal values |
| PlannerLoops.ReconcileNetworksForApp | agent/src/containers/reconciliation-planner.ts:46-86 | the loops over two sets give the creations of the target's and not current networks, then the removals of the converse |
| PlannerLoops.ReconcileVolumesForApp | agent/src/containers/reconciliation-planner.ts:91-141 | the same for named volumes, bind mounts aside |
| PlannerLoops.PlanStepsToRemoveApp | agent/src/containers/reconciliation-planner.ts:146-167 | the loop computes the specified removal steps |
| PlannerLoops.PlanStepsToAddApp | agent/src/containers/reconciliation-planner.ts:172-201 | the loop computes the specified steps of a new app, without a retry answer |
| PlannerLoops.Compare | agent/src/containers/reconciliation-planner.ts:376-424 | the comparison answers the specified relation and leaves both records with sorted lists |
| PlannerLoops.PlanService | agent/src/containers/reconciliation-planner.ts:218-485 | one turn of the loop gives the service's own steps and says whether the records were sorted |
| PlannerLoops.PlanStepsToUpdateApp | agent/src/containers/reconciliation-planner.ts:203-488 | the loop over all ids computes the specified steps and exactly the specified in-place sorting |
| PlannerLoops.PlanApp | agent/src/containers/container-manager.ts:749-868 | filtering the reconciled steps by action gives creations, container steps and removals in that order |
| PlannerLoops.CalculateSteps | agent/src/containers/container-manager.ts:738-871 | the plan of all apps, and both states afterwards |
| PlanFacts.ServiceStepsOwn | agent/src/containers/reconciliation-planner.ts:218-485 | every step planned for a service concerns its own container and its own target record |
| PlanFacts.PlanSplit | agent/src/containers/reconciliation-planner.ts:218-485 | a service's container steps stand together in the plan, nothing else works on it, and they come from its two records, its image's retry answer and whether its app is current |
| PlanFacts.GroupDepends | agent/src/containers/reconciliation-planner.ts:218-262 | two states that agree on a service's records and retry answer give it the same steps exactly if they agree on whether its app is current, or that does not matter: it is current itself, untargeted, not wanted running, or not blocked |
| PlanFacts.NeighbourDecides | agent/src/containers/reconciliation-planner.ts:239-262 | one absent service with a blocked image: no steps beside a current neighbour, a download and a start alone |
| PlanFacts.PlanStarts | agent/src/containers/reconciliation-planner.ts:236-484 | exactly when a plan starts a target service: an addition asks the retry manager only in a known app, a replacement never |
| PlanFacts.PlanRemoves | agent/src/containers/reconciliation-planner.ts:455-484 | exactly when a plan removes a target service's container: on a replacement, whatever the retry answer |
| PlanFacts.MatchingUndisturbed | agent/src/containers/reconciliation-planner.ts:266-485 | a service whose state, image and compared configuration match and that has not stopped gets no container step |
| NetworkPlanning.PlanArises | agent/src/containers/reconciliation-planner.ts:218-485 | every container step of a plan is made from a current and a target record of its own app |
| NetworkPlanning.PlanExact | agent/src/containers/container-manager.ts:749-868 | create and remove steps are the two set differences, nothing a target service names is removed, each comes once, and phases never go back within an app |
| Replanning.PlanTwice | agent/src/containers/reconciliation-planner.ts:376-401 | planning again gives the same multiset of steps, and the same plan exactly when each compared target service introduces its new networks and volumes in the sorted order of its lists |
| Replanning.PlanSettles | agent/src/containers/reconciliation-planner.ts:376-401 | from the second plan on every further plan is the same |
| Replanning.PlanTwiceReorders | agent/src/containers/reconciliation-planner.ts:46-86 | a concrete pair of states whose second plan differs from the first |
| StateHelpers.MarkErrorSame | agent/src/containers/state-helpers.ts:19-72 | marking an error changes nothing but the mark |
| StateHelpers.LookupRemove | agent/src/containers/state-helpers.ts:99-111 | removing a service hides that service and no other |
| StateHelpers.LookupAdd | agent/src/containers/state-helpers.ts:113-134 | an added service is found with its new container id unless the id was taken; other lookups stay |
| StateHelpers.LookupChange | agent/src/containers/state-helpers.ts:136-155 | changing one service leaves every other lookup as it was |
| Docker.DockerManager.StopContainer | agent/src/containers/docker-manager.ts:801-834 | stops an active container, succeeds on one that is not running, fails on a missing one |
| Docker.DockerManager.PauseContainer | agent/src/containers/docker-manager.ts:839-862 | pauses only a running container |
| Docker.DockerManager.UnpauseContainer | agent/src/containers/docker-manager.ts:867-890 | unpauses only a paused container |
| Docker.DockerManager.RemoveContainer | agent/src/containers/docker-manager.ts:895-928 | a missing container counts as removed, an active one is not removed |
| Docker.DockerManager.RemoveNetwork | agent/src/containers/docker-manager.ts:1379-1396 | a network that an active container uses is kept |
| Docker.DockerManager.PullImageWithRetry | agent/src/containers/docker-manager.ts:454-499 | at most three pulls in a row, one more than fail, all counted |
| Docker.DockerManager.StartContainer | agent/src/containers/docker-manager.ts:554-606 | reuses the container of that name, else pulls an absent image and launches |
| Docker.DockerManager.LaunchContainer | agent/src/containers/docker-manager.ts:607-779 | the record created, started and connected, port by port and network by network |
| DockerSync.SyncStateFromDocker | agent/src/containers/docker-state-sync.ts:59-177 | the loop over listed containers builds the specified state |
| DockerSync.SyncFinds | agent/src/containers/docker-state-sync.ts:65-173 | a listed container is found by its ids with what is read of it, and nothing else is found |
| DockerSync.SyncShape | agent/src/containers/docker-state-sync.ts:65-173 | synced apps are keyed by their ids, not empty, and hold each service once, backed by a container |
| Retry.RetryManager.constructor | agent/src/containers/retry-manager.ts:120-150 | loading restores exactly the table that the last run stored |
| Retry.RetryManager.ShouldRetry | agent/src/containers/retry-manager.ts:193-221 | refuses a terminal, exhausted or waiting key and nothing else |
| Retry.RetryManager.RecordFailure | agent/src/containers/retry-manager.ts:223-301 | count, backoff and terminal mark, with the database kept equal |
| Retry.RetryManager.RecordSuccess | agent/src/containers/retry-manager.ts:306-324 | forgets the key in memory and in the database |
| Retry.BoundedRetries | agent/src/containers/retry-manager.ts:193-301 | without a record, at most max(1, maxRetries) gated pulls over any restarts, spaced by 0.85 of the intervals; not terminal implies count below the limit |
| Retry.TerminalAbsorbing | agent/src/containers/retry-manager.ts:193-301 | a terminal key is never pulled or cleared by later acts or restarts |
| Pulls.PullsCounted | agent/src/containers/step-executor.ts:93-131 | every pull a step makes: downloads ask the retry table, starts do not |
| Pulls.DownloadIsTry | agent/src/containers/step-executor.ts:93-131 | a failing download is an act of the bounded runs, with the same table and the same pulls |
| Pulls.BlockedStarts | agent/src/containers/reconciliation-planner.ts:172-262 | with its image blocked a service is started exactly if its app is new and it is wanted running, or it is replaced |
| Pulls.BlockedRemoves | agent/src/containers/reconciliation-planner.ts:455-484 | a replacement removes the working container although its new image is blocked |
| Pulls.PlannedStartPulls | agent/src/containers/step-executor.ts:228-262 | the pulls of a planned start in the world in which its turn comes: some exactly if no container has the name and the image is absent |
| Pulls.TerminalStillPulled | agent/src/containers/reconciliation-planner.ts:172-201 | in either case a service whose image key is terminal has its start in the plan, and in that very execution the start pulls as it would without the retry table |
| Pulls.StuckPullsThrice | agent/src/containers/docker-manager.ts:454-499 | a concrete device that pulls an image with a terminal key three times in one round |
| Pulls.BoundedDownloads | agent/src/containers/step-executor.ts:93-131 | over all rounds, with changing targets and restarts, at most max(1, maxRetries) downloads of a failing image are let through, each after 0.85 of its interval |
| Executor.ContainerManager.ExecuteStep | agent/src/containers/step-executor.ts:86-271 | a step's effect on Docker, on both states, on the retry table and on the clock |
| Executor.ContainerManager.SyncCurrentState | agent/src/containers/container-manager.ts:568-587 | a failing listing leaves the old state |
| Executor.ContainerManager.ApplyTargetState | agent/src/containers/container-manager.ts:600-728 | plans, executes every step past failures, collects exactly the failed steps, and does nothing while another call runs |
| Executor.EffectKeepsNames | agent/src/containers/docker-manager.ts:566-592 | container names stay unique through every step |
| Executor.PlanCongruence | agent/src/containers/reconciliation-planner.ts:239-262 | the retry manager enters a plan through its answers only |
| Isolation.NameDecides | agent/src/containers/docker-manager.ts:567-567 | a container that carries a service's name is that service's |
| Isolation.StartGentle | agent/src/containers/docker-manager.ts:554-779 | a start touches containers of its own service only, whatever fails |
| Isolation.MinimalDisturbance | agent/src/containers/step-executor.ts:86-271 | executing steps that avoid a service leaves its containers and, marks aside, its record unchanged, whatever fails |
| NetworkPlanning.ContainerStepsArise | agent/src/containers/reconciliation-planner.ts:146-488 | all container steps of an app are of that app and made from its records |
| RoundFacts.PlanSane | agent/src/containers/reconciliation-planner.ts:203-488 | from a synced state the planner names only ids that belong to the step's service |
| RoundFacts.MatchingUnchanged | agent/src/containers/container-manager.ts:600-728 | a matching service goes through a whole round unchanged, whatever fails |
| RoundFacts.NetworksAtStep | agent/src/containers/container-manager.ts:749-868 | at a container step the app's networks are those that were there and those that had to be created |
| RoundFacts.StartHasNetworks | agent/src/containers/container-manager.ts:749-868 | a start finds all its networks exactly when those already named by current services existed |
| RoundFacts.RestartHasNetworks | agent/src/containers/step-executor.ts:168-220 | a restart uses the synced record, and its networks are present exactly when they were at the start |
| RoundTrip.PortsReadBack | agent/src/containers/docker-manager.ts:607-640 | published ports are read back exactly when every mapping is two canonical decimals and no two share a container port |
| RoundTrip.EnvReadBack | agent/src/containers/docker-state-sync.ts:65-173 | an environment survives printing, the image's variables and reading exactly when its keys are plain |
| RoundTrip.VolumesReadBack | agent/src/containers/docker-state-sync.ts:65-173 | volumes are read back exactly when each has two parts |
| RoundTrip.OwnNetworksOf | agent/src/containers/docker-state-sync.ts:65-173 | the mode's network, if it is the app's own, and the joined networks are read back without their prefix, in order |
| RoundTrip.NetworksReadBack | agent/src/containers/docker-manager.ts:740-779 | networks are read back exactly when they are distinct, can be joined in the service's mode, and include the one that is the mode |
| RoundTrip.CreateReadBack | agent/src/containers/docker-manager.ts:607-779 | a started service keeps its ids and names, and needs no update exactly when its ports, variables, volumes, networks, mode and restart policy are readable |
| RoundTrip.SharedPortNeverSettles | agent/src/containers/docker-manager.ts:607-640 | 8080:80 with 8081:80 is judged in need of an update for ever |
| RoundTrip.HostPortsNeverSettle | agent/src/containers/docker-manager.ts:607-640 | ports of a service in the host's network are never published, so it needs an update for ever |
| NoDuplicates.NoDuplicatesInRound | agent/src/containers/container-manager.ts:653-675 | after every prefix of a round's plan each service has at most one container, whatever failed |
| NoDuplicates.NoDuplicatesEver | agent/src/containers/docker-manager.ts:566-592 | the same over any number of rounds, with targets that change and agents that restart, as long as names stay fixed per service |
| Outcomes.PauseGone | agent/src/containers/reconciliation-planner.ts:358-372 | pausing the id that a restart has removed fails and changes nothing |
| Outcomes.RestartLeaves | agent/src/containers/step-executor.ts:168-220 | a restart replaces an exited container by a new one made from the remembered record |
| Outcomes.GroupOutcome | agent/src/containers/reconciliation-planner.ts:218-485 | what a service's own steps make of its container, in every case |
| OneRound.RoundOutcome | agent/src/containers/container-manager.ts:600-728 | what a calm round makes of a service's container, with the networks it finds |
| Convergence.RoundReady | agent/src/containers/container-manager.ts:600-728 | a calm round leaves a world the next can start from, without exited containers |
| Convergence.RealisesIff | agent/src/containers/reconciliation-planner.ts:376-424 | the planner sees no difference exactly when the container has the target's image and configuration |
| Convergence.FreshRealises | agent/src/containers/docker-manager.ts:607-779 | a fresh start realises a canonical target exactly when its networks are there |
| Convergence.FreshRank | agent/src/containers/docker-manager.ts:740-779 | a start with its networks there settles the service; otherwise the service was two rounds away and is one round away now |
| Convergence.RankFalls | agent/src/containers/reconciliation-planner.ts:266-484 | from every ready world a calm round lowers the distance, at most 4, of every unsettled service, and leaves the container of every settled one |
| Convergence.NothingPlanned | agent/src/containers/container-manager.ts:738-871 | the plan is empty exactly when every rank is zero |
| Convergence.TwoRounds | agent/src/containers/container-manager.ts:600-728 | two rounds leave exactly the target's services running with the target's configuration, and the third plan is empty |
| Convergence.FourRounds | agent/src/containers/container-manager.ts:600-728 | four rounds settle every target of running and paused services |
| Convergence.FreshDevice | agent/src/containers/container-manager.ts:358-385 | a device without containers is ready for every canonical target |
| LostNetwork.VanishedReady | agent/src/containers/container-manager.ts:600-728 | a device with an exited container that lists a vanished network is ready |
| LostNetwork.StartsWithoutNetwork | agent/src/containers/container-manager.ts:749-868 | on it the plan starts a new service and restarts the old one, and when their turns come the network they name is not there |
| LostNetwork.StillStale | agent/src/containers/container-manager.ts:600-728 | and after the round the new service needs an update |
| FailedStart.StartFails | agent/src/containers/docker-manager.ts:736-747 | a start whose create succeeds and whose start fails leaves the service a container that was never started |
| FailedStart.UnstartedStale | agent/src/containers/docker-state-sync.ts:43-173 | such a container is judged in need of an update exactly if the target has ports, networks other than its mode, or something that is never read back |
| FailedStart.RepairedIff | agent/src/containers/docker-state-sync.ts:43-57 | the next calm round starts the service exactly if it is wanted running and that is so; otherwise it leaves the container as it is |
| FailedStart.BareStaysDown | agent/src/containers/container-manager.ts:600-728 | a concrete device on which a calm round leaves such a container of a service that is wanted running |
| HealthProbes.HealthCheckManager.BeginMonitoring | agent/src/containers/health-check-manager.ts:50-82 | fresh probes with their timers, started at once without a startup probe |
| HealthProbes.HealthCheckManager.EndMonitoring | agent/src/containers/health-check-manager.ts:87-101 | clears the probes, their timers and the health record |
| HealthProbes.HealthCheckManager.TimerFires | agent/src/containers/health-check-manager.ts:167-184 | starts a check, or reschedules it before startup |
| HealthProbes.HealthCheckManager.Process | agent/src/containers/health-check-manager.ts:211-247 | counters and status after one result |
| HealthProbes.HealthCheckManager.Notify | agent/src/containers/health-check-manager.ts:252-306 | the health record and the event of a status change |
| HealthProbes.HealthCheckManager.CheckCompletes | agent/src/containers/health-check-manager.ts:184-206 | a result is processed, a listener may stop monitoring, then the next check is scheduled |
| HealthProbes.CountersAreRuns | agent/src/containers/health-check-manager.ts:211-247 | the counters are the trailing run lengths of the history |
| HealthProbes.Hysteresis | agent/src/containers/health-check-manager.ts:211-247 | healthy exactly if the last S straight successes end later than the last F straight failures; unhealthy conversely; unknown if neither occurred |
| HealthProbes.ProbeRefinesHistory | agent/src/containers/health-check-manager.ts:159-206 | in every run a monitored probe is what the results since its start fold to |
| HealthProbes.AlarmsBounded | agent/src/containers/health-check-manager.ts:211-247 | n results turn a probe unhealthy at most floor((n+S)/(F+S)) times |
| HealthProbes.EventsBounded | agent/src/containers/health-check-manager.ts:252-306 | the same for emitted failures in every run, and readiness values alternate starting with true |
| HealthProbes.StartedStays | agent/src/containers/health-check-manager.ts:252-306 | while monitored, started does not go back, and turns true only with a healthy startup probe |
| HealthProbes.StartupFirst | agent/src/containers/health-check-manager.ts:167-184 | no liveness or readiness check is started before startup has passed |
| HealthProbes.TimerDiscipline | agent/src/containers/health-check-manager.ts:311-321 | over all interleavings each monitored probe has exactly one timer or check in flight, and an unmonitored one none, its late result changing nothing |
| Locks.MutualExclusion | agent/src/containers/volume-manager.ts:297-378 | at most one agent is between acquiring and releasing a lock, whatever fails |
| Locks.LockTakeable | agent/src/containers/volume-manager.ts:297-378 | in every reachable state some continuation makes an agent hold the lock exactly if no container is left under its name that will never be removed |
| Locks.FailedReleaseDooms | agent/src/containers/volume-manager.ts:361-378 | a run of five acts in which a failing stop leaves such a container |
| Locks.HeldTooLong | agent/src/containers/volume-manager.ts:303-378 | a lock held until the container's command has ended is never released, whatever Docker answers |
| Locks.LockNames | agent/src/containers/network-manager.ts:21-95 | different lock names never exclude each other |
| Locks.Acquire | agent/src/containers/volume-manager.ts:297-353 | at most ceil(timeout/100) tries, sleeps within 1000 ms of the timeout, and what each outcome means |
| LogFrames.LengthRoundTrip | agent/src/api/v1.ts:288-288 | a 32-bit length is read back |
| LogFrames.ParseMuxedLogs | agent/src/api/v1.ts:283-299 | the nested loops compute the specified lines of any buffer |
| LogFrames.FramesRoundTrip | agent/src/api/v1.ts:283-299 | encoded frames and a strict prefix of one more give exactly the complete frames' lines |
| ResourceNames.VolumeRoundTrip | agent/src/containers/volume.ts:112-138 | taking a volume name apart inverts printing exactly for non-empty names without white space |
| ResourceNames.NetworkRoundTrip | agent/src/containers/network.ts:36-72 | the same for networks named by app id, with and without a known id |
| ResourceNames.NoSharing | agent/src/containers/network.ts:313-315 | different (app id, name) pairs have different Docker names |
| ResourceNames.ReadAsItself | agent/src/containers/volume.ts:112-138 | the parts of a volume name print back to it exactly if it was generated for a non-empty name without white space |
| ResourceNames.UnanchoredVolume | agent/src/containers/volume.ts:120-120 | a name that only ends like a generated one is taken apart too |
| ResourceNames.LeadingZero | agent/src/containers/volume.ts:119-130 | a leading zero is read away: another name is taken for the same volume |
| Incidents.IncidentCorrelator.Process | agent/src/anomaly/incident-correlator.ts:44-96 | an event creates or updates its incident and may raise an alert |
| Incidents.IncidentCorrelator.Promote | agent/src/anomaly/incident-correlator.ts:98-121 | an alert is raised and noted exactly when due |
| Incidents.IncidentCorrelator.CheckSilentResolutions | agent/src/anomaly/incident-correlator.ts:136-142 | resolves exactly the incidents silent for half an hour |
| Incidents.IncidentCorrelator.ResolveIncident | agent/src/db/models/anomaly-incident.model.ts:89-97 | resolves one incident and says whether it changed |
| Incidents.OneLiveEver | agent/src/anomaly/incident-correlator.ts:44-96 | at most one open or active incident per fingerprint in every run |
| Incidents.IncidentIsFold | agent/src/anomaly/incident-correlator.ts:22-96 | count, maxima, severity, times and status are those of the incident's events |
| Incidents.AlertsSpacedIff | agent/src/anomaly/incident-correlator.ts:98-121 | an incident's alerts are an hour apart in a run exactly if no event within the first hour reaches an incident whose noted last alert is zero |
| Incidents.AlertsPaced | agent/src/anomaly/incident-correlator.ts:98-121 | with a clock that never reads zero an incident's alerts are an hour apart, and none is raised below the threshold |
| Incidents.ZeroClock | agent/src/anomaly/incident-correlator.ts:108-108 | at time zero the cooldown does not hold |
| Versions.ParseIff | agent/src/updater.ts:80-82 | the format check accepts exactly the printed versions, and its groups are their parts |
| Versions.CompareVersions | agent/src/updater.ts:62-75 | the loop decides the first differing part, missing parts counting as zero |
| Versions.TotalPreorder | agent/src/updater.ts:62-75 | the order is total, reflexive and transitive |
| Versions.TrailingZeros | agent/src/updater.ts:62-75 | appending parts keeps a version equal exactly when they count as zero |
| Versions.Gate | agent/src/updater.ts:556-613 | which versions are rejected, skipped or let through |
| Versions.NeverLower | agent/src/updater.ts:576-613 | a chain of unforced updates ends no lower than it began |
| SemVer.ReleasesAgree | agent/src/updater.ts:62-75 | releases are ordered as section 11 of SemVer 2.0.0 says |
| SemVer.MixedAgree | agent/src/updater.ts:62-75 | a release and a pre-release are ordered as SemVer says exactly if major or minor differ, or the release's patch is positive and not below the other's, or it is zero, the other's positive, and a later identifier a positive number |
| SemVer.ToldApart | agent/src/updater.ts:62-75 | two pre-releases of one line are told apart exactly if their identifiers after the first differ as numbers: patch and first identifier are ignored |
| SemVer.PreReleasesAgree | agent/src/updater.ts:62-75 | two pre-releases of one line are ordered as SemVer says exactly if what SemVer first tells apart, patch, first identifier or a later one, goes the same way as the later identifiers as numbers |
| SemVer.SeriesAgree | agent/src/updater.ts:62-75 | within a series like rc.1, rc.2 the order is SemVer's unless the numbers agree up to zeros at the end |
| SemVer.BackToPreRelease | agent/src/updater.ts:556-613 | an unforced update goes back from a release to its pre-release exactly if the patch number is zero |
| SemVer.OnToRelease | agent/src/updater.ts:556-613 | and on to the release unless the patch is zero and a later identifier positive |
| SemVer.ReleaseCandidate | agent/src/updater.ts:62-75 | 1.0.0 counts as earlier than 1.0.0-rc.1, so the update goes back and not on |

## Left out

- What else Docker refuses at a create or a start: a host port that another container holds, a network mode that names an absent network or the container of another that is missing, a port mapping or restart policy it does not accept. The model starts the container in all of these cases, so the convergence theorems speak only of targets that meet none of them.
- The Docker daemon beyond the calls used: resource limits, health options, mounts that an image declares, and the configuration of an existing network.
- Targets wanted stopped, and containers that Docker calls created, dead, restarting or removing, in the convergence theorems: a stopped target never settles after a sync, and those states are read as running.
- Host, none and container network modes together with own networks or ports, and an empty restart policy: the convergence theorems ask for canonical targets; `RoundTrip.CreateReadBack` says which of these fail.
- Targets that override the agent's own labels: no theorem about reading back covers them.
- Labels that are not numbers: `parseInt` giving NaN. A container managed by the agent carries numeric ids.
- Object keys that look like integers, and `__proto__`, in environments: the runtime would order or hide them.
- Strings are sequences of characters: sorting by UTF-16 code units differs for characters outside the basic plane.
- Numbers above 2^53, and the rounding of times.
- Aliasing: the planner passes a target service object on to the current state; here records are values. Sorting in place is returned as the new states, and error marks carry no retry count.
- `updateContainer`, security validation, the image cache, authentication of pulls, logging and saving of snapshots.
- HealthProbes.HealthCheckManager.CheckCompletes: listeners may stop the container's own monitoring but do not throw; a throwing listener would be counted as a second, failing result.
- Locks.MutualExclusion: somebody removing a lock container by hand is not part of the protocol.
- Locks.Acquire: a sleep does not end before the time asked for.
- Cleaning up orphaned volumes, apart from the lock around it.
- LogFrames.ParseMuxedLogs: the UTF-8 decoder is a parameter.
- Versions.CompareVersions: which texts are numbers is a parameter, of which `SemVer` assumes what `Sensible` says; infinite parts are not modelled.
- Incidents.IncidentCorrelator.Process: identifiers are fresh by construction, and the raw event log, device names and message texts are left out.
- The database: writes succeed and a row is read back as written.
- HTTP, MQTT, the update script and its preflight, other container drivers, the command line and the user interfaces.
