# Bananagine: a verified model of its ledgers, receipts and protocols

Bananagine runs game servers as containers. Its `pulp-cell` hands out CPU and memory capacity, host
ports and overlay addresses, and must keep three independent mutable ledgers consistent across every
way out of a create, a retirement and a recreate. Around that core sit protocols whose point is to do
privileged work once: durable receipts of the fleet routes, the claim/execute/receipt/retry loop of
the host agent, the worker and template-catalog owners, the save-off/save-on bracket of the world
archive, and the recogniser of quoted rcon batches. This project models that code in Dafny and proves
what each of these is for.

The form follows the source. What the source changes in place is a class, an array or a map field
here (`CapacityTracker`, `PortPool`, `PortPoolSet`, `IpPool`, `ContainerSpec`, `CreationCore`,
`RecreateCore`, `ReceiptRoutes`, `Client`, `HostAgentEngine`, `HostAgentRuntime`, `OwnedJob`, the two
`State` owners, `StagedFile`); every method is proved to do what a specification function says, and
the theorems are about those functions, over all inputs and all runs. What the outside answers
(Docker, hooks, HTTP, the file system, clocks) is a parameter: the statements hold for every
combination of answers. Go's unspecified map order is an arbitrary choice of the next key.

## How the files fit together

| files | subject |
|---|---|
| `Text`, `Tokens`, `Ownership` | decimal numerals, separators, sorting; identity checks; tables from resources to owners |
| `Capacity`, `Ports`, `PortSafety`, `PortGrants`, `PortRoom`, `Exclusivity`, `Ips`, `Volumes` | the ledgers and the volume map, each with its own laws |
| `Docker`, `Creation`, `CreationCore`, `CreateOutcomes`, `CreateDetails`, `Rollback` | one create or retirement: specification, mutable form, endings, what is asked and answered field by field, rollback and inverse |
| `Recreate`, `RecreateRuns`, `Runs`, `Bootstrap` | replacement-first recreate; safety over whole runs; start-up |
| `Promises`, `StartCapacity`, `AddressRuns`, `RecreateRetries`, `Witnesses` | cores and bytes within budget over runs; what start-up counts; one address per container over runs; retries of a recreate among other steps; concrete cells for which statements fail |
| `Receipts`, `ReceiptRuns`, `ReceiptOutcomes` | durable receipts, step by step with crashes; when one may be stored |
| `HostAgent`, `HostAgentRuns`, `HostAgentFields`, `HostRuntime` | the assignment client, its traces, messages and identities; engine and heartbeat |
| `Worker`, `WorkerRuns`, `Catalog`, `CatalogRuns`, `CatalogLedger` | the two idempotent state owners |
| `Archive` | the snapshot bracket |
| `ExecAllow`, `Shell` | the rcon patterns and the shell's reading of them |

## What turned out to be conditional

Some statements one would expect of the code hold only under a condition. Each is proved in the
form "holds exactly when", or with a lemma that exhibits the failing case.

- A failing host-mode create restores the ports exactly when the server ID owned none before; it drops
  ports that an earlier keep-ports retirement had left with the ID (`Rollback.HostRollbackDropsEarlierPorts`;
  a cell where it does: `Witnesses.KeptPortsGetDropped`).
- A retirement frees all of a container's addresses exactly when it had at most one (`Ips.ReleaseFreesAllIff`);
  after a keep-ports retirement and an overlay create under the same ID it has two, and one of them
  leaks (`Runs.OneAddressIff`, `Runs.KeptAddressLeaks`; a cell where it does: `Witnesses.AnAddressLeaks`).
  Over runs without such retirements no address leaks (`AddressRuns.RetirementLeavesNothing`).
- Unused pools keep each port to one owner, whatever is asked of them, exactly when no port lies in two
  ranges, the fallback's included; any two pools with a common port hand it to two servers
  (`Exclusivity.ExclusiveIffDisjoint`, `Exclusivity.OverlappingPoolsShareAPort`, `Bootstrap.WarmedExclusiveIff`).
- An allocation or commit onto an ID that is already tracked breaks the running sums
  (`Capacity.AllocateBalancedIff`, `Capacity.CommitBalancedIff`).
- A recreate may adopt, destroy and record as "ready" the very container it replaces, exactly when a
  lookup by the replacement's name answers with it (`RecreateRuns.ReplacementIsOldContainerIff`).
- A recreate's digest leaves the old container out, so a replay may name another old container
  (`RecreateRuns.ReplayIgnoresOldContainer`).
- Recovery of a failed runtime cannot be reached through the host agent, whose keys hold slashes
  (`HostRuntime.HostAgentNeverRecovers`), although the comment at `pulp-cell/creation_core.go:82-86`
  speaks of every privileged provision request.
- An imported worker job is never replayed: after any run, every complete request to its key is a
  conflict, its original request included (`WorkerRuns.ImportedKeysAlwaysConflict`,
  `WorkerRuns.SnapshotForgetsRequests`); and a refused import keeps the jobs before the refused one
  (`WorkerRuns.FailedImportIsCleanIff`).
- A replayed catalog request returns the current catalog. It repeats its first answer exactly when what
  happened in between leads to the same revision and the same entries, among replaces alone exactly when
  none was newly accepted (`CatalogLedger.ReplayRepeatsIff`, `CatalogLedger.ReplayRepeatsIffNoneReplaced`).
- The expansion of volume paths is independent of the map order exactly when no expansion holds the
  placeholder again and placeholder paths that expand to one path have equal mounts, or when the server ID is
  the placeholder itself (`Volumes.OrderIndependentIff`). A placeholder path always wins over a plain path.
- The host agent's constructor refuses a bad endpoint, except that a base URL that does not parse is
  dereferenced before the parse error is looked at, which crashes (`HostAgent.New`).

## Model

| member | source | states |
|---|---|---|
| Capacity.CapacityTracker.TryAllocate | pulp-cell/capacity.go:33-49 | admits a request exactly when it fits each budget there is, in cores and in bytes with 1073741824 to the GiB, and then adds it to sums and table; otherwise changes nothing and blames CPU exactly when CPU is what does not fit |
| Capacity.CapacityTracker.Commit | pulp-cell/capacity.go:51-56 | moves an entry to its container ID, sums unchanged |
| Capacity.CapacityTracker.Release | pulp-cell/capacity.go:58-64 | takes an entry out of table and sums, or nothing if unknown |
| Capacity.TotalRemove | pulp-cell/capacity.go:58-64 | the total of the entries is any one entry plus the total of the others, whichever order they are summed in |
| Capacity.AllocateBalancedIff | pulp-cell/capacity.go:45-47 | running sums stay equal to the total of the entries exactly when the ID was new or held nothing |
| Capacity.CommitBalancedIff | pulp-cell/capacity.go:51-56 | a commit keeps the sums right exactly when the target ID was not already tracked with a share |
| Capacity.AllocateSound | pulp-cell/capacity.go:33-49 | an admitted allocation under a new ID keeps sums exact, entries non-negative and budgets respected |
| Capacity.CommitSound | pulp-cell/capacity.go:51-56 | so does a commit onto an untracked ID |
| Capacity.ReleaseSound | pulp-cell/capacity.go:58-64 | so does every release |
| Ports.ParseRangeReadsBack | pulp-cell/ports.go:66-73 | "start-end" parses to its two numbers, whatever text follows, if they are in order |
| Ports.ParsedRangeReads | pulp-cell/ports.go:66-73 | and whatever parses is two numbers of 64 bits around a dash, in order, with white space and signs as the scanner takes them |
| Ports.PortPool.Allocate | pulp-cell/ports.go:20-28 | takes the smallest free port of the range, or changes nothing when there is none |
| Ports.PortPool.ReleaseByServer | pulp-cell/ports.go:30-36 | drops exactly the server's ports, in any map order |
| Ports.PortPool.ReKey | pulp-cell/ports.go:38-44 | hands exactly one server's ports to another, in any map order |
| Ports.PortPoolSet.GetOrCreate | pulp-cell/ports.go:75-86 | finds or makes the pool of a range string; pools already there stay the same objects |
| Ports.PortPoolSet.Allocate | pulp-cell/ports.go:88-97 | a port of the named pool, or of the fallback for an empty range string |
| Ports.PortPoolSet.ReleaseByServer | pulp-cell/ports.go:99-104 | releases in the fallback and every pool |
| Ports.PortPoolSet.ReKey | pulp-cell/ports.go:106-111 | re-keys in the fallback and every pool |
| Ports.PortPoolSet.Reserve | pulp-cell/ports.go:113-121 | reserves in some pool whose range holds the port, else in the fallback |
| PortSafety.SafePortsHaveOneOwner | pulp-cell/ports.go:54-57 | with disjoint ranges, no port has two owners across pools and fallback |
| PortSafety.AllocateOwnership | pulp-cell/ports.go:88-97 | whatever the ranges, an allocation makes the server own the port it returns and changes no other ownership |
| PortSafety.AllocateHandsOutUnowned | pulp-cell/ports.go:88-97 | with disjoint ranges that port had no owner in any pool, and the pools stay safe |
| PortSafety.ReleaseOwnership | pulp-cell/ports.go:99-104 | releasing removes exactly one server's ownerships and keeps the pools safe |
| PortSafety.ReKeyOwnership | pulp-cell/ports.go:106-111 | re-keying moves exactly one server's ownerships and keeps the pools safe |
| PortSafety.ReserveOrderIndependentIff | pulp-cell/ports.go:113-121 | the map order is immaterial to a reservation exactly when no two pools cover the port, or those that do record the ID already |
| PortSafety.ReserveOwnership | pulp-cell/ports.go:113-121 | whatever the ranges, a reservation makes the server an owner of the port, adds no other owner and touches no other port |
| PortSafety.ReserveSafe | pulp-cell/ports.go:113-121 | and with disjoint ranges it keeps the pools safe |
| Exclusivity.OverlappingPoolsShareAPort | pulp-cell/ports.go:88-97 | any two unused pools that have a port in common, the fallback included, can be made to hand it to two servers |
| Exclusivity.ExclusiveIffDisjoint | pulp-cell/ports.go:54-97 | every sequence of allocations on unused pools leaves each port with one owner exactly when no port lies in two of the ranges |
| PortGrants.ReleaseUndoesIff | pulp-cell/ports.go:99-104 | releasing a server undoes additions made for it exactly when it owned no port before, up to added empty pools |
| PortGrants.ReKeyKeepsExtension | pulp-cell/ports.go:106-111 | additions made for a logical ID are additions of the container after the re-keying |
| PortGrants.AllocateEachFirstFit | pulp-cell/creation_core.go:284-293 | a granted list has one first-fit port per specification, each in its own range and owned by the server |
| PortGrants.AllocateEachOwnership | pulp-cell/creation_core.go:284-293 | whatever the ranges, exactly the granted ports are gained, and by the server |
| PortGrants.AllocateEachDistinct | pulp-cell/creation_core.go:284-293 | with disjoint ranges the granted ports are pairwise different, were owned by nobody, and are all that changed |
| PortGrants.AllocateEachStops | pulp-cell/creation_core.go:285-290 | after the first failure no further range is tried |
| PortRoom.GrantedIff | pulp-cell/creation_core.go:284-293 | the list is granted exactly when the pool of each range string has a free port for every specification that names it; then each pool has that much less room |
| Ips.IncIP | pulp-cell/ips.go:70-77 | the carry loop over the byte array computes the successor address in place |
| Ips.IncrementedAddsOne | pulp-cell/ips.go:70-77 | the successor is the big-endian value plus one, modulo 256 to the length |
| Ips.ValueInjective | pulp-cell/ips.go:70-77 | different byte strings of one length have different values |
| Ips.DottedInjective | pulp-cell/ips.go:32 | dotted decimal names determine the address |
| Ips.CandidatesDistinct | pulp-cell/ips.go:28-43 | the cyclic search meets ((end - start) mod 2^32) + 1 different addresses |
| Ips.EndIsLastCandidate | pulp-cell/ips.go:37-39 | the search stops at the end address, which is its last candidate, also when start is above end |
| Ips.AllocatesFirstFree | pulp-cell/ips.go:28-43 | an allocation takes the first free address in cyclic order and fails only if all are taken |
| Ips.IpPool.Allocate | pulp-cell/ips.go:28-43 | the loop terminates for every start and end and does that allocation |
| Ips.IpPool.ReleaseByServer | pulp-cell/ips.go:49-56 | gives back one address of the server, whichever the map offers first, or none if it has none |
| Ips.IpPool.ReKey | pulp-cell/ips.go:58-64 | hands exactly one server's addresses to another |
| Ips.ReleaseFreesAllIff | pulp-cell/ips.go:49-56 | a release leaves the server without addresses, for every map order, exactly when it had at most one |
| Volumes.ExpandCreateVolumes | pulp-cell/creation_core.go:254-261 | the loop visits every path, in any order and with paths put in meanwhile; unless an expansion holds the placeholder again, the paths left are exactly the expansions, each with the mount of a placeholder path that expands to it or, if there is none, its own |
| Volumes.VisitsExpand | pulp-cell/creation_core.go:254-261 | so does every order of the visit |
| Volumes.OrderIndependentIff | pulp-cell/creation_core.go:254-261 | all orders leave the same map exactly when no expansion holds the placeholder again and colliding placeholder paths have equal mounts, or the server ID is the placeholder |
| Volumes.ExpandsFirst | pulp-cell/creation_core.go:258 | each placeholder of a path, from the first on, is replaced by the server ID and everything else kept |
| CreationCore.ContainerSpec.DeepCopy | pulp-cell/creation_core.go:110 | the copy has the template's values and a port array of its own |
| CreationCore.FilterCreatePlatforms | pulp-cell/creation_core.go:225-252 | compacts the port slice in place to the ports of active platforms, in order |
| CreationCore.AllocateCreateNetwork | pulp-cell/creation_core.go:263-310 | allocates address or ports, rewrites ports and environment, and gives everything back on failure |
| CreationCore.TakeHostPorts | pulp-cell/creation_core.go:284-293 | one port per slot, written into the slot, up to the first that cannot be had |
| CreationCore.ApplyResources | pulp-cell/resources/resources.go:52-95 | the final CPU, memory and swap limits and environment, with hook, override and caller in their precedence |
| CreationCore.RetireServer | pulp-cell/retirement_core.go:6-28 | a failed destroy changes nothing; else the entries are dropped, or handed on when they are to be kept |
| CreationCore.CreationCore.Launch | pulp-cell/idempotent_create.go:62-90 | Docker create, name-conflict lookup, release on failure or lost race, and settlement on success |
| CreationCore.CreationCore.CreateFenced | pulp-cell/creation_core.go:87-202 | every exit: reply with the final limits, calls in order and all three ledgers; the settings, templates included, are the same afterwards |
| CreationCore.CreationCore.SettingsKept | pulp-cell/creation_core.go:110-122 | template ports, environments and limits depend on nothing but the objects they consist of, so that whatever leaves these alone keeps them |
| Rollback.HostModeAllOrNothing | pulp-cell/creation_core.go:284-309 | host mode gives every specification a distinct, first-fit, previously unowned port with host equal to container port, or leaves the ID owning none |
| Rollback.SpeculationUndoneIff | pulp-cell/creation_core.go:155-163 | release after a speculative allocation restores the tracker exactly when the ID was new |
| Rollback.ConnectedNotCreated | pulp-cell/creation_core.go:128-174 | every exit after the template lookup that makes no container: capacity and addresses as before, ports restored exactly when the ID owned none |
| Rollback.UnsuccessfulCreateRestores | pulp-cell/creation_core.go:87-174 | every failing or already-exists exit restores all three ledgers for an ID that owned nothing, after any failed runtime was retired |
| Rollback.HostRollbackDropsEarlierPorts | pulp-cell/creation_core.go:132-138 | for an ID that does own ports the ports are restored exactly when there were none |
| Rollback.SuccessfulCreateAdds | pulp-cell/creation_core.go:159-180 | a success adds one capacity entry that fits, ports and at most one address, all of them the container's |
| Rollback.KeptPortsGoToContainer | pulp-cell/creation_core.go:284-309 | a successful host-mode create leaves its container with exactly the ports kept for the ID and the newly granted ones, one for each specification, and the ID with none |
| Rollback.CreateThenRetireRestores | pulp-cell/retirement_core.go:15-22 | create, then a non-keeping retirement of the returned container, restores all three ledgers in both network modes |
| CreateOutcomes.CreatedIff | pulp-cell/creation_core.go:87-202 | a container is made exactly when the lookup lets the create proceed, the template exists, the network has room by count of free ports or addresses, the hook succeeds, the final cores and bytes fit the budgets and Docker agrees; a missing template is a 404 |
| CreateOutcomes.NetworkAllocatedIff | pulp-cell/creation_core.go:263-310 | the network is allocated exactly when overlay mode has a free candidate address, or each pool of host mode has as many free ports as are asked of it |
| CreateOutcomes.ConnectedOutcome | pulp-cell/creation_core.go:128-174 | from the template on, exactly when the create succeeds, adopts after a lost race, or fails with 503; every other failure is a 500 |
| CreateDetails.ContainerAsAsked | pulp-cell/creation_core.go:119-161 | the container asked for, field by field: ID, ports and address of its network mode, cores, bytes and swap by precedence of the overrides, and every variable by precedence of caller, heap, hook, network and template |
| CreateDetails.AdmissionLeads | pulp-cell/creation_core.go:87-104 | for each answer of the lookup: status, calls and ledgers, or what the create goes on with |
| CreateDetails.ConnectedCalls | pulp-cell/creation_core.go:128-174 | hook, container and the lookup after a name conflict are asked for in this order, each exactly when what comes before went well |
| CreateDetails.RepliesShow | pulp-cell/creation_core.go:175-223 | every reply shows a server of Docker's under the logical ID, with world, node and external host; a new one shows each port Docker does not tell by name or number |
| CreateDetails.FilteredIff | pulp-cell/creation_core.go:225-252 | a port is taken away exactly when it is java or bedrock, some platform is active and its own is not, by the first engine of the ENGINE value and by crossplay |
| CreateDetails.FilterKeepsExactly | pulp-cell/creation_core.go:244-251 | the platform filter keeps every port but those of inactive platforms, as often as it is there |
| CreateDetails.FilterKeepsOrder | pulp-cell/creation_core.go:244-251 | and in the order of the template |
| CreateOutcomes.ACreateCanSucceed | pulp-cell/creation_core.go:159-202 | a cell and a request for which the create succeeds |
| Docker.ResolvesIff | pulp-cell/idempotent_create.go:26-57 | a lookup finds a server exactly by a direct hit of the ID's name, with or without one slash, or in the scope after a direct miss; it is absent exactly when both miss |
| Witnesses.KeptPortsGetDropped | pulp-cell/creation_core.go:132-138 | a cell in which a port kept for a server is dropped by a failing host-mode create |
| Witnesses.AnAddressLeaks | pulp-cell/ips.go:49-56 | a cell whose first address, kept by a retirement and followed by an overlay create of the same server, stays taken after the new container's retirement |
| Recreate.RecreateCore.Recreate | pulp-cell/recreate_core.go:62-109 | every exit: reply, calls in order, ledgers and receipts, with the settings as before |
| RecreateRuns.DestroyComesLast | pulp-cell/recreate_core.go:82-92 | the old container is destroyed only by the last call, and only if the replacement was made or found |
| RecreateRuns.ActsIff | pulp-cell/recreate_core.go:62-80 | Docker is called exactly for a request that is in order, field by field and character by character, under a new key; a taken key answers for the same version, key, receipt and replacement only |
| RecreateRuns.ReceiptsName | pulp-cell/recreate_core.go:82-108 | a new receipt names version, key, receipt ID, old container and the server that replaces it, and is bound to the request's specification; a failing step gives its own status and no receipt |
| RecreateRuns.DoKeepsReceipts | pulp-cell/recreate_core.go:75-108 | receipts name their key, version and replacement, none is changed, and a known key leads to no call and no change |
| RecreateRuns.ReceiptsAreFinal | pulp-cell/recreate_core.go:75-80 | after a receipt and any run, the same key is answered with that receipt or a conflict, without calls or changes |
| RecreateRuns.RetriesConverge | pulp-cell/recreate_core.go:82-108 | create, failed destroy, any number of failed retries and one that succeeds end in the ledgers of a success at once, with one container asked for in all |
| RecreateRetries.RetriesLeaveNoTrace | pulp-cell/recreate_core.go:82-95 | in any cell: retries that fail in the lookup or in the destroy, among any other steps that leave key and replacement alone, ask for no container, and without them the run ends in the same world and is as possible |
| RecreateRetries.RetriesConvergeAmongOthers | pulp-cell/recreate_core.go:82-108 | so a failed recreate, such a run and a retry that succeeds end with the receipt for the replacement made first and none of the ports left with the old container; with fresh container IDs the replacement has exactly the ports it was made with |
| Witnesses.ARecreateCanConverge | pulp-cell/recreate_core.go:82-95 | a cell, three attempts and the worlds between them for which that happens |
| RecreateRuns.ReplacementIsOldContainerIff | pulp-cell/recreate_core.go:72 | the recorded replacement is the old container exactly when a lookup by the replacement's name answered with it |
| RecreateRuns.AContainerCanReplaceItself | pulp-cell/recreate_core.go:72-95 | a request for which that happens |
| RecreateRuns.ReplayIgnoresOldContainer | pulp-cell/recreate_core.go:34-47 | a replay for another old container destroys nothing and names the first one |
| Runs.CreateKeepsCapacity | pulp-cell/creation_core.go:155-180 | a create under a new ID keeps sums exact, entries non-negative and of containers only, and budgets respected, whatever the ports |
| Runs.CreatePorts | pulp-cell/creation_core.go:87-202 | a create gives or takes ports only of its own IDs, whatever the ranges, and keeps the set of pools and their safety |
| Runs.StepPorts | pulp-cell/main.go:849-912 | create, retirement (keeping or not) and recreate leave the ports of containers they do not concern alone, whatever the ranges, and keep the set of pools and their safety |
| Runs.RunsKeepCapacity | pulp-cell/capacity.go:33-64 | over every run with fresh container IDs and limits that are not negative, in any cell: sums are the totals of the entries, within budget, and no logical-ID entry remains |
| Promises.PromisesStayWithinBudget | pulp-cell/capacity.go:33-64 | over every run, what Docker was asked to give the containers made and not destroyed is within the budgets, core by core and byte by byte, and exactly they have entries |
| Runs.RunsKeepPorts | pulp-cell/ports.go:75-121 | over every run, whatever IDs and limits: the set of pools stays the same and, if their ranges are disjoint, every port has one owner |
| Runs.SparedContainersKeepTheirPorts | pulp-cell/ports.go:88-121 | a container no step retires has the same ports at the end of a run, whatever the ranges |
| Runs.OnlyUnheldPortsAreGiven | pulp-cell/ports.go:20-28 | with disjoint ranges a port that changes hands was held by nobody but those the step retires |
| Runs.OneAddressIff | pulp-cell/ips.go:49-64 | an overlay create leaves its container with one address exactly when the logical ID had none before |
| Runs.KeptAddressLeaks | pulp-cell/retirement_core.go:20-25 | after a keeping retirement and a create under the same ID, some retirement leaves an address taken |
| AddressRuns.RunsKeepOneAddressEach | pulp-cell/ips.go:28-64 | over every run without a retirement that hands addresses on, each container has at most one address |
| AddressRuns.RetirementLeavesNothing | pulp-cell/retirement_core.go:15-22 | so in every cell such a run reaches, a non-keeping retirement leaves its container without capacity, ports and addresses |
| AddressRuns.SparedContainersKeepTheirAddresses | pulp-cell/ips.go:28-64 | a container no step retires has the same addresses at the end of a run |
| AddressRuns.ListedAddressesAreNeverHandedOut | pulp-cell/main.go:413-415 | from start-up through any run, the address of a listed container stays its own alone until a step retires it |
| AddressRuns.ReconciledAddresses | pulp-cell/main.go:413-415 | start-up gives each listed container at most one address |
| Bootstrap.WarmPools | pulp-cell/main.go:396-404 | leaves exactly one empty pool per parseable template range, in every map order |
| Bootstrap.WarmedExclusiveIff | pulp-cell/main.go:396-404 | the pools that start-up makes keep each port to one owner, over all sequences of allocations, exactly when no port lies in two of the template ranges and the fallback |
| Bootstrap.Reconcile | pulp-cell/main.go:407-438 | addresses and capacity of the listed containers are entered; every listed port belongs to the last container listed with it, and only to containers listed with it; to that one alone if the ranges are disjoint |
| Bootstrap.CapacityReconciledSound | pulp-cell/main.go:416-433 | with distinct IDs and non-negative limits the reconciled sums are exact and within budget |
| StartCapacity.ReconciledInOrder | pulp-cell/main.go:416-433 | a listed container is entered exactly when it is named after a template, has a limit and fits on top of those entered before it; with its own limits, and nothing else is |
| StartCapacity.AllThatFitAreEntered | pulp-cell/main.go:416-433 | if all that count fit together, all are entered and the sums are their total |
| StartCapacity.PromisesFromStartUp | pulp-cell/main.go:416-433 | from start-up through any run, the entered containers and the new ones keep to the budgets together |
| Bootstrap.Start | pulp-cell/main.go:375-438 | start-up as a whole, with or without a container list |
| Bootstrap.OwnershipDetermines | pulp-cell/ports.go:113-121 | who owns which port settles the whole pool set |
| Bootstrap.StartIsDeterministic | pulp-cell/main.go:396-415 | with disjoint ranges start-up ends in one pool set, whatever the map orders |
| Bootstrap.StartedPorts | pulp-cell/main.go:375-415 | start-up makes every template's pool, gives each listed port to the last container listed with it and, if the ranges are disjoint, to that one alone |
| Bootstrap.CapacityStaysSafe | pulp-cell/main.go:417-433 | from start-up through any run, whatever the ranges: sums exact and within budget, entries of containers only |
| Bootstrap.ListedPortsAreNeverHandedOut | pulp-cell/main.go:410-412 | through any run a listed container's port stays its own until a step retires it, and its own alone if the ranges are disjoint |
| ReceiptRuns.LoadsOnlyWholeReceipts | pulp-cell/fleet_lifecycle_routes.go:589-602 | after any run with crashes, a load fails only if the read does, finds nothing only if the receipt was never there, and else finds the whole receipt of some attempt at its path |
| Receipts.ReceiptRoutes.RunCommands | pulp-cell/fleet_lifecycle_routes.go:501-554 | commands in order up to the first failure, for as long as the process lives |
| Receipts.ReceiptRoutes.Store | pulp-cell/fleet_lifecycle_routes.go:604-617 | directory, temporary file (torn, then whole), rename, with a crash possible at each |
| Receipts.ReceiptRoutes.Handle | pulp-cell/fleet_lifecycle_routes.go:340-437 | the handler does exactly the first steps of the protocol, for every life span of the process |
| ReceiptRuns.PreimageInjective | pulp-cell/fleet_world_transfer_routes.go:72 | the hashed bytes determine route, container and request bytes, and for exec-v2 the effect |
| ReceiptRuns.CheckedIsRegistered | pulp-cell/fleet_lifecycle_routes.go:628-645 | work whose container and effect pass the identity checks has no NUL in its names, which is what the injectivity of the preimage needs |
| ReceiptRuns.DigestDeterminesBinding | pulp-cell/fleet_lifecycle_routes.go:371 | a matching digest implies matching action and container across the routes that share a directory |
| ReceiptRuns.StepSane | pulp-cell/fleet_lifecycle_routes.go:604-617 | each step keeps stored receipts complete and unchanged, works only while there is none, and announces success only of what is stored |
| ReceiptRuns.LiveSane | pulp-cell/fleet_lifecycle_routes.go:340-437 | so does every prefix of an attempt, that is, every crash |
| ReceiptRuns.ReplayTouchesNothing | pulp-cell/fleet_lifecycle_routes.go:367-377 | once stored, no command runs and no file changes; matching requests get the same bytes, others a conflict |
| ReceiptRuns.ReceiptsAreForever | pulp-cell/fleet_lifecycle_routes.go:589-617 | over every run receipts stay complete and unchanged |
| ReceiptRuns.SuccessIsFinal | pulp-cell/exec_idempotency_routes.go:73-128 | after an answer of success and any run, the key leads to the same bytes or a conflict and to no command |
| ReceiptRuns.RepeatsFollowUnrecorded | pulp-cell/exec_idempotency_routes.go:73-128 | commands are repeated for a key only after attempts that stored no receipt and reported no success |
| ReceiptRuns.ReceiptsComeFromAttempts | pulp-cell/fleet_world_transfer_routes.go:75-133 | a receipt appears through an attempt of its own key |
| ReceiptRuns.ExecutesIffUnrecorded | pulp-cell/fleet_lifecycle_routes.go:367-410 | with nothing failing before, the first command runs exactly when the key has no receipt |
| ReceiptOutcomes.ReceiptsFollowTheWork | pulp-cell/fleet_lifecycle_routes.go:411-437 | at every crash point: what ran is a beginning of the plan and stops at a failing command, whose status is answered; success and a receipt come only after the whole plan ran without failure |
| ReceiptOutcomes.SucceedsIff | pulp-cell/fleet_lifecycle_routes.go:367-437 | an attempt that lives answers success exactly when reading, lookups, every command, encoding and storing all succeed, with the response of this very run |
| ReceiptOutcomes.RefusalsTell | pulp-cell/fleet_lifecycle_routes.go:367-414 | otherwise what fails first gives the status |
| ReceiptOutcomes.MatchesIff | pulp-cell/exec_idempotency_routes.go:77-84 | a stored receipt answers a request exactly when key, effect and work are the same in every field |
| ReceiptOutcomes.PlacesIff | pulp-cell/exec_idempotency_routes.go:208-211 | two requests share a final file exactly when they share key and kind of route, a temporary one when the effect agrees too |
| ReceiptOutcomes.StoredReceiptTells | pulp-cell/fleet_lifecycle_routes.go:415-437 | a receipt that a run stores names key, effect, digest, response and, route by route, what it was for |
| HostAgent.New | hostagent/client.go:85-123 | a client is made exactly for a complete configuration with a transport, TLS or a loopback endpoint, and lease, action bound and retry delay zero or within their limits, and then has them within; it crashes exactly on a complete configuration whose URL does not parse |
| HostAgent.Client.Command | hostagent/client.go:262-265 | the n-th command ID carries the number n as a uint64 |
| HostAgent.Client.Credential | hostagent/client.go:266-277 | the usable principal that expires last, the first of several; none exactly when none is usable |
| HostAgent.Client.ExecuteAndSettle | hostagent/client.go:191-243 | engine, receipt echoing the fence, and the retry, as the protocol demands; no error exactly when the block closes |
| HostAgent.Client.Step | hostagent/client.go:146-168 | every trace follows the protocol automaton and its claims carry the command IDs issued since, in order; no error exactly when a claim came back empty or the bound was reached |
| HostAgentRuns.TraceShape | hostagent/client.go:146-243 | at most the bound of actions, one engine run for each, and the last events tell the phase |
| HostAgentRuns.EventsInPlace | hostagent/client.go:191-243 | every engine run, receipt and retry stands right after what it belongs to |
| HostAgentRuns.RetryFollowsFailure | hostagent/client.go:231-242 | after the accepted receipt of a failed run the next event is the retry |
| HostAgentFields.EngineRunsFencedActions | hostagent/client.go:191-259 | the engine runs only an action claimed just before: of this host, one generation and attempt, an unexpired lease, matching digests and a known operation; with the assignment key spelled out |
| HostAgentFields.FencedActionsAreHeld | hostagent/client.go:252-261 | a claimed action with all of that is not refused, and one without is |
| HostAgentFields.ReceiptsTell | hostagent/client.go:211-227 | every field of a receipt, from the action and the run it reports |
| HostAgentFields.RetriesAsk | hostagent/client.go:231-239 | every field of a retry, an hour or the configured delay after the claim |
| HostAgentFields.PostsAreAuthorized | hostagent/client.go:266-277 | the token of a post is of a principal that has not expired, and none of those expires later |
| HostAgentFields.HexDigestReads | hostagent/client.go:256-259 | digests are compared as lower-case hexadecimal, two digits a byte, the upper half first |
| HostAgentRuns.ReceiptIDInjective | hostagent/client.go:226-238 | receipt and retry IDs determine workload, generation and attempt, even with slashes in the workload, and never coincide |
| HostAgentRuns.AssignmentKeyInjective | hostagent/client.go:192 | the keys of validated actions determine workload, generation, attempt and digest |
| HostAgentRuns.CommandIDsNeverRepeat | hostagent/client.go:262-265 | command IDs of one client never repeat before its counter comes round, whatever the clock does |
| HostAgentRuns.ClaimsOfAStepAreNew | hostagent/client.go:262-265 | so, before the counter comes round, a claim of a step carries an ID that no earlier command or claim had |
| HostAgentRuns.PostsUseLatestCredential | hostagent/client.go:266-277 | every claim, receipt and retry in a trace is sent with the usable credential that expires last at that time |
| HostRuntime.HostAgentEngine.Create | pulp-cell/host_agent_runtime.go:41-55 | refusals change nothing; otherwise the fenced create with the assignment key as both tokens |
| HostRuntime.RequestIs | pulp-cell/host_agent_runtime.go:49 | millicores are thousandths of the cores asked for, bytes are bytes, and nothing else is overridden |
| HostRuntime.HostAgentEngine.Delete | pulp-cell/host_agent_runtime.go:100-115 | absent is deleted, unclear is an error, present is retired |
| HostRuntime.AssignmentKeysAreNoTokens | pulp-cell/recreate_core.go:49-60 | no assignment key is a valid fencing token |
| HostRuntime.HostAgentNeverRecovers | pulp-cell/creation_core.go:97-99 | the host agent's create is one without tokens, and a failed runtime is a conflict that changes nothing |
| HostRuntime.DeleteUndoesCreate | pulp-cell/host_agent_runtime.go:100-115 | create and delete of a workload restore all three ledgers |
| HostRuntime.HostAgentRuntime.Step | pulp-cell/host_agent_runtime.go:130-145 | the next due time and generation; assignments are claimed only after a heartbeat that was sent and accepted |
| HostRuntime.HeartbeatsIncrease | pulp-cell/host_agent_runtime.go:130-141 | heartbeats are an interval apart and their generations strictly increase, also when the clock is set back |
| Worker.State.Submit | gameworker/state.go:42-71 | normalise, replay or conflict, and at most one call of the host |
| Worker.State.Status | gameworker/state.go:73-101 | polls pending jobs only, and settles a job that is done |
| Worker.State.Cancel | gameworker/state.go:103-119 | cancels pending jobs only |
| Worker.State.Export | gameworker/state.go:121-134 | the jobs that are not pending, in strict key order |
| Worker.State.Import | gameworker/state.go:136-151 | enters jobs one by one up to the first that is refused |
| WorkerRuns.RunPreserves | gameworker/state.go:42-151 | over every run no job is forgotten, a finished job never changes, and keys keep their fingerprints |
| WorkerRuns.AtMostOneSubmission | gameworker/state.go:55-70 | in any run the host accepts at most one job of a key |
| WorkerRuns.RetriesReplay | gameworker/state.go:46-60 | requests equal after trimming and upper-casing replay the job as it is by then; others conflict |
| WorkerRuns.SubmitDoes | gameworker/state.go:42-71 | reply, table and the request the host is asked, trimmed and upper-cased, for every case |
| WorkerRuns.StatusDoes | gameworker/state.go:73-101 | a finished poll ends a pending job as failed exactly when it tells an error, with its status, headers, body and error |
| WorkerRuns.CancelDoes | gameworker/state.go:103-119 | a cancellation changes the state of a pending job and nothing else |
| WorkerRuns.ImportDoes | gameworker/state.go:136-151 | an import enters every job under its trimmed key, as it is and without a request |
| WorkerRuns.ImportRefuses | gameworker/state.go:136-149 | it stops at the first job without key, still pending, or of a key that is there |
| WorkerRuns.ImportedKeysAlwaysConflict | gameworker/state.go:55-60 | a key that an import entered refuses every complete request as a conflict, after any run |
| WorkerRuns.SnapshotForgetsRequests | gameworker/state.go:121-151 | after export into an empty owner and any run, even the original request of a finished key is a conflict |
| WorkerRuns.ExportUnique | gameworker/state.go:121-134 | two exports of one table are equal |
| WorkerRuns.SnapshotRoundTrip | gameworker/state.go:121-151 | export into an empty owner: succeeds, answers each key without a poller and no other, and exports the same again |
| WorkerRuns.FailedImportIsCleanIff | gameworker/state.go:140-149 | a refused import leaves the table as it was exactly when the version or the first job is what is refused |
| Catalog.ValidateEntries | templatecatalog/state.go:121-160 | entries by name and the fingerprint of their sorted listing, or the first fault |
| Catalog.ListEntries | templatecatalog/state.go:102-119 | the entries in the order of their names, in every map order |
| Catalog.State.Replace | templatecatalog/state.go:23-45 | replay, conflict or installation with the next revision |
| Catalog.State.Import | templatecatalog/state.go:78-100 | replay, conflict or installation with the snapshot's revision |
| CatalogRuns.ValidatedIff | templatecatalog/state.go:121-160 | validation accepts exactly well-formed, encodable entries of distinct names, and keeps one normal entry for each |
| CatalogRuns.WellFormedIff | templatecatalog/state.go:123-147 | what well-formed and normal mean, field by field |
| CatalogRuns.RefusalTells | templatecatalog/state.go:123-158 | a refused list is refused for its first faulty entry, with that entry's code, or for a limit that cannot be encoded |
| CatalogRuns.OrderInsensitive | templatecatalog/state.go:121-160 | permuted entries are accepted or not alike, with the same result |
| CatalogRuns.ListingValidatesToItself | templatecatalog/state.go:121-160 | a canonical catalog's listing validates to that catalog |
| CatalogRuns.ValidationIdempotent | templatecatalog/state.go:121-160 | validation is idempotent on its own output |
| CatalogRuns.ListingSorted | templatecatalog/state.go:102-119 | listings are strictly sorted by name and list every entry once |
| CatalogRuns.FingerprintIff | templatecatalog/state.go:144-159 | two catalogs have one fingerprint exactly when every field of every entry agrees, the JSON texts up to layout and an empty runtime with none but an empty one |
| CatalogLedger.FingerprintsAreForever | templatecatalog/state.go:35-43 | over every run a request ID stays bound to its first accepted fingerprint |
| CatalogLedger.RetriesReplay | templatecatalog/state.go:35-40 | after any run a known ID is answered with the current catalog or a conflict, and nothing changes |
| CatalogLedger.PermutedRetriesReplay | templatecatalog/state.go:35-40 | a retry with its entries in another order is a replay |
| CatalogLedger.RevisionCounts | templatecatalog/state.go:41-43 | over every run the revision is the last newly imported one plus the replaces newly accepted since, as a uint64 |
| CatalogLedger.ReplayRepeatsIff | templatecatalog/state.go:35-43 | a replay repeats its first answer exactly when the last revision imported since, plus the replaces accepted after it, comes to the revision then, and the entries installed last are those it installed |
| CatalogLedger.ReplayRepeatsIffNoneReplaced | templatecatalog/state.go:35-43 | among replaces, fewer than 2^64, exactly when none was newly accepted |
| CatalogLedger.SnapshotRoundTrip | templatecatalog/state.go:69-100 | export and import into a fresh owner reproduce entries and revision |
| Archive.V2WorldSource.SnapshotWorld | archiveowner/v2_world_source.go:154-209 | calls, staging files, body and error for every combination of outcomes, with the deferred restore |
| Archive.V2WorldSource.FetchWorld | archiveowner/v2_world_source.go:248-313 | a staging file for a whole response only, removed on every later failure |
| Archive.StagedFile.Close | archiveowner/v2_world_source.go:506-511 | closes and removes once; later calls repeat the first result |
| Archive.SavesAreRestored | archiveowner/v2_world_source.go:173-203 | each save-off attempt is followed by exactly one save-on attempt, after all work but the removal of the staging file |
| Archive.FlushesBeforeFetching | archiveowner/v2_world_source.go:189-206 | save-off, flush, delay and fetch stand in this order, each exactly when those before it went well |
| Archive.SnapshotSucceedsIff | archiveowner/v2_world_source.go:154-313 | there is a snapshot exactly when nothing goes wrong, down to the announced length and an empty archive |
| Archive.StagingConserved | archiveowner/v2_world_source.go:248-313 | a body exactly without error; then one staging file, the body's; else none, unless one was made and could not be removed |
| Archive.CloseGivesFileBack | archiveowner/v2_world_source.go:506-511 | closing the body leaves the staging directory as before the snapshot |
| ExecAllow.BatchAcceptedIff | pulp-cell/execallow/execallow.go:69 | the batch pattern accepts exactly the renderings of rcon batches with splice-quoted arguments |
| ExecAllow.PollAcceptedIff | pulp-cell/execallow/execallow.go:71 | the poll pattern accepts exactly the renderings of one rcon command with quoted arguments |
| Shell.QuotedScans | pulp-cell/execallow/execallow.go:49 | a quoted value is read back by the shell's quoting rules, whatever it holds |
| Shell.BatchReads | pulp-cell/execallow/execallow.go:69 | a rendered batch reads as its rcon commands |
| Shell.PollReads | pulp-cell/execallow/execallow.go:71 | a rendered poll reads as one rcon command with a word per quoted span |
| Shell.AcceptedStringsRunRconOnly | pulp-cell/execallow/execallow.go:69-71 | every string either pattern accepts reads as rcon commands only, with the quoted arguments |
| Shell.QuotedValuesRoundTrip | pulp-cell/execallow/execallow.go:44-49 | any values, quoted with the splice, are accepted and read back |
| Text.SplitAtLast | hostagent/client.go:192-238 | a separator absent from the last field splits it off, whatever precedes |
| Text.TrimSpaceCuts | gameworker/state.go:46-48 | trimming cuts white space off both ends and nothing else |
| Text.SortStringsLists | gameworker/state.go:128 | sorting distinct keys lists them strictly ordered, each once |

## Left out

- `capacity.CanFit` belongs to another module and is not part of this model; it is taken as "no budget, or sum within budget", per resource, as `pulp-cell/capacity.go:40-44` and `pulp-cell/capacity_test.go:56` use it.
- Rounding of float64: limits and sums are real numbers, so overflow, infinities and NaN in the capacity ledger are not modelled (NaN is, where it keeps a catalog from being encoded).
- Hash functions and JSON encodings are taken to be injective, and a digest stands for what was hashed; collisions are not modelled.
- Text is a sequence of characters that stand for bytes; trimming knows the Latin-1 white space and upper-casing the ASCII letters, so Unicode beyond that is not modelled.
- The text of errors: an error is its status or code; that Docker's "not found" and "name already in use" are read off the text appears as two independent flags of an error.
- `fmt.Sscanf` treats carriage returns before a line feed specially; port ranges with them are not modelled.
- The container fields that take no part in the ledgers (image, disk, process limits), and the volume map as a field of the container: volumes are modelled on their own.
- CreationCore.ContainerSpec.DeepCopy: environments are values here, so only the port array could be shared between copy and template; there is no volume map.
- CreationCore.CreationCore.CreateFenced: the container asked for carries no volume map, image, disk or process limits, for the same reason.
- Volumes.ExpandCreateVolumes: when an expansion holds the placeholder again, says only that the map is that of some visit, because which one then depends on the order (`Volumes.OrderIndependentIff`).
- Bootstrap.Reconcile: with overlapping ranges does not say which of the pools that cover a port records it, because that depends on the order in which the map offers them (`PortSafety.ReserveOrderIndependentIff`).
- Recreate.RecreateCore.Recreate: the digest claimed by the caller is compared as a value, so the length and letter case of its hexadecimal text are not modelled.
- Aliasing between replies and stored records (the clone functions): values are copied by nature here.
- A nil receiver of the worker and catalog owners.
- The commands that lifecycle and access requests compile to, request decoding and the validators of world transfers: a plan of commands is a parameter of a request.
- Overlapping requests: the cell is single-threaded and exec-v2 holds a lock, so attempts follow one another; recreate receipts live in memory and are lost with the process.
- The retry of a recreate after a crash of the cell, for the same reason.
- `registry/state.go`, configuration and template loading, statistics, logs, streaming, zip building, image builds and the HTTP routers: plumbing or single-map operations.
- Allow patterns other than the two rcon ones, and the argv form of the exec gate.
- Start, update and stop of the host agent's engine, and the issue of callback capabilities: single calls that move no ledger.
- The world cleanup of the archive owner and the observation parsers: one request and one check each.
- The historical create body kept in a comment of `pulp-cell/main.go`.
