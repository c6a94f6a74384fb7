# TransLog Pro: models of the seeds, repair passes and tools

Dafny models of the parts of the TransLog Pro repository where rows are seeded, repaired, moved through a workflow,
priced or exported, with proofs of what those parts keep and promise. `dafny verify dfyconfig.toml` checks the whole
project.

| file | models |
|---|---|
| `WorkflowTable.dfy` | the default transition table of every tenant, row for row, and the seeded roles' permissions on it |
| `WorkflowRuns.dfy` | every run of the default machines, of any length |
| `WorkflowLoader.dfy` | the boot backfill that loads the table with skip-on-duplicate-key |
| `WorkflowEngine.dfy` | concurrent calls of the workflow engine's `transition()` on rows other services write too |
| `WorkflowHistory.dfy` | what a row's version and the transition log then tell about the row |
| `WorkflowCalls.dfy` | what becomes of one call among all the others |
| `WorkflowKeys.dfy` | whose transition an idempotency key answers with |
| `RoleSync.dfy` | the two synchronisers of system role permissions |
| `Agencies.dfy` | default agencies, staff without an agency, virtual cash registers |
| `StaffSync.dfy` | the three-phase repair of staff rows and their roles, dry run or applied |
| `CrmBackfill.dfy` | linking users to CRM customers, with links that can be taken over |
| `ManifestBackfill.dfy` | manifests rebuilt from signature logs, and the storage key parsers |
| `ModuleUsage.dfy` | daily usage rows rebuilt from the audit log |
| `Itinerary.dfy` | toll imputation and prorata prices of a route's segments |
| `Csv.dfy`, `DataTable.dfy` | the data table's exports, pages and selection |
| `EndpointAudit.dfy` | which backend routes the frontend calls |
| `GraphChecksum.dfy` | the canonical payload under a workflow graph's checksum |
| `Basics.dfy` | `Option`, ids, rounding, and a fact about maps |

## How things are represented

- Tables are sequences, maps on their unique key, or arrays, held in classes whose methods write them row by row. A
  query is a function of the table; the order a query without ORDER BY returns is the order of the sequence, which is
  arbitrary. Ids are numbers that are only compared. The clock is a parameter.
- Where a function and a method have nearly the same shape, the method is the code's loop and the function is what it is
  proved against; what the code promises is then proved of the function.
- Staff rows are joined with their user on the unique `userId`, and assignments are nested in them. Two ACTIVE
  assignments with one start date are told apart by listing order; `StaffSync.LatestIsPrimary` shows that with distinct
  dates nothing depends on it.
- Distances and prices are reals, `Math.round(x)` is the floor of `x + 1/2`.
- The two orders under the graph checksum (`localeCompare` on ids, the default order on strings) are any total orders.
- The engine's `persist` callback is taken to set the status and add one to the version, as the services' callbacks do.
  A violated idempotency key aborts the database transaction, so the status written before it is rolled back.
- Other services write rows beside the engine, with no log entry. For example, the public portal confirms tickets and
  raises their version (`src/modules/public-portal/public-portal.service.ts:1194-1197`); the staff service closes
  assignments (`src/modules/staff/staff-assignment.service.ts:205-212`), the safety service dismisses alerts
  (`src/modules/safety/safety.service.ts:115-119`) and the QHSE service sets the status of accident reports
  (`src/modules/qhse/qhse.service.ts:276-282`), and these leave the version. The event `WriteOutside` stands for any
  such write, of any status, raising the version or not, at any moment the row is not locked. The results about single
  calls, idempotency keys, permissions and lost updates hold whatever is written so; for the others the exact condition
  is stated, and the writes of the first two are exhibited.
- A call without an idempotency key is given one of its own, as the engine gives it a random one.
- A tenant may configure states, verbs and rights of its own; they are the constructors that carry a name.

## What the proofs found

- `prisma/seeds/crm-customer.backfill.ts:16` says the backfill can be repeated without duplicates. That holds exactly
  when each linked user's phone or email is on a live row or their own row cannot be found by anyone else: it is
  deleted, has neither key, or has no phone and the email of another linked account (`CrmBackfill.LinkLastsIffSafe`).
  Otherwise a new account that shares the row's phone or has its email takes it (`CrmBackfill.UnsafeCanBeRobbed`), and
  the next pass creates a new one or fails on a unique constraint (`CrmBackfill.NeedsNewGetsNew`). Tickets and parcels
  stay as a call leaves them, whatever they are, exactly when it left every user with a customer (`CrmBackfill.NothingFurtherIffAllLinked`).
- An idempotency key is looked up without the row it was used for, so an answer concerns the caller's own row exactly
  when no key was used for two rows (`WorkflowKeys.AnswersOwnIffKeysNameRows`). `confirmBatch` passes one key for all
  its tickets (`src/modules/ticketing/ticketing.service.ts:528-542`): with a key, every ticket but the first is reported
  confirmed and stays as it was (`WorkflowKeys.SharedKeyLeavesRow`).
- The log is a row's history exactly when no service altered the row beside the engine, and versions identify a row's
  states exactly when none changed its status under an unchanged version (`WorkflowHistory.LogIsHistoryIffNoneAlters`,
  `WorkflowHistory.VersionsIdentifyIffNoneSilent`). A ticket sold by the portal has a log that starts in a state nothing
  logged brought it to (`WorkflowHistory.PortalTicket`), and a closed assignment can be taken to SUSPENDED, a transition
  no default configuration has (`WorkflowHistory.ClosedAssignment`). Refunds are safe from both
  (`WorkflowHistory.RefundsWereDecided`).
- The loader keeps the first row of each key, so the transitions meant for passengers
  (`prisma/seeds/iam.seed.ts:1178-1181`) never reach a freshly loaded tenant: every rebooking asks for the agents'
  permission, which the CUSTOMER role does not hold (`WorkflowLoader.RebookingNeedsAnAgent`).
- No seeded tenant role holds the permission every support ticket transition asks for
  (`WorkflowRuns.SupportTicketsNeedThePlatform`), and the engine has no table for `Driver`, whose transitions are seeded
  all the same and can never be made (`WorkflowCalls.DriversNeverMove`).
- With a fractional number of days the usage backfill runs past the start of today (`ModuleUsage.WholeDaysEndToday`). A
  usage row for a day that lost its logs is skipped, not cleared, and the table counts exactly its actions too many
  (`ModuleUsage.TableConserves`, `ModuleUsage.StaleRowSurvives`).
- Tolls of the first kept station, and of stations without coordinates, are charged to no segment
  (`Itinerary.TollsAccountedFor`).

## Model

| member | source | states |
|---|---|---|
| WorkflowTable.TableByEntity | prisma/seeds/iam.seed.ts:1005-1262 | a row is in the default table exactly when its step is one of its entity's steps: no row strays into another entity's block |
| WorkflowTable.VerbDecides | prisma/seeds/iam.seed.ts:1005-1262 | two rows of one entity with one action lead to one state, whatever state they start from, except DECLARE_MAJOR_DELAY; so the repeated keys agree |
| WorkflowRuns.RunPrefix | README.md:46-58 | any run can be cut before any of its steps, and what comes before is a run to that step's start |
| WorkflowRuns.Gate | README.md:46-58 | a run that gets from outside a set of states into it takes a step of the one kind that enters the set |
| WorkflowRuns.Trap | README.md:46-58 | a run that starts in a set of states no step leaves never leaves it |
| WorkflowRuns.Balance | README.md:46-58 | over any run, entries into a set of states minus exits say on which side the run started and ended |
| WorkflowRuns.Descent | README.md:46-58 | a rank every step lowers bounds the length of every run |
| WorkflowRuns.DutyBalance | prisma/seeds/iam.seed.ts:1121-1139 | in every Driver and CrewAssignment run from a state off duty, duties started exceed completed rests plus reinstatements by 1 while the person is engaged and by 0 otherwise |
| WorkflowRuns.RestBetweenDuties | prisma/seeds/iam.seed.ts:1121-1139 | between any two starts of duty of any run lies a completed rest or a reinstatement |
| WorkflowRuns.HubBalance | prisma/seeds/iam.seed.ts:1191-1205 | in every Parcel run, hub arrivals minus hub departures is 0 or 1, is 1 in a hub, is 0 unless in a hub or going back; and a parcel goes back at most once |
| WorkflowRuns.DeliveredInOrder | prisma/seeds/iam.seed.ts:1032-1040 | every run to DELIVERED from a state before loading passed LOADED, then IN_TRANSIT, then ARRIVED |
| WorkflowRuns.DeliveredOrReturned | prisma/seeds/iam.seed.ts:1032-1040 | no Parcel run visits both DELIVERED and RETURNED |
| WorkflowRuns.TicketsStop | prisma/seeds/iam.seed.ts:1018-1030 | from any state, a Ticket run has at most as many steps as its rank falls: at most 8 from CREATED |
| WorkflowRuns.EightStepsHappen | prisma/seeds/iam.seed.ts:1169-1188 | a run of 8 steps from CREATED to REFUNDED exists |
| WorkflowRuns.RefundedInOrder | prisma/seeds/iam.seed.ts:1018-1030 | from any start before the decision, every run to REFUNDED took approve, then process, under data.refund.approve.tenant and data.refund.process.tenant; from an unpaid start it took PAY before them |
| WorkflowRuns.OnlyCompletionAfterBoarding | prisma/seeds/iam.seed.ts:1018-1030 | from BOARDED a ticket can only be completed, and nothing follows |
| WorkflowRuns.OthersDecideNoRefund | prisma/seeds/iam.seed.ts:132-671 | of the seeded roles only TENANT_ADMIN and ACCOUNTANT hold the two refund permissions |
| WorkflowRuns.OnlyFinanceRefunds | prisma/seeds/iam.seed.ts:132-671 | from any start before the decision, if every actor's role holds the step's permission, a refunded ticket was approved and paid out by an administrator or an accountant |
| WorkflowRuns.SupportTicketsNeedThePlatform | prisma/seeds/iam.seed.ts:1243-1250 | with the seeded tenant roles no support ticket ever leaves OPEN |
| WorkflowLoader.WorkflowConfigs.CreateMany | prisma/seeds/iam.seed.ts:1448-1458 | the insert leaves the table the skip-on-duplicate fold describes and counts the rows it added |
| WorkflowLoader.WorkflowConfigs.BackfillDefaultWorkflows | prisma/seeds/iam.seed.ts:1440-1467 | every tenant but the platform's is loaded, in turn; the counter is the growth of the table |
| WorkflowLoader.FirstRowIsFirst | prisma/seeds/iam.seed.ts:999-1004 | the row kept for a key is the one with no other of that key before it |
| WorkflowLoader.LoadedAt | prisma/seeds/iam.seed.ts:1448-1458 | under every key a load leaves what was there, else the first row listed under it, else nothing |
| WorkflowLoader.ReloadAddsNone | prisma/seeds/iam.seed.ts:999-1004 | loading a second time changes nothing |
| WorkflowLoader.BootedAt | prisma/seeds/iam.seed.ts:1440-1467 | over a whole boot every tenant's rows are decided by its own load and the platform tenant's by none |
| WorkflowLoader.SecondBootAddsNone | prisma/seeds/iam.seed.ts:1440-1467 | a later boot over the same tenants, in any order, adds no row |
| WorkflowLoader.DefaultKeysAgree | prisma/seeds/iam.seed.ts:1005-1262 | rows of the default table with one key lead to one state |
| WorkflowLoader.LoadedMoves | src/core/workflow/io/live-workflow.io.ts:160-169 | a tenant that had no configuration has an active one from a key to a state exactly when the loaded list has such a row |
| WorkflowLoader.SameRuns | prisma/seeds/iam.seed.ts:1440-1467 | such a tenant admits exactly the state and action runs of the full default list |
| WorkflowLoader.RebookingNeedsAnAgent | prisma/seeds/iam.seed.ts:1169-1181 | from any table, after a load a rebooking asks for data.ticket.rebook.agency exactly when its key was absent or asked for it already; the CUSTOMER role does not hold it |
| WorkflowEngine.EventKeeps | src/core/workflow/workflow.engine.ts:82-261 | every event of every call, and every write beside the engine, keeps the engine's invariant: keys unique, locks exclusive, calls on their own row from the state they read, a locked row at the version that was read |
| WorkflowEngine.OneEffectPerKey | src/core/workflow/workflow.engine.ts:100-171 | whoever is answered under an idempotency key is given the same two states, and the key is logged exactly once |
| WorkflowEngine.AlwaysBacked | src/core/workflow/workflow.engine.ts:112-148 | every logged transition was an active configuration of its tenant, and its actor permitted, at some moment before it was recorded, even if the policy changed meanwhile |
| WorkflowEngine.LoggedWasConfigured | src/core/workflow/workflow.engine.ts:112-126 | a logged transition was an active row of its tenant's configuration, from its state, with its verb, to its target, under its permission |
| WorkflowEngine.LoggedWasGranted | src/core/workflow/workflow.engine.ts:132-148 | its actor's role was granted the permission, and the actor had an agency if the permission's scope is agency |
| WorkflowEngine.NoLostUpdate | src/core/workflow/workflow.engine.ts:173-187 | of two calls that read one version of a row, once one has committed the other never gets the lock |
| WorkflowHistory.VersionsIdentifyIffNoneSilent | src/core/workflow/workflow.engine.ts:173-187 | whenever the row has one version it is one and the same row, exactly when no write beside the engine changed its status and left the version |
| WorkflowHistory.LockMeansCurrent | src/core/workflow/workflow.engine.ts:173-198 | where no write was silent, a call that holds the lock starts from the row as it is |
| WorkflowHistory.LogIsHistoryIffNoneAlters | src/core/workflow/workflow.engine.ts:189-217 | at every moment the row is its birth record carried along its logged transitions, each starting where the one before it ended and the version counting them, exactly when no write beside the engine altered it |
| WorkflowHistory.PortalTicket | src/modules/public-portal/public-portal.service.ts:1185-1197 | a ticket confirmed by the portal and checked in through the engine: no write of it is silent, and the log does not explain it |
| WorkflowHistory.ClosedAssignment | src/modules/staff/staff-assignment.service.ts:205-212 | an assignment closed beside the engine under the version a call has read: the call begins, commits and takes it from CLOSED to SUSPENDED |
| WorkflowHistory.ClosedLooksActive | src/modules/staff/staff-assignment.service.ts:205-212 | there the version does not tell the closed row from the active one |
| WorkflowHistory.NothingLeavesClosed | prisma/seeds/iam.seed.ts:1237-1240 | no default StaffAssignment transition leaves CLOSED |
| WorkflowHistory.DoorsWatched | src/core/workflow/workflow.engine.ts:82-261 | whoever writes beside the engine: if nobody puts the row into a set of states from outside and its logged transitions enter the set only through a gate, then whenever the row, or a reading someone acts on, is in the set, the gate was passed before |
| WorkflowHistory.BootedIsDefaultsOnly | prisma/seeds/iam.seed.ts:1440-1467 | after a boot a tenant that had no configuration has only rows of the default table |
| WorkflowHistory.LoggedIsListed | src/core/workflow/workflow.engine.ts:112-130 | under default configurations every logged transition of a row is a step of its default machine, whatever else is written |
| WorkflowHistory.RowsRun | src/core/workflow/workflow.engine.ts:112-130 | if also no write beside the engine altered the row, its logged transitions are a run of that machine |
| WorkflowHistory.RefundsWereDecided | src/core/workflow/workflow.engine.ts:82-261 | however a ticket was born and whoever writes it beside the engine, unless one of them decides its refund: a refunded ticket has in its log an approval and after it a payout, by actors who held the two tenant permissions at some moment before |
| WorkflowCalls.CallGoesThrough | src/core/workflow/workflow.engine.ts:82-261 | whatever else is going on, a call on a row of a supported kind that is configured, permitted and uncontested can go through: the row moves on by one version, the transition is logged, nothing else changes |
| WorkflowCalls.CallKeepsRequest | src/core/workflow/workflow.engine.ts:100-171 | in every behaviour a call is answered for the row and under the key it came with |
| WorkflowCalls.LoggedKeyNeverLocks | src/core/workflow/workflow.engine.ts:153-171 | once a key is logged, no other call with it ever gets the lock |
| WorkflowCalls.ReplayIsPossible | src/core/workflow/workflow.engine.ts:100-106 | a call under a logged key can be answered with the logged transition, and that changes no row |
| WorkflowCalls.RefusedForGood | src/core/workflow/workflow.engine.ts:82-261 | a call that was refused has no effect afterwards |
| WorkflowCalls.DriversNeverMove | src/core/workflow/io/live-workflow.io.ts:27-60 | no transition of a Driver is ever logged, whatever is configured |
| WorkflowKeys.EveryEntryHasAuthor | src/core/workflow/workflow.engine.ts:189-217 | every logged transition has a call, made on its row and answered under its key, that logged it |
| WorkflowKeys.AnswersOwnIffKeysNameRows | src/core/workflow/io/live-workflow.io.ts:150-156 | in every behaviour all answers concern the callers' own rows exactly when no two answered calls used one key for two rows |
| WorkflowKeys.SharedKeyLeavesRow | src/modules/ticketing/ticketing.service.ts:528-542 | two rows of any kind, state and tenant and one key: the second call is answered with the first row's transition, and its own row stays as it was |
| RoleSync.RoleDb.SeedTenantRoles | prisma/seeds/iam.seed.ts:733-782 | refuses the platform tenant and writes nothing; otherwise leaves the seeded table |
| RoleSync.RoleDb.ReconcileSystemRolePermissions | prisma/seeds/iam.seed.ts:1333-1389 | leaves the reconciled table over all tenants but the platform's and returns its counters |
| RoleSync.OthersUntouched | prisma/seeds/iam.seed.ts:733-782 | neither synchroniser touches a role no definition names or another tenant's role |
| RoleSync.SeededRoles | prisma/seeds/iam.seed.ts:748-756 | after a seed the tenant has the roles it had and every role a definition names, and no other tenant gains one |
| RoleSync.SystemRolesExact | prisma/seeds/iam.seed.ts:1315-1332 | from any drifted table, either synchroniser leaves an existing system role exactly its definition's permissions |
| RoleSync.CustomRolesKept | prisma/seeds/iam.seed.ts:1315-1332 | a custom role in the list only gains from the seed and is left alone by the reconciler |
| RoleSync.SynchronisersAgree | prisma/seeds/iam.seed.ts:1333-1389 | where the tenant has the roles, the two synchronisers reach the same permission table |
| RoleSync.ReconciledAllAt | prisma/seeds/iam.seed.ts:1333-1389 | grant by grant over a whole run: for a role that a system definition names and a tenant of the run has, what the definition lists; every other grant, and the platform's, as it was |
| RoleSync.SecondRunReportsZero | prisma/seeds/iam.seed.ts:1329-1331 | a second reconciliation writes nothing and reports zero |
| RoleSync.BootAfterSeedIsQuiet | prisma/seeds/iam.seed.ts:1333-1389 | after a seed the reconciler finds nothing to do |
| RoleSync.SecondRunZeroIff | prisma/seeds/iam.seed.ts:1333-1389 | for any tables and definitions, the second run adds and removes nothing exactly when, in every tenant, system definitions sharing the name of a role it has list the same permissions |
| RoleSync.NetChange | prisma/seeds/iam.seed.ts:1353-1381 | permissions added minus removed is the change of the number of grants, when no definition lists one twice |
| RoleSync.ReportMeasures | prisma/seeds/iam.seed.ts:1353-1389 | the whole report: so many grants are there that were not, so many are gone, and so many roles have other grants than before |
| Agencies.AgencyDb.BackfillDefaultAgencies | prisma/seeds/iam.seed.ts:928-998 | leaves the settled tables of all tenants in turn, with the counters of the work found |
| Agencies.AgenciesAfter | prisma/seeds/iam.seed.ts:944-974 | a tenant's turn gives it one default agency if it had none, renames a lone legacy one, and leaves every other tenant's agencies alone |
| Agencies.LoneLegacyRenamed | prisma/seeds/iam.seed.ts:949-964 | a tenant's lone agency called Siège or Headquarters gets the default name and is counted once; no other agency changes |
| Agencies.RenamedAreCounted | prisma/seeds/iam.seed.ts:936-998 | over a whole pass the agencies counted as renamed are those that end with another name |
| Agencies.StaffGoHome | prisma/seeds/iam.seed.ts:974-990 | unassigned staff go to an agency of theirs with the default name if there is one when the turn ends |
| Agencies.PassQuiets | prisma/seeds/iam.seed.ts:928-998 | after a pass every tenant gone through has an agency, no lone legacy name and no staff without an agency |
| Agencies.UsersAfter | prisma/seeds/iam.seed.ts:981-991 | every staff member without an agency now belongs to one of their own tenant's; nobody else is touched |
| Agencies.CountersAreChanges | prisma/seeds/iam.seed.ts:936-998 | agencies created are the growth of the table, users assigned the staff who no longer lack an agency |
| Agencies.AgencyDb.BackfillVirtualRegisters | prisma/seeds/iam.seed.ts:876-902 | appends the missing virtual registers in order and counts them |
| Agencies.RegistersAfter | prisma/seeds/iam.seed.ts:842-848 | each agency ends with one virtual register, or as many as it had; nothing else gains any |
| Agencies.RegistersAdded | prisma/seeds/iam.seed.ts:876-902 | the registers there were stay, and every one added is a virtual one of a listed agency |
| Agencies.RepeatingWritesNothing | prisma/seeds/iam.seed.ts:876-998 | repeating both backfills, in either language, writes nothing and reports nothing |
| StaffSync.Primary | prisma/seeds/staff-rbac-sync.backfill.ts:167-177 | the ACTIVE assignment with the latest start date, if there is any |
| StaffSync.StaffDb.RunPhase | prisma/seeds/staff-rbac-sync.backfill.ts:64-215 | one phase writes and counts every row of the table as the phase's one-row step does |
| StaffSync.StaffDb.BackfillTenant | prisma/seeds/staff-rbac-sync.backfill.ts:58-215 | three phases in order, each reading what the one before wrote |
| StaffSync.StaffDb.Run | prisma/seeds/staff-rbac-sync.backfill.ts:217-253 | dry or applied, the report is the forecast made on the tables before the run; a dry run writes nothing |
| StaffSync.OrphanRepaired | prisma/seeds/staff-rbac-sync.backfill.ts:64-108 | a STAFF user without a staff row ends with an ACTIVE one of the tenant and the user's agency, holding one ACTIVE assignment of the user's role and agency that starts now |
| StaffSync.BareRepaired | prisma/seeds/staff-rbac-sync.backfill.ts:110-152 | a staff row without an ACTIVE assignment keeps its assignments and gains one of the user's role with the row's agency |
| StaffSync.MisalignedRepaired | prisma/seeds/staff-rbac-sync.backfill.ts:154-214 | IAM winning, the primary assignment alone takes the user's role; RH winning, the user alone takes the tenant's role of the assignment's name, where there is one |
| StaffSync.WrittenIff | prisma/seeds/staff-rbac-sync.backfill.ts:64-214 | those are the only users written to |
| StaffSync.RunAllAt | prisma/seeds/staff-rbac-sync.backfill.ts:243-253 | over a whole run each user is repaired by the one tenant they belong to, and by no other |
| StaffSync.ReportIsDifference | prisma/seeds/staff-rbac-sync.backfill.ts:64-253 | the whole report is the difference between the tables, user by user: rows and assignments gained, assignments rewritten, roles changed; and why others were left as they were |
| StaffSync.EarlyPhasesAddNoWork | prisma/seeds/staff-rbac-sync.backfill.ts:64-214 | what phases 1 and 2 write leaves phases 2 and 3 the work they would have had anyway |
| StaffSync.DryRunForetellsApply | prisma/seeds/staff-rbac-sync.backfill.ts:64-214 | from any tables and under either arbitration, a dry run and an applied run report the same |
| StaffSync.LatestIsPrimary | prisma/seeds/staff-rbac-sync.backfill.ts:167-172 | with distinct start dates the query has one possible answer |
| StaffSync.PassAligns | prisma/seeds/staff-rbac-sync.backfill.ts:154-214 | exactly the rows a pass leaves misaligned: those it found so, RH winning, with no role of the target name |
| StaffSync.RolesAgree | prisma/seeds/staff-rbac-sync.backfill.ts:154-214 | after a pass the latest ACTIVE assignment of an ACTIVE staff row names the user's role, both non-external |
| StaffSync.SecondPassWritesNothing | prisma/seeds/staff-rbac-sync.backfill.ts:79-214 | after a pass no phase has anything left to write to a user |
| StaffSync.SecondPassIsQuiet | prisma/seeds/staff-rbac-sync.backfill.ts:79-214 | a second applied call for a tenant writes nothing and reports no creation and no realignment |
| StaffSync.SecondRunIsQuiet | prisma/seeds/staff-rbac-sync.backfill.ts:217-253 | nor does a second whole run over the same tenants, in any order, under the same arbitration or RH after IAM |
| StaffSync.TenantsAreIndependent | prisma/seeds/staff-rbac-sync.backfill.ts:243-253 | repairing one tenant changes nothing another tenant's call reads, writes or counts |
| StaffSync.EarlierTenantsChangeNoReport | prisma/seeds/staff-rbac-sync.backfill.ts:243-253 | a tenant's call reports what it would have reported at the start of the run |
| StaffSync.StaffDb.BackfillStaffFromUsers | prisma/seeds/iam.seed.ts:1408-1438 | every STAFF user without a staff row gets one; the counters are how many STAFF users there were and how many of them had none |
| StaffSync.BootThenSyncAgree | prisma/seeds/iam.seed.ts:1408-1438 | whether or not the boot backfill ran first, the sync creates as many assignments and leaves internal users the same rows |
| CrmBackfill.CustomerDb.LinkUsers | prisma/seeds/crm-customer.backfill.ts:42-89 | the loop over the users as read at its start, up to a unique constraint failing |
| CrmBackfill.PhoneBeforeEmail | prisma/seeds/crm-customer.backfill.ts:59-74 | a live row with the user's phone is taken whoever has their email: linked to the user, given the keys it lacked, nothing else changed; the run ends instead where that would put a key on two rows |
| CrmBackfill.ThenByEmail | prisma/seeds/crm-customer.backfill.ts:59-74 | where no live row has their phone, the live row with their email is taken likewise |
| CrmBackfill.ElseNewRow | prisma/seeds/crm-customer.backfill.ts:75-87 | where none has either, a new row gets the user's id, phone and email |
| CrmBackfill.CrashEndsRun | prisma/seeds/crm-customer.backfill.ts:48-89 | a violated constraint ends the run |
| CrmBackfill.PassCounts | prisma/seeds/crm-customer.backfill.ts:48-89 | the rows created are the growth of the table, and a completed pass creates or links one for each user who had none |
| CrmBackfill.NothingOverwritten | prisma/seeds/crm-customer.backfill.ts:65-73 | no row disappears and no given phone or email is overwritten |
| CrmBackfill.RunUnique | prisma/seeds/crm-customer.backfill.ts:65-87 | no user, phone or email is on two rows after a run if none was before |
| CrmBackfill.LastIsServed | prisma/seeds/crm-customer.backfill.ts:56-87 | the last user of a completed pass is linked to a live row that has a phone and an email if the user does |
| CrmBackfill.SecondPassCreatesNone | prisma/seeds/crm-customer.backfill.ts:48-89 | if every live linked row carries its user's phone or email, a second pass in any order creates no customer, even where users who share a phone take the row from each other |
| CrmBackfill.LinkLastsIffSafe | prisma/seeds/crm-customer.backfill.ts:48-89 | whoever has an account or signs up, ids and emails being unique, a completed pass leaves a linked user a row to find exactly when a live row carries their keys or no one else can find their own row |
| CrmBackfill.UnsafeCanBeRobbed | prisma/seeds/crm-customer.backfill.ts:56-74 | otherwise one new account, with an id and an email of its own, takes the row, and the user is left with none to find |
| CrmBackfill.NeedsNewGetsNew | prisma/seeds/crm-customer.backfill.ts:75-87 | and the next pass then gives the user who lost it a second customer, or fails on a unique constraint |
| CrmBackfill.NothingFurtherIffAllLinked | prisma/seeds/crm-customer.backfill.ts:42-170 | of all tickets and parcels a call has gone through, a second call over the same users links none further exactly when the first left every user with a customer |
| CrmBackfill.ApartAllLinked | prisma/seeds/crm-customer.backfill.ts:48-89 | where no two users share a phone and no live row is claimed by two of them, a completed pass leaves every user with a customer |
| CrmBackfill.SecondCallIsQuiet | prisma/seeds/crm-customer.backfill.ts:16 | so there a second whole call changes no customer and links no further ticket or parcel |
| CrmBackfill.OwnerIsTheirs | prisma/seeds/crm-customer.backfill.ts:97-119 | a ticket's owner is the passenger's own row if there is one, else a live row with the ticket's phone, else nobody |
| CrmBackfill.LinkTickets | prisma/seeds/crm-customer.backfill.ts:91-125 | every unlinked ticket gets its passenger's row, else the live row with the passenger's phone; linked ones stay, and the counter is how many were linked |
| CrmBackfill.LinkParcels | prisma/seeds/crm-customer.backfill.ts:127-170 | every parcel gets the links it lacks and can have, the others stay, and the counter is how many changed |
| CrmBackfill.PartiesAreTheirs | prisma/seeds/crm-customer.backfill.ts:141-163 | a new sender is the sending user's row; a new recipient a live row with the phone, or with the email if there is no phone to look for |
| CrmBackfill.RefreshCounters | prisma/seeds/crm-customer.backfill.ts:172-199 | every live row's three counters are recomputed and a deleted row's are kept; over the live rows they add up to the valid tickets with a live customer, the parcels with a live sender plus those with a live recipient, and those tickets' price within half a cent a row |
| CrmBackfill.CountersAre | prisma/seeds/crm-customer.backfill.ts:178-195 | a row's counters are how many valid tickets it has, and how many parcels it sent and received |
| CrmBackfill.CountersConserve | prisma/seeds/crm-customer.backfill.ts:178-195 | whatever has owners, tickets, parcels sent or received: counting it row by row over the live rows gives how many have a live owner |
| CrmBackfill.AmountsConserve | prisma/seeds/crm-customer.backfill.ts:178-195 | the amounts in cents add up to what the valid tickets of live customers cost, within half a cent a row |
| ManifestBackfill.KeyReadsBack | prisma/seeds/manifest-workflow.backfill.ts:38-48 | the parsers read back the trip and the kind from every storage key the manifest service writes |
| ManifestBackfill.ExtractTripIsFirst | prisma/seeds/manifest-workflow.backfill.ts:38-41 | of any key the trip is read at the first place that has the shape of the pattern, and nothing if none has |
| ManifestBackfill.TripHereMeans | prisma/seeds/manifest-workflow.backfill.ts:38-41 | that shape is `/manifests/`, the trip, not empty and without a slash, and a slash |
| ManifestBackfill.ExtractKindIsFirst | prisma/seeds/manifest-workflow.backfill.ts:43-48 | the kind likewise |
| ManifestBackfill.KindHereMeans | prisma/seeds/manifest-workflow.backfill.ts:43-48 | its shape is `/manifests/`, a segment, one of three words and a slash, letters in either case |
| ManifestBackfill.RowOfWrittenKey | prisma/seeds/manifest-workflow.backfill.ts:88-140 | a signature of a key the manifest service writes is about that trip and kind, whatever kind it declares, and makes a row with that key, the PDF indexed under its resource, and who signed when |
| ManifestBackfill.PdfIndexIsLast | prisma/seeds/manifest-workflow.backfill.ts:76-86 | the PDF of a resource is that of its last log entry that names one |
| ManifestBackfill.ManifestDb.Run | prisma/seeds/manifest-workflow.backfill.ts:61-152 | the table and the four counters after all signatures; they add up to the signatures scanned, and created is the growth of the table |
| ManifestBackfill.FatesAddUp | prisma/seeds/manifest-workflow.backfill.ts:88-149 | every signature meets one fate, and each creation is one more row |
| ManifestBackfill.FirstUsableIsEarliest | prisma/seeds/manifest-workflow.backfill.ts:66-73 | with signatures in order of time, the one used for a key is the earliest usable one |
| ManifestBackfill.RowsAfter | prisma/seeds/manifest-workflow.backfill.ts:108-145 | under every key: the row that was there, else one made from the first usable signature, else nothing |
| ManifestBackfill.SecondPassCreatesNone | prisma/seeds/manifest-workflow.backfill.ts:4-19 | when no insert throws, a second pass creates nothing and changes nothing |
| ModuleUsage.UsageDb.BackfillDay | prisma/seeds/module-usage.backfill.ts:39-79 | one day over all tenants and modules: the rows upserted and how many |
| ModuleUsage.UsageDb.Backfill | prisma/seeds/module-usage.backfill.ts:81-117 | a period that is not above 0 and at most 365 writes nothing; otherwise the whole window is gone through |
| ModuleUsage.DaysAt | prisma/seeds/module-usage.backfill.ts:104-113 | each key of the window is decided by its own day's logs; every other key is left as it was |
| ModuleUsage.RowCounts | prisma/seeds/module-usage.backfill.ts:39-76 | the row of a day holds how many log entries hit the module that day and how many users they name; a day without hits writes none |
| ModuleUsage.TotalIsUsed | prisma/seeds/module-usage.backfill.ts:76-117 | the reported total is how many modules were used, over days and tenants |
| ModuleUsage.MidnightBefore | prisma/seeds/module-usage.backfill.ts:33-37 | the start of a day is the midnight at or before the moment, less than a day earlier |
| ModuleUsage.WholePeriod | prisma/seeds/module-usage.backfill.ts:90-104 | a whole number of days goes that many days back, one round each |
| ModuleUsage.RerunChangesNothing | prisma/seeds/module-usage.backfill.ts:20-23 | a rerun on the same log leaves the table unchanged |
| ModuleUsage.WrittenIsWindow | prisma/seeds/module-usage.backfill.ts:45-76 | the counts written for one tenant and module add up to the matching logs of the half-open window |
| ModuleUsage.TableConserves | prisma/seeds/module-usage.backfill.ts:45-76 | the rows the table then holds add up to those logs plus exactly the actions of the rows it held for days that have no logs now |
| ModuleUsage.TableAddsUpIff | prisma/seeds/module-usage.backfill.ts:68-73 | so the table adds up exactly when every such row counts no action |
| ModuleUsage.StaleRowSurvives | prisma/seeds/module-usage.backfill.ts:68 | a row of five actions for a day without logs survives, and the table counts five too many |
| ModuleUsage.OneDayEach | prisma/seeds/module-usage.backfill.ts:104-106 | each moment of the window falls in exactly one of its days |
| ModuleUsage.UsersWithinActions | prisma/seeds/module-usage.backfill.ts:47-66 | unique users never exceed actions |
| ModuleUsage.UsersAreNamed | prisma/seeds/module-usage.backfill.ts:55-66 | a user is counted exactly when a matching log of the day names them |
| ModuleUsage.WholeDaysEndToday | prisma/seeds/module-usage.backfill.ts:83-91 | the window ends at the start of today exactly when the period is whole to the millisecond, and otherwise after it |
| Itinerary.SegmentOf | scripts/test-google-maps-route.ts:208-216 | the segment whose two kept stations bracket a stop, or none |
| Itinerary.ImputeTolls | scripts/test-google-maps-route.ts:204-218 | the map holds, for each segment, the marker tolls inside it |
| Itinerary.BuildRows | scripts/test-google-maps-route.ts:226-261 | one row for each pair of successive kept stations, with its distances and toll |
| Itinerary.PriceRows | scripts/test-google-maps-route.ts:268-271 | prices every row in place by the prorata formula, and changes nothing else |
| Itinerary.Compare | scripts/test-google-maps-route.ts:200-271 | the whole computation: the table over the route's stops, and its two price columns |
| Itinerary.RowsFollowRoute | scripts/test-google-maps-route.ts:143-261 | with both ends located, the rows lead from the origin through exactly the waypoints that are stations with coordinates, in order, to the destination, over the distances between them or nothing where they run backwards, each with the provider's answer for its segment |
| Itinerary.WaypointTolls | scripts/test-google-maps-route.ts:143-261 | and their tolls add up to the tolls of all waypoints that are markers or stations with coordinates |
| Itinerary.SegmentToll | scripts/test-google-maps-route.ts:204-248 | each row is charged for the stretch after its first station up to and with its second |
| Itinerary.RowPrices | scripts/test-google-maps-route.ts:224-271 | each of a row's two prices is its distance's part of the base price, to the nearest unit |
| Itinerary.ComparisonAddsUp | scripts/test-google-maps-route.ts:171-271 | the prices in the table add up to the base price within n/2: after whenever the provider's total is not zero, before where the route draws no warning |
| Itinerary.EveryMarkerBracketed | scripts/test-google-maps-route.ts:208-217 | every marker between the first and last kept station lies in exactly one segment |
| Itinerary.TollsConserved | scripts/test-google-maps-route.ts:200-261 | segment tolls add up to the tolls of all kept stations but the first plus all markers between the first and last |
| Itinerary.TollsAccountedFor | scripts/test-google-maps-route.ts:200-261 | what of the whole route's tolls is charged to no segment |
| Itinerary.RoundingBound | scripts/test-google-maps-route.ts:268-271 | n rounded prices add up to within n/2 of the unrounded sum |
| Itinerary.GooglePricesAddUp | scripts/test-google-maps-route.ts:263-270 | the provider's prices add up to within n/2 of the base price |
| Itinerary.DbDistancesAddUp | scripts/test-google-maps-route.ts:228-231 | with both ends kept, the clamped differences add up to the route's length plus what its distances regress |
| Itinerary.DbPricesAddUp | scripts/test-google-maps-route.ts:224-271 | with both ends kept the database prices are within n/2 of the unrounded prorata, which is the base price exactly when no kept distance runs backwards, or it is zero |
| Itinerary.MonotonyBreaks | scripts/test-google-maps-route.ts:171-181 | exactly the stops whose distance is below the one before |
| Itinerary.NoWarningNoDrift | scripts/test-google-maps-route.ts:171-271 | a route that draws no warning is priced to its base price, within n/2 |
| Csv.ExportReadsBack | frontend/components/DataTableMaster.tsx:133-144 | a reader for section 2 of RFC 4180 returns exactly the header and the cells, for any cells and any number of rows, exactly when there is a column |
| Csv.ExportInjective | frontend/components/DataTableMaster.tsx:133-144 | no two tables with columns export to the same text |
| Csv.RecordReadsBack | frontend/components/DataTableMaster.tsx:134-140 | one line reads back as its cells whatever follows it |
| DataTable.FourPassesAreOne | frontend/components/DataTableMaster.tsx:216-218 | the four replacements do what one pass over the original characters would |
| DataTable.EscHtmlShowsBack | frontend/components/DataTableMaster.tsx:216-218 | escaped text shows as the text itself |
| DataTable.EscHtmlNoMarkup | frontend/components/DataTableMaster.tsx:216-218 | escaped text holds none of the characters that open or close a tag or an attribute |
| DataTable.PagesCover | frontend/components/DataTableMaster.tsx:321-323 | there are just enough pages |
| DataTable.PagesAreTheList | frontend/components/DataTableMaster.tsx:320-323 | page after page is the whole sorted list, once and in order |
| DataTable.PageHolds | frontend/components/DataTableMaster.tsx:321-323 | a page holds its rows of the list, fewer only at its end; past the last page the last is shown |
| DataTable.ToggleAllTwice | frontend/components/DataTableMaster.tsx:339-350 | toggling a page twice restores the selection exactly when the page was wholly selected or wholly not |
| DataTable.ToggleAllDecides | frontend/components/DataTableMaster.tsx:339-350 | a page selected in part or not at all becomes wholly selected, a page wholly selected is cleared |
| DataTable.Table.ToggleAll | frontend/components/DataTableMaster.tsx:345-350 | the page ends wholly selected or wholly not, and no row off the page changes |
| DataTable.Table.ToggleRow | frontend/components/DataTableMaster.tsx:343-344 | one row flips, the others stay |
| DataTable.Table.HandleSort | frontend/components/DataTableMaster.tsx:325-336 | the clicked column sorts, descending exactly if it was sorting ascending |
| EndpointAudit.LiteralVars | scripts/audit-endpoints.py:104-107 | the literal bases: every declared name, with its last declaration |
| EndpointAudit.BaseVars | scripts/audit-endpoints.py:104-116 | the loop ends, keeps the literal bases, and binds exactly the names a reference chain reaches, each to such a chain's expansion |
| EndpointAudit.FollowExpands | scripts/audit-endpoints.py:108-116 | a reference chain applies exactly when each declaration refers to the name before it, and expands to its literal base and all its tails |
| EndpointAudit.SplitIffJoin | scripts/audit-endpoints.py:164-167 | cutting at the slashes is the one way to read a text as slash-free parts with slashes between |
| EndpointAudit.SegmentsOfPath | scripts/audit-endpoints.py:164-167 | the segments of a path under /api are its parts, with slashes at its end or without |
| EndpointAudit.SegmentsElsewhere | scripts/audit-endpoints.py:164-167 | so are those of a path that does not start with /api |
| EndpointAudit.SegmentsSlashFree | scripts/audit-endpoints.py:164-167 | no segment of any path holds a slash, and only the bare prefix or nothing has no segments |
| EndpointAudit.CompatibleIffMeet | scripts/audit-endpoints.py:178-185 | two patterns pass the segment test exactly when one actual path is covered by both |
| EndpointAudit.Match | scripts/audit-endpoints.py:164-186 | true exactly when some claim has a suitable verb and shares an actual path with the route |
| EndpointAudit.ClaimsPaths | scripts/audit-endpoints.py:170-186 | a claimed URL claims a route, both as they are written, exactly when the verbs suit and one path has the shape of both |
| EndpointAudit.ConcreteCall | scripts/audit-endpoints.py:170-186 | a call of a concrete path claims exactly the routes of its verb whose pattern covers the path part by part |
| EndpointAudit.Partition | scripts/audit-endpoints.py:205-216 | the likely and unmounted routes in order, and the three parts' sizes adding up to all routes |
| EndpointAudit.EachRouteInOnePart | scripts/audit-endpoints.py:208-216 | every occurrence of a route lands in exactly one part |
| EndpointAudit.PartsInOrder | scripts/audit-endpoints.py:205 | the unmounted routes of a list are those of its first part, then those of its second |
| EndpointAudit.TracedInOrder | scripts/audit-endpoints.py:206-215 | and so are the likely ones and the rest of them |
| EndpointAudit.MissingBackend | scripts/audit-endpoints.py:218-240 | exactly the calls with a definite verb that no route answers |
| EndpointAudit.AnsweredIffMounts | scripts/audit-endpoints.py:164-240 | a call is answered exactly when it mounts some route of its verb |
| GraphChecksum.SortIsStable | prisma/seeds/dev.seed.ts:181-188 | the sort permutes, orders, and keeps equal keys in the order they came |
| GraphChecksum.SortsAgree | prisma/seeds/dev.seed.ts:181-188 | two sequences sort to one exactly when they list the elements of each key in one order |
| GraphChecksum.PayloadIsTheGraph | prisma/seeds/dev.seed.ts:174-190 | the payload is the graph itself up to reordering, with nodes, edges, guards and side effects in their orders |
| GraphChecksum.PayloadsAgree | prisma/seeds/dev.seed.ts:174-190 | for all graphs, the payloads are equal exactly when entity types agree and the nodes and edges of each id come in one order, up to guards and side effects |
| GraphChecksum.EqualPayloadsSameGraph | prisma/seeds/dev.seed.ts:174-190 | equal payloads come from one graph up to reordering |
| GraphChecksum.PayloadIsNormalForm | prisma/seeds/dev.seed.ts:174-190 | with distinct ids the payloads are equal exactly for one graph up to reordering nodes, edges, guards and side effects |
| GraphChecksum.DuplicateIdsTellOrder | prisma/seeds/dev.seed.ts:181-182 | two nodes with one id give away the order they were written in |

## Left out

- The web services, screens, dialogs, routing, localisation and network clients: no logic of the kind modelled here.
- Prisma, PostgreSQL row policies, Redis, Vault and map providers: replaced by in-memory tables and arbitrary answers.
- SHA-256 and JSON text: the checksum model stops at the payload.
- The regular expressions of the endpoint audit: the model starts from the declarations and calls they extract; `literal_in_source` is any test on the route.
- The data table's search filter and column comparator: the comparator is not a consistent order when both keys are null, so pages are cut from any sorted list.
- The engine's guards, audit sink, side effects and simulation mode: a guard, a failed side effect or a crash is the event `Refuse`.
- The engine's early exit is modelled as something a call may do, not must do, when its key is already logged; the check inside the transaction remains decisive.
- Blueprint graphs, blueprint installs, platform roles and their permissions, plans, payment methods and document types: constant data or single upserts.
- Permissions of the seeded roles that no default transition asks for.
- Phone normalisation, and `coerceKind` on the log's JSON: the CRM and manifest models take their results.
- Unique constraints other than those a backfill tests itself are taken to hold, except in `CrmBackfill`, where a violated one ends the run.
- Database errors, which the staff sync catches tenant by tenant.
- DutyBalance: says nothing about how long a rest lasts, because the table does not.
- SameRuns: concerns states and actions; which of the alternative permissions survives is the subject of RebookingNeedsAnAgent.
- RefundsWereDecided: promises nothing for a ticket some service writes as refunded beside the engine; no service does.
