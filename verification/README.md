# A verified model of the routing panel

The repository is a control plane for a fleet of proxy nodes. It compiles access policy into a first-match routing
table, applies changes to running processes with compensation when something fails, sells time-limited services on
ports, watches probes, counts traffic, moves a DNS record between two nodes, and prepares backups. This project models
the kernels in which a mistake would be silent, and proves what each of them promises. `dafny verify dfyconfig.toml`
checks all of it.

## How it is laid out

| Files | Kernel |
|---|---|
| `Routing`, `AccountLimits`, `RenderPipeline`, `RenderDecisions`, `PanelInventory`, `ConnectionMarks` | The routing compiler. One meaning, `Route` (first matching rule, else the first outbound), and every pass as a method proved against a function on the rule list: fragment, rebinding to present accounts, merge, server build, per-account cloning; then the marks clones carry and the kernel's use of them. |
| `ApplyTransaction` | One apply as a transaction over a database, five files, two processes and a limiter. Every external call may fail, before or after taking effect; a commit either happens and is reported, or neither. |
| `CommerceModel`, `CommerceInvariants`, `CommerceRuns`, `CommerceUsage`, `CommerceStore` | Orders, payment proofs, services and ports: the step function, the invariant every step keeps, what follows over runs, the traffic a new service starts with, and the row-by-row store. |
| `IncidentModel`, `IncidentProperties`, `IncidentStore` | Failure streaks, incidents, and the diagnosis queue a second worker drains. |
| `TrafficModel`, `TrafficProperties`, `TrafficStore` | Two traffic tables fed by batched log reading and drained counters, and the console's series. |
| `FailoverModel`, `FailoverProperties`, `FailoverStore` | The DNS failover controller over probe traces, and the peak-window clock. |
| `Dotenv*` | Reading and rewriting dotenv files: characters, one value, one line, whole files, and the text on disk. |
| `RestorePaths`, `RestoreTree` | Accepted restore paths, and the all-or-nothing publish into an existing directory. |
| `ProxyHeader`, `EntryGateway`, `AliasIdentity` | The PROXY protocol header, the gateway's backend selection, and one alias followed end to end. |
| `LimiterObservation` | Counter evidence kept across inspections of the limiter. |
| `DomainClassifier` | Batch classification with providers that may fail at any batch, and saves that may fail. |
| `Common`, `Text`, `Bits` | Options and results, decimal text, words as sets of bits. |

State the program updates in place is a class whose methods are tied, field by field, to functions on a snapshot; the
theorems are lemmas about those functions. Calls to other processes, the network and the clock are parameters that may
take any value, so a theorem about an operation holds for every way its calls can turn out.

## Where the code and its promise part

Each of these is proved, and none is repaired in the model.

- A failed apply in direct mode restores the node's limits exactly when limits are off or the old inventory file
  recorded them; otherwise the new limits stay (`ApplyTransaction.LimitsRestoredIffRecorded`).
- With an external reloader a failed apply can leave a new restart marker behind: the line that would take it back asks
  for direct mode, in which the marker is never created. A failure is sure to leave the marker as it was iff there was
  one already or no reload was asked for; in direct mode, iff there was none (`ApplyTransaction.FailureKeepsMarkerIff`;
  `ApplyTransaction.MarkerAfterApply` says per call when the marker stands afterwards).
- The limiter daemon accepts a produced configuration unless an outbound of the input already bears an account's tag
  prefix with another mark (`AccountLimits.DaemonAcceptsProducedConfig`, an equivalence, and
  `AccountLimits.SquattedPrefixIsRefused`, such a configuration).
- Dotenv printing refuses line feeds and carriage returns only. The eight other characters at which a text is split
  into lines pass. A rewritten file can be read back iff no updated value holds one, except where the value stands
  already; else it cannot be read any more (`DotenvSurvival.WrittenFileReadsBackIff`, an equivalence over every readable
  text; `DotenvSurvival.NewFileRoundTrip` for a new file, `DotenvSurvival.NextLineIsRefused` for one such value).
- The gateway accepts an inbound tag with leading zeros and then hands the alias's connections to another socket than
  the one the inbound listens on (`EntryGateway.AliasReachesItsListener`, an equivalence over every accepted
  configuration, and `EntryGateway.LeadingZeroAliasIsMissed`, such a configuration).
- A bought service starts with whatever was counted under the port number it is given, and moving a used port to another
  number leaves its count behind. New services start unused if no used port was moved and traffic was counted for
  existing ports only (`CommerceUsage.NewServiceInheritsUsage`, `CommerceUsage.EditLeavesNoUsageIff`, an equivalence,
  `CommerceUsage.BoughtServicesStartUnused` over runs, and `CommerceUsage.MovedPortPassesItsUsageOn`, such a port).
- A fault while the backups of a failed restore are put back stops the rollback, and the backups are deleted in any case:
  at most one file is then missing (`RestoreTree.OneFileCanBeLost`).
- In the peak-window clock the remainder is never zero, so the fallback to a whole day is never taken
  (`FailoverProperties.NextTransitionIsExact` shows the result below a day).

## Model

| member | source | states |
|---|---|---|
| AccountLimits.MarkAccountRoutes | app/xray/account_limits.py:62-117 | Succeeds exactly on valid ports, unchained transports, rules without balancers and a transport default; the result is the marked configuration of the ports in ascending order. |
| AccountLimits.BuildClones | app/xray/account_limits.py:74-87 | The clones in port order, then tag order; refuses chained outbounds, and only when there is a port to clone for. |
| AccountLimits.BuildRules | app/xray/account_limits.py:88-108 | Each transport rule is preceded by its copies; a rule to an unknown tag stays, and is refused only if it names a balancer. |
| AccountLimits.CopiesOfRule | app/xray/account_limits.py:96-107 | The narrowed copies of one rule, per port first for the inbound and then for the user, left out where the rule already excludes that identity. |
| AccountLimits.CloningAttributesExactly | app/xray/account_limits.py:62-117 | For every configuration with a transport default and every request whatever: the marked table decides as the original, with a transport decision of a listed account replaced by that account's clone. |
| AccountLimits.CloningPreservesRouting | app/xray/account_limits.py:62-117 | Erasing `account-P-` from the marked decision gives the original decision, default included, wherever that decision was not itself named `account-`. |
| AccountLimits.AttributionIsCompleteAndExclusive | app/xray/account_limits.py:88-114 | A request of a listed account that routes to a transport leaves by exactly that account's clone; blocked, unknown and unlisted ones are unchanged; no other account's clone is ever chosen. |
| AccountLimits.ClonesCarryTheMark | app/xray/account_limits.py:81-87 | Every clone a rule can name exists, and all clones of that name are the original renamed, marked with the account's mark and not multiplexed. |
| AccountLimits.EraseCloneTag | app/xray/account_limits.py:82 | The transport can be read back off a clone's tag. |
| AccountLimits.CloneTagInjective | app/xray/account_limits.py:82 | Clone tags determine both port and transport. |
| AccountLimits.CloneTagPrefix | scripts/apply_account_limits.py:79-81 | A clone's tag starts with the prefix of its own account and of no other. |
| AccountLimits.LimitsManifest | app/xray/account_limits.py:24-37 | Succeeds iff ports are distinct and valid; the entries are exactly the accounts with their marks, in strict port order. |
| AccountLimits.ManifestIsCanonical | app/xray/account_limits.py:57-59 | The manifest, and with it its hash, does not depend on the order of the accounts. |
| AccountLimits.ManifestSurvivesValidation | app/xray/account_limits.py:40-54 | Validating a produced manifest gives the same manifest back. |
| AccountLimits.DaemonAcceptsProducedAccount | scripts/apply_account_limits.py:79-85 | The daemon's check of one account passes on marked output iff no outbound of the input bears that account's prefix with another mark. |
| AccountLimits.DaemonAcceptsProducedConfig | scripts/apply_account_limits.py:76-85 | The same for a whole manifest whose accounts were all cloned for. |
| AccountLimits.SquattedPrefixIsRefused | scripts/apply_account_limits.py:76-85 | A configuration the cloning pass accepts and the daemon refuses: an outbound of the input is named `account-5-x`. |
| PanelInventory.PayloadRendersIff | app/xray/apply.py:304-323 | The inventory renders iff live rows have valid ports that no two of them share. |
| PanelInventory.PayloadListsLivePorts | app/xray/apply.py:304-317 | The listed ports are exactly those of enabled, unexpired rows. |
| PanelInventory.PayloadLimitsLiveAccounts | app/xray/apply.py:318-322 | An account is throttled iff it is live, has an allowance and has used it up. |
| PanelInventory.InventoryAgreesWithMarkedRoutes | app/xray/apply.py:304-323 | Routes marked for the inventory's ports satisfy the daemon's check against the inventory's own limits, squatting outbounds excepted. |
| PanelInventory.RebindingFollowsTheLiveRow | app/xray/apply.py:316-317 | With the inventory's accounts, a port is captured by a policy iff the row now live on it has an active `all` row. |
| ConnectionMarks.AccountMarkInjective | app/xray/account_limits.py:12-21 | Different ports carry different marks. |
| ConnectionMarks.ReturnFilterSelectsTheAccount | scripts/apply_account_limits.py:195 | Saving an account's mark on a connection keeps the bits 0x00ff0000, and afterwards the return filter of account q matches iff q is that account. |
| ConnectionMarks.ForeignPacketsKeepTheMark | scripts/apply_account_limits.py:195 | A packet of no account leaves the stored mark as it is and matches no account's queue. |
| RenderPipeline.WriteRoutingFragment | app/xray/ai_routing/artifact.py:157-181 | A fragment is kept iff there is an upstream and something to route to it; its rules, scope and port list are those the policy describes. |
| RenderPipeline.MergeDynamicRouting | app/xray/render_config.py:135-189 | Merging fails only when a global catch-all has no tenant inbound to bind to; else it appends outbounds and the scoped rules after the static ones. |
| RenderPipeline.BuildServerConfig | app/xray/render_config.py:306-391 | The exact condition under which a server configuration is built, and that it is the merged one, marked when limits are on. |
| RenderDecisions.PortPolicyDecision | app/xray/render_config.py:117-189 | With a port policy, after fragment, rebinding, merge and build, a request on any served port (a listed one, or the configured one when nothing is listed) is blocked iff it is UDP to 443 and blocking is on, else goes to `ai_proxy` iff there is an upstream and its port's present account has an active `all` row or the domain is an AI domain, else direct. |
| RenderDecisions.LegacyDecision | app/xray/render_config.py:157-187 | The same table for the two modes without a port policy, and that merging succeeds in them. |
| RenderDecisions.ReusedPortFollowsItsHolder | app/xray/render_config.py:117-133 | A port answers for the account that holds it now: another account's catch-all never captures it. |
| RenderDecisions.LimitedDecision | app/xray/render_config.py:388-391 | With limits on, whatever verdict the built configuration gives, all but a block is carried out by the account's own marked outbound; the port served when there is no account keeps its verdict. |
| RenderDecisions.LimitedPolicyDecision | app/xray/render_config.py:117-189 | The whole table from policy rows to the marked configuration: what is not blocked leaves by the tenant's own copy of `ai_proxy` or of the direct outbound, chosen as in `PortPolicyDecision`. |
| RenderDecisions.PortPolicySparesForeign | app/xray/render_config.py:157-187 | With a port policy, a request on an inbound that is no tenant's is touched by no catch-all, whatever the policy: only the AI domains send it to `ai_proxy`. |
| RenderDecisions.AllTrafficSparesForeign | app/xray/render_config.py:157-187 | With all traffic routed to the AI node and no port policy, an inbound that is no tenant's keeps its direct or blocked verdict. |
| ApplyTransaction.ApplyService.PersistAndReload | app/xray/apply.py:188-302 | Step by step, the program does what the attempt and its compensation describe, for every way its calls turn out; an inventory that does not render fails it before anything is touched. |
| ApplyTransaction.ApplyService.TryApply | app/xray/apply.py:203-241 | The guarded part: inventory, rendering, validation, marker or restart, limiter, commit, in that order, stopping at the first failure. |
| ApplyTransaction.ApplyService.ReconcileLimits | app/xray/apply.py:159-175 | The receipt records success or refusal, a refusal is raised only when strict, and the inventory file is rewritten; in either mode, strict or not. |
| ApplyTransaction.ApplyService.ApplyMutation | app/xray/apply.py:109-124 | Counted traffic is committed first and stays; a failing change, rendering or apply rolls back the rest, files included; success leaves the rendered files and the changed database. |
| ApplyTransaction.AllOrNothing | app/xray/apply.py:188-302 | For every choice of failing calls: database and all five files new, or all of them as they were. |
| ApplyTransaction.CommitImpliesValidatedAndLoaded | app/xray/apply.py:204-241 | A commit implies that rendering and validation succeeded, that every changed configuration (against the prior file, the prior ports or what the node reported) was loaded by a restart or handed to the watcher, that a changed backup was restarted, and in direct mode the limiter accepted. |
| ApplyTransaction.CommitKeepsNodeInSync | app/xray/apply.py:232-241 | In direct mode, from a node in step with its files, a commit leaves it running the new files under the new limits iff a reload was asked for or rendering left the configuration as it was. |
| ApplyTransaction.RollbackRestoresNode | app/xray/apply.py:242-302 | In direct mode, from a node in step with its files, a failure whose compensating calls succeed leaves it on the prior configuration, and on the prior limits when the old inventory recorded them. |
| ApplyTransaction.LimitsRestoredIffRecorded | app/xray/apply.py:287-290 | Full restoration is guaranteed for every failure iff limits are off or the old inventory recorded them. |
| ApplyTransaction.MarkerAfterApply | app/xray/apply.py:217-245 | Exactly when the restart marker stands after an apply, in either mode and for every way its calls turn out. |
| ApplyTransaction.FailureKeepsMarkerIff | app/xray/apply.py:196-245 | A failed apply is sure to leave the marker as it was iff, with an external reloader, it stood already or no reload was asked for, and in direct mode, iff it did not stand. |
| CommerceInvariants.StepKeeps | app/state/commerce.py:496-1149 | Every operation, whatever its outcome, keeps the tables consistent: links between orders, services and ports, unique listen ports, one open order per service, and proofs that fit the orders' states. |
| CommerceInvariants.EveryRunConsistent | app/state/commerce.py:496-1149 | From consistent tables, the empty ones among them (`CommerceInvariants.EmptyIsConsistent`), every run of operations stays consistent. |
| CommerceInvariants.ReviewsJudged | app/state/commerce.py:924-944 | Judging the newest proof of an order together with the order keeps proofs and orders in agreement. |
| CommerceRuns.ServicesMatchPurchases | app/state/commerce.py:946-1094 | Services and fulfilled new purchases are in bijection through the source order. |
| CommerceRuns.ServicePortsAreExclusive | app/state/commerce.py:976-1030 | No two services share a port. |
| CommerceRuns.StepFollowsOrder | app/state/commerce.py:496-1149 | An order's status changes only along the listed moves, each caused by its own operation under its own guard; an order under review never expires; terminal orders do not change. |
| CommerceRuns.TerminalOrdersNeverMove | app/state/commerce.py:946-1149 | Over every run a fulfilled, expired or cancelled order keeps its whole row. |
| CommerceRuns.ServicesAreNeverLost | app/state/ports.py:505-600 | Over every run a service keeps its customer, source and port, and the port row exists and points back to it. |
| CommerceRuns.ServicePortsAreProtected | app/state/ports.py:505-517 | The port of a service can be neither deleted nor cleaned up. |
| CommerceRuns.FulfilSucceedsIff | app/state/commerce.py:946-1094 | An order under review can be fulfilled iff it is a renewal or a port is free: no other guard in the code can fail on consistent tables. |
| CommerceRuns.UnderReviewCannotExpire | app/state/commerce.py:496-507 | Expiry leaves an order under review untouched. |
| CommerceUsage.NewServiceInheritsUsage | app/state/commerce.py:976-1030 | A bought service starts with exactly the traffic counted under the port number it is given. |
| CommerceUsage.EditLeavesNoUsageIff | app/state/ports.py:459-483 | Editing a port leaves no count without a port iff the number stays or nothing was counted under it. |
| CommerceUsage.BoughtServicesStartUnused | app/state/ports.py:413-424 | After every run in which no used port was given another number and traffic was counted for existing ports only, a service bought next starts unused. |
| CommerceUsage.MovedPortPassesItsUsageOn | app/state/ports.py:459-483 | A used port is moved, and its old number is the next one handed out, with its count. |
| CommerceStore.Store.ExpirePendingOrders | app/state/commerce.py:496-507 | Row by row, exactly the overdue payable orders become expired. |
| CommerceStore.Store.PlaceOrder | app/state/commerce.py:515-600 | Order creation with its guards in the code's order; a refusal leaves all tables as they were. |
| CommerceStore.Store.SubmitProof | app/state/commerce.py:628-671 | A proof is added and the order put under review, or nothing changes. |
| CommerceStore.Store.LatestProof | app/state/commerce.py:924-944 | The proof with the highest id of the order. |
| CommerceStore.Store.FulfilOrder | app/state/commerce.py:946-1094 | Opening or renewing the service, judging the proof and closing the order happen together or not at all. |
| CommerceStore.Store.RejectOrder | app/state/commerce.py:1096-1123 | Refusing the newest proof and the order together. |
| CommerceStore.Store.CancelOrder | app/state/commerce.py:1125-1149 | Cancelling an order that is not closed. |
| CommerceStore.Store.AllocateListenPort | app/state/ports.py:413-424 | The lowest free port of the range, if any. |
| CommerceStore.Store.CleanUpLapsed | app/state/ports.py:586-600 | Exactly the lapsed ports without customer and service go, with their traffic. |
| CommerceStore.Store.RemovePort | app/state/ports.py:505-517 | A port of a customer or service is refused; another is deleted and lapsed ports are stopped, or nothing changes. |
| CommerceStore.Store.EditPort | app/state/ports.py:459-483 | New terms for one port, refused when the listen port is taken. |
| IncidentProperties.StreakRowsRefineHistory | app/probe_incidents.py:130-151 | From an empty store, under any interleaving, a place has at most the one streak row its plain history calls for, and its count is the trailing run of equal failures. |
| IncidentProperties.OpensExactlyAtThreshold | app/probe_incidents.py:172-206 | An incident opens exactly when a run reaches the threshold with none of its kind open, and starts with that many occurrences. |
| IncidentProperties.EveryRunSound | app/probe_incidents.py:119-207 | Over every run: one open incident per place and kind, occurrences equal threshold minus one plus the failure events, one recovery event iff recovered, and every long streak covered. |
| IncidentProperties.WorkersCannotDisturbProbes | app/probe_incidents.py:234-306 | Under any interleaving the probe side of the store depends on the recorded probes alone. |
| IncidentProperties.ClaimsAreALeaseApart | app/probe_incidents.py:234-252 | Two claims of one incident are at least the lease apart. |
| IncidentProperties.FinishedIsFinal | app/probe_incidents.py:302-306 | A finished incident stays finished and is never handed out again. |
| IncidentStore.Store.RecordProbe | app/probe_incidents.py:119-207 | The updates of streaks, incidents and events for one probe result. |
| IncidentStore.Store.ClaimNext | app/probe_incidents.py:242-252 | The qualified queued incident seen first is handed out and marked running. |
| IncidentStore.Store.RequeueStale | app/probe_incidents.py:234-240 | Exactly the running claims of the given age return to the queue. |
| IncidentStore.Store.ProcessOne | app/probe_incidents.py:485-514 | A turn claims at most one incident and finishes it with the diagnosis, or as failed, unless neither report could be written. |
| TrafficProperties.GroupOrderIrrelevant | app/state/traffic.py:130-163 | The groups of a batch may be upserted in any order. |
| TrafficProperties.BumpAddsOneLine | app/state/traffic.py:113-128 | Putting one more line into its group is counting that line alone. |
| TrafficProperties.SplitSyncEqualsOneSync | app/state/traffic.py:70-172 | Reading a growing log in two parts cut between lines counts what one reading would; reading again without growth counts nothing. |
| TrafficProperties.TotalsAreSumsOfDays | app/state/traffic.py:113-322 | Over every run of syncs, drains, resets and deletions, from tables that agree, the empty ones among them (`TrafficProperties.EmptyTablesAgree`), each port's three totals are the sums of its daily rows. |
| TrafficProperties.FleetSumsExchange | app/state/traffic.py:368-419 | Summing the fleet's days equals summing the ports' sums. |
| TrafficStore.Store.SyncAccessLog | app/state/traffic.py:70-172 | The batched sync leaves both tables and the cursor as line-by-line counting of the unread lines would. |
| TrafficStore.Store.SyncStats | app/state/traffic.py:204-252 | Drained bytes are added to both tables, and `last_seen` moves only for ports that moved bytes. |
| TrafficStore.Store.ResetPortUsage | app/state/traffic.py:254-270 | Bytes go, connections stay, in both tables and for one port. |
| TrafficStore.Store.DeletePortTraffic | app/state/ports.py:579-584 | Both tables lose exactly one port's rows. |
| TrafficStore.Store.QuerySeries | app/state/traffic.py:324-428 | One to thirty days ending today, a dense series per port, a fleet series and totals (bytes together included) that are the pointwise sums, and the ports ranked by bytes, equal ones in the given order. |
| TrafficStore.GroupLines | app/state/traffic.py:113-128 | The groups stand for exactly the lines read, whatever tables they are later added to. |
| FailoverProperties.CountersAreTrailingRuns | app/state/dns_failover.py:463-478 | From zero counters, whatever switches, rereads, skipped and failed probes come between, the two counters are the trailing equal results. |
| FailoverProperties.ExecutorErrorsAreInvisible | app/state/dns_failover.py:423-434 | Dropping every probe that could not be carried out changes no counter, target, record or switch of any run. |
| FailoverProperties.HysteresisBound | app/state/dns_failover.py:187-212 | While nothing but checks with one preference moves the target (rereads and manual switches that leave it alone may come between), k changes take at least (k - 1) / 2 full rounds of failure plus recovery threshold, and k / 2 from zero counters. |
| FailoverProperties.EveryRunIsDamped | app/state/dns_failover.py:187-212 | Every run whatever: k changes, d of them made by hand, by a reread or under the other preference, take at least (k - 3d - 2) / 2 rounds of probes. |
| FailoverProperties.RereadIsNotPaidFor | app/state/dns_failover.py:645-676 | Uncounted disturbances break the bound: a reread that finds the backup, and one healthy probe. |
| FailoverProperties.ChangesCostProbes | app/state/dns_failover.py:187-212 | The exact accounting behind it: every change but the first is paid for by its own filled threshold. |
| FailoverProperties.HysteresisBoundIsMet | app/state/dns_failover.py:187-212 | The cost is exact: for every k some trace changes the target k times with not one probe to spare. |
| FailoverProperties.LastDecisiveRunWins | app/state/dns_failover.py:401-501 | With a DNS API that works, the target is the one chosen by the last result that completed a run of its threshold's length. |
| FailoverProperties.CheckOverrulesHand | app/state/dns_failover.py:497-500 | A switch by hand between a check's two commits is overruled when the check has decided to switch and the DNS API works. |
| FailoverProperties.ServiceRuleRefinesManager | app/dns_failover.py:189-196 | With the primary preferred the service's rule is the manager's; with the backup preferred, its mirror image. |
| FailoverProperties.NextTransitionIsExact | app/state/dns_failover.py:159-169 | For different boundaries the next transition lies strictly within a day, the window's flag is constant until it and flips at it, across midnight or not. |
| FailoverStore.Service.RunCheck | app/state/dns_failover.py:401-501 | One check in its two commits, with a switch by hand between them or none: probe bookkeeping and evaluation, then a switch that may raise without moving the target; a disabled controller does nothing. |
| FailoverStore.Service.SwitchTarget | app/state/dns_failover.py:503-643 | A switch raises iff disabled, unconfigured or the DNS API failed; it then leaves target and record alone and logs the failure; otherwise the row follows what the record now holds. |
| FailoverStore.Service.RefreshSnapshot | app/state/dns_failover.py:645-676 | Rereading the record; unknown content counts as the primary. |
| DotenvScanners.ScanQuotedEnd | scripts/configure_backup_secrets.py:42-51 | The index of the closing quote, with escapes only in double quotes. |
| DotenvScanners.DecodeDoubleQuoted | scripts/configure_backup_secrets.py:54-71 | Decoding of escapes and doubled dollars. |
| DotenvScanners.FindInterpolation | scripts/configure_backup_secrets.py:74-86 | Reports iff some variable reference is neither behind a dollar nor behind an odd number of backslashes. |
| DotenvScanners.InlineCommentStart | scripts/configure_backup_secrets.py:89-105 | Where an inline comment starts outside quotes. |
| DotenvScanners.ParseEnvLines | scripts/configure_backup_secrets.py:130-149 | Later lines override earlier ones; managed keys are read strictly; the first bad line fails the file. |
| DotenvScanners.RenderEnv | scripts/configure_backup_secrets.py:321-362 | The rewritten lines, the closing line ending and the appended keys, or the first error. |
| DotenvValues.QuoteRoundTrip | scripts/configure_backup_secrets.py:197-202 | Every value without line feed and carriage return is printed, and reads back as itself without a reported reference. |
| DotenvValues.EscapedHasNoInterpolation | scripts/configure_backup_secrets.py:74-86 | No printed value is ever taken for one with a variable reference. |
| DotenvValues.PrintedValueParses | scripts/configure_backup_secrets.py:108-127 | The same with an inline comment behind the value. |
| DotenvValues.CommentSurvives | scripts/configure_backup_secrets.py:89-105 | The comment behind a printed value is found again, whatever quotes and hashes the value holds. |
| DotenvLines.AssignmentMatches | scripts/configure_backup_secrets.py:32-35 | A printed assignment matches the pattern again with the same indent, export and key, also for keys that begin with `export`. |
| DotenvLines.RenderedLineParses | scripts/configure_backup_secrets.py:339-356 | A rendered line says its updated value; a line without an updated key is left alone. |
| DotenvFiles.RenderThenParse | scripts/configure_backup_secrets.py:321-362 | For every readable line list and every update that renders: reading the output gives the old values with the updates laid over them, and nothing else. |
| DotenvFiles.OtherLinesAreUnchanged | scripts/configure_backup_secrets.py:339-359 | Every line keeps its place, indent, export, key and comment; a line without an updated key is unchanged, the last one perhaps gaining its ending. |
| DotenvFiles.RenderIsIdempotent | scripts/configure_backup_secrets.py:345-349 | Rendering again with the same updates is the identity. |
| DotenvFiles.RenderSucceedsIff | scripts/configure_backup_secrets.py:321-362 | Updating managed keys of a readable file fails iff a value holds a line break and does not already stand there. |
| DotenvRewrite.SplitIsWellSplit | scripts/configure_backup_secrets.py:166 | Splitting a text into lines loses nothing and yields lines that stand alone and fit together. |
| DotenvRewrite.JoinSplits | scripts/configure_backup_secrets.py:362 | Such lines, joined, split back into themselves. |
| DotenvSurvival.WrittenFileReadsBackIff | scripts/configure_backup_secrets.py:321-362 | For every readable text and every update that renders: the text written reads as the merged values iff each line assigning an updated key holds that value already or the value has no line boundary, and each appended value has none; otherwise it cannot be read at all. Where it reads, rewriting it with the same updates changes no character. |
| DotenvSurvival.NewFileRoundTrip | scripts/configure_backup_secrets.py:152-167 | Writing one accepted value into a new file and reading the file back succeeds iff the value holds none of the ten line boundaries. |
| DotenvSurvival.NextLineIsRefused | scripts/configure_backup_secrets.py:197-202 | One such value: a next-line character is printed, and the file is refused when it is read. |
| DotenvSurvival.BrokenFileFails | scripts/configure_backup_secrets.py:166 | Whatever lines stand before it and whatever text behind it, one value cut at a boundary makes the whole file unreadable. |
| RestorePaths.AcceptedPathsStayBelow | scripts/restore_backup.py:50-61 | Walking an accepted path from any root ends at the root plus its parts and never leaves the root on the way. |
| RestorePaths.SafeRelativeIsStable | scripts/restore_backup.py:50-61 | The printed form of an accepted path is accepted again, with the same parts. |
| RestoreTree.DirectIffLandsWhereItReads | scripts/restore_backup.py:459-463 | The symlink check is exact: a call on a path changes the place the path reads, wherever the tree's symlinks may lead, iff no directory on the way is a symlink. |
| RestoreTree.StaysDirect | scripts/restore_backup.py:505-519 | Publishing adds no symlinks: a path that passed the check at planning time still passes at every point of the run and of the rollback. |
| RestoreTree.Output.Plan | scripts/restore_backup.py:488-503 | Planning changes nothing; it yields a target and a faithful backup for each staged file, and without I/O faults fails only when there is no plan. |
| RestoreTree.Output.MakeParents | scripts/restore_backup.py:506-514 | Creating parent directories touches no file, and fails when a plain file is in the way. |
| RestoreTree.Output.PublishAll | scripts/restore_backup.py:505-519 | After any number of steps exactly the first staged files are in place, and the list of applied ones says how many. |
| RestoreTree.Output.RollBack | scripts/restore_backup.py:521-532 | Undoing the applied replacements, last first, gives every file and symlink back; a fault of an undoing call stops it at one entry, a directory that cannot be removed is skipped. |
| RestoreTree.Output.MergeStaging | scripts/restore_backup.py:479-532 | For a fault at any call of publishing: all files and symlinks as they were, or all staged files in place; if the rollback fails too, at most the one file it was putting back is missing. Nothing outside the output is ever changed, wherever its symlinks lead. Without faults it fails iff the tree cannot take the files. |
| RestoreTree.OneFileCanBeLost | scripts/restore_backup.py:521-532 | When the rollback fails, one file at most is missing, and every other is the old or the staged one, whole. |
| RestoreTree.OverlaidMeaning | scripts/restore_backup.py:505-519 | After success each staged file stands at its own target with its own data. |
| RestoreTree.OverlaidElsewhere | scripts/restore_backup.py:505-519 | After success every other file and symlink is as it was. |
| ProxyHeader.HeaderRoundTrip | scripts/legacy_entry_forwarder.py:15-29 | A header exists iff both addresses fit the family, and a receiver following section 2.2 of the PROXY protocol specification reads back both endpoints, the family and every byte behind the header. |
| ProxyHeader.TruncatedHeaderIsRefused | scripts/legacy_entry_forwarder.py:29 | The length field makes every proper beginning of a header recognisable as incomplete. |
| EntryGateway.RenderGateway | scripts/render_entry_gateway.py:16-85 | Accepts exactly the configurations that pass every check, and renders the ordered rules and backends. |
| EntryGateway.CheckPorts | scripts/render_entry_gateway.py:34-36 | The ports are valid, distinct, and not the entry's own. |
| EntryGateway.GatewayDestinations | scripts/render_entry_gateway.py:62-84 | A connection to an alias port goes to that alias's socket; another goes by server name to the shared socket, or else to the HTTPS backend. |
| EntryGateway.AliasReachesItsListener | scripts/render_entry_gateway.py:30-84 | In every accepted configuration, an alias's connections are handed to the socket its own inbound listens on iff the inbound's tag has no leading zero. |
| EntryGateway.LeadingZeroAliasIsMissed | scripts/render_entry_gateway.py:16-84 | A configuration the renderer accepts whose alias is handed to a socket none of its inbounds listens on. |
| AliasIdentity.PanelNumbersAreLegacyPorts | scripts/legacy_entry_forwarder.py:101-111 | The forwarder's ports are those of the gateway's legacy inbounds, in the same order. |
| AliasIdentity.ForwarderAgreesWithGateway | scripts/legacy_entry_forwarder.py:101-111 | Where both accept a configuration, forwarder and gateway agree on the entry port and on every alias. |
| AliasIdentity.AliasReachesItsOwnAccount | scripts/legacy_entry_forwarder.py:15-29 | End to end, for an accepted configuration and a tag without leading zero: the header is read back to the alias port, the gateway hands the connection to the socket its inbound listens on, the marked routes send it out by a copy that exists and bears the account's mark, and the saved mark matches that account's return filter and no other. |
| AliasIdentity.BuiltAliasReachesItsOwnAccount | app/xray/render_config.py:306-391 | The same for every configuration the panel itself builds from a port policy, with nothing assumed of tags or decisions: a request on an alias is blocked as QUIC or leaves by its own account's marked copy of the outbound the policy names. |
| AliasIdentity.TunnelReachesItsInbound | scripts/render_entry_gateway.py:62-84 | Of all legacy inbounds, the one whose socket an alias's connections are handed to is the alias's own. |
| AliasIdentity.InboundReachesItsQueue | app/xray/account_limits.py:74-114 | Behind the inbound, every transport decision becomes the account's own marked copy, and its saved mark selects that account's queue alone. |
| AliasIdentity.DirectConnectionsReachNoAlias | scripts/render_entry_gateway.py:62-68 | A connection made to no alias never reaches an account's private socket. |
| LimiterObservation.Limiter.Inspect | scripts/apply_account_limits.py:416-447 | The stored proof after an inspection, what is reported, and that nothing is saved without ownership of the state file. |
| LimiterObservation.InspectionJudgesEachAccount | scripts/apply_account_limits.py:427-437 | Each account is judged by its own counters, in whatever order the loop visits them. |
| LimiterObservation.ObservationIsExact | scripts/apply_account_limits.py:417-437 | Over every sequence of inspections an account is verified iff, since the last change of boot, daemon or policy, some reading was later strictly exceeded in both counters and has not been undercut in either since. |
| LimiterObservation.UnownedNeverObserves | scripts/apply_account_limits.py:438-440 | Without ownership of the state file no account is ever reported observed. |
| DomainClassifier.ValidateStrictly | app/xray/ai_routing/classifier.py:483-503 | Accepts iff the list holds exactly one valid entry for each domain asked about and nothing else, and returns those entries. |
| DomainClassifier.ValidateLeniently | app/xray/ai_routing/classifier.py:311-330 | Accepts iff every domain asked about is answered, and keeps the last answer for each. |
| DomainClassifier.PassLeavesATail | app/xray/ai_routing/classifier.py:526-555 | What a provider leaves is a tail of its input, cut between two batches. |
| DomainClassifier.PassPartitions | app/xray/ai_routing/classifier.py:526-555 | Decided and left domains make up the input without overlap, and earlier decisions stand. |
| DomainClassifier.PassAnswers | app/xray/ai_routing/classifier.py:545-554 | Each decided domain carries the answer its own batch got. |
| DomainClassifier.ClassificationLosesNothing | app/xray/ai_routing/classifier.py:558-644 | With any provider failing at any batch: earlier decisions are unchanged, and the new decisions and the returned domains split what was pending. |
| DomainClassifier.Manager.RunProvider | app/xray/ai_routing/classifier.py:526-555 | The batch loop, saving after each batch. When a save fails, memory is one batch ahead of the file, and asking again from the file decides what the whole pass would have. |
| DomainClassifier.Manager.ClassifyPending | app/xray/ai_routing/classifier.py:558-644 | Known suffixes, then the configured providers in turn; saved and in-memory decisions agree at every exit but that through a failed save, whose state is described. |
| DomainClassifier.FailedSaveLosesNothing | app/xray/ai_routing/classifier.py:558-644 | After a failed save the file keeps every earlier decision and decides observed domains only, and memory is the file and what was decided since. |

## Left out

- Views, templates, sessions, the web front end, redaction, logging and display text.
- SSH, Docker, Cloudflare, R2, model providers, sockets and processes: calls that may fail or answer anything.
- SQLite: tables are maps with unique keys, and a transaction is a copy that is kept or thrown away. Locks are taken to
  exclude each other, so operations do not interleave inside a transaction; the interleavings that remain are those of
  whole operations.
- JSON, hashing, encryption, random identifiers and order numbers: opaque values. Identifiers are issued by a counter.
- In rules, conditions other than inbound, user, network, port and domain are one arbitrary predicate. A condition list
  is taken as present or absent, as the passes write it.
- `mark_account_routes` changes the configuration it is given; the model returns a new one, so aliasing between the
  caller's rules and the copies is not modelled.
- AllOrNothing: the writes that restore the five files are taken to succeed. `dynamic-routing.json` and
  `config-ai-node.json` are not in the code's own rollback set, so they are not in the claim.
- PersistAndReload: a commit that takes effect and is then reported as failed is not modelled.
- CommitKeepsNodeInSync: the external reloader's own restart is outside the model, so the claim is for direct mode.
- `write_current_config`, the backup mode switch and the resident AI manager around the render pipeline.
- `build_traffic_route` and the report builders: wide and shallow tables.
- `update_commerce_settings`, customer passwords, proof files, review notes and tokens.
- FinishedIsFinal: report files and the text of a diagnosis are not modelled, only whether writing one succeeds.
- SplitSyncEqualsOneSync: the cut lies between lines. The local reader may stop in the middle of a line, and what it
  then counts depends on the fragment; the remote reader's skip-until-newline flag is not modelled.
- QuerySeries: gaps in the account list and the time zone's date of today are left to the caller.
- RunCheck: at most one switch by hand comes between the two commits of a check. Switch reasons, record TTL and proxy flag
  are not kept.
- NextTransitionIsExact: days of 24 hours; a change of the clock's offset inside the window is not modelled.
- The dotenv writer's permission checks, temporary file and directory sync. The list of managed keys is a parameter.
- MergeStaging: file modes and leftover empty directories are not in the claim. Publishing into a missing or empty
  directory is a single rename and is not modelled.
- AliasReachesItsOwnAccount: outbounds of the input that already bear a clone's tag are set aside, as the daemon's check
  sets them aside (`AccountLimits.DaemonAcceptsProducedConfig`).
- `_build_restore_plan`, archive reading and decryption.
- RenderGateway: rules and backends as data, without the constant lines around them. Digits are ASCII digits.
- PanelNumbersAreLegacyPorts: Python's `int` also accepts signs, spaces and underscores, which the forwarder's reading
  of tags is not given here.
- `tc`, `ip` and `nft` commands of the limiter: only the mark arithmetic and the observation state are kept. The daemon's
  process, capability and mount checks are left out.
- ObservationIsExact: the policy hash is taken to determine the set of limited accounts.
- ValidateLeniently: words are taken as already trimmed and lower-cased.
- Nothing was executed.
