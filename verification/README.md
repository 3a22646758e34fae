# Verification model of the observability MCP server

A Dafny model of the parts of the server that decide something: who may act on
which Grafana organization, which datasource a tool call runs on, what the
rewritten call contains, and four smaller protocols and transformations. Check
it with `dafny verify dfyconfig.toml`.

## What is modelled

**Authorization** (`AuthzTypes`, `OrgDecision`, `OrgDecisionLaws`, `OrgClone`,
`RoleCache`, `Authorizer`, `AuthorizerOutcomes`, `HandlerIsolation`). The authorizer is a class with
its cache field. `RequireOrg` and `ListOrgs` follow the code branch by branch;
Go's map iteration is a nondeterministic choice in every loop over a map.
`IsDecision` is a second, order-free definition of the outcome, and the loops
are proved to compute it. Tenant slices are heap arrays, so that cloning and
sharing are visible.

**The server as a step machine** (`Gateway`, `GatewayInvariant`,
`GatewayTheorems`, `GatewayDenials`, `GatewayRuns`, `GatewayScenario`,
`GatewayStaleness`, `GatewayOvertaking`, `GatewayRefinement`, `GatewayListing`).
Any number of requests interleave. One
step is one access to a cache, to Grafana, to the registry or to the clock.
Between steps Grafana's users, memberships and datasources, the registry and
the clock change arbitrarily; the clock does not go back. The state keeps the
history of the outside world. Both caches are in the machine: a granted request
goes on to resolve its datasources. There is no single flight, so an older load
may overwrite a newer one: `RevocationIsForgotten` is a run in which it does,
`SeparateLoadsNeverRegress` says when it cannot, and nothing else relies on
either. `GatewayRefinement` and `GatewayListing` compare a request that is left
alone with the methods `ResolveRoles` and `ListDatasources`, whether Grafana
answers or fails: whatever they compute the request can reach, and with roles or
datasources in its hand it can have reached nothing else.

**Datasources and tool binding** (`TtlCache`, `Datasources`, `ToolBinding`,
`ToolHandlers`, `ToolBindingLaws`, `GatewayBinding`). Argument objects and schema
properties are heap objects, and upstream is an object that remembers what it is
handed, so copy-on-write and the separation of the fan-out's calls are statements
about references and frames. `GatewayBinding` shows that the handlers do what the
step machine's effects say.

**Shutdown** (`Shutdown`), **paging** (`Sorting`, `Paging`), **the datasource
proxy path** (`Splitting`, `ProxyPath`) and **the OpenTelemetry attribute
merge** (`Splitting`, `OtelAttrs`).

## Assumptions

- `lower` stands for `strings.ToLower` and `fold` for the equivalence behind
  `strings.EqualFold`; both are arbitrary functions on strings.
- Laws that fail for colliding names require `FoldDistinct`: registry names
  differ after lower-casing. `AccessDeterminedIff` says exactly when the access
  map is independent of iteration order.
- Laws about unprovisioned orgs require that Grafana's org ids are positive.
- `DefaultPickRoundTrip` requires datasource UIDs that are not empty and unique
  in the org; `DefaultPickAgainIff` has the exact condition, and
  `DefaultPickNeedsUniqueUIDs` a listing for which it fails.
- Schema laws require upstream's required list to be among its properties, and
  no property named `org` (on which `withOrg` panics).
- Paging assumes a slice shorter than 2^63. Page numbers are not restricted:
  `Panicked` and wrapped products are modelled.
- `httpx.Run` may return at any time, with or without an error, and returns
  once its context is cancelled.

## Where code and documentation differ

- `internal/tools/silences.go:146-150` says that expired silences end up at the
  bottom. The code sorts `endsAt` ascending, so they come first, as
  `internal/tools/silences_test.go:86` expects. The model follows the code. The
  comment holds only of answers in which all are expired or none is
  (`ExpiredSinkIff`).
- `docs/ARCHITECTURE.md:118-121` bounds a revoked role by the cache TTL. The
  TTL counts from the expiry stamp, which is taken after the load's questions to
  Grafana. So a cached role can serve a whole TTL after its revocation, or later
  still, exactly when its entry was stamped after the revocation and is still
  fresh (`ServesLateIff`); `LateServiceHappens` is a run in which it does. The bound
  that always holds is the TTL plus the time from the load's membership read to
  its stamp (`RevocationTakesEffect`).
- `cmd/mux.go:63-66` is right that a failing server starts the shutdown. Whether
  `httpx.Run` can also return without an error and uncancelled cannot be told
  from this repository. Under the assumption above that it may, such a stop does
  not start the shutdown, and the process waits for a signal
  (`QuietMeansReturnedIff`, `SilentStopIsNotShutdown`).
- `internal/tools/alerts.go:176-178` promises an empty tail for pages out of
  range. A negative page panics, and one whose product with the page size
  overflows may panic or show an earlier page. `CutIsThePageIff` has the exact
  condition under which the promise holds.
- `cmd/serve.go:300-303` promises that existing entries win. A value that itself
  holds a comma appends further pieces, and one of these may define a key that
  was there. `ExistingEntriesLoseIff` says exactly when, and `ExistingEntryLoses`
  gives an input. `OneEntryPerMissingKeyIff` says when the result has just one
  more entry per missing key; idempotence holds regardless.

## Model

| member | source | states |
|---|---|---|
| AuthzTypes.RolesOfMeaning | internal/authz/authorizer.go:231-238 | The role map says exactly what Grafana's answer gives: a role on an org is stored if and only if some entry names it and no later entry for that org names a role; RoleNone is never stored |
| AuthorizerOutcomes.NamedRoleIsStored | internal/authz/role.go:54-65 | Where the last entry for an org that names a role says admin, editor or viewer, trimmed and lower-cased, the stored role meets exactly the required roles up to that one |
| AuthorizerOutcomes.DecisionByName | internal/authz/authorizer.go:131-142 | A caller so named on the org meant is granted it at exactly the roles which that name meets (an editor is refused at Admin), and is otherwise told that the role does not suffice |
| AuthorizerOutcomes.UnnamedIsNotGranted | internal/authz/role.go:44-47 | Any other name gives no access to the org |
| AuthorizerOutcomes.RefusalMeaning | internal/authz/authorizer.go:131-157 | Which error names which refusal, with its roles or its count |
| AuthorizerOutcomes.SubjectIsRequired | internal/authz/caller.go:35-40 | A caller without a subject is turned away, with or without an email |
| AuthorizerOutcomes.IdentityIsAsked | internal/authz/caller.go:25-33 | Grafana is asked about the email where there is one and otherwise about the subject; the answer is kept under the subject |
| AuthorizerOutcomes.RequireNamed | internal/authz/authorizer.go:104-142 | RequireOrg itself for a caller whom Grafana names so: granted or refused as the name says, with the org's own name, id and tenants |
| Prelude.TrimSpaceMeaning | internal/authz/role.go:55 | Trimming takes white space off both ends and nothing else |
| Prelude.ContainsMeaning | internal/grafana/datasource.go:31 | One string contains another if and only if it is that one between two others |
| OrgDecision.ByIDMeaning | internal/authz/authorizer.go:197-200 | The registry index maps an OrgID to its last registry entry, and holds no other key |
| OrgDecision.AccessibleMeaning | internal/authz/authorizer.go:201-210 | An org is accessible exactly when it is the last registry entry with its OrgID and carries the role that the role map has there |
| OrgDecision.AccessibleOrgs | internal/authz/authorizer.go:192-212 | The loops build an access map of the accessible orgs keyed by name, for every iteration order |
| OrgDecision.FindOrganization | internal/authz/authorizer.go:252-273 | Name match before display name match, and ambiguity counted, for every iteration order |
| OrgDecision.Conclude | internal/authz/authorizer.go:129-158 | The outcome is drawn from some access map of the accessible orgs: grant, insufficient role, ambiguity, not authorised or not found |
| OrgDecisionLaws.LoopsComputeTheDecision | internal/authz/authorizer.go:104-158 | With case-distinct names an outcome is possible, for some iteration order, if and only if it is the declarative decision |
| OrgDecisionLaws.SomeDecision | internal/authz/authorizer.go:93-96 | Some outcome is always the decision |
| OrgDecisionLaws.DecisionIsUnique | internal/authz/authorizer.go:93-96 | No two outcomes are both the decision |
| OrgDecisionLaws.AccessDeterminedIff | internal/authz/authorizer.go:201-210 | The access map does not depend on iteration order if and only if no two accessible orgs share a name |
| OrgDecisionLaws.ListedOrgIsGranted | internal/authz/authorizer.go:81-142 | Asking RequireOrg at Viewer for the name of an org that ListOrgs returns has exactly one outcome: that org, granted |
| OrgDecisionLaws.GrantIsListed | internal/authz/authorizer.go:131-142 | Every grant is an org that ListOrgs returns, has at least the required role, and is named by the reference; no assumption on names |
| OrgDecisionLaws.GrantsAreDownwardClosed | internal/authz/role.go:39-42 | A grant at one role is a grant at every lower one, and the others are refused by comparing roles |
| OrgDecisionLaws.UnprovisionedIsInaccessible | internal/authz/authorizer.go:197-210 | With positive Grafana org ids, a registry entry with OrgID 0 is never accessible |
| OrgClone.CloneTenants | internal/authz/types.go:60-70 | The copy reads the same, all its storage is new, and no two tenants share a type slice |
| OrgClone.CloneOrganization | internal/authz/cache.go:75-80 | Same org, tenants in storage of its own |
| OrgClone.CloneOrganizations | internal/authz/cache.go:82-92 | Every org cloned, all storage new, no two results sharing any |
| HandlerIsolation.ScribbleBeside | internal/authz/authorizer.go:102-103 | Arbitrary writes to everything ever handed out leave every org with other storage as it reads |
| HandlerIsolation.Turn | internal/authz/authorizer.go:69-72 | One call, with handlers overwriting everything handed out before it, before the call and again while its answer is in use: the answer reads as the roles and the registry, as it read at the start, call for, in new storage; the registry reads as before |
| HandlerIsolation.Session | internal/authz/authorizer.go:102-103 | Any number of such calls, by RequireOrg and ListOrgs: what is read of each answer is what the calls before it, Grafana and the registry as it read at the start call for, as if nobody had written anything |
| TtlCache.FetchesAreSpaced | internal/authz/cache.go:43-73 | Sequential visits to one key fetch at least one lifetime apart |
| TtlCache.FetchLoadIsBounded | internal/grafana/client.go:329-341 | n successful fetches for one key within a span T satisfy (n - 1) * ttl <= T |
| RoleCache.ResolveKeepsRealRoles | internal/authz/authorizer.go:165-183 | Roles handed on, and roles left in the cache, are Viewer or higher |
| RoleCache.ResolveIsIsolated | internal/authz/authorizer.go:165-183 | A call reads and writes no other subject's entry |
| RoleCache.LoadsAreFetches | internal/authz/authorizer.go:165-240 | Calls of one subject behave on the role cache as visits to a TTL cache, with the lifetime their own answer selects |
| RoleCache.RoleLoadIsBounded | internal/authz/cache.go:53-73 | n loads stored for one subject by sequential calls within a span T satisfy (n - 1) * min(TTLs) <= T |
| Authz.Authorizer.CacheLookup | internal/authz/cache.go:41-51 | A hit is an entry whose expiry lies after now |
| Authz.Authorizer.CacheStore | internal/authz/cache.go:53-73 | The negative lifetime for unknown or empty, the positive one otherwise; a lifetime of zero or less writes nothing and leaves an old entry in place |
| Authz.Authorizer.Load | internal/authz/authorizer.go:214-240 | The answer about the caller's identity, stored under the subject; a failure leaves the cache alone |
| Authz.Authorizer.ResolveRoles | internal/authz/authorizer.go:160-183 | Result and new cache equal the specification Resolve |
| Authz.Authorizer.RequireOrg | internal/authz/authorizer.go:93-158 | Result, new cache and every error, in order; a grant is an accessible org of this listing, read the same, in new storage; with case-distinct names the outcome is the decision |
| Authz.Authorizer.ListOrgs | internal/authz/authorizer.go:69-91 | The access map of this listing, each org in new storage of its own |
| GatewayInvariant.NextKeepsInv | internal/authz/authorizer.go:165-240 | Every step of the machine keeps: each cache entry and everything a request holds is explained by the world at recorded instants |
| GatewayInvariant.RunsKeepInv | internal/authz/authorizer.go:165-240 | The invariant holds in every state of every run |
| GatewayTheorems.BoundedStaleness | internal/authz/authorizer.go:104-240 | A granted role is one that Grafana gave on that org to the account of a caller with the same subject, inside one load; the load is the request's own or was stamped less than the positive TTL before this request's lookup |
| GatewayTheorems.GrantsAreGated | internal/authz/authorizer.go:98-119 | No caller without a subject, and no tool that requires RoleNone, is ever granted an org; a grant has at least the required role, on an org the reference names |
| GatewayTheorems.RevocationTakesEffect | docs/ARCHITECTURE.md:118-121 | A grant of a revoked org rests on a load whose read precedes the revocation; the request arrived before it, or looked in the cache within the positive TTL plus that load's duration after it |
| GatewayTheorems.ListedOrgsAreCurrent | internal/authz/authorizer.go:69-91 | The same for every org that ListOrgs returns, and each is in a registry listing read after the request arrived |
| GatewayTheorems.UnknownCallerIsRecent | internal/authz/cache.go:53-73 | A caller told to be unknown to Grafana was unknown there in a load of their own or one stamped less than the negative TTL before |
| GatewayTheorems.EmptyRolesAreRecent | internal/authz/cache.go:53-73 | A caller listed without roles had none at Grafana, in a load of their own or one stamped less than the negative TTL before |
| GatewayTheorems.SubjectIsolation | internal/authz/caller.go:28-40 | Every cache entry of every reachable state was written by a load run by a request with that very subject, and holds only roles of Viewer or higher |
| GatewayTheorems.GrantedOrgIsRegisteredNow | internal/authz/authorizer.go:78-80 | A granted org is in a registry listing read after the request arrived |
| GatewayTheorems.DeletedOrgIsNeverGranted | internal/authz/authorizer.go:124-129 | An org absent from the registry from some instant on is granted to no request that arrives later, whatever is cached and whatever the TTLs |
| GatewayTheorems.DeletedOrgIsNeverListed | internal/authz/authorizer.go:78-80 | Nor is it returned by ListOrgs to any such request |
| GatewayDenials.DenialsAreCurrent | internal/authz/authorizer.go:131-157 | A denial is the declarative decision on a registry listing read after the request arrived, and on roles from a load that is the request's own or younger than the TTL its answer selects |
| GatewayDenials.DeniedForTheRoleFound | internal/authz/authorizer.go:136-141 | If the load found a role on the org meant, by name or by a display name nothing else goes by, the denial is that this very role is below the required one |
| GatewayDenials.GrantTakesEffect | docs/ARCHITECTURE.md:118-121 | A request refused the org it means, though Grafana has given enough since some instant, rests on a membership read before it: it arrived before it, or looked in the cache within the entry's TTL plus that load's duration after it |
| GatewayDenials.RegistrationTakesEffect | internal/authz/authorizer.go:221-226 | The same for a caller told to be unknown, with the negative TTL |
| GatewayTheorems.UnprovisionedOrgIsNeverGranted | internal/authz/authorizer.go:192-212 | In no run is an org without a positive OrgID granted, if Grafana's org ids are positive |
| GatewayTheorems.ReadsBringTheWorld | internal/grafana/client.go:343-377 | A fetch brings back what Grafana has for the org at that instant, and a membership read what it has for the account |
| GatewayTheorems.SourceCallsAreScoped | internal/tools/grafanabind.go:300-341 | Both caches composed: an upstream call with a server-resolved datasource uses the OrgID this request was authorized for, and datasources that Grafana listed for that org inside one fetch, the request's own or stamped less than one datasource TTL before |
| GatewayTheorems.OrgCallsAreScoped | internal/tools/grafanabind.go:310-313 | A call without a resolved datasource is for the authorized OrgID |
| GatewayBinding.GatesAgree | internal/tools/grafanabind.go:343-360 | Past the authorizer, a handler's gate opens exactly when the machine's tenant gate does |
| GatewayBinding.WrapHasTheEffect | internal/tools/grafanabind.go:317-339 | A datasource tool sends the arguments for a datasource exactly when the machine's effect is a call on it, and is refused exactly when there is no effect |
| GatewayBinding.OrgToolHasTheEffect | internal/tools/grafanabind.go:310-313 | An org tool's call is the machine's |
| GatewayBinding.FanoutHasTheEffect | internal/tools/grafanabind.go:158-185 | A fan-out tool calls upstream for exactly the datasources of the machine's effect, in order, or makes the one call that takes no listing |
| GatewayTheorems.OpenRequestsCanStep | internal/authz/authorizer.go:104-240 | No request is ever stuck |
| GatewayTheorems.StepsMoveOn | internal/authz/authorizer.go:104-240 | Every step brings its request closer to its end and leaves every other request as it was |
| GatewayStaleness.ServesLateIff | docs/ARCHITECTURE.md:118-121 | A cached role that has been revoked is granted by some continuation of the run, to a new request and from the cache, a positive TTL or more after the revocation, if and only if its entry was stamped after the revocation and is still fresh |
| GatewayStaleness.LateServiceHappens | docs/ARCHITECTURE.md:118-121 | A run in which that happens: read at clock 0, revoked at clock 0, stamped at clock 100, granted on a hit at a TTL of 30 |
| GatewayOvertaking.OlderLoadMayWin | internal/authz/cache.go:66-73 | Of two loads of one subject waiting to be written, the one read first may be written last, and the cache then holds the older answer |
| GatewayOvertaking.RevocationIsForgotten | internal/authz/cache.go:66-73 | A run in which the cache holds the answer after a revocation and later again the one before it |
| GatewayOvertaking.SeparateLoadsNeverRegress | internal/authz/authorizer.go:216-240 | In a run in which the loads of one subject do not overlap, from start to write, its entry is never replaced by one read earlier |
| GatewayRefinement.AloneItResolves | internal/authz/authorizer.go:165-240 | Left alone, a request can reach whatever the sequential specification computes, result, error and cache, for every Grafana that answers or fails |
| GatewayRefinement.AloneItOnlyResolves | internal/authz/authorizer.go:165-240 | And nothing else: on every path, with roles in hand or told to be unknown, it stands as the specification computes; where it is refused, the cache is what the specification leaves for some Grafana that answers or fails |
| GatewayListing.AloneItLists | internal/grafana/client.go:323-341 | Left alone, a granted request can reach whatever the sequential specification computes, listing, failure and cache, for every Grafana that answers or fails |
| GatewayListing.AloneItOnlyLists | internal/grafana/client.go:323-341 | And nothing else, in the same sense |
| Datasources.FilterDatasourcesByType | internal/grafana/datasource.go:28-45 | Exactly the listed datasources whose lower-cased plugin type has the lower-cased type somewhere in it, in input order |
| Datasources.FirstWithUIDMeaning | internal/grafana/client.go:315-320 | The search finds the first datasource with the UID, or there is none |
| Datasources.PickIsListed | internal/tools/grafanabind.go:317-339 | A picked datasource is listed, fits the type and has the UID asked for |
| Datasources.DefaultPickMeaning | internal/tools/grafanabind.go:328-335 | Without a UID the pick is the first listed datasource that has the type in its plugin type, and fails only where none has |
| Datasources.NamedPickMeaning | internal/tools/grafanabind.go:317-324 | With a UID it is the first that carries it, if that fits; each of the two errors only in its case |
| Datasources.LongerKindFits | internal/grafana/datasource.go:28-32 | A plugin type that properly contains the type fits it, one that it properly contains does not |
| Datasources.DefaultPickAgainIff | internal/tools/grafanabind.go:311-340 | The first datasource of the type is the default pick, and giving its UID back picks it again if and only if that UID is empty or nothing listed earlier carries it |
| Datasources.DefaultPickRoundTrip | internal/tools/grafanabind.go:311-340 | So it does where UIDs are unique |
| Datasources.DefaultPickNeedsUniqueUIDs | internal/grafana/client.go:315-319 | A listing with a repeated UID for which that fails |
| Datasources.Client.FetchDatasources | internal/grafana/client.go:343-377 | The answer in order, field by field, with manageAlerts false only where it was sent as false |
| Datasources.Client.ListDatasources | internal/grafana/client.go:323-341 | A fresh entry or this call's own fetch; only a successful fetch changes the cache, and only at its org |
| Datasources.Client.LookupDatasourceByUID | internal/grafana/client.go:304-321 | First match on such a listing, and each error case |
| Datasources.ListingRefinesFetch | internal/grafana/client.go:323-341 | Every listing returned in a run is the request's own fetch, made on a miss, or one that an earlier request for the same org made on a miss and stored less than one TTL before; it fails only on a miss with a failing fetch |
| Datasources.SourceLoadIsBounded | internal/grafana/client.go:327-341 | n successful fetches for one org within a span T satisfy (n - 1) * ttl <= T |
| ToolBinding.EditArgs | internal/tools/grafanabind.go:398-416 | The edit is applied to a copy in a new object; the object the request pointed to is outside the frame; the malformed shapes fail and change nothing |
| ToolBinding.InjectArg | internal/tools/grafanabind.go:383-389 | A new object with one key set |
| ToolBinding.StripOrgArg | internal/tools/grafanabind.go:391-396 | A new object without "org" |
| ToolBinding.WithOrg | internal/tools/grafanabind.go:231-292 | Panics exactly on an undecodable schema or one that declares "org"; otherwise new objects with upstream's properties, "org" added, the demoted argument described anew and no longer required |
| ToolBindingLaws.StrippedArgumentsConform | internal/tools/grafanabind.go:247-341 | Arguments that conform to the advertised schema conform to upstream's after stripping, and are otherwise the caller's |
| ToolBindingLaws.InjectedArgumentsConform | internal/tools/grafanabind.go:247-341 | After stripping and injecting they conform to upstream's schema if and only if upstream declares the injected argument, and equal the caller's on every other key |
| ToolBindingLaws.AdvertiseAndCall | internal/tools/grafanabind.go:242-341 | For any tool definition that decodes: arguments that conform to the schema withOrg returns become, in the call the handler makes, arguments that conform to upstream's, if and only if the tool is org-only or upstream declares the datasource argument |
| ToolBindingLaws.AdvertiseAndFanOut | internal/tools/grafanabind.go:135-182 | The same for a fan-out tool: every call it makes conforms if and only if upstream declares the datasource argument, and one with the caller's own datasource always does |
| ToolBindingLaws.PlannedCallIsScoped | internal/tools/grafanabind.go:300-341 | A planned call carries no "org", goes to the authorized OrgID, and names a datasource of that org's listing that fits the tool |
| ToolBindingLaws.PlannedPick | internal/tools/grafanabind.go:317-339 | Which datasource a bound tool's call runs on, what it sends, and which error answers each way of finding none |
| ToolBindingLaws.ResolvedPick | internal/tools/datasource.go:41-59 | The same of a local handler, by datasource id |
| ToolBindingLaws.GateMeaning | internal/tools/grafanabind.go:343-360 | When a handler's gate stays shut and with which error; a tenant gate opens exactly where some tenant lists the type |
| ToolBindingLaws.ResolversAgree | internal/tools/datasource.go:28-60 | The bound and the local handlers fail together, with the same error, or use the same org and datasource |
| ToolBindingLaws.ExplicitDefaultIsTheDefault | internal/tools/grafanabind.go:311-340 | Sending the default pick explicitly leads to the same datasource under the exact condition, and to the same upstream arguments |
| ToolHandlers.GfBinder.RequireOrg | internal/tools/grafanabind.go:343-360 | Each refusal in order, or the authorized org with the tenant type when one is asked for |
| ToolHandlers.RulersMeaning | internal/tools/grafanabind.go:176-179 | The datasources fanned out to are, in listing order, exactly those with manageAlerts whose lower-cased plugin type has prometheus or loki in it |
| ToolHandlers.RulersOfAListing | internal/tools/grafanabind.go:199-205 | In a listing of mimir with manageAlerts off, mimir, loki and tempo, they are the second and the third |
| ToolHandlers.GfBinder.Wrap | internal/tools/grafanabind.go:294-341 | What upstream receives is the plan: nothing on a refusal, or one call for the planned org with the planned arguments in a new object; the reply and the new cache state |
| ToolHandlers.GfBinder.ResolveDatasource | internal/tools/datasource.go:23-60 | The reply equals the plan of the local resolver; the new cache state |
| ToolHandlers.GfBinder.FanOut | internal/tools/grafanabind.go:175-194 | Upstream receives one new argument object with its UID for exactly the datasources with manageAlerts and prometheus or loki in their plugin type, in listing order, none handed out twice and each intact at the end; one entry for each, with the rules or the error that upstream answered |
| ToolHandlers.GfBinder.WrapFanout | internal/tools/grafanabind.go:147-197 | What upstream receives: nothing on a refusal; the arguments as given where the caller names a datasource; otherwise one new, distinct object for exactly the datasources with manageAlerts and prometheus or loki in their plugin type, in order, each the caller's arguments minus "org" plus that UID and still so when the handler returns; the entries report upstream's answers |
| Shutdown.RunsKeepInv | cmd/serve.go:239-257 | The protocol invariant holds in every state of every run from launch on |
| Shutdown.ShutdownIsOrdered | cmd/serve.go:239-257 | The observability server is cancelled only after the MCP server reported; return only after both; a goroutine that wants to report can |
| Shutdown.ObsOutlivesMcp | cmd/serve.go:239-242 | When the observability server is cancelled, there was an earlier state with the MCP server finished and the observability server not cancelled |
| Shutdown.HealthEndpointStaysUp | cmd/serve.go:239-242 | While the MCP server has not stopped, the observability server stops only by itself |
| Shutdown.EventsAreProgress | cmd/mux.go:67-79 | Every event but a signal lowers a measure |
| Shutdown.RunsEnd | cmd/serve.go:251-257 | No run has more than fifteen events besides signals |
| Shutdown.QuietMeansReturnedIff | cmd/mux.go:63-66 | When nothing is left to happen, runServe has returned if and only if a signal came or a server failed |
| Shutdown.FailureOrSignalShutsDown | cmd/mux.go:63-66 | A signal, or the failure of either server, at any point of a run, stops both and lets runServe return |
| Shutdown.ReturnsOnlyWhenAsked | cmd/serve.go:251-257 | runServe does not return without a signal or a failure |
| Shutdown.NotQuietCanMove | cmd/serve.go:251-257 | Until nothing is left to happen some event is enabled that neither is a signal nor waits for an uncancelled server |
| Shutdown.SilentStopIsNotShutdown | cmd/mux.go:71-76 | A run in which the MCP server stops without an error and runServe keeps waiting |
| Sorting.InsertionSortIsSorted | internal/tools/pagination.go:41 | For every weak order there is an ordered permutation, and this function finds it |
| Sorting.SomethingSorts | internal/tools/alerts.go:162 | Every weak order has a sorting function |
| Sorting.SortedIsUnique | internal/tools/pagination.go:41 | Under a total order the sorted list is determined by the multiset alone |
| Sorting.StringLessIsTotal | internal/tools/pagination.go:41 | String comparison is a total order |
| Sorting.StringLessMeaning | internal/tools/pagination.go:41 | One string comes before another if it is a proper prefix of it, or smaller where they first differ |
| Sorting.SortStrings | internal/tools/pagination.go:41 | The array itself ends up as the ordered permutation of what it held |
| Paging.CutIsThePageIff | internal/tools/alerts.go:176-181 | Every 64-bit page number shows the right page, the empty one past the end, if and only if it is not negative and its product with the page size fits or wraps to a number past the end |
| Paging.OverflowShowsTheFirstPage | internal/tools/alerts.go:179 | A page number whose product wraps to zero |
| Paging.NegativePagePanics | internal/tools/alerts.go:179-182 | A negative page whose product fits panics |
| Paging.FollowingHasMoreIff | internal/tools/alerts.go:204 | A client that follows hasMore reads exactly max(1, ceil(n / pageSize)) pages |
| Paging.PagesPartition | internal/tools/alerts.go:179-206 | The pages it reads concatenate to the whole list |
| Paging.PaginateAlerts | internal/tools/alerts.go:155-207 | The page of the sorted, projected alerts; the panic and the malformed body |
| Paging.AlertLessIsWeakOrder | internal/tools/alerts.go:162-168 | The comparison meets what sort.Slice asks for |
| Paging.AlertsCanBeSorted | internal/tools/alerts.go:162-168 | So some sort meets its contract for it |
| Paging.AlertPagesPartition | internal/tools/alerts.go:155-207 | Over one body, the pages read by following hasMore show exactly the alerts, each once and by its own fields; none comes after a less severe one, by the severity labels critical/page, error/high, warning/warn, info/notice/low and others, nor within a class after one that started later; for every sort that meets its contract |
| Paging.RankIsClass | internal/tools/alerts.go:224-237 | The rank is the place of the lower-cased severity label among those classes |
| Paging.PaginateSilences | internal/tools/silences.go:151-213 | The page of the sorted silences in the asked state; the panic, the unknown state and the malformed body |
| Paging.StatesMeaning | internal/tools/silences.go:157-170 | The empty state asks for the active ones; any state but active, pending, expired and all is an error |
| Paging.SilenceLessIsWeakOrder | internal/tools/silences.go:175-177 | The comparison meets what sort.Slice asks for |
| Paging.SilencesCanBeSorted | internal/tools/silences.go:175-177 | So some sort meets its contract for it |
| Paging.SilencePagesPartition | internal/tools/silences.go:151-213 | Over one body, the pages read by following hasMore are exactly the silences in the asked state, as often as given, never a later end before an earlier one |
| Paging.ExpiredSinkIff | internal/tools/silences.go:146-150 | In that order, everything after an expired silence is expired if and only if all are or none is |
| Paging.PaginateStrings | internal/tools/pagination.go:20-58 | The page of the matching values, sorted in a copy; the caller's array is outside the frame |
| Paging.PagesForgetOrder | internal/tools/pagination.go:20-27 | Every page depends on the multiset of the values alone |
| Paging.StringPagesPartition | internal/tools/pagination.go:28-58 | The pages read by following hasMore are exactly the matching values, as often as given, in order |
| ProxyPath.DecodedSegments | internal/grafana/client.go:454 | Decoding and then splitting at slashes is splitting and then decoding |
| ProxyPath.NoTraversalSegment | internal/grafana/client.go:458-460 | A decoded path without ".." has no ".." segment, raw or decoded |
| ProxyPath.AcceptedIff | internal/grafana/client.go:444-462 | Validation accepts exactly the relative paths of 1 to 1024 bytes whose segments all decode, none into anything with ".." in it |
| ProxyPath.DecodeUndoesEscape | internal/grafana/client.go:454-457 | A path decodes to some bytes if and only if it is a percent-encoding of them, with hex digits in either case |
| ProxyPath.EncodedTraversalIsRefused | docs/ARCHITECTURE.md:105-106 | Traversal is refused however it is encoded; encoding anything else is refused only for length or a literal leading slash |
| ProxyPath.EscapedDotsAreRefused | docs/ARCHITECTURE.md:105-106 | "%2e%2e" is traversal, in lower and in mixed case |
| ProxyPath.RefusedBecause | internal/grafana/client.go:444-462 | Which reason is given for which path |
| ProxyPath.RequestText | internal/grafana/client.go:406 | The request path is /api/datasources/proxy/, the id, a slash and the path |
| ProxyPath.DecimalMeaning | internal/grafana/client.go:406 | The id is written in decimal digits |
| ProxyPath.ContainedBeforeDecoding | internal/grafana/client.go:402-407 | An accepted path, joined below any base path and cleaned, stays below /api/datasources/proxy/{id} |
| ProxyPath.ContainedAfterDecoding | internal/grafana/client.go:402-407 | The same when the request is decoded before it is cleaned |
| ProxyPath.SentRequestIsContained | internal/grafana/client.go:178-179 | Cleaned, sent, decoded and cleaned again, the request is still below the prefix, at the resource that decoding once and cleaning once denotes |
| ProxyPath.TraversalWouldEscape | internal/grafana/client.go:458-460 | The path ".." is refused, and would leave the prefix |
| Splitting.SplitConcat | cmd/serve.go:307 | Splitting commutes with concatenation at a separator |
| Splitting.SplitOfJoinIff | cmd/serve.go:325-327 | A joined list splits back into its parts if and only if none holds the separator |
| OtelAttrs.PrependOTELResourceAttrs | cmd/serve.go:304-330 | The loops compute the specified merge |
| OtelAttrs.KeyOfMeaning | cmd/serve.go:307-309 | The key of a piece is what stands before its first equals sign, without the white space in front |
| OtelAttrs.EntryHasItsKey | cmd/serve.go:307-309 | An appended entry parses back to its key, whatever its value holds |
| OtelAttrs.MergeIsConservative | cmd/serve.go:300-303 | Existing entries stay in place and unchanged, and no key is lost |
| OtelAttrs.MergeFillsIn | cmd/serve.go:312-320 | Afterwards every key with a value is there |
| OtelAttrs.ExistingEntriesLoseIff | cmd/serve.go:300-303 | Some appended piece defines a key that was there if and only if the value of a missing pair has, after its first comma, a piece that does |
| OtelAttrs.ExistingEntriesWin | cmd/serve.go:300-303 | So existing entries win where no value that is appended holds a comma |
| OtelAttrs.ExistingEntryLoses | cmd/serve.go:318-321 | A pod name for which an existing entry loses |
| OtelAttrs.OneEntryPerMissingKeyIff | cmd/serve.go:312-329 | The result reads as the existing entries and exactly one per missing key with a value, if and only if no appended entry holds a comma |
| OtelAttrs.DeploymentIsNamed | cmd/serve.go:318-321 | Each of the four attributes that was absent and has a value is said under its own name, if no variable holds a comma |
| OtelAttrs.RestartChangesNothing | cmd/serve.go:304-330 | A second merge changes nothing, for all values of all variables |

## Left out

- HTTP, TLS, headers, body limits, content-type checks and JSON decoding: a question to Grafana is a step that answers from the current world or fails; a decoded body is a parameter, a malformed one an error value.
- OAuth, Dex, the Kubernetes informer and tracing setup: the registry is a value that changes between steps, and a listing reads it at one instant.
- The bridge between the two MCP libraries, and their argument getters beyond strings: upstream is a function of the org and the arguments it is given.
- Metrics, spans, audit logging, configuration, command-line flags and tool registration: counters, tables and one-branch checks.
- GatewayTheorems.SourceCallsAreScoped: says nothing about an explicit UID of the fan-out tool, which the code hands to upstream unchecked (internal/tools/grafanabind.go:158-160).
- ToolBinding.InjectArg: requires that the arguments are not an undecoded JSON null, on which the code's map assignment would panic; both handlers strip "org" first, which leaves a map.
- Paging.AlertPagesPartition: claims nothing about ties, as sort.Slice is not stable; the sort is any function that meets its contract, and every weak order has one.
- Paging.PaginateAlerts: requires a page size of at least 1, as the handlers clamp it to 1..500 before the call; the sum of start and page size is not wrapped.
- Paging.PaginateSilences: sorts a sequence value, not in place; the decoded slice is local to the call. The same holds for alerts.
- ProxyPath.SentRequestIsContained: decodes once, as the validation does; nothing is claimed for a server that decodes twice. The trailing slash that URL joining keeps is not modelled.
- Shutdown.FailureOrSignalShutsDown: does not model drain timeouts; a cancelled server's return is an event that can happen, not one with a deadline. Stdio transport is not modelled.
- Authz.Authorizer.RequireOrg: the text of error messages is reduced to its case and the roles or count it reports.
- Unicode case tables, and byte order against code point order of invalid strings.
