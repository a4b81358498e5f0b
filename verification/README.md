# Verification of hyve's control plane

A Dafny 4.11 model of the server-side state machines and protocols of hyve, with proofs. `dafny verify dfyconfig.toml`
checks everything.

## What is modelled

| module | of the system |
|---|---|
| `ReconcilingClients` | the per-process cache of clients, one per reconciling cluster, under its lock |
| `Organizations`, `Placement` | organizations, the clusters they are placed on, renames, the migration lock |
| `Lifecycle` | an organization from its creation to the sweep of its row |
| `Migration` | what a migration delivers, step by step among all other requests and the controllers |
| `OrgClusters` | an organization's own handling of its clusters, and one switch with its copy loops as a request runs it, each a run of `Organizations` |
| `CreateOnce`, `SigningKey` | the get, create, get-again protocol of the agent CA and the signing key |
| `AgentTunnel`, `AgentIdentity` | connections, the registry and the stored flag; bootstrap tokens, certificates, principals |
| `Access`, `Accounts` | which namespace and role a request has; users and memberships |
| `Environments` | environment names, labels, listings and addressing of clusters, through renames and migrations |
| `Base64`, `Strings`, `Tokens`, `Sessions` | access tokens and sessions, as text and over time |
| `ControllerNamespaces`, `Relay`, `ContextNames` | controller coverage, the two-way relay, the unique-name search |
| `Wrappers`, `Runs`, `Clock` | optional values and results; times; runs of a step function, and the one induction all safety results use |

A protocol is a `State`, an `Action` and a `Step` that says what one action does, or that it cannot happen; a theorem
over whole runs quantifies over every sequence of actions. Handlers and loops that change something in place are class
methods, proved equal to functions on values about which the theorems speak. Which row order a query answers in, which
identifier is fresh, and which call fails are inputs.

Assumptions, each a parameter or a condition of the model:

- The store is tables with unique ids (UUIDs, never reused); its UNIQUE constraints and foreign keys hold; a call takes
  effect or fails cleanly. Except where a module says otherwise, a handler is one step.
- `encoding/json` gives back what it wrote; HMAC, SHA-256 and certificates are functions, injective or unforgeable
  where a lemma requires it (`Tokens.MarshalsBack`, `Tokens.SignedOnly`, `AgentIdentity.Injective`). The CA key's
  private-key encoding is the codec parameter of `CreateOnce`.
- Kubernetes namespaces and cluster names have no slash; a session id has no dot.

## Where the code and its documentation part

The model follows the code; each of these is a lemma.

- A failed final write of a migration answers that the same request can be retried; every retry is refused, as after a
  process that dies in the middle (`Placement.FailedEndLocksForever`).
- The migration lock is let through when its look-up fails, on the ground that the handler's own look-up will fail too;
  when it does not, the write is lost at the flip (`Placement.LockRefusesIff`, `Migration.SlippedWriteIsLost`).
- A switch can answer failure with the organization already moved (`OrgClusters.Server.MigrateOrganizationToTarget`).
- A ClusterDefinition being deleted is copied as one to be deleted, with `spec.delete` set, and is otherwise no deletion
  under way on the new cluster (`Migration.MigrationLosesNothing`, `Migration.ReadsPreservedIff`).
- A rename is documented as cosmetic, but routing, the migration lock and the source of a migration look the immutable
  namespace up as a name (`Placement.RoutedToPlacementIff`, `Placement.LockRefusesIff`, `Migration.RenamedTenantLeftBehind`), so that another
  organization can take the name over (`Placement.TakenNamespace`) and labelled clusters are no longer found by the name
  they are listed under (`Environments.ReachedAsListedIff`).
- An organization's row is documented to go only once its namespace has fully terminated; a renamed one's goes with its
  objects still on its cluster, since the namespace is looked for elsewhere (`Lifecycle.DeletionLeavesIff`).
- An environment with clusters is documented as not deletable; a renamed organization on its own cluster can delete one
  (`Environments.RenamedDeletionStrays`, and when exactly `Environments.DeletionKeepsLabelsIff`).
- Moving back to a cluster left earlier loses the edits made meanwhile and undoes the deletions (`Migration.MovedBack`),
  also of clusters whose environment is gone since (`Environments.DeadLabelReturns`).
- A password reset, or an account's deletion, succeeds also when its revocation of sessions fails
  (`Sessions.ResetLeavesSession`), and a deletion also when the user could not be removed (`Accounts.DeleteKeepsIff`); a
  failed account creation can leave its user behind (`Accounts.AccountStore.HandleCreateAccount`).
- Deleting an organization deletes its clusters' rows but invalidates no client of them
  (`ReconcilingClients.SweptClientStaysRun`), and its bindings but none of the users (`Accounts.SweepKeepsIff`).
- The `adminRole` and `adminIdentity` of a new organization are stored unvalidated (`Accounts.SeedKeepsIff`,
  `Access.SuperadminIff`).
- An unlabelled cluster is not addressable by the environment it is listed under (`Environments.ReachedAsListedIff`);
  a request for one environment can change a cluster of another (`Environments.CrossEnvironmentRequest`).
- Token expiry is kept in whole seconds, so the time bounds hold to the second (`Sessions.OvershootRun`).
- The stored Connected flag can stay wrong after two overlapping status writes (`AgentTunnel.OvertakenWrite`), or one
  that failed; when exactly is `AgentTunnel.FlagWrongIff`.
- A refused switch with a kubeconfig leaves the new kubeconfig stored (`OrgClusters.Server.HandlePutOrgReconcilingCluster`).

## Model

| member | source | states |
|---|---|---|
| ReconcilingClients.StaleOnlyWhilePending | internal/api/reconcilingclusters.go:335-400 | In every interleaving of lookups, rotations, removals and organization sweeps: with no store write of an id still to be followed by its invalidation, the cached client differs from the stored kubeconfig exactly when the row went with its organization |
| ReconcilingClients.LookupAgreesWithStore | internal/api/reconcilingclusters.go:335-364 | Whatever a lookup returns for a stored id, with no write pending, was built from the stored kubeconfig, whichever of the three return points it leaves by |
| ReconcilingClients.OneHandleBetweenInvalidations | internal/api/reconcilingclusters.go:335-400 | Over whole runs, two lookups return the same handle if and only if they are for one id with no invalidation of it between them; this is what the second check under the write lock is for |
| ReconcilingClients.ServedIsComplete | internal/api/reconcilingclusters.go:335-364 | The history the previous theorem ranges over has every handle any lookup ever returned, and no others |
| ReconcilingClients.RemovedForGood | internal/orgdb/crud.go:634-640 | A store write that removes a stored row removes it for good, whatever interleaves: in every continuation no row of that id is there |
| ReconcilingClients.LookupStepsAloneAreALookup | internal/api/reconcilingclusters.go:335-364 | The double-checked steps run alone leave and return exactly what the plain get-or-build does: on a hit, a build, a missing row and a kubeconfig that does not build |
| ReconcilingClients.FailedReadIsNone | internal/api/reconcilingclusters.go:335-364 | A lookup whose read of the row fails leaves everything as it was, the lock included |
| ReconcilingClients.CreatedIsLookedUp | internal/api/reconcilingclusters.go:335-364 | A registered row is what the next lookup of its id builds its client from |
| ReconcilingClients.WriteStepsAloneAreAWrite | internal/api/reconcilingclusters.go:151-162 | The steps of a rotation or removal run alone: a stored row has the new kubeconfig or is gone, an absent one stays absent, and no client of the id is cached |
| ReconcilingClients.FailedWriteIsNone | internal/api/reconcilingclusters.go:151-162 | One that fails in the store leaves everything as it was, the cached clients included |
| ReconcilingClients.StaleWhilePendingRun | internal/api/reconcilingclusters.go:151-162 | From any state with a stored id and two idle goroutines, a run that ends with a stale client while a rotation is between its store write and its invalidation |
| ReconcilingClients.SweptClientStaysRun | internal/orgdb/crud.go:187-197 | From any quiet state, a run that ends with nothing pending and the client of a deleted organization's cluster still cached, its id never to come back |
| ReconcilingClients.ClientTable.ClientHandle | internal/api/reconcilingclusters.go:335-364 | What is returned is what every lookup of the id will return until it is invalidated, whatever fails meanwhile; a table that agrees with the store keeps agreeing, and then the client was built from the stored kubeconfig; a new client is like none before; none is returned exactly for an uncached id with no row or no buildable client |
| ReconcilingClients.ClientTable.Invalidate | internal/api/reconcilingclusters.go:396-400 | Whatever was cached, the next lookup of the id answers with a client of its own built from what is stored by then, or with nothing; no other id's lookup is affected |
| ReconcilingClients.ClientTable.Write | internal/api/reconcilingclusters.go:151-162 | a rotation or removal, failed or not, keeps the table in agreement with the store |
| Placement.PlacementIsStored | internal/orgdb/crud.go:187-197 | In every reachable state an organization's reconciling cluster, when set, is a stored cluster of the pool or its own (through create, switch, failed switch, removal and sweep) |
| Placement.NamesStayApart | internal/api/organizations.go:1028-1037 | Over every run, renames and registrations included: no two organizations share a name or a namespace, no tenant's name is the control plane's in any case of letters, no owner has two clusters of one name, and every cluster's owner is there |
| Placement.EqualFoldIff | internal/api/organizations.go:1028-1037 | that comparison: letter by letter the same, or the two cases of one letter |
| Placement.NoTenantOnHome | internal/api/organizations.go:204-207 | With --require-reconciling-cluster on, if no tenant starts on the home cluster, none is ever placed there |
| Placement.FailedEndLocksForever | internal/api/organizations.go:505-518 | A migration leaves its organization locked if and only if its process dies in it, the write that ends it fails, or its target row was removed meanwhile; and then for the organization's whole life, with no retry ever let through, though the response to a failed flip says to retry |
| Placement.RoutedToPlacementIff | internal/api/reconcilingclusters.go:309-327 | In every reachable state, requests for an organization's namespace reach its placement if and only if it bears its namespace as its name, or the one that does stands on the same cluster, or none does and it is on the home cluster |
| Placement.LockRefusesIff | internal/api/reconcilingclusters.go:34-53 | In every reachable state, a tenant's request is held back if and only if the look-up of the lock succeeds and the organization bearing its namespace as its name, be it another, is locked |
| Placement.TakenNamespace | internal/api/organizations.go:382-404 | From any state with two renamable tenants: one renamed away and the other renamed onto its namespace, the first one's writes land on the second one's cluster, be it its own |
| Placement.RenamedTenantWritesHome | internal/api/organizations.go:394-404 | A run, with the flag on and every tenant placed, in which a rename sends a tenant's write to the home cluster |
| Lifecycle.CreatedIsRouted | internal/api/organizations.go:229-252 | A new organization is unlocked, its namespace is its name, which was nobody's namespace, and requests for it go to the cluster asked for; no other namespace's requests go elsewhere than before, and no object changes |
| Lifecycle.ControlPlaneStays | internal/api/organizations.go:692-695 | No run takes the control plane's own organization away or marks it for deletion |
| Lifecycle.ObjectGoesBy | internal/api/organizations.go:712-717 | An object goes only by a request the lock lets through, with a namespace being deleted, or as a cluster whose deletion a controller has finished |
| Lifecycle.ObjectChangesBy | internal/api/organizations.go:542-642 | An object comes or changes only by such a request, by a migration's copy, which alters nothing but labels of what is there, or by a controller marking it |
| Lifecycle.SweepsIff | internal/api/organizations.go:747-771 | A row is swept exactly when it is marked and nothing of its namespace is left where requests for it go; its own clusters' rows go with it, and nothing else |
| Lifecycle.DeletionCanComplete | internal/api/organizations.go:666-771 | From every state the rows can be in, the deletion of any tenant can complete: a run of its own steps after which its row is gone and, of the objects, exactly those of its namespace where requests for it go |
| Lifecycle.DeletionLeavesIff | internal/api/organizations.go:747-771 | In every reachable state with an object on an organization's placement: while requests for its namespace reach the placement the row is not swept before that object is gone; and if they do not (it was renamed, and no bearer of the name stands there) its deletion can complete with the object still there |
| Migration.MigrationDelivers | internal/api/organizations.go:498-518 | At the flip requests go to the new cluster and the lock is off; and every key that no controller touched on either cluster, and no write whose lock look-up failed, reads as Merged says of the two clusters at the lock, and is still at the source, whatever other requests, renames and migrations ran beside the copy |
| Migration.MigrationDeliversListed | internal/api/organizations.go:560-600 | Whatever happened at the source meanwhile (controllers removing clusters, writes slipping through the lock): every key controllers left alone at the destination reads as the listings of its kind found it |
| Migration.SlippedWriteIsLost | internal/api/reconcilingclusters.go:34-53 | From every reachable state in which a clean migration may start, for every key and content: a run in which a write whose lock look-up fails is made and read back, and at the flip the key reads as if it had never been made |
| Migration.MigrationCanComplete | internal/api/organizations.go:498-526 | From every reachable state in which a clean migration may start, its own steps alone take it to the flip: no listed key is ever in the way, so the theorems about completed migrations are never about nothing |
| Migration.MigrationLosesNothing | internal/api/organizations.go:542-642 | At the flip every object so left alone exists on the new cluster, with the source's labels on every ClusterDefinition; where its name was absent there it is identical if and only if it was not being deleted, and a ClusterDefinition that was has spec.delete set instead |
| Migration.FailedMigrationChangesNothing | internal/api/organizations.go:505-512 | After a failed copy the placement is what it was and the lock is off, and every key that neither a controller at the source nor a write past the lock touched reads as it did |
| Migration.ReadsPreservedIff | internal/migrate/migrate.go:129-141 | A completed migration preserves the read of a key so left alone if and only if the destination had it as the source, up to a ClusterDefinition's labels, or did not have it and it is not being deleted |
| Migration.MovedBack | internal/migrate/migrate.go:129-132 | Moved away and later back, with the organization left in place between: each key so left alone reads as the way back merges the other cluster with the old one as it was; so an edit made on the other cluster to an object that was there is lost, and a deletion undone |
| Migration.RenamedTenantLeftBehind | internal/api/organizations.go:471-476 | A renamed organization moved between two clusters, with no failure, arrives with nothing: the copy read the home cluster |
| Migration.CopyLosesNothing | internal/migrate/migrate.go:129-132 | Wherever a copy left to itself stops, every object the destination had is still there and differs in labels at most |
| Migration.CopiedMerges | internal/api/organizations.go:542-600 | Finished, a copy left to itself has made the destination Merged of both sides, key by key, and left the source as it was, also where both are one cluster |
| OrgClusters.Server.MigrateOrganizationToTarget | internal/api/organizations.go:442-526 | Whatever fails in it, a switch run alone is a run of Organizations' steps. Refused, with the status of the first check that does, or there already, it changes nothing. Otherwise its flip lands if and only if both clusters are reached and no lock, copy or final write fails; the answer is success if and only if it is there already, or landed and could be reloaded. Landed, the placement is the target and every read of a tenant under its own name is Merged of the two clusters; if not, placement and reads are as before, and the lock is off or the organization stuck |
| OrgClusters.Server.RunOrganizationMigration | internal/api/organizations.go:542-600 | The whole copy, as a run of its steps, succeeds if and only if no step before, listing, call, status write or step after fails; then the destination is Merged of both sides, key by key; in any case nothing there is lost or differs in more than labels, and nothing else changes, the source included |
| OrgClusters.GoesThroughIff | internal/api/organizations.go:542-600 | When a copy goes through, object by object: no outer step, listing or call of an object the source has in the namespace fails, nor the status write of a ClusterDefinition new to the destination |
| OrgClusters.SwitchesIff | internal/api/organizations.go:442-526 | The two conditions the handlers' contracts share: an organization is moved exactly if its migration can start as a step of Organizations and nothing fails up to the flip; success is answered for that, when it can be reloaded, and for a placement already there that no check refuses |
| OrgClusters.IsLabelIff | internal/api/orgreconcilingclusters.go:164-178 | A cluster name is accepted exactly if it is 1 to 63 of the characters a to z, 0 to 9 and '-', the last at neither end |
| OrgClusters.Server.CopyListing | internal/migrate/migrate.go:118-161 | One kind's loop, as a run of copy steps: the failures are exactly the listed objects whose call fails and the ClusterDefinitions created whose status write failed; the others are copied or skipped; the label pass stops at its first failure |
| OrgClusters.Server.CopyPass | internal/api/organizations.go:622-642 | One pass succeeds exactly when its listing does and every listed object's copy works, and then has nothing left to do; else the copy is marked failed |
| OrgClusters.Server.CopyObject | internal/migrate/migrate.go:121-161 | one object's copy: created as the conversion carries it, a deletion under way as spec.delete, or skipped where the name exists, or given the listed labels; no change where a call fails or there is nothing to label |
| OrgClusters.Server.List | internal/api/organizations.go:623-626 | a listing has each object of the kind and namespace once, and nothing else |
| OrgClusters.Server.ResourceClient | internal/api/reconcilingclusters.go:248-327 | finds where requests for the namespace go; none exactly when a look-up or the client fails, or it is the home cluster and there is none |
| OrgClusters.Server.UpsertOrgReconcilingCluster | internal/api/orgreconcilingclusters.go:180-197 | rotates the organization's own cluster of that name or registers one, as a run of Organizations' steps; no other kubeconfig changes, names stay unique per owner; a failing write changes nothing, while a failing read-back answers failure with the kubeconfig stored |
| OrgClusters.Server.ResolveOrgSelectableCluster | internal/api/orgreconcilingclusters.go:353-368 | picks its own cluster of that name, and failing that the one it stands on; nothing exactly when neither has the name; what it picks may be switched to |
| OrgClusters.Server.HandlePutOrgReconcilingCluster | internal/api/orgreconcilingclusters.go:298-349 | In each form of the request, by name, with a kubeconfig or empty: the cluster asked for is said in rows (its own of that name, failing that the one it stands on; the row stored under the name; home); 404 if and only if there is none by name, 400 for a malformed one, 500 where storing fails; and else it moves exactly when a switch to that cluster does, succeeds exactly when that is answered and its placement resolved, and fails with the switch's status. A kubeconfig that was accepted stays stored whatever becomes of the switch, and no other row or kubeconfig changes |
| OrgClusters.Server.HandleRemoveOrgReconcilingCluster | internal/api/orgreconcilingclusters.go:250-278 | the answer in every case: 404 without an own cluster of that name, 409 for the one it stands on, 500 if the store fails, else success; then exactly that row and kubeconfig are gone, else nothing |
| OrgClusters.Server.HandleDeleteOrgReconcilingCluster | internal/api/orgreconcilingclusters.go:374-403 | a run of Organizations' steps that moves exactly when a switch home does, succeeds exactly when that is answered and its placement resolved, and fails with the switch's status; at home after either, else where it stood |
| CreateOnce.Agreement | internal/agentpki/ca.go:61-104 | However many processes run get, create, get again, in any interleaving: all that return a key return the stored one |
| CreateOnce.StoredOnce | internal/api/credentials.go:32-55 | The stored key never changes once written |
| CreateOnce.StoredWasGenerated | internal/agentpki/ca.go:70-84 | What is stored was there at the start or is the encoding of a key some process generated |
| CreateOnce.LosersFindTheKey | internal/agentpki/ca.go:84-95 | Without store failures nobody fails: whoever loses the race finds the winner's key |
| CreateOnce.FourSteps | internal/api/credentials.go:32-55 | Every process is through after at most four of its own steps, whatever the others do, and can always take the next |
| CreateOnce.RunsAlone | internal/agentpki/ca.go:61-104 | One process's calls alone, each failing or not, are a run to exactly what they should come to: the stored key, its own stored and returned, or a failure, by which call failed and which store it is |
| SigningKey.CodecRoundTrips | internal/api/credentials.go:57-63 | padded base64 gives back every key, which is what the protocol needs of its codec |
| SigningKey.Row.EnsureSigningKey | internal/api/credentials.go:32-55 | what is returned is the stored key, and without faults there is one: the one stored before, another process's written in between, and otherwise the one generated here, which is then what is stored |
| SigningKey.Row.Create | internal/api/credentials.go:46-46 | an insert the UNIQUE constraint lets in once, and the select after it |
| AgentTunnel.AgentRegistry.Register | internal/api/agentregistry.go:113-117 | from here on this connection, and no other, is what a removal under the key takes away, which leaves the registry as before without the key; every other key holds what it held |
| AgentTunnel.AgentRegistry.RemoveIfCurrent | internal/api/agentregistry.go:141-149 | removes the key exactly when it holds this very connection, and says so |
| AgentTunnel.AgentRegistry.Lookup | internal/api/agentregistry.go:152-157 | what is registered, if anything |
| AgentTunnel.RegistryHoldsTheLatest | internal/api/agent_listener.go:211-227 | In every interleaving the registry holds exactly the connection that registered last, unless that very connection removed itself |
| AgentTunnel.SupersededIsHarmless | internal/api/agent_listener.go:218-227 | A superseded connection evicts nobody and never writes Connected false |
| AgentTunnel.AllOverMeansAbsent | internal/api/agentregistry.go:141-149 | Once every connection of a key has cleaned up, the key is absent |
| AgentTunnel.OrderedWritesAgree | internal/api/agent_listener.go:272-300 | If a key's status writes land in the order of its registry changes and none fails, the flag equals registry membership whenever none is outstanding |
| AgentTunnel.SerialRefinesAtomicFlag | internal/api/agent_listener.go:211-227 | If register-then-write and remove-then-write pairs of a key do not overlap, the two-write protocol refines one atomic flag |
| AgentTunnel.OvertakenWrite | internal/api/agent_listener.go:216-227 | Under the finest interleaving the flag can be wrong for good: a run that ends with a live registered connection and Connected false |
| AgentTunnel.OvertakenFromTheStart | internal/api/agent_listener.go:211-227 | Such a run from an empty registry, with two connections |
| AgentTunnel.FlagWrongIff | internal/api/agent_listener.go:211-227 | In every run, whichever writes fail, the flag differs from registry membership if and only if the status write that landed last and the last registry change do not say the same; that write was of the last change in its time; and where no write fails and none is outstanding there are both, and they are opposite |
| AgentIdentity.ParseAgentPrincipal | internal/agentpki/sign.go:40-47 | the index loop splits at the first slash, or fails exactly without one |
| AgentIdentity.PrincipalRoundTripIff | internal/agentpki/sign.go:35-47 | building and parsing a principal are inverse if and only if the namespace has no slash |
| AgentIdentity.EveryKeyWasMinted | internal/api/agent_listener.go:145-193 | Every key that ever enters the registry is the scope of a minted token, which yielded exactly one certificate, no later than BootstrapTokenTTL after minting, used before its end |
| AgentIdentity.BootstrapsIff | internal/agentpki/bootstrap.go:42-106 | Over every run, an unused token presented with a usable key yields one certificate, of its scope and the certificate TTL, if and only if the second its TTL ends in has not begun; consumed either way |
| AgentIdentity.ConnectsUntilItsEnd | internal/api/agent_listener.go:102-192 | Over every run, a certificate connects, as the scope its token was minted for, exactly until its last second |
| AgentIdentity.MintedTokenConnects | internal/agentpki/bootstrap.go:42-106 | From every state, for every new token and scope: minted, presented within its TTL less a second and connecting within the certificate's less a second, it enters the registry under that scope |
| AgentIdentity.ConsumedForGood | internal/agentpki/bootstrap.go:80-106 | A token once consumed never yields a certificate again, over any continuation |
| AgentIdentity.BootstrapSecrets.GenerateBootstrapToken | internal/agentpki/bootstrap.go:42-63 | adds the one secret, expiring one TTL later to the second; fails exactly where one of that name exists |
| AgentIdentity.BootstrapSecrets.ValidateAndConsumeBootstrapToken | internal/agentpki/bootstrap.go:80-106 | deletes before it checks expiry: the secret is gone after every call that does not fail, expired or not, and the scope is returned exactly for a live one |
| Access.BestMembership | internal/api/server.go:470-485 | the loop returns BestOf the memberships in the namespace |
| Access.BestIsMaximal | internal/api/server.go:470-498 | BestOf is none exactly when nothing is held there, and otherwise held there and outranked by nothing held there |
| Access.RanksAbove | internal/api/server.go:487-498 | superadmin is above admin, admin above read-only, and that above every custom role |
| Access.ResolveAccess | internal/api/server.go:421-466 | the branches in their order: Resolve, of which the next rows say what it answers |
| Access.HeaderDecides | internal/api/server.go:442-457 | With a header that is not blank, the answer is that of the organization it names, or of that name itself where there is none: superadmin for a superadmin, the highest role held there for a member, 403 for others; act-as and the token's namespace do not matter |
| Access.ActAsDecides | internal/api/server.go:444-452 | Without one, a superadmin acts where act-as says |
| Access.ActAsIsASuperadmins | internal/api/server.go:444-446 | Nobody else's answer depends on act-as |
| Access.TokenDecides | internal/api/server.go:446-457 | Otherwise the answer is that of the token's namespace, if it has one |
| Access.RoleIsTheHighestHeld | internal/api/server.go:421-466 | 401 exactly without memberships; 403 exactly for a non-superadmin selecting a namespace they hold nothing in; a superadmin gets superadmin; anyone else a maximal-rank membership of the namespace resolved; a selection is always what is resolved |
| Access.DefaultNamespace | internal/api/server.go:461-465 | With nothing selected: the control plane for a superadmin, the least namespace by order for anyone else |
| Access.SuperadminIff | internal/api/server.go:438-456 | The role granted is superadmin exactly for holders of a control-plane superadmin binding, or of one in the namespace resolved; so exactly for the former when superadmin bindings live only there |
| Access.RequireRole | internal/api/server.go:504-533 | allowed exactly for a role listed, and for superadmin where admin is listed |
| Accounts.AccountsStayConsistent | internal/api/accounts.go:188-640 | Over every run of create, update and delete requests by resolved callers, however the store fails each of them between its look-ups and writes: one binding per namespace and username, no shared email, superadmin bindings only in the control plane, every identity with a binding a user, and every user without one left over by a create or a deletion that failed between two writes |
| Accounts.CreateSucceedsIff | internal/api/accounts.go:188-308 | When a create goes through, on the caller, the request and the tables: admin or superadmin, a built-in role, superadmin only by one, no member of that name there yet, and for a new user a password and an email nobody has |
| Accounts.WhyNotCreated | internal/api/accounts.go:188-308 | what each refusal means |
| Accounts.CreateStores | internal/api/accounts.go:217-319 | What a create stores: one membership of that name, the requested role, the control plane's namespace for a superadmin, the one a superadmin requests, else the caller's, and the resolved environment; a new user's trimmed email; every other row and user as before |
| Accounts.CreatedRoleIsGranted | internal/api/server.go:421-466 | A user who was a member of nothing, resolving a request that picks the namespace they were added to, is granted exactly the role requested for them |
| Accounts.UpdateSucceedsIff | internal/api/accounts.go:386-506 | When an update goes through, on the caller, the request and the tables |
| Accounts.WhyNotUpdated | internal/api/accounts.go:386-506 | what each refusal of an update means |
| Accounts.UpdateStores | internal/api/accounts.go:433-525 | What an update stores: the role and email given, in the namespace and with the scope that role belongs in; what is not given and every other row and user as before |
| Accounts.SuperadminsAreInvisible | internal/api/accounts.go:405-421 | To anyone but a superadmin, an update or deletion of a superadmin's account is answered like one of an account that does not exist |
| Accounts.DeleteRemoves | internal/api/accounts.go:576-640 | When a deletion goes through, the status where it does not, and what it takes: every membership of the name in the caller's namespace, the user exactly with the last of all, nothing else |
| Accounts.FailedWritesLeave | internal/api/accounts.go:296-525 | What a store that fails between two writes leaves behind a failure: a new user without the membership, the role without the email, the memberships a deletion did not get to |
| Accounts.EveryRequestIsAStep | internal/api/server.go:395-466 | A request by whoever is granted a role in a namespace is a step of the runs, from the tables the role was read from to those the handler leaves |
| Accounts.DeleteKeepsIff | internal/api/accounts.go:611-634 | A deletion keeps the users exactly the identities with a binding, unless it failed to finish with someone's last one |
| Accounts.NeverWithoutSuperadmin | internal/api/accounts.go:576-640 | Starting with a superadmin, no run of account requests, organizations created with any admin binding and organizations deleted leaves none, whatever else is amiss with the tables |
| Accounts.CallerRules | internal/api/server.go:421-466 | A caller's resolved role is superadmin exactly when they hold such a binding in the very tables the request changes |
| Accounts.ConfinedToOneNamespace | internal/api/accounts.go:188-640 | A request by anyone but a superadmin changes something only as an admin's, and, failing or not, leaves every superadmin binding, every binding outside its namespace and the email of everyone with a binding outside it unchanged |
| Accounts.CallerStays | internal/api/accounts.go:433-438 | No request takes the caller's own superadmin binding away |
| Accounts.DeleteUndoesCreate | internal/api/accounts.go:576-640 | A DELETE right after a create, by its caller in the namespace it was created in, succeeds and gives back all users and bindings, if and only if the user was not one left over without any binding |
| Accounts.DemotionUndoesPromotion | internal/api/accounts.go:442-506 | Demoting into the namespace an account was promoted from gives back what it was |
| Accounts.SeedKeepsIff | internal/orgdb/crud.go:241-255 | The binding POST /organizations seeds keeps the accounts consistent if and only if its role is not superadmin and its identity is a user without a binding there: neither is checked |
| Accounts.SweepKeepsIff | internal/orgdb/crud.go:165-208 | Deleting an organization's bindings keeps the accounts consistent if and only if every user also belongs elsewhere |
| Accounts.AccountStore.FindBindingBySubject | internal/orgdb/crud.go:468-486 | in any row order, a binding of maximal rank, or none exactly when there is none |
| Accounts.AccountStore.IsMemberElsewhere | internal/api/identity.go:57-68 | whether some binding is in another namespace |
| Accounts.AccountStore.HandleCreateAccount | internal/api/accounts.go:188-336 | every check in its order: the tables become CreateAccount's, or stay as they were with its status; a store failing between the user and the binding leaves the user alone, one failing after leaves both, answered as a failure |
| Accounts.AccountStore.HandleUpdateAccount | internal/api/accounts.go:386-558 | every check in its order, the row moved between namespaces where a role crosses superadmin: UpdateAccount's tables, or as they were with its status, or with the role stored and the email not where the store fails between the two |
| Accounts.AccountStore.DeleteBindingsOf | internal/api/accounts.go:611-620 | the loop removes exactly the identity's bindings of that namespace, or some of them up to one it cannot remove |
| Accounts.AccountStore.HandleDeleteAccount | internal/api/accounts.go:576-640 | DeleteAccount's tables, also where finding out about other memberships or removing the user fails after the bindings went; a row that cannot be removed stops it with a failure and that row still there; otherwise the user goes exactly with the last membership |
| Environments.CollisionIff | internal/api/environmentnaming.go:41-53 | Two different environments can name one object with non-empty short names if and only if one's name and a dash start the other's |
| Environments.SameShortNameNeverCollides | internal/api/environmentnaming.go:41-43 | One short name in two environments never gives one stored name |
| Environments.EnvironmentsStayConsistent | internal/api/organizations.go:868-984 | Over every run of environment and cluster requests, renames, migrations, failed migrations and controller removals with no straying step: default stays and every label on the cluster the namespace is placed on names an environment there is; the environments' listings are disjoint and show every cluster but the unlabelled ones of a renamed organization and a leftover it sees; an environment can be deleted if and only if it is not default and labels no cluster requests see |
| Environments.LabelsLiveAllAlongIff | internal/api/organizations.go:868-984 | Labels name existing environments at the start and after every step of a run if and only if no step of it strays, the straying ones told by a check before the step |
| Environments.DeletionKeepsLabelsIff | internal/api/organizations.go:962-980 | A deletion the handler allows keeps the labels live if and only if requests for the namespace reach its placement or no cluster there bears the label |
| Environments.RenamedDeletionStrays | internal/api/organizations.go:962-980 | From any consistent state: an organization on its own cluster, renamed, deletes an environment that labels a cluster there, and under its old name again has a cluster that no environment lists |
| Environments.MoveKeepsLabelsIff | internal/api/organizations.go:622-642 | A migration keeps the labels live if and only if no leftover at the destination, absent from the source, bears a dead one, and, of a renamed organization, none it copies from the home cluster does |
| Environments.DeadLabelReturns | internal/migrate/migrate.go:129-132 | From any consistent state and any new environment: a cluster labelled with it is moved away, deleted there and then its environment; moved back, the old copy is there again under a label no environment has |
| Environments.MoveIsMerged | internal/api/organizations.go:542-642 | A move is, cluster by cluster, the merge that Migration proves of a whole migration, the environment label among the labels |
| Environments.PartMovedIsPartOfACopy | internal/api/organizations.go:542-642 | What a failed move leaves is, cluster by cluster, what Migration's passes make of it as far as they got: left alone, created without labels, or labelled; other physical clusters are as they were |
| Environments.OrganizationBegins | internal/api/organizations.go:197-260 | An organization begins under its namespace's name on the cluster asked for, with the one environment default, and no cluster changes |
| Environments.ControllersChange | internal/crdconv/clusterdefinition.go:43-60 | A controller marks a cluster it deletes wherever it finds it, takes away exactly what is marked, and touches nothing else |
| Environments.DeleteUndoesCreate | internal/api/organizations.go:868-984 | A new environment can be deleted at once and leaves nothing behind, if and only if requests see no leftover with its label, which an organization under its own name never does |
| Environments.EnvironmentsChange | internal/api/organizations.go:868-984 | A create adds the environment once and last, a deletion removes it and no other, with the status of each refusal |
| Environments.CreatesInEnvironment | internal/api/clusters.go:440-517 | In an organization, a create goes through exactly when the joined name is free; then requests see one more cluster, with the spec given, which the environment and short name address and which is listed in it as such, and every other as before |
| Environments.CreatesElsewhere | internal/api/clusters.go:440-517 | Without an organization that is looked up, the cluster has its own name, the spec and no label; where it is not clear which environment is meant, none is made |
| Environments.ChangesAsListed | internal/api/clusters.go:527-590 | A cluster addressed as listed is updated to the spec given and in nothing else; deleted, it is pending while a finalizer holds it and else gone; every other one stays |
| Environments.ListedAs | internal/api/clusters.go:120-150 | An unlabelled cluster of an organization is listed in default under its name, a labelled one in its label's environment under the name without it |
| Environments.UnlabelledIs | internal/api/environmentnaming.go:167-195 | An unlabelled cluster is an only environment's, of several default's, and without that none's |
| Environments.TakenLiterally | internal/api/environmentnaming.go:240-262 | A request naming an environment there is not reaches only what literally has the name |
| Environments.NeverTheLast | internal/api/organizations.go:948-955 | A deletion never takes an organization's last environment, whichever it is, but is refused as a bad request |
| Environments.ListedTwiceIff | internal/api/clusters.go:120-150 | Two rows are listed under one name and environment if and only if one is unlabelled and the other is the default environment joined with its name |
| Environments.ListedRowsContents | internal/api/clusters.go:207-220 | The rows listed are exactly those of the clusters so selected |
| Environments.ReachedAsListedIff | internal/api/environmentnaming.go:240-262 | A listed row is reached by its listed name and environment if and only if it is labelled and the organization bears the namespace's name, or neither; no prefix condition is needed |
| Environments.ReachedByNameAloneIff | internal/api/environmentnaming.go:240-262 | By its name alone an unlabelled row is always reached; a labelled one exactly when the organization bears the namespace's name, nothing bears the short name literally, and its environment is the default one |
| Environments.ReachesOwnEnvironment | internal/api/environmentnaming.go:240-262 | A request for an environment reaches another's cluster only where the two names are a prefix pair |
| Environments.CrossEnvironmentRequest | internal/api/environmentnaming.go:240-262 | And for every such pair it does: an update addressed to one environment changes a cluster listed under the other |
| Environments.WhyConflict | internal/api/clusters.go:508-512 | A create refused for its name met the same name in the same environment, an unlabelled object, one of a prefix pair, or, without an environment, the object of that name |
| Environments.NamespaceStore.HandleListClusters | internal/api/clusters.go:207-220 | the filter loop returns ListedRows, in order |
| Environments.NamespaceStore.EnvironmentInUse | internal/api/organizations.go:993-999 | whether some cluster that requests see bears the label |
| Environments.NamespaceStore.HandleCreateEnvironment | internal/api/organizations.go:868-901 | CreateEnvironment's state or status; an existing one is a success that changes nothing; a failing store changes nothing |
| Environments.NamespaceStore.HandleDeleteEnvironment | internal/api/organizations.go:927-984 | DeleteEnvironment's state or status, checks in order, the last of them on the cluster that requests for the namespace are routed to; a failing store changes nothing |
| Environments.NamespaceStore.HandleCreateCluster | internal/api/clusters.go:440-517 | CreateCluster's state or status: name, environment, conflict; a failing call changes nothing |
| Base64.RoundTrip | internal/api/token.go:120-127 | Every byte string decodes back from its encoding, padded or not, and an encoding has no dot and no line break |
| Base64.Examples | internal/api/token.go:120-127 | the examples of section 10 of RFC 4648 and both ends of every range of the two alphabets |
| Base64.BreaksAreSkipped | internal/api/token.go:120-127 | A line break anywhere in a text changes nothing of what it decodes to |
| Tokens.TakenApart | internal/api/token.go:77-98 | The split at the first dot recovers both halves of a signed token, and both decode |
| Tokens.VerifiesIff | internal/api/token.go:77-118 | An issued token verifies to exactly its subject and namespace if and only if the subject is not empty and its last second is not over; otherwise the error says which |
| Tokens.OtherKeyRefuses | internal/api/token.go:100-103 | Under a key that signs the payload differently the token is refused |
| Tokens.VerifiedWasIssued | internal/api/token.go:86-118 | Given that only issued payloads were signed, whatever verifies is one of them, within its time |
| Tokens.SessionTokenRoundTripIff | internal/api/auth_handlers.go:179-185 | A session token splits as it was joined if and only if the id is non-empty and dot-free and the secret non-empty |
| Tokens.SplitsIff | internal/api/auth_handlers.go:179-185 | A token splits into an id and a secret exactly if it is the two joined by a dot, both non-empty, the id without one |
| Tokens.GeneratedSecretSplits | internal/api/auth_handlers.go:179-185 | Base64url secrets always satisfy that |
| Sessions.AcceptedWithinBothTTLs | internal/api/auth_handlers.go:137-165 | Over every run, a token accepted now came from a login no longer ago than SessionTTL + AccessTokenTTL, to the second expiries are kept in |
| Sessions.VerifiedWithinBothTTLs | internal/api/token.go:86-118 | The same for texts: given that only issued payloads were signed, whatever text VerifyToken takes now is that of a token whose login is within both lifetimes, with the subject and namespace it answers |
| Sessions.TextVerifiesIffAccepted | internal/api/token.go:77-118 | VerifyToken takes the text of an issued token exactly while the runs' Accepted says so |
| Sessions.OvershootRun | internal/api/token.go:77-80 | A run that attains that bound: a token accepted a second less a nanosecond beyond both lifetimes |
| Sessions.RevokedForGood | internal/api/auth_handlers.go:247-258 | Once revoked (a logout, or a reset or account deletion whose revocation went through) a session never refreshes again, and no token of it is accepted past AccessTokenTTL from then |
| Sessions.RevokedTextsDie | internal/api/auth_handlers.go:481-486 | Once every session a subject's tokens came from is revoked, no text verifies as that subject's past AccessTokenTTL from then until a new login |
| Sessions.ResetTextsDie | internal/api/auth_handlers.go:478-486 | After a password reset or an account's deletion whose revocation went through, whatever happens but a new login of the subject: no text verifies as the subject's past AccessTokenTTL from then, and nothing refreshes as the subject |
| Sessions.EndsIff | internal/api/auth_handlers.go:247-258 | A session ends exactly by a logout with its id (whatever the secret), or by a reset or deletion of its subject whose revocation did not fail; both succeed also when it did |
| Sessions.ResetLeavesSession | internal/api/auth_handlers.go:478-486 | A run in which a password reset succeeds and the old session token still refreshes, its revocation having failed |
| Sessions.RefreshesUntilExpiry | internal/api/auth_handlers.go:200-232 | With the token it was issued as, a live session refreshes if and only if its last instant is not over |
| Sessions.OnlyItsTokenRefreshes | internal/api/auth_handlers.go:221-224 | Over every run, given that no two secrets have one digest: whatever refreshes a session is the very token its login handed out, and it is for that login's subject and namespace |
| Sessions.SessionStore.IssueSession | internal/api/auth_handlers.go:137-165 | adds the one row, and the token returned refreshes it |
| Sessions.SessionStore.HandleRefresh | internal/api/auth_handlers.go:200-235 | on the row: a token id.secret is answered with the row's subject and namespace exactly when the id is stored, not past its last instant, and the secret has the stored digest; another is refused as malformed or invalid; nothing changes |
| Sessions.SessionStore.HandleLogout | internal/api/auth_handlers.go:247-258 | removes exactly the named row; the token never refreshes after |
| Sessions.SessionStore.DeleteSessionsBySubject | internal/api/auth_handlers.go:481-486 | removes exactly the subject's rows |
| ControllerNamespaces.ResolveTargetNamespaces | cmd/controller/setup_namespace.go:44-67 | each target once, exactly the namespaces IsTarget says, the control plane's own first for a home controller |
| ControllerNamespaces.TargetedOnceIff | cmd/controller/setup_namespace.go:44-67 | The home controller and one controller a cluster target exactly the organizations' namespaces and the control plane's between them, and one twice if and only if it is the control plane's own and its organization is placed on a cluster |
| ControllerNamespaces.WatchTargetNamespaces | cmd/controller/setup_namespace.go:81-107 | reports the first successful poll that differs, retries failed ones, and returns nothing when none does |
| ControllerNamespaces.DiffersIffSetsDiffer | cmd/controller/setup_namespace.go:99-106 | For an answer without duplicates a change is seen if and only if the two sets differ; one with duplicates hides a change exactly when they pad a smaller set to the expected length |
| Relay.RelayConserves | internal/agent/proxy.go:71-86 | In every interleaving of the two copies, per direction: sent is delivered plus in flight plus unread, in order; an end is closed for writing exactly once the copy to it has ended and closed it, and for reading with that exactly where it cannot be half closed; and the relay returns only when both have signalled |
| Relay.ReturnsOnceBothAreDone | internal/agent/proxy.go:83-85 | Once both have signalled, receiving twice at most is all that is left, and always possible |
| Relay.CanReturn | internal/agent/proxy.go:71-86 | From every reachable state the relay can come to return: no copy ever waits for what cannot come |
| Relay.HalfCloseTruncatesNothing | internal/agent/proxy.go:73-82 | Without I/O failures a direction whose source can be half closed delivers all that was sent before its copy ends, whatever the other does |
| Relay.FullCloseTruncates | internal/agent/proxy.go:75-79 | Where it cannot be half closed, the other copy's end truncates it: a run |
| Relay.Relaying.CopyHalf | internal/agent/proxy.go:73-82 | one copy's loop, left alone, is a run of the machine that delivers everything, closes the destination and signals |
| ContextNames.UniqueContextName | cmd/shared/login.go:129-137 | terminates after at most one more probe than there are names, with the first free one of base, base-2, base-3, ... |
| ContextNames.OneIsFree | cmd/shared/login.go:129-137 | At most as many leading candidates are taken as names are registered |
| ContextNames.DecimalInjective | cmd/shared/login.go:135-135 | Decimal suffixes of different numbers differ |
| ContextNames.DecimalIsTheNumeral | cmd/shared/login.go:135-135 | The suffix is the number in base ten, without a leading zero |

## Left out

- Kubernetes, SQL, SSH, TLS, WebSocket and reverse-proxy behaviour beyond atomic calls and ordered byte streams.
- bcrypt, HMAC, SHA-256, signing and random generation; email sending and the delay against enumeration.
- Interleavings finer than the code guards: two migrations of one organization past the unlocked check, two callers
  consuming one bootstrap token between its get and its delete, an environment delete racing a create.
- Organizations.Step: object status, HyveConfig, namespace and RBAC scaffolding and credentials Secrets are not among
  the objects a migration moves; a pending deletion may take any of a namespace's objects at any time; requests that go
  around the lock by design (the control plane's own namespace, the organization config routes) are not tenants'
  object writes.
- Organizations.EqualFold: case folding is ASCII, and the second reserved form of a name ("control plane") is not
  refused here; every theorem holds for the larger set of names.
- Organizations.Carried: the copy of a ClusterDefinition also normalises an `access.agent` block that is not enabled
  and otherwise empty to none; the two mean the same.
- OrgClusters.Server.MigrateOrganizationToTarget: a write that takes effect and is reported as failed is not an outcome.
- Accounts.Step: passwords, notifications and subjects other than local ones do not appear; DELETE's revocation of
  sessions is in Sessions. A membership whose environment was
  deleted keeps its organization without one, and updates of it are then refused; such rows do not appear.
- Access.Leq: the order of namespaces is by character, not by a database collation.
- Environments.Step: Kubernetes' own checks of names and specs only make fewer requests succeed; labels edited around
  the API are not modelled. A renamed organization's namespace is taken not to be another organization's name (Placement
  says what is then routed where), and a migration is one step among environment requests, its own interleavings being
  Migration's.
- AgentIdentity.Step: the certificate's clock skew allowance and the host certificates.
- ControllerNamespaces.ResolveTargetNamespaces: a failing lookup is an error without an answer; the watcher takes it
  as a failed poll.
- Pass-through handlers (templates, workflows, resources, modules, secrets, settings), kubeconfig minting, event
  paging, expiry display, the command-line tool and the web console would add only easy members.
