# odoo-operator in Dafny

A model of the Python Kubernetes operator that runs Odoo instances, with
proofs about it. The operator has three parts:

- **kopf handlers.** An `OdooInstance` custom resource (group
  `odoo.bemade.org`, version `v1`) has handlers for create, update and
  delete. They build a filestore PersistentVolumeClaim, a ConfigMap, a
  Deployment, a Service and an optional Ingress. They report progress through
  the resource's `status`, and on delete they drop the instance's PostgreSQL
  role and database.
- **Database provisioning.** `create_database_user` creates the role and
  database. `create_db_credentials_secret` writes the credentials Secret.
  The earlier `create_deployment` is the one that calls them. It also wires
  the credentials into the pod environment.
- **Admission webhooks.** `validate_odoo_instance` checks an OdooInstance.
  `mutate_odoo_instance` fills in its defaults. The two Flask endpoints wrap
  each one in an AdmissionReview answer.

The modules follow the program:

- `Types`: the pydantic models of `types.py`, with the parse/dump round trip.
- `Json`: just the Python operations the webhook code uses, with the
  exceptions they raise.
- `Naming`: the object names and labels.
- `Resources`: the object descriptors.
- `Synthesis`: the live builders.
- `EnvOverlay`: the environment overlay loop.
- `Cluster`: the API server, as a `Store` class over a map of objects.
  Per-key faults stand for the status codes the API calls may fail with.
- `Applier`: create-or-skip, update-or-create, tolerant delete.
- `Database`: the PostgreSQL server, as a `PostgresServer` class, with
  provisioning and cleanup.
- `Controller`: the three handlers.
- `Legacy`: the earlier `create_deployment` at operator.py:641.
- `Admission`: validation, mutation and the two webhooks.

Each step that changes state is a method on `Store`, `PostgresServer` or
`Document`, proved equal to a pure function of the old state. The properties
are then proved about those functions.

Where the code and the written description of the system disagree, the
model follows the code:

- The create handler never provisions a database: only the earlier
  `create_deployment` calls `create_database_user`, and it is shadowed.
- The live `create_ingress` builds an Ingress even without a hostname: the
  rule's host is then `None`. Only the shadowed builder at operator.py:991
  skips.
- Disabling the ingress deletes `odoo-<name>`, not the Ingress `<name>` that
  create made.

## Model

| member | source | states |
|---|---|---|
| Types.DumpResources | odoo-operator/python/types.py:8-11 | parsing the dumped resource requirements gives them back |
| Types.DumpEnvVar | odoo-operator/python/types.py:14-18 | parsing a dumped environment variable gives it back |
| Types.DumpDatabase | odoo-operator/python/types.py:21-24 | parsing a dumped database section gives it back |
| Types.DumpFilestore | odoo-operator/python/types.py:27-31 | parsing a dumped filestore section gives it back |
| Types.DumpAddon | odoo-operator/python/types.py:34-38 | parsing a dumped addon repository gives it back |
| Types.DefaultAddon | odoo-operator/python/types.py:34-38 | an addon with only `repo` parses with branch `main` and no path; one with only a branch is refused |
| Types.DumpIngress | odoo-operator/python/types.py:41-48 | parsing a dumped ingress section gives it back |
| Types.DefaultIngress | odoo-operator/python/types.py:41-48 | an empty ingress section parses as enabled, with TLS, and no hostname, class, annotations or TLS secret |
| Types.DumpSpec | odoo-operator/python/types.py:51-61 | parsing a dumped instance spec gives it back |
| Types.ParseSpecFields | odoo-operator/python/types.py:51-61 | a document whose every field parses to the spec's value parses to that spec |
| Types.MinimalSpec | odoo-operator/python/types.py:51-61 | a spec with only `version` parses with one replica and every optional section absent |
| Types.VersionRequired | odoo-operator/python/types.py:53 | a spec without `version` is refused |
| Types.DumpStatus | odoo-operator/python/types.py:64-69 | parsing a dumped status gives it back |
| Types.EmptyStatus | odoo-operator/python/types.py:64-69 | an empty status parses with every field absent |
| Types.DumpInstance | odoo-operator/python/types.py:72-78 | parsing a dumped OdooInstance gives it back |
| Types.MinimalInstance | odoo-operator/python/types.py:72-78 | an instance with metadata and a bare spec parses with the default apiVersion and kind and no status |
| Json.PyInt | odoo-operator/python/operator.py:1748-1753 | `int()` of an integer is that integer, of a bool 1 or 0, of a float its truncation toward zero; of None, a list or a dict it fails |
| Json.StripPadded | odoo-operator/python/operator.py:1749 | `strip()` removes exactly the whitespace around a word that starts and ends with something else |
| Json.DigitsValueOfNumeral | odoo-operator/python/operator.py:1749 | the digits of `str(n)` read back as `n` |
| Json.ParseIntLiteralOfNumeral | odoo-operator/python/operator.py:1749 | `int()` of a decimal numeral, with an optional `+` or `-` and surrounding whitespace, is the number it writes |
| Json.ParseIntLiteralRejectsEmpty | odoo-operator/python/operator.py:1749-1753 | `int()` of a string that is empty or a bare sign once stripped fails |
| Json.ParseIntLiteralShape | odoo-operator/python/operator.py:1749-1753 | whatever string `int()` accepts is, stripped, an optional sign and then digits and underscores, starting and ending with a digit |
| Json.Contains | odoo-operator/python/operator.py:1744 | `in` on a dictionary tests its keys, and raises exactly on values that are neither dictionary, string nor list |
| Json.Subscript | odoo-operator/python/operator.py:1745 | a subscript succeeds exactly on a dictionary holding the key, and gives its value |
| Json.Get | odoo-operator/python/operator.py:1736 | `get` succeeds exactly on a dictionary, and gives the key's value or the default |
| Json.SetItem | odoo-operator/python/operator.py:1778 | an assignment succeeds exactly on a dictionary, and sets just that key |
| Naming.DbName | odoo-operator/python/operator.py:1680-1693 | the name is a prefix of `odoo_<namespace>_<name>`, at most 63 characters, the whole of it when that fits and exactly 63 characters when it does not |
| Naming.DbUsername | odoo-operator/python/operator.py:1695-1708 | the username is a prefix of `odoo_user_<namespace>_<name>`, at most 63 characters, the whole of it when that fits and exactly 63 characters when it does not |
| Naming.DbNameInjective | odoo-operator/python/operator.py:1680-1693 | distinct instances whose names fit get distinct database names, when namespaces have no underscore |
| Naming.DbUsernameInjective | odoo-operator/python/operator.py:1695-1708 | distinct instances whose names fit get distinct role names, when namespaces have no underscore |
| Naming.DbNameTruncationCollides | odoo-operator/python/operator.py:1680-1693 | two instance names that differ only after the 63rd character share one database |
| Naming.PrefixedNamesInjective | odoo-operator/python/operator.py:590 | the filestore claim, ConfigMap, credentials Secret and `odoo-` names each determine their instance |
| Naming.ObjectLabels | odoo-operator/python/operator.py:1315-1319 | the object labels hold the selector labels and `managed-by: odoo-operator` |
| Naming.FilestoreLabels | odoo-operator/python/operator.py:596-603 | the claim's labels hold the object labels and `component: filestore` |
| Naming.SelectorIsolatesInstances | odoo-operator/python/operator.py:1305-1367 | an instance's selector picks its own objects' labels and no other instance's |
| Synthesis.FilestorePvc | odoo-operator/python/operator.py:577-639 | the claim is `odoo-filestore-<name>`, owned by the instance, with the spec's size and class or `10Gi` and `standard` |
| Synthesis.OdooConfigMap | odoo-operator/python/operator.py:441-506 | the ConfigMap is `odoo-config-<name>`, owned by the instance, and holds only `odoo.conf` |
| Synthesis.LiveImage | odoo-operator/python/operator.py:1102-1104 | the image is the spec's when set and non-empty, `odoo:<version>` when empty, `odoo:17.0` when absent |
| Synthesis.AddonTasks | odoo-operator/python/operator.py:1200-1247 | the loop yields, for addon i, volume `addon-i`, init task `clone-i` and its mount, in order |
| Synthesis.BuildLiveDeployment | odoo-operator/python/operator.py:1098-1259 | the built Deployment is `<name>`, its first volume is the claim `<name>-filestore`, and it equals the reference Deployment |
| Synthesis.AddonNamesDistinct | odoo-operator/python/operator.py:1207-1211 | addon volumes and init tasks of different indices have different names, none of them `filestore` |
| Synthesis.LiveDeploymentWellFormed | odoo-operator/python/operator.py:1098-1247 | volume names are unique and every mount of every container names a pod volume |
| Synthesis.LiveClaimMissesFilestorePvc | odoo-operator/python/operator.py:1189-1192 | the live pod's filestore volume never names the claim `create_filestore_pvc` makes |
| Synthesis.CorrectedLiveDeployment | odoo-operator/python/operator.py:1189-1192 | the corrected Deployment's first volume is the claim `odoo-filestore-<name>` |
| Synthesis.CorrectedClaimIsFilestorePvc | odoo-operator/python/operator.py:590 | the corrected pod mounts the created claim, differs from the live one in that volume only, and stays well formed |
| Synthesis.ServiceRoutesToDeployment | odoo-operator/python/operator.py:1305-1367 | the live Service selects the live pods and each target port is a named container port |
| Synthesis.TlsBlock | odoo-operator/python/operator.py:1377-1440 | TLS is present exactly when enabled, covers the hostname, and uses the given secret or `<name>-tls` |
| Synthesis.LiveIngress | odoo-operator/python/operator.py:1369-1452 | the Ingress is `<name>` with one rule for the spec's hostname, routed to the live Service |
| Synthesis.StatusUrl | odoo-operator/python/operator.py:108-116 | a URL exists exactly when the ingress is enabled with a hostname; it is `https://` with TLS, else `http://` |
| Synthesis.IngressEnabledByDefault | odoo-operator/python/operator.py:109 | without an ingress section the ingress is enabled with TLS, and there is no URL |
| Synthesis.RewriteIngress | odoo-operator/python/operator.py:1454-1504 | the rewrite is the reference rewrite, and it raises exactly when a hostname is set and the Ingress has no rule |
| Synthesis.UpdateIngressConverges | odoo-operator/python/operator.py:1454-1504 | rewriting a freshly built Ingress with its own spec gives it back, except that a disabled TLS becomes an empty list, as `update_ingress` writes it |
| Synthesis.UpdateIngressIdempotent | odoo-operator/python/operator.py:1454-1504 | rewriting the rewrite is the rewrite |
| Synthesis.RewriteDeployment | odoo-operator/python/operator.py:1261-1303 | the rewrite is the reference rewrite, and it raises exactly when the Deployment has no container |
| Synthesis.UpdateDeploymentConverges | odoo-operator/python/operator.py:1261-1303 | rewriting a freshly built Deployment with its own spec gives it back |
| Synthesis.UpdateDeploymentIdempotent | odoo-operator/python/operator.py:1261-1303 | rewriting the rewrite is the rewrite |
| EnvOverlay.ApplyOverlay | odoo-operator/python/operator.py:733-740 | the loop's result equals the step-by-step overlay function |
| EnvOverlay.OverlayStep | odoo-operator/python/operator.py:735-740 | one pass of the loop removes the first entry of that name and appends the new one |
| EnvOverlay.ReferenceStep | odoo-operator/python/operator.py:735-740 | one pass of the loop, applied to the reference result for the entries so far, gives the reference result with the next entry added |
| EnvOverlay.OverlayMatchesReference | odoo-operator/python/operator.py:733-740 | with unique base names the overlay is the base without overridden names, then the last entry of each custom name |
| EnvOverlay.OverlayUnique | odoo-operator/python/operator.py:733-740 | the overlaid environment holds each name once: the base's names and the custom ones |
| EnvOverlay.OverlayLastWins | odoo-operator/python/operator.py:733-740 | the last custom entry of a name is kept, and every entry of a custom name comes from the custom list |
| EnvOverlay.OverlayLayout | odoo-operator/python/operator.py:733-740 | base entries not overridden come first in their order, custom entries after |
| Cluster.Read | odoo-operator/python/operator.py:352-358 | a read finds the object exactly when it exists and its key has no fault |
| Cluster.Create | odoo-operator/python/operator.py:498-506 | a create succeeds exactly on a free, fault-free key and adds just that object; an existing one answers 409; a failure changes nothing |
| Cluster.Replace | odoo-operator/python/operator.py:526-541 | a replace succeeds exactly on an existing, fault-free key, sets just that object; a failure changes nothing |
| Cluster.Delete | odoo-operator/python/operator.py:202-209 | a delete succeeds exactly on an existing, fault-free key, removes just that object; a failure changes nothing |
| Cluster.DropNulls | odoo-operator/python/operator.py:363-373 | the stored status keeps exactly the non-null keys, with their values |
| Cluster.PatchStatus | odoo-operator/python/operator.py:341-375 | patching a status changes no object but the instance, adds and removes none, and keeps the faults |
| Cluster.PatchStatusEffect | odoo-operator/python/operator.py:360-373 | a patch sets every non-null key, drops every null one, keeps every other key and the uid |
| Cluster.PatchedStatusAbsorbs | odoo-operator/python/operator.py:363 | a second patch naming every key of the first overrides it |
| Cluster.PatchStatusIdempotent | odoo-operator/python/operator.py:341-375 | patching twice with the same patch is patching once |
| Cluster.PatchStatusAbsorbs | odoo-operator/python/operator.py:341-375 | a patch followed by one naming all its keys is just the second |
| Cluster.Store.ReadObject | odoo-operator/python/operator.py:352-358 | the store's read answers as the reference read |
| Cluster.Store.CreateObject | odoo-operator/python/operator.py:498-506 | the store changes as the reference create |
| Cluster.Store.ReplaceObject | odoo-operator/python/operator.py:526-541 | the store changes as the reference replace |
| Cluster.Store.DeleteObject | odoo-operator/python/operator.py:202-209 | the store changes as the reference delete |
| Cluster.Store.PatchInstanceStatus | odoo-operator/python/operator.py:341-375 | the store changes as the reference status patch |
| Applier.BuiltKey | odoo-operator/python/operator.py:441-639 | every helper's key is in the instance's namespace and never the instance itself |
| Applier.BuiltKeyMatches | odoo-operator/python/operator.py:441-639 | every object built has the kind of its key |
| Applier.CreateStep | odoo-operator/python/operator.py:498-506 | a create helper keeps every object, adds only its own key, and raises only API errors, leaving the cluster unchanged |
| Applier.CreateStepOutcome | odoo-operator/python/operator.py:631-639 | once the uid is read, an existing object is kept and a 409 on the create taken for success; a missing one is created with the instance's uid; any other fault of the create is raised |
| Applier.CreateStepTwice | odoo-operator/python/operator.py:1249-1259 | a second call of a create helper changes nothing and reports the same |
| Applier.CreateStepAfterPatch | odoo-operator/python/operator.py:441-639 | the create helpers neither read nor touch the status |
| Applier.CreateChain | odoo-operator/python/operator.py:90-105 | the helpers in order keep every object and add only their keys; the first failure stops them |
| Applier.BuiltKeys | odoo-operator/python/operator.py:90-111 | the keys of a plan are exactly the keys of its helpers |
| Applier.CreateChainTwice | odoo-operator/python/operator.py:90-111 | running the helpers again changes nothing and reports the same |
| Applier.CreateStepIdle | odoo-operator/python/operator.py:441-639 | a helper with nothing to do still has nothing to do after other objects appear |
| Applier.CreateChainAfterPatch | odoo-operator/python/operator.py:83-111 | status patches commute with the create helpers |
| Applier.CreateStepSucceeds | odoo-operator/python/operator.py:631-639 | a create helper that raises nothing read the instance, and its object exists unless its create met 409 |
| Applier.CreateStepUidFailure | odoo-operator/python/operator.py:606-639 | a failure of the uid read, ahead of the `try`, is raised with its status (409 included) and nothing is created |
| Applier.CreateChainSucceeds | odoo-operator/python/operator.py:90-111 | after a successful run every planned object exists unless its create met 409 |
| Applier.UpdateConfigMapStep | odoo-operator/python/operator.py:508-541 | the ConfigMap update keeps every instance object and the faults |
| Applier.UpdateDeploymentStep | odoo-operator/python/operator.py:1261-1303 | the Deployment update keeps every instance object and the faults |
| Applier.UpdateServiceStep | odoo-operator/python/operator.py:543-575 | the Service update keeps every instance object and the faults |
| Applier.UpdateIngressStep | odoo-operator/python/operator.py:1454-1504 | the Ingress update keeps every instance object and the faults |
| Applier.DeleteIngressStep | odoo-operator/python/operator.py:199-209 | the deletion succeeds exactly when there is no fault or the fault is 404, and removes only that Ingress |
| Applier.UpdateConfigMapKeepsOthers | odoo-operator/python/operator.py:508-541 | the ConfigMap update never removes or changes another object, and on success the ConfigMap exists |
| Applier.UpdateServiceKeepsServices | odoo-operator/python/operator.py:543-575 | the Service update never changes an object and can add only the Service `<name>` |
| Applier.UpdateServiceFindsNothing | odoo-operator/python/operator.py:548-575 | with the live Service present and no `odoo-<name>`, the update does nothing |
| Applier.UpdateDeploymentAfterCreate | odoo-operator/python/operator.py:1261-1303 | updating with the spec the Deployment was built from leaves the cluster as it is |
| Applier.ReadUid | odoo-operator/python/operator.py:1641-1648 | the uid is the instance's when the read succeeds, else the read's error |
| Applier.CreateOrSkip | odoo-operator/python/operator.py:631-639 | the store changes as the reference create step |
| Applier.UpdateConfigMap | odoo-operator/python/operator.py:508-541 | the store changes as the reference ConfigMap update |
| Applier.UpdateDeployment | odoo-operator/python/operator.py:1261-1303 | the store changes as the reference Deployment update |
| Applier.UpdateService | odoo-operator/python/operator.py:543-575 | the store changes as the reference Service update |
| Applier.UpdateIngress | odoo-operator/python/operator.py:1454-1504 | the store changes as the reference Ingress update |
| Applier.DeleteIngress | odoo-operator/python/operator.py:199-209 | the store changes as the reference Ingress deletion |
| Controller.CreatePlan | odoo-operator/python/operator.py:90-111 | the create handler always builds claim, ConfigMap, Deployment and Service, and the Ingress exactly when enabled |
| Controller.CreateRun | odoo-operator/python/operator.py:61-141 | the create handler keeps the cluster well keyed |
| Controller.CreateNeverCrashes | odoo-operator/python/operator.py:133-141 | for a typed spec, the create handler either returns or fails permanently |
| Controller.CreateRunIdempotent | odoo-operator/python/operator.py:61-141 | running the create handler again on what it left changes nothing and reports the same |
| Controller.CreateKeepsExisting | odoo-operator/python/operator.py:90-111 | objects that existed stay as they were; only planned keys are added |
| Controller.CreateSuccess | odoo-operator/python/operator.py:118-131 | a successful create leaves every planned object (or a 409) and the status Running, ready, with the message and a URL exactly when there is one |
| Controller.CreateFailure | odoo-operator/python/operator.py:133-141 | a failed create leaves the status Failed, not ready, with the error message |
| Controller.RunningStatus | odoo-operator/python/operator.py:119-124 | the Running patch leaves phase, ready, message and the URL (absent when None) |
| Controller.FailedStatus | odoo-operator/python/operator.py:136-140 | the create's failure patch leaves phase Failed, ready false and the message |
| Controller.ChainAppend | odoo-operator/python/operator.py:90-111 | running two lists of helpers in turn is running their concatenation |
| Controller.CreateBaseObjects | odoo-operator/python/operator.py:90-105 | the store changes as the four unconditional helpers would change it |
| Controller.CreateResources | odoo-operator/python/operator.py:90-111 | the store changes as the plan's helpers would change it |
| Controller.CreateHandler | odoo-operator/python/operator.py:61-141 | the store and the outcome are the reference create handler's |
| Controller.OldIngressEnabled | odoo-operator/python/operator.py:190 | a previous object without `ingress` reads as enabled; the read fails exactly on a non-dictionary |
| Controller.IngressUpdateStep | odoo-operator/python/operator.py:187-209 | the ingress branch keeps every instance object and the faults |
| Controller.UpdateResources | odoo-operator/python/operator.py:177-209 | the update's `try` keeps every instance object and the faults |
| Controller.UpdateRun | odoo-operator/python/operator.py:143-232 | the update handler keeps the cluster well keyed and the instance present |
| Controller.UpdateSuccess | odoo-operator/python/operator.py:211-223 | an update whose steps raise nothing answers success and leaves the status Running, ready, with the update message and a URL exactly when there is one |
| Controller.UpdateUidFailureFails | odoo-operator/python/operator.py:441-541 | with the ConfigMap missing, a failing instance read (409 included) makes the update a permanent failure reporting that status, and changes nothing |
| Controller.PatchKeepsKey | odoo-operator/python/operator.py:360-363 | a patch that does not name a key keeps it, unless it was null |
| Controller.UpdateFailureKeepsReady | odoo-operator/python/operator.py:225-232 | a failed update reports Failed and leaves `ready` as it was |
| Controller.FailedUpdateStatus | odoo-operator/python/operator.py:167-170 | the Updating patch then the failure patch keep `ready` |
| Controller.UpdateCrashLeavesUpdating | odoo-operator/python/operator.py:167-170 | an update that crashes leaves phase Updating and its message |
| Controller.DisablingKeepsLiveIngress | odoo-operator/python/operator.py:199-209 | disabling the ingress leaves the Ingress `<name>` in place, unchanged |
| Controller.DisablingCorrectedRemovesIngress | odoo-operator/python/operator.py:1369-1452 | deleting under the live name removes exactly that Ingress |
| Controller.ReenableThroughUpdate | odoo-operator/python/operator.py:189-193 | when the previous object has no `ingress` and no Ingress exists, re-enabling goes through the update path, which acts just as the create path |
| Controller.UpdateObjects | odoo-operator/python/operator.py:177-209 | the store changes as the reference update steps |
| Controller.UpdateHandler | odoo-operator/python/operator.py:143-232 | the store and the outcome are the reference update handler's |
| Controller.DeleteOutcome | odoo-operator/python/operator.py:234-339 | the delete handler leaves the server's reachability and admin password alone |
| Controller.DeleteAlwaysSucceeds | odoo-operator/python/operator.py:329-339 | the delete handler always returns success with its message |
| Controller.DeleteRemovesRoleAndDatabase | odoo-operator/python/operator.py:259-327 | with an administrable server and a role owning nothing else, deleting removes exactly the role and database |
| Controller.DeleteHandler | odoo-operator/python/operator.py:234-339 | the server and the outcome are the reference delete handler's |
| Database.AlphabetChar | odoo-operator/python/operator.py:1710-1720 | each of the 62 positions gives a letter or digit |
| Database.AlphabetIndex | odoo-operator/python/operator.py:1710-1720 | each letter or digit has a position that gives it back |
| Database.AlphabetCharInjective | odoo-operator/python/operator.py:1710-1720 | different positions give different characters |
| Database.GeneratePassword | odoo-operator/python/operator.py:1710-1720 | a generated password is 16 letters and digits |
| Database.EveryPasswordPossible | odoo-operator/python/operator.py:1710-1720 | every 16-character string of letters and digits can be drawn |
| Database.GeneratePasswordInjective | odoo-operator/python/operator.py:1710-1720 | different draws give different passwords |
| Database.ChosenPassword | odoo-operator/python/operator.py:1523-1525 | the password is the given one, else a generated one |
| Database.ReadAdminPassword | odoo-operator/python/operator.py:1536-1547 | the admin password comes from key `password` of Secret `postgres-admin` in the instance's namespace; a failed read or missing key is raised |
| Database.ConnectError | odoo-operator/python/operator.py:1550-1558 | the connection succeeds exactly when the server is reachable and the password is its admin password |
| Database.SetRolePassword | odoo-operator/python/operator.py:1561-1580 | after CREATE or ALTER USER the role holds the password |
| Database.SetDatabaseOwner | odoo-operator/python/operator.py:1583-1601 | after CREATE or ALTER DATABASE the database is owned by the role |
| Database.TerminateSessions | odoo-operator/python/operator.py:302-306 | after terminating backends the database has no session |
| Database.DropDatabase | odoo-operator/python/operator.py:308-312 | the drop succeeds exactly when the database has no session, and removes only it |
| Database.DropRole | odoo-operator/python/operator.py:318-322 | the drop succeeds exactly when the role owns no database, and removes only it |
| Database.CredentialsSecret | odoo-operator/python/operator.py:1617-1661 | the Secret is `odoo-db-credentials-<name>` with the encoded username and password, and `database` exactly when a name is given |
| Database.WriteCredentials | odoo-operator/python/operator.py:1617-1678 | the write adds only the Secret; skipping on 409 keeps the old one; when it takes effect the Secret records this user and password |
| Database.ProvisionWith | odoo-operator/python/operator.py:1506-1615 | provisioning adds at most the credentials Secret and keeps every other object |
| Database.ProvisionDatabase | odoo-operator/python/operator.py:1506-1615 | as written, provisioning keeps every existing object, the credentials Secret included |
| Database.ProvisionDatabaseCorrected | odoo-operator/python/operator.py:1667-1678 | with replacement on 409, provisioning adds at most the credentials Secret |
| Database.ProvisionEffect | odoo-operator/python/operator.py:1506-1615 | provisioning succeeds exactly when the server is administrable and the Secret written; it sets the role's password and the database's owner; otherwise the server is unchanged |
| Database.FirstProvisionMatches | odoo-operator/python/operator.py:1506-1615 | a first provisioning leaves the Secret and the role's password in agreement |
| Database.ReprovisionBreaksCredentials | odoo-operator/python/operator.py:1524-1525 | as written, provisioning again with a fresh password leaves the Secret holding the old one |
| Database.CorrectedProvisionMatches | odoo-operator/python/operator.py:1667-1678 | with replacement on 409, every successful provisioning leaves Secret and role in agreement |
| Database.Cleanup | odoo-operator/python/operator.py:259-327 | the cleanup leaves the server's reachability and admin password alone |
| Database.CleanupEffect | odoo-operator/python/operator.py:298-323 | with an administrable server the database is dropped; the role is dropped when it owns nothing else, and when it owns another database it is kept and an error reported |
| Database.CleanupBlocked | odoo-operator/python/operator.py:273-294 | when the admin cannot connect the cleanup changes nothing and reports an error |
| Database.CleanupUndoesProvision | odoo-operator/python/operator.py:259-327 | deleting a freshly provisioned instance leaves the server's roles and databases as before, less the instance's own |
| Database.PostgresServer.Connect | odoo-operator/python/operator.py:1550-1558 | the connection answers as the reference connection |
| Database.PostgresServer.RoleExists | odoo-operator/python/operator.py:316-317 | the query says whether the role exists |
| Database.PostgresServer.DatabaseExists | odoo-operator/python/operator.py:299-300 | the query says whether the database exists |
| Database.PostgresServer.CreateUser | odoo-operator/python/operator.py:1563-1570 | the server changes as the reference role update |
| Database.PostgresServer.AlterUserPassword | odoo-operator/python/operator.py:1571-1579 | the server changes as the reference role update |
| Database.PostgresServer.CreateDatabase | odoo-operator/python/operator.py:1583-1592 | the server changes as the reference owner update |
| Database.PostgresServer.AlterDatabaseOwner | odoo-operator/python/operator.py:1593-1601 | the server changes as the reference owner update |
| Database.PostgresServer.TerminateBackends | odoo-operator/python/operator.py:302-306 | the server changes as the reference termination |
| Database.PostgresServer.DropDatabaseIfExists | odoo-operator/python/operator.py:308-312 | the server and error are the reference drop's |
| Database.PostgresServer.DropRoleIfExists | odoo-operator/python/operator.py:318-322 | the server and error are the reference drop's |
| Database.ReadAdminSecret | odoo-operator/python/operator.py:1536-1547 | the read answers as the reference admin password read |
| Database.CreateCredentialsSecret | odoo-operator/python/operator.py:1617-1678 | the store changes as the reference Secret write |
| Database.SetUpRoleAndDatabase | odoo-operator/python/operator.py:1561-1601 | the server ends with the role's password set and the database owned by it |
| Database.CreateDatabaseUser | odoo-operator/python/operator.py:1506-1615 | the store and server change as the reference provisioning |
| Database.CleanupDatabase | odoo-operator/python/operator.py:259-327 | the server changes as the reference cleanup |
| Legacy.BaseEnvUnique | odoo-operator/python/operator.py:672-730 | the six base entries have distinct names |
| Legacy.LegacyEnvOverlaid | odoo-operator/python/operator.py:733-740 | the pod environment holds each name once and is the reference overlay of the custom entries |
| Legacy.DbNameNonEmpty | odoo-operator/python/operator.py:1680-1693 | a database name is never empty |
| Legacy.DatabaseEnvResolves | odoo-operator/python/operator.py:672-715 | every database entry reads a key the credentials Secret holds |
| Legacy.LegacyImage | odoo-operator/python/operator.py:651-652 | the image is the spec's whenever the key is set, else `odoo:<version>` |
| Legacy.LegacyDeploymentWellFormed | odoo-operator/python/operator.py:742-907 | every mount names a pod volume, the claim is the created filestore claim, the ConfigMap the created one, and the selector picks the pod |
| Legacy.BuildLegacyDeployment | odoo-operator/python/operator.py:672-907 | the built Deployment equals the reference Deployment |
| Legacy.LegacyCredentials | odoo-operator/python/operator.py:659-670 | the credentials step keeps every object and adds at most the Secret |
| Legacy.LegacyDeploymentStep | odoo-operator/python/operator.py:909-920 | the Deployment step adds at most `odoo-<name>`, and on success it exists or its create met 409 |
| Legacy.LegacyCreate | odoo-operator/python/operator.py:641-920 | the earlier `create_deployment` keeps every object and adds at most the Secret and the Deployment |
| Legacy.LegacyCredentialsOutcome | odoo-operator/python/operator.py:659-670 | when the credentials step raises nothing the Secret exists or met 409; a server that cannot be administered is untouched |
| Legacy.LegacyCreateOutcome | odoo-operator/python/operator.py:641-920 | when it raises nothing, the Secret and the Deployment exist or met 409; a server that cannot be administered is untouched |
| Legacy.LegacyEnvFindsCredentials | odoo-operator/python/operator.py:672-715 | after a first provisioning the database entries read the Secret just written |
| Legacy.ProvideCredentials | odoo-operator/python/operator.py:659-670 | the store and server change as the reference credentials step |
| Legacy.CreateLegacyDeployment | odoo-operator/python/operator.py:641-920 | the store and server change as the reference run |
| Legacy.CreateDeploymentObject | odoo-operator/python/operator.py:909-920 | the store changes as the reference Deployment step |
| Admission.ReMatch | odoo-operator/python/operator.py:1760-1763 | without `re` bound the call raises NameError before its subject is evaluated; with it, a string subject is matched |
| Admission.MemoryPatternAccepts | odoo-operator/python/operator.py:1760-1761 | `512Mi`, `1G` and `4Gi\n` match the memory pattern |
| Admission.MemoryPatternRejects | odoo-operator/python/operator.py:1760-1761 | `512`, `Mi` and `1.5Gi` do not match the memory pattern |
| Admission.CpuPatternExamples | odoo-operator/python/operator.py:1762-1763 | `500m` and `2` match the CPU pattern; `0.5` and `m` do not |
| Admission.MemoryQuantityForm | odoo-operator/python/operator.py:1760 | a string is a whole memory quantity exactly when it is ASCII digits, one unit letter of `KMGTPEkmgtpe` and an optional `i` |
| Admission.CpuQuantityForm | odoo-operator/python/operator.py:1762 | a string is a whole CPU quantity exactly when it is ASCII digits and an optional `m` |
| Admission.ValidateAcceptsAdmissible | odoo-operator/python/operator.py:1736-1765 | with `re` imported, a well-shaped instance is accepted exactly when it names a version, a non-empty image, at least one replica and well-formed limits |
| Admission.ValidateReportsFirstFailure | odoo-operator/python/operator.py:1736-1754 | the version, image and replica rules are checked in order and the first broken one is reported |
| Admission.ValidateLimitOrder | odoo-operator/python/operator.py:1756-1763 | a malformed memory limit is reported before a malformed cpu limit |
| Admission.AsWrittenRaisesOnLimits | odoo-operator/python/operator.py:1756-1763 | as written, any memory or cpu limit makes the check raise NameError |
| Admission.AsWrittenAgreesWithoutLimits | odoo-operator/python/operator.py:1756-1763 | without those limits, the check as written agrees with the corrected one |
| Admission.ValidateScenarios | odoo-operator/python/operator.py:1736-1765 | `{}` is refused for its version, zero replicas are refused, a bare version is accepted |
| Admission.SetDefault | odoo-operator/python/operator.py:1783-1803 | on a dictionary, a missing key gets the default and a present one is kept |
| Admission.FillIngressAndResourcesEffect | odoo-operator/python/operator.py:1789-1803 | the ingress and resources defaults succeed exactly when the ingress takes TLS, and give the defaulted spec |
| Admission.WithReplicasAndIngress | odoo-operator/python/operator.py:1783-1787 | after the first two defaults the spec has `replicas` and `ingress` |
| Admission.FillSpecUnfolds | odoo-operator/python/operator.py:1780-1789 | the spec defaults write back the spec with `replicas` and `ingress`, then go on to the ingress |
| Admission.WithReplicasAndIngressDefaults | odoo-operator/python/operator.py:1783-1803 | the first two defaults change neither feasibility nor the final defaulted spec |
| Admission.FillSpecEffect | odoo-operator/python/operator.py:1780-1803 | the spec defaults succeed exactly when the ingress, if any, takes TLS, and leave the defaulted spec |
| Admission.FillDefaultsEffect | odoo-operator/python/operator.py:1767-1805 | the mutation succeeds exactly on a dictionary whose spec is a dictionary whose ingress takes TLS, and leaves the defaulted object |
| Admission.DefaultedSpecContents | odoo-operator/python/operator.py:1783-1803 | the defaulted spec keeps every key and value, adds one replica, `ingress.tls` true and the resources block where missing |
| Admission.FillDefaultsIdempotent | odoo-operator/python/operator.py:1767-1805 | mutating a mutated object changes nothing more |
| Admission.MutateScenario | odoo-operator/python/operator.py:1767-1805 | an instance whose spec holds only a version is defaulted to one replica, TLS on and the resources block, the rest of the instance kept |
| Admission.DefaultedInstanceFailsAsWritten | odoo-operator/python/operator.py:1756-1803 | were the defaults applied, as-written validation would raise on every instance that left its resources unset |
| Admission.Document.Mutate | odoo-operator/python/operator.py:1767-1805 | the mutation edits the object in place, returns that same object, and leaves the reference mutation's result |
| Admission.Document.FillSpecDefaults | odoo-operator/python/operator.py:1780-1803 | the object changes as the reference spec defaults |
| Admission.Document.FillIngress | odoo-operator/python/operator.py:1789-1803 | the object changes as the reference ingress and resources defaults |
| Admission.Diff | odoo-operator/python/operator.py:1909-1919 | the patch is empty exactly when the two documents are equal |
| Admission.DiffApplies | odoo-operator/python/operator.py:1909 | applying the patch from one document to another gives the second |
| Admission.ValidateReplyWith | odoo-operator/python/operator.py:1807-1874 | an allowing answer is always HTTP 200 |
| Admission.ValidateReplyMeaning | odoo-operator/python/operator.py:1807-1874 | for every body: an empty one gets 400; 500 exactly when `request` or `uid` cannot be read; otherwise 200 with the request's uid, allowed exactly when the check accepts, and a denial carries the check's reason or `Error validating OdooInstance: ` and the exception's text |
| Admission.LimitedRequestDenied | odoo-operator/python/operator.py:1863-1874 | as written, a request for an instance with any memory limit, `512Mi` included, is refused with the NameError message |
| Admission.LimitedInstanceAccepted | odoo-operator/python/operator.py:1726-1765 | with `re` imported, an instance whose memory limit matches the pattern passes |
| Admission.LimitedRequestAdmitted | odoo-operator/python/operator.py:1836-1845 | with `re` imported, the request for such an instance is allowed |
| Admission.MutateReplyWith | odoo-operator/python/operator.py:1876-1947 | an allowing answer is HTTP 200 and carries a patch |
| Admission.MutatePatchAlwaysEmpty | odoo-operator/python/operator.py:1902-1909 | as written, every allowed mutation answers with an empty patch |
| Admission.MutatePatchApplies | odoo-operator/python/operator.py:1902-1909 | diffing against a copy, the patch turns the submitted object into the defaulted one, and is empty only when nothing was missing |
| Admission.ValidateWebhook | odoo-operator/python/operator.py:1807-1874 | the endpoint answers as the reference answer |
| Admission.MutateWebhook | odoo-operator/python/operator.py:1876-1947 | the endpoint answers as the reference answer |

## Left out

- The kopf framework itself is not modelled: retries, finalizers and event
  queues. A handler's outcome is a value (returned, permanent failure or
  crashed).
- The Kubernetes client is a map of objects with per-key status codes.
  - Owner-reference garbage collection is not modelled.
  - Server-side defaulting is not modelled.
  - Strategic-merge patches are taken as whole-object replacement.
  - The text of an `ApiException` is its status in parentheses only.
- psycopg2 and SQL are modelled by their effect on roles, databases and
  sessions.
  - Quoting with `sql.Identifier` and `sql.Literal` is not modelled.
  - The `ImportError` path when psycopg2 is missing is not modelled.
  - Open sessions are a set of database names.
- base64 is kept symbolic: `Base64Of` wraps the plain text.
- `random.choice` is modelled by its draws, passed as a parameter.
- Logging, the Flask server, SSL, threads and the `__main__` block are not
  modelled. A body that is not JSON is not modelled either.
- The environment-variable settings are taken at their defaults.
  `DB_ADMIN_PASSWORD_SECRET_NAMESPACE` is empty, so the instance's namespace
  is used.
- `spec['adminSecret']` is read by the earlier `create_deployment` but is not
  a field of `types.py`. It is a parameter of the Legacy functions.
- The operator-side spec is the typed `OdooInstanceSpec`, with an absent
  optional field as `None`. JSON nulls and wrongly typed values reach only
  the admission functions, which work on raw JSON.
- `create_database_pvc` (operator.py:377) is never called and is not modelled.
- The shadowed `create_service` and `create_ingress` (operator.py:922, 991)
  are not modelled. Python binds the later definitions, so these two are dead
  code.
- Admission.ReMatch: the two patterns are modelled as predicates, not as a
  general regular-expression engine.
  - `\d` is taken as ASCII digits only, whereas Python's `re` also accepts
    other Unicode digits.
- Admission.Diff: `jsonpatch.make_patch` is modelled as one whole-document
  replacement at path `""`, not per-key operations.
  - This is the same transformation, and the patch is empty exactly when
    jsonpatch's is.
  - The base64 text of the patch is not modelled.
- Admission.ValidateAcceptsAdmissible: the if-and-only-if is stated for
  instances whose resources and limits are dictionaries. For other shapes,
  `in` on strings and lists is modelled in `Json.Contains`. Those shapes can
  be accepted or raise, and the lemma leaves them out.
- Json.PyInt: floats are exact reals here, not IEEE doubles, so rounding at
  parse time is not modelled.
  - For example, `replicas: 0.99999999999999999` is read by Python as the
    double 1.0, and `int()` gives 1; `TruncateToInt` gives 0.
  - `int()` of a string accepts ASCII digits, one sign, `_` between digits and
    surrounding whitespace; Unicode digits are left out.
- Types.ParseSpecFields: pydantic's lax coercions are not modelled; a field
  parses only from a value of its own JSON type.
  - In lax mode pydantic turns `"2"` and `2.0` into the int 2, and `"true"`,
    `"yes"` and `1` into the bool True; the model refuses them.
  - The source does not pin a pydantic version, and versions 1 and 2 coerce
    differently (version 1 also turns `2.5` into 2, version 2 refuses it).
  - The round trips and defaults stated for `Types` do not depend on this.

## Findings

| source | as written | input that shows it | evidently intended | confidence | as-written member | corrected member |
|---|---|---|---|---|---|---|
| odoo-operator/python/operator.py:1760-1763 | `re.match` is called, but `re` is never imported | an instance with `spec: {version: "17.0", resources: {limits: {memory: "512Mi"}}}` | well-formed limits pass, and malformed ones are refused with their message | high, not executed | Admission.LimitedRequestDenied | Admission.ValidateAcceptsAdmissible |
| odoo-operator/python/operator.py:1902-1909 | `mutate_odoo_instance` edits `instance` in place and returns it, so the patch compares an object with itself | a request whose object is `{spec: {version: "17.0"}}` | the answer's patch adds `replicas`, `ingress.tls` and `resources` | high, not executed | Admission.MutatePatchAlwaysEmpty | Admission.MutatePatchApplies |
| odoo-operator/python/operator.py:1667-1670 | when the credentials Secret exists, the 409 is skipped, while `create_database_user` has already set a fresh password on the role; `create_database_user` is called only from the shadowed `create_deployment` (operator.py:641, 662), so the live operator never reaches it and the bug is latent | provisioning the same instance twice with no given password | the Secret records the password the role now has | medium, not executed | Database.ReprovisionBreaksCredentials | Database.CorrectedProvisionMatches |
| odoo-operator/python/operator.py:199-205 | disabling the ingress deletes `odoo-<name>`, but the live `create_ingress` names it `<name>` | an instance created with the ingress enabled, then updated with `ingress.enabled: false` | the Ingress that create made is deleted | high, not executed | Controller.DisablingKeepsLiveIngress | Controller.DisablingCorrectedRemovesIngress |
| odoo-operator/python/operator.py:1189-1192 | the live Deployment mounts claim `<name>-filestore`, while `create_filestore_pvc` makes `odoo-filestore-<name>` | any instance, e.g. `shop`: the pod wants `shop-filestore`, the cluster has `odoo-filestore-shop` | the pod mounts the claim the handler created | high, not executed | Synthesis.LiveClaimMissesFilestorePvc | Synthesis.CorrectedClaimIsFilestorePvc |

The handlers use the code as written. Each corrected definition stands
beside its as-written one, and the intended property is proved about it:

- `Admission.Validate`, with `re` imported.
- `MutateReplyWith(body, Snapshot)`, which diffs against a copy.
- `Database.ProvisionDatabaseCorrected`, which replaces the Secret.
- Deleting the Ingress under `WorkloadName`.
- `Synthesis.CorrectedLiveDeployment`.
