/** The PostgreSQL side of an instance: the role and database
    `create_database_user` provisions, the credentials Secret it mirrors them
    into, and the cleanup the delete handler runs. The server is an abstract
    state: roles with their passwords, databases with their owners, and the
    databases that have open sessions. */
module Database {
  import opened Common
  import opened Naming
  import opened Resources
  import opened Synthesis
  import opened Cluster

  /** Connection settings read from the environment, at their defaults. */
  const DbHost: string := "postgres"
  const DbPort: string := "5432"
  const AdminSecretName: string := "postgres-admin"
  const AdminSecretKey: string := "password"

  /* ---------------- Generated passwords ---------------- */

  const AlphabetSize: nat := 62
  const PasswordLength: nat := 16

  predicate IsAlphanumeric(c: char) {
    'a' <= c <= 'z' || 'A' <= c <= 'Z' || '0' <= c <= '9'
  }

  /** Position `d` of `string.ascii_letters + string.digits`: lower-case
      letters, then upper-case letters, then digits. */
  function AlphabetChar(d: nat): (c: char)
    requires d < AlphabetSize
    ensures IsAlphanumeric(c)
  {
    if d < 26 then ('a' as int + d) as char
    else if d < 52 then ('A' as int + (d - 26)) as char
    else ('0' as int + (d - 52)) as char
  }

  /** The position of a letter or digit in the alphabet. */
  function AlphabetIndex(c: char): (d: nat)
    requires IsAlphanumeric(c)
    ensures d < AlphabetSize && AlphabetChar(d) == c
  {
    if 'a' <= c <= 'z' then c as int - 'a' as int
    else if 'A' <= c <= 'Z' then c as int - 'A' as int + 26
    else c as int - '0' as int + 52
  }

  lemma AlphabetCharInjective(d1: nat, d2: nat)
    requires d1 < AlphabetSize && d2 < AlphabetSize
    requires AlphabetChar(d1) == AlphabetChar(d2)
    ensures d1 == d2
  {
  }

  /** The sixteen `random.choice` draws of `generate_db_password`. */
  predicate ValidDraws(draws: seq<nat>) {
    |draws| == PasswordLength && forall i :: 0 <= i < |draws| ==> draws[i] < AlphabetSize
  }

  predicate IsGeneratedPassword(p: string) {
    |p| == PasswordLength && forall i :: 0 <= i < |p| ==> IsAlphanumeric(p[i])
  }

  /** `generate_db_password`, with its random draws as a parameter. */
  function GeneratePassword(draws: seq<nat>): (p: string)
    requires ValidDraws(draws)
    ensures IsGeneratedPassword(p)
  {
    seq(PasswordLength, i requires 0 <= i < PasswordLength => AlphabetChar(draws[i]))
  }

  /** Every sixteen-character string of letters and digits can be drawn. */
  lemma EveryPasswordPossible(p: string)
    requires IsGeneratedPassword(p)
    ensures exists draws :: ValidDraws(draws) && GeneratePassword(draws) == p
  {
    var draws := seq(PasswordLength, i requires 0 <= i < PasswordLength => AlphabetIndex(p[i]));
    assert GeneratePassword(draws) == p;
  }

  /** Different draws give different passwords. */
  lemma GeneratePasswordInjective(draws1: seq<nat>, draws2: seq<nat>)
    requires ValidDraws(draws1) && ValidDraws(draws2)
    requires GeneratePassword(draws1) == GeneratePassword(draws2)
    ensures draws1 == draws2
  {
    forall i | 0 <= i < PasswordLength
      ensures draws1[i] == draws2[i]
    {
      assert GeneratePassword(draws1)[i] == GeneratePassword(draws2)[i];
      AlphabetCharInjective(draws1[i], draws2[i]);
    }
  }

  /** The password `create_database_user` uses: the one given, else a generated one. */
  function ChosenPassword(dbPassword: Option<string>, draws: seq<nat>): (p: string)
    requires ValidDraws(draws)
    ensures dbPassword.Some? ==> p == dbPassword.value
    ensures dbPassword.None? ==> IsGeneratedPassword(p)
  {
    match dbPassword
    case Some(given) => given
    case None => GeneratePassword(draws)
  }

  /* ---------------- The server ---------------- */

  datatype Server = Server(
    roles: map<string, string>,
    databases: map<string, string>,
    sessions: set<string>,
    reachable: bool,
    adminPassword: string)

  /** A value computed, or what was raised instead. */
  datatype Attempt<T> = Done(value: T) | Threw(raised: Raised)

  /** A run of SQL statements: the server it leaves and the error that stopped it, if any. */
  datatype SqlRun = SqlRun(server: Server, error: Option<Raised>)

  /** The admin password: Secret `postgres-admin` in the instance's namespace,
      key `password`. A failed read is raised again; a missing key is a KeyError. */
  function ReadAdminPassword(c: Cluster, namespace: string): (r: Attempt<string>)
    requires WellKeyed(c)
    ensures var k := Key(SecretKind, namespace, AdminSecretName);
      && (r.Done? <==> k in c.objects && k !in c.faults && AdminSecretKey in c.objects[k].secret.data)
      && (r.Done? ==> r.value == c.objects[k].secret.data[AdminSecretKey].text)
  {
    var read := Read(c, Key(SecretKind, namespace, AdminSecretName));
    if read.ReadFailed? then Threw(read.raised)
    else if AdminSecretKey in read.obj.secret.data then Done(read.obj.secret.data[AdminSecretKey].text)
    else Threw(PythonError(PyError("KeyError", "'" + AdminSecretKey + "'")))
  }

  /** `psycopg2.connect` as the admin user: None when it succeeds. */
  function ConnectError(s: Server, password: string): (e: Option<PyError>)
    ensures e.None? <==> s.reachable && password == s.adminPassword
  {
    if !s.reachable then Some(PyError("OperationalError", "could not connect to server"))
    else if password != s.adminPassword then Some(PyError("OperationalError", "password authentication failed for user \"postgres\""))
    else None
  }

  /** `CREATE USER ... WITH PASSWORD` when the role is missing, `ALTER USER ... WITH PASSWORD` when present. */
  function SetRolePassword(s: Server, role: string, password: string): (r: Server)
    ensures role in r.roles && r.roles[role] == password
  {
    s.(roles := s.roles[role := password])
  }

  /** `CREATE DATABASE ... OWNER` when the database is missing, `ALTER DATABASE ... OWNER TO` when present. */
  function SetDatabaseOwner(s: Server, database: string, owner: string): (r: Server)
    ensures database in r.databases && r.databases[database] == owner
  {
    s.(databases := s.databases[database := owner])
  }

  /** `pg_terminate_backend` on every session of the database. */
  function TerminateSessions(s: Server, database: string): (r: Server)
    ensures database !in r.sessions
  {
    s.(sessions := s.sessions - {database})
  }

  /** `DROP DATABASE IF EXISTS`: refused while the database has sessions. */
  function DropDatabase(s: Server, database: string): (r: SqlRun)
    ensures r.error.None? <==> database !in s.sessions
    ensures r.error.None? ==> r.server.databases == s.databases - {database}
    ensures r.error.Some? ==> r.server == s
  {
    if database in s.sessions then SqlRun(s, Some(PythonError(PyError("ObjectInUse", "database is being accessed by other users"))))
    else SqlRun(s.(databases := s.databases - {database}), None)
  }

  /** `DROP ROLE IF EXISTS`: refused while the role owns a database. */
  function DropRole(s: Server, role: string): (r: SqlRun)
    ensures r.error.None? <==> role !in s.databases.Values
    ensures r.error.None? ==> r.server.roles == s.roles - {role}
    ensures r.error.Some? ==> r.server == s
  {
    if role in s.databases.Values then
      SqlRun(s, Some(PythonError(PyError("DependentObjectsStillExist", "role cannot be dropped because some objects depend on it"))))
    else SqlRun(s.(roles := s.roles - {role}), None)
  }

  /* ---------------- Provisioning ---------------- */

  datatype Credentials = Credentials(user: string, password: string, database: string)

  /** The cluster and server a provisioning leaves, and what it returned or raised. */
  datatype Provisioning = Provisioning(cluster: Cluster, server: Server, result: Attempt<Credentials>)

  function CredentialsKey(name: string, namespace: string): Key {
    Key(SecretKind, namespace, CredentialsSecretName(name))
  }

  /** The Secret `create_db_credentials_secret` builds; `database` only when the name is non-empty. */
  function CredentialsSecret(name: string, namespace: string, user: string, password: string, database: string, uid: string): (s: Secret)
    ensures s.meta.name == CredentialsSecretName(name) && s.meta.labels == ObjectLabels(name)
    ensures "username" in s.data && s.data["username"] == Base64Of(user)
    ensures "password" in s.data && s.data["password"] == Base64Of(password)
    ensures "database" in s.data <==> database != ""
  {
    var data := map["host" := Base64Of(DbHost), "port" := Base64Of(DbPort),
                    "username" := Base64Of(user), "password" := Base64Of(password)];
    Secret(Meta(name, namespace, CredentialsSecretName(name), ObjectLabels(name), uid),
           if database != "" then data["database" := Base64Of(database)] else data)
  }

  /** The credentials Secret is stored and records this user and password. */
  predicate CredentialsStored(c: Cluster, name: string, namespace: string, user: string, password: string) {
    var k := CredentialsKey(name, namespace);
    && k in c.objects && c.objects[k].SecretObject?
    && var data := c.objects[k].secret.data;
    && "username" in data && data["username"] == Base64Of(user)
    && "password" in data && data["password"] == Base64Of(password)
  }

  /** What a write of the credentials Secret does when it already exists. */
  datatype SecretWrite = SkipExisting | ReplaceExisting

  /** `create_db_credentials_secret`: the uid is read before the `try`, so every
      failure of that read is raised; a 409 on the create is then either taken
      for "already exists" (as written) or answered by replacing the Secret. */
  function WriteCredentials(c: Cluster, name: string, namespace: string, user: string, password: string,
                            database: string, write: SecretWrite): (r: Step)
    requires WellKeyed(c)
    ensures WellKeyed(r.cluster) && r.cluster.faults == c.faults
    ensures r.raised.Some? ==> r.cluster == c
    ensures AddsOnly(c, r.cluster, {CredentialsKey(name, namespace)})
    ensures forall k :: k in c.objects && k != CredentialsKey(name, namespace) ==> k in r.cluster.objects && r.cluster.objects[k] == c.objects[k]
    ensures write == SkipExisting ==> Keeps(c, r.cluster)
    ensures var k := CredentialsKey(name, namespace);
      r.raised.None? && (write == ReplaceExisting || (k !in c.objects && k !in c.faults)) ==>
      CredentialsStored(r.cluster, name, namespace, user, password)
  {
    var uid := Read(c, InstanceKey(namespace, name));
    if uid.ReadFailed? then Step(c, Some(uid.raised))
    else
      var k := CredentialsKey(name, namespace);
      var obj := SecretObject(CredentialsSecret(name, namespace, user, password, database, uid.obj.instance.uid));
      var s := Create(c, k, obj);
      if s.raised != Some(ApiException(Conflict)) then s
      else if write == SkipExisting then Step(s.cluster, None)
      else Replace(c, k, obj)
  }

  /** The server part of `create_database_user`: read the admin password,
      connect, set the role's password, then give the database to the role. */
  function ProvisionServer(c: Cluster, s: Server, namespace: string, user: string, password: string, database: string): (r: SqlRun)
    requires WellKeyed(c)
  {
    var admin := ReadAdminPassword(c, namespace);
    if admin.Threw? then SqlRun(s, Some(admin.raised))
    else
      var e := ConnectError(s, admin.value);
      if e.Some? then SqlRun(s, Some(PythonError(e.value)))
      else SqlRun(SetDatabaseOwner(SetRolePassword(s, user, password), database, user), None)
  }

  /** `create_database_user`, with the given Secret write; every failure is raised again. */
  function ProvisionWith(c: Cluster, s: Server, name: string, namespace: string, dbPassword: Option<string>,
                         draws: seq<nat>, write: SecretWrite): (r: Provisioning)
    requires WellKeyed(c) && ValidDraws(draws)
    ensures WellKeyed(r.cluster) && r.cluster.faults == c.faults
    ensures AddsOnly(c, r.cluster, {CredentialsKey(name, namespace)})
    ensures forall k :: k in c.objects && k != CredentialsKey(name, namespace) ==> k in r.cluster.objects && r.cluster.objects[k] == c.objects[k]
    ensures write == SkipExisting ==> Keeps(c, r.cluster)
  {
    var database := DbName(name, namespace);
    var user := DbUsername(name, namespace);
    var password := ChosenPassword(dbPassword, draws);
    var run := ProvisionServer(c, s, namespace, user, password, database);
    if run.error.Some? then Provisioning(c, run.server, Threw(run.error.value))
    else
      var step := WriteCredentials(c, name, namespace, user, password, database, write);
      if step.raised.Some? then Provisioning(step.cluster, run.server, Threw(step.raised.value))
      else Provisioning(step.cluster, run.server, Done(Credentials(user, password, database)))
  }

  /** `create_database_user` as written: an existing credentials Secret is left as it is. */
  function ProvisionDatabase(c: Cluster, s: Server, name: string, namespace: string, dbPassword: Option<string>,
                             draws: seq<nat>): (r: Provisioning)
    requires WellKeyed(c) && ValidDraws(draws)
    ensures WellKeyed(r.cluster) && r.cluster.faults == c.faults && Keeps(c, r.cluster)
    ensures AddsOnly(c, r.cluster, {CredentialsKey(name, namespace)})
  {
    ProvisionWith(c, s, name, namespace, dbPassword, draws, SkipExisting)
  }

  /** `create_database_user` with the Secret brought up to date when it already exists. */
  function ProvisionDatabaseCorrected(c: Cluster, s: Server, name: string, namespace: string, dbPassword: Option<string>,
                                      draws: seq<nat>): (r: Provisioning)
    requires WellKeyed(c) && ValidDraws(draws)
    ensures WellKeyed(r.cluster) && r.cluster.faults == c.faults
    ensures AddsOnly(c, r.cluster, {CredentialsKey(name, namespace)})
  {
    ProvisionWith(c, s, name, namespace, dbPassword, draws, ReplaceExisting)
  }

  /** The server can be administered: the admin Secret is readable and its password accepted. */
  predicate Administrable(c: Cluster, s: Server, namespace: string)
    requires WellKeyed(c)
  {
    var admin := ReadAdminPassword(c, namespace);
    admin.Done? && ConnectError(s, admin.value).None?
  }

  /** Provisioning succeeds exactly when the server can be administered and the
      Secret write raises nothing; it then leaves the role with the chosen
      password and the database owned by the role, and alters no other role
      or database. A run that cannot administer the server changes nothing. */
  lemma ProvisionEffect(c: Cluster, s: Server, name: string, namespace: string, dbPassword: Option<string>,
                        draws: seq<nat>, write: SecretWrite)
    requires WellKeyed(c) && ValidDraws(draws)
    ensures var r := ProvisionWith(c, s, name, namespace, dbPassword, draws, write);
      var user := DbUsername(name, namespace);
      var database := DbName(name, namespace);
      var password := ChosenPassword(dbPassword, draws);
      && (r.result.Done? <==>
            Administrable(c, s, namespace)
            && WriteCredentials(c, name, namespace, user, password, database, write).raised.None?)
      && (r.result.Done? ==> r.result.value == Credentials(user, password, database))
      && (Administrable(c, s, namespace) ==>
            && r.server.roles == s.roles[user := password]
            && r.server.databases == s.databases[database := user]
            && r.server.sessions == s.sessions)
      && (!Administrable(c, s, namespace) ==> r.cluster == c && r.server == s && r.result.Threw?)
  {
  }

  /** The credentials Secret names a role that holds the password it records. */
  predicate CredentialsMatch(c: Cluster, s: Server, name: string, namespace: string) {
    var k := CredentialsKey(name, namespace);
    && k in c.objects && c.objects[k].SecretObject?
    && var data := c.objects[k].secret.data;
    && "username" in data && "password" in data
    && data["username"].text in s.roles
    && s.roles[data["username"].text] == data["password"].text
  }

  /** A first provisioning leaves the Secret and the role in agreement. */
  lemma FirstProvisionMatches(c: Cluster, s: Server, name: string, namespace: string, dbPassword: Option<string>, draws: seq<nat>)
    requires WellKeyed(c) && ValidDraws(draws)
    requires CredentialsKey(name, namespace) !in c.objects && CredentialsKey(name, namespace) !in c.faults
    ensures var r := ProvisionDatabase(c, s, name, namespace, dbPassword, draws);
      r.result.Done? ==> CredentialsMatch(r.cluster, r.server, name, namespace)
  {
  }

  /** As written, provisioning an instance again with a new password changes
      the role's password but keeps the Secret holding the old one, so the
      Secret no longer opens the database. */
  lemma ReprovisionBreaksCredentials(c: Cluster, s: Server, name: string, namespace: string,
                                     draws1: seq<nat>, draws2: seq<nat>)
    requires WellKeyed(c) && ValidDraws(draws1) && ValidDraws(draws2)
    requires CredentialsKey(name, namespace) !in c.objects && CredentialsKey(name, namespace) !in c.faults
    requires draws1 != draws2
    ensures var first := ProvisionDatabase(c, s, name, namespace, None, draws1);
      var second := ProvisionDatabase(first.cluster, first.server, name, namespace, None, draws2);
      first.result.Done? && second.result.Done? ==>
        && CredentialsMatch(first.cluster, first.server, name, namespace)
        && !CredentialsMatch(second.cluster, second.server, name, namespace)
  {
    var first := ProvisionDatabase(c, s, name, namespace, None, draws1);
    var second := ProvisionDatabase(first.cluster, first.server, name, namespace, None, draws2);
    if first.result.Done? && second.result.Done? {
      FirstProvisionMatches(c, s, name, namespace, None, draws1);
      var k := CredentialsKey(name, namespace);
      var user := DbUsername(name, namespace);
      ProvisionEffect(c, s, name, namespace, None, draws1, SkipExisting);
      ProvisionEffect(first.cluster, first.server, name, namespace, None, draws2, SkipExisting);
      var data := first.cluster.objects[k].secret.data;
      assert data["username"].text == user && data["password"].text == GeneratePassword(draws1);
      assert second.cluster.objects[k] == first.cluster.objects[k];
      assert second.server.roles[user] == GeneratePassword(draws2);
      if GeneratePassword(draws1) == GeneratePassword(draws2) {
        GeneratePasswordInjective(draws1, draws2);
      }
    }
  }

  /** With the Secret replaced on 409, every successful provisioning leaves
      the Secret and the role in agreement. */
  lemma CorrectedProvisionMatches(c: Cluster, s: Server, name: string, namespace: string, dbPassword: Option<string>, draws: seq<nat>)
    requires WellKeyed(c) && ValidDraws(draws)
    ensures var r := ProvisionDatabaseCorrected(c, s, name, namespace, dbPassword, draws);
      r.result.Done? ==> CredentialsMatch(r.cluster, r.server, name, namespace)
  {
  }

  /* ---------------- Cleanup on delete ---------------- */

  /** The database part of `delete_odoo_instance`: read the admin password,
      connect, end the database's sessions and drop it when it exists, then
      drop the role when it exists. The first failure stops the run; what was
      already dropped stays dropped. */
  function Cleanup(c: Cluster, s: Server, name: string, namespace: string): (r: SqlRun)
    requires WellKeyed(c)
    ensures r.server.reachable == s.reachable && r.server.adminPassword == s.adminPassword
  {
    var database := DbName(name, namespace);
    var user := DbUsername(name, namespace);
    var admin := ReadAdminPassword(c, namespace);
    if admin.Threw? then SqlRun(s, Some(admin.raised))
    else
      var e := ConnectError(s, admin.value);
      if e.Some? then SqlRun(s, Some(PythonError(e.value)))
      else
        var dropped := if database in s.databases then DropDatabase(TerminateSessions(s, database), database) else SqlRun(s, None);
        if dropped.error.Some? then dropped
        else if user in dropped.server.roles then DropRole(dropped.server, user)
        else dropped
  }

  /** The role owns no database other than the instance's own. */
  predicate OwnsOnlyItsDatabase(s: Server, name: string, namespace: string) {
    forall d :: d in s.databases && d != DbName(name, namespace) ==> s.databases[d] != DbUsername(name, namespace)
  }

  /** When the server can be administered and the role owns nothing else, the
      cleanup removes the role and the database and nothing more; when the
      role still owns another database, the database is dropped, the role is
      kept, and an error is raised. */
  lemma CleanupEffect(c: Cluster, s: Server, name: string, namespace: string)
    requires WellKeyed(c)
    requires Administrable(c, s, namespace)
    ensures var r := Cleanup(c, s, name, namespace);
      var user := DbUsername(name, namespace);
      var database := DbName(name, namespace);
      && r.server.databases == s.databases - {database}
      && (OwnsOnlyItsDatabase(s, name, namespace) ==> r.error.None? && r.server.roles == s.roles - {user})
      && (!OwnsOnlyItsDatabase(s, name, namespace) && user in s.roles ==> r.error.Some? && r.server.roles == s.roles)
  {
    var user := DbUsername(name, namespace);
    var database := DbName(name, namespace);
    var dropped := if database in s.databases then DropDatabase(TerminateSessions(s, database), database) else SqlRun(s, None);
    assert dropped.error.None? && dropped.server.databases == s.databases - {database};
    assert dropped.server.roles == s.roles;
    if OwnsOnlyItsDatabase(s, name, namespace) {
      assert user !in dropped.server.databases.Values;
    } else {
      var d :| d in s.databases && d != database && s.databases[d] == user;
      assert d in dropped.server.databases;
      assert user in dropped.server.databases.Values;
    }
  }

  /** When the admin Secret cannot be read or the server refuses the admin, the cleanup changes nothing. */
  lemma CleanupBlocked(c: Cluster, s: Server, name: string, namespace: string)
    requires WellKeyed(c)
    requires !Administrable(c, s, namespace)
    ensures Cleanup(c, s, name, namespace) == SqlRun(s, Cleanup(c, s, name, namespace).error)
    ensures Cleanup(c, s, name, namespace).error.Some?
  {
  }

  /** Removing a key just written leaves the map as it was without that key. */
  lemma RemoveAfterWrite(m: map<string, string>, k: string, v: string)
    ensures m[k := v] - {k} == m - {k}
  {
  }

  /** Deleting a freshly provisioned instance gives back the server's roles
      and databases as they were, less the instance's own. */
  lemma CleanupUndoesProvision(c: Cluster, s: Server, name: string, namespace: string, dbPassword: Option<string>, draws: seq<nat>)
    requires WellKeyed(c) && ValidDraws(draws)
    requires OwnsOnlyItsDatabase(s, name, namespace)
    ensures var p := ProvisionDatabase(c, s, name, namespace, dbPassword, draws);
      var r := Cleanup(p.cluster, p.server, name, namespace);
      p.result.Done? ==>
        && r.error.None?
        && r.server.roles == s.roles - {DbUsername(name, namespace)}
        && r.server.databases == s.databases - {DbName(name, namespace)}
  {
    var p := ProvisionDatabase(c, s, name, namespace, dbPassword, draws);
    if p.result.Done? {
      var user := DbUsername(name, namespace);
      var database := DbName(name, namespace);
      ProvisionEffect(c, s, name, namespace, dbPassword, draws, SkipExisting);
      assert Administrable(p.cluster, p.server, namespace) by {
        var ak := Key(SecretKind, namespace, AdminSecretName);
        assert ak in c.objects && ak !in c.faults;
        assert ak != CredentialsKey(name, namespace) by {
          assert AdminSecretName[0] != CredentialsSecretName(name)[0];
        }
        assert p.cluster.objects[ak] == c.objects[ak] && p.cluster.faults == c.faults;
        assert ReadAdminPassword(p.cluster, namespace) == ReadAdminPassword(c, namespace);
      }
      assert OwnsOnlyItsDatabase(p.server, name, namespace);
      CleanupEffect(p.cluster, p.server, name, namespace);
      RemoveAfterWrite(s.roles, user, ChosenPassword(dbPassword, draws));
      RemoveAfterWrite(s.databases, database, user);
    }
  }

  /* ---------------- The server, statement by statement ---------------- */

  /** The PostgreSQL server, changed by the statements the operator executes. */
  class PostgresServer {
    var roles: map<string, string>
    var databases: map<string, string>
    var sessions: set<string>
    const reachable: bool
    const adminPassword: string

    constructor (s: Server)
      ensures State() == s
    {
      roles, databases, sessions := s.roles, s.databases, s.sessions;
      reachable, adminPassword := s.reachable, s.adminPassword;
    }

    function State(): Server
      reads this
    {
      Server(roles, databases, sessions, reachable, adminPassword)
    }

    method Connect(password: string) returns (error: Option<PyError>)
      ensures error == ConnectError(State(), password)
    {
      if !reachable {
        error := Some(PyError("OperationalError", "could not connect to server"));
      } else if password != adminPassword {
        error := Some(PyError("OperationalError", "password authentication failed for user \"postgres\""));
      } else {
        error := None;
      }
    }

    /** `SELECT 1 FROM pg_roles WHERE rolname = ...`. */
    method RoleExists(role: string) returns (b: bool)
      ensures b <==> role in State().roles
    {
      b := role in roles;
    }

    /** `SELECT 1 FROM pg_database WHERE datname = ...`. */
    method DatabaseExists(database: string) returns (b: bool)
      ensures b <==> database in State().databases
    {
      b := database in databases;
    }

    /** `CREATE USER ... WITH PASSWORD ...`. */
    method CreateUser(role: string, password: string)
      requires role !in State().roles
      modifies this
      ensures State() == SetRolePassword(old(State()), role, password)
    {
      roles := roles[role := password];
    }

    /** `ALTER USER ... WITH PASSWORD ...`. */
    method AlterUserPassword(role: string, password: string)
      requires role in State().roles
      modifies this
      ensures State() == SetRolePassword(old(State()), role, password)
    {
      roles := roles[role := password];
    }

    /** `CREATE DATABASE ... OWNER ...`. */
    method CreateDatabase(database: string, owner: string)
      requires database !in State().databases
      modifies this
      ensures State() == SetDatabaseOwner(old(State()), database, owner)
    {
      databases := databases[database := owner];
    }

    /** `ALTER DATABASE ... OWNER TO ...`. */
    method AlterDatabaseOwner(database: string, owner: string)
      requires database in State().databases
      modifies this
      ensures State() == SetDatabaseOwner(old(State()), database, owner)
    {
      databases := databases[database := owner];
    }

    /** `SELECT pg_terminate_backend(pid) FROM pg_stat_activity WHERE datname = ...`. */
    method TerminateBackends(database: string)
      modifies this
      ensures State() == TerminateSessions(old(State()), database)
    {
      sessions := sessions - {database};
    }

    /** `DROP DATABASE IF EXISTS ...`. */
    method DropDatabaseIfExists(database: string) returns (error: Option<Raised>)
      modifies this
      ensures SqlRun(State(), error) == DropDatabase(old(State()), database)
    {
      if database in sessions {
        error := Some(PythonError(PyError("ObjectInUse", "database is being accessed by other users")));
      } else {
        databases := databases - {database};
        error := None;
      }
    }

    /** `DROP ROLE IF EXISTS ...`. */
    method DropRoleIfExists(role: string) returns (error: Option<Raised>)
      modifies this
      ensures SqlRun(State(), error) == DropRole(old(State()), role)
    {
      if role in databases.Values {
        error := Some(PythonError(PyError("DependentObjectsStillExist", "role cannot be dropped because some objects depend on it")));
      } else {
        roles := roles - {role};
        error := None;
      }
    }
  }

  /* ---------------- The operations, call by call ---------------- */

  /** Reads the admin password from its Secret. */
  method ReadAdminSecret(store: Store, namespace: string) returns (r: Attempt<string>)
    requires WellKeyed(store.State())
    ensures r == ReadAdminPassword(store.State(), namespace)
  {
    var read := store.ReadObject(Key(SecretKind, namespace, AdminSecretName));
    if read.ReadFailed? {
      return Threw(read.raised);
    }
    var data := read.obj.secret.data;
    if AdminSecretKey in data {
      r := Done(data[AdminSecretKey].text);
    } else {
      r := Threw(PythonError(PyError("KeyError", "'" + AdminSecretKey + "'")));
    }
  }

  /** `create_db_credentials_secret`, call by call. */
  method CreateCredentialsSecret(store: Store, name: string, namespace: string, user: string, password: string,
                                 database: string, write: SecretWrite) returns (raised: Option<Raised>)
    requires WellKeyed(store.State())
    modifies store
    ensures Step(store.State(), raised) == WriteCredentials(old(store.State()), name, namespace, user, password, database, write)
  {
    var uid := store.ReadObject(InstanceKey(namespace, name));
    if uid.ReadFailed? {
      return Some(uid.raised);
    }
    var k := CredentialsKey(name, namespace);
    var obj := SecretObject(CredentialsSecret(name, namespace, user, password, database, uid.obj.instance.uid));
    raised := store.CreateObject(k, obj);
    if raised == Some(ApiException(Conflict)) {
      if write == SkipExisting {
        raised := None;
      } else {
        raised := store.ReplaceObject(k, obj);
      }
    }
  }

  /** The role and database statements of `create_database_user`, after the connection is open. */
  method SetUpRoleAndDatabase(server: PostgresServer, user: string, password: string, database: string)
    modifies server
    ensures server.State() == SetDatabaseOwner(SetRolePassword(old(server.State()), user, password), database, user)
  {
    var roleExists := server.RoleExists(user);
    if !roleExists {
      server.CreateUser(user, password);
    } else {
      server.AlterUserPassword(user, password);
    }
    var databaseExists := server.DatabaseExists(database);
    if !databaseExists {
      server.CreateDatabase(database, user);
    } else {
      server.AlterDatabaseOwner(database, user);
    }
  }

  /** `create_database_user`, statement by statement. */
  method CreateDatabaseUser(store: Store, server: PostgresServer, name: string, namespace: string,
                            dbPassword: Option<string>, draws: seq<nat>, write: SecretWrite) returns (result: Attempt<Credentials>)
    requires WellKeyed(store.State()) && ValidDraws(draws)
    modifies store, server
    ensures Provisioning(store.State(), server.State(), result)
         == ProvisionWith(old(store.State()), old(server.State()), name, namespace, dbPassword, draws, write)
  {
    var database := DbName(name, namespace);
    var user := DbUsername(name, namespace);
    var password := if dbPassword.Some? then dbPassword.value else GeneratePassword(draws);
    var admin := ReadAdminSecret(store, namespace);
    if admin.Threw? {
      return Threw(admin.raised);
    }
    var e := server.Connect(admin.value);
    if e.Some? {
      return Threw(PythonError(e.value));
    }
    SetUpRoleAndDatabase(server, user, password, database);
    var raised := CreateCredentialsSecret(store, name, namespace, user, password, database, write);
    if raised.Some? {
      return Threw(raised.value);
    }
    result := Done(Credentials(user, password, database));
  }

  /** The database cleanup of `delete_odoo_instance`, statement by statement. */
  method CleanupDatabase(store: Store, server: PostgresServer, name: string, namespace: string) returns (error: Option<Raised>)
    requires WellKeyed(store.State())
    modifies server
    ensures SqlRun(server.State(), error) == Cleanup(store.State(), old(server.State()), name, namespace)
  {
    var database := DbName(name, namespace);
    var user := DbUsername(name, namespace);
    var admin := ReadAdminSecret(store, namespace);
    if admin.Threw? {
      return Some(admin.raised);
    }
    var e := server.Connect(admin.value);
    if e.Some? {
      return Some(PythonError(e.value));
    }
    var databaseExists := server.DatabaseExists(database);
    if databaseExists {
      server.TerminateBackends(database);
      error := server.DropDatabaseIfExists(database);
      if error.Some? {
        return;
      }
    }
    var roleExists := server.RoleExists(user);
    if roleExists {
      error := server.DropRoleIfExists(user);
    } else {
      error := None;
    }
  }
}
