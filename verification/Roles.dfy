/** Provisioning restricted database logins, and checking afterwards that each one is restricted. */
module Roles {
  import opened Prelude
  import opened RoleGraph

  // ------------------------------------------------------------------- plan

  datatype Url = Url(
    scheme: string, username: string, password: string, hostname: string, port: Option<nat>, path: string)

  datatype Endpoint = Endpoint(hostname: string, port: nat, database: string)

  datatype LoginIdentity = LoginIdentity(
    environment: string, login: string, password: string, group: string, endpoint: Endpoint)

  datatype Plan = Planned(identities: seq<LoginIdentity>) | Invalid

  const ADMIN := "MY_DATA_HUB_ROLE_ADMIN_DATABASE_URL"

  /** The variable that holds each service's URL, and the group its login belongs to. */
  const IDENTITIES := [
    ("MY_DATA_HUB_APPLICATION_DATABASE_URL", "mdh_application"),
    ("MY_DATA_HUB_CONNECTOR_INTAKE_DATABASE_URL", "mdh_connector_intake"),
    ("MY_DATA_HUB_ORCHESTRATOR_DATABASE_URL", "mdh_orchestrator"),
    ("MY_DATA_HUB_MCP_READER_DATABASE_URL", "mdh_mcp_reader"),
    ("MY_DATA_HUB_CANONICAL_COMMITTER_DATABASE_URL", "mdh_canonical_committer"),
    ("MY_DATA_HUB_BACKUP_DATABASE_URL", "mdh_backup"),
    ("MY_DATA_HUB_MIGRATOR_DATABASE_URL", "mdh_migrator"),
    ("MY_DATA_HUB_MONITORING_DATABASE_URL", "mdh_monitoring"),
    ("MY_DATA_HUB_MIGRATION_OPERATOR_DATABASE_URL", "mdh_migration_operator")
  ]

  function Strip(s: string): string
    decreases |s|
  {
    if s != "" && s[0] == '/' then Strip(s[1..])
    else if s != "" && s[|s| - 1] == '/' then Strip(s[..|s| - 1])
    else s
  }

  function EndpointOf(u: Url): Endpoint {
    Endpoint(u.hostname, if u.port.None? || u.port.value == 0 then 5432 else u.port.value, Strip(u.path))
  }

  function Groups(table: seq<(string, string)>): set<string> { set e | e in table :: e.1 }

  function IdentityOf(entry: (string, string), u: Url, decode: string -> string): LoginIdentity {
    LoginIdentity(entry.0, decode(u.username), decode(u.password), entry.1, EndpointOf(u))
  }

  /** What one service URL must be for its login to enter the plan. */
  predicate Fits(admin: Url, u: Url, groups: set<string>, decode: string -> string) {
    && u.scheme in ["postgresql", "postgres"]
    && EndpointOf(u) == EndpointOf(admin)
    && decode(u.username) != "" && decode(u.password) != ""
    && decode(u.username) !in groups
  }

  predicate Usable(admin: Url) { admin.hostname != "" && Strip(admin.path) != "" }

  /** The whole configuration: every service has a fitting URL and no two share a login. */
  ghost predicate Configured(
    environment: map<string, Url>, table: seq<(string, string)>, decode: string -> string)
  {
    && ADMIN in environment && Usable(environment[ADMIN])
    && (forall e | e in table ::
          e.0 in environment && Fits(environment[ADMIN], environment[e.0], Groups(table), decode))
    && (forall i, j | 0 <= i < j < |table| ::
          decode(environment[table[i].0].username) != decode(environment[table[j].0].username))
  }

  ghost predicate Belongs(x: LoginIdentity, entry: (string, string), environment: map<string, Url>, decode: string -> string)
    requires ADMIN in environment && entry.0 in environment
  {
    && x.environment == entry.0 && x.group == entry.1
    && x.login == decode(environment[entry.0].username) && x.password == decode(environment[entry.0].password)
    && x.endpoint == EndpointOf(environment[ADMIN])
  }

  function Logins(ids: seq<LoginIdentity>): (r: seq<string>)
    ensures |r| == |ids| && forall i | 0 <= i < |ids| :: r[i] == ids[i].login
  {
    seq(|ids|, i requires 0 <= i < |ids| => ids[i].login)
  }

  /** Builds the plan entry by entry; a single unfit or repeated login refuses the whole configuration. */
  method LoadIdentityPlan(environment: map<string, Url>, table: seq<(string, string)>, decode: string -> string)
    returns (r: Plan)
    ensures r.Planned? <==> Configured(environment, table, decode)
    ensures r.Planned? ==> |r.identities| == |table| && Distinct(Logins(r.identities))
    ensures r.Planned? ==> forall i | 0 <= i < |table| ::
                table[i].0 in environment && r.identities[i] == IdentityOf(table[i], environment[table[i].0], decode)
    // each login is the one of its own variable, for its own group, on the administrator's endpoint
    ensures r.Planned? ==> forall i | 0 <= i < |table| :: Belongs(r.identities[i], table[i], environment, decode)
    ensures r.Planned? ==> forall x | x in r.identities :: x.login !in Groups(table) && x.login != "" && x.group in Groups(table)
  {
    hide EndpointOf, Groups;
    if ADMIN !in environment || !Usable(environment[ADMIN]) {
      return Invalid;
    }
    var admin := environment[ADMIN];
    var result: seq<LoginIdentity> := [];
    var n := 0;
    while n < |table|
      invariant n <= |table| && |result| == n
      invariant forall i | 0 <= i < n ::
                  table[i].0 in environment && Fits(admin, environment[table[i].0], Groups(table), decode)
      invariant forall i | 0 <= i < n :: result[i] == IdentityOf(table[i], environment[table[i].0], decode)
    {
      var entry := table[n];
      if entry.0 !in environment || !Fits(admin, environment[entry.0], Groups(table), decode) {
        assert entry in table;
        return Invalid;
      }
      result := result + [IdentityOf(entry, environment[entry.0], decode)];
      n := n + 1;
    }
    var logins := Logins(result);
    DistinctByCount(logins);
    if |logins| != |Elements(logins)| {
      return Invalid;
    }
    GroupsHold(table);
    return Planned(result);
  }

  lemma GroupsHold(table: seq<(string, string)>)
    ensures forall i | 0 <= i < |table| :: table[i].1 in Groups(table)
  {
  }

  // -------------------------------------------------------------- catalogue

  datatype Role = Role(
    canLogin: bool, superuser: bool, createDb: bool, createRole: bool, replication: bool, bypassRls: bool,
    inherits: bool, connections: int, password: string, comment: Option<string>, encumbered: bool)
  {
    predicate Privileged() { superuser || createDb || createRole || replication || bypassRls }

    /** The attributes both CREATE ROLE and ALTER ROLE set. */
    function Restricted(secret: string): Role {
      Role(true, false, false, false, false, false, true, 20, secret, comment, encumbered)
    }
  }

  function Created(secret: string): Role {
    Role(true, false, false, false, false, false, true, 20, secret, None, false)
  }

  /** A membership row is named by member, parent and grantor. */
  type Key = (string, string, string)

  datatype Options = Options(admin: bool, inherits: bool, set_: bool) {
    predicate Safe() { !admin && inherits && set_ }
  }

  function EdgesOf(members: map<Key, Options>): Edges { set k | k in members :: (k.0, k.1) }

  function Managed(group: string): string { "my-data-hub managed login for " + group }

  /** An existing login the provisioning accepts: managed, restricted, in no other group, owning nothing. */
  predicate Acceptable(role: Role, members: map<Key, Options>, x: LoginIdentity) {
    && role.comment == Some(Managed(x.group))
    && role.canLogin && !role.Privileged() && role.inherits
    && (forall k | k in members && k.0 == x.login :: k.1 == x.group && members[k].Safe())
    && !role.encumbered
  }

  /** The login is new or acceptable. */
  predicate Admissible(roles: map<string, Role>, members: map<Key, Options>, x: LoginIdentity) {
    x.login in roles ==> Acceptable(roles[x.login], members, x)
  }

  /** The login is absent or carries the comment of its group. */
  predicate Marked(roles: map<string, Role>, x: LoginIdentity) {
    x.login in roles ==> roles[x.login].comment == Some(Managed(x.group))
  }

  /** The login is as provisioning leaves it. */
  predicate Provisioned(roles: map<string, Role>, members: map<Key, Options>, grantor: string, x: LoginIdentity) {
    && x.login in roles && x.group in roles
    && roles[x.login] == Created(x.password).(comment := Some(Managed(x.group)))
    && (x.login, x.group, grantor) in members
    && (forall k | k in members && k.0 == x.login :: k.1 == x.group && members[k].Safe())
  }

  /** Nothing but the logins in `touched` differs between two catalogues. */
  ghost predicate Untouched(
    roles: map<string, Role>, members: map<Key, Options>,
    roles': map<string, Role>, members': map<Key, Options>, touched: set<string>)
  {
    && (forall n | n !in touched :: (n in roles <==> n in roles') && (n in roles ==> roles'[n] == roles[n]))
    && (forall k: Key | k.0 !in touched ::
          (k in members <==> k in members') && (k in members ==> members'[k] == members[k]))
  }

  /** The role and its memberships are the same in both catalogues. */
  ghost predicate SameLogin(
    roles: map<string, Role>, members: map<Key, Options>,
    roles': map<string, Role>, members': map<Key, Options>, login: string)
  {
    && (login in roles <==> login in roles') && (login in roles ==> roles'[login] == roles[login])
    && (forall k: Key | k.0 == login ::
          (k in members <==> k in members') && (k in members ==> members'[k] == members[k]))
  }

  /**
   * How a statement ended. A fault is a failure of the connection or the server, not of the request; the statement may
   * have committed all the same, with its answer lost.
   */
  datatype Answer = Executed | Rejected | Fault

  class Catalogue {
    const grantor: string
    var roles: map<string, Role>
    var members: map<Key, Options>

    ghost predicate Valid()
      reads this
    {
      && (forall k | k in members :: k.0 in roles && k.1 in roles)
      && Acyclic(EdgesOf(members))
    }

    method CreateRole(login: string, password: string) returns (a: Answer)
      requires Valid()
      modifies this`roles
      ensures Valid()
      ensures a.Executed? ==> login !in old(roles) && roles == old(roles)[login := Created(password)]
      ensures a.Rejected? ==> roles == old(roles)
      ensures a.Fault? ==> roles == old(roles) || (login !in old(roles) && roles == old(roles)[login := Created(password)])
    {
      a := *;
      if login in roles && a.Executed? {
        a := Rejected;
      }
      var committed: bool := *;
      if login !in roles && (a.Executed? || (a.Fault? && committed)) {
        roles := roles[login := Created(password)];
      }
    }

    method AlterRole(login: string, password: string) returns (a: Answer)
      requires Valid()
      modifies this`roles
      ensures Valid()
      ensures a.Rejected? <==> old(login !in roles)
      ensures a.Executed? ==> login in old(roles) && roles == old(roles)[login := old(roles)[login].Restricted(password)]
      ensures a.Rejected? ==> roles == old(roles)
      ensures a.Fault? ==> roles == old(roles) || roles == old(roles)[login := old(roles)[login].Restricted(password)]
    {
      if login !in roles {
        return Rejected;
      }
      var fault, committed: bool := *, *;
      if !fault || committed {
        roles := roles[login := roles[login].Restricted(password)];
      }
      return if fault then Fault else Executed;
    }

    method CommentOn(login: string, comment: string) returns (a: Answer)
      requires Valid()
      modifies this`roles
      ensures Valid()
      ensures a.Rejected? <==> old(login !in roles)
      ensures a.Executed? ==> login in old(roles) && roles == old(roles)[login := old(roles)[login].(comment := Some(comment))]
      ensures a.Rejected? ==> roles == old(roles)
      ensures a.Fault? ==> roles == old(roles) || roles == old(roles)[login := old(roles)[login].(comment := Some(comment))]
    {
      if login !in roles {
        return Rejected;
      }
      var fault, committed: bool := *, *;
      if !fault || committed {
        roles := roles[login := roles[login].(comment := Some(comment))];
      }
      return if fault then Fault else Executed;
    }

    /** GRANT group TO login WITH ADMIN FALSE, INHERIT TRUE, SET TRUE; a membership may not close a cycle. */
    method Grant(group: string, login: string) returns (a: Answer)
      requires Valid()
      modifies this`members
      ensures Valid()
      ensures a.Rejected? <==> old(group !in roles || login !in roles || login in Above(EdgesOf(members), group))
      ensures a.Executed? ==> members == old(members)[(login, group, grantor) := Options(false, true, true)]
      ensures a.Rejected? ==> members == old(members)
      ensures a.Fault? ==> members == old(members) || members == old(members)[(login, group, grantor) := Options(false, true, true)]
    {
      if group !in roles || login !in roles || login in Above(EdgesOf(members), group) {
        return Rejected;
      }
      var fault, committed: bool := *, *;
      if fault && !committed {
        return Fault;
      }
      ghost var edges := EdgesOf(members);
      AcyclicWithEdge(edges, login, group);
      members := members[(login, group, grantor) := Options(false, true, true)];
      assert EdgesOf(members) == edges + {(login, group)} by {
        assert (login, group, grantor) in members;
      }
      return if fault then Fault else Executed;
    }
  }

  // -------------------------------------------------------------- provision

  datatype Outcome = Done | Refused | Failed(fault: bool)

  /** The roles after the first `stage` of the three statements for a login. */
  function RolesAt(roles: map<string, Role>, x: LoginIdentity, stage: nat): map<string, Role> {
    var made := if x.login in roles then roles[x.login].Restricted(x.password) else Created(x.password);
    if stage == 0 then roles
    else if stage == 1 then roles[x.login := made]
    else roles[x.login := made.(comment := Some(Managed(x.group)))]
  }

  function MembersAt(members: map<Key, Options>, grantor: string, x: LoginIdentity, stage: nat): map<Key, Options> {
    if stage < 3 then members else members[(x.login, x.group, grantor) := Options(false, true, true)]
  }

  ghost predicate Rooted(roles: map<string, Role>, members: map<Key, Options>) {
    forall k | k in members :: k.0 in roles && k.1 in roles
  }

  lemma StageUntouched(roles: map<string, Role>, members: map<Key, Options>, grantor: string, x: LoginIdentity, stage: nat)
    ensures Untouched(roles, members, RolesAt(roles, x, stage), MembersAt(members, grantor, x, stage), {x.login})
    ensures roles.Keys <= RolesAt(roles, x, stage).Keys
  {
    hide Managed;
  }

  lemma StageDone(roles: map<string, Role>, members: map<Key, Options>, grantor: string, x: LoginIdentity)
    requires Rooted(roles, members) && Admissible(roles, members, x) && x.group in RolesAt(roles, x, 3)
    ensures Provisioned(RolesAt(roles, x, 3), MembersAt(members, grantor, x, 3), grantor, x)
  {
    hide Managed;
  }

  lemma StageAgain(roles: map<string, Role>, members: map<Key, Options>, grantor: string, x: LoginIdentity, stage: nat)
    requires Provisioned(roles, members, grantor, x)
    ensures RolesAt(roles, x, stage) == roles && MembersAt(members, grantor, x, stage) == members
    ensures Admissible(roles, members, x)
  {
    hide Managed;
    assert roles[x.login := roles[x.login]] == roles;
    assert members[(x.login, x.group, grantor)] == Options(false, true, true);
    assert members[(x.login, x.group, grantor) := Options(false, true, true)] == members;
  }

  lemma StageAdmissible(roles: map<string, Role>, members: map<Key, Options>, grantor: string, x: LoginIdentity, stage: nat)
    requires Rooted(roles, members) && Admissible(roles, members, x)
    ensures
      var now := RolesAt(roles, x, stage);
      Admissible(now, MembersAt(members, grantor, x, stage), x) <==> Marked(now, x)
  {
    hide Managed;
  }

  /** Reads the existing login and decides, check by check, whether it may be kept. */
  method CheckExisting(c: Catalogue, x: LoginIdentity) returns (ok: bool)
    requires x.login in c.roles
    ensures ok <==> Acceptable(c.roles[x.login], c.members, x)
  {
    hide Managed;
    var role := c.roles[x.login];
    if role.comment != Some(Managed(x.group)) || !role.canLogin || role.Privileged() || !role.inherits {
      return false;
    }
    var rows := set k | k in c.members && k.0 == x.login;
    assert forall k | k in c.members && k.0 == x.login :: k in rows;
    var unexpected := set k | k in rows && k.1 != x.group;
    if unexpected != {} {
      var k :| k in unexpected;
      assert k in rows;
      return false;
    }
    assert forall k | k in rows :: k !in unexpected;
    var unsafe := set k | k in rows && !c.members[k].Safe();
    if unsafe != {} {
      var k :| k in unsafe;
      assert k in rows;
      return false;
    }
    assert forall k | k in rows :: k !in unsafe;
    return !role.encumbered;
  }

  /** The three statements, each of which commits on its own; `stage` counts those that did, answered or not. */
  method Execute(c: Catalogue, x: LoginIdentity) returns (r: Outcome, ghost stage: nat)
    requires c.Valid()
    modifies c
    ensures c.Valid() && !r.Refused? && stage <= 3
    ensures c.roles == RolesAt(old(c.roles), x, stage) && c.members == MembersAt(old(c.members), c.grantor, x, stage)
    ensures r.Done? ==> stage == 3
    ensures stage == 3 ==> x.group in c.roles && !(r.Failed? && !r.fault)
    ensures r == Failed(false) ==> x.login !in old(c.roles) || x.group !in c.roles || x.login in Above(EdgesOf(c.members), x.group)
  {
    hide Managed, Acyclic, Closed, Above;
    var a;
    ghost var before := c.roles;
    if x.login in c.roles {
      a := c.AlterRole(x.login, x.password);
    } else {
      a := c.CreateRole(x.login, x.password);
    }
    if !a.Executed? {
      return Failed(a.Fault?), if c.roles == before then 0 else 1;
    }
    before := c.roles;
    a := c.CommentOn(x.login, Managed(x.group));
    if !a.Executed? {
      return Failed(a.Fault?), if c.roles == before then 1 else 2;
    }
    ghost var rows := c.members;
    a := c.Grant(x.group, x.login);
    if !a.Executed? {
      return Failed(a.Fault?), if c.members == rows then 2 else 3;
    }
    return Done, 3;
  }

  /** One login: it is refused untouched, or brought statement by statement to its provisioned form. */
  method ProvisionLogin(c: Catalogue, x: LoginIdentity) returns (r: Outcome)
    requires c.Valid()
    modifies c
    ensures c.Valid() && old(c.roles.Keys) <= c.roles.Keys
    ensures Untouched(old(c.roles), old(c.members), c.roles, c.members, {x.login})
    ensures r.Done? ==> Provisioned(c.roles, c.members, c.grantor, x)
    ensures r.Refused? ==> !Admissible(old(c.roles), old(c.members), x) && c.roles == old(c.roles) && c.members == old(c.members)
    ensures !Admissible(old(c.roles), old(c.members), x) ==> r.Refused? || r == Failed(true)
    ensures !Admissible(old(c.roles), old(c.members), x) ==> c.roles == old(c.roles) && c.members == old(c.members)
    ensures r.Failed? && Admissible(old(c.roles), old(c.members), x) ==>
              (Admissible(c.roles, c.members, x) <==> Marked(c.roles, x))
    ensures Provisioned(old(c.roles), old(c.members), c.grantor, x) ==>
              c.roles == old(c.roles) && c.members == old(c.members) && (r.Done? || r == Failed(true))
  {
    hide Managed, Acyclic, Closed, Above, RolesAt, MembersAt, Provisioned, Acceptable, Untouched;
    ghost var roles, members := c.roles, c.members;
    StageUntouched(roles, members, c.grantor, x, 0);
    assert RolesAt(roles, x, 0) == roles && MembersAt(members, c.grantor, x, 0) == members by { StageZero(roles, members, c.grantor, x); }
    if Admissible(roles, members, x) {
      StageAdmissible(roles, members, c.grantor, x, 0);
    }
    if Provisioned(roles, members, c.grantor, x) {
      StageAgain(roles, members, c.grantor, x, 0);
    }
    var fault: bool := *;
    if fault {
      return Failed(true);
    }
    if x.login in c.roles {
      var kept := CheckExisting(c, x);
      if !kept {
        return Refused;
      }
    }
    ghost var stage;
    r, stage := Execute(c, x);
    StageUntouched(roles, members, c.grantor, x, stage);
    StageAdmissible(roles, members, c.grantor, x, stage);
    if r.Done? {
      StageDone(roles, members, c.grantor, x);
    }
    if Provisioned(roles, members, c.grantor, x) {
      StageAgain(roles, members, c.grantor, x, stage);
      GrantAgain(roles, members, c.grantor, x);
    }
  }

  lemma StageZero(roles: map<string, Role>, members: map<Key, Options>, grantor: string, x: LoginIdentity)
    ensures RolesAt(roles, x, 0) == roles && MembersAt(members, grantor, x, 0) == members
  {
  }

  /** The membership provisioning left does not stand in the way of granting it again. */
  lemma GrantAgain(roles: map<string, Role>, members: map<Key, Options>, grantor: string, x: LoginIdentity)
    requires Acyclic(EdgesOf(members)) && Provisioned(roles, members, grantor, x)
    ensures x.login in roles && x.group in roles && x.login !in Above(EdgesOf(members), x.group)
  {
    assert (x.login, x.group) in EdgesOf(members);
  }

  datatype Observation = Observation(environment: string, login: string, group: string, updated: bool)

  datatype Report = Reported(observations: seq<Observation>) | Stopped(at: nat, why: Outcome)

  ghost predicate AllProvisioned(
    roles: map<string, Role>, members: map<Key, Options>, grantor: string, ids: seq<LoginIdentity>)
  {
    forall i | 0 <= i < |ids| :: Provisioned(roles, members, grantor, ids[i])
  }

  lemma UntouchedMore(
    r0: map<string, Role>, m0: map<Key, Options>, r1: map<string, Role>, m1: map<Key, Options>,
    r2: map<string, Role>, m2: map<Key, Options>, touched: set<string>, login: string)
    requires Untouched(r0, m0, r1, m1, touched) && Untouched(r1, m1, r2, m2, {login})
    ensures Untouched(r0, m0, r2, m2, touched + {login})
  {
  }

  /** What a login is does not depend on the other logins. */
  lemma OwnLogin(
    r0: map<string, Role>, m0: map<Key, Options>, r1: map<string, Role>, m1: map<Key, Options>,
    touched: set<string>, grantor: string, x: LoginIdentity)
    requires Untouched(r0, m0, r1, m1, touched) && x.login !in touched
    ensures Admissible(r0, m0, x) <==> Admissible(r1, m1, x)
    ensures Provisioned(r0, m0, grantor, x) && r0.Keys <= r1.Keys ==> Provisioned(r1, m1, grantor, x)
    ensures x.login in r0 <==> x.login in r1
    ensures SameLogin(r0, m0, r1, m1, x.login)
  {
    hide Managed;
    assert forall k: Key | k.0 == x.login :: k in m0 <==> k in m1;
  }

  function Touched(ids: seq<LoginIdentity>): set<string> { Elements(Logins(ids)) }

  lemma TouchedMore(ids: seq<LoginIdentity>, n: nat)
    requires n < |ids| && Distinct(Logins(ids))
    ensures Touched(ids[..n + 1]) == Touched(ids[..n]) + {ids[n].login}
    ensures ids[n].login !in Touched(ids[..n])
    ensures forall i | 0 <= i < n :: ids[i].login != ids[n].login
  {
    assert Logins(ids[..n + 1]) == Logins(ids[..n]) + [ids[n].login];
    forall i | 0 <= i < n ensures ids[i].login != ids[n].login {
      assert Logins(ids)[i] != Logins(ids)[n];
    }
  }

  lemma LaterLogin(ids: seq<LoginIdentity>, n: nat, k: nat)
    requires n < k < |ids| && Distinct(Logins(ids))
    ensures ids[k].login !in Touched(ids[..n]) + {ids[n].login}
  {
    assert Logins(ids)[n] != Logins(ids)[k];
    forall i | 0 <= i < n ensures Logins(ids[..n])[i] != ids[k].login {
      assert Logins(ids)[i] != Logins(ids)[k];
    }
  }

  /**
   * Provisions the plan in order and stops at the first login it cannot provision. Logins outside the plan are never
   * touched, nor are those after the stop; a second run over a provisioned catalogue changes nothing and is never
   * refused.
   */
  method Provision(c: Catalogue, ids: seq<LoginIdentity>) returns (r: Report)
    requires c.Valid() && Distinct(Logins(ids))
    modifies c
    ensures c.Valid()
    ensures r.Reported? ==> AllProvisioned(c.roles, c.members, c.grantor, ids)
    ensures r.Reported? ==> Untouched(old(c.roles), old(c.members), c.roles, c.members, Touched(ids))
    ensures r.Reported? ==> |r.observations| == |ids| && forall i | 0 <= i < |ids| ::
                r.observations[i] == Observation(ids[i].environment, ids[i].login, ids[i].group, ids[i].login in old(c.roles))
    ensures r.Stopped? ==> r.at < |ids| && !r.why.Done? && AllProvisioned(c.roles, c.members, c.grantor, ids[..r.at])
    ensures r.Stopped? ==> Untouched(old(c.roles), old(c.members), c.roles, c.members,
                                     Touched(ids[..if r.why.Refused? then r.at else r.at + 1]))
    ensures r.Stopped? && r.why.Refused? ==> !Admissible(old(c.roles), old(c.members), ids[r.at])
    ensures (forall x | x in ids :: Admissible(old(c.roles), old(c.members), x)) ==> !(r.Stopped? && r.why.Refused?)
    // a login that cannot be provisioned stops the run there or earlier, and stays as it is
    ensures forall k | 0 <= k < |ids| && !Admissible(old(c.roles), old(c.members), ids[k]) ::
              r.Stopped? && r.at <= k && SameLogin(old(c.roles), old(c.members), c.roles, c.members, ids[k].login)
    // after a failed statement the login can be provisioned again exactly when it is absent or marked
    ensures r.Stopped? && r.why.Failed? && Admissible(old(c.roles), old(c.members), ids[r.at]) ==>
              (Admissible(c.roles, c.members, ids[r.at]) <==> Marked(c.roles, ids[r.at]))
    ensures AllProvisioned(old(c.roles), old(c.members), c.grantor, ids) ==>
              && c.roles == old(c.roles) && c.members == old(c.members)
              && (r.Reported? || r.why == Failed(true))
  {
    hide Managed, Acyclic, Closed, Above, Provisioned, Acceptable, Admissible, Untouched, Touched, SameLogin, Marked;
    ghost var roles, members := c.roles, c.members;
    var observations: seq<Observation> := [];
    var n := 0;
    assert Untouched(roles, members, c.roles, c.members, Touched(ids[..0])) by { UntouchedSame(roles, members, Touched(ids[..0])); }
    while n < |ids|
      invariant n <= |ids| && c.Valid() && roles.Keys <= c.roles.Keys
      invariant AllProvisioned(c.roles, c.members, c.grantor, ids[..n])
      invariant Untouched(roles, members, c.roles, c.members, Touched(ids[..n]))
      invariant |observations| == n && forall i | 0 <= i < n ::
                  observations[i] == Observation(ids[i].environment, ids[i].login, ids[i].group, ids[i].login in roles)
      invariant AllProvisioned(roles, members, c.grantor, ids) ==> c.roles == roles && c.members == members
      invariant forall k | 0 <= k < n :: Admissible(roles, members, ids[k])
    {
      var x := ids[n];
      var updated := x.login in c.roles;
      ghost var before, rows := c.roles, c.members;
      TouchedMore(ids, n);
      OwnLogin(roles, members, before, rows, Touched(ids[..n]), c.grantor, x);
      var one := ProvisionLogin(c, x);
      UntouchedMore(roles, members, before, rows, c.roles, c.members, Touched(ids[..n]), x.login);
      forall i | 0 <= i < n ensures Provisioned(c.roles, c.members, c.grantor, ids[i]) {
        assert Provisioned(before, rows, c.grantor, ids[..n][i]);
        OwnLogin(before, rows, c.roles, c.members, {x.login}, c.grantor, ids[i]);
      }
      assert AllProvisioned(c.roles, c.members, c.grantor, ids[..n]);
      if !one.Done? {
        forall k | n <= k < |ids| && !Admissible(roles, members, ids[k])
          ensures SameLogin(roles, members, c.roles, c.members, ids[k].login)
        {
          if k == n {
            OwnLogin(roles, members, c.roles, c.members, Touched(ids[..n]), c.grantor, ids[k]);
          } else {
            LaterLogin(ids, n, k);
            OwnLogin(roles, members, c.roles, c.members, Touched(ids[..n]) + {x.login}, c.grantor, ids[k]);
          }
        }
        return Stopped(n, one);
      }
      observations := observations + [Observation(x.environment, x.login, x.group, updated)];
      assert forall i | 0 <= i < n + 1 :: ids[..n + 1][i] == ids[i];
      assert AllProvisioned(c.roles, c.members, c.grantor, ids[..n + 1]);
      n := n + 1;
    }
    assert ids[..n] == ids;
    return Reported(observations);
  }

  lemma UntouchedSame(roles: map<string, Role>, members: map<Key, Options>, touched: set<string>)
    ensures Untouched(roles, members, roles, members, touched)
  {
  }

  // ------------------------------------------------------------- later runs

  /** What a login is depends on its role and its memberships alone. */
  lemma SameLoginAdmissible(
    r0: map<string, Role>, m0: map<Key, Options>, r1: map<string, Role>, m1: map<Key, Options>, x: LoginIdentity)
    requires SameLogin(r0, m0, r1, m1, x.login)
    ensures Admissible(r0, m0, x) <==> Admissible(r1, m1, x)
  {
    hide Managed;
    assert forall k: Key | k.0 == x.login :: k in m0 <==> k in m1;
  }

  /** A run that stops between CREATE ROLE and COMMENT leaves a login that is not admissible, on every catalogue. */
  lemma CreatedUnmarked(roles: map<string, Role>, members: map<Key, Options>, x: LoginIdentity)
    requires x.login !in roles
    ensures x.login in RolesAt(roles, x, 1) && !Marked(RolesAt(roles, x, 1), x)
    ensures !Admissible(RolesAt(roles, x, 1), members, x)
  {
  }

  /**
   * Any number of runs, each of a plan with the login in it: one that is not admissible at first is never provisioned,
   * no run succeeds, and the login stays exactly as it was.
   */
  method ProvisionRepeatedly(c: Catalogue, plans: seq<seq<LoginIdentity>>, ghost x: LoginIdentity) returns (reports: seq<Report>)
    requires c.Valid() && forall p | p in plans :: Distinct(Logins(p)) && x in p
    modifies c
    ensures c.Valid() && |reports| == |plans|
    ensures !Admissible(old(c.roles), old(c.members), x) ==>
              && (forall i | 0 <= i < |plans| :: reports[i].Stopped?)
              && SameLogin(old(c.roles), old(c.members), c.roles, c.members, x.login)
              && !Admissible(c.roles, c.members, x)
  {
    hide Managed, Acyclic, Closed, Above, Provisioned, Admissible, Untouched, Touched, Distinct, AllProvisioned, Marked, Logins, EdgesOf;
    ghost var roles, members := c.roles, c.members;
    ghost var lost := !Admissible(roles, members, x);
    reports := [];
    var n := 0;
    while n < |plans|
      invariant n <= |plans| && c.Valid() && |reports| == n
      invariant lost ==> !Admissible(c.roles, c.members, x) && SameLogin(roles, members, c.roles, c.members, x.login)
      invariant lost ==> forall i | 0 <= i < n :: reports[i].Stopped?
    {
      var p := plans[n];
      assert Distinct(Logins(p)) && x in p;
      ghost var k :| 0 <= k < |p| && p[k] == x;
      ghost var before, rows := c.roles, c.members;
      var report := Provision(c, p);
      if lost {
        assert !Admissible(before, rows, p[k]);
        SameLoginAdmissible(before, rows, c.roles, c.members, x);
        SameLoginTwice(roles, members, before, rows, c.roles, c.members, x.login);
      }
      reports := reports + [report];
      n := n + 1;
    }
  }

  lemma SameLoginTwice(
    r0: map<string, Role>, m0: map<Key, Options>, r1: map<string, Role>, m1: map<Key, Options>,
    r2: map<string, Role>, m2: map<Key, Options>, login: string)
    requires SameLogin(r0, m0, r1, m1, login) && SameLogin(r1, m1, r2, m2, login)
    ensures SameLogin(r0, m0, r2, m2, login)
  {
  }
}
