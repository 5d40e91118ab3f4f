/** The check that each production connection uses one restricted login, over the transitive role graph. */
module IdentityCheck {
  import opened Prelude
  import opened RoleGraph
  import opened Roles
  import opened Sorting

  // ------------------------------------------------------------ the check

  /** A service, the variable that holds its URL and the roles it may be a member of, its own group first. */
  datatype Service = Service(environment: string, allowed: seq<string>)

  datatype Finding = Absent(environment: string) | Unreachable(environment: string) | NoRole(environment: string)
                   | NotRestricted(environment: string, group: string) | NotDistinct

  /** What a connection says it is: the current and the session user. */
  datatype Session = Session(current: string, session: string)

  /** pg_has_role(user, role, 'MEMBER'): a superuser is a member of every role. */
  predicate HasRole(roles: map<string, Role>, edges: Edges, user: string, role: string)
    requires user in roles
  {
    roles[user].superuser || role in Above(edges, user)
  }

  function Memberships(roles: map<string, Role>, edges: Edges, user: string): set<string>
    requires user in roles
  {
    set n | n in roles && n != user && HasRole(roles, edges, user, n)
  }

  /** What the check demands of one connection. */
  ghost predicate Restricted(roles: map<string, Role>, edges: Edges, s: Service, username: string, seen: Session)
    requires s.allowed != [] && seen.current in roles
  {
    && seen.current == seen.session == username
    && username != s.allowed[0]
    && !roles[seen.current].Privileged()
    && HasRole(roles, edges, seen.current, s.allowed[0])
    && Memberships(roles, edges, seen.current) == Elements(s.allowed)
  }

  ghost predicate Passes(
    roles: map<string, Role>, edges: Edges, environment: map<string, Url>, sessions: map<string, Session>, s: Service)
    requires s.allowed != []
  {
    && s.environment in environment && s.environment in sessions
    && sessions[s.environment].current in roles
    && Restricted(roles, edges, s, environment[s.environment].username, sessions[s.environment])
  }

  predicate Listed(services: seq<Service>) {
    forall s | s in services :: s.allowed != [] && Distinct(s.allowed)
  }

  /** The rows of a query ordered by name. */
  method OrderedNames(names: set<string>) returns (rows: seq<string>)
    ensures Ordered(NameOrder(), rows) && multiset(rows) == multiset(names)
  {
    hide Ordered, Linear, NameOrder;
    rows := [];
    var left := names;
    assert Ordered(NameOrder(), rows) by { NothingOrdered(); }
    NameOrderLinear();
    while left != {}
      invariant left <= names && Ordered(NameOrder(), rows) && multiset(rows) == multiset(names - left)
      decreases left
    {
      var x :| x in left;
      InsertHolds(NameOrder(), rows, x);
      InsertOrdered(NameOrder(), rows, x);
      assert names - (left - {x}) == (names - left) + {x};
      rows := Insert(NameOrder(), rows, x);
      left := left - {x};
    }
    assert names - left == names;
  }

  lemma NothingOrdered()
    ensures Ordered(NameOrder(), [])
  {
  }

  /** Comparing ordered rows with a sorted tuple of different names compares the sets. */
  lemma RowsAreSet(rows: seq<string>, names: set<string>, allowed: seq<string>)
    requires Ordered(NameOrder(), rows) && multiset(rows) == multiset(names) && Distinct(allowed)
    ensures rows == Sort(NameOrder(), allowed) <==> names == Elements(allowed)
  {
    hide Ordered, Linear, NameOrder, Sort, Distinct;
    NameOrderLinear();
    SortMeans(NameOrder(), allowed);
    CountedAsSet(allowed);
    OrderedUnique(NameOrder(), rows, Sort(NameOrder(), allowed));
    SetsCounted(names, Elements(allowed));
  }

  lemma SetsCounted<T>(a: set<T>, b: set<T>)
    ensures multiset(a) == multiset(b) <==> a == b
  {
    if multiset(a) == multiset(b) {
      assert forall x :: x in a <==> x in multiset(a);
      assert forall x :: x in b <==> x in multiset(b);
    }
  }

  /** The comparison the check makes: the ordered rows against the sorted tuple, which is equality of the sets. */
  method CheckRow(roles: map<string, Role>, edges: Edges, s: Service, username: string, seen: Session) returns (safe: bool)
    requires s.allowed != [] && Distinct(s.allowed) && seen.current in roles
    ensures safe <==> Restricted(roles, edges, s, username, seen)
  {
    hide Above, Sort, Memberships, Elements, Ordered, NameOrder;
    var observed := OrderedNames(Memberships(roles, edges, seen.current));
    RowsAreSet(observed, Memberships(roles, edges, seen.current), s.allowed);
    safe := && seen.current == seen.session == username
            && username != s.allowed[0]
            && !roles[seen.current].Privileged()
            && HasRole(roles, edges, seen.current, s.allowed[0])
            && observed == Sort(NameOrder(), s.allowed);
  }

  /** The usernames of the services that have a URL, in the order of the table. */
  function Usernames(environment: map<string, Url>, services: seq<Service>): seq<string> {
    if services == [] then []
    else
      var n := |services| - 1;
      var s := services[n];
      Usernames(environment, services[..n]) + if s.environment in environment then [environment[s.environment].username] else []
  }

  method CheckService(
    c: Catalogue, environment: map<string, Url>, sessions: map<string, Session>, s: Service)
    returns (found: seq<Finding>)
    requires s.allowed != [] && Distinct(s.allowed)
    ensures found == [] <==> Passes(c.roles, EdgesOf(c.members), environment, sessions, s)
  {
    hide Restricted, Distinct, EdgesOf;
    if s.environment !in environment {
      return [Absent(s.environment)];
    }
    if s.environment !in sessions {
      return [Unreachable(s.environment)];
    }
    if sessions[s.environment].current !in c.roles {
      return [NoRole(s.environment)];
    }
    var safe := CheckRow(c.roles, EdgesOf(c.members), s, environment[s.environment].username, sessions[s.environment]);
    return if safe then [] else [NotRestricted(s.environment, s.allowed[0])];
  }

  ghost predicate AllPass(
    roles: map<string, Role>, edges: Edges, environment: map<string, Url>, sessions: map<string, Session>,
    services: seq<Service>)
  {
    forall i | 0 <= i < |services| :: services[i].allowed != [] && Passes(roles, edges, environment, sessions, services[i])
  }

  /** The check finds nothing exactly when every service passes and no two configured usernames are equal. */
  method VerifyIdentities(
    c: Catalogue, environment: map<string, Url>, sessions: map<string, Session>, services: seq<Service>)
    returns (findings: seq<Finding>)
    requires Listed(services)
    ensures findings == [] <==>
            && AllPass(c.roles, EdgesOf(c.members), environment, sessions, services)
            && Distinct(Usernames(environment, services))
  {
    hide Passes, Distinct, Elements, EdgesOf;
    findings := [];
    var usernames: seq<string> := [];
    var n := 0;
    while n < |services|
      invariant n <= |services| && usernames == Usernames(environment, services[..n])
      invariant findings == [] <==> AllPass(c.roles, EdgesOf(c.members), environment, sessions, services[..n])
    {
      var s := services[n];
      assert services[..n + 1] == services[..n] + [s] && services[..n + 1][..n] == services[..n];
      if s.environment in environment {
        usernames := usernames + [environment[s.environment].username];
      }
      var found := CheckService(c, environment, sessions, s);
      findings := findings + found;
      n := n + 1;
    }
    assert services[..n] == services;
    DistinctByCount(usernames);
    if |usernames| != |Elements(usernames)| {
      findings := findings + [NotDistinct];
    }
  }

  // ----------------------------------------------- provisioned, then checked

  /** A provisioned login sits below its group and whatever its group sits below, and nothing else. */
  lemma ProvisionedMemberships(roles: map<string, Role>, members: map<Key, Options>, grantor: string, x: LoginIdentity)
    requires Rooted(roles, members) && Acyclic(EdgesOf(members)) && Provisioned(roles, members, grantor, x)
    ensures Memberships(roles, EdgesOf(members), x.login) == Above(EdgesOf(members), x.group)
    ensures x.login !in Above(EdgesOf(members), x.group)
  {
    hide Above, Managed;
    var edges := EdgesOf(members);
    assert (x.login, x.group) in edges by { assert (x.login, x.group, grantor) in members; }
    AboveOnlyParent(edges, x.login, x.group);
    assert Closed(edges, roles.Keys);
    assert Above(edges, x.group) <= roles.Keys;
  }

  /**
   * A provisioned login, over a connection that is what it says, passes the check exactly when its URL spells the
   * login without escapes, and its group and the roles its group belongs to are the allowed ones.
   */
  lemma ProvisionedPasses(
    roles: map<string, Role>, members: map<Key, Options>, grantor: string, x: LoginIdentity,
    environment: map<string, Url>, sessions: map<string, Session>, s: Service)
    requires Rooted(roles, members) && Acyclic(EdgesOf(members)) && Provisioned(roles, members, grantor, x)
    requires s.allowed != [] && s.allowed[0] == x.group
    requires s.environment in environment
    requires s.environment in sessions && sessions[s.environment] == Session(x.login, x.login)
    ensures Passes(roles, EdgesOf(members), environment, sessions, s) <==>
            && environment[s.environment].username == x.login
            && Above(EdgesOf(members), x.group) == Elements(s.allowed)
  {
    ProvisionedMemberships(roles, members, grantor, x);
    var edges := EdgesOf(members);
    assert (x.login, x.group) in edges by { assert (x.login, x.group, grantor) in members; }
    hide Above, Managed, Memberships, Acyclic, Elements;
    assert x.group in Above(edges, x.login) by { assert Closed(edges, Above(edges, x.login)); }
  }

  lemma {:induction false} UsernamesOfPlan(environment: map<string, Url>, services: seq<Service>, ids: seq<LoginIdentity>)
    requires |ids| == |services|
    requires forall i | 0 <= i < |ids| ::
               services[i].environment in environment && environment[services[i].environment].username == ids[i].login
    ensures Usernames(environment, services) == Logins(ids)
    decreases |ids|
  {
    if ids != [] {
      var n := |ids| - 1;
      UsernamesOfPlan(environment, services[..n], ids[..n]);
      assert Logins(ids) == Logins(ids[..n]) + [ids[n].login];
    }
  }

  /** The connection of a service is the one its login was planned for. */
  ghost predicate Connected(
    environment: map<string, Url>, sessions: map<string, Session>, s: Service, x: LoginIdentity)
  {
    && s.allowed != [] && s.allowed[0] == x.group
    && s.environment in environment && environment[s.environment].username == x.login
    && s.environment in sessions && sessions[s.environment] == Session(x.login, x.login)
  }

  /** The group and the roles it belongs to are the ones the service may be a member of. */
  predicate GroupFits(edges: Edges, x: LoginIdentity, s: Service) { Above(edges, x.group) == Elements(s.allowed) }

  /** After a whole plan was provisioned, the check is clean exactly when every group's own memberships are the allowed ones. */
  lemma ProvisionedPlanPasses(
    roles: map<string, Role>, members: map<Key, Options>, grantor: string, ids: seq<LoginIdentity>,
    environment: map<string, Url>, sessions: map<string, Session>, services: seq<Service>)
    requires Rooted(roles, members) && Acyclic(EdgesOf(members)) && AllProvisioned(roles, members, grantor, ids)
    requires Distinct(Logins(ids)) && |ids| == |services|
    requires forall i | 0 <= i < |ids| :: Connected(environment, sessions, services[i], ids[i])
    ensures AllPass(roles, EdgesOf(members), environment, sessions, services) && Distinct(Usernames(environment, services))
       <==> forall i | 0 <= i < |ids| :: GroupFits(EdgesOf(members), ids[i], services[i])
  {
    ConnectedUsernames(environment, sessions, services, ids);
    hide *;
    forall i | 0 <= i < |ids| ensures Agrees(roles, EdgesOf(members), environment, sessions, services[i], ids[i]) {
      assert Provisioned(roles, members, grantor, ids[i]) by { ProvisionedAt(roles, members, grantor, ids, i); }
      ConnectedPasses(roles, members, grantor, ids[i], environment, sessions, services[i]);
    }
    AllAgree(roles, EdgesOf(members), environment, sessions, services, ids);
  }

  lemma ProvisionedAt(
    roles: map<string, Role>, members: map<Key, Options>, grantor: string, ids: seq<LoginIdentity>, i: nat)
    requires AllProvisioned(roles, members, grantor, ids) && i < |ids|
    ensures Provisioned(roles, members, grantor, ids[i])
  {
    hide Provisioned;
  }

  /** For this login the check and the group's memberships say the same. */
  ghost predicate Agrees(
    roles: map<string, Role>, edges: Edges, environment: map<string, Url>, sessions: map<string, Session>,
    s: Service, x: LoginIdentity)
  {
    s.allowed != [] && (Passes(roles, edges, environment, sessions, s) <==> GroupFits(edges, x, s))
  }

  lemma AllAgree(
    roles: map<string, Role>, edges: Edges, environment: map<string, Url>, sessions: map<string, Session>,
    services: seq<Service>, ids: seq<LoginIdentity>)
    requires |ids| == |services|
    requires forall i | 0 <= i < |ids| :: Agrees(roles, edges, environment, sessions, services[i], ids[i])
    ensures AllPass(roles, edges, environment, sessions, services) <==>
            forall i | 0 <= i < |ids| :: GroupFits(edges, ids[i], services[i])
  {
    hide Passes, GroupFits;
    if forall i | 0 <= i < |ids| :: GroupFits(edges, ids[i], services[i]) {
      forall i | 0 <= i < |services|
        ensures services[i].allowed != [] && Passes(roles, edges, environment, sessions, services[i])
      {
        assert Agrees(roles, edges, environment, sessions, services[i], ids[i]);
      }
    }
    if AllPass(roles, edges, environment, sessions, services) {
      forall i | 0 <= i < |ids| ensures GroupFits(edges, ids[i], services[i]) {
        assert Agrees(roles, edges, environment, sessions, services[i], ids[i]);
      }
    }
  }

  lemma ConnectedPasses(
    roles: map<string, Role>, members: map<Key, Options>, grantor: string, x: LoginIdentity,
    environment: map<string, Url>, sessions: map<string, Session>, s: Service)
    requires Rooted(roles, members) && Acyclic(EdgesOf(members)) && Provisioned(roles, members, grantor, x)
    requires Connected(environment, sessions, s, x)
    ensures Agrees(roles, EdgesOf(members), environment, sessions, s, x)
  {
    ProvisionedPasses(roles, members, grantor, x, environment, sessions, s);
  }

  lemma ConnectedUsernames(
    environment: map<string, Url>, sessions: map<string, Session>, services: seq<Service>, ids: seq<LoginIdentity>)
    requires |ids| == |services|
    requires forall i | 0 <= i < |ids| :: Connected(environment, sessions, services[i], ids[i])
    ensures Usernames(environment, services) == Logins(ids)
  {
    hide Usernames;
    assert forall i | 0 <= i < |ids| :: Connected(environment, sessions, services[i], ids[i]);
    UsernamesOfPlan(environment, services, ids);
  }

  // --------------------------------------------------------------- services

  const SERVICES := [
    Service("MY_DATA_HUB_APPLICATION_DATABASE_URL", ["mdh_application"]),
    Service("MY_DATA_HUB_CONNECTOR_INTAKE_DATABASE_URL", ["mdh_connector_intake"]),
    Service("MY_DATA_HUB_ORCHESTRATOR_DATABASE_URL", ["mdh_orchestrator"]),
    Service("MY_DATA_HUB_MCP_READER_DATABASE_URL", ["mdh_mcp_reader"]),
    Service("MY_DATA_HUB_CANONICAL_COMMITTER_DATABASE_URL", ["mdh_canonical_committer"]),
    Service("MY_DATA_HUB_BACKUP_DATABASE_URL", ["mdh_backup", "pg_read_all_data"]),
    Service("MY_DATA_HUB_MIGRATOR_DATABASE_URL", ["mdh_migrator", "mdh_owner"]),
    Service(
      "MY_DATA_HUB_MONITORING_DATABASE_URL",
      ["mdh_monitoring", "pg_monitor", "pg_read_all_settings", "pg_read_all_stats", "pg_stat_scan_tables"]),
    Service("MY_DATA_HUB_MIGRATION_OPERATOR_DATABASE_URL", ["mdh_migration_operator"])
  ]

  lemma MonitoringDistinct()
    ensures Distinct(["mdh_monitoring", "pg_monitor", "pg_read_all_settings", "pg_read_all_stats", "pg_stat_scan_tables"])
  {
    assert |"mdh_monitoring"| == 14 && |"pg_monitor"| == 10 && |"pg_read_all_settings"| == 20;
    assert |"pg_read_all_stats"| == 17 && |"pg_stat_scan_tables"| == 19;
  }

  lemma PairsDistinct()
    ensures Distinct(["mdh_backup", "pg_read_all_data"]) && Distinct(["mdh_migrator", "mdh_owner"])
  {
    assert |"mdh_backup"| == 10 && |"pg_read_all_data"| == 16 && |"mdh_migrator"| == 12 && |"mdh_owner"| == 9;
  }

  /** The shipped table is one the check can be called with. */
  lemma ServicesListed()
    ensures Listed(SERVICES) && |SERVICES| == 9
  {
    MonitoringDistinct();
    PairsDistinct();
  }

  /** The two shipped tables name the same services and groups in the same order. */
  lemma TablesAgree(i: nat)
    requires i < |SERVICES|
    ensures |IDENTITIES| == |SERVICES| && SERVICES[i].allowed != []
    ensures IDENTITIES[i] == (SERVICES[i].environment, SERVICES[i].allowed[0])
  {
  }
}
