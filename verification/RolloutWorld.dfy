/**
 * The host that an image rollout works on: files, the unit systemd has loaded and the
 * compose containers. Reads tell the truth of the moment or fail. Commands may fail
 * before or after taking effect. Anything else that changes the host between two calls,
 * apart from a starting health check settling, sets `disturbed`.
 */
module RolloutWorld {
  import opened Prelude
  import opened ComposeChain

  const CONTROL_PLANE := "control-plane"

  datatype Health = Starting | Healthy | Unhealthy | NoHealthCheck

  datatype Container = Container(
    id: string, service: string, image: string, revision: string, started: string,
    running: bool, health: Health, configSource: Option<string>, configInEnv: bool)

  /** What a snapshot keeps of one container. */
  datatype Facts = Facts(id: string, image: string, started: string, running: bool)

  function FactsOf(c: Container): Facts { Facts(c.id, c.image, c.started, c.running) }

  /** The texts systemd shows for the loaded unit; an absent reload command is empty. */
  datatype Unit = Unit(start: string, reload: string)

  /** None: the text is refused. Some(None): there is no reload command. */
  function ReloadArgv(u: Unit): Option<Option<seq<string>>> {
    if u.reload == "" then Some(None)
    else if SystemdArgv(u.reload).None? then None
    else Some(SystemdArgv(u.reload))
  }

  datatype Action =
    | WriteFile(path: string, text: string)
    | RemoveFile(path: string)
    | DaemonReload
    | Compose(argv: seq<string>)

  datatype Seen = SawStart(argv: seq<string>) | SawReload(reload: Option<seq<string>>) | SawInventory(found: map<string, Facts>)

  /** One change made by the rollout, with everything it read since the change before. */
  datatype Step = Step(action: Action, seen: seq<Seen>)

  predicate UniqueIds(cs: seq<Container>) {
    forall i, j | 0 <= i < j < |cs| :: cs[i].id != cs[j].id
  }

  predicate SettledOnly(was: Container, now: Container) {
    now == was || (was.health == Starting && now == was.(health := now.health))
  }

  predicate Settled(was: seq<Container>, now: seq<Container>) {
    |now| == |was| && forall i | 0 <= i < |was| :: SettledOnly(was[i], now[i])
  }

  lemma SettledTransitive(a: seq<Container>, b: seq<Container>, c: seq<Container>)
    requires Settled(a, b) && Settled(b, c)
    ensures Settled(a, c)
  {
    forall i | 0 <= i < |a| ensures SettledOnly(a[i], c[i]) {
      assert SettledOnly(a[i], b[i]) && SettledOnly(b[i], c[i]);
    }
  }

  /** `m` lists the containers: every one is labelled, no label repeats and the control plane runs. */
  ghost predicate IsInventory(cs: seq<Container>, m: map<string, Facts>) {
    Lists(cs, m) && CONTROL_PLANE in m && m[CONTROL_PLANE].running
  }

  ghost predicate Lists(cs: seq<Container>, m: map<string, Facts>) {
    && (forall i | 0 <= i < |cs| :: cs[i].service != "" && cs[i].service in m && m[cs[i].service] == FactsOf(cs[i]))
    && (forall i, j | 0 <= i < j < |cs| :: cs[i].service != cs[j].service)
    && (forall name | name in m :: exists i | 0 <= i < |cs| :: cs[i].service == name)
  }

  /** Settling changes nothing a snapshot looks at. */
  lemma ListsSettled(a: seq<Container>, b: seq<Container>, m: map<string, Facts>)
    requires Settled(a, b) && Lists(a, m)
    ensures Lists(b, m)
  {
    forall i | 0 <= i < |a| ensures b[i].service == a[i].service && FactsOf(b[i]) == FactsOf(a[i]) {
      assert SettledOnly(a[i], b[i]);
    }
    forall name | name in m ensures exists i | 0 <= i < |b| :: b[i].service == name {
      var i :| 0 <= i < |a| && a[i].service == name;
      assert b[i].service == name;
    }
    forall i, j | 0 <= i < j < |b| ensures b[i].service != b[j].service {
      assert a[i].service != a[j].service;
    }
  }

  lemma ListsOneMore(cs: seq<Container>, k: nat, m: map<string, Facts>)
    requires k < |cs| && Lists(cs[..k], m)
    requires cs[k].service != "" && cs[k].service !in m
    ensures Lists(cs[..k + 1], m[cs[k].service := FactsOf(cs[k])])
  {
    hide FactsOf;
    var more, m' := cs[..k + 1], m[cs[k].service := FactsOf(cs[k])];
    assert forall i | 0 <= i < k :: more[i] == cs[..k][i];
    forall name | name in m' ensures exists i | 0 <= i < |more| :: more[i].service == name {
      if name in m {
        var i :| 0 <= i < k && cs[..k][i].service == name;
        assert more[i].service == name;
      } else {
        assert more[k].service == name;
      }
    }
  }

  class World {
    const load: Option<string> -> Unit
    const dropin: string
    var files: map<string, string>
    var loaded: Unit
    var containers: seq<Container>
    /** The containers when the rollout last changed or inspected them; since then they only settled. */
    ghost var base: seq<Container>
    ghost var disturbed: bool
    ghost var log: seq<Step>
    ghost var seen: seq<Seen>

    constructor (load: Option<string> -> Unit, dropin: string, files: map<string, string>, loaded: Unit,
                 containers: seq<Container>)
      requires UniqueIds(containers)
      ensures this.load == load && this.dropin == dropin && this.files == files && this.loaded == loaded
      ensures this.containers == containers && Valid() && !disturbed && log == [] && seen == []
    {
      this.load, this.dropin, this.files, this.loaded := load, dropin, files, loaded;
      this.containers, base, disturbed, log, seen := containers, containers, false, [], [];
    }

    ghost predicate Valid() reads this {
      UniqueIds(containers) && UniqueIds(base) && (!disturbed ==> Settled(base, containers))
    }

    function FileAt(path: string): Option<string> reads this {
      if path in files then Some(files[path]) else None
    }

    /** Files and unit are as they were, or the disturbance is on record. */
    twostate predicate Quiet()
      reads this
    {
      && (old(disturbed) ==> disturbed)
      && (!disturbed ==> files == old(files) && loaded == old(loaded))
    }

    /** Time passes: anything may change, and any change that is not settling is a disturbance. */
    method Drift()
      requires Valid()
      modifies this`files, this`loaded, this`containers, this`disturbed
      ensures Valid() && Quiet()
    {
      var wasFiles, wasLoaded, wasContainers := files, loaded, containers;
      files := *;
      loaded := *;
      containers := *;
      if !UniqueIds(containers) {
        containers := wasContainers;
      }
      disturbed := disturbed || files != wasFiles || loaded != wasLoaded || !Settled(wasContainers, containers);
      if !disturbed {
        SettledTransitive(base, wasContainers, containers);
      }
    }

    method ShowStart() returns (r: Option<seq<string>>)
      requires Valid()
      modifies this`files, this`loaded, this`containers, this`disturbed, this`seen
      ensures Valid() && Quiet()
      ensures r.Some? ==> seen == old(seen) + [SawStart(r.value)] && SystemdArgv(loaded.start) == r
      ensures r.None? ==> seen == old(seen)
    {
      Drift();
      r := SystemdArgv(loaded.start);
      var lost := *;
      if lost {
        r := None;
      }
      if r.Some? {
        seen := seen + [SawStart(r.value)];
      }
    }

    method ShowReload() returns (r: Option<Option<seq<string>>>)
      requires Valid()
      modifies this`files, this`loaded, this`containers, this`disturbed, this`seen
      ensures Valid() && Quiet()
      ensures r.Some? ==> seen == old(seen) + [SawReload(r.value)] && ReloadArgv(loaded) == r
      ensures r.None? ==> seen == old(seen)
    {
      Drift();
      r := ReloadArgv(loaded);
      var lost := *;
      if lost {
        r := None;
      }
      if r.Some? {
        seen := seen + [SawReload(r.value)];
      }
    }

    /** A container looked up by its id. */
    method Look(id: string) returns (r: Option<Container>)
      requires Valid()
      modifies this`files, this`loaded, this`containers, this`disturbed
      ensures Valid() && Quiet()
      ensures r.Some? ==> r.value in containers && r.value.id == id
    {
      Drift();
      r := None;
      for i := 0 to |containers|
        invariant r.Some? ==> r.value in containers && r.value.id == id
      {
        if containers[i].id == id {
          r := Some(containers[i]);
        }
      }
      var lost := *;
      if lost {
        r := None;
      }
    }

    /** A look-up whose answer, health included, is kept as the new base. */
    method Inspect(id: string) returns (r: Option<Container>)
      requires Valid()
      modifies this`files, this`loaded, this`containers, this`disturbed, this`base
      ensures Valid() && Quiet()
      ensures r.Some? ==> r.value in base && r.value.id == id
      ensures !disturbed ==> Settled(old(base), base)
    {
      r := Look(id);
      base := containers;
    }

    /** The id printed for the running control-plane container; printing none or several is no id. */
    method RunningControlPlane() returns (r: Option<string>)
      requires Valid()
      modifies this`files, this`loaded, this`containers, this`disturbed
      ensures Valid() && Quiet()
      ensures r.Some? ==> exists c | c in containers :: c.id == r.value && c.service == CONTROL_PLANE && c.running
    {
      Drift();
      r := None;
      var count := 0;
      for i := 0 to |containers|
        invariant r.Some? ==> exists c | c in containers :: c.id == r.value && c.service == CONTROL_PLANE && c.running
      {
        if containers[i].service == CONTROL_PLANE && containers[i].running {
          r, count := Some(containers[i].id), count + 1;
          assert containers[i] in containers;
        }
      }
      var lost := *;
      if lost || count > 1 {
        r := None;
      }
    }

    /** Lists every container and looks each one up; a missing or repeated label is refused. */
    method Snapshot() returns (r: Option<map<string, Facts>>)
      requires Valid()
      modifies this`files, this`loaded, this`containers, this`disturbed, this`seen
      ensures Valid() && Quiet()
      ensures r.Some? ==> seen == old(seen) + [SawInventory(r.value)]
      ensures r.Some? ==> CONTROL_PLANE in r.value && r.value[CONTROL_PLANE].running
      ensures r.Some? && !disturbed ==> IsInventory(base, r.value)
      ensures r.None? ==> seen == old(seen)
    {
      Drift();
      var ids := seq(|containers|, i requires 0 <= i < |containers| reads this => containers[i].id);
      var found: map<string, Facts> := map[];
      for i := 0 to |ids|
        invariant Valid() && Quiet() && seen == old(seen)
        invariant !disturbed ==> |ids| == |base| && forall j | 0 <= j < |ids| :: ids[j] == base[j].id
        invariant !disturbed ==> Lists(base[..i], found)
      {
        var looked := Look(ids[i]);
        if looked.None? || looked.value.service == "" || looked.value.service in found {
          return None;
        }
        var c := looked.value;
        if !disturbed {
          InspectedIsListed(base, containers, i, c);
          ListsOneMore(base, i, found);
        }
        found := found[c.service := FactsOf(c)];
      }
      if CONTROL_PLANE !in found || !found[CONTROL_PLANE].running {
        return None;
      }
      assert !disturbed ==> base[..|ids|] == base;
      seen := seen + [SawInventory(found)];
      return Some(found);
    }

    /** A write that replaces the file in one durable step, or fails without effect. */
    method Atomic(path: string, text: string) returns (ok: bool)
      requires Valid()
      modifies this`files, this`loaded, this`containers, this`disturbed, this`log, this`seen
      ensures Valid()
      ensures old(disturbed) ==> disturbed
      ensures !disturbed ==> loaded == old(loaded)
      ensures !disturbed ==> files == if ok then old(files)[path := text] else old(files)
      ensures ok ==> log == old(log) + [Step(WriteFile(path, text), old(seen))] && seen == []
      ensures !ok ==> log == old(log) && seen == old(seen)
    {
      Drift();
      ok := *;
      if ok {
        files := files[path := text];
        log, seen := log + [Step(WriteFile(path, text), seen)], [];
      }
    }

    method Remove(path: string) returns (ok: bool)
      requires Valid()
      modifies this`files, this`loaded, this`containers, this`disturbed, this`log, this`seen
      ensures Valid()
      ensures old(disturbed) ==> disturbed
      ensures !disturbed ==> loaded == old(loaded)
      ensures !disturbed ==> files == if ok then old(files) - {path} else old(files)
      ensures ok ==> log == old(log) + [Step(RemoveFile(path), old(seen))] && seen == []
      ensures !ok ==> log == old(log) && seen == old(seen)
    {
      Drift();
      ok := *;
      if ok {
        files := files - {path};
        log, seen := log + [Step(RemoveFile(path), seen)], [];
      }
    }

    /** Loads the unit from disk; a lost answer leaves it open whether the unit was loaded. */
    method Reload() returns (ok: bool)
      requires Valid()
      modifies this`files, this`loaded, this`containers, this`disturbed, this`log, this`seen
      ensures Valid()
      ensures log == old(log) + [Step(DaemonReload, old(seen))] && seen == []
      ensures old(disturbed) ==> disturbed
      ensures !disturbed ==> files == old(files)
      ensures !disturbed ==> (loaded == load(FileAt(dropin)) || (!ok && loaded == old(loaded)))
    {
      Drift();
      log, seen := log + [Step(DaemonReload, seen)], [];
      ok := *;
      var reached := *;
      if ok || reached {
        loaded := load(FileAt(dropin));
      }
    }

    /** A compose command: what it does to the containers is not trusted in any way. */
    method RunCompose(argv: seq<string>) returns (ok: bool)
      requires Valid()
      modifies this
      ensures Valid()
      ensures log == old(log) + [Step(Compose(argv), old(seen))] && seen == []
      ensures old(disturbed) ==> disturbed
      ensures !disturbed ==> files == old(files) && loaded == old(loaded)
    {
      Drift();
      log, seen := log + [Step(Compose(argv), seen)], [];
      var was := containers;
      containers := *;
      if !UniqueIds(containers) {
        containers := was;
      }
      base := containers;
      ok := *;
    }
  }

  /** The base container that has settled into `c`. */
  ghost function BaseOf(base: seq<Container>, now: seq<Container>, c: Container): (b: Container)
    requires Settled(base, now) && UniqueIds(base) && c in now
    ensures b in base && SettledOnly(b, c)
    ensures forall d | d in base && d.id == c.id :: d == b
  {
    var k :| 0 <= k < |now| && now[k] == c;
    assert SettledOnly(base[k], now[k]);
    base[k]
  }

  /** With unique ids, inspecting a listed id yields that container, settled at most. */
  lemma InspectedIsListed(listed: seq<Container>, now: seq<Container>, i: nat, c: Container)
    requires Settled(listed, now) && UniqueIds(listed) && UniqueIds(now)
    requires i < |listed| && c in now && c.id == listed[i].id
    ensures FactsOf(c) == FactsOf(listed[i]) && c.service == listed[i].service
  {
    var k :| 0 <= k < |now| && now[k] == c;
    assert SettledOnly(listed[k], now[k]) && SettledOnly(listed[i], now[i]);
    assert now[i].id == now[k].id;
  }
}
