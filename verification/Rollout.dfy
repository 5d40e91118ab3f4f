/**
 * The guarded image rollout: preparation, the drop-in and container switch, the undo
 * before the switch and the rollback after it.
 */
module Rollout {
  import opened Prelude
  import opened ComposeChain
  import opened RolloutWorld

  /** `approved` stands for the checks on the mounted file: absolute, regular, private, owned, bounded. */
  datatype ConfigFile = ConfigFile(path: string, approved: bool)

  datatype Request = Request(
    expectedStart: Option<string>, expectedStartSha256: Option<string>,
    expectedImage: string, targetTag: string, override: string,
    apply: bool, timeout: nat, config: Option<ConfigFile>)

  /** The compose overlay written for the control plane. */
  datatype Overlay = Overlay(image: string, revision: Option<string>, config: Option<string>)

  /** Digest and JSON printing, which stay uninterpreted. */
  datatype Tools = Tools(sha256: string -> string, json: Overlay -> string)

  datatype Plan = Plan(
    start: seq<string>, prefix: seq<string>, suffix: seq<string>,
    reload: Option<seq<string>>, reloadSuffix: seq<string>,
    before: map<string, Facts>, target: string, prior: Option<string>)

  datatype Report =
    | Refused                 // an error before anything was activated, outside the guarded part
    | Planned(command: seq<string>)
    | HealthyReport
    | PreparationFailed       // "preparation failed; service unchanged"
    | IneffectiveRejected     // "ineffective drop-in rejected before container switch"
    | RestorationUnconfirmed
    | RolledBack              // "rollout failed; prior startup and image restored"
    | RollbackUnconfirmed
    | HandlerFailed           // an error raised while undoing or rolling back

  // -------------------------------------------------------------- shapes

  predicate ImageId(s: string) { "sha256:" <= s && LowerHex(s[7..], 64) }

  const TAG_PREFIX := "my-data-hub-control-plane:"

  predicate ImageTag(s: string) { TAG_PREFIX <= s && LowerHex(s[|TAG_PREFIX|..], 40) }

  function Revision(tag: string): string
    requires ImageTag(tag)
  {
    tag[|TAG_PREFIX|..]
  }

  function ConfigPath(req: Request): Option<string> {
    if req.config.Some? then Some(req.config.value.path) else None
  }

  predicate SameImage(req: Request, p: Plan) { p.target == req.expectedImage }

  /** Python truth: an empty argument list counts as no reload command. */
  predicate HasReload(p: Plan) { p.reload.Some? && p.reload.value != [] }

  function NewPrefix(req: Request, p: Plan): seq<string> { p.prefix + ["-f", req.override] }
  function RollbackPath(req: Request): string { req.override + ".rollback.json" }
  function RollbackPrefix(req: Request, p: Plan): seq<string> { p.prefix + ["-f", RollbackPath(req)] }

  function ReloadChain(prefix: seq<string>, p: Plan): Option<seq<string>> {
    if HasReload(p) then Some(prefix + p.reloadSuffix) else None
  }

  function Up(prefix: seq<string>): seq<string> { prefix + ["up", "-d", "--no-deps", CONTROL_PLANE] }

  function ServiceText(prefix: seq<string>, p: Plan): string {
    "[Service]\nExecStart=\nExecStart=" + UnitLine(prefix + p.suffix) + "\n" +
    if HasReload(p) then "ExecReload=\nExecReload=" + UnitLine(prefix + p.reloadSuffix) + "\n" else ""
  }

  function NewUnit(req: Request, p: Plan): string { ServiceText(NewPrefix(req, p), p) }

  function RollbackUnit(req: Request, p: Plan): string {
    (if p.prior.Some? then p.prior.value else "") + "\n" + ServiceText(RollbackPrefix(req, p), p)
  }

  /** A file read in text mode. */
  function ReadText(file: Option<string>): Option<string> {
    if file.Some? then Some(Translate(file.value)) else None
  }

  function PinOld(tools: Tools, req: Request): string { tools.json(Overlay(req.expectedImage, None, None)) }

  function PinNew(tools: Tools, req: Request, p: Plan): string
    requires ImageTag(req.targetTag)
  {
    tools.json(Overlay(p.target, Some(Revision(req.targetTag)), ConfigPath(req)))
  }

  // -------------------------------------------------------- what a plan is

  predicate GuardHolds(tools: Tools, req: Request, start: seq<string>) {
    match (req.expectedStart, req.expectedStartSha256)
    case (Some(text), None) => TextGuard(start, text)
    case (None, Some(digest)) => LowerHex(digest, 64) && HashGuard(tools.sha256, start, digest)
    case _ => false
  }

  /** Everything a plan promises about the request, whatever the host does. */
  ghost predicate Sound(tools: Tools, req: Request, p: Plan) {
    && ImageTag(req.targetTag) && ImageId(req.expectedImage)
    && GuardHolds(tools, req, p.start) && Divided(p)
    && CONTROL_PLANE in p.before && p.before[CONTROL_PLANE].image == req.expectedImage
    && Targeted(req, p)
  }

  /** Start and reload share one accepted compose prefix. */
  ghost predicate Divided(p: Plan) {
    && PartsOf(p.start) == Some(Parts(p.prefix, p.suffix))
    && (HasReload(p) ==> PartsOf(p.reload.value) == Some(Parts(p.prefix, p.reloadSuffix)))
  }

  ghost predicate Targeted(req: Request, p: Plan) {
    && ImageId(p.target)
    && (SameImage(req, p) ==> req.config.Some?)
    && (req.config.Some? ==> req.config.value.approved)
    && Absolute(req.override) && PartsOf(NewPrefix(req, p) + p.suffix).Some?
  }

  /** The plan describes this host. */
  ghost predicate Describes(w: World, p: Plan)
    reads w
  {
    SystemdArgv(w.loaded.start) == Some(p.start) && ReloadArgv(w.loaded) == Some(p.reload) && IsInventory(w.base, p.before)
  }

  // ------------------------------------------------------- change histories

  ghost function Staged(tools: Tools, req: Request, p: Plan): seq<Step>
    requires ImageTag(req.targetTag)
  {
    [ Step(WriteFile(RollbackPath(req), PinOld(tools, req)),
           [SawStart(p.start), SawReload(p.reload), SawInventory(p.before)]),
      Step(WriteFile(req.override, PinNew(tools, req, p)), []) ]
  }

  /** The drop-in is written right after the start and the inventory were read again. */
  ghost function Activated(tools: Tools, dropin: string, req: Request, p: Plan): seq<Step>
    requires ImageTag(req.targetTag)
  {
    Staged(tools, req, p) +
    [ Step(WriteFile(dropin, NewUnit(req, p)), [SawStart(p.start), SawInventory(p.before)]), Step(DaemonReload, []) ]
  }

  /** The container is switched right after start and reload were both read as the new chain. */
  ghost function Switched(tools: Tools, dropin: string, req: Request, p: Plan): seq<Step>
    requires ImageTag(req.targetTag)
  {
    Activated(tools, dropin, req, p) +
    [ Step(Compose(Up(NewPrefix(req, p))),
           [SawStart(NewPrefix(req, p) + p.suffix), SawReload(ReloadChain(NewPrefix(req, p), p))]) ]
  }

  function RestoreAction(dropin: string, p: Plan): Action {
    if p.prior.None? then RemoveFile(dropin) else WriteFile(dropin, p.prior.value)
  }

  ghost predicate Undone(tools: Tools, dropin: string, req: Request, p: Plan, log: seq<Step>)
    requires ImageTag(req.targetTag)
  {
    exists seen :: log == Activated(tools, dropin, req, p) + [Step(RestoreAction(dropin, p), seen), Step(DaemonReload, [])]
  }

  ghost predicate Reverted(tools: Tools, dropin: string, req: Request, p: Plan, log: seq<Step>)
    requires ImageTag(req.targetTag)
  {
    exists seen ::
      log == Switched(tools, dropin, req, p) +
             [ Step(WriteFile(dropin, RollbackUnit(req, p)), seen), Step(DaemonReload, []),
               Step(Compose(Up(RollbackPrefix(req, p))), []) ]
  }

  /** A history cut short by an error raised while undoing or rolling back. */
  ghost predicate CutShort(tools: Tools, dropin: string, req: Request, p: Plan, log: seq<Step>)
    requires ImageTag(req.targetTag)
  {
    exists full ::
      && (Undone(tools, dropin, req, p, full) || Reverted(tools, dropin, req, p, full))
      && Activated(tools, dropin, req, p) <= log <= full
  }

  // -------------------------------------------------------- what a report means

  function FilesStaged(tools: Tools, req: Request, p: Plan, files: map<string, string>): map<string, string>
    requires ImageTag(req.targetTag)
  {
    files[RollbackPath(req) := PinOld(tools, req)][req.override := PinNew(tools, req, p)]
  }

  predicate OthersEqual(a: map<string, Facts>, b: map<string, Facts>) {
    a - {CONTROL_PLANE} == b - {CONTROL_PLANE}
  }

  predicate OnTarget(req: Request, p: Plan, c: Container)
    requires ImageTag(req.targetTag)
  {
    && c.image == p.target && c.revision == Revision(req.targetTag) && c.running && c.health == Healthy
    && (SameImage(req, p) ==> c.configSource == ConfigPath(req) && c.configInEnv)
  }

  /** Target image running and healthy, the new chain effective, the other services as before. */
  ghost predicate HealthyTruth(w: World, req: Request, p: Plan)
    requires ImageTag(req.targetTag)
    reads w
  {
    && SystemdArgv(w.loaded.start) == Some(NewPrefix(req, p) + p.suffix)
    && ReloadArgv(w.loaded) == Some(ReloadChain(NewPrefix(req, p), p))
    && (exists c | c in w.containers :: c.service == CONTROL_PLANE && OnTarget(req, p, c))
    && (exists m :: IsInventory(w.containers, m) && OthersEqual(m, p.before))
  }

  /** Old image healthy, the rollback chain effective, the other services as before. */
  ghost predicate RolledBackTruth(w: World, req: Request, p: Plan)
    reads w
  {
    && SystemdArgv(w.loaded.start) == Some(RollbackPrefix(req, p) + p.suffix)
    && (exists c | c in w.containers :: c.service == CONTROL_PLANE && c.image == req.expectedImage && c.running && c.health == Healthy)
    && (exists m :: IsInventory(w.containers, m) && OthersEqual(m, p.before))
  }

  // ------------------------------------------------------------------ steps

  /** The two commands as one plan, refused unless both are accepted with the same prefix. */
  method Divide(start: seq<string>, reload: Option<seq<string>>) returns (r: Option<Plan>)
    ensures r.Some? ==> r.value.start == start && r.value.reload == reload && Divided(r.value) && r.value.prior == None
  {
    var parts := ComposeParts(start);
    if parts.None? {
      return None;
    }
    var reloadSuffix := [];
    if reload.Some? && reload.value != [] {
      var reloadParts := ComposeParts(reload.value);
      if reloadParts.None? || reloadParts.value.prefix != parts.value.prefix {
        return None;
      }
      reloadSuffix := reloadParts.value.suffix;
    }
    return Some(Plan(start, parts.value.prefix, parts.value.suffix, reload, reloadSuffix, map[], "", None));
  }

  /** The loaded commands, divided; None when a read fails or a guard refuses. */
  method ReadUnit(tools: Tools, w: World, req: Request) returns (r: Option<Plan>)
    requires w.Valid() && w.seen == []
    modifies w`files, w`loaded, w`containers, w`disturbed, w`seen
    ensures w.Valid() && w.Quiet()
    ensures r.Some? ==> GuardHolds(tools, req, r.value.start) && Divided(r.value)
    ensures r.Some? ==> w.seen == [SawStart(r.value.start), SawReload(r.value.reload)] && r.value.prior == None
    ensures r.Some? && !w.disturbed ==> SystemdArgv(w.loaded.start) == Some(r.value.start)
    ensures r.Some? && !w.disturbed ==> ReloadArgv(w.loaded) == Some(r.value.reload)
  {
    hide SystemdArgv, ReloadArgv, GuardHolds, PartsOf;
    var start := w.ShowStart();
    if start.None? || !GuardHolds(tools, req, start.value) {
      return None;
    }
    var reload := w.ShowReload();
    if reload.None? {
      return None;
    }
    r := Divide(start.value, reload.value);
  }

  /** The prepared image and configuration, and the refusal of a rollout that would change nothing. */
  method ChooseTarget(w: World, req: Request, p: Plan) returns (r: Option<Plan>)
    requires w.Valid() && CONTROL_PLANE in p.before
    modifies w`files, w`loaded, w`containers, w`disturbed
    ensures w.Valid() && w.Quiet()
    ensures r.Some? ==> r.value == p.(target := r.value.target) && Targeted(req, r.value)
  {
    var target: string := *;
    if !ImageId(target) || (target == req.expectedImage && req.config.None?) || !Absolute(req.override) {
      return None;
    }
    var newParts := ComposeParts(NewPrefix(req, p) + p.suffix);
    if newParts.None? || (req.config.Some? && !req.config.value.approved) {
      return None;
    }
    if target == req.expectedImage {
      var active := ConfigActive(w, req, p.before[CONTROL_PLANE].id);
      if active.None? || active.value {
        return None;
      }
    }
    return Some(p.(target := target));
  }

  /** Reads and guards only: no change is made to the host. */
  method Prepare(tools: Tools, w: World, req: Request) returns (r: Option<Plan>)
    requires w.Valid() && w.seen == []
    modifies w`files, w`loaded, w`containers, w`disturbed, w`seen
    ensures w.Valid() && w.Quiet()
    ensures r.Some? ==> Sound(tools, req, r.value) && r.value.prior == None
    ensures r.Some? ==> w.seen == [SawStart(r.value.start), SawReload(r.value.reload), SawInventory(r.value.before)]
    ensures r.Some? && !w.disturbed ==> Describes(w, r.value)
  {
    hide SystemdArgv, ReloadArgv, GuardHolds, PartsOf, ImageTag, ImageId;
    if !ImageTag(req.targetTag) || !ImageId(req.expectedImage) {
      return None;
    }
    var unit := ReadUnit(tools, w, req);
    if unit.None? {
      return None;
    }
    var active := *;
    if !active {
      return None;
    }
    var before := w.Snapshot();
    if before.None? || before.value[CONTROL_PLANE].image != req.expectedImage {
      return None;
    }
    r := ChooseTarget(w, req, unit.value.(before := before.value));
  }

  /** Whether the exact mount and the variable are both present on one container. */
  method ConfigActive(w: World, req: Request, id: string) returns (r: Option<bool>)
    requires w.Valid() && req.config.Some?
    modifies w`files, w`loaded, w`containers, w`disturbed
    ensures w.Valid() && w.Quiet()
    ensures r == Some(true) && !w.disturbed ==>
      exists c | c in w.base :: c.id == id && c.configSource == ConfigPath(req) && c.configInEnv
  {
    var mount := w.Look(id);
    if mount.None? {
      return None;
    }
    ghost var b := if w.disturbed then mount.value else BaseOf(w.base, w.containers, mount.value);
    var env := w.Look(id);
    if env.None? {
      return None;
    }
    if !w.disturbed {
      assert b == BaseOf(w.base, w.containers, env.value);
    }
    r := Some(mount.value.configSource == ConfigPath(req) && env.value.configInEnv);
  }

  /** Polls until the running control plane is on target; None when a read fails or time is up. */
  method AwaitTarget(w: World, req: Request, p: Plan) returns (r: Option<Container>)
    requires w.Valid() && ImageTag(req.targetTag)
    modifies w`files, w`loaded, w`containers, w`disturbed, w`base
    ensures w.Valid() && w.Quiet()
    ensures r.Some? ==> r.value in w.base && r.value.image == p.target && r.value.running
    ensures r.Some? ==> r.value.revision == Revision(req.targetTag) && r.value.health == Healthy
    ensures r.Some? && !w.disturbed ==> r.value.service == CONTROL_PLANE
  {
    var elapsed: nat := 0;
    while true
      invariant w.Valid() && w.Quiet()
      decreases req.timeout - elapsed
    {
      var cid := w.RunningControlPlane();
      if cid.None? {
        return None;
      }
      ghost var b := w.base;
      var current := w.Inspect(cid.value);
      if current.None? {
        return None;
      }
      var c := current.value;
      if c.image == p.target && c.revision == Revision(req.targetTag) && c.running && c.health == Healthy {
        if !w.disturbed {
          ghost var was := BaseOf(b, w.base, c);
        }
        return Some(c);
      }
      if elapsed >= req.timeout {
        return None;
      }
      var extra: int := *;
      elapsed := elapsed + if extra > 0 then 1 + extra else 1;
    }
  }

  datatype Progress = NotActivated | ActivatedOnly | SwitchedOnly | Finished

  /** Rechecks the start and the inventory, then writes the drop-in. */
  method Recheck(w: World, p: Plan, unit: string) returns (wrote: bool)
    requires w.Valid() && w.seen == []
    modifies w`files, w`loaded, w`containers, w`disturbed, w`log, w`seen
    ensures w.Valid() && (old(w.disturbed) ==> w.disturbed)
    ensures !w.disturbed ==> w.loaded == old(w.loaded)
    ensures wrote ==> w.log == old(w.log) + [Step(WriteFile(w.dropin, unit), [SawStart(p.start), SawInventory(p.before)])]
    ensures wrote ==> w.seen == []
    ensures !wrote ==> w.log == old(w.log)
    ensures !w.disturbed ==> w.files == if wrote then old(w.files)[w.dropin := unit] else old(w.files)
  {
    var again := w.ShowStart();
    if again != Some(p.start) {
      return false;
    }
    var inventory := w.Snapshot();
    if inventory != Some(p.before) {
      return false;
    }
    assert w.seen == [SawStart(p.start), SawInventory(p.before)];
    wrote := w.Atomic(w.dropin, unit);
  }

  /** Loads the drop-in and switches the container only once the loaded commands are the new chain. */
  method Effective(w: World, chain: seq<string>, reloadChain: Option<seq<string>>, up: seq<string>)
    returns (r: Progress, answered: bool)
    requires w.Valid() && w.seen == []
    modifies w
    ensures w.Valid() && (old(w.disturbed) ==> w.disturbed)
    ensures r == ActivatedOnly || r == SwitchedOnly
    ensures r == ActivatedOnly ==> w.log == old(w.log) + [Step(DaemonReload, [])] && w.base == old(w.base)
    ensures r == SwitchedOnly ==>
      w.log == old(w.log) + [Step(DaemonReload, []), Step(Compose(up), [SawStart(chain), SawReload(reloadChain)])]
    ensures !w.disturbed ==> w.files == old(w.files)
    ensures r == SwitchedOnly && !w.disturbed ==> ReloadArgv(w.loaded) == Some(reloadChain)
  {
    hide SystemdArgv, ReloadArgv, UniqueIds, Settled;
    var reloaded := w.Reload();
    if !reloaded {
      return ActivatedOnly, false;
    }
    var start := w.ShowStart();
    if start != Some(chain) {
      return ActivatedOnly, false;
    }
    var reload := w.ShowReload();
    if reload != Some(reloadChain) {
      return ActivatedOnly, false;
    }
    assert w.seen == [SawStart(chain), SawReload(reloadChain)];
    answered := w.RunCompose(up);
    r := SwitchedOnly;
  }

  /** The guarded part: recheck, activate the drop-in, confirm it is effective, switch, confirm health. */
  method Switch(tools: Tools, w: World, req: Request, p: Plan) returns (r: Progress)
    requires w.Valid() && Sound(tools, req, p)
    requires w.log == Staged(tools, req, p) && w.seen == []
    modifies w
    ensures w.Valid() && (old(w.disturbed) ==> w.disturbed)
    ensures r == NotActivated ==> w.log == Staged(tools, req, p) && (!w.disturbed ==> w.files == old(w.files))
    ensures r == NotActivated && !w.disturbed ==> w.loaded == old(w.loaded)
    ensures r == ActivatedOnly ==> w.log == Activated(tools, w.dropin, req, p)
    ensures r == SwitchedOnly || r == Finished ==> w.log == Switched(tools, w.dropin, req, p)
    ensures r != NotActivated && !w.disturbed ==> w.files == old(w.files)[w.dropin := NewUnit(req, p)]
    ensures r == NotActivated || r == ActivatedOnly ==> w.base == old(w.base)
    ensures r == Finished && !w.disturbed ==> HealthyTruth(w, req, p)
  {
    hide SystemdArgv, ReloadArgv, PartsOf, NewUnit, PinNew, PinOld, GuardHolds, UnitLine, ImageId, HealthyTruth, ImageTag;
    var wrote := Recheck(w, p, NewUnit(req, p));
    if !wrote {
      return NotActivated;
    }
    var prefix := NewPrefix(req, p);
    var answered;
    r, answered := Effective(w, prefix + p.suffix, ReloadChain(prefix, p), Up(prefix));
    if r == SwitchedOnly && answered {
      r := ConfirmTarget(w, req, p);
    }
  }

  /** Health, configuration, the other services and the persistent start, all read after the switch. */
  method ConfirmTarget(w: World, req: Request, p: Plan) returns (r: Progress)
    requires w.Valid() && ImageTag(req.targetTag)
    requires SameImage(req, p) ==> req.config.Some?
    requires !w.disturbed ==> ReloadArgv(w.loaded) == Some(ReloadChain(NewPrefix(req, p), p))
    modifies w`files, w`loaded, w`containers, w`disturbed, w`base, w`seen
    ensures w.Valid() && w.Quiet()
    ensures r == SwitchedOnly || r == Finished
    ensures r == Finished && !w.disturbed ==> HealthyTruth(w, req, p)
  {
    hide SystemdArgv, ReloadArgv, Revision, ImageTag, Lists, UniqueIds, Settled, OthersEqual, NewPrefix, ReloadChain;
    var found := AwaitTarget(w, req, p);
    if found.None? {
      return SwitchedOnly;
    }
    if SameImage(req, p) {
      var active := ConfigActive(w, req, found.value.id);
      if active != Some(true) {
        return SwitchedOnly;
      }
    }
    var after := w.Snapshot();
    if after.None? || !OthersEqual(after.value, p.before) {
      return SwitchedOnly;
    }
    var start := w.ShowStart();
    if start != Some(NewPrefix(req, p) + p.suffix) {
      return SwitchedOnly;
    }
    if !w.disturbed {
      assert OnTarget(req, p, found.value) by {
        if SameImage(req, p) {
          UniqueInBase(w.base, found.value);
        }
      }
      StaysHealthy(w.base, w.containers, found.value);
      ListsSettled(w.base, w.containers, after.value);
    }
    return Finished;
  }

  lemma UniqueInBase(base: seq<Container>, c: Container)
    requires UniqueIds(base) && c in base
    ensures forall d | d in base && d.id == c.id :: d == c
  {
  }

  /** A container that was healthy in the base is still there unchanged. */
  lemma StaysHealthy(base: seq<Container>, now: seq<Container>, c: Container)
    requires Settled(base, now) && c in base && c.health == Healthy
    ensures c in now
  {
    var i :| 0 <= i < |base| && base[i] == c;
    assert SettledOnly(base[i], now[i]);
  }

  /** Before the switch: puts the drop-in back, reloads and compares everything with the start. */
  method Undo(w: World, p: Plan) returns (r: Report)
    requires w.Valid()
    modifies w`files, w`loaded, w`containers, w`disturbed, w`log, w`seen
    ensures w.Valid() && (old(w.disturbed) ==> w.disturbed)
    ensures r == IneffectiveRejected || r == RestorationUnconfirmed || r == HandlerFailed
    ensures var full := old(w.log) + [Step(RestoreAction(w.dropin, p), old(w.seen)), Step(DaemonReload, [])];
            old(w.log) <= w.log <= full && (r != HandlerFailed ==> w.log == full)
    ensures r != HandlerFailed && !w.disturbed ==>
              w.files == if p.prior.Some? then old(w.files)[w.dropin := p.prior.value] else old(w.files) - {w.dropin}
    ensures r == IneffectiveRejected && !w.disturbed ==> Describes(w, p)
  {
    hide SystemdArgv, ReloadArgv, UniqueIds, Settled, IsInventory;
    var restored;
    if p.prior.None? {
      restored := w.Remove(w.dropin);
    } else {
      restored := w.Atomic(w.dropin, p.prior.value);
    }
    if !restored {
      return HandlerFailed;
    }
    var reloaded := w.Reload();
    if !reloaded {
      return HandlerFailed;
    }
    var start := w.ShowStart();
    if start.None? {
      return HandlerFailed;
    }
    var reload := w.ShowReload();
    if reload.None? {
      return HandlerFailed;
    }
    if start != Some(p.start) || reload != Some(p.reload) {
      return RestorationUnconfirmed;
    }
    var inventory := w.Snapshot();
    if inventory.None? {
      return HandlerFailed;
    }
    return if inventory == Some(p.before) then IneffectiveRejected else RestorationUnconfirmed;
  }

  /** After the switch: pins the old image in the drop-in, reloads, switches back and confirms. */
  method RollBack(w: World, req: Request, p: Plan) returns (r: Report)
    requires w.Valid()
    modifies w
    ensures w.Valid() && (old(w.disturbed) ==> w.disturbed)
    ensures r == RolledBack || r == RollbackUnconfirmed || r == HandlerFailed
    ensures var full := old(w.log) + [ Step(WriteFile(w.dropin, RollbackUnit(req, p)), old(w.seen)), Step(DaemonReload, []),
                                       Step(Compose(Up(RollbackPrefix(req, p))), []) ];
            old(w.log) <= w.log <= full && (r != HandlerFailed ==> w.log == full)
    ensures r != HandlerFailed && !w.disturbed ==> w.files == old(w.files)[w.dropin := RollbackUnit(req, p)]
    ensures r == RolledBack && !w.disturbed ==> RolledBackTruth(w, req, p)
  {
    var wrote := w.Atomic(w.dropin, RollbackUnit(req, p));
    if !wrote {
      return HandlerFailed;
    }
    var reloaded := w.Reload();
    if !reloaded {
      return HandlerFailed;
    }
    var up := w.RunCompose(Up(RollbackPrefix(req, p)));
    if !up {
      return HandlerFailed;
    }
    r := ConfirmRollback(w, req, p);
  }

  /** Polls until the old image is listed and its container is healthy. */
  method AwaitOldImage(w: World, req: Request) returns (r: Report, restored: map<string, Facts>, c: Container)
    requires w.Valid()
    modifies w`files, w`loaded, w`containers, w`disturbed, w`base, w`seen
    ensures w.Valid() && w.Quiet()
    ensures r == RolledBack || r == RollbackUnconfirmed || r == HandlerFailed
    ensures r == RolledBack && !w.disturbed ==> OldImage(w.base, req, restored, c)
  {
    hide SystemdArgv, ReloadArgv;
    restored, c := *, *;
    var elapsed: nat := 0;
    while true
      invariant w.Valid() && w.Quiet()
      decreases req.timeout - elapsed
    {
      var listed := w.Snapshot();
      if listed.None? {
        return HandlerFailed, restored, c;
      }
      restored := listed.value;
      ghost var b := w.base;
      var inspected := w.Inspect(restored[CONTROL_PLANE].id);
      if inspected.None? {
        return HandlerFailed, restored, c;
      }
      c := inspected.value;
      if restored[CONTROL_PLANE].image == req.expectedImage && c.health == Healthy {
        if !w.disturbed {
          ListsSettled(b, w.base, restored);
          ControlPlaneOf(w.base, restored, c);
        }
        return RolledBack, restored, c;
      }
      if elapsed >= req.timeout {
        return RollbackUnconfirmed, restored, c;
      }
      var extra: int := *;
      elapsed := elapsed + if extra > 0 then 1 + extra else 1;
    }
  }

  /** The old image is healthy again, the start is the rollback chain and no other service changed. */
  method ConfirmRollback(w: World, req: Request, p: Plan) returns (r: Report)
    requires w.Valid()
    modifies w`files, w`loaded, w`containers, w`disturbed, w`base, w`seen
    ensures w.Valid() && w.Quiet()
    ensures r == RolledBack || r == RollbackUnconfirmed || r == HandlerFailed
    ensures r == RolledBack && !w.disturbed ==> RolledBackTruth(w, req, p)
  {
    hide SystemdArgv, ReloadArgv, Lists, UniqueIds, Settled, OthersEqual, RollbackPrefix;
    var restored, c;
    r, restored, c := AwaitOldImage(w, req);
    if r != RolledBack {
      return;
    }
    var start := w.ShowStart();
    if start.None? {
      return HandlerFailed;
    }
    if start != Some(RollbackPrefix(req, p) + p.suffix) || !OthersEqual(restored, p.before) {
      return RollbackUnconfirmed;
    }
    if !w.disturbed {
      StaysHealthy(w.base, w.containers, c);
      ListsSettled(w.base, w.containers, restored);
    }
  }

  ghost predicate OldImage(base: seq<Container>, req: Request, m: map<string, Facts>, c: Container) {
    && IsInventory(base, m) && c in base
    && c.service == CONTROL_PLANE && c.image == req.expectedImage && c.running && c.health == Healthy
  }

  /** The container with the listed control-plane id is the listed control plane. */
  lemma ControlPlaneOf(cs: seq<Container>, m: map<string, Facts>, c: Container)
    requires IsInventory(cs, m) && UniqueIds(cs) && c in cs && c.id == m[CONTROL_PLANE].id
    ensures c.service == CONTROL_PLANE && FactsOf(c) == m[CONTROL_PLANE]
  {
    var i :| 0 <= i < |cs| && cs[i].service == CONTROL_PLANE;
    var k :| 0 <= k < |cs| && cs[k] == c;
    assert cs[i].id == cs[k].id;
  }

  /** Writes both overlays to fresh paths; None means an error before the guarded part. */
  method Stage(tools: Tools, w: World, req: Request, prepared: Plan) returns (r: Option<Plan>)
    requires w.Valid() && Sound(tools, req, prepared) && w.log == []
    requires w.seen == [SawStart(prepared.start), SawReload(prepared.reload), SawInventory(prepared.before)]
    modifies w`files, w`loaded, w`containers, w`disturbed, w`log, w`seen
    ensures w.Valid() && (old(w.disturbed) ==> w.disturbed)
    ensures !w.disturbed ==> w.loaded == old(w.loaded)
    ensures r.None? ==> w.log <= Staged(tools, req, prepared)[..1]
    ensures r.None? && w.log == [] && !w.disturbed ==> w.files == old(w.files)
    ensures r.Some? ==> r.value == prepared.(prior := r.value.prior) && Sound(tools, req, r.value)
    ensures r.Some? ==> w.log == Staged(tools, req, r.value) && w.seen == []
    ensures r.Some? && !w.disturbed ==> r.value.prior == ReadText(old(w.FileAt(w.dropin)))
    ensures r.Some? && !w.disturbed ==> w.files == FilesStaged(tools, req, r.value, old(w.files))
    ensures r.Some? && !w.disturbed ==> req.override !in old(w.files) && RollbackPath(req) !in old(w.files)
  {
    hide PartsOf, GuardHolds, ImageId, UniqueIds, Settled, PinOld, PinNew, RollbackPath;
    var rollbackPath := RollbackPath(req);
    var safe := *;
    if req.override in w.files || rollbackPath in w.files || !safe {
      return None;
    }
    var p := prepared.(prior := ReadText(w.FileAt(w.dropin)));
    var rollbackParts := ComposeParts(RollbackPrefix(req, p) + p.suffix);
    if rollbackParts.None? {
      return None;
    }
    var wroteOld := w.Atomic(rollbackPath, PinOld(tools, req));
    if !wroteOld {
      return None;
    }
    var wroteNew := w.Atomic(req.override, PinNew(tools, req, p));
    if !wroteNew {
      return None;
    }
    return Some(p);
  }

  lemma CutShortUndo(tools: Tools, dropin: string, req: Request, p: Plan, log: seq<Step>, seen: seq<Seen>)
    requires ImageTag(req.targetTag)
    requires var done := Activated(tools, dropin, req, p);
             done <= log <= done + [Step(RestoreAction(dropin, p), seen), Step(DaemonReload, [])]
    ensures CutShort(tools, dropin, req, p, log)
  {
    hide Activated, Switched, RestoreAction;
    var full := Activated(tools, dropin, req, p) + [Step(RestoreAction(dropin, p), seen), Step(DaemonReload, [])];
    assert Undone(tools, dropin, req, p, full);
  }

  lemma CutShortRevert(tools: Tools, dropin: string, req: Request, p: Plan, log: seq<Step>, seen: seq<Seen>)
    requires ImageTag(req.targetTag)
    requires var done := Switched(tools, dropin, req, p);
             done <= log <= done + [ Step(WriteFile(dropin, RollbackUnit(req, p)), seen), Step(DaemonReload, []),
                                     Step(Compose(Up(RollbackPrefix(req, p))), []) ]
    ensures CutShort(tools, dropin, req, p, log)
  {
    hide Activated, RollbackUnit, RollbackPrefix, Up;
    var full := Switched(tools, dropin, req, p) +
                [ Step(WriteFile(dropin, RollbackUnit(req, p)), seen), Step(DaemonReload, []),
                  Step(Compose(Up(RollbackPrefix(req, p))), []) ];
    assert Reverted(tools, dropin, req, p, full);
    assert Activated(tools, dropin, req, p) <= Switched(tools, dropin, req, p);
  }

  /** The history of changes that goes with each report of the guarded part. */
  ghost predicate History(tools: Tools, dropin: string, req: Request, p: Plan, r: Report, log: seq<Step>)
    requires ImageTag(req.targetTag)
  {
    match r
    case PreparationFailed => log == Staged(tools, req, p)
    case HealthyReport => log == Switched(tools, dropin, req, p)
    case IneffectiveRejected => Undone(tools, dropin, req, p, log)
    case RestorationUnconfirmed => Undone(tools, dropin, req, p, log)
    case RolledBack => Reverted(tools, dropin, req, p, log)
    case RollbackUnconfirmed => Reverted(tools, dropin, req, p, log)
    case HandlerFailed => CutShort(tools, dropin, req, p, log)
    case _ => false
  }

  /** What each confirmed report says about the host, given the files that were staged. */
  ghost predicate Truth(w: World, req: Request, p: Plan, r: Report, staged: map<string, string>)
    requires ImageTag(req.targetTag)
    reads w
  {
    match r
    case PreparationFailed => w.files == staged
    case HealthyReport => HealthyTruth(w, req, p) && w.files == staged[w.dropin := NewUnit(req, p)]
    case IneffectiveRejected => Describes(w, p) && w.FileAt(w.dropin) == p.prior
    case RolledBack => RolledBackTruth(w, req, p) && w.files == staged[w.dropin := RollbackUnit(req, p)]
    case _ => true
  }

  /** The guarded part with its two recoveries. */
  method Apply(tools: Tools, w: World, req: Request, p: Plan) returns (r: Report)
    requires w.Valid() && Sound(tools, req, p)
    requires w.log == Staged(tools, req, p) && w.seen == []
    modifies w
    ensures w.Valid() && (old(w.disturbed) ==> w.disturbed)
    ensures History(tools, w.dropin, req, p, r, w.log)
    ensures !w.disturbed ==> Truth(w, req, p, r, old(w.files))
    ensures r == PreparationFailed && !w.disturbed ==> w.loaded == old(w.loaded)
  {
    hide SystemdArgv, ReloadArgv, PartsOf, NewUnit, PinNew, PinOld, GuardHolds, UnitLine, ImageId, ImageTag,
      HealthyTruth, RolledBackTruth, Describes, RollbackUnit, RollbackPrefix, Up, Staged, Activated, Switched,
      UniqueIds, Settled, CutShort, Targeted, Divided;
    var progress := Switch(tools, w, req, p);
    match progress {
      case Finished => r := HealthyReport;
      case NotActivated => r := PreparationFailed;
      case ActivatedOnly =>
        ghost var seen := w.seen;
        r := Undo(w, p);
        if r == HandlerFailed {
          CutShortUndo(tools, w.dropin, req, p, w.log, seen);
        }
      case SwitchedOnly =>
        ghost var seen := w.seen;
        r := RollBack(w, req, p);
        if r == HandlerFailed {
          CutShortRevert(tools, w.dropin, req, p, w.log, seen);
        }
    }
  }

  /**
   * One rollout. `p` is the plan it followed. The history of changes has one of a few exact
   * shapes whatever the host answers; on a host that nobody else disturbs, every report is true.
   */
  method Rollout(tools: Tools, w: World, req: Request) returns (r: Report, ghost p: Plan)
    requires w.Valid() && !w.disturbed && w.base == w.containers && w.log == [] && w.seen == []
    modifies w
    ensures w.Valid()
    ensures !req.apply ==> w.log == [] && (r.Refused? || r.Planned?)
    ensures r.Planned? ==> !req.apply && r.command == Up(NewPrefix(req, p))
    ensures (r.Refused? || r.Planned?) && w.log == [] && !w.disturbed ==> w.files == old(w.files) && w.loaded == old(w.loaded)
    ensures r.Refused? && w.log != [] ==> Sound(tools, req, p) && w.log == Staged(tools, req, p)[..1]
    // any other report follows a sound plan that described the host at the start
    ensures !r.Refused? ==> Sound(tools, req, p)
    ensures !r.Refused? && !w.disturbed ==> SystemdArgv(old(w.loaded).start) == Some(p.start)
    ensures !r.Refused? && !w.disturbed ==> ReloadArgv(old(w.loaded)) == Some(p.reload)
    ensures !r.Refused? && !w.disturbed ==> IsInventory(old(w.containers), p.before)
    ensures !r.Refused? && !r.Planned? && !w.disturbed ==> p.prior == ReadText(old(w.FileAt(w.dropin)))
    ensures !r.Refused? && !r.Planned? ==> History(tools, w.dropin, req, p, r, w.log)
    ensures !r.Refused? && !r.Planned? && !w.disturbed ==> Truth(w, req, p, r, FilesStaged(tools, req, p, old(w.files)))
    ensures r == PreparationFailed && !w.disturbed ==> w.loaded == old(w.loaded)
    // the undo puts the drop-in back as it was read: exactly the old file unless that held a carriage return
    ensures r == IneffectiveRejected && !w.disturbed ==>
              (w.FileAt(w.dropin) == old(w.FileAt(w.dropin)) <==> PlainText(old(w.FileAt(w.dropin))))
  {
    hide SystemdArgv, ReloadArgv, PartsOf, NewUnit, PinNew, PinOld, GuardHolds, UnitLine, ImageId, ImageTag,
      RollbackUnit, RollbackPrefix, Up, UniqueIds, Settled, Targeted, Divided, CutShort, Undone, Reverted, Switched, Truth, FilesStaged;
    p := *;
    var prepared := Prepare(tools, w, req);
    if prepared.None? {
      return Refused, p;
    }
    p := prepared.value;
    if !req.apply {
      return Planned(Up(NewPrefix(req, prepared.value))), p;
    }
    var staged := Stage(tools, w, req, prepared.value);
    if staged.None? {
      return Refused, p;
    }
    p := staged.value;
    r := Apply(tools, w, req, staged.value);
    PutBack(w, req, p, r, FilesStaged(tools, req, p, old(w.files)));
    ReadTextSame(old(w.FileAt(w.dropin)));
  }

  predicate PlainText(file: Option<string>) { file.Some? ==> '\r' !in file.value }

  lemma ReadTextSame(file: Option<string>)
    ensures ReadText(file) == file <==> PlainText(file)
  {
    if file.Some? {
      TranslateSame(file.value);
    }
  }

  /** A drop-in written with carriage returns is remembered without them. */
  lemma CarriageReturnLost()
    ensures ReadText(Some("[Service]\r\n")) != Some("[Service]\r\n")
  {
    var text := "[Service]\r\n";
    assert text[9] == '\r';
    ReadTextSame(Some(text));
  }

  lemma PutBack(w: World, req: Request, p: Plan, r: Report, staged: map<string, string>)
    requires ImageTag(req.targetTag)
    ensures r == IneffectiveRejected && Truth(w, req, p, r, staged) ==> w.FileAt(w.dropin) == p.prior
  {
  }

  /**
   * In every history the containers are switched forward at most once, right after start and reload
   * were read as the new chain, and back at most once, after that; both commands name only the
   * control plane and start no dependency.
   */
  lemma SwitchesOnceEachWay(tools: Tools, dropin: string, req: Request, p: Plan, r: Report, log: seq<Step>)
    requires ImageTag(req.targetTag) && History(tools, dropin, req, p, r, log)
    ensures forall i | 0 <= i < |log| && log[i].action.Compose? :: i == 4 || i == 7
    ensures |log| > 4 && log[4].action.Compose? ==>
      log[4] == Step(Compose(NewPrefix(req, p) + ["up", "-d", "--no-deps", "control-plane"]),
                     [SawStart(NewPrefix(req, p) + p.suffix), SawReload(ReloadChain(NewPrefix(req, p), p))])
    ensures |log| > 7 ==>
      log[4].action.Compose? && log[7].action == Compose(RollbackPrefix(req, p) + ["up", "-d", "--no-deps", "control-plane"])
    // the containers are not touched at all unless the report says they were
    ensures r == PreparationFailed || r == IneffectiveRejected || r == RestorationUnconfirmed ==>
      forall i | 0 <= i < |log| :: !log[i].action.Compose?
    // the drop-in is first written right after the start and the inventory were read again
    ensures |log| > 2 ==> log[2] == Step(WriteFile(dropin, NewUnit(req, p)), [SawStart(p.start), SawInventory(p.before)])
  {
    hide NewUnit, RollbackUnit, PinNew, PinOld, UnitLine, ImageTag, NewPrefix, RollbackPrefix, ReloadChain;
    match r {
      case HandlerFailed =>
        var full :| (Undone(tools, dropin, req, p, full) || Reverted(tools, dropin, req, p, full))
                    && Activated(tools, dropin, req, p) <= log <= full;
        assert forall i | 0 <= i < |log| :: log[i] == full[i];
      case _ =>
    }
  }
}
