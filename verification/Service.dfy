/** `SessionService`: the calls as they are made, one at a time. How each effect goes is an input, so every
    contract says exactly what happens for every course of events. The create is proved to be a run of its
    script, so what the protocol guarantees of runs holds of it. */
module Service {
  import opened Config
  import opened CreateScript
  import opened Protocol
  import opened Requests
  import opened RowSafety
  import opened Sandboxes
  import opened Store
  import opened World
  import opened WorldSafety
  import opened Wrappers

  // ---- runs of one create alone ----

  /** How the effect at each program point of a create would go. */
  type Env = Pc -> Outcome

  function OutcomeAt(env: Env, ss: Session): Outcome {
    Feasible(env(ss.creator.pc), CanSucceed(ss))
  }

  ghost predicate Solo(cfg: Settings, env: Env, a: Session, n: nat, b: Session)
    decreases n
  {
    if n == 0 then a == b
    else InFlight(a.creator) && Solo(cfg, env, CreatorStep(cfg, a, OutcomeAt(env, a)), n - 1, b)
  }

  /** The create of `plan`, alone from its reserved row on, comes by `b`. */
  ghost predicate Follows(cfg: Settings, env: Env, plan: Plan, b: Session) {
    exists n: nat :: Solo(cfg, env, NewSession(plan), n, b)
  }

  lemma {:induction false} SoloExtends(cfg: Settings, env: Env, a: Session, n: nat, b: Session)
    requires Solo(cfg, env, a, n, b) && InFlight(b.creator)
    ensures Solo(cfg, env, a, n + 1, CreatorStep(cfg, b, OutcomeAt(env, b)))
    decreases n
  {
    hide CreatorStep, CanSucceed;
    if n > 0 {
      SoloExtends(cfg, env, CreatorStep(cfg, a, OutcomeAt(env, a)), n - 1, b);
    } else {
      assert Solo(cfg, env, CreatorStep(cfg, b, OutcomeAt(env, b)), 0, CreatorStep(cfg, b, OutcomeAt(env, b)));
    }
  }

  /** The next step of a create, as taken. */
  lemma Taken(cfg: Settings, env: Env, plan: Plan, ss: Session, o: Outcome) returns (next: Session)
    requires Follows(cfg, env, plan, ss) && InFlight(ss.creator) && o == OutcomeAt(env, ss)
    ensures next == CreatorStep(cfg, ss, o) && Follows(cfg, env, plan, next)
  {
    var n: nat :| Solo(cfg, env, NewSession(plan), n, ss);
    SoloExtends(cfg, env, NewSession(plan), n, ss);
    next := CreatorStep(cfg, ss, o);
  }

  lemma Start(cfg: Settings, env: Env, plan: Plan)
    ensures Follows(cfg, env, plan, NewSession(plan))
  {
    assert Solo(cfg, env, NewSession(plan), 0, NewSession(plan));
  }

  /** A create running alone is a run of the protocol, from any state holding its session. */
  lemma {:induction false} SoloIsARun(cfg: Settings, env: Env, s: State, sid: Sid, n: nat, b: Session)
    returns (steps: seq<Step>)
    requires sid in s.sessions && Solo(cfg, env, s.sessions[sid], n, b)
    ensures Run(cfg, ARBITRARY, s, steps)
    ensures End(cfg, ARBITRARY, s, steps) == s.(sessions := s.sessions[sid := b])
    ensures forall i | 0 <= i < |steps| :: steps[i].Create? && steps[i].sid == sid
    decreases n
  {
    hide CreatorStep, CanSucceed;
    if n == 0 {
      assert s.sessions[sid := b] == s.sessions;
      steps := [];
    } else {
      var first := Create(sid, OutcomeAt(env, s.sessions[sid]));
      var s' := Apply(cfg, s, first);
      var rest := SoloIsARun(cfg, env, s', sid, n - 1, b);
      steps := [first] + rest;
      assert steps[1..] == rest;
      assert s'.sessions[sid := b] == s.sessions[sid := b];
    }
  }

  /** What holds at every point of a create that runs alone. */
  predicate SoloInv(cfg: Settings, ss: Session) {
    && RowOk(cfg, ss.creator.plan.sid, ss) && OwnerOk(ss) && PlacedOk(ss) && LoadOk(ss)
    && OrderOk(ARBITRARY, ss) && ss.creator.alive
    && (Position(ss.creator.pc) >= 17 && !ss.creator.pc.Raised? ==>
          ss.row.status.Starting? || (ss.row.status.Ready? && ss.row.creds.Token?))
    && (ss.creator.pc.Returned? || ss.creator.pc.Respond? ==> ReadyAndUp(cfg, ss))
    && (ss.creator.pc.Raised? ==> ss.row.status.Error? || ss.row.status.Starting? || ss.row.status.Ready?)
  }

  /** The row carries exactly the returned credentials and lifetimes, and the sandbox serves all of it. */
  predicate ReadyAndUp(cfg: Settings, ss: Session) {
    var plan := ss.creator.plan;
    && ss.row == PlaceholderRow(plan.sid, plan.ticket, plan.createdAt, plan.port).(
         status := Ready, creds := Encrypt(plan.creds),
         expiresAt := DefaultExpiry(cfg, plan), maxExtendedUntil := LatestExpiry(cfg, plan))
    && ss.world.container == Some(Public) && ss.world.file == Some(Public)
    && ss.world.volume == Some(FullVolume(plan)) && ss.world.generalLog
  }

  lemma SoloStep(cfg: Settings, ss: Session, o: Outcome)
    requires SoloInv(cfg, ss) && InFlight(ss.creator) && (o.Done? ==> CanSucceed(ss))
    ensures SoloInv(cfg, CreatorStep(cfg, ss, o))
  {
    var next := CreatorStep(cfg, ss, o);
    MoveKeepsRow(cfg, ss.creator.plan.sid, ss, Own(o));
    MoveKeepsPlaces(cfg, ARBITRARY, ss, Own(o));
    MoveKeepsLoad(cfg, ARBITRARY, ss, Own(o));
    MoveKeepsOrder(cfg, ARBITRARY, ss, Own(o));
    assert next == Moved(cfg, ss, Own(o));
  }

  lemma {:induction false} SoloRun(cfg: Settings, env: Env, a: Session, n: nat, b: Session)
    requires SoloInv(cfg, a) && Solo(cfg, env, a, n, b)
    ensures SoloInv(cfg, b)
    decreases n
  {
    hide CreatorStep, SoloInv;
    if n > 0 {
      SoloStep(cfg, a, OutcomeAt(env, a));
      SoloRun(cfg, env, CreatorStep(cfg, a, OutcomeAt(env, a)), n - 1, b);
    }
  }

  lemma SoloHolds(cfg: Settings, env: Env, plan: Plan, ss: Session)
    requires plan.port in cfg.PortRange() && Follows(cfg, env, plan, ss)
    ensures SoloInv(cfg, ss)
  {
    var n: nat :| Solo(cfg, env, NewSession(plan), n, ss);
    assert SoloInv(cfg, NewSession(plan));
    SoloRun(cfg, env, NewSession(plan), n, ss);
  }

  /** Alone, every step up to the response can succeed: what it needs is there. */
  lemma Able(cfg: Settings, env: Env, plan: Plan, ss: Session)
    requires plan.port in cfg.PortRange() && Follows(cfg, env, plan, ss)
    requires ss.creator.alive && Position(ss.creator.pc) <= 17
    ensures CanSucceed(ss) && OutcomeAt(env, ss) == env(ss.creator.pc)
  {
    SoloHolds(cfg, env, plan, ss);
  }

  /** The three steps of the error path. */
  lemma CleanedUp(cfg: Settings, env: Env, plan: Plan, from: Session) returns (ss: Session)
    requires Follows(cfg, env, plan, from) && from.creator == Creator(plan, CleanupDown, true)
    ensures Follows(cfg, env, plan, ss)
    ensures ss == Session(
      if env(SetError).Done? then from.row.(status := Error) else from.row,
      RemoveFiles(Down(from.world, true, Feasible(env(CleanupDown), from.world.file.Some?)), env(CleanupFiles)),
      Creator(plan, Raised, true))
  {
    hide Follows, Down, RemoveFiles;
    ss := Taken(cfg, env, plan, from, Feasible(env(CleanupDown), from.world.file.Some?));
    ss := Taken(cfg, env, plan, ss, env(CleanupFiles));
    ss := Taken(cfg, env, plan, ss, env(SetError));
  }

  /** What a create alone has done wherever it stands: returned with everything, or not at all. */
  lemma SoloResult(cfg: Settings, env: Env, plan: Plan, ss: Session)
    requires plan.port in cfg.PortRange() && Follows(cfg, env, plan, ss)
    ensures ss.creator.pc.Returned? ==> ReadyAndUp(cfg, ss)
    ensures ss.creator.pc.CommitReady? ==> ss.row.status.Starting?
    ensures ss.creator.pc.CleanupDown? ==> ss.row.status.Starting? || ss.row.status.Ready?
  {
    SoloHolds(cfg, env, plan, ss);
  }

  /** The tunnel is open exactly while cloning, unless its close fails. */
  predicate TunnelOk(env: Env, ss: Session) {
    var at, pc, open := Position(ss.creator.pc), ss.creator.pc, ss.world.tunnel;
    && (at <= 7 ==> !open)
    && (pc.CloneDb? || pc.EndTunnel? ==> open)
    && (10 <= at <= 18 || pc.Returned? ==> (open <==> env(EndTunnel(false)).Failed?))
    && (open && at >= 10 ==> env(EndTunnel(false)).Failed? || env(EndTunnel(true)).Failed?)
  }

  lemma TunnelStep(cfg: Settings, env: Env, ss: Session)
    requires TunnelOk(env, ss) && InFlight(ss.creator)
    ensures TunnelOk(env, CreatorStep(cfg, ss, OutcomeAt(env, ss)))
  {
    hide Dumps, DumpOf, GrantsOf;
  }

  lemma {:induction false} TunnelRun(cfg: Settings, env: Env, a: Session, n: nat, b: Session)
    requires TunnelOk(env, a) && Solo(cfg, env, a, n, b)
    ensures TunnelOk(env, b)
    decreases n
  {
    hide CreatorStep, TunnelOk, CanSucceed;
    if n > 0 {
      TunnelStep(cfg, env, a);
      TunnelRun(cfg, env, CreatorStep(cfg, a, OutcomeAt(env, a)), n - 1, b);
    }
  }

  lemma TunnelHolds(cfg: Settings, env: Env, plan: Plan, ss: Session)
    requires Follows(cfg, env, plan, ss)
    ensures TunnelOk(env, ss)
  {
    var n: nat :| Solo(cfg, env, NewSession(plan), n, ss);
    TunnelRun(cfg, env, NewSession(plan), n, ss);
  }

  /** Every effect that a create of `n` databases needs goes well. The two flips of the audit log and the
      close of the tunnel are not needed. */
  predicate AllGoWell(env: Env, n: nat) {
    && env(GenTls).Done? && env(RenderPrivate).Done? && env(RenderCnf).Done? && env(UpPrivate).Done?
    && env(WaitHealthy).Done? && env(WaitReady).Done? && env(Tunnel).Done?
    && (forall k: nat | k < n :: env(CloneDb(k)).Done?)
    && env(Grants).Done? && env(RenderPublic).Done? && env(DownKeep).Done? && env(UpPublic).Done?
    && env(WaitPublic).Done? && env(CommitReady).Done? && env(Respond).Done?
  }

  /** A create that failed at `failed`, after its teardown with volumes, the removal of its files and its
      error write, as each of them went. */
  predicate TornDown(env: Env, ss: Session, failed: Session) {
    && ss.creator.pc.Raised?
    && ss.world ==
         RemoveFiles(Down(failed.world, true, Feasible(env(CleanupDown), failed.world.file.Some?)), env(CleanupFiles))
    && ss.row == (if env(SetError).Done? then failed.row.(status := Error) else failed.row)
    && (failed.row.status.Starting? || failed.row.status.Ready?)
    && (ss.world.tunnel ==> env(EndTunnel(false)).Failed? || env(EndTunnel(true)).Failed?)
  }

  /** The row of a create that succeeded, column by column. */
  predicate ReadyRowOf(cfg: Settings, r: Row, sid: Sid, ticket: Ticket, now: int, creds: Creds) {
    && r.id == sid && r.ticket == ticket && r.status.Ready? && r.creds == Token(creds)
    && r.createdAt == now && r.expiresAt == now + cfg.ttlDefault && r.maxExtendedUntil == now + cfg.ttlMax
    && !r.ttlExtended
  }

  /** What a create that succeeded leaves running. */
  predicate Serves(w: World, creds: Creds, grants: seq<Grant>, env: Env) {
    && w.file == Some(Public) && w.container == Some(Public) && w.generalLog
    && w.volume == Some(Volume(Dumps(creds), Some(grants), false))
    && (w.tunnel <==> env(EndTunnel(false)).Failed?)
  }

  /** The volume holds one complete clone per requested database, in order, of exactly the tables asked for. */
  predicate HoldsRequest(v: Volume, dbs: seq<DBSpec>) {
    && !v.dirty && |v.clones| == |dbs|
    && forall i | 0 <= i < |dbs| ::
         && v.clones[i] == Dump(dbs[i].name, CloneTables(dbs[i]))
         && Distinct(v.clones[i].tables)
         && (v.clones[i].tables == [] <==> dbs[i].tables.Omitted? || dbs[i].tables.All?)
  }

  // ---- the service ----

  datatype CreateError = PathsFailed | PortsExhausted | StoreFailed | CreateFailed

  datatype NukeError = UnknownSession | StatusNotWritten

  datatype TicketAnswer = NowNuked | AlreadyNuked

  datatype ResetError = NoSession | NotReady | AlreadyExtended | MaxReached | NotWritten

  class SessionService {
    const cfg: Settings
    const store: SessionStore
    const host: Host

    constructor (cfg: Settings, store: SessionStore, host: Host)
      ensures this.cfg == cfg && this.store == store && this.host == host
    {
      this.cfg, this.store, this.host := cfg, store, host;
    }

    ghost predicate Holds(ss: Session)
      reads store, host
    {
      var sid := ss.creator.plan.sid;
      sid in store.rows && store.rows[sid] == ss.row && sid in host.worlds && host.worlds[sid] == ss.world
    }

    /** The create of `plan` stands at `pc`. */
    ghost predicate At(env: Env, plan: Plan, ss: Session, pc: Pc)
      reads store, host
    {
      Holds(ss) && Follows(cfg, env, plan, ss) && ss.creator == Creator(plan, pc, true) && plan.port in cfg.PortRange()
    }

    /** Certificates, files, the private container; up to a server that answers. */
    method Provision(env: Env, plan: Plan) returns (raised: bool, ghost ss: Session)
      requires At(env, plan, NewSession(plan), GenTls)
      modifies host
      ensures host.worlds == old(host.worlds)[plan.sid := ss.world] && ss.row == NewSession(plan).row
      ensures Follows(cfg, env, plan, ss)
      ensures ss.creator == Creator(plan, if raised then CleanupDown else Tunnel, true)
      ensures !raised <==>
        && env(GenTls).Done? && env(RenderPrivate).Done? && env(RenderCnf).Done?
        && env(UpPrivate).Done? && env(WaitHealthy).Done? && env(WaitReady).Done?
    {
      hide Follows, Render, Up, Down, Clone, ApplyGrants, SetGeneralLog, OpenTunnel, CloseTunnel;
      var sid := plan.sid;
      ss, raised := NewSession(plan), true;
      Able(cfg, env, plan, ss);
      var o := env(GenTls);                       // generate_session_tls
      ss := Taken(cfg, env, plan, ss, o);
      if o.Failed? { return; }
      Able(cfg, env, plan, ss);
      o := env(RenderPrivate);
      host.RenderCompose(sid, Private, o);
      ss := Taken(cfg, env, plan, ss, o);
      if o.Failed? { return; }
      Able(cfg, env, plan, ss);
      o := env(RenderCnf);                        // render_mysqld_cnf
      ss := Taken(cfg, env, plan, ss, o);
      if o.Failed? { return; }
      Able(cfg, env, plan, ss);
      o := host.UpSession(sid, env(UpPrivate));
      ss := Taken(cfg, env, plan, ss, o);
      if o.Failed? { return; }
      Able(cfg, env, plan, ss);
      o := host.WaitFor(sid, env(WaitHealthy));
      ss := Taken(cfg, env, plan, ss, o);
      if o.Failed? { return; }
      Able(cfg, env, plan, ss);
      o := host.WaitFor(sid, env(WaitReady));
      ss := Taken(cfg, env, plan, ss, o);
      if o.Failed? { return; }
      o := host.SetLog(sid, false, env(LogOff));  // best effort
      ss := Taken(cfg, env, plan, ss, o);
      raised := false;
    }

    /** The prod tunnel, one clone per database, and the close that `with` guarantees. */
    method CloneAll(env: Env, plan: Plan, ghost from: Session) returns (raised: bool, ghost ss: Session)
      requires At(env, plan, from, Tunnel)
      modifies host
      ensures host.worlds == old(host.worlds)[plan.sid := ss.world] && ss.row == from.row
      ensures Follows(cfg, env, plan, ss)
      ensures ss.creator == Creator(plan, if raised then CleanupDown else LogOn, true)
      ensures !raised <==> env(Tunnel).Done? && forall k: nat | k < |plan.creds.dbs| :: env(CloneDb(k)).Done?
    {
      hide Follows, Render, Up, Down, Clone, ApplyGrants, SetGeneralLog, OpenTunnel, CloseTunnel;
      var sid, dbs := plan.sid, plan.creds.dbs;
      Able(cfg, env, plan, from);
      var o := env(Tunnel);
      host.Open(sid, o);
      ss := Taken(cfg, env, plan, from, o);
      raised := true;
      if o.Failed? { return; }
      var failed := false;
      for k := 0 to |dbs|
        invariant !failed && host.worlds == old(host.worlds)[sid := ss.world] && ss.row == from.row
        invariant Follows(cfg, env, plan, ss) && ss.creator == Creator(plan, AfterClones(plan, k), true)
        invariant forall j: nat | j < k :: env(CloneDb(j)).Done?
      {
        Able(cfg, env, plan, ss);
        o := host.CloneDb(sid, dbs[k].name, if dbs[k].tables.Some? then dbs[k].tables.value else [], env(CloneDb(k)));
        ss := Taken(cfg, env, plan, ss, o);
        if o.Failed? {
          failed := true;
          break;
        }
      }
      o := env(EndTunnel(failed));
      host.Close(sid, o);
      ss := Taken(cfg, env, plan, ss, o);
      raised := failed;
    }

    /** Audit log back on, users and grants. */
    method GrantAll(env: Env, plan: Plan, grants: seq<Grant>, ghost from: Session)
      returns (raised: bool, ghost ss: Session)
      requires At(env, plan, from, LogOn) && grants == GrantsOf(plan.creds)
      modifies host
      ensures host.worlds == old(host.worlds)[plan.sid := ss.world] && ss.row == from.row
      ensures Follows(cfg, env, plan, ss)
      ensures ss.creator == Creator(plan, if raised then CleanupDown else RenderPublic, true)
      ensures raised <==> env(Grants).Failed?
    {
      hide Follows, ApplyGrants, SetGeneralLog;
      var o := host.SetLog(plan.sid, true, env(LogOn));       // best effort
      ss := Taken(cfg, env, plan, from, o);
      Able(cfg, env, plan, ss);
      o := host.GrantUsers(plan.sid, grants, env(Grants));
      ss := Taken(cfg, env, plan, ss, o);
      raised := o.Failed?;
    }

    /** The restart on the public address. */
    method Publish(env: Env, plan: Plan, ghost from: Session) returns (raised: bool, ghost ss: Session)
      requires At(env, plan, from, RenderPublic)
      modifies host
      ensures host.worlds == old(host.worlds)[plan.sid := ss.world] && ss.row == from.row
      ensures Follows(cfg, env, plan, ss)
      ensures ss.creator == Creator(plan, if raised then CleanupDown else CommitReady, true)
      ensures !raised <==>
        env(RenderPublic).Done? && env(DownKeep).Done? && env(UpPublic).Done? && env(WaitPublic).Done?
    {
      hide Follows, Render, Up, Down;
      var sid := plan.sid;
      raised := true;
      Able(cfg, env, plan, from);
      var o := env(RenderPublic);
      host.RenderCompose(sid, Public, o);
      ss := Taken(cfg, env, plan, from, o);
      if o.Failed? { return; }
      Able(cfg, env, plan, ss);
      o := host.DownSession(sid, false, env(DownKeep));
      ss := Taken(cfg, env, plan, ss, o);
      if o.Failed? { return; }
      Able(cfg, env, plan, ss);
      o := host.UpSession(sid, env(UpPublic));
      ss := Taken(cfg, env, plan, ss, o);
      if o.Failed? { return; }
      Able(cfg, env, plan, ss);
      o := host.WaitFor(sid, env(WaitPublic));
      ss := Taken(cfg, env, plan, ss, o);
      raised := o.Failed?;
    }

    /** `update_to_ready`, and the response; a lost race is torn down with volumes and raised. */
    method Finish(env: Env, plan: Plan, ghost from: Session)
      returns (r: Result<Response, CreateError>, ghost ss: Session)
      requires Holds(from) && Follows(cfg, env, plan, from) && from.creator == Creator(plan, CommitReady, true)
      modifies store, host
      ensures store.rows == old(store.rows)[plan.sid := ss.row]
      ensures host.worlds == old(host.worlds)[plan.sid := ss.world]
      ensures Follows(cfg, env, plan, ss)
      ensures r.Success? <==> env(CommitReady).Done? && from.row.status.Starting? && env(Respond).Done?
      ensures if r.Success? then r.value == ResponseOf(cfg, plan) else r.error.CreateFailed?
      ensures ss.creator == Creator(plan, if r.Success? then Returned else CleanupDown, true)
      ensures env(CommitReady).Done? && !from.row.status.Starting? ==>
        ss.world == Down(from.world, true, Feasible(env(LateDown), from.world.file.Some?))
    {
      hide Follows, Down;
      var sid := plan.sid;
      var expiresAt, maxExtendedUntil := plan.createdAt + cfg.ttlDefault, plan.createdAt + cfg.ttlMax;
      r := Failure(CreateFailed);
      var o := env(CommitReady);
      var raised, moved := store.UpdateToReady(sid, Encrypt(plan.creds), expiresAt, maxExtendedUntil, o.Failed?);
      ss := Taken(cfg, env, plan, from, o);
      if raised { return; }
      if !moved {
        o := host.DownSession(sid, true, env(LateDown));
        ss := Taken(cfg, env, plan, ss, o);
        return;
      }
      o := env(Respond);
      ss := Taken(cfg, env, plan, ss, o);
      if o.Done? {
        r := Success(Response(sid, plan.port, expiresAt, maxExtendedUntil, plan.creds.dbs));
      }
    }

    method DoCreate(env: Env, plan: Plan, grants: seq<Grant>)
      returns (r: Result<Response, CreateError>, ghost ss: Session)
      requires At(env, plan, NewSession(plan), GenTls) && grants == GrantsOf(plan.creds)
      modifies store, host
      ensures store.rows == old(store.rows)[plan.sid := ss.row]
      ensures host.worlds == old(host.worlds)[plan.sid := ss.world]
      ensures Follows(cfg, env, plan, ss)
      ensures r.Success? <==> AllGoWell(env, |plan.creds.dbs|)
      ensures if r.Success? then r.value == ResponseOf(cfg, plan) else r.error.CreateFailed?
      ensures ss.creator == Creator(plan, if r.Success? then Returned else CleanupDown, true)
    {
      hide Follows, ResponseOf, Dumps;
      r := Failure(CreateFailed);
      var raised;
      raised, ss := Provision(env, plan);
      if raised { return; }
      raised, ss := CloneAll(env, plan, ss);
      if raised { return; }
      raised, ss := GrantAll(env, plan, grants, ss);
      if raised { return; }
      raised, ss := Publish(env, plan, ss);
      if raised { return; }
      SoloResult(cfg, env, plan, ss);
      r, ss := Finish(env, plan, ss);
    }

    /** `create`: all or nothing. It succeeds exactly if its directories can be made, a port is free, the
        reservation commits and every needed effect goes well; then the row is ready with exactly the given
        credentials and lifetimes, the response shows them, and the sandbox serves every database. A failure
        after the reservation (`failed` is the session at that point) raises after a teardown with volumes,
        the removal of the files and the error write. A failure before it leaves at most empty directories.
        No other session is touched. */
    method Create(
        sid: Sid, ticket: Ticket, now: int, creds: Creds, grants: seq<Grant>,
        pathsFail: bool, reserveFails: bool, env: Env)
      returns (r: Result<Response, CreateError>, ghost ss: Session, ghost failed: Session)
      requires sid !in store.rows && sid !in host.worlds && grants == GrantsOf(creds)
      modifies store, host
      ensures r == Failure(PathsFailed) <==> pathsFail
      ensures r == Failure(PortsExhausted) <==> !pathsFail && cfg.PortRange() <= UsedPorts(old(store.rows))
      ensures r == Failure(StoreFailed) <==>
        !pathsFail && !(cfg.PortRange() <= UsedPorts(old(store.rows))) && reserveFails
      ensures r.Success? <==>
        && !pathsFail && !(cfg.PortRange() <= UsedPorts(old(store.rows))) && !reserveFails
        && AllGoWell(env, |creds.dbs|)
      ensures r == Failure(PortsExhausted) ==> host.worlds == old(host.worlds)
      ensures r == Failure(PathsFailed) || r == Failure(StoreFailed) ==> host.worlds == old(host.worlds)[sid := NOTHING]
      ensures r.Failure? && r != Failure(CreateFailed) ==> store.rows == old(store.rows)
      ensures r.Success? || r == Failure(CreateFailed) ==>
        && Holds(ss) && ss.creator.plan == Plan(sid, ticket, now, ss.creator.plan.port, creds)
        && store.rows == old(store.rows)[sid := ss.row] && host.worlds == old(host.worlds)[sid := ss.world]
        && ss.row.port == ss.creator.plan.port && ss.row.port in cfg.PortRange() - UsedPorts(old(store.rows))
        && Follows(cfg, env, ss.creator.plan, ss)
      ensures r.Success? ==>
        && ReadyRowOf(cfg, ss.row, sid, ticket, now, creds)
        && r.value == Response(sid, ss.row.port, now + cfg.ttlDefault, now + cfg.ttlMax, creds.dbs)
        && Serves(ss.world, creds, grants, env)
      ensures r == Failure(CreateFailed) ==>
        && TornDown(env, ss, failed)
        && failed.creator.pc.CleanupDown? && Follows(cfg, env, ss.creator.plan, failed)
    {
      hide Follows, Down, TornDown, AllGoWell, ReadyRowOf, Serves;
      ss := NewSession(Plan(sid, ticket, now, 0, creds));
      failed := ss;
      host.MakePaths(sid);
      if pathsFail { return Failure(PathsFailed), ss, failed; }
      var placeholder := store.ReserveSession(cfg, sid, ticket, now, reserveFails);
      match placeholder
      case Failure(e) =>
        r := Failure(if e.OutOfPorts? then PortsExhausted else StoreFailed);
        if e.OutOfPorts? { host.RemovePaths(sid); }
      case Success(row) =>
        r, ss, failed := CreateReserved(env, Plan(sid, ticket, now, row.port, creds), grants);
    }

    /** After the reservation: `_do_create`, and the error path around it. */
    method CreateReserved(env: Env, plan: Plan, grants: seq<Grant>)
      returns (r: Result<Response, CreateError>, ghost ss: Session, ghost failed: Session)
      requires Holds(NewSession(plan)) && plan.port in cfg.PortRange() && grants == GrantsOf(plan.creds)
      modifies store, host
      ensures store.rows == old(store.rows)[plan.sid := ss.row] && host.worlds == old(host.worlds)[plan.sid := ss.world]
      ensures Follows(cfg, env, plan, ss) && ss.creator.plan == plan && ss.row.port == plan.port
      ensures r.Success? <==> AllGoWell(env, |plan.creds.dbs|)
      ensures if r.Success? then
                && ReadyRowOf(cfg, ss.row, plan.sid, plan.ticket, plan.createdAt, plan.creds)
                && Serves(ss.world, plan.creds, grants, env) && r.value == ResponseOf(cfg, plan)
              else r.error.CreateFailed? && TornDown(env, ss, failed)
                   && failed.creator == Creator(plan, CleanupDown, true) && Follows(cfg, env, plan, failed)
    {
      hide Follows, Solo, Down, CreatorStep, RemoveFiles, ResponseOf, CanSucceed, AllGoWell;
      Start(cfg, env, plan);
      r, ss := DoCreate(env, plan, grants);
      SoloResult(cfg, env, plan, ss);
      SoloHolds(cfg, env, plan, ss);
      failed := ss;
      if r.Failure? {
        ss := CleanupFailedCreate(env, plan, ss);
      }
      TunnelHolds(cfg, env, plan, ss);
    }

    /** The create of a validated request: it succeeds exactly if every effect it needs goes well; then the
        response and the stored token list the requested databases in order, with the requested tables, each
        under a user of its own with the password drawn for it, and the volume holds exactly one clone of
        each, asked for exactly those tables (a full dump exactly where the whole database was requested),
        and exactly those users. */
    method CreateForRequest(
        sid: Sid, ticket: Ticket, now: int, dbs: seq<DBSpec>,
        suffixes: seq<string>, passwords: seq<string>, rootPassword: string,
        pathsFail: bool, reserveFails: bool, env: Env)
      returns (r: Result<Response, CreateError>)
      requires sid !in store.rows && sid !in host.worlds && ValidRequest(dbs)
      requires |suffixes| == |passwords| == |dbs| && forall i | 0 <= i < |suffixes| :: HexSuffix(suffixes[i])
      modifies store, host
      ensures r.Success? <==>
        && !pathsFail && !(cfg.PortRange() <= UsedPorts(old(store.rows))) && !reserveFails
        && AllGoWell(env, |dbs|)
      ensures r.Success? ==>
        && |r.value.databases| == |dbs|
        && (forall i | 0 <= i < |dbs| ::
              && r.value.databases[i].name == dbs[i].name
              && r.value.databases[i].user == "u_" + dbs[i].name + "_" + suffixes[i]
              && r.value.databases[i].password == passwords[i]
              && r.value.databases[i].tables
                 == (if CloneTables(dbs[i]) == [] then None else Some(CloneTables(dbs[i]))))
        && (forall i, j | 0 <= i < j < |dbs| :: r.value.databases[i].user != r.value.databases[j].user)
      ensures r.Success? ==>
        && sid in store.rows && Decrypt(store.rows[sid].creds) == Some(Creds(r.value.databases, rootPassword))
        && View(store.rows, sid).Success? && View(store.rows, sid).value.databases == r.value.databases
      ensures r.Success? ==>
        && sid in host.worlds && host.worlds[sid].container == Some(Public)
        && host.worlds[sid].volume.Some? && HoldsRequest(host.worlds[sid].volume.value, dbs)
        && host.worlds[sid].volume.value.granted.Some?
        && |host.worlds[sid].volume.value.granted.value| == |dbs|
        && (forall i | 0 <= i < |dbs| ::
              host.worlds[sid].volume.value.granted.value[i]
              == Grant(dbs[i].name, "u_" + dbs[i].name + "_" + suffixes[i], passwords[i]))
    {
      hide Follows, Solo, SoloInv, AllGoWell;
      var creds, grants := BuildCreds(dbs, suffixes, passwords);
      assert grants == GrantsOf(Creds(creds, rootPassword));
      ghost var ss, failed;
      r, ss, failed := Create(sid, ticket, now, Creds(creds, rootPassword), grants, pathsFail, reserveFails, env);
      if r.Success? {
        forall i | 0 <= i < |dbs|
          ensures Distinct(CloneTables(dbs[i])) && (CloneTables(dbs[i]) == [] <==> IsFull(dbs[i]))
        {
          PartialStaysPartial(dbs[i]);
        }
      }
    }

    /** The error path of `create`: a best-effort `down -v`, `rmtree`, and `set_status(error)`. */
    method CleanupFailedCreate(env: Env, plan: Plan, ghost from: Session) returns (ghost ss: Session)
      requires Holds(from) && Follows(cfg, env, plan, from) && from.creator == Creator(plan, CleanupDown, true)
      modifies store, host
      ensures store.rows == old(store.rows)[plan.sid := ss.row]
      ensures host.worlds == old(host.worlds)[plan.sid := ss.world]
      ensures Follows(cfg, env, plan, ss) && ss.creator == Creator(plan, Raised, true)
      ensures ss.world ==
        RemoveFiles(Down(from.world, true, Feasible(env(CleanupDown), from.world.file.Some?)), env(CleanupFiles))
      ensures ss.row == if env(SetError).Done? then from.row.(status := Error) else from.row
    {
      var down := host.DownSession(plan.sid, true, env(CleanupDown));
      host.RemoveSessionDir(plan.sid, env(CleanupFiles));
      var raised := store.SetStatus(plan.sid, Error, env(SetError).Failed?);
      ss := CleanedUp(cfg, env, plan, from);
    }

    /** The row's columns as they are, and the databases of its token. */
    method ViewSession(sid: Sid) returns (r: Result<SessionView, ViewError>)
      ensures r == View(store.rows, sid)
      ensures r == Failure(NotFound) <==> sid !in store.rows
      ensures r == Failure(InvalidToken) <==> sid in store.rows && store.rows[sid].creds == Placeholder
      ensures r.Success? ==> sid in store.rows && store.rows[sid].creds.Token? && var row := store.rows[sid];
        r.value == SessionView(row.id, row.ticket, row.status, row.port, row.expiresAt, row.maxExtendedUntil,
                               row.ttlExtended, row.creds.payload.dbs)
    {
      var record := store.Get(sid);
      if record.None? { return Failure(NotFound); }
      var row := record.value;
      var creds := Decrypt(row.creds);
      if creds.None? { return Failure(InvalidToken); }
      return Success(SessionView(row.id, row.ticket, row.status, row.port, row.expiresAt, row.maxExtendedUntil,
                                 row.ttlExtended, creds.value.dbs));
    }

    /** Refused for exactly one reason, the first that applies; otherwise it moves only the expiry, by the
        configured time but never past the row's hard limit, and uses up the extension, if the write commits. */
    method ResetTtl(sid: Sid, now: int, fails: bool) returns (r: Result<int, ResetError>)
      modifies store
      ensures r == Failure(NoSession) <==> sid !in old(store.rows)
      ensures r == Failure(NotReady) <==> sid in old(store.rows) && !old(store.rows)[sid].status.Ready?
      ensures r == Failure(AlreadyExtended) <==>
        sid in old(store.rows) && old(store.rows)[sid].status.Ready? && old(store.rows)[sid].ttlExtended
      ensures r == Failure(MaxReached) <==>
        && sid in old(store.rows) && old(store.rows)[sid].status.Ready? && !old(store.rows)[sid].ttlExtended
        && now >= old(store.rows)[sid].maxExtendedUntil
      ensures r == Failure(NotWritten) ==> fails
      ensures r.Success? ==> !fails
      ensures r.Success? || r == Failure(NotWritten) <==>
        && sid in old(store.rows) && old(store.rows)[sid].status.Ready? && !old(store.rows)[sid].ttlExtended
        && now < old(store.rows)[sid].maxExtendedUntil
      ensures r.Success? || r == Failure(NotWritten) <==>
        sid in old(store.rows) && ResetAllowed(old(store.rows)[sid], now)
      ensures r.Failure? ==> store.rows == old(store.rows)
      ensures r.Success? ==> var row := old(store.rows)[sid];
        && store.rows == old(store.rows)[sid := row.(expiresAt := r.value, ttlExtended := true)]
        && r.value <= row.maxExtendedUntil && r.value <= row.expiresAt + cfg.ttlResetAdd
        && (r.value == row.maxExtendedUntil || r.value == row.expiresAt + cfg.ttlResetAdd)
        && r.value == ResetExpiry(cfg, row)
        && !ResetAllowed(store.rows[sid], now)
    {
      var record := store.Get(sid);
      if record.None? { return Failure(NoSession); }
      var row := record.value;
      if !row.status.Ready? { return Failure(NotReady); }
      if row.ttlExtended { return Failure(AlreadyExtended); }
      if now >= row.maxExtendedUntil { return Failure(MaxReached); }
      var newExpiresAt := Min(row.maxExtendedUntil, row.expiresAt + cfg.ttlResetAdd);
      var raised := store.UpdateTtl(sid, newExpiresAt, true, fails);
      r := if raised then Failure(NotWritten) else Success(newExpiresAt);
    }

    /** On any existing row: `down -v`, as it goes, and then the status, whether or not the `down` succeeded
        and whatever the row's status was. */
    method Nuke(sid: Sid, o: Outcome, fails: bool) returns (r: Result<Outcome, NukeError>)
      requires sid in store.rows ==> sid in host.worlds
      modifies store, host
      ensures r == Failure(UnknownSession) <==> sid !in old(store.rows)
      ensures r == Failure(StatusNotWritten) <==> sid in old(store.rows) && fails
      ensures r == Failure(UnknownSession) ==> store.rows == old(store.rows) && host.worlds == old(host.worlds)
      ensures r != Failure(UnknownSession) ==>
        && NukesWorld(old(host.worlds), host.worlds, sid, o)
        && store.rows == if fails then old(store.rows)
                         else old(store.rows)[sid := old(store.rows)[sid].(status := Nuked)]
      ensures r.Success? ==> r.value == Feasible(o, old(host.worlds)[sid].file.Some?)
    {
      var record := store.Get(sid);
      if record.None? { return Failure(UnknownSession); }
      var went := host.DownSession(sid, true, o);
      var raised := store.SetStatus(sid, Nuked, fails);
      r := if raised then Failure(StatusNotWritten) else Success(went);
    }

    /** Unknown exactly if there is no such row or it has another ticket, already nuked exactly if it is; both
        change nothing. Anything else is nuked like above. */
    method NukeByTicket(ticket: Ticket, sid: Sid, o: Outcome, fails: bool) returns (r: Result<TicketAnswer, NukeError>)
      requires sid in store.rows ==> sid in host.worlds
      modifies store, host
      ensures r == Failure(UnknownSession) <==> sid !in old(store.rows) || old(store.rows)[sid].ticket != ticket
      ensures r == Success(AlreadyNuked) <==>
        sid in old(store.rows) && old(store.rows)[sid].ticket == ticket && old(store.rows)[sid].status.Nuked?
      ensures r == Failure(UnknownSession) || r == Success(AlreadyNuked) ==>
        store.rows == old(store.rows) && host.worlds == old(host.worlds)
      ensures r == Success(NowNuked) ==> !fails
      ensures r == Failure(StatusNotWritten) ==> fails
      ensures r == Success(NowNuked) || r == Failure(StatusNotWritten) ==>
        && NukesWorld(old(host.worlds), host.worlds, sid, o)
        && store.rows == if fails then old(store.rows)
                         else old(store.rows)[sid := old(store.rows)[sid].(status := Nuked)]
    {
      var record := store.Get(sid);
      if record.None? || record.value.ticket != ticket { return Failure(UnknownSession); }
      if record.value.status.Nuked? { return Success(AlreadyNuked); }
      var went := host.DownSession(sid, true, o);
      var raised := store.SetStatus(sid, Nuked, fails);
      r := if raised then Failure(StatusNotWritten) else Success(NowNuked);
    }
  }

  /** The session's `down -v` was made and went as `o` lets it: if that is well and there is a compose file,
      neither container nor volume is left. */
  predicate NukesWorld(before: map<Sid, World>, after: map<Sid, World>, sid: Sid, o: Outcome) {
    && sid in before && sid in after
    && after == before[sid := Down(before[sid], true, Feasible(o, before[sid].file.Some?))]
    && (o.Done? && before[sid].file.Some? ==> after[sid].container.None? && after[sid].volume.None?)
  }
}
