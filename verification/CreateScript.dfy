/** The script of one create after its row is reserved: its program points, and what each step does to
    the session's row and world for every outcome of the step. */
module CreateScript {
  import opened Config
  import opened Store
  import opened World
  import opened Wrappers

  /** What a create works with: fixed when its row is reserved. */
  datatype Plan = Plan(sid: Sid, ticket: Ticket, createdAt: int, port: int, creds: Creds)

  datatype Pc =
    | GenTls | RenderPrivate | RenderCnf | UpPrivate | WaitHealthy | WaitReady | LogOff
    | Tunnel | CloneDb(k: nat) | EndTunnel(failed: bool)
    | LogOn | Grants | RenderPublic | DownKeep | UpPublic | WaitPublic
    | CommitReady | Respond | LateDown
    | CleanupDown | CleanupFiles | SetError
    | Returned | Raised

  /** `alive` is cleared when the process that ran the create dies. */
  datatype Creator = Creator(plan: Plan, pc: Pc, alive: bool)

  datatype Session = Session(row: Row, world: World, creator: Creator)

  function NewSession(plan: Plan): Session {
    Session(PlaceholderRow(plan.sid, plan.ticket, plan.createdAt, plan.port), NOTHING, Creator(plan, GenTls, true))
  }

  predicate Finished(pc: Pc) {
    pc.Returned? || pc.Raised?
  }

  predicate InFlight(c: Creator) {
    c.alive && !Finished(c.pc)
  }

  /** What `clone_db` is asked for: `tables=spec.table_list or ()`. */
  function DumpOf(d: DbCred): Dump {
    Dump(d.name, if d.tables.Some? then d.tables.value else [])
  }

  function Dumps(creds: Creds): seq<Dump> {
    seq(|creds.dbs|, i requires 0 <= i < |creds.dbs| => DumpOf(creds.dbs[i]))
  }

  /** The users that `apply_grants` is asked to make. */
  function GrantsOf(creds: Creds): seq<Grant> {
    seq(|creds.dbs|, i requires 0 <= i < |creds.dbs| =>
      Grant(creds.dbs[i].name, creds.dbs[i].user, creds.dbs[i].password))
  }

  function AfterClones(plan: Plan, k: nat): Pc {
    if k < |plan.creds.dbs| then CloneDb(k) else EndTunnel(false)
  }

  function DefaultExpiry(cfg: Settings, plan: Plan): int {
    plan.createdAt + cfg.ttlDefault
  }

  function LatestExpiry(cfg: Settings, plan: Plan): int {
    plan.createdAt + cfg.ttlMax
  }

  /** What a create that succeeds returns. */
  datatype Response = Response(
    sid: Sid, port: int, expiresAt: int, maxExtendedUntil: int, databases: seq<DbCred>)

  function ResponseOf(cfg: Settings, plan: Plan): Response {
    Response(plan.sid, plan.port, DefaultExpiry(cfg, plan), LatestExpiry(cfg, plan), plan.creds.dbs)
  }

  datatype SessionView = SessionView(
    sid: Sid, ticket: Ticket, status: Status, port: int, expiresAt: int, maxExtendedUntil: int,
    ttlExtended: bool, databases: seq<DbCred>)

  datatype ViewError = NotFound | InvalidToken

  /** `view`: a row whose credentials are still the placeholder byte cannot be decrypted. */
  function View(t: Table, sid: Sid): Result<SessionView, ViewError> {
    if sid !in t then Failure(NotFound)
    else match Decrypt(t[sid].creds)
      case None => Failure(InvalidToken)
      case Some(c) =>
        var r := t[sid];
        Success(SessionView(r.id, r.ticket, r.status, r.port, r.expiresAt, r.maxExtendedUntil, r.ttlExtended, c.dbs))
  }

  /** What a step can only succeed with: `docker compose` needs the file, clients need the server, and
      a database that does not exist cannot be cloned. */
  predicate CanSucceed(s: Session) {
    match s.creator.pc
    case UpPrivate | UpPublic | DownKeep | LateDown | CleanupDown => s.world.file.Some?
    case WaitHealthy | WaitReady | LogOff | LogOn | Grants | WaitPublic => s.world.container.Some?
    case CloneDb(k) => s.world.container.Some? && k < |s.creator.plan.creds.dbs|
    case _ => true
  }

  function Goto(s: Session, pc: Pc): Session {
    s.(creator := s.creator.(pc := pc))
  }

  /** A step that raises sends the create to its cleanup. */
  function Then(s: Session, w: World, o: Outcome, next: Pc): Session {
    Goto(s.(world := w), if o.Done? then next else CleanupDown)
  }

  function CreatorStep(cfg: Settings, s: Session, o: Outcome): Session {
    var w, plan := s.world, s.creator.plan;
    match s.creator.pc
    case GenTls => Then(s, w, o, RenderPrivate)
    case RenderPrivate => Then(s, Render(w, Private, o), o, RenderCnf)
    case RenderCnf => Then(s, w, o, UpPrivate)
    case UpPrivate => Then(s, Up(w, o), o, WaitHealthy)
    case WaitHealthy => Then(s, w, o, WaitReady)
    case WaitReady => Then(s, w, o, LogOff)
    case LogOff => Goto(s.(world := SetGeneralLog(w, false, o)), Tunnel)  // best effort
    case Tunnel => Then(s, OpenTunnel(w, o), o, AfterClones(plan, 0))
    case CloneDb(k) =>
      var dump := if k < |plan.creds.dbs| then DumpOf(plan.creds.dbs[k]) else Dump("", []);
      Goto(s.(world := Clone(w, dump, o)), if o.Done? then AfterClones(plan, k + 1) else EndTunnel(true))
    case EndTunnel(failed) => Goto(s.(world := CloseTunnel(w, o)), if failed then CleanupDown else LogOn)
    case LogOn => Goto(s.(world := SetGeneralLog(w, true, o)), Grants)  // best effort
    case Grants => Then(s, ApplyGrants(w, GrantsOf(plan.creds), o), o, RenderPublic)
    case RenderPublic => Then(s, Render(w, Public, o), o, DownKeep)
    case DownKeep => Then(s, Down(w, false, o), o, UpPublic)
    case UpPublic => Then(s, Up(w, o), o, WaitPublic)
    case WaitPublic => Then(s, w, o, CommitReady)
    case CommitReady =>
      if o.Failed? then Goto(s, CleanupDown)  // the transaction raised and rolled back
      else if s.row.status.Starting? then
        var row := ReadyRow(s.row, Encrypt(plan.creds), DefaultExpiry(cfg, plan), LatestExpiry(cfg, plan));
        Goto(s.(row := row), Respond)
      else Goto(s, LateDown)
    case Respond => Goto(s, if o.Done? then Returned else CleanupDown)
    case LateDown => Goto(s.(world := Down(w, true, o)), CleanupDown)
    case CleanupDown => Goto(s.(world := Down(w, true, o)), CleanupFiles)
    case CleanupFiles => Goto(s.(world := RemoveFiles(w, o)), SetError)
    case SetError => Goto(s.(row := if o.Done? then s.row.(status := Error) else s.row), Raised)
    case Returned | Raised => s
  }

  /** The position of a program point in the script. */
  function Position(pc: Pc): nat {
    match pc
    case GenTls => 0 case RenderPrivate => 1 case RenderCnf => 2 case UpPrivate => 3
    case WaitHealthy => 4 case WaitReady => 5 case LogOff => 6 case Tunnel => 7
    case CloneDb(_) => 8 case EndTunnel(_) => 9 case LogOn => 10 case Grants => 11
    case RenderPublic => 12 case DownKeep => 13 case UpPublic => 14 case WaitPublic => 15
    case CommitReady => 16 case Respond => 17 case LateDown => 18
    case CleanupDown => 19 case CleanupFiles => 20 case SetError => 21
    case Returned => 22 case Raised => 23
  }

  /** Before `update_to_ready` (and not in the error path). */
  predicate BeforeCommit(pc: Pc) {
    Position(pc) <= 16
  }
}
