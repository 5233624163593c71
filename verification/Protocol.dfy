/** The whole service as one transition system. Sessions share the store; the calls in flight (resets,
    nukes, reaper passes) hold what they read from it. A step is one store transaction or one external
    effect, so every interleaving at that grain is a run. */
module Protocol {
  import opened Config
  import opened CreateScript
  import opened Ports
  import opened Store
  import opened World
  import opened Wrappers

  type CallId = nat

  /** A `reset_ttl` between its read and its `update_ttl`. */
  datatype Reset = Reset(sid: Sid, newExpiresAt: int)

  /** A `nuke` or `nuke_by_ticket` between its read and its `set_status`. */
  datatype Nuke = Nuke(sid: Sid, downTried: bool)

  /** A `reap_once`: the claimed records, the teardowns that have finished, the next one to commit. */
  datatype Pass = Pass(
    now: int,
    downWithVolumes: bool,
    expired: seq<Row>,
    stuck: seq<Row>,
    dispatched: bool,
    oks: map<nat, bool>,
    next: nat,
    aborted: bool
  ) {
    function Jobs(): nat {
      |expired| + |stuck|
    }

    function Job(i: nat): Row
      requires i < Jobs()
    {
      if i < |expired| then expired[i] else stuck[i - |expired|]
    }

    function JobVolumes(i: nat): bool {
      i >= |expired| && downWithVolumes
    }

    /** The test the commit loop makes on a record. */
    predicate WasStuck(rec: Row) {
      (rec.status.Expired? || rec.status.Starting? || rec.status.Error?) && rec in stuck
    }
  }

  datatype State = State(
    sessions: map<Sid, Session>,
    resets: map<CallId, Reset>,
    nukes: map<CallId, Nuke>,
    passes: map<CallId, Pass>
  )

  const INIT := State(map[], map[], map[], map[])

  function Rows(s: State): Table {
    map sid | sid in s.sessions :: s.sessions[sid].row
  }

  /** `Crash` is the death of one worker process: the creates and calls that it was running end there. */
  datatype Step =
    | Reserve(plan: Plan)
    | Create(sid: Sid, outcome: Outcome)
    | Crash(creates: set<Sid>, resets: set<CallId>, nukes: set<CallId>, passes: set<CallId>)
    | ResetRead(call: CallId, sid: Sid, now: int)
    | ResetWrite(call: CallId, outcome: Outcome)
    | NukeRead(call: CallId, sid: Sid, ticket: Option<Ticket>)
    | NukeDown(call: CallId, outcome: Outcome)
    | NukeWrite(call: CallId, outcome: Outcome)
    | ReapExpired(call: CallId, now: int, downWithVolumes: bool, recs: seq<Row>)
    | ReapStuck(call: CallId, outcome: Outcome, recs: seq<Row>)
    | ReapDown(call: CallId, job: nat, outcome: Outcome)
    | ReapMark(call: CallId, outcome: Outcome)
    | ReapEnd(call: CallId)

  /** What a run is assumed to be free of. With every flag off the run is arbitrary. */
  datatype Assumptions = Assumptions(
    cleanupDowns: bool,     // the down of a failed create's cleanup succeeds if its compose file exists
    nukeDowns: bool,        // likewise for nuke
    reaperDowns: bool,      // likewise for the reaper
    tunnelsClose: bool,     // closing a tunnel really ends its ssh process
    noOutliving: bool,      // no create is still running when its placeholder is claimed as stuck
    nukeAfterReturn: bool,  // only sids that create has already returned are nuked
    noCrash: bool,          // no worker process dies
    reaperCommits: bool,    // the reaper's own transactions do not raise
    keepVolumes: bool       // passes are started with the reaper loop's default, not to remove volumes
  )

  const ARBITRARY := Assumptions(false, false, false, false, false, false, false, false, false)

  // ---- reset_ttl ----

  predicate ResetAllowed(r: Row, now: int) {
    r.status.Ready? && !r.ttlExtended && now < r.maxExtendedUntil
  }

  function ResetExpiry(cfg: Settings, r: Row): int {
    Min(r.maxExtendedUntil, r.expiresAt + cfg.ttlResetAdd)
  }

  // ---- nuke ----

  /** `nuke` proceeds on any existing row; `nuke_by_ticket` only on a row of its ticket not yet nuked. */
  predicate NukeProceeds(r: Row, ticket: Option<Ticket>) {
    ticket.Some? ==> r.ticket == ticket.value && !r.status.Nuked?
  }

  // ---- steps ----

  /** The process that ran the session's create has died. */
  function Dead(ss: Session): Session {
    ss.(creator := ss.creator.(alive := false))
  }

  function SetRow(s: State, sid: Sid, r: Row): State
    requires sid in s.sessions
  {
    s.(sessions := s.sessions[sid := s.sessions[sid].(row := r)])
  }

  function SetWorld(s: State, sid: Sid, w: World): State
    requires sid in s.sessions
  {
    s.(sessions := s.sessions[sid := s.sessions[sid].(world := w)])
  }

  /** A step that can be taken at all: its call exists and is at the right point, its session exists,
      a claim returns the rows that are due, and an effect succeeds only where it can. */
  ghost predicate Fits(s: State, step: Step) {
    match step
    case Reserve(plan) => plan.sid !in s.sessions
    case Create(sid, o) =>
      sid in s.sessions && InFlight(s.sessions[sid].creator) && (o.Done? ==> CanSucceed(s.sessions[sid]))
    case Crash(_, _, _, _) => true
    case ResetRead(a, _, _) => a !in s.resets
    case ResetWrite(a, _) => a in s.resets && s.resets[a].sid in s.sessions
    case NukeRead(a, _, _) => a !in s.nukes
    case NukeDown(a, o) =>
      && a in s.nukes && !s.nukes[a].downTried && s.nukes[a].sid in s.sessions
      && (o.Done? ==> s.sessions[s.nukes[a].sid].world.file.Some?)
    case NukeWrite(a, _) => a in s.nukes && s.nukes[a].downTried && s.nukes[a].sid in s.sessions
    case ReapExpired(a, now, _, recs) =>
      a !in s.passes && Selects(recs, Rows(s), r => DueExpired(r, now))
    case ReapStuck(a, o, recs) =>
      && a in s.passes && !s.passes[a].dispatched
      && Selects(recs, Rows(s), r => DueStuck(r, s.passes[a].now))
    case ReapDown(a, i, o) =>
      && a in s.passes && s.passes[a].dispatched && i < s.passes[a].Jobs() && i !in s.passes[a].oks
      && s.passes[a].Job(i).id in s.sessions
    case ReapMark(a, _) =>
      && a in s.passes && s.passes[a].dispatched && !s.passes[a].aborted
      && s.passes[a].next < s.passes[a].Jobs() && s.passes[a].next in s.passes[a].oks
      && s.passes[a].Job(s.passes[a].next).id in s.sessions
    case ReapEnd(a) =>
      && a in s.passes && s.passes[a].dispatched
      && (!s.passes[a].aborted ==> s.passes[a].next == s.passes[a].Jobs())
      && (forall i | 0 <= i < s.passes[a].Jobs() :: i in s.passes[a].oks)
  }

  /** The steps the assumptions leave. */
  predicate Allowed(asm: Assumptions, s: State, step: Step) {
    match step
    case Create(sid, o) =>
      sid in s.sessions ==>
        && (asm.cleanupDowns && s.sessions[sid].creator.pc.CleanupDown? && s.sessions[sid].world.file.Some? ==> o.Done?)
        && (asm.tunnelsClose && s.sessions[sid].creator.pc.EndTunnel? ==> o.Done?)
    case Crash(_, _, _, _) => !asm.noCrash
    case NukeRead(_, sid, _) =>
      asm.nukeAfterReturn && sid in s.sessions ==> s.sessions[sid].creator.pc.Returned?
    case NukeDown(a, o) =>
      (asm.nukeDowns && a in s.nukes && s.nukes[a].sid in s.sessions
       && s.sessions[s.nukes[a].sid].world.file.Some?) ==> o.Done?
    case ReapExpired(_, _, downWithVolumes, _) => asm.keepVolumes ==> !downWithVolumes
    case ReapStuck(a, o, recs) =>
      && (asm.reaperCommits ==> o.Done?)
      && (asm.noOutliving ==> forall i | 0 <= i < |recs| ::
            recs[i].id in s.sessions ==> !InFlight(s.sessions[recs[i].id].creator))
    case ReapDown(a, i, o) =>
      (asm.reaperDowns && a in s.passes && i < s.passes[a].Jobs() && s.passes[a].Job(i).id in s.sessions
       && s.sessions[s.passes[a].Job(i).id].world.file.Some?) ==> o.Done?
    case ReapMark(_, o) => asm.reaperCommits ==> o.Done?
    case _ => true
  }

  function Reserved(cfg: Settings, s: State, plan: Plan): State {
    match FirstFree(UsedPorts(Rows(s)), cfg)
    case None => s
    case Some(p) => s.(sessions := s.sessions[plan.sid := NewSession(plan.(port := p))])
  }

  ghost function Apply(cfg: Settings, s: State, step: Step): State
    requires Fits(s, step)
  {
    match step
    case Reserve(plan) => Reserved(cfg, s, plan)
    case Create(sid, o) => s.(sessions := s.sessions[sid := CreatorStep(cfg, s.sessions[sid], o)])
    case Crash(creates, resets, nukes, passes) =>
      State(map sid | sid in s.sessions :: if sid in creates then Dead(s.sessions[sid]) else s.sessions[sid],
            s.resets - resets, s.nukes - nukes, s.passes - passes)
    case ResetRead(a, sid, now) =>
      if sid in s.sessions && ResetAllowed(s.sessions[sid].row, now)
      then s.(resets := s.resets[a := Reset(sid, ResetExpiry(cfg, s.sessions[sid].row))])
      else s
    case ResetWrite(a, o) =>
      var sid := s.resets[a].sid;
      var s' := if o.Done? then SetRow(s, sid, TtlRow(s.sessions[sid].row, s.resets[a].newExpiresAt, true)) else s;
      s'.(resets := s.resets - {a})
    case NukeRead(a, sid, ticket) =>
      if sid in s.sessions && NukeProceeds(s.sessions[sid].row, ticket)
      then s.(nukes := s.nukes[a := Nuke(sid, false)])
      else s
    case NukeDown(a, o) =>
      var sid := s.nukes[a].sid;
      SetWorld(s, sid, Down(s.sessions[sid].world, true, o)).(nukes := s.nukes[a := Nuke(sid, true)])
    case NukeWrite(a, o) =>
      var sid := s.nukes[a].sid;
      var s' := if o.Done? then SetRow(s, sid, s.sessions[sid].row.(status := Nuked)) else s;
      s'.(nukes := s.nukes - {a})
    case ReapExpired(a, now, volumes, recs) =>
      s.(sessions := map sid | sid in s.sessions :: s.sessions[sid].(row := ExpireRow(s.sessions[sid].row, now)),
         passes := s.passes[a := Pass(now, volumes, recs, [], false, map[], 0, false)])
    case ReapStuck(a, o, recs) =>
      if o.Done? then s.(passes := s.passes[a := s.passes[a].(stuck := recs, dispatched := true)])
      else s.(passes := s.passes - {a})
    case ReapDown(a, i, o) =>
      var p := s.passes[a];
      var sid := p.Job(i).id;
      var w := s.sessions[sid].world;
      if w.file.None? then s.(passes := s.passes[a := p.(oks := p.oks[i := true])])
      else SetWorld(s, sid, Down(w, p.JobVolumes(i), o)).(passes := s.passes[a := p.(oks := p.oks[i := o.Done?])])
    case ReapMark(a, o) =>
      var p := s.passes[a];
      var rec := p.Job(p.next);
      if !p.oks[p.next] then s.(passes := s.passes[a := p.(next := p.next + 1)])
      else if o.Failed? then s.(passes := s.passes[a := p.(aborted := true)])
      else
        var row := s.sessions[rec.id].row;
        SetRow(s, rec.id, if p.WasStuck(rec) then MarkNukedRow(row) else row.(status := Nuked)).(
          passes := s.passes[a := p.(next := p.next + 1)])
    case ReapEnd(a) => s.(passes := s.passes - {a})
  }

  // ---- a step as seen by one session ----

  /** What one step does to one session. */
  datatype Move =
    | Stay
    | Own(outcome: Outcome)        // a step of its own creator
    | Die                          // the process running its create dies
    | Extend(newExpiresAt: int)    // `update_ttl`
    | Expire(now: int)             // `claim_expired`
    | ForceNuked                   // `set_status(nuked)`
    | MarkNuked                    // `mark_nuked`
    | TearDown(removeVolumes: bool, outcome: Outcome)

  function Moved(cfg: Settings, ss: Session, m: Move): Session {
    match m
    case Stay => ss
    case Own(o) => CreatorStep(cfg, ss, o)
    case Die => Dead(ss)
    case Extend(e) => ss.(row := TtlRow(ss.row, e, true))
    case Expire(now) => ss.(row := ExpireRow(ss.row, now))
    case ForceNuked => ss.(row := ss.row.(status := Nuked))
    case MarkNuked => ss.(row := MarkNukedRow(ss.row))
    case TearDown(v, o) => ss.(world := Down(ss.world, v, o))
  }

  ghost function MoveOf(s: State, step: Step, sid: Sid): Move
    requires Fits(s, step) && sid in s.sessions
  {
    match step
    case Create(k, o) => if k == sid then Own(o) else Stay
    case Crash(creates, _, _, _) => if sid in creates then Die else Stay
    case ResetWrite(a, o) =>
      if s.resets[a].sid == sid && o.Done? then Extend(s.resets[a].newExpiresAt) else Stay
    case NukeDown(a, o) => if s.nukes[a].sid == sid then TearDown(true, o) else Stay
    case NukeWrite(a, o) => if s.nukes[a].sid == sid && o.Done? then ForceNuked else Stay
    case ReapExpired(a, now, _, _) => Expire(now)
    case ReapDown(a, i, o) =>
      if s.passes[a].Job(i).id == sid && s.sessions[sid].world.file.Some?
      then TearDown(s.passes[a].JobVolumes(i), o) else Stay
    case ReapMark(a, o) =>
      var p := s.passes[a];
      var rec := p.Job(p.next);
      if rec.id != sid || !p.oks[p.next] || o.Failed? then Stay
      else if p.WasStuck(rec) then MarkNuked else ForceNuked
    case _ => Stay
  }

  /** Sessions are never removed, and a step touches each only through its move. */
  lemma StepIsMove(cfg: Settings, s: State, step: Step, sid: Sid)
    requires Fits(s, step) && sid in s.sessions
    ensures sid in Apply(cfg, s, step).sessions
    ensures Apply(cfg, s, step).sessions[sid] == Moved(cfg, s.sessions[sid], MoveOf(s, step, sid))
  {
    hide Allowed, CreatorStep;
  }

  /** Exactly which resets go on to write: the row is ready, not extended, and before its hard limit. The
      pending write carries the expiry moved by the configured time, but not past the limit. */
  lemma ResetReadExactly(cfg: Settings, s: State, call: CallId, sid: Sid, now: int)
    requires call !in s.resets
    ensures var s' := Apply(cfg, s, ResetRead(call, sid, now));
      && (s' != s <==> call in s'.resets)
      && (s' != s <==>
            && sid in s.sessions && s.sessions[sid].row.status.Ready? && !s.sessions[sid].row.ttlExtended
            && now < s.sessions[sid].row.maxExtendedUntil)
      && (s' != s ==> var row, e := s.sessions[sid].row, s'.resets[call].newExpiresAt;
            && s' == s.(resets := s.resets[call := Reset(sid, e)])
            && e <= row.maxExtendedUntil && e <= row.expiresAt + cfg.ttlResetAdd
            && (e == row.maxExtendedUntil || e == row.expiresAt + cfg.ttlResetAdd))
  {
  }

  /** Exactly which nukes go on to tear down: those of an existing row, and by ticket only those of a row with
      that ticket which is not nuked yet. */
  lemma NukeReadExactly(cfg: Settings, s: State, call: CallId, sid: Sid, ticket: Option<Ticket>)
    requires call !in s.nukes
    ensures var s' := Apply(cfg, s, NukeRead(call, sid, ticket));
      && (s' != s <==> call in s'.nukes)
      && (s' != s <==>
            && sid in s.sessions
            && (ticket.None? || (ticket == Some(s.sessions[sid].row.ticket) && !s.sessions[sid].row.status.Nuked?)))
      && (s' != s ==> s' == s.(nukes := s.nukes[call := Nuke(sid, false)]))
  {
  }

  /** A session appears only when a create reserves it, on a port no live row uses. */
  lemma StepAdds(cfg: Settings, s: State, step: Step, sid: Sid)
    requires Fits(s, step) && sid !in s.sessions && sid in Apply(cfg, s, step).sessions
    ensures step.Reserve? && step.plan.sid == sid
    ensures exists p :: FirstFree(UsedPorts(Rows(s)), cfg) == Some(p)
                        && Apply(cfg, s, step).sessions[sid] == NewSession(step.plan.(port := p))
  {
    hide CreatorStep, NewSession;
  }

  /** How a pass may look after a step. */
  ghost predicate PassStep(s: State, step: Step, a: CallId, p': Pass)
    requires Fits(s, step)
  {
    if a !in s.passes then
      step.ReapExpired? && step.call == a
      && p' == Pass(step.now, step.downWithVolumes, step.recs, [], false, map[], 0, false)
    else
      var p := s.passes[a];
      match step
      case ReapStuck(b, o, recs) => p' == if b == a then p.(stuck := recs, dispatched := true) else p
      case ReapDown(b, i, o) =>
        p' == if b == a then p.(oks := p.oks[i := s.sessions[p.Job(i).id].world.file.None? || o.Done?]) else p
      case ReapMark(b, o) =>
        p' == if b != a then p else if p.oks[p.next] && o.Failed? then p.(aborted := true) else p.(next := p.next + 1)
      case _ => p' == p
  }

  lemma PassAfter(cfg: Settings, s: State, step: Step, a: CallId)
    requires Fits(s, step) && a in Apply(cfg, s, step).passes
    ensures PassStep(s, step, a, Apply(cfg, s, step).passes[a])
  {
    hide CreatorStep, NewSession, Selects, Down, ExpireRow, MarkNukedRow, UsedPorts, FirstFree;
  }

  lemma NukeAfter(cfg: Settings, s: State, step: Step, a: CallId)
    requires Fits(s, step) && a in Apply(cfg, s, step).nukes
    ensures var n := Apply(cfg, s, step).nukes[a];
      if a in s.nukes then n == s.nukes[a].(downTried := s.nukes[a].downTried || (step.NukeDown? && step.call == a))
      else step.NukeRead? && step.call == a && step.sid in s.sessions && n == Nuke(step.sid, false)
  {
    hide CreatorStep, NewSession, Selects, Down, ExpireRow, MarkNukedRow, UsedPorts, FirstFree;
  }

  /** The transaction on the `sessions` table that a step makes; the table itself if it makes none. */
  ghost function Transaction(cfg: Settings, s: State, step: Step): Table
    requires Fits(s, step)
  {
    var t := Rows(s);
    match step
    case Reserve(plan) => Store.Reserve(t, cfg, plan.sid, plan.ticket, plan.createdAt)
    case Create(sid, o) =>
      var plan, pc := s.sessions[sid].creator.plan, s.sessions[sid].creator.pc;
      if o.Failed? then t
      else if pc.CommitReady? then
        WithReady(t, sid, Encrypt(plan.creds), DefaultExpiry(cfg, plan), LatestExpiry(cfg, plan))
      else if pc.SetError? then WithStatus(t, sid, Error)
      else t
    case ResetWrite(a, o) => if o.Done? then WithTtl(t, s.resets[a].sid, s.resets[a].newExpiresAt, true) else t
    case NukeWrite(a, o) => if o.Done? then WithStatus(t, s.nukes[a].sid, Nuked) else t
    case ReapExpired(_, now, _, _) => ExpireDue(t, now)
    case ReapMark(a, o) =>
      var p := s.passes[a];
      var rec := p.Job(p.next);
      if o.Failed? || !p.oks[p.next] then t
      else if p.WasStuck(rec) then WithMarkNuked(t, rec.id) else WithStatus(t, rec.id, Nuked)
    case _ => t
  }

  /** The rows of the system move exactly as the store's transactions move its table. */
  lemma StepIsTransaction(cfg: Settings, s: State, step: Step)
    requires Fits(s, step)
    ensures Rows(Apply(cfg, s, step)) == Transaction(cfg, s, step)
  {
    hide Selects, FirstFree, CreatorStep;
    if !step.Reserve? {
      hide Apply, Moved, MoveOf, Fits;
      var s' := Apply(cfg, s, step);
      SessionsKept(cfg, s, step);
      forall sid | sid in s.sessions ensures s'.sessions[sid].row == Transaction(cfg, s, step)[sid] {
        StepIsMove(cfg, s, step, sid);
        MoveIsTransaction(cfg, s, step, sid);
      }
      TransactionKeeps(cfg, s, step);
    }
  }

  lemma TransactionKeeps(cfg: Settings, s: State, step: Step)
    requires Fits(s, step) && !step.Reserve?
    ensures Transaction(cfg, s, step).Keys == s.sessions.Keys
  {
    hide Selects;
  }

  lemma MoveIsTransaction(cfg: Settings, s: State, step: Step, sid: Sid)
    requires Fits(s, step) && !step.Reserve? && sid in s.sessions
    ensures sid in Transaction(cfg, s, step)
    ensures Moved(cfg, s.sessions[sid], MoveOf(s, step, sid)).row == Transaction(cfg, s, step)[sid]
  {
    hide Selects, Down, Clone, Up, Render, FirstFree, SetGeneralLog, ApplyGrants, OpenTunnel, CloseTunnel, RemoveFiles;
  }

  lemma SessionsKept(cfg: Settings, s: State, step: Step)
    requires Fits(s, step) && !step.Reserve?
    ensures Apply(cfg, s, step).sessions.Keys == s.sessions.Keys
  {
  }

  // ---- runs ----

  ghost predicate Run(cfg: Settings, asm: Assumptions, s: State, steps: seq<Step>)
    decreases |steps|
  {
    steps == [] || (
      && Fits(s, steps[0]) && Allowed(asm, s, steps[0])
      && Run(cfg, asm, Apply(cfg, s, steps[0]), steps[1..]))
  }

  ghost function End(cfg: Settings, asm: Assumptions, s: State, steps: seq<Step>): State
    requires Run(cfg, asm, s, steps)
    decreases |steps|
  {
    if steps == [] then s else End(cfg, asm, Apply(cfg, s, steps[0]), steps[1..])
  }

  /** No create, reset, nuke or reap is under way. */
  predicate Quiescent(s: State) {
    && (forall sid | sid in s.sessions :: !InFlight(s.sessions[sid].creator))
    && s.resets == map[] && s.nukes == map[] && s.passes == map[]
  }
}
