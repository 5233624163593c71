/** What every step keeps of the compose files, containers, volumes and tunnels, each under exactly the
    assumptions it needs. */
module WorldSafety {
  import opened Config
  import opened CreateScript
  import opened Protocol
  import opened RowSafety
  import opened Store
  import opened World
  import opened Wrappers

  /** Nobody but its creator touches a session whose create is still running. */
  predicate Owned(asm: Assumptions) {
    asm.noOutliving && asm.nukeAfterReturn
  }

  /** Nobody but its creator removes the volume of a create that is still running. */
  predicate VolumesSafe(asm: Assumptions) {
    asm.nukeAfterReturn && (asm.noOutliving || asm.keepVolumes)
  }

  predicate Recoverable(asm: Assumptions) {
    Owned(asm) && asm.cleanupDowns && asm.nukeDowns
  }

  predicate Tidy(asm: Assumptions) {
    Recoverable(asm) && asm.reaperDowns && asm.noCrash && asm.reaperCommits
  }

  predicate Working(c: Creator) {
    c.alive && BeforeCommit(c.pc)
  }

  /** Everything the request asked for, and nothing half-done. */
  function FullVolume(plan: Plan): Volume {
    Volume(Dumps(plan.creds), Some(GrantsOf(plan.creds)), false)
  }

  // ---- order of publication: no assumption on the other actors ----

  predicate OrderOk(asm: Assumptions, ss: Session) {
    var w, at := ss.world, Position(ss.creator.pc);
    && (w.file == Some(Public) ==> at >= 13)
    && (w.container == Some(Public) ==> at >= 15)
    && (asm.tunnelsClose && w.tunnel ==> ss.creator.pc.CloneDb? || ss.creator.pc.EndTunnel?)
  }

  // ---- the compose file outlives the container ----

  predicate ComposeOk(ss: Session) {
    && (ss.world.container.Some? ==> ss.world.file.Some?)
    && (ss.creator.pc.CleanupFiles? || ss.creator.pc.SetError? || ss.creator.pc.Raised? ==> ss.world.container.None?)
  }

  // ---- ownership ----

  /** Before its commit, a living create still has its placeholder. */
  predicate OwnerOk(ss: Session) {
    (Working(ss.creator) ==> ss.row.status.Starting?) && !ss.creator.pc.LateDown?
  }

  predicate NukeOwned(s: State, a: CallId)
    requires a in s.nukes
  {
    s.nukes[a].sid in s.sessions && s.sessions[s.nukes[a].sid].creator.pc.Returned?
  }

  predicate StuckOwned(s: State, a: CallId, i: nat)
    requires a in s.passes && i < s.passes[a].Jobs()
  {
    s.passes[a].Job(i).id in s.sessions && !InFlight(s.sessions[s.passes[a].Job(i).id].creator)
  }

  ghost predicate NukesOwned(s: State) {
    forall a | a in s.nukes :: NukeOwned(s, a)
  }

  ghost predicate PassesKeep(s: State) {
    forall a | a in s.passes :: !s.passes[a].downWithVolumes
  }

  ghost predicate OwnersOk(s: State) {
    && (forall sid | sid in s.sessions :: OwnerOk(s.sessions[sid]))
    && NukesOwned(s)
    && (forall a, i | a in s.passes && |s.passes[a].expired| <= i < s.passes[a].Jobs() :: StuckOwned(s, a, i))
  }

  // ---- the world at each point of a create ----

  predicate PlacedAt(ss: Session) {
    var w, at := ss.world, Position(ss.creator.pc);
    && w.file == (if at <= 1 then None else if at <= 12 then Some(Private) else Some(Public))
    && w.container == (if at <= 3 || at == 14 then None else if at <= 13 then Some(Private) else Some(Public))
    && (15 <= at ==> w.generalLog)
  }

  predicate LoadedAt(ss: Session) {
    var v, plan, pc := ss.world.volume, ss.creator.plan, ss.creator.pc;
    var at, dumps := Position(pc), Dumps(plan.creds);
    && (at <= 3 ==> v == None)
    && (4 <= at <= 7 ==> v == Some(EMPTY_VOLUME))
    && (pc.CloneDb? ==> pc.k < |dumps| && v == Some(Volume(dumps[..pc.k], None, false)))
    && (pc == EndTunnel(false) || at == 10 || at == 11 ==> v == Some(Volume(dumps, None, false)))
    && (12 <= at ==> v == Some(FullVolume(plan)))
  }

  predicate PlacedOk(ss: Session) {
    Working(ss.creator) ==> PlacedAt(ss)
  }

  predicate LoadOk(ss: Session) {
    && (Working(ss.creator) ==> LoadedAt(ss))
    && (ss.world.container == Some(Public) ==> ss.world.volume == Some(FullVolume(ss.creator.plan)))
  }

  // ---- containers and row statuses ----

  predicate NukeDowned(s: State, a: CallId)
    requires a in s.nukes
  {
    s.nukes[a].sid in s.sessions && s.sessions[s.nukes[a].sid].world.container.None?
  }

  predicate JobDowned(s: State, a: CallId, i: nat)
    requires a in s.passes && i < s.passes[a].Jobs()
  {
    s.passes[a].Job(i).id in s.sessions && s.sessions[s.passes[a].Job(i).id].world.container.None?
  }

  ghost predicate RecoverOk(s: State) {
    && (forall sid | sid in s.sessions && s.sessions[sid].world.container.Some? :: Live(s.sessions[sid].row.status))
    && (forall a | a in s.nukes && s.nukes[a].downTried :: NukeDowned(s, a))
    && (forall a, i | a in s.passes && 0 <= i < s.passes[a].Jobs() && i in s.passes[a].oks && s.passes[a].oks[i] ::
          JobDowned(s, a, i))
  }

  // ---- quiescence ----

  /** A pass in flight has claimed the session and not torn it down yet. */
  ghost predicate Pending(s: State, sid: Sid) {
    exists a, i: nat :: a in s.passes && PendingJob(s.passes[a], i, sid)
  }

  predicate PendingJob(p: Pass, i: nat, sid: Sid) {
    i < p.Jobs() && p.Job(i).id == sid && i !in p.oks
  }

  ghost predicate TidyOk(s: State) {
    forall sid | sid in s.sessions ::
      && s.sessions[sid].creator.alive
      && (s.sessions[sid].row.status.Expired? && s.sessions[sid].world.container.Some? ==> Pending(s, sid))
  }

  ghost predicate WorldInv(asm: Assumptions, s: State) {
    && (forall sid | sid in s.sessions :: OrderOk(asm, s.sessions[sid]))
    && (asm.cleanupDowns ==> forall sid | sid in s.sessions :: ComposeOk(s.sessions[sid]))
    && (asm.nukeAfterReturn ==> NukesOwned(s))
    && (asm.keepVolumes ==> PassesKeep(s))
    && (VolumesSafe(asm) ==> forall sid | sid in s.sessions :: LoadOk(s.sessions[sid]))
    && (Owned(asm) ==> OwnersOk(s) && forall sid | sid in s.sessions :: PlacedOk(s.sessions[sid]))
    && (Recoverable(asm) ==> RecoverOk(s))
    && (Tidy(asm) ==> TidyOk(s))
  }

  // ---- moves ----

  /** The outcomes the assumptions leave to a move of this session. */
  predicate MoveAllowed(asm: Assumptions, ss: Session, m: Move) {
    m.Own? ==>
      && InFlight(ss.creator) && (m.outcome.Done? ==> CanSucceed(ss))
      && (asm.cleanupDowns && ss.creator.pc.CleanupDown? && ss.world.file.Some? ==> m.outcome.Done?)
      && (asm.tunnelsClose && ss.creator.pc.EndTunnel? ==> m.outcome.Done?)
  }

  lemma OwnStepOrder(cfg: Settings, asm: Assumptions, ss: Session, o: Outcome)
    requires OrderOk(asm, ss) && InFlight(ss.creator)
    ensures var w, at := CreatorStep(cfg, ss, o).world, Position(CreatorStep(cfg, ss, o).creator.pc);
      (w.file == Some(Public) ==> at >= 13) && (w.container == Some(Public) ==> at >= 15)
  {
  }

  lemma OwnStepTunnel(cfg: Settings, asm: Assumptions, ss: Session, o: Outcome)
    requires OrderOk(asm, ss) && asm.tunnelsClose && (ss.creator.pc.EndTunnel? ==> o.Done?)
    ensures var next := CreatorStep(cfg, ss, o);
      next.world.tunnel ==> next.creator.pc.CloneDb? || next.creator.pc.EndTunnel?
  {
  }

  lemma MoveKeepsOrder(cfg: Settings, asm: Assumptions, ss: Session, m: Move)
    requires OrderOk(asm, ss) && MoveAllowed(asm, ss, m)
    ensures OrderOk(asm, Moved(cfg, ss, m))
  {
    hide CreatorStep;
    if m.Own? {
      OwnStepOrder(cfg, asm, ss, m.outcome);
      if asm.tunnelsClose {
        OwnStepTunnel(cfg, asm, ss, m.outcome);
      }
    }
  }

  lemma MoveKeepsCompose(cfg: Settings, asm: Assumptions, ss: Session, m: Move)
    requires asm.cleanupDowns && ComposeOk(ss) && MoveAllowed(asm, ss, m)
    ensures ComposeOk(Moved(cfg, ss, m))
  {
  }

  lemma OwnStepPlaces(cfg: Settings, ss: Session, o: Outcome)
    requires Working(ss.creator) && PlacedAt(ss) && (o.Done? ==> CanSucceed(ss))
    ensures Working(CreatorStep(cfg, ss, o).creator) ==> PlacedAt(CreatorStep(cfg, ss, o))
  {
  }

  lemma CloneLoads(cfg: Settings, ss: Session, o: Outcome)
    requires ss.creator.alive && ss.creator.pc.CloneDb? && LoadedAt(ss)
    ensures Working(CreatorStep(cfg, ss, o).creator) && o.Done? ==> LoadedAt(CreatorStep(cfg, ss, o))
  {
    var dumps, k := Dumps(ss.creator.plan.creds), ss.creator.pc.k;
    assert dumps[..|dumps|] == dumps;
    assert dumps[..k] + [dumps[k]] == dumps[..k + 1];
  }

  lemma OwnStepLoads(cfg: Settings, ss: Session, o: Outcome)
    requires Working(ss.creator) && LoadedAt(ss) && (o.Done? ==> CanSucceed(ss))
    ensures Working(CreatorStep(cfg, ss, o).creator) ==> LoadedAt(CreatorStep(cfg, ss, o))
  {
    hide Clone;
    var dumps := Dumps(ss.creator.plan.creds);
    assert dumps[..0] == [];
    if ss.creator.pc.CloneDb? {
      CloneLoads(cfg, ss, o);
    }
  }

  lemma OwnStepPublishes(cfg: Settings, asm: Assumptions, ss: Session, o: Outcome)
    requires LoadOk(ss) && OrderOk(asm, ss) && MoveAllowed(asm, ss, Own(o))
    ensures CreatorStep(cfg, ss, o).world.container == Some(Public) ==>
              CreatorStep(cfg, ss, o).world.volume == Some(FullVolume(ss.creator.plan))
  {
  }

  lemma OwnStepStays(cfg: Settings, ss: Session, o: Outcome)
    ensures CreatorStep(cfg, ss, o).creator.plan == ss.creator.plan
    ensures Working(CreatorStep(cfg, ss, o).creator) ==> Working(ss.creator)
  {
  }

  /** The move removes the volume under a create that is still working. */
  predicate Empties(ss: Session, m: Move) {
    && Working(ss.creator) && m.TearDown? && m.removeVolumes && Removing(m.outcome)
    && ss.world.file.Some? && ss.world.volume.Some?
  }

  /** The move takes down the container of a create that is about to commit. */
  predicate Stops(ss: Session, m: Move) {
    && ss.creator.alive && ss.creator.pc.CommitReady?
    && m.TearDown? && m.outcome != Failed(Nothing) && ss.world.file.Some? && ss.world.container.Some?
  }

  /** The volume's contents survive everything but the removal of the volume. */
  lemma MoveKeepsLoad(cfg: Settings, asm: Assumptions, ss: Session, m: Move)
    requires LoadOk(ss) && OrderOk(asm, ss) && MoveAllowed(asm, ss, m)
    requires !Empties(ss, m)
    ensures LoadOk(Moved(cfg, ss, m))
  {
    hide CreatorStep;
    if m.TearDown? {
      DownRemoves(ss.world, m.removeVolumes, m.outcome);
    }
    if m.Own? {
      OwnStepPublishes(cfg, asm, ss, m.outcome);
      OwnStepStays(cfg, ss, m.outcome);
      if Working(ss.creator) {
        OwnStepLoads(cfg, ss, m.outcome);
      }
    }
  }

  lemma MoveKeepsPlaces(cfg: Settings, asm: Assumptions, ss: Session, m: Move)
    requires PlacedOk(ss) && MoveAllowed(asm, ss, m)
    requires m.TearDown? ==> !Working(ss.creator)
    ensures PlacedOk(Moved(cfg, ss, m))
  {
    hide CreatorStep;
    if m.Own? {
      OwnStepStays(cfg, ss, m.outcome);
      if Working(ss.creator) {
        OwnStepPlaces(cfg, ss, m.outcome);
      }
    }
  }

  lemma StepIsAllowedMove(cfg: Settings, asm: Assumptions, s: State, step: Step, sid: Sid)
    requires Fits(s, step) && Allowed(asm, s, step) && sid in s.sessions
    ensures sid in Apply(cfg, s, step).sessions
    ensures Apply(cfg, s, step).sessions[sid] == Moved(cfg, s.sessions[sid], MoveOf(s, step, sid))
    ensures MoveAllowed(asm, s.sessions[sid], MoveOf(s, step, sid))
  {
    StepIsMove(cfg, s, step, sid);
  }

  /** Under ownership, teardowns and status writes by others never hit a create that is still working. */
  lemma InterferenceIsLate(cfg: Settings, s: State, step: Step, sid: Sid)
    requires RowInv(cfg, s) && OwnersOk(s) && Fits(s, step) && sid in s.sessions
    ensures var m := MoveOf(s, step, sid);
      m.TearDown? || m.ForceNuked? || m.MarkNuked? ==> !Working(s.sessions[sid].creator)
  {
    hide RowInv, Selects;
    if step.ReapDown? && s.passes[step.call].Job(step.job).id == sid {
      JobIsLate(cfg, s, step.call, step.job);
    } else if step.ReapMark? && s.passes[step.call].Job(s.passes[step.call].next).id == sid {
      JobIsLate(cfg, s, step.call, s.passes[step.call].next);
    } else if step.NukeDown? || step.NukeWrite? {
      assert NukeOwned(s, step.call);
    }
  }

  lemma JobIsLate(cfg: Settings, s: State, a: CallId, i: nat)
    requires RowInv(cfg, s) && OwnersOk(s) && a in s.passes && i < s.passes[a].Jobs()
    ensures s.passes[a].Job(i).id in s.sessions && !Working(s.sessions[s.passes[a].Job(i).id].creator)
  {
    assert ClaimOk(s.passes[a], i, s.sessions);
    if i >= |s.passes[a].expired| { assert StuckOwned(s, a, i); }
    assert RowOk(cfg, s.passes[a].Job(i).id, s.sessions[s.passes[a].Job(i).id]);
  }

  /** Nobody removes the volume of a create that is still working, even if its placeholder is claimed,
      as long as passes keep volumes. */
  lemma VolumesLeftAlone(cfg: Settings, asm: Assumptions, s: State, step: Step, sid: Sid)
    requires RowInv(cfg, s) && WorldInv(asm, s) && VolumesSafe(asm) && Fits(s, step) && sid in s.sessions
    ensures !Empties(s.sessions[sid], MoveOf(s, step, sid))
  {
    hide RowInv, Selects, LoadOk, PlacedOk, OrderOk, RecoverOk, TidyOk;
    if step.NukeDown? {
      assert NukeOwned(s, step.call);
    } else if asm.noOutliving {
      InterferenceIsLate(cfg, s, step, sid);
    } else if step.ReapDown? {
      assert !s.passes[step.call].downWithVolumes;
    }
  }
}
