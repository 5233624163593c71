/** What a create has done so far, read off the run itself; whoever interferes, its results are never
    published, and it never returns, before everything the request asked for is done. */
module Publication {
  import opened Config
  import opened CreateScript
  import opened Protocol
  import opened RowSafety
  import opened Store
  import opened World
  import opened WorldSafety
  import opened Wrappers

  /** The steps that a create took: the clones that succeeded, in order; whether the grants were applied;
      whether a step that must succeed failed; whether its own `update_to_ready` moved the row from starting
      to ready, or lost the race; how often it tore down with volumes; and whether its error write committed,
      if it was made; and how its flips of the audit log went. */
  datatype History = History(
    cloned: seq<Dump>,
    granted: bool,
    failed: bool,
    committed: bool,
    lost: bool,
    teardowns: nat,
    errorWritten: seq<bool>,
    logOff: seq<bool>,
    logOn: seq<bool>
  )

  const NO_HISTORY := History([], false, false, false, false, 0, [], [], [])

  /** The steps whose failure does not fail the create. */
  predicate BestEffort(pc: Pc) {
    pc.LogOff? || pc.LogOn? || pc.EndTunnel? || pc.LateDown? || pc.CleanupDown? || pc.CleanupFiles? || pc.SetError?
  }

  /** The creator's own step with outcome `o`. */
  function Noted(ss: Session, o: Outcome, h: History): History {
    var dbs, pc := ss.creator.plan.creds.dbs, ss.creator.pc;
    if o.Failed? && !BestEffort(pc) then h.(failed := true)
    else
      match pc
      case LogOff => h.(logOff := h.logOff + [o.Done?])
      case LogOn => h.(logOn := h.logOn + [o.Done?])
      case CloneDb(k) => if k < |dbs| then h.(cloned := h.cloned + [DumpOf(dbs[k])]) else h
      case Grants => h.(granted := true)
      case CommitReady => if ss.row.status.Starting? then h.(committed := true) else h.(lost := true)
      case LateDown | CleanupDown => h.(teardowns := h.teardowns + 1)
      case SetError => h.(errorWritten := h.errorWritten + [o.Done?])
      case _ => h
  }

  function Recorded(s: State, step: Step, sid: Sid, h: History): History {
    if step.Create? && step.sid == sid && sid in s.sessions then Noted(s.sessions[sid], step.outcome, h) else h
  }

  /** The history of the create of `sid` over a run that starts with history `h`. */
  ghost function HistoryOf(cfg: Settings, asm: Assumptions, s: State, steps: seq<Step>, sid: Sid, h: History): History
    requires Run(cfg, asm, s, steps)
    decreases |steps|
  {
    if steps == [] then h
    else HistoryOf(cfg, asm, Apply(cfg, s, steps[0]), steps[1..], sid, Recorded(s, steps[0], sid, h))
  }

  // ---- how a history and a program point go together ----

  predicate ProvisionedAt(ss: Session, h: History) {
    var dumps, pc := Dumps(ss.creator.plan.creds), ss.creator.pc;
    var at := Position(pc);
    && (at <= 7 ==> h.cloned == [])
    && (pc.CloneDb? ==> pc.k < |dumps| && h.cloned == dumps[..pc.k])
    && (pc == EndTunnel(false) || 10 <= at <= 18 || pc.Returned? ==> h.cloned == dumps)
    && (12 <= at <= 18 || pc.Returned? ==> h.granted)
  }

  predicate PublishedAfter(ss: Session, h: History) {
    (ss.world.file == Some(Public) || ss.world.container == Some(Public) || h.committed ==>
      h.cloned == Dumps(ss.creator.plan.creds) && h.granted)
  }

  predicate ErrorPath(pc: Pc) {
    pc == EndTunnel(true) || pc.LateDown? || pc.CleanupDown? || pc.CleanupFiles? || pc.SetError? || pc.Raised?
  }

  predicate OutcomeAt(ss: Session, h: History) {
    var pc := ss.creator.pc;
    && (h.failed || h.lost <==> ErrorPath(pc))
    && (h.lost ==> !h.committed) && (pc.LateDown? ==> h.lost)
    && (h.committed <==> ss.row.creds.Token?)
    && (pc.Respond? || pc.Returned? ==> h.committed)
    && h.teardowns == (if h.lost && !pc.LateDown? then 1 else 0)
                      + (if pc.CleanupFiles? || pc.SetError? || pc.Raised? then 1 else 0)
    && |h.errorWritten| == (if pc.Raised? then 1 else 0)
    && (pc.Raised? && h.errorWritten[0] ==> ss.row.status.Error? || ss.row.status.Nuked?)
    && (ss.row.status.Error? ==> pc.Raised? && h.errorWritten[0])
  }

  /** The audit log is switched off once before the tunnel opens and on once after the clones; whenever the
      switch worked, it stays that way until the next one. */
  predicate AuditedAt(ss: Session, h: History) {
    var at, log := Position(ss.creator.pc), ss.world.generalLog;
    && (at <= 6 ==> h.logOff == []) && (at <= 10 ==> h.logOn == [])
    && (7 <= at <= 18 || ss.creator.pc.Returned? ==> |h.logOff| == 1)
    && (7 <= at <= 10 && h.logOff[0] ==> !log)
    && (11 <= at <= 18 || ss.creator.pc.Returned? ==> |h.logOn| == 1)
    && (11 <= at <= 14 && h.logOn[0] ==> log)
  }

  predicate Consistent(ss: Session, h: History) {
    ProvisionedAt(ss, h) && PublishedAfter(ss, h) && OutcomeAt(ss, h) && AuditedAt(ss, h)
  }

  predicate HistoryOk(s: State, sid: Sid, h: History) {
    if sid in s.sessions then Consistent(s.sessions[sid], h) else h == NO_HISTORY
  }

  // ---- every step ----

  lemma CloneProvisions(cfg: Settings, asm: Assumptions, ss: Session, o: Outcome, h: History)
    requires ss.creator.pc.CloneDb? && ProvisionedAt(ss, h) && MoveAllowed(asm, ss, Own(o))
    ensures ProvisionedAt(CreatorStep(cfg, ss, o), Noted(ss, o, h))
  {
    hide Clone;
    var dumps, k := Dumps(ss.creator.plan.creds), ss.creator.pc.k;
    assert dumps[..|dumps|] == dumps;
    assert dumps[..k] + [dumps[k]] == dumps[..k + 1];
  }

  lemma DumpsStart(creds: Creds)
    ensures |Dumps(creds)| == |creds.dbs| && Dumps(creds)[..0] == []
    ensures creds.dbs == [] ==> Dumps(creds) == []
  {
  }

  lemma EarlyProvisions(cfg: Settings, asm: Assumptions, ss: Session, o: Outcome, h: History)
    requires Position(ss.creator.pc) <= 7 && ProvisionedAt(ss, h) && MoveAllowed(asm, ss, Own(o))
    ensures ProvisionedAt(CreatorStep(cfg, ss, o), Noted(ss, o, h))
  {
    hide Render, Up, SetGeneralLog, OpenTunnel, Dumps, CanSucceed;
    DumpsStart(ss.creator.plan.creds);
  }

  lemma GrantsProvision(cfg: Settings, asm: Assumptions, ss: Session, o: Outcome, h: History)
    requires 9 <= Position(ss.creator.pc) <= 13 && ProvisionedAt(ss, h) && MoveAllowed(asm, ss, Own(o))
    ensures ProvisionedAt(CreatorStep(cfg, ss, o), Noted(ss, o, h))
  {
    hide Render, Up, Down, Clone, ApplyGrants, SetGeneralLog, OpenTunnel, CloseTunnel, RemoveFiles, Encrypt;
    hide Dumps, ReadyRow, DefaultExpiry, LatestExpiry, CanSucceed;
  }

  lemma LateProvisions(cfg: Settings, asm: Assumptions, ss: Session, o: Outcome, h: History)
    requires Position(ss.creator.pc) >= 14 && ProvisionedAt(ss, h) && MoveAllowed(asm, ss, Own(o))
    ensures ProvisionedAt(CreatorStep(cfg, ss, o), Noted(ss, o, h))
  {
    hide Render, Up, Down, Clone, ApplyGrants, SetGeneralLog, OpenTunnel, CloseTunnel, RemoveFiles, Encrypt;
    hide Dumps, ReadyRow, DefaultExpiry, LatestExpiry, CanSucceed;
  }

  lemma EarlyPublishes(cfg: Settings, asm: Assumptions, ss: Session, o: Outcome, h: History)
    requires Position(ss.creator.pc) <= 12 && ProvisionedAt(ss, h) && PublishedAfter(ss, h)
    requires OrderOk(asm, ss) && MoveAllowed(asm, ss, Own(o))
    ensures PublishedAfter(CreatorStep(cfg, ss, o), Noted(ss, o, h))
  {
  }

  lemma LatePublishes(cfg: Settings, asm: Assumptions, ss: Session, o: Outcome, h: History)
    requires Position(ss.creator.pc) >= 13 && ProvisionedAt(ss, h) && PublishedAfter(ss, h)
    requires OrderOk(asm, ss) && MoveAllowed(asm, ss, Own(o))
    ensures PublishedAfter(CreatorStep(cfg, ss, o), Noted(ss, o, h))
  {
  }

  lemma WorkingStepEnds(cfg: Settings, sid: Sid, ss: Session, o: Outcome, h: History)
    requires Position(ss.creator.pc) <= 15 && RowOk(cfg, sid, ss) && OutcomeAt(ss, h)
    ensures OutcomeAt(CreatorStep(cfg, ss, o), Noted(ss, o, h))
  {
    hide Render, Up, Down, Clone, ApplyGrants, SetGeneralLog, OpenTunnel, CloseTunnel, DumpOf, GrantsOf;
    hide DefaultExpiry, LatestExpiry, ExtendedExpiry;
  }

  lemma LastStepEnds(cfg: Settings, sid: Sid, ss: Session, o: Outcome, h: History)
    requires Position(ss.creator.pc) >= 16 && InFlight(ss.creator) && RowOk(cfg, sid, ss) && OutcomeAt(ss, h)
    ensures OutcomeAt(CreatorStep(cfg, ss, o), Noted(ss, o, h))
  {
    hide Down, RemoveFiles;
  }

  lemma EarlyAudits(cfg: Settings, asm: Assumptions, ss: Session, o: Outcome, h: History)
    requires Position(ss.creator.pc) <= 7 && AuditedAt(ss, h) && MoveAllowed(asm, ss, Own(o))
    ensures AuditedAt(CreatorStep(cfg, ss, o), Noted(ss, o, h))
  {
    hide Dumps, DumpOf, GrantsOf, Render, Up;
  }

  lemma CloneAudits(cfg: Settings, asm: Assumptions, ss: Session, o: Outcome, h: History)
    requires 8 <= Position(ss.creator.pc) <= 9 && AuditedAt(ss, h) && MoveAllowed(asm, ss, Own(o))
    ensures AuditedAt(CreatorStep(cfg, ss, o), Noted(ss, o, h))
  {
    hide Dumps, DumpOf, GrantsOf;
  }

  lemma RestartAudits(cfg: Settings, asm: Assumptions, ss: Session, o: Outcome, h: History)
    requires 10 <= Position(ss.creator.pc) <= 14 && AuditedAt(ss, h) && MoveAllowed(asm, ss, Own(o))
    ensures AuditedAt(CreatorStep(cfg, ss, o), Noted(ss, o, h))
  {
    hide Dumps, DumpOf, GrantsOf, RemoveFiles, Encrypt;
  }

  lemma FinalAudits(cfg: Settings, asm: Assumptions, ss: Session, o: Outcome, h: History)
    requires 15 <= Position(ss.creator.pc) && AuditedAt(ss, h) && MoveAllowed(asm, ss, Own(o))
    ensures AuditedAt(CreatorStep(cfg, ss, o), Noted(ss, o, h))
  {
    hide Dumps, DumpOf, GrantsOf, RemoveFiles, Encrypt;
  }

  /** Others change neither the program point nor what it goes together with. */
  lemma OthersKeepHistory(cfg: Settings, sid: Sid, ss: Session, m: Move, h: History)
    requires RowOk(cfg, sid, ss) && Consistent(ss, h) && !m.Own?
    ensures Consistent(Moved(cfg, ss, m), h)
  {
  }

  lemma OwnStepKeepsHistory(cfg: Settings, asm: Assumptions, sid: Sid, ss: Session, o: Outcome, h: History)
    requires RowOk(cfg, sid, ss) && Consistent(ss, h) && OrderOk(asm, ss) && MoveAllowed(asm, ss, Own(o))
    ensures Consistent(CreatorStep(cfg, ss, o), Noted(ss, o, h))
  {
    hide CreatorStep, Noted, ProvisionedAt, PublishedAfter, OutcomeAt, AuditedAt;
    if ss.creator.pc.CloneDb? {
      CloneProvisions(cfg, asm, ss, o, h);
    } else if Position(ss.creator.pc) <= 7 {
      EarlyProvisions(cfg, asm, ss, o, h);
    } else if Position(ss.creator.pc) <= 13 {
      GrantsProvision(cfg, asm, ss, o, h);
    } else {
      LateProvisions(cfg, asm, ss, o, h);
    }
    if Position(ss.creator.pc) <= 12 {
      EarlyPublishes(cfg, asm, ss, o, h);
    } else {
      LatePublishes(cfg, asm, ss, o, h);
    }
    if Position(ss.creator.pc) <= 7 {
      EarlyAudits(cfg, asm, ss, o, h);
    } else if Position(ss.creator.pc) <= 9 {
      CloneAudits(cfg, asm, ss, o, h);
    } else if Position(ss.creator.pc) <= 14 {
      RestartAudits(cfg, asm, ss, o, h);
    } else {
      FinalAudits(cfg, asm, ss, o, h);
    }
    if Position(ss.creator.pc) <= 15 {
      WorkingStepEnds(cfg, sid, ss, o, h);
    } else {
      LastStepEnds(cfg, sid, ss, o, h);
    }
  }

  lemma StepKeepsHistory(cfg: Settings, asm: Assumptions, s: State, step: Step, sid: Sid, h: History)
    requires RowInv(cfg, s) && (sid in s.sessions ==> OrderOk(asm, s.sessions[sid])) && HistoryOk(s, sid, h)
    requires Fits(s, step) && Allowed(asm, s, step)
    ensures HistoryOk(Apply(cfg, s, step), sid, Recorded(s, step, sid, h))
    ensures sid in Apply(cfg, s, step).sessions ==> OrderOk(asm, Apply(cfg, s, step).sessions[sid])
  {
    hide CreatorStep, Noted, Consistent;
    if sid in s.sessions {
      var ss, m := s.sessions[sid], MoveOf(s, step, sid);
      StepIsAllowedMove(cfg, asm, s, step, sid);
      MoveKeepsOrder(cfg, asm, ss, m);
      if m.Own? {
        OwnStepKeepsHistory(cfg, asm, sid, ss, m.outcome, h);
      } else {
        OthersKeepHistory(cfg, sid, ss, m, h);
      }
    } else if sid in Apply(cfg, s, step).sessions {
      StepAdds(cfg, s, step, sid);
      NewHistory(asm, Apply(cfg, s, step).sessions[sid].creator.plan);
    }
  }

  lemma NewHistory(asm: Assumptions, plan: Plan)
    ensures Consistent(NewSession(plan), NO_HISTORY)
    ensures OrderOk(asm, NewSession(plan))
  {
  }

  lemma {:induction false} RunKeepsHistory(
      cfg: Settings, asm: Assumptions, s: State, steps: seq<Step>, sid: Sid, h: History)
    requires RowInv(cfg, s) && (sid in s.sessions ==> OrderOk(asm, s.sessions[sid])) && HistoryOk(s, sid, h)
    requires Run(cfg, asm, s, steps)
    ensures HistoryOk(End(cfg, asm, s, steps), sid, HistoryOf(cfg, asm, s, steps, sid, h))
    ensures RowInv(cfg, End(cfg, asm, s, steps))
    decreases |steps|
  {
    hide RowInv, HistoryOk, Recorded, OrderOk;
    if steps != [] {
      StepKeepsRows(cfg, s, steps[0]);
      StepKeepsHistory(cfg, asm, s, steps[0], sid, h);
      RunKeepsHistory(cfg, asm, Apply(cfg, s, steps[0]), steps[1..], sid, Recorded(s, steps[0], sid, h));
    }
  }

  // ---- main results: every run, no assumption at all ----

  /** In every prefix of every run, whoever nukes, sweeps or crashes: a compose file or container is on the
      public address only after the create cloned every requested database exactly once, in order and with
      the requested tables, and applied the grants. */
  lemma PublicMeansCloned(cfg: Settings, asm: Assumptions, steps: seq<Step>, sid: Sid)
    requires Run(cfg, asm, INIT, steps) && sid in End(cfg, asm, INIT, steps).sessions
    ensures var ss, h := End(cfg, asm, INIT, steps).sessions[sid], HistoryOf(cfg, asm, INIT, steps, sid, NO_HISTORY);
      ss.world.container == Some(Public) || ss.world.file == Some(Public) || ss.row.creds.Token? ==>
        h.cloned == Dumps(ss.creator.plan.creds) && h.granted
  {
    hide Apply, Fits, Allowed;
    RunKeepsHistory(cfg, asm, INIT, steps, sid, NO_HISTORY);
  }

  /** All or nothing, whatever interleaves: a create that has ended returned exactly if nothing it needs
      failed and its own `update_to_ready` moved the row from starting to ready; otherwise it raised, after
      one error write and exactly one teardown with volumes, or two if it lost the race for its row, and the
      row is in error exactly if that write committed and nobody has nuked it since.
      Credentials are in the row exactly if the create's own commit put them there. */
  lemma AllOrNothing(cfg: Settings, asm: Assumptions, steps: seq<Step>, sid: Sid)
    requires Run(cfg, asm, INIT, steps) && sid in End(cfg, asm, INIT, steps).sessions
    ensures var ss, h := End(cfg, asm, INIT, steps).sessions[sid], HistoryOf(cfg, asm, INIT, steps, sid, NO_HISTORY);
      && (ss.creator.pc.Returned? ==>
            !h.failed && !h.lost && h.committed && h.teardowns == 0 && h.errorWritten == [])
      && (ss.creator.pc.Raised? ==>
            (h.failed || h.lost) && h.teardowns == (if h.lost then 2 else 1) && |h.errorWritten| == 1)
      && (h.errorWritten == [true] ==> ss.row.status.Error? || ss.row.status.Nuked?)
      && (ss.row.status.Error? ==> h.errorWritten == [true])
      && (h.committed <==> ss.row.creds.Token?)
      && (h.committed ==> OnceReady(cfg, ss.row, ss.creator.plan))
  {
    hide Apply, Fits, Allowed;
    RunKeepsHistory(cfg, asm, INIT, steps, sid, NO_HISTORY);
    assert RowOk(cfg, sid, End(cfg, asm, INIT, steps).sessions[sid]);
  }

  /** The dump stays out of the audit log, and what follows it is in: at every point of every run at which a
      create clones, exactly one attempt to switch the log off was made, and if it worked the log is off; from
      the grants on, exactly one attempt to switch it on again was made, and if it worked the log is on. */
  lemma DumpIsNotAudited(cfg: Settings, asm: Assumptions, steps: seq<Step>, sid: Sid)
    requires Run(cfg, asm, INIT, steps) && sid in End(cfg, asm, INIT, steps).sessions
    ensures var ss, h := End(cfg, asm, INIT, steps).sessions[sid], HistoryOf(cfg, asm, INIT, steps, sid, NO_HISTORY);
      && (ss.creator.pc.CloneDb? ==> |h.logOff| == 1 && (h.logOff[0] ==> !ss.world.generalLog))
      && (ss.creator.pc.Grants? ==> |h.logOn| == 1 && (h.logOn[0] ==> ss.world.generalLog))
      && (ss.creator.pc.Returned? ==> |h.logOff| == 1 && |h.logOn| == 1)
  {
    hide Apply, Fits, Allowed;
    RunKeepsHistory(cfg, asm, INIT, steps, sid, NO_HISTORY);
  }
}
