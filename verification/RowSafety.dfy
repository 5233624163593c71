/** What every step keeps of the rows, under no assumption at all: ports, identity, lifetimes, credentials. */
module RowSafety {
  import opened Config
  import opened CreateScript
  import opened Protocol
  import opened Store
  import opened World

  /** The one value an extension can give. */
  function ExtendedExpiry(cfg: Settings, plan: Plan): int {
    Min(LatestExpiry(cfg, plan), DefaultExpiry(cfg, plan) + cfg.ttlResetAdd)
  }

  /** A row that has never been ready: exactly the placeholder, but for its status. */
  predicate NeverReady(r: Row, plan: Plan) {
    && r == PlaceholderRow(plan.sid, plan.ticket, plan.createdAt, plan.port).(status := r.status)
    && (r.status.Starting? || r.status.Nuked? || r.status.Error?)
  }

  /** A row that has been ready: its own creator's credentials, and one of exactly two expiries. */
  predicate OnceReady(cfg: Settings, r: Row, plan: Plan) {
    && r.id == plan.sid && r.ticket == plan.ticket && r.port == plan.port && r.createdAt == plan.createdAt
    && r.creds == Encrypt(plan.creds)
    && r.maxExtendedUntil == LatestExpiry(cfg, plan)
    && r.expiresAt == (if r.ttlExtended then ExtendedExpiry(cfg, plan) else DefaultExpiry(cfg, plan))
    && !r.status.Starting?
  }

  /** How a session's row and its creator's program point go together. */
  predicate RowOk(cfg: Settings, sid: Sid, ss: Session) {
    var r, plan, pc := ss.row, ss.creator.plan, ss.creator.pc;
    && plan.sid == sid
    && cfg.portStart <= plan.port <= cfg.portEnd
    && (NeverReady(r, plan) || OnceReady(cfg, r, plan))
    && (pc.Respond? || pc.Returned? ==> OnceReady(cfg, r, plan))
    && (BeforeCommit(pc) || pc.LateDown? ==> NeverReady(r, plan))
    && (pc.LateDown? ==> r.status.Nuked?)
    && (r.status.Error? ==> pc.Raised?)
  }

  /** Rows in {starting, ready, expired} hold different ports. */
  ghost predicate PortsExclusive(s: State) {
    forall a, b | a in s.sessions && b in s.sessions && a != b
                  && Live(s.sessions[a].row.status) && Live(s.sessions[b].row.status) ::
      s.sessions[a].row.port != s.sessions[b].row.port
  }

  /** A pending `update_ttl` always carries the one extended value, for a row that has been ready. */
  ghost predicate ResetsOk(cfg: Settings, s: State) {
    forall a | a in s.resets ::
      && s.resets[a].sid in s.sessions
      && s.sessions[s.resets[a].sid].row.creds.Token?
      && s.resets[a].newExpiresAt == ExtendedExpiry(cfg, s.sessions[s.resets[a].sid].creator.plan)
  }

  ghost predicate NukesOk(s: State) {
    forall a | a in s.nukes :: s.nukes[a].sid in s.sessions
  }

  /** A claimed record keeps the status it was claimed in, and its row has not gone back since. */
  predicate ClaimOk(p: Pass, i: nat, sessions: map<Sid, Session>)
    requires i < p.Jobs()
  {
    && p.Job(i).id in sessions
    && (if i < |p.expired| then
          && (p.expired[i].status.Ready? || p.expired[i].status.Expired?)
          && sessions[p.expired[i].id].row.creds.Token?
          && !sessions[p.expired[i].id].row.status.Ready?
        else
          p.Job(i).status.Starting? || p.Job(i).status.Error?)
  }

  ghost predicate ClaimsOk(s: State) {
    forall a, i | a in s.passes && 0 <= i < s.passes[a].Jobs() :: ClaimOk(s.passes[a], i, s.sessions)
  }

  /** Nothing is torn down or committed before both claims are made. */
  ghost predicate PhasesOk(s: State) {
    forall a | a in s.passes && !s.passes[a].dispatched ::
      s.passes[a].oks == map[] && s.passes[a].next == 0 && s.passes[a].stuck == []
  }

  ghost predicate RowInv(cfg: Settings, s: State) {
    && (forall sid | sid in s.sessions :: RowOk(cfg, sid, s.sessions[sid]))
    && PortsExclusive(s)
    && ResetsOk(cfg, s)
    && NukesOk(s)
    && ClaimsOk(s)
    && PhasesOk(s)
  }

  /** The stages of a session's life. */
  function Rank(st: Status): nat {
    match st case Starting => 0 case Ready => 1 case Expired => 2 case Nuked | Error => 3
  }

  /** What a step may do to the sessions it finds: never remove one, never move a live port, never
      change a plan, never forget credentials, never bring a row back to an earlier stage. */
  predicate Grows(a: Session, b: Session) {
    && a.creator.plan == b.creator.plan
    && a.row.port == b.row.port
    && Rank(a.row.status) <= Rank(b.row.status)
    && (a.row.creds.Token? ==> b.row.creds.Token?)
    && (a.row.ttlExtended ==> b.row.ttlExtended)
    && (!InFlight(a.creator) ==> !InFlight(b.creator))
  }

  lemma OwnStepKeepsRow(cfg: Settings, sid: Sid, ss: Session, o: Outcome)
    requires RowOk(cfg, sid, ss)
    ensures RowOk(cfg, sid, CreatorStep(cfg, ss, o))
  {
    hide Render, Up, Down, Clone, ApplyGrants, SetGeneralLog, OpenTunnel, CloseTunnel, RemoveFiles, DumpOf, GrantsOf;
  }

  /** A session's row stays right under every move; an `update_ttl` must carry the extended value. */
  lemma MoveKeepsRow(cfg: Settings, sid: Sid, ss: Session, m: Move)
    requires RowOk(cfg, sid, ss)
    requires m.Extend? ==> ss.row.creds.Token? && m.newExpiresAt == ExtendedExpiry(cfg, ss.creator.plan)
    ensures RowOk(cfg, sid, Moved(cfg, ss, m))
  {
    hide CreatorStep;
    if m.Own? {
      OwnStepKeepsRow(cfg, sid, ss, m.outcome);
    }
  }

  lemma MoveGrows(cfg: Settings, sid: Sid, ss: Session, m: Move)
    requires RowOk(cfg, sid, ss)
    ensures Grows(ss, Moved(cfg, ss, m))
    ensures ss.row.status.Nuked? && !Moved(cfg, ss, m).row.status.Nuked? ==> ss.creator.pc.SetError? && m == Own(Done)
  {
  }

  lemma StepMoves(cfg: Settings, s: State, step: Step, sid: Sid)
    requires RowInv(cfg, s) && Fits(s, step) && sid in s.sessions
    ensures sid in Apply(cfg, s, step).sessions
    ensures RowOk(cfg, sid, Apply(cfg, s, step).sessions[sid])
    ensures Grows(s.sessions[sid], Apply(cfg, s, step).sessions[sid])
    ensures s.sessions[sid].row.status.Nuked? && !Apply(cfg, s, step).sessions[sid].row.status.Nuked?
            ==> s.sessions[sid].creator.pc.SetError? && step == Create(sid, Done)
  {
    hide Moved, CreatorStep;
    StepIsMove(cfg, s, step, sid);
    MoveKeepsRow(cfg, sid, s.sessions[sid], MoveOf(s, step, sid));
    MoveGrows(cfg, sid, s.sessions[sid], MoveOf(s, step, sid));
  }

  lemma StepKeepsRows(cfg: Settings, s: State, step: Step)
    requires RowInv(cfg, s) && Fits(s, step)
    ensures RowInv(cfg, Apply(cfg, s, step))
  {
    var s' := Apply(cfg, s, step);
    forall sid | sid in s'.sessions
      ensures RowOk(cfg, sid, s'.sessions[sid])
      ensures sid in s.sessions ==> Grows(s.sessions[sid], s'.sessions[sid])
    {
      if sid in s.sessions {
        StepMoves(cfg, s, step, sid);
      } else {
        StepAdds(cfg, s, step, sid);
      }
    }
    StepPorts(cfg, s, step);
    StepResets(cfg, s, step);
    StepNukes(cfg, s, step);
    StepClaims(cfg, s, step);
    StepPhases(cfg, s, step);
  }

  lemma StepPorts(cfg: Settings, s: State, step: Step)
    requires RowInv(cfg, s) && Fits(s, step)
    ensures PortsExclusive(Apply(cfg, s, step))
  {
    var s' := Apply(cfg, s, step);
    forall a, b | a in s'.sessions && b in s'.sessions && a != b
                  && Live(s'.sessions[a].row.status) && Live(s'.sessions[b].row.status)
      ensures s'.sessions[a].row.port != s'.sessions[b].row.port
    {
      NewPort(cfg, s, step, a);
      NewPort(cfg, s, step, b);
    }
  }

  /** After a step a live row either was live on the same port, or is new on a port no live row used. */
  lemma NewPort(cfg: Settings, s: State, step: Step, sid: Sid)
    requires RowInv(cfg, s) && Fits(s, step)
    requires sid in Apply(cfg, s, step).sessions && Live(Apply(cfg, s, step).sessions[sid].row.status)
    ensures var port := Apply(cfg, s, step).sessions[sid].row.port;
            if sid in s.sessions then Live(s.sessions[sid].row.status) && s.sessions[sid].row.port == port
            else step.Reserve? && step.plan.sid == sid
                 && forall k | k in s.sessions && Live(s.sessions[k].row.status) :: s.sessions[k].row.port != port
  {
    if sid in s.sessions {
      StepMoves(cfg, s, step, sid);
    } else {
      StepAdds(cfg, s, step, sid);
      var t := Rows(s);
      forall k | k in s.sessions && Live(s.sessions[k].row.status) ensures s.sessions[k].row.port in UsedPorts(t) {
        assert t[k].port in UsedPorts(t);
      }
    }
  }

  /** A pending reset was pending before the step, or has just read a ready row. */
  lemma ResetOrigin(cfg: Settings, s: State, step: Step, a: CallId)
    requires Fits(s, step) && a in Apply(cfg, s, step).resets
    ensures var reset := Apply(cfg, s, step).resets[a];
      || (a in s.resets && reset == s.resets[a])
      || (reset.sid in s.sessions && s.sessions[reset.sid].row.status.Ready? && !s.sessions[reset.sid].row.ttlExtended
          && reset.newExpiresAt == ResetExpiry(cfg, s.sessions[reset.sid].row))
  {
    hide CreatorStep, NewSession, Selects, Down;
  }

  lemma StepResets(cfg: Settings, s: State, step: Step)
    requires RowInv(cfg, s) && Fits(s, step)
    ensures ResetsOk(cfg, Apply(cfg, s, step))
  {
    hide Apply, Fits, CreatorStep;
    var s' := Apply(cfg, s, step);
    forall a | a in s'.resets
      ensures s'.resets[a].sid in s'.sessions
      ensures s'.sessions[s'.resets[a].sid].row.creds.Token?
      ensures s'.resets[a].newExpiresAt == ExtendedExpiry(cfg, s'.sessions[s'.resets[a].sid].creator.plan)
    {
      var sid := s'.resets[a].sid;
      ResetOrigin(cfg, s, step, a);
      StepMoves(cfg, s, step, sid);
      assert RowOk(cfg, sid, s.sessions[sid]);
    }
  }

  lemma StepNukes(cfg: Settings, s: State, step: Step)
    requires RowInv(cfg, s) && Fits(s, step)
    ensures NukesOk(Apply(cfg, s, step))
  {
    hide Apply, CreatorStep, Selects, RowOk, NewSession;
    var s' := Apply(cfg, s, step);
    forall a | a in s'.nukes ensures s'.nukes[a].sid in s'.sessions {
      NukeAfter(cfg, s, step, a);
      StepIsMove(cfg, s, step, s'.nukes[a].sid);
    }
  }

  /** The records of a pass after a step: its own from before, or the ones it has just claimed. */
  lemma JobOrigin(cfg: Settings, s: State, step: Step, a: CallId, i: nat)
    requires Fits(s, step) && a in Apply(cfg, s, step).passes && i < Apply(cfg, s, step).passes[a].Jobs()
    ensures var p' := Apply(cfg, s, step).passes[a];
      || (a in s.passes && p'.expired == s.passes[a].expired && p'.stuck == s.passes[a].stuck && i < s.passes[a].Jobs())
      || (step.ReapExpired? && step.call == a && p'.expired == step.recs && p'.stuck == [])
      || (step.ReapStuck? && step.call == a && a in s.passes
          && p'.expired == s.passes[a].expired && p'.stuck == step.recs)
  {
    hide Apply, CreatorStep, Selects;
    PassAfter(cfg, s, step, a);
  }

  lemma StepPhases(cfg: Settings, s: State, step: Step)
    requires PhasesOk(s) && Fits(s, step)
    ensures PhasesOk(Apply(cfg, s, step))
  {
    hide Apply, CreatorStep, Selects;
    forall a | a in Apply(cfg, s, step).passes && !Apply(cfg, s, step).passes[a].dispatched
      ensures var p' := Apply(cfg, s, step).passes[a]; p'.oks == map[] && p'.next == 0 && p'.stuck == []
    {
      PassAfter(cfg, s, step, a);
    }
  }

  /** A claim returns rows of the store in the statuses it selects. */
  lemma ClaimedRecords(s: State, step: Step)
    requires Fits(s, step)
    ensures step.ReapExpired? ==> forall i | 0 <= i < |step.recs| ::
      && step.recs[i].id in s.sessions && s.sessions[step.recs[i].id].row == step.recs[i]
      && DueExpired(step.recs[i], step.now)
    ensures step.ReapStuck? ==> forall i | 0 <= i < |step.recs| ::
      step.recs[i].id in s.sessions && (step.recs[i].status.Starting? || step.recs[i].status.Error?)
  {
  }

  /** Ready and expired rows carry credentials; a claimed one is no longer ready after the step. */
  lemma ReadyHasToken(cfg: Settings, s: State, step: Step, sid: Sid)
    requires RowInv(cfg, s) && Fits(s, step) && sid in s.sessions
    ensures var r := s.sessions[sid].row;
      && (r.status.Ready? || r.status.Expired? ==> r.creds.Token?)
      && sid in Apply(cfg, s, step).sessions
      && (step.ReapExpired? && DueExpired(r, step.now) ==> !Apply(cfg, s, step).sessions[sid].row.status.Ready?)
      && (r.creds.Token? && !r.status.Ready? ==> !Apply(cfg, s, step).sessions[sid].row.status.Ready?)
  {
    hide Apply, CreatorStep;
    assert RowOk(cfg, sid, s.sessions[sid]);
    StepMoves(cfg, s, step, sid);
    StepIsMove(cfg, s, step, sid);
  }

  lemma StepClaims(cfg: Settings, s: State, step: Step)
    requires RowInv(cfg, s) && Fits(s, step)
    ensures ClaimsOk(Apply(cfg, s, step))
  {
    hide Apply, Fits, CreatorStep, Selects, RowOk;
    var s' := Apply(cfg, s, step);
    forall a, i | a in s'.passes && 0 <= i < s'.passes[a].Jobs()
      ensures ClaimOk(s'.passes[a], i, s'.sessions)
    {
      var sid := s'.passes[a].Job(i).id;
      JobOrigin(cfg, s, step, a, i);
      ClaimedRecords(s, step);
      if a in s.passes && i < s.passes[a].Jobs() {
        assert ClaimOk(s.passes[a], i, s.sessions);
      }
      StepMoves(cfg, s, step, sid);
      ReadyHasToken(cfg, s, step, sid);
    }
  }
}
