/** When a row is due, and the hard ceiling on a session's life: a reaper pass late enough ends it. */
module Lifetime {
  import opened Config
  import opened CreateScript
  import opened Protocol
  import opened RowSafety
  import opened RowTheorems
  import opened Store

  /** The latest instant any row of this create can be due. */
  function Ceiling(cfg: Settings, plan: Plan): int {
    plan.createdAt + Max(PLACEHOLDER_SECONDS, cfg.ttlMax)
  }

  lemma ExpiryBelowCeiling(cfg: Settings, sid: Sid, ss: Session)
    requires cfg.Accepted() && RowOk(cfg, sid, ss)
    ensures ss.row.expiresAt <= Ceiling(cfg, ss.creator.plan)
  {
  }

  /** When a row in starting or error becomes stuck: 3600 seconds after its creation while it has never been
      ready; at its session's own expiry if it had been ready, which only a create that failed after its
      commit brings about. No grace period enters. */
  lemma StuckFrom(cfg: Settings, asm: Assumptions, steps: seq<Step>, sid: Sid, now: int)
    requires Run(cfg, asm, INIT, steps) && sid in End(cfg, asm, INIT, steps).sessions
    ensures var r := End(cfg, asm, INIT, steps).sessions[sid].row;
      DueStuck(r, now) <==>
        || (r.status.Starting? && now > r.createdAt + 3600)
        || (r.status.Error? && now >
              if r.creds.Placeholder? then r.createdAt + 3600
              else if r.ttlExtended then Min(r.createdAt + cfg.ttlMax, r.createdAt + cfg.ttlDefault + cfg.ttlResetAdd)
              else r.createdAt + cfg.ttlDefault)
  {
    hide Apply, Fits, Allowed;
    RunKeepsRows(cfg, asm, INIT, steps);
    assert RowOk(cfg, sid, End(cfg, asm, INIT, steps).sessions[sid]);
  }

  /** The pass still has to commit a teardown of `sid`, or has committed a failed one. */
  ghost predicate Holds(p: Pass, sid: Sid, st: Status) {
    exists i: nat :: i < p.Jobs() && HoldsAt(p, i, sid, st)
  }

  predicate HoldsAt(p: Pass, i: nat, sid: Sid, st: Status)
    requires i < p.Jobs()
  {
    && p.Job(i).id == sid
    && (if i < p.next then i in p.oks && !p.oks[i] else i >= |p.expired| ==> st.Starting? || st.Error?)
  }

  ghost predicate Covers(cfg: Settings, s: State, a: CallId, sid: Sid)
    requires a in s.passes
  {
    var p := s.passes[a];
    && sid in s.sessions && !InFlight(s.sessions[sid].creator)
    && p.now > Ceiling(cfg, s.sessions[sid].creator.plan)
    && var st := s.sessions[sid].row.status;
       (st.Nuked? || Holds(p, sid, st) || (!p.dispatched && (st.Starting? || st.Error?)))
  }

  lemma PassStartCovers(cfg: Settings, s: State, a: CallId, now: int, volumes: bool, recs: seq<Row>, sid: Sid)
    requires cfg.Accepted() && RowInv(cfg, s) && Fits(s, ReapExpired(a, now, volumes, recs))
    requires sid in s.sessions && !InFlight(s.sessions[sid].creator)
    requires now > Ceiling(cfg, s.sessions[sid].creator.plan)
    ensures Covers(cfg, Apply(cfg, s, ReapExpired(a, now, volumes, recs)), a, sid)
  {
    hide Allowed, RowOk, NewSession;
    var s' := Apply(cfg, s, ReapExpired(a, now, volumes, recs));
    var r := Rows(s)[sid];
    assert RowOk(cfg, sid, s.sessions[sid]);
    ExpiryBelowCeiling(cfg, sid, s.sessions[sid]);
    if DueExpired(r, now) {
      var i :| 0 <= i < |recs| && recs[i].id == sid;
      assert HoldsAt(s'.passes[a], i, sid, Expired);
    }
  }

  /** While the creator is out of the way a row claimed as stuck stays as it is, or becomes nuked. */
  lemma IdleRow(cfg: Settings, s: State, step: Step, sid: Sid)
    requires RowInv(cfg, s) && Fits(s, step) && sid in s.sessions && !InFlight(s.sessions[sid].creator)
    ensures sid in Apply(cfg, s, step).sessions
    ensures var st, ss' := s.sessions[sid].row.status, Apply(cfg, s, step).sessions[sid];
      && !InFlight(ss'.creator) && ss'.creator.plan == s.sessions[sid].creator.plan
      && (st.Nuked? ==> ss'.row.status.Nuked?)
      && (st.Starting? || st.Error? ==> ss'.row.status == st || ss'.row.status.Nuked?)
  {
    hide CreatorStep, RowOk;
    StepIsMove(cfg, s, step, sid);
    StepMoves(cfg, s, step, sid);
    assert RowOk(cfg, sid, s.sessions[sid]);
  }

  lemma StepCovers(cfg: Settings, s: State, step: Step, a: CallId, sid: Sid)
    requires cfg.Accepted() && RowInv(cfg, s) && Fits(s, step)
    requires a in s.passes && Covers(cfg, s, a, sid) && a in Apply(cfg, s, step).passes
    ensures Covers(cfg, Apply(cfg, s, step), a, sid)
  {
    hide Apply, CreatorStep;
    assert step.ReapStuck? && step.call == a ==>
      !s.passes[a].dispatched && s.passes[a].stuck == [] && s.passes[a].next == 0;
    hide RowInv, Fits;
    IdleRow(cfg, s, step, sid);
    PassAfter(cfg, s, step, a);
    var p, p' := s.passes[a], Apply(cfg, s, step).passes[a];
    var st, st' := s.sessions[sid].row.status, Apply(cfg, s, step).sessions[sid].row.status;
    if step.ReapStuck? && step.call == a {
      if !st.Nuked? { StuckClaimCovers(cfg, s, step, a, sid); }
    } else {
      SamePassOrProgress(cfg, s, step, a);
      if !st'.Nuked? && Holds(p, sid, st) {
        var i: nat :| i < p.Jobs() && HoldsAt(p, i, sid, st);
        if step.ReapMark? && step.call == a && p.next == i {
          CommitNukes(cfg, s, step, a, sid);
        }
        assert HoldsAt(p', i, sid, st');
      }
    }
  }

  lemma SamePassOrProgress(cfg: Settings, s: State, step: Step, a: CallId)
    requires Fits(s, step) && a in s.passes && a in Apply(cfg, s, step).passes
    requires !(step.ReapStuck? && step.call == a)
    ensures var p, p' := s.passes[a], Apply(cfg, s, step).passes[a];
      && p'.now == p.now && p'.expired == p.expired && p'.stuck == p.stuck && p'.dispatched == p.dispatched
      && (p'.next == p.next
          || (step.ReapMark? && step.call == a && p.dispatched && p.next in p.oks && p'.next == p.next + 1))
      && (forall i | i in p.oks :: i in p'.oks && p'.oks[i] == p.oks[i])
  {
    hide Apply, CreatorStep, Selects;
    PassAfter(cfg, s, step, a);
  }

  /** Committing a successful teardown nukes the row: an expired record unconditionally, a stuck one
      because its row is still starting or error. */
  lemma CommitNukes(cfg: Settings, s: State, step: Step, a: CallId, sid: Sid)
    requires RowInv(cfg, s) && Fits(s, step) && step.ReapMark? && step.call == a
    requires a in s.passes && sid in s.sessions
          && HoldsAt(s.passes[a], s.passes[a].next, sid, s.sessions[sid].row.status)
    ensures var p, p' := s.passes[a], Apply(cfg, s, step).passes[a];
      p'.next == p.next || !p.oks[p.next] || Apply(cfg, s, step).sessions[sid].row.status.Nuked?
  {
    hide RowInv;
    StuckTestIsProvenance(cfg, s, a, s.passes[a].next);
    assert s.passes[a].next >= |s.passes[a].expired| ==>
      s.sessions[sid].row.status.Starting? || s.sessions[sid].row.status.Error?;
  }

  /** Past the ceiling the second claim takes every row still starting or in error. */
  lemma StuckIsClaimed(cfg: Settings, s: State, step: Step, sid: Sid)
    requires cfg.Accepted() && RowInv(cfg, s) && Fits(s, step) && step.ReapStuck? && sid in s.sessions
    requires s.sessions[sid].row.status.Starting? || s.sessions[sid].row.status.Error?
    requires s.passes[step.call].now > Ceiling(cfg, s.sessions[sid].creator.plan)
    ensures exists i :: 0 <= i < |step.recs| && step.recs[i].id == sid
  {
    assert RowOk(cfg, sid, s.sessions[sid]);
    ExpiryBelowCeiling(cfg, sid, s.sessions[sid]);
    assert DueStuck(Rows(s)[sid], s.passes[step.call].now);
  }

  lemma StuckClaimCovers(cfg: Settings, s: State, step: Step, a: CallId, sid: Sid)
    requires cfg.Accepted() && RowInv(cfg, s) && Fits(s, step)
    requires step.ReapStuck? && step.call == a && a in Apply(cfg, s, step).passes
    requires a in s.passes && Covers(cfg, s, a, sid) && !s.sessions[sid].row.status.Nuked?
    requires !s.passes[a].dispatched && s.passes[a].stuck == [] && s.passes[a].next == 0
    ensures Covers(cfg, Apply(cfg, s, step), a, sid)
  {
    hide Apply, CreatorStep, RowInv, Fits;
    var p, r := s.passes[a], s.sessions[sid].row;
    PassAfter(cfg, s, step, a);
    IdleRow(cfg, s, step, sid);
    StepIsMove(cfg, s, step, sid);
    if Holds(p, sid, r.status) {
      KeepsHolding(p, step.recs, sid, r.status);
    } else {
      StuckIsClaimed(cfg, s, step, sid);
      var i :| 0 <= i < |step.recs| && step.recs[i].id == sid;
      assert HoldsAt(Apply(cfg, s, step).passes[a], |p.expired| + i, sid, r.status);
    }
  }

  lemma KeepsHolding(p: Pass, recs: seq<Row>, sid: Sid, st: Status)
    requires p.stuck == [] && Holds(p, sid, st)
    ensures Holds(p.(stuck := recs, dispatched := true), sid, st)
  {
    var i: nat :| i < p.Jobs() && HoldsAt(p, i, sid, st);
    assert HoldsAt(p.(stuck := recs, dispatched := true), i, sid, st);
  }

  lemma {:induction false} RunCovers(cfg: Settings, asm: Assumptions, s: State, steps: seq<Step>, a: CallId, sid: Sid)
    requires cfg.Accepted() && RowInv(cfg, s) && Run(cfg, asm, s, steps)
    requires a in s.passes ==> Covers(cfg, s, a, sid)
    requires forall i | 0 <= i < |steps| :: !(steps[i].ReapExpired? && steps[i].call == a)
    ensures a in End(cfg, asm, s, steps).passes ==> Covers(cfg, End(cfg, asm, s, steps), a, sid)
    decreases |steps|
  {
    hide RowInv;
    if steps != [] {
      var s' := Apply(cfg, s, steps[0]);
      StepKeepsRows(cfg, s, steps[0]);
      if a in s'.passes {
        assert a in s.passes;
        StepCovers(cfg, s, steps[0], a, sid);
      }
      RunCovers(cfg, asm, s', steps[1..], a, sid);
    }
  }

  /** A `reap_once` that starts past `created + max(3600, ttl_max)`, with no create in flight for the
      row, leaves it nuked as soon as it has gone past its records of the row with their teardowns
      successful: no reset, nuke, other pass or failing commit of another record can prevent it. */
  lemma HardCeiling(
      cfg: Settings, asm: Assumptions, before: seq<Step>, a: CallId, now: int, volumes: bool, recs: seq<Row>,
      during: seq<Step>, sid: Sid)
    requires cfg.Accepted() && Run(cfg, asm, INIT, before)
    requires sid in End(cfg, asm, INIT, before).sessions
    requires !InFlight(End(cfg, asm, INIT, before).sessions[sid].creator)
    requires now > End(cfg, asm, INIT, before).sessions[sid].row.createdAt + Max(3600, cfg.ttlMax)
    requires Fits(End(cfg, asm, INIT, before), ReapExpired(a, now, volumes, recs))
    requires Run(cfg, asm, Apply(cfg, End(cfg, asm, INIT, before), ReapExpired(a, now, volumes, recs)), during)
    requires forall i | 0 <= i < |during| :: !(during[i].ReapExpired? && during[i].call == a)
    requires
      var e := End(cfg, asm, Apply(cfg, End(cfg, asm, INIT, before), ReapExpired(a, now, volumes, recs)), during);
      && a in e.passes && e.passes[a].dispatched
      && forall i | 0 <= i < e.passes[a].Jobs() && e.passes[a].Job(i).id == sid ::
           i < e.passes[a].next && i in e.passes[a].oks && e.passes[a].oks[i]
    ensures var e := End(cfg, asm, Apply(cfg, End(cfg, asm, INIT, before), ReapExpired(a, now, volumes, recs)), during);
      sid in e.sessions && e.sessions[sid].row.status.Nuked?
  {
    hide Apply, Fits, RowInv, Run;
    var s := End(cfg, asm, INIT, before);
    var start := ReapExpired(a, now, volumes, recs);
    RunKeepsRows(cfg, asm, INIT, before);
    assert RowOk(cfg, sid, s.sessions[sid]);
    PassStartCovers(cfg, s, a, now, volumes, recs, sid);
    StepKeepsRows(cfg, s, start);
    RunCovers(cfg, asm, Apply(cfg, s, start), during, a, sid);
  }
}
