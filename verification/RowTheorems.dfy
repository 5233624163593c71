/** The main results about rows. They hold for every run, whatever fails, crashes or interleaves. */
module RowTheorems {
  import opened Config
  import opened CreateScript
  import opened Ports
  import opened Protocol
  import opened RowSafety
  import opened Store
  import opened World
  import opened Wrappers

  lemma {:induction false} RunKeepsRows(cfg: Settings, asm: Assumptions, s: State, steps: seq<Step>)
    requires RowInv(cfg, s) && Run(cfg, asm, s, steps)
    ensures RowInv(cfg, End(cfg, asm, s, steps))
    decreases |steps|
  {
    if steps != [] {
      StepKeepsRows(cfg, s, steps[0]);
      RunKeepsRows(cfg, asm, Apply(cfg, s, steps[0]), steps[1..]);
    }
  }

  // ---- ports ----

  lemma PortExclusivity(cfg: Settings, asm: Assumptions, steps: seq<Step>, a: Sid, b: Sid)
    requires Run(cfg, asm, INIT, steps)
    requires a in End(cfg, asm, INIT, steps).sessions && b in End(cfg, asm, INIT, steps).sessions
    requires var st := End(cfg, asm, INIT, steps).sessions[a].row.status; st.Starting? || st.Ready? || st.Expired?
    requires var st := End(cfg, asm, INIT, steps).sessions[b].row.status; st.Starting? || st.Ready? || st.Expired?
    ensures var t := Rows(End(cfg, asm, INIT, steps));
      cfg.portStart <= t[a].port <= cfg.portEnd && (a != b ==> t[a].port != t[b].port)
  {
    RunKeepsRows(cfg, asm, INIT, steps);
    var s := End(cfg, asm, INIT, steps);
    assert RowOk(cfg, a, s.sessions[a]);
  }

  /** Distinct ports: there are as many ports in use as live rows. */
  lemma {:induction false} PortsCountRows(t: Table, sids: set<Sid>, ports: set<int>)
    requires sids <= t.Keys && ports == set sid | sid in sids :: t[sid].port
    requires forall a, b | a in sids && b in sids && a != b :: t[a].port != t[b].port
    ensures |ports| == |sids|
    decreases |sids|
  {
    if sids != {} {
      var k :| k in sids;
      assert ports - {t[k].port} == set sid | sid in sids - {k} :: t[sid].port;
      PortsCountRows(t, sids - {k}, ports - {t[k].port});
    }
  }

  predicate HoldsPort(st: Status)
    ensures HoldsPort(st) <==> !st.Nuked? && !st.Error?
  {
    Live(st)
  }

  /** Live rows never outnumber the ports of the range; a reservation fails for want of a port exactly
      when they are as many, and then changes nothing. */
  lemma Capacity(cfg: Settings, asm: Assumptions, steps: seq<Step>, plan: Plan)
    requires Run(cfg, asm, INIT, steps) && plan.sid !in End(cfg, asm, INIT, steps).sessions
    ensures var s := End(cfg, asm, INIT, steps);
      var live := set sid | sid in s.sessions && HoldsPort(s.sessions[sid].row.status);
      && |live| <= |cfg.PortRange()|
      && (Apply(cfg, s, Step.Reserve(plan)) == s <==> |live| == |cfg.PortRange()|)
  {
    hide Run, End, Fits;
    RunKeepsRows(cfg, asm, INIT, steps);
    var s := End(cfg, asm, INIT, steps);
    UsedPortsFit(cfg, s);
    assert LiveSids(Rows(s)) == set sid | sid in s.sessions && HoldsPort(s.sessions[sid].row.status);
    SubsetSize(UsedPorts(Rows(s)), cfg.PortRange());
    assert Reserved(cfg, s, plan) != s ==> plan.sid in Reserved(cfg, s, plan).sessions;
  }

  lemma UsedPortsFit(cfg: Settings, s: State)
    requires RowInv(cfg, s)
    ensures UsedPorts(Rows(s)) <= cfg.PortRange() && |UsedPorts(Rows(s))| == |LiveSids(Rows(s))|
    ensures FirstFree(UsedPorts(Rows(s)), cfg).None? <==> UsedPorts(Rows(s)) == cfg.PortRange()
  {
    var t := Rows(s);
    forall sid | sid in LiveSids(t) ensures t[sid].port in cfg.PortRange() {
      assert RowOk(cfg, sid, s.sessions[sid]);
    }
    PortsCountRows(t, LiveSids(t), UsedPorts(t));
  }

  // ---- lifecycle ----

  /** What a status can no longer become. */
  predicate NoWayBack(a: Status, b: Status) {
    && (b.Starting? ==> a.Starting?)
    && (b.Ready? ==> a.Starting? || a.Ready?)
    && (b.Expired? ==> a.Starting? || a.Ready? || a.Expired?)
  }

  /** starting < ready < expired < {error, nuked} never goes down, from any point of a run to any later one. */
  lemma {:induction false} LifecycleOnlyAdvances(cfg: Settings, asm: Assumptions, s: State, steps: seq<Step>, sid: Sid)
    requires RowInv(cfg, s) && Run(cfg, asm, s, steps) && sid in s.sessions
    ensures sid in End(cfg, asm, s, steps).sessions
    ensures Rank(s.sessions[sid].row.status) <= Rank(End(cfg, asm, s, steps).sessions[sid].row.status)
    ensures NoWayBack(s.sessions[sid].row.status, End(cfg, asm, s, steps).sessions[sid].row.status)
    decreases |steps|
  {
    if steps != [] {
      StepMoves(cfg, s, steps[0], sid);
      StepKeepsRows(cfg, s, steps[0]);
      LifecycleOnlyAdvances(cfg, asm, Apply(cfg, s, steps[0]), steps[1..], sid);
    }
  }

  predicate IsNuked(s: State, sid: Sid) {
    sid in s.sessions && s.sessions[sid].row.status.Nuked?
  }

  /** How often the row of `sid` stops being nuked in a run. */
  ghost function TimesLeavingNuked(cfg: Settings, asm: Assumptions, s: State, steps: seq<Step>, sid: Sid): nat
    requires Run(cfg, asm, s, steps)
    decreases |steps|
  {
    if steps == [] then 0
    else
      var s' := Apply(cfg, s, steps[0]);
      (if IsNuked(s, sid) && !IsNuked(s', sid) then 1 else 0) + TimesLeavingNuked(cfg, asm, s', steps[1..], sid)
  }

  /** nuked is not terminal, but a row leaves it at most once, and not at all once its creator has
      finished or died. */
  lemma {:induction false} NukedIsLeftAtMostOnce(cfg: Settings, asm: Assumptions, s: State, steps: seq<Step>, sid: Sid)
    requires RowInv(cfg, s) && Run(cfg, asm, s, steps)
    ensures TimesLeavingNuked(cfg, asm, s, steps, sid) <= 1
    ensures sid in s.sessions && !InFlight(s.sessions[sid].creator) ==> TimesLeavingNuked(cfg, asm, s, steps, sid) == 0
    decreases |steps|
  {
    hide Apply, RowInv;
    if steps != [] {
      if sid in s.sessions {
        StepMoves(cfg, s, steps[0], sid);
      }
      StepKeepsRows(cfg, s, steps[0]);
      NukedIsLeftAtMostOnce(cfg, asm, Apply(cfg, s, steps[0]), steps[1..], sid);
    }
  }

  /** A step takes a row out of nuked exactly when it is the committed error write of its own creator. */
  lemma NukedIsLeftExactly(cfg: Settings, asm: Assumptions, s: State, step: Step, sid: Sid)
    requires RowInv(cfg, s) && Fits(s, step) && IsNuked(s, sid)
    ensures !IsNuked(Apply(cfg, s, step), sid)
            <==> s.sessions[sid].creator.pc.SetError? && step == Create(sid, Done)
    ensures !IsNuked(Apply(cfg, s, step), sid) ==> Apply(cfg, s, step).sessions[sid].row.status.Error?
  {
    hide RowInv;
    StepMoves(cfg, s, step, sid);
    StepIsMove(cfg, s, step, sid);
  }

  /** Once the creator has finished, a nuked session answers every later `nuke_by_ticket` without a
      teardown or a write: the call changes nothing. A call with a wrong ticket never does. */
  lemma TicketNukeIsIdempotent(
      cfg: Settings, asm: Assumptions, s: State, steps: seq<Step>, sid: Sid, call: CallId, ticket: Ticket)
    requires RowInv(cfg, s) && Run(cfg, asm, s, steps) && sid in s.sessions
    requires call !in End(cfg, asm, s, steps).nukes
    requires
      || (s.sessions[sid].row.status.Nuked? && !InFlight(s.sessions[sid].creator))
      || ticket != s.sessions[sid].creator.plan.ticket
    ensures var e := End(cfg, asm, s, steps); Apply(cfg, e, NukeRead(call, sid, Some(ticket))) == e
  {
    hide RowInv, End;
    SessionPersists(cfg, asm, s, steps, sid);
    RunKeepsRows(cfg, asm, s, steps);
    var e := End(cfg, asm, s, steps);
    assert RowOk(cfg, sid, e.sessions[sid]);
    if s.sessions[sid].row.status.Nuked? && !InFlight(s.sessions[sid].creator) {
      NukedIsLeftAtMostOnce(cfg, asm, s, steps, sid);
      NeverLeft(cfg, asm, s, steps, sid);
    }
  }

  lemma {:induction false} NeverLeft(cfg: Settings, asm: Assumptions, s: State, steps: seq<Step>, sid: Sid)
    requires Run(cfg, asm, s, steps) && IsNuked(s, sid) && TimesLeavingNuked(cfg, asm, s, steps, sid) == 0
    ensures IsNuked(End(cfg, asm, s, steps), sid)
    decreases |steps|
  {
    if steps != [] {
      NeverLeft(cfg, asm, Apply(cfg, s, steps[0]), steps[1..], sid);
    }
  }

  // ---- lifetimes and credentials ----

  /** A session is never removed, its plan never changes, being ready is remembered, and so is an extension. */
  lemma {:induction false} SessionPersists(cfg: Settings, asm: Assumptions, s: State, steps: seq<Step>, sid: Sid)
    requires RowInv(cfg, s) && Run(cfg, asm, s, steps) && sid in s.sessions
    ensures var e := End(cfg, asm, s, steps);
      && sid in e.sessions
      && e.sessions[sid].creator.plan == s.sessions[sid].creator.plan
      && (s.sessions[sid].row.creds.Token? ==> e.sessions[sid].row.creds.Token?)
      && (s.sessions[sid].row.ttlExtended ==> e.sessions[sid].row.ttlExtended)
    decreases |steps|
  {
    if steps != [] {
      StepMoves(cfg, s, steps[0], sid);
      StepKeepsRows(cfg, s, steps[0]);
      SessionPersists(cfg, asm, Apply(cfg, s, steps[0]), steps[1..], sid);
    }
  }

  /** The lifetime of a row that has been ready, in terms of its creation time alone. */
  predicate LifetimeOf(cfg: Settings, r: Row) {
    && r.maxExtendedUntil == r.createdAt + cfg.ttlMax
    && r.expiresAt ==
         if r.ttlExtended then Min(r.createdAt + cfg.ttlMax, r.createdAt + cfg.ttlDefault + cfg.ttlResetAdd)
         else r.createdAt + cfg.ttlDefault
  }

  /** The extension is granted once: in every run, whatever stale resets are pending, a row that has been
      ready keeps its hard limit, has one of two expiries, and never moves again once extended. */
  lemma OneShotExtension(cfg: Settings, asm: Assumptions, steps: seq<Step>, later: seq<Step>, sid: Sid)
    requires Run(cfg, asm, INIT, steps) && Run(cfg, asm, End(cfg, asm, INIT, steps), later)
    requires sid in End(cfg, asm, INIT, steps).sessions
    requires End(cfg, asm, INIT, steps).sessions[sid].row.creds.Token?
    ensures var s := End(cfg, asm, INIT, steps);
      var e := End(cfg, asm, s, later);
      && sid in e.sessions
      && LifetimeOf(cfg, s.sessions[sid].row) && LifetimeOf(cfg, e.sessions[sid].row)
      && e.sessions[sid].row.createdAt == s.sessions[sid].row.createdAt
      && (s.sessions[sid].row.ttlExtended ==>
            e.sessions[sid].row.ttlExtended && e.sessions[sid].row.expiresAt == s.sessions[sid].row.expiresAt)
  {
    RunKeepsRows(cfg, asm, INIT, steps);
    OneShotFrom(cfg, asm, End(cfg, asm, INIT, steps), later, sid);
  }

  lemma OneShotFrom(cfg: Settings, asm: Assumptions, s: State, later: seq<Step>, sid: Sid)
    requires RowInv(cfg, s) && Run(cfg, asm, s, later)
    requires sid in s.sessions && s.sessions[sid].row.creds.Token?
    ensures var e := End(cfg, asm, s, later);
      && sid in e.sessions
      && LifetimeOf(cfg, s.sessions[sid].row) && LifetimeOf(cfg, e.sessions[sid].row)
      && e.sessions[sid].row.createdAt == s.sessions[sid].row.createdAt
      && (s.sessions[sid].row.ttlExtended ==> e.sessions[sid].row.ttlExtended)
  {
    hide Apply, Fits, Allowed;
    RunKeepsRows(cfg, asm, s, later);
    SessionPersists(cfg, asm, s, later, sid);
    var ss, ee := s.sessions[sid], End(cfg, asm, s, later).sessions[sid];
    assert RowOk(cfg, sid, ss) && RowOk(cfg, sid, ee);
    assert OnceReady(cfg, ss.row, ss.creator.plan) && OnceReady(cfg, ee.row, ee.creator.plan);
  }

  /** After a create has returned, every view in every continuation shows the port, databases and hard
      limit it returned, and its expiry or the one extended value. */
  lemma ViewAgreesWithCreate(cfg: Settings, asm: Assumptions, steps: seq<Step>, later: seq<Step>, sid: Sid)
    requires Run(cfg, asm, INIT, steps) && Run(cfg, asm, End(cfg, asm, INIT, steps), later)
    requires sid in End(cfg, asm, INIT, steps).sessions
    requires End(cfg, asm, INIT, steps).sessions[sid].creator.pc.Returned?
    ensures var s := End(cfg, asm, INIT, steps);
      var resp := ResponseOf(cfg, s.sessions[sid].creator.plan);
      var v := View(Rows(End(cfg, asm, s, later)), sid);
      && v.Success?
      && v.value.sid == resp.sid && v.value.port == resp.port
      && v.value.databases == resp.databases
      && v.value.maxExtendedUntil == resp.maxExtendedUntil
      && v.value.expiresAt == (if v.value.ttlExtended
                               then Min(resp.maxExtendedUntil, resp.expiresAt + cfg.ttlResetAdd)
                               else resp.expiresAt)
  {
    hide Apply, Fits, Allowed, RowInv;
    RunKeepsRows(cfg, asm, INIT, steps);
    var s := End(cfg, asm, INIT, steps);
    assert RowOk(cfg, sid, s.sessions[sid]);
    RunKeepsRows(cfg, asm, s, later);
    SessionPersists(cfg, asm, s, later, sid);
    assert RowOk(cfg, sid, End(cfg, asm, s, later).sessions[sid]);
  }

  /** The placeholder is not viewable: `view` raises on a row that has never been ready. */
  lemma PlaceholderIsNotViewable(cfg: Settings, asm: Assumptions, steps: seq<Step>, sid: Sid)
    requires Run(cfg, asm, INIT, steps) && sid in End(cfg, asm, INIT, steps).sessions
    ensures var ss := End(cfg, asm, INIT, steps).sessions[sid];
      View(Rows(End(cfg, asm, INIT, steps)), sid) == Failure(InvalidToken) <==> NeverReady(ss.row, ss.creator.plan)
  {
    RunKeepsRows(cfg, asm, INIT, steps);
    assert RowOk(cfg, sid, End(cfg, asm, INIT, steps).sessions[sid]);
  }

  // ---- the reaper's classification ----

  /** The commit loop's test tells exactly which claim a record came from, in every state of every pass,
      even when one sid was taken by both claims. */
  lemma StuckTestIsProvenance(cfg: Settings, s: State, a: CallId, i: nat)
    requires RowInv(cfg, s) && a in s.passes && i < s.passes[a].Jobs()
    ensures s.passes[a].WasStuck(s.passes[a].Job(i)) <==> i >= |s.passes[a].expired|
  {
    var p := s.passes[a];
    assert ClaimOk(p, i, s.sessions);
    if i >= |p.expired| {
      assert p.stuck[i - |p.expired|] == p.Job(i);
    } else if p.Job(i) in p.stuck {
      var j :| 0 <= j < |p.stuck| && p.stuck[j] == p.Job(i);
      assert ClaimOk(p, |p.expired| + j, s.sessions);
    }
  }
}
