/** The other calls, made alone, are runs of the protocol too: what is proved of every run holds of them. */
module Calls {
  import opened Config
  import opened CreateScript
  import opened Protocol
  import opened Reaper
  import opened Runs
  import opened Store
  import opened World
  import opened Wrappers

  function Worlds(s: State): map<Sid, World> {
    map sid | sid in s.sessions :: s.sessions[sid].world
  }

  // ---- single steps, spelled out ----

  lemma ResetReads(cfg: Settings, s: State, call: CallId, sid: Sid, now: int)
    requires call !in s.resets && sid in s.sessions && ResetAllowed(s.sessions[sid].row, now)
    ensures Fits(s, ResetRead(call, sid, now))
    ensures Apply(cfg, s, ResetRead(call, sid, now))
            == s.(resets := s.resets[call := Reset(sid, ResetExpiry(cfg, s.sessions[sid].row))])
  {
  }

  lemma ResetWrites(cfg: Settings, s: State, call: CallId, o: Outcome)
    requires call in s.resets && s.resets[call].sid in s.sessions
    ensures Fits(s, ResetWrite(call, o))
    ensures var sid := s.resets[call].sid;
      Apply(cfg, s, ResetWrite(call, o)) ==
        (if o.Done? then SetRow(s, sid, TtlRow(s.sessions[sid].row, s.resets[call].newExpiresAt, true)) else s).(
          resets := s.resets - {call})
  {
  }

  lemma NukeReads(cfg: Settings, s: State, call: CallId, sid: Sid, ticket: Option<Ticket>)
    requires call !in s.nukes && sid in s.sessions && NukeProceeds(s.sessions[sid].row, ticket)
    ensures Fits(s, NukeRead(call, sid, ticket))
    ensures Apply(cfg, s, NukeRead(call, sid, ticket)) == s.(nukes := s.nukes[call := Nuke(sid, false)])
  {
  }

  lemma NukeTears(cfg: Settings, s: State, call: CallId, o: Outcome)
    requires call in s.nukes && !s.nukes[call].downTried && s.nukes[call].sid in s.sessions
    requires o.Done? ==> s.sessions[s.nukes[call].sid].world.file.Some?
    ensures Fits(s, NukeDown(call, o))
    ensures var sid := s.nukes[call].sid;
      Apply(cfg, s, NukeDown(call, o)) ==
        SetWorld(s, sid, Down(s.sessions[sid].world, true, o)).(nukes := s.nukes[call := Nuke(sid, true)])
  {
  }

  lemma NukeWrites(cfg: Settings, s: State, call: CallId, o: Outcome)
    requires call in s.nukes && s.nukes[call].downTried && s.nukes[call].sid in s.sessions
    ensures Fits(s, NukeWrite(call, o))
    ensures var sid := s.nukes[call].sid;
      Apply(cfg, s, NukeWrite(call, o)) ==
        (if o.Done? then SetRow(s, sid, s.sessions[sid].row.(status := Nuked)) else s).(nukes := s.nukes - {call})
  {
  }

  // ---- reset_ttl, nuke and nuke_by_ticket ----

  /** A `reset_ttl` that passes its checks, with outcome `o` of its write. */
  lemma ResetIsARun(cfg: Settings, s: State, call: CallId, sid: Sid, now: int, o: Outcome)
    requires call !in s.resets && sid in s.sessions && ResetAllowed(s.sessions[sid].row, now)
    ensures exists e ::
      && Reaches(cfg, ARBITRARY, s, e) && e == s.(sessions := e.sessions) && Worlds(e) == Worlds(s)
      && Rows(e) == if o.Done? then WithTtl(Rows(s), sid, ResetExpiry(cfg, s.sessions[sid].row), true) else Rows(s)
  {
    hide Apply, Fits, Reaches;
    ResetReads(cfg, s, call, sid, now);
    var mid := Apply(cfg, s, ResetRead(call, sid, now));
    Once(cfg, ARBITRARY, s, ResetRead(call, sid, now), mid);
    ResetWrites(cfg, mid, call, o);
    var e := Apply(cfg, mid, ResetWrite(call, o));
    Next(cfg, ARBITRARY, s, mid, ResetWrite(call, o), e);
    assert mid.resets - {call} == s.resets;
  }

  /** A nuke that passes its checks, with outcomes `o` of its `down` and `w` of its write. */
  lemma NukeIsARun(cfg: Settings, s: State, call: CallId, sid: Sid, ticket: Option<Ticket>, o: Outcome, w: Outcome)
    requires call !in s.nukes && sid in s.sessions && NukeProceeds(s.sessions[sid].row, ticket)
    requires o.Done? ==> s.sessions[sid].world.file.Some?
    ensures exists e ::
      && Reaches(cfg, ARBITRARY, s, e) && e == s.(sessions := e.sessions)
      && Worlds(e) == Worlds(s)[sid := Down(s.sessions[sid].world, true, o)]
      && Rows(e) == if w.Done? then WithStatus(Rows(s), sid, Nuked) else Rows(s)
  {
    hide Down, Apply, Fits, Reaches;
    NukeReads(cfg, s, call, sid, ticket);
    var s1 := Apply(cfg, s, NukeRead(call, sid, ticket));
    Once(cfg, ARBITRARY, s, NukeRead(call, sid, ticket), s1);
    NukeTears(cfg, s1, call, o);
    var s2 := Apply(cfg, s1, NukeDown(call, o));
    Next(cfg, ARBITRARY, s, s1, NukeDown(call, o), s2);
    NukeWrites(cfg, s2, call, w);
    var e := Apply(cfg, s2, NukeWrite(call, w));
    Next(cfg, ARBITRARY, s, s2, NukeWrite(call, w), e);
    assert s2.nukes - {call} == s.nukes;
  }

  // ---- reap_once ----

  /** Only sessions and this one pass differ. */
  ghost predicate OnlyPass(b: State, e: State, a: CallId, p: Pass) {
    e == b.(sessions := e.sessions, passes := b.passes[a := p]) && e.sessions.Keys == b.sessions.Keys
  }

  /** Each job is about a session of its own. */
  ghost predicate JobsFit(p: Pass, sids: set<Sid>) {
    && (forall i | 0 <= i < p.Jobs() :: p.Job(i).id in sids)
    && (forall i, j | 0 <= i < j < p.Jobs() :: p.Job(i).id != p.Job(j).id)
  }

  /** The sessions of the first `k` jobs. */
  function FirstIds(p: Pass, k: nat): set<Sid>
    requires k <= p.Jobs()
  {
    set i | 0 <= i < k :: p.Job(i).id
  }

  /** The first `k` jobs of the pass are torn down, with results `oks`. */
  ghost predicate Torn(
      before: map<Sid, Session>, after: map<Sid, Session>, p: Pass,
      oks: map<nat, bool>, outcomes: map<Sid, Outcome>, k: nat)
    requires k <= p.Jobs()
  {
    && after.Keys == before.Keys <= outcomes.Keys
    && (forall i: nat | k <= i < p.Jobs() :: i !in oks)
    && (forall i: nat | i < k :: i in oks && p.Job(i).id in before && TornDown(before, after, p, i, oks[i], outcomes))
    && (forall sid | sid in before && sid !in FirstIds(p, k) :: after[sid] == before[sid])
  }

  predicate TornDown(
      before: map<Sid, Session>, after: map<Sid, Session>, p: Pass, i: nat, ok: bool, outcomes: map<Sid, Outcome>)
    requires i < p.Jobs() && p.Job(i).id in before && before.Keys == after.Keys <= outcomes.Keys
  {
    var sid := p.Job(i).id;
    && ok == TearsDown(before[sid].world, outcomes[sid])
    && after[sid] == before[sid].(world := Down(before[sid].world, p.JobVolumes(i), outcomes[sid]))
  }

  lemma JobTears(cfg: Settings, s: State, a: CallId, i: nat, o: Outcome)
    requires a in s.passes && s.passes[a].dispatched && i < s.passes[a].Jobs() && i !in s.passes[a].oks
    requires s.passes[a].Job(i).id in s.sessions
    ensures Fits(s, ReapDown(a, i, o))
    ensures var p, sid := s.passes[a], s.passes[a].Job(i).id;
      var w := s.sessions[sid].world;
      Apply(cfg, s, ReapDown(a, i, o)) ==
        SetWorld(s, sid, Down(w, p.JobVolumes(i), o)).(passes := s.passes[a := p.(oks := p.oks[i := TearsDown(w, o)])])
  {
    var sid := s.passes[a].Job(i).id;
    if s.sessions[sid].world.file.None? {
      assert s.sessions[sid := s.sessions[sid]] == s.sessions;
    }
  }

  lemma FirstIdsGrow(p: Pass, sids: set<Sid>, k: nat)
    requires k < p.Jobs() && JobsFit(p, sids)
    ensures FirstIds(p, k + 1) == FirstIds(p, k) + {p.Job(k).id}
    ensures p.Job(k).id !in FirstIds(p, k)
    ensures forall i: nat | i < k :: p.Job(i).id != p.Job(k).id
  {
  }

  /** Job `k` touches neither the sessions torn down before it nor their results. */
  lemma StillTorn(
      before: map<Sid, Session>, after: map<Sid, Session>, later: map<Sid, Session>, p: Pass,
      oks: map<nat, bool>, oks': map<nat, bool>, outcomes: map<Sid, Outcome>, k: nat, i: nat)
    requires i < k < p.Jobs() && JobsFit(p, before.Keys) && Torn(before, after, p, oks, outcomes, k)
    requires k in oks' && oks' == oks[k := oks'[k]]
    requires later.Keys == before.Keys && p.Job(k).id in later && later == after[p.Job(k).id := later[p.Job(k).id]]
    ensures i in oks' && p.Job(i).id in before && TornDown(before, later, p, i, oks'[i], outcomes)
  {
    hide Down, TearsDown, FirstIds;
    assert TornDown(before, after, p, i, oks[i], outcomes);
    assert p.Job(i).id != p.Job(k).id;
  }

  lemma TornGrows(
      before: map<Sid, Session>, after: map<Sid, Session>, later: map<Sid, Session>, p: Pass,
      oks: map<nat, bool>, oks': map<nat, bool>, outcomes: map<Sid, Outcome>, k: nat)
    requires k < p.Jobs() && JobsFit(p, before.Keys) && Torn(before, after, p, oks, outcomes, k)
    requires var sid := p.Job(k).id;
      && sid in before && oks' == oks[k := TearsDown(before[sid].world, outcomes[sid])]
      && later == after[sid := before[sid].(world := Down(before[sid].world, p.JobVolumes(k), outcomes[sid]))]
    ensures Torn(before, later, p, oks', outcomes, k + 1)
  {
    var sid := p.Job(k).id;
    assert later.Keys == before.Keys && TornDown(before, later, p, k, oks'[k], outcomes);
    hide Down, TearsDown, TornDown, FirstIds, JobsFit;
    forall i: nat | i < k + 1
      ensures i in oks' && p.Job(i).id in before && TornDown(before, later, p, i, oks'[i], outcomes)
    {
      if i < k { StillTorn(before, after, later, p, oks, oks', outcomes, k, i); }
    }
    FirstIdsGrow(p, before.Keys, k);
  }

  lemma TearNext(
      cfg: Settings, s: State, before: map<Sid, Session>, a: CallId, p: Pass, outcomes: map<Sid, Outcome>, k: nat)
    returns (s': State)
    requires a in s.passes && s.passes[a] == p.(oks := s.passes[a].oks) && p.dispatched
    requires k < p.Jobs() && JobsFit(p, before.Keys) && Torn(before, s.sessions, p, s.passes[a].oks, outcomes, k)
    ensures Reaches(cfg, ARBITRARY, s, s') && a in s'.passes && OnlyPass(s, s', a, p.(oks := s'.passes[a].oks))
    ensures Torn(before, s'.sessions, p, s'.passes[a].oks, outcomes, k + 1)
  {
    var sid := p.Job(k).id;
    assert s.passes[a].Jobs() == p.Jobs() && s.passes[a].Job(k) == p.Job(k)
        && s.passes[a].JobVolumes(k) == p.JobVolumes(k);
    var step := ReapDown(a, k, outcomes[sid]);
    FirstIdsGrow(p, before.Keys, k);
    assert s.sessions[sid] == before[sid];
    hide Down, TearsDown, Reaches, Apply, Fits, TornDown, FirstIds;
    JobTears(cfg, s, a, k, outcomes[sid]);
    s' := Apply(cfg, s, step);
    Once(cfg, ARBITRARY, s, step, s');
    TornGrows(before, s.sessions, s'.sessions, p, s.passes[a].oks, s'.passes[a].oks, outcomes, k);
  }

  lemma NothingDone(before: map<Sid, Session>, p: Pass, outcomes: map<Sid, Outcome>)
    requires before.Keys <= outcomes.Keys
    ensures Torn(before, before, p, map[], outcomes, 0) && Marked(before, before, p, 0)
  {
    assert FirstIds(p, 0) == {};
  }

  /** The teardowns of a pass, in the order of its records. */
  lemma TearAll(cfg: Settings, s: State, a: CallId, p: Pass, outcomes: map<Sid, Outcome>) returns (e: State)
    requires a in s.passes && s.passes[a] == p && p.dispatched && p.oks == map[]
    requires JobsFit(p, s.sessions.Keys) && s.sessions.Keys <= outcomes.Keys
    ensures Reaches(cfg, ARBITRARY, s, e) && a in e.passes && OnlyPass(s, e, a, p.(oks := e.passes[a].oks))
    ensures Torn(s.sessions, e.sessions, p, e.passes[a].oks, outcomes, p.Jobs())
  {
    hide Reaches, JobsFit, Torn;
    e := s;
    NoSteps(cfg, ARBITRARY, s);
    NothingDone(s.sessions, p, outcomes);
    assert s.passes[a := p] == s.passes;
    for k := 0 to p.Jobs()
      invariant Reaches(cfg, ARBITRARY, s, e) && a in e.passes && OnlyPass(s, e, a, p.(oks := e.passes[a].oks))
      invariant Torn(s.sessions, e.sessions, p, e.passes[a].oks, outcomes, k)
    {
      var e' := TearNext(cfg, e, s.sessions, a, p, outcomes, k);
      Via(cfg, ARBITRARY, s, e, e');
      e := e';
    }
  }

  /** The first `k` records of the pass are committed: the rows of the successful ones are nuked. */
  ghost predicate Marked(before: map<Sid, Session>, after: map<Sid, Session>, p: Pass, k: nat)
    requires k <= p.Jobs()
  {
    && after.Keys == before.Keys
    && (forall i: nat | i < k :: i in p.oks && p.Job(i).id in before && MarkedJob(before, after, p, i))
    && (forall sid | sid in before && sid !in FirstIds(p, k) :: after[sid] == before[sid])
  }

  predicate MarkedJob(before: map<Sid, Session>, after: map<Sid, Session>, p: Pass, i: nat)
    requires i < p.Jobs() && i in p.oks && p.Job(i).id in before && before.Keys == after.Keys
  {
    var sid := p.Job(i).id;
    after[sid] == if p.oks[i] then before[sid].(row := before[sid].row.(status := Nuked)) else before[sid]
  }

  /** A record taken as stuck still has a row that `mark_nuked` accepts. */
  ghost predicate Committable(before: map<Sid, Session>, p: Pass) {
    forall i | 0 <= i < p.Jobs() ::
      && i in p.oks && p.Job(i).id in before
      && (p.WasStuck(p.Job(i)) ==> before[p.Job(i).id].row.status.Starting? || before[p.Job(i).id].row.status.Error?)
  }

  lemma JobCommits(cfg: Settings, s: State, a: CallId, k: nat)
    requires a in s.passes && s.passes[a].dispatched && !s.passes[a].aborted
    requires k == s.passes[a].next < s.passes[a].Jobs() && k in s.passes[a].oks && s.passes[a].Job(k).id in s.sessions
    requires var row := s.sessions[s.passes[a].Job(k).id].row;
      s.passes[a].WasStuck(s.passes[a].Job(k)) ==> row.status.Starting? || row.status.Error?
    ensures Fits(s, ReapMark(a, Done))
    ensures var p, sid := s.passes[a], s.passes[a].Job(k).id;
      Apply(cfg, s, ReapMark(a, Done)) ==
        (if p.oks[k] then SetRow(s, sid, s.sessions[sid].row.(status := Nuked)) else s).(
          passes := s.passes[a := p.(next := k + 1)])
  {
  }

  lemma StillMarked(
      before: map<Sid, Session>, after: map<Sid, Session>, later: map<Sid, Session>, p: Pass, k: nat, i: nat)
    requires i < k < p.Jobs() && JobsFit(p, before.Keys) && Marked(before, after, p, k)
    requires later.Keys == before.Keys && p.Job(k).id in later && later == after[p.Job(k).id := later[p.Job(k).id]]
    ensures i in p.oks && p.Job(i).id in before && MarkedJob(before, later, p, i)
  {
    hide FirstIds;
    assert MarkedJob(before, after, p, i);
    assert p.Job(i).id != p.Job(k).id;
  }

  lemma MarkedGrows(before: map<Sid, Session>, after: map<Sid, Session>, later: map<Sid, Session>, p: Pass, k: nat)
    requires k < p.Jobs() && JobsFit(p, before.Keys) && Marked(before, after, p, k)
    requires k in p.oks && p.Job(k).id in before
    requires later.Keys == before.Keys && later == after[p.Job(k).id := later[p.Job(k).id]]
        && MarkedJob(before, later, p, k)
    ensures Marked(before, later, p, k + 1)
  {
    hide MarkedJob, FirstIds, JobsFit;
    forall i: nat | i < k + 1 ensures i in p.oks && p.Job(i).id in before && MarkedJob(before, later, p, i) {
      if i < k { StillMarked(before, after, later, p, k, i); }
    }
    FirstIdsGrow(p, before.Keys, k);
  }

  lemma CommitNext(cfg: Settings, s: State, before: map<Sid, Session>, a: CallId, p: Pass, k: nat) returns (s': State)
    requires a in s.passes && s.passes[a] == p.(next := k) && p.dispatched && !p.aborted
    requires k < p.Jobs() && JobsFit(p, before.Keys) && Marked(before, s.sessions, p, k) && Committable(before, p)
    ensures Reaches(cfg, ARBITRARY, s, s') && OnlyPass(s, s', a, p.(next := k + 1))
    ensures Marked(before, s'.sessions, p, k + 1)
  {
    var sid := p.Job(k).id;
    assert s.passes[a].Jobs() == p.Jobs() && s.passes[a].Job(k) == p.Job(k);
    assert s.passes[a].WasStuck(p.Job(k)) <==> p.WasStuck(p.Job(k));
    FirstIdsGrow(p, before.Keys, k);
    assert sid in before && s.sessions[sid] == before[sid] && k in p.oks;
    hide Reaches, Apply, Fits, FirstIds, Marked;
    JobCommits(cfg, s, a, k);
    s' := Apply(cfg, s, ReapMark(a, Done));
    Once(cfg, ARBITRARY, s, ReapMark(a, Done), s');
    assert s.sessions.Keys == before.Keys;
    assert s'.sessions == s.sessions[sid := s'.sessions[sid]];
    assert MarkedJob(before, s'.sessions, p, k);
    MarkedGrows(before, s.sessions, s'.sessions, p, k);
  }

  lemma CommitAllRecords(cfg: Settings, s: State, a: CallId, p: Pass) returns (e: State)
    requires a in s.passes && s.passes[a] == p && p.dispatched && !p.aborted && p.next == 0
    requires JobsFit(p, s.sessions.Keys) && Committable(s.sessions, p)
    ensures Reaches(cfg, ARBITRARY, s, e) && OnlyPass(s, e, a, p.(next := p.Jobs()))
    ensures Marked(s.sessions, e.sessions, p, p.Jobs())
  {
    hide Reaches, JobsFit, Marked, Committable;
    e := s;
    NoSteps(cfg, ARBITRARY, s);
    NothingDone(s.sessions, p, map sid | sid in s.sessions :: Done);
    assert s.passes[a := p] == s.passes;
    for k := 0 to p.Jobs()
      invariant Reaches(cfg, ARBITRARY, s, e) && OnlyPass(s, e, a, p.(next := k))
      invariant Marked(s.sessions, e.sessions, p, k)
    {
      var e' := CommitNext(cfg, e, s.sessions, a, p, k);
      Via(cfg, ARBITRARY, s, e, e');
      e := e';
    }
  }

  /** The pass after both its claims. */
  function Claimed(now: int, downWithVolumes: bool, expired: seq<Row>, stuck: seq<Row>): Pass {
    Pass(now, downWithVolumes, expired, stuck, true, map[], 0, false)
  }

  function ClaimedSessions(s: State, now: int): map<Sid, Session> {
    map sid | sid in s.sessions :: s.sessions[sid].(row := ExpireRow(s.sessions[sid].row, now))
  }

  lemma StuckUnchanged(s: State, now: int, expired: seq<Row>, stuck: seq<Row>, mid: State)
    requires JobsOf(Rows(s), now, expired, stuck) && mid.sessions == ClaimedSessions(s, now)
    ensures Selects(stuck, Rows(mid), r => DueStuck(r, now))
  {
    var t, t' := Rows(s), Rows(mid);
    forall sid | sid in t ensures sid in t' && t'[sid] == ExpireRow(t[sid], now) {
    }
    forall sid | sid in t' && DueStuck(t'[sid], now) ensures exists i :: 0 <= i < |stuck| && stuck[i].id == sid {
      assert DueStuck(t[sid], now);
    }
  }

  lemma FirstClaim(
      cfg: Settings, s: State, a: CallId, now: int, downWithVolumes: bool, expired: seq<Row>, stuck: seq<Row>)
    requires a !in s.passes && JobsOf(Rows(s), now, expired, stuck)
    ensures Fits(s, ReapExpired(a, now, downWithVolumes, expired))
    ensures Apply(cfg, s, ReapExpired(a, now, downWithVolumes, expired)) ==
            s.(sessions := ClaimedSessions(s, now),
               passes := s.passes[a := Pass(now, downWithVolumes, expired, [], false, map[], 0, false)])
  {
    assert Selects(expired, Rows(s), r => DueExpired(r, now));
    hide Selects;
  }

  lemma ClaimsRun(
      cfg: Settings, s: State, a: CallId, now: int, downWithVolumes: bool, expired: seq<Row>, stuck: seq<Row>)
    returns (e: State)
    requires a !in s.passes && JobsOf(Rows(s), now, expired, stuck)
    ensures Reaches(cfg, ARBITRARY, s, e)
    ensures e == s.(sessions := ClaimedSessions(s, now),
                    passes := s.passes[a := Claimed(now, downWithVolumes, expired, stuck)])
  {
    var first := ReapExpired(a, now, downWithVolumes, expired);
    hide Apply, Fits, Reaches, JobsOf, ClaimedSessions;
    FirstClaim(cfg, s, a, now, downWithVolumes, expired, stuck);
    var mid := Apply(cfg, s, first);
    Once(cfg, ARBITRARY, s, first, mid);
    StuckUnchanged(s, now, expired, stuck, mid);
    SecondClaimRun(cfg, s, mid, a, stuck);
    e := Apply(cfg, mid, ReapStuck(a, Done, stuck));
  }

  lemma SecondClaimRun(cfg: Settings, s: State, mid: State, a: CallId, stuck: seq<Row>)
    requires Reaches(cfg, ARBITRARY, s, mid) && a in mid.passes && !mid.passes[a].dispatched
    requires Selects(stuck, Rows(mid), r => DueStuck(r, mid.passes[a].now))
    ensures Fits(mid, ReapStuck(a, Done, stuck))
    ensures var e := mid.(passes := mid.passes[a := mid.passes[a].(stuck := stuck, dispatched := true)]);
      Apply(cfg, mid, ReapStuck(a, Done, stuck)) == e && Reaches(cfg, ARBITRARY, s, e)
  {
    hide Reaches;
    Next(cfg, ARBITRARY, s, mid, ReapStuck(a, Done, stuck), Apply(cfg, mid, ReapStuck(a, Done, stuck)));
  }

  lemma JobsAreFit(s: State, now: int, p: Pass)
    requires Keyed(Rows(s)) && JobsOf(Rows(s), now, p.expired, p.stuck)
    ensures JobsFit(p, s.sessions.Keys)
    ensures forall i: nat | i < p.Jobs() ::
      && s.sessions[p.Job(i).id].row == p.Job(i) && Due(p.Job(i), now)
      && (i >= |p.expired| <==> DueStuck(p.Job(i), now))
      && (p.WasStuck(p.Job(i)) ==> DueStuck(p.Job(i), now))
    ensures forall sid | sid in s.sessions && Due(s.sessions[sid].row, now) :: sid in FirstIds(p, p.Jobs())
  {
    JobsAreTheDueRows(Rows(s), now, p.expired, p.stuck);
    var jobs := p.expired + p.stuck;
    assert forall i: nat | i < p.Jobs() :: p.Job(i) == jobs[i];
    forall sid | sid in s.sessions && Due(s.sessions[sid].row, now) ensures sid in FirstIds(p, p.Jobs()) {
      assert Rows(s)[sid] == s.sessions[sid].row;
      var i: nat :| i < |jobs| && jobs[i].id == sid;
      assert p.Job(i).id == sid;
    }
  }

  lemma SameIds(p: Pass, oks: map<nat, bool>)
    ensures p.(oks := oks).Jobs() == p.Jobs() && FirstIds(p.(oks := oks), p.Jobs()) == FirstIds(p, p.Jobs())
    ensures forall i: nat | i < p.Jobs() :: p.(oks := oks).Job(i) == p.Job(i)
  {
    forall i: nat | i < p.Jobs() ensures p.(oks := oks).Job(i) == p.Job(i) {
    }
  }

  /** Claimed, torn down and committed: what has become of a session that was not due. */
  lemma IdleSession(
      s: State, now: int, p: Pass, torn: map<Sid, Session>, oks: map<nat, bool>, after: map<Sid, Session>,
      outcomes: map<Sid, Outcome>, sid: Sid)
    requires Keyed(Rows(s)) && JobsOf(Rows(s), now, p.expired, p.stuck)
    requires sid in s.sessions && !Due(s.sessions[sid].row, now)
    requires Torn(ClaimedSessions(s, now), torn, p, oks, outcomes, p.Jobs())
    requires p.(oks := oks).Jobs() == p.Jobs() && Marked(torn, after, p.(oks := oks), p.Jobs())
    ensures sid in after && sid in outcomes && after[sid] == s.sessions[sid]
  {
    hide JobsOf, Down, TearsDown, TornDown, MarkedJob;
    JobsAreFit(s, now, p);
    SameIds(p, oks);
    assert sid !in FirstIds(p, p.Jobs());
  }

  /** And of a job's session: its row and world as the claim, its teardown and its commit left them. */
  lemma JobSession(
      s: State, now: int, p: Pass, torn: map<Sid, Session>, oks: map<nat, bool>, after: map<Sid, Session>,
      outcomes: map<Sid, Outcome>, i: nat)
    requires i < p.Jobs() && p.Job(i).id in s.sessions
    requires Torn(ClaimedSessions(s, now), torn, p, oks, outcomes, p.Jobs())
    requires p.(oks := oks).Jobs() == p.Jobs() && Marked(torn, after, p.(oks := oks), p.Jobs())
    ensures var sid := p.Job(i).id;
      && sid in after && sid in outcomes
      && var ss := s.sessions[sid];
         var ok := TearsDown(ss.world, outcomes[sid]);
         var claimed := ExpireRow(ss.row, now);
         after[sid] == Session(if ok then claimed.(status := Nuked) else claimed,
                               Down(ss.world, p.JobVolumes(i), outcomes[sid]), ss.creator)
  {
    hide Down, TearsDown, ExpireRow, FirstIds;
    assert p.(oks := oks).Job(i) == p.Job(i);
    assert TornDown(ClaimedSessions(s, now), torn, p, i, oks[i], outcomes);
    assert MarkedJob(torn, after, p.(oks := oks), i);
  }

  lemma SweptSession(
      s: State, now: int, p: Pass, torn: map<Sid, Session>, oks: map<nat, bool>, after: map<Sid, Session>,
      outcomes: map<Sid, Outcome>, sid: Sid)
    requires Keyed(Rows(s)) && JobsOf(Rows(s), now, p.expired, p.stuck) && sid in s.sessions
    requires Torn(ClaimedSessions(s, now), torn, p, oks, outcomes, p.Jobs())
    requires p.(oks := oks).Jobs() == p.Jobs() && Marked(torn, after, p.(oks := oks), p.Jobs())
    ensures sid in after && sid in outcomes
    ensures after[sid].row == SweepRow(s.sessions[sid].row, now, TearsDown(s.sessions[sid].world, outcomes[sid]))
    ensures after[sid].world ==
            SweepWorld(s.sessions[sid].world, s.sessions[sid].row, now, p.downWithVolumes, outcomes[sid])
  {
    hide Down, TearsDown, Torn, Marked, JobsOf, JobsFit;
    JobsAreFit(s, now, p);
    if Due(s.sessions[sid].row, now) {
      var i: nat :| i < p.Jobs() && p.Job(i).id == sid;
      JobSession(s, now, p, torn, oks, after, outcomes, i);
    } else {
      IdleSession(s, now, p, torn, oks, after, outcomes, sid);
    }
  }

  /** Session by session, the result is the plain sweep. */
  lemma SweptState(
      s: State, now: int, p: Pass, torn: map<Sid, Session>, oks: map<nat, bool>, e: State, outcomes: map<Sid, Outcome>)
    requires Keyed(Rows(s)) && JobsOf(Rows(s), now, p.expired, p.stuck) && Worlds(s).Keys <= outcomes.Keys
    requires Torn(ClaimedSessions(s, now), torn, p, oks, outcomes, p.Jobs())
    requires p.(oks := oks).Jobs() == p.Jobs() && Marked(torn, e.sessions, p.(oks := oks), p.Jobs())
    ensures Rows(e) == Sweep(Rows(s), now, Removable(Worlds(s), outcomes))
    ensures Worlds(e) == SweepWorlds(Rows(s), Worlds(s), now, p.downWithVolumes, outcomes)
  {
    assert e.sessions.Keys == s.sessions.Keys == Worlds(s).Keys;
    hide Torn, Marked, JobsOf, TearsDown, SweepRow, SweepWorld, Sweep, SweepWorlds, Removable, Worlds, Rows;
    forall sid | sid in s.sessions
      ensures SweptTo(s.sessions[sid], e.sessions[sid], now, p.downWithVolumes, outcomes[sid])
    {
      SweptSession(s, now, p, torn, oks, e.sessions, outcomes, sid);
    }
    RowsAreSwept(s, e, now, p.downWithVolumes, outcomes);
    WorldsAreSwept(s, e, now, p.downWithVolumes, outcomes);
  }

  predicate SweptTo(ss: Session, ss': Session, now: int, downWithVolumes: bool, o: Outcome) {
    && ss'.row == SweepRow(ss.row, now, TearsDown(ss.world, o))
    && ss'.world == SweepWorld(ss.world, ss.row, now, downWithVolumes, o)
  }

  lemma RowsAreSwept(s: State, e: State, now: int, downWithVolumes: bool, outcomes: map<Sid, Outcome>)
    requires e.sessions.Keys == s.sessions.Keys <= outcomes.Keys
    requires forall sid | sid in s.sessions ::
        SweptTo(s.sessions[sid], e.sessions[sid], now, downWithVolumes, outcomes[sid])
    ensures Rows(e) == Sweep(Rows(s), now, Removable(Worlds(s), outcomes))
  {
    hide TearsDown, SweepRow, SweepWorld;
    forall sid | sid in s.sessions ensures Rows(e)[sid] == Sweep(Rows(s), now, Removable(Worlds(s), outcomes))[sid] {
      assert SweptTo(s.sessions[sid], e.sessions[sid], now, downWithVolumes, outcomes[sid]);
    }
  }

  lemma WorldsAreSwept(s: State, e: State, now: int, downWithVolumes: bool, outcomes: map<Sid, Outcome>)
    requires e.sessions.Keys == s.sessions.Keys == Worlds(s).Keys <= outcomes.Keys
    requires forall sid | sid in s.sessions ::
        SweptTo(s.sessions[sid], e.sessions[sid], now, downWithVolumes, outcomes[sid])
    ensures Worlds(e) == SweepWorlds(Rows(s), Worlds(s), now, downWithVolumes, outcomes)
  {
    hide TearsDown, SweepRow, SweepWorld;
    forall sid | sid in s.sessions
      ensures Worlds(e)[sid] == SweepWorlds(Rows(s), Worlds(s), now, downWithVolumes, outcomes)[sid]
    {
      assert SweptTo(s.sessions[sid], e.sessions[sid], now, downWithVolumes, outcomes[sid]);
    }
  }

  /** A `reap_once` that is alone and does not raise, with outcomes `outcomes` of its teardowns. */
  lemma ReapIsARun(
      cfg: Settings, s: State, a: CallId, now: int, downWithVolumes: bool, outcomes: map<Sid, Outcome>,
      expired: seq<Row>, stuck: seq<Row>)
    requires a !in s.passes && Keyed(Rows(s)) && s.sessions.Keys <= outcomes.Keys
    requires JobsOf(Rows(s), now, expired, stuck)
    ensures Worlds(s).Keys <= outcomes.Keys
    ensures exists e ::
      && Reaches(cfg, ARBITRARY, s, e) && e == s.(sessions := e.sessions)
      && Rows(e) == Sweep(Rows(s), now, Removable(Worlds(s), outcomes))
      && Worlds(e) == SweepWorlds(Rows(s), Worlds(s), now, downWithVolumes, outcomes)
  {
    hide Reaches, JobsOf, Down, TearsDown, Apply, Fits, Torn, Marked, JobsFit, Sweep, SweepWorlds, Removable;
    var p := Claimed(now, downWithVolumes, expired, stuck);
    JobsAreFit(s, now, p);
    var c := ClaimsRun(cfg, s, a, now, downWithVolumes, expired, stuck);
    assert c.sessions.Keys == s.sessions.Keys;
    var t := TearAll(cfg, c, a, p, outcomes);
    Via(cfg, ARBITRARY, s, c, t);
    var p' := t.passes[a];
    CanCommit(s, c, t, now, p, p', outcomes);
    var m := CommitAllRecords(cfg, t, a, p');
    Via(cfg, ARBITRARY, s, t, m);
    PassOver(cfg, m, a);
    var e := m.(passes := m.passes - {a});
    Via(cfg, ARBITRARY, s, m, e);
    assert e.passes == s.passes;
    SweptState(s, now, p, t.sessions, p'.oks, e, outcomes);
  }

  /** After the teardowns the records taken as stuck still have the rows they were claimed with. */
  lemma CanCommit(s: State, c: State, t: State, now: int, p: Pass, p': Pass, outcomes: map<Sid, Outcome>)
    requires Keyed(Rows(s)) && JobsOf(Rows(s), now, p.expired, p.stuck)
    requires c.sessions == ClaimedSessions(s, now) && p' == p.(oks := p'.oks)
    requires Torn(c.sessions, t.sessions, p, p'.oks, outcomes, p.Jobs())
    ensures JobsFit(p', t.sessions.Keys) && Committable(t.sessions, p')
  {
    hide Down, TearsDown, Due, DueStuck, FirstIds;
    JobsAreFit(s, now, p);
    assert p'.Jobs() == p.Jobs();
    forall i: nat | i < p.Jobs()
      ensures p'.Job(i) == p.Job(i) && i in p'.oks && p.Job(i).id in t.sessions
      ensures p'.WasStuck(p.Job(i)) ==>
        var st := t.sessions[p.Job(i).id].row.status; st.Starting? || st.Error?
    {
      assert TornDown(c.sessions, t.sessions, p, i, p'.oks[i], outcomes);
      StuckRowStays(p.Job(i), now);
      assert p'.WasStuck(p.Job(i)) <==> p.WasStuck(p.Job(i));
    }
  }

  lemma StuckRowStays(r: Row, now: int)
    ensures DueStuck(r, now) ==> ExpireRow(r, now) == r && (r.status.Starting? || r.status.Error?)
  {
  }

  lemma PassOver(cfg: Settings, s: State, a: CallId)
    requires a in s.passes && s.passes[a].dispatched && s.passes[a].next == s.passes[a].Jobs()
    requires forall i | 0 <= i < s.passes[a].Jobs() :: i in s.passes[a].oks
    ensures Reaches(cfg, ARBITRARY, s, s.(passes := s.passes - {a}))
  {
    Once(cfg, ARBITRARY, s, ReapEnd(a), s.(passes := s.passes - {a}));
  }
}
