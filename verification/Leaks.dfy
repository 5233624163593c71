/** Runs that break the container results: one for every assumption they make, with it dropped and all others
    kept, for every accepted configuration and every request. */
module Leaks {
  import opened Config
  import opened CreateScript
  import opened Ports
  import opened Protocol
  import opened Runs
  import opened Store
  import opened World
  import opened WorldSafety
  import opened Wrappers

  const ALL := Assumptions(true, true, true, true, true, true, true, true, true)

  // ---- one create, every step succeeding ----

  predicate Witness(cfg: Settings, plan: Plan) {
    cfg.Accepted() && plan.port == cfg.portStart
  }

  /** How many steps such a create takes. */
  function Length(plan: Plan): nat {
    |plan.creds.dbs| + 17
  }

  function HappyPc(n: nat, i: nat): Pc {
    if i < 8 then
      match i
      case 0 => GenTls case 1 => RenderPrivate case 2 => RenderCnf case 3 => UpPrivate
      case 4 => WaitHealthy case 5 => WaitReady case 6 => LogOff case _ => Tunnel
    else if i < 8 + n then CloneDb(i - 8)
    else
      match i - n
      case 8 => EndTunnel(false) case 9 => LogOn case 10 => Grants case 11 => RenderPublic
      case 12 => DownKeep case 13 => UpPublic case 14 => WaitPublic case 15 => CommitReady
      case 16 => Respond case _ => Returned
  }

  /** `left` says that the tunnel was not really closed. */
  function HappyWorld(plan: Plan, i: nat, left: bool): World {
    var n, dumps := |plan.creds.dbs|, Dumps(plan.creds);
    World(
      if i <= 1 then None else if i <= n + 11 then Some(Private) else Some(Public),
      if i <= 3 || i == n + 13 then None else if i <= n + 12 then Some(Private) else Some(Public),
      if i <= 3 then None else if i <= 8 then Some(EMPTY_VOLUME)
      else if i <= n + 8 then Some(Volume(dumps[..i - 8], None, false))
      else Some(Volume(dumps, if i >= n + 11 then Some(GrantsOf(plan.creds)) else None, false)),
      4 <= i <= 6 || n + 10 <= i,
      8 <= i <= n + 8 || (left && i >= n + 9))
  }

  function Happy(cfg: Settings, plan: Plan, i: nat, left: bool): Session {
    var n, row := |plan.creds.dbs|, PlaceholderRow(plan.sid, plan.ticket, plan.createdAt, plan.port);
    Session(
      if i <= n + 15 then row
      else ReadyRow(row, Encrypt(plan.creds), DefaultExpiry(cfg, plan), LatestExpiry(cfg, plan)),
      HappyWorld(plan, i, left),
      Creator(plan, HappyPc(n, i), true))
  }

  function HappyOutcome(plan: Plan, i: nat, left: bool): Outcome {
    if left && i == |plan.creds.dbs| + 8 then Failed(Nothing) else Done
  }

  lemma HappyStep(cfg: Settings, asm: Assumptions, plan: Plan, i: nat, left: bool)
    requires i < Length(plan)
    requires left ==> i >= |plan.creds.dbs| + 8 && !asm.tunnelsClose
    ensures MoveAllowed(asm, Happy(cfg, plan, i, left), Own(HappyOutcome(plan, i, left)))
    ensures CreatorStep(cfg, Happy(cfg, plan, i, left), HappyOutcome(plan, i, left)) == Happy(cfg, plan, i + 1, left)
  {
    var n, dumps := |plan.creds.dbs|, Dumps(plan.creds);
    assert dumps[..n] == dumps && (n == 0 ==> dumps == []);
    if 8 <= i < n + 8 {
      assert dumps[..i - 8] + [dumps[i - 8]] == dumps[..i - 7];
      assert i == 8 ==> dumps[..0] == [];
    }
  }

  /** The state with this session alone. */
  function Alone(ss: Session, nukes: map<CallId, Nuke>, passes: map<CallId, Pass>): State {
    State(map[ss.row.id := ss], map[], nukes, passes)
  }

  lemma {:induction false} HappyRun(
      cfg: Settings, asm: Assumptions, plan: Plan, i: nat, j: nat, left: bool,
      nukes: map<CallId, Nuke>, passes: map<CallId, Pass>)
    requires i <= j <= Length(plan)
    requires left ==> i >= |plan.creds.dbs| + 8 && !asm.tunnelsClose
    ensures Reaches(cfg, asm, Alone(Happy(cfg, plan, i, left), nukes, passes),
        Alone(Happy(cfg, plan, j, left), nukes, passes))
    decreases j
  {
    hide Apply, Fits, Allowed, Happy, HappyOutcome, CreatorStep, MoveAllowed, Reaches;
    var s := Alone(Happy(cfg, plan, i, left), nukes, passes);
    if i == j {
      NoSteps(cfg, asm, s);
    } else {
      HappyRun(cfg, asm, plan, i, j - 1, left, nukes, passes);
      HappyStep(cfg, asm, plan, j - 1, left);
      CreateStep(cfg, asm, Happy(cfg, plan, j - 1, left), HappyOutcome(plan, j - 1, left), nukes, passes);
      Via(cfg, asm, s, Alone(Happy(cfg, plan, j - 1, left), nukes, passes),
          Alone(Happy(cfg, plan, j, left), nukes, passes));
    }
  }

  lemma CreateStep(
      cfg: Settings, asm: Assumptions, ss: Session, o: Outcome, nukes: map<CallId, Nuke>, passes: map<CallId, Pass>)
    requires MoveAllowed(asm, ss, Own(o))
    ensures Reaches(cfg, asm, Alone(ss, nukes, passes), Alone(CreatorStep(cfg, ss, o), nukes, passes))
  {
    var s, sid := Alone(ss, nukes, passes), ss.row.id;
    assert CreatorStep(cfg, ss, o).row.id == sid;
    assert s.sessions[sid := CreatorStep(cfg, ss, o)] == map[sid := CreatorStep(cfg, ss, o)];
    Once(cfg, asm, s, Create(sid, o), Alone(CreatorStep(cfg, ss, o), nukes, passes));
  }

  lemma FromInit(cfg: Settings, asm: Assumptions, plan: Plan, i: nat)
    requires Witness(cfg, plan) && i <= Length(plan)
    ensures Reaches(cfg, asm, INIT, Alone(Happy(cfg, plan, i, false), map[], map[]))
  {
    var first := Alone(Happy(cfg, plan, 0, false), map[], map[]);
    assert UsedPorts(Rows(INIT)) == {};
    assert FirstFree({}, cfg) == Some(cfg.portStart);
    assert plan.(port := cfg.portStart) == plan;
    Once(cfg, asm, INIT, Step.Reserve(plan), first);
    HappyRun(cfg, asm, plan, 0, i, false, map[], map[]);
    Via(cfg, asm, INIT, first, Alone(Happy(cfg, plan, i, false), map[], map[]));
  }

  // ---- the leaking runs ----

  /** Nothing is in flight, the row is nuked, so no reaper pass will ever look at it, and its container runs. */
  ghost predicate Leaked(s: State, sid: Sid) {
    && Quiescent(s) && sid in s.sessions
    && s.sessions[sid].row.status.Nuked?
    && s.sessions[sid].world.container.Some?
  }

  /** A nuke that reads the row during the create, finds nothing to take down yet, and writes its status
      after `update_to_ready`: the create returns success, and the session leaks. */
  lemma NukeDuringCreateLeaks(cfg: Settings, plan: Plan)
    requires Witness(cfg, plan)
    ensures exists s :: Reaches(cfg, ALL.(nukeAfterReturn := false), INIT, s) && Leaked(s, plan.sid)
                        && s.sessions[plan.sid].creator.pc.Returned?
  {
    hide Apply, Fits, Allowed, Reaches;
    var asm, sid := ALL.(nukeAfterReturn := false), plan.sid;
    var h3, served := Happy(cfg, plan, 3, false), Happy(cfg, plan, Length(plan), false);
    var begun, tried := map[0 := Nuke(sid, false)], map[0 := Nuke(sid, true)];
    FromInit(cfg, asm, plan, 3);
    NukeBegins(cfg, asm, h3);
    Via(cfg, asm, INIT, Alone(h3, map[], map[]), Alone(h3, begun, map[]));
    NukeTries(cfg, asm, h3, Done);
    assert h3.(world := Down(h3.world, true, Done)) == h3;
    Via(cfg, asm, INIT, Alone(h3, begun, map[]), Alone(h3, tried, map[]));
    HappyRun(cfg, asm, plan, 3, Length(plan), false, tried, map[]);
    Via(cfg, asm, INIT, Alone(h3, tried, map[]), Alone(served, tried, map[]));
    NukeCommits(cfg, asm, served);
    Via(cfg, asm, INIT, Alone(served, tried, map[]), Alone(served.(row := served.row.(status := Nuked)), map[], map[]));
    assert Leaked(Alone(served.(row := served.row.(status := Nuked)), map[], map[]), sid);
  }

  lemma NukeBegins(cfg: Settings, asm: Assumptions, ss: Session)
    requires asm.nukeAfterReturn ==> ss.creator.pc.Returned?
    ensures Reaches(cfg, asm, Alone(ss, map[], map[]), Alone(ss, map[0 := Nuke(ss.row.id, false)], map[]))
  {
    Once(cfg, asm, Alone(ss, map[], map[]), NukeRead(0, ss.row.id, None),
        Alone(ss, map[0 := Nuke(ss.row.id, false)], map[]));
  }

  lemma NukeTries(cfg: Settings, asm: Assumptions, ss: Session, o: Outcome)
    requires (o.Done? ==> ss.world.file.Some?) && (asm.nukeDowns && ss.world.file.Some? ==> o.Done?)
    ensures Reaches(cfg, asm, Alone(ss, map[0 := Nuke(ss.row.id, false)], map[]),
                    Alone(ss.(world := Down(ss.world, true, o)), map[0 := Nuke(ss.row.id, true)], map[]))
  {
    var s := Alone(ss, map[0 := Nuke(ss.row.id, false)], map[]);
    var e := Alone(ss.(world := Down(ss.world, true, o)), map[0 := Nuke(ss.row.id, true)], map[]);
    assert Apply(cfg, s, NukeDown(0, o)) == e;
    Once(cfg, asm, s, NukeDown(0, o), e);
  }

  lemma NukeCommits(cfg: Settings, asm: Assumptions, ss: Session)
    ensures Reaches(cfg, asm, Alone(ss, map[0 := Nuke(ss.row.id, true)], map[]),
                    Alone(ss.(row := ss.row.(status := Nuked)), map[], map[]))
  {
    var s, e := Alone(ss, map[0 := Nuke(ss.row.id, true)], map[]),
        Alone(ss.(row := ss.row.(status := Nuked)), map[], map[]);
    assert Apply(cfg, s, NukeWrite(0, Done)) == e;
    Once(cfg, asm, s, NukeWrite(0, Done), e);
  }

  /** A nuke whose `down` fails marks the row nuked all the same. */
  lemma FailedNukeLeaks(cfg: Settings, plan: Plan)
    requires Witness(cfg, plan)
    ensures exists s :: Reaches(cfg, ALL.(nukeDowns := false), INIT, s) && Leaked(s, plan.sid)
  {
    hide Apply, Fits, Allowed, Reaches;
    var asm, sid, served := ALL.(nukeDowns := false), plan.sid, Happy(cfg, plan, Length(plan), false);
    var begun, tried := map[0 := Nuke(sid, false)], map[0 := Nuke(sid, true)];
    FromInit(cfg, asm, plan, Length(plan));
    NukeBegins(cfg, asm, served);
    Via(cfg, asm, INIT, Alone(served, map[], map[]), Alone(served, begun, map[]));
    NukeTries(cfg, asm, served, Failed(Nothing));
    Via(cfg, asm, INIT, Alone(served, begun, map[]), Alone(served, tried, map[]));
    NukeCommits(cfg, asm, served);
    Via(cfg, asm, INIT, Alone(served, tried, map[]), Alone(served.(row := served.row.(status := Nuked)), map[], map[]));
    assert Leaked(Alone(served.(row := served.row.(status := Nuked)), map[], map[]), sid);
  }

  // ---- with a reaper pass ----

  /** A pass that has claimed this one stuck record and torn it down. */
  function StuckPass(now: int, volumes: bool, rec: Row, oks: map<nat, bool>, next: nat): Pass {
    Pass(now, volumes, [], [rec], true, oks, next, false)
  }

  lemma SecondClaim(cfg: Settings, asm: Assumptions, ss: Session, p: Pass, recs: seq<Row>)
    requires !p.dispatched && Selects(recs, map[ss.row.id := ss.row], r => DueStuck(r, p.now))
    requires asm.noOutliving && recs != [] ==> !InFlight(ss.creator)
    ensures Reaches(cfg, asm, Alone(ss, map[], map[0 := p]),
                    Alone(ss, map[], map[0 := p.(stuck := recs, dispatched := true)]))
  {
    var s, e := Alone(ss, map[], map[0 := p]), Alone(ss, map[], map[0 := p.(stuck := recs, dispatched := true)]);
    assert Rows(s) == map[ss.row.id := ss.row];
    Once(cfg, asm, s, ReapStuck(0, Done, recs), e);
  }

  lemma PassEnds(cfg: Settings, asm: Assumptions, ss: Session, p: Pass)
    requires p.dispatched && !p.aborted && p.next == p.Jobs() && forall i | 0 <= i < p.Jobs() :: i in p.oks
    ensures Reaches(cfg, asm, Alone(ss, map[], map[0 := p]), Alone(ss, map[], map[]))
  {
    Once(cfg, asm, Alone(ss, map[], map[0 := p]), ReapEnd(0), Alone(ss, map[], map[]));
  }

  /** The claims of a pass that finds one stuck row. */
  lemma ClaimStuckRow(cfg: Settings, asm: Assumptions, ss: Session, now: int, volumes: bool)
    requires DueStuck(ss.row, now) && (asm.noOutliving ==> !InFlight(ss.creator)) && (asm.keepVolumes ==> !volumes)
    ensures Reaches(cfg, asm, Alone(ss, map[], map[]),
                    Alone(ss, map[], map[0 := StuckPass(now, volumes, ss.row, map[], 0)]))
  {
    var recs, p := [ss.row], Pass(now, volumes, [], [], false, map[], 0, false);
    assert recs[0].id == ss.row.id;
    NoExpiredRow(cfg, asm, ss, now, volumes);
    SecondClaim(cfg, asm, ss, p, recs);
    Via(cfg, asm, Alone(ss, map[], map[]), Alone(ss, map[], map[0 := p]),
                    Alone(ss, map[], map[0 := StuckPass(now, volumes, ss.row, map[], 0)]));
  }

  lemma NoExpiredRow(cfg: Settings, asm: Assumptions, ss: Session, now: int, volumes: bool)
    requires !DueExpired(ss.row, now) && (asm.keepVolumes ==> !volumes)
    ensures Reaches(cfg, asm, Alone(ss, map[], map[]),
                    Alone(ss, map[], map[0 := Pass(now, volumes, [], [], false, map[], 0, false)]))
  {
    var s, e := Alone(ss, map[], map[]), Alone(ss, map[], map[0 := Pass(now, volumes, [], [], false, map[], 0, false)]);
    assert Rows(s) == map[ss.row.id := ss.row];
    assert Apply(cfg, s, ReapExpired(0, now, volumes, [])) == e;
    Once(cfg, asm, s, ReapExpired(0, now, volumes, []), e);
  }

  /** The teardown of a pass's only record succeeds; without a compose file it changes nothing. */
  lemma TearDownOnly(cfg: Settings, asm: Assumptions, ss: Session, p: Pass)
    requires p.dispatched && p.Jobs() == 1 && p.Job(0).id == ss.row.id && p.oks == map[]
    ensures Reaches(cfg, asm, Alone(ss, map[], map[0 := p]),
                    Alone(ss.(world := Down(ss.world, p.JobVolumes(0), Done)), map[],
                        map[0 := p.(oks := map[0 := true])]))
  {
    var s := Alone(ss, map[], map[0 := p]);
    var e := Alone(ss.(world := Down(ss.world, p.JobVolumes(0), Done)), map[], map[0 := p.(oks := map[0 := true])]);
    assert Apply(cfg, s, ReapDown(0, 0, Done)) == e;
    Once(cfg, asm, s, ReapDown(0, 0, Done), e);
  }

  /** Claimed, and torn down. */
  lemma SweepStuckRow(cfg: Settings, asm: Assumptions, ss: Session, now: int, volumes: bool)
    requires DueStuck(ss.row, now) && (asm.noOutliving ==> !InFlight(ss.creator)) && (asm.keepVolumes ==> !volumes)
    ensures Reaches(cfg, asm, Alone(ss, map[], map[]),
                    Alone(ss.(world := Down(ss.world, volumes, Done)), map[],
                          map[0 := StuckPass(now, volumes, ss.row, map[0 := true], 0)]))
  {
    hide Apply, Fits, Allowed, Reaches;
    ClaimStuckRow(cfg, asm, ss, now, volumes);
    TearDownOnly(cfg, asm, ss, StuckPass(now, volumes, ss.row, map[], 0));
    Via(cfg, asm, Alone(ss, map[], map[]), Alone(ss, map[], map[0 := StuckPass(now, volumes, ss.row, map[], 0)]),
        Alone(ss.(world := Down(ss.world, volumes, Done)), map[],
            map[0 := StuckPass(now, volumes, ss.row, map[0 := true], 0)]));
  }

  /** The pass commits its only, successful, teardown and ends. */
  lemma CommitOnly(cfg: Settings, asm: Assumptions, ss: Session, p: Pass, nuked: Session)
    requires p.dispatched && !p.aborted && p.Jobs() == 1 && p.Job(0).id == ss.row.id && p.oks == map[0 := true]
        && p.next == 0
    requires nuked == ss.(row := if p.WasStuck(p.Job(0)) then MarkNukedRow(ss.row) else ss.row.(status := Nuked))
    ensures Reaches(cfg, asm, Alone(ss, map[], map[0 := p]), Alone(nuked, map[], map[]))
  {
    var s, mid := Alone(ss, map[], map[0 := p]), Alone(nuked, map[], map[0 := p.(next := 1)]);
    assert Apply(cfg, s, ReapMark(0, Done)) == mid;
    Once(cfg, asm, s, ReapMark(0, Done), mid);
    PassEnds(cfg, asm, nuked, p.(next := 1));
    Via(cfg, asm, s, mid, Alone(nuked, map[], map[]));
  }

  /** A create that outlives its placeholder: the reaper tears down nothing, the create still moves its
      row to ready and returns, and `mark_nuked` then accepts the ready row. */
  lemma OutlivedPlaceholderLeaks(cfg: Settings, plan: Plan)
    requires Witness(cfg, plan)
    ensures exists s :: Reaches(cfg, ALL.(noOutliving := false), INIT, s) && Leaked(s, plan.sid)
                        && s.sessions[plan.sid].creator.pc.Returned?
  {
    hide Apply, Fits, Allowed, Reaches;
    var asm, sid, now := ALL.(noOutliving := false), plan.sid, plan.createdAt + PLACEHOLDER_SECONDS + 1;
    var h3, served := Happy(cfg, plan, 3, false), Happy(cfg, plan, Length(plan), false);
    var torn := map[0 := StuckPass(now, false, h3.row, map[0 := true], 0)];
    FromInit(cfg, asm, plan, 3);
    SweepStuckRow(cfg, asm, h3, now, false);
    assert h3.(world := Down(h3.world, false, Done)) == h3;
    Via(cfg, asm, INIT, Alone(h3, map[], map[]), Alone(h3, map[], torn));
    HappyRun(cfg, asm, plan, 3, Length(plan), false, map[], torn);
    Via(cfg, asm, INIT, Alone(h3, map[], torn), Alone(served, map[], torn));
    CommitOnly(cfg, asm, served, torn[0], served.(row := MarkNukedRow(served.row)));
    var e := Alone(served.(row := MarkNukedRow(served.row)), map[], map[]);
    Via(cfg, asm, INIT, Alone(served, map[], torn), e);
    assert Leaked(e, sid);
  }

  /** A failed create whose cleanup `down` fails too still deletes its compose file, and the reaper then
      takes the missing file for proof that nothing runs. */
  lemma FailedCleanupLeaks(cfg: Settings, plan: Plan)
    requires Witness(cfg, plan)
    ensures exists s :: Reaches(cfg, ALL.(cleanupDowns := false), INIT, s) && Leaked(s, plan.sid)
                        && s.sessions[plan.sid].world.file.None?
  {
    hide Apply, Fits, Allowed, Reaches;
    var asm, sid, now := ALL.(cleanupDowns := false), plan.sid, plan.createdAt + PLACEHOLDER_SECONDS + 1;
    var raised := ErrorPath(plan, 3);
    FromInit(cfg, asm, plan, 3);
    CleanupGoesWrong(cfg, asm, plan);
    Via(cfg, asm, INIT, Alone(Happy(cfg, plan, 3, false), map[], map[]), Alone(raised, map[], map[]));
    ReapWithoutFile(cfg, asm, raised, now);
    var e := Alone(raised.(row := MarkNukedRow(raised.row)), map[], map[]);
    Via(cfg, asm, INIT, Alone(raised, map[], map[]), e);
    assert Leaked(e, sid);
  }

  function CleanupPc(i: nat): Pc {
    match i case 0 => CleanupDown case 1 => CleanupFiles case 2 => SetError case _ => Raised
  }

  /** The error path of a create whose `up` failed with the container left running: at its cleanup
      `down`, after that failed too, after the files are gone, and at the end. */
  function ErrorPath(plan: Plan, i: nat): Session {
    var row := PlaceholderRow(plan.sid, plan.ticket, plan.createdAt, plan.port);
    Session(if i == 3 then row.(status := Error) else row,
            World(if i <= 1 then Some(Private) else None, Some(Private), Some(EMPTY_VOLUME), true, false),
            Creator(plan, CleanupPc(i), true))
  }

  lemma ErrorStep(cfg: Settings, asm: Assumptions, plan: Plan, i: nat, o: Outcome)
    requires i < 3 && o == (if i == 0 then Failed(Nothing) else Done) && !asm.cleanupDowns
    ensures MoveAllowed(asm, ErrorPath(plan, i), Own(o))
    ensures CreatorStep(cfg, ErrorPath(plan, i), o) == ErrorPath(plan, i + 1)
  {
  }

  lemma CleanupGoesWrong(cfg: Settings, asm: Assumptions, plan: Plan)
    requires Witness(cfg, plan) && !asm.cleanupDowns
    ensures Reaches(cfg, asm, Alone(Happy(cfg, plan, 3, false), map[], map[]), Alone(ErrorPath(plan, 3), map[], map[]))
  {
    hide Apply, Fits, Allowed, Reaches;
    var h3 := Happy(cfg, plan, 3, false);
    assert CreatorStep(cfg, h3, Failed(Fully)) == ErrorPath(plan, 0);
    CreateStep(cfg, asm, h3, Failed(Fully), map[], map[]);
    hide CreatorStep, MoveAllowed, ErrorPath, Happy;
    for i := 0 to 3
      invariant Reaches(cfg, asm, Alone(h3, map[], map[]), Alone(ErrorPath(plan, i), map[], map[]))
    {
      var o := if i == 0 then Failed(Nothing) else Done;
      ErrorStep(cfg, asm, plan, i, o);
      CreateStep(cfg, asm, ErrorPath(plan, i), o, map[], map[]);
      Via(cfg, asm, Alone(h3, map[], map[]), Alone(ErrorPath(plan, i), map[], map[]),
          Alone(ErrorPath(plan, i + 1), map[], map[]));
    }
  }

  lemma ReapWithoutFile(cfg: Settings, asm: Assumptions, ss: Session, now: int)
    requires DueStuck(ss.row, now) && !InFlight(ss.creator) && ss.world.file.None?
    ensures Reaches(cfg, asm, Alone(ss, map[], map[]), Alone(ss.(row := MarkNukedRow(ss.row)), map[], map[]))
  {
    hide Apply, Fits, Allowed, Reaches;
    var s := Alone(ss, map[], map[]);
    var torn := StuckPass(now, false, ss.row, map[0 := true], 0);
    SweepStuckRow(cfg, asm, ss, now, false);
    assert ss.(world := Down(ss.world, false, Done)) == ss;
    CommitOnly(cfg, asm, ss, torn, ss.(row := MarkNukedRow(ss.row)));
    Via(cfg, asm, s, Alone(ss, map[], map[0 := torn]), Alone(ss.(row := MarkNukedRow(ss.row)), map[], map[]));
  }

  // ---- creates that return an empty sandbox ----

  /** A create from its second `up` on, after its volume was removed under it: `up` makes a new, empty one. */
  function Emptied(cfg: Settings, plan: Plan, i: nat): Session {
    var ss := Happy(cfg, plan, i, false);
    ss.(world := ss.world.(volume := if i == |plan.creds.dbs| + 13 then None else Some(EMPTY_VOLUME)))
  }

  lemma EmptiedStep(cfg: Settings, asm: Assumptions, plan: Plan, i: nat)
    requires |plan.creds.dbs| + 13 <= i < Length(plan)
    ensures MoveAllowed(asm, Emptied(cfg, plan, i), Own(Done))
    ensures CreatorStep(cfg, Emptied(cfg, plan, i), Done) == Emptied(cfg, plan, i + 1)
  {
    hide Dumps;
  }

  lemma {:induction false} EmptiedRun(
      cfg: Settings, asm: Assumptions, plan: Plan, i: nat, nukes: map<CallId, Nuke>, passes: map<CallId, Pass>)
    requires |plan.creds.dbs| + 13 <= i <= Length(plan)
    ensures Reaches(cfg, asm, Alone(Emptied(cfg, plan, |plan.creds.dbs| + 13), nukes, passes),
                    Alone(Emptied(cfg, plan, i), nukes, passes))
    decreases i
  {
    hide Apply, Fits, Allowed, Emptied, CreatorStep, MoveAllowed, Reaches;
    var s := Alone(Emptied(cfg, plan, |plan.creds.dbs| + 13), nukes, passes);
    if i == |plan.creds.dbs| + 13 {
      NoSteps(cfg, asm, s);
    } else {
      EmptiedRun(cfg, asm, plan, i - 1, nukes, passes);
      EmptiedStep(cfg, asm, plan, i - 1);
      CreateStep(cfg, asm, Emptied(cfg, plan, i - 1), Done, nukes, passes);
      Via(cfg, asm, s, Alone(Emptied(cfg, plan, i - 1), nukes, passes), Alone(Emptied(cfg, plan, i), nukes, passes));
    }
  }

  /** The create has returned success, its row is ready and its container public, but nothing is in it. */
  predicate ServesNothing(s: State, sid: Sid) {
    && sid in s.sessions && s.sessions[sid].creator.pc.Returned? && s.sessions[sid].row.status.Ready?
    && s.sessions[sid].world.container == Some(Public) && s.sessions[sid].world.volume == Some(EMPTY_VOLUME)
  }

  /** A nuke's `down -v` between the two halves of the restart, whose status write then raises: the create
      returns success for an empty sandbox, and nothing is left in flight to notice. */
  lemma NukeDuringRestartEmpties(cfg: Settings, plan: Plan)
    requires Witness(cfg, plan)
    ensures exists s :: Reaches(cfg, ALL.(nukeAfterReturn := false), INIT, s)
                        && ServesNothing(s, plan.sid) && Quiescent(s)
  {
    hide Apply, Fits, Allowed, Reaches;
    var asm, sid, at := ALL.(nukeAfterReturn := false), plan.sid, |plan.creds.dbs| + 13;
    var h, gone, e := Happy(cfg, plan, at, false), Emptied(cfg, plan, at), Emptied(cfg, plan, Length(plan));
    var begun, tried := map[0 := Nuke(sid, false)], map[0 := Nuke(sid, true)];
    FromInit(cfg, asm, plan, at);
    NukeBegins(cfg, asm, h);
    Via(cfg, asm, INIT, Alone(h, map[], map[]), Alone(h, begun, map[]));
    NukeTries(cfg, asm, h, Done);
    assert h.(world := Down(h.world, true, Done)) == gone;
    Via(cfg, asm, INIT, Alone(h, begun, map[]), Alone(gone, tried, map[]));
    EmptiedRun(cfg, asm, plan, Length(plan), tried, map[]);
    Via(cfg, asm, INIT, Alone(gone, tried, map[]), Alone(e, tried, map[]));
    NukeRaises(cfg, asm, e);
    Via(cfg, asm, INIT, Alone(e, tried, map[]), Alone(e, map[], map[]));
    assert ServesNothing(Alone(e, map[], map[]), sid);
  }

  lemma NukeRaises(cfg: Settings, asm: Assumptions, ss: Session)
    ensures Reaches(cfg, asm, Alone(ss, map[0 := Nuke(ss.row.id, true)], map[]), Alone(ss, map[], map[]))
  {
    var s, e := Alone(ss, map[0 := Nuke(ss.row.id, true)], map[]), Alone(ss, map[], map[]);
    assert Apply(cfg, s, NukeWrite(0, Failed(Nothing))) == e;
    Once(cfg, asm, s, NukeWrite(0, Failed(Nothing)), e);
  }

  /** The same by a sweep with `-v` that claims a create which has outlived its placeholder. */
  lemma VolumeSweepEmpties(cfg: Settings, plan: Plan)
    requires Witness(cfg, plan)
    ensures exists s :: Reaches(cfg, ALL.(noOutliving := false, keepVolumes := false), INIT, s)
                        && ServesNothing(s, plan.sid)
  {
    hide Apply, Fits, Allowed, Reaches;
    var asm, at := ALL.(noOutliving := false, keepVolumes := false), |plan.creds.dbs| + 13;
    var now := plan.createdAt + PLACEHOLDER_SECONDS + 1;
    var h, gone, e := Happy(cfg, plan, at, false), Emptied(cfg, plan, at), Emptied(cfg, plan, Length(plan));
    var torn := map[0 := StuckPass(now, true, h.row, map[0 := true], 0)];
    FromInit(cfg, asm, plan, at);
    SweepStuckRow(cfg, asm, h, now, true);
    assert h.(world := Down(h.world, true, Done)) == gone;
    Via(cfg, asm, INIT, Alone(h, map[], map[]), Alone(gone, map[], torn));
    EmptiedRun(cfg, asm, plan, Length(plan), map[], torn);
    Via(cfg, asm, INIT, Alone(gone, map[], torn), Alone(e, map[], torn));
    assert ServesNothing(Alone(e, map[], torn), plan.sid);
  }

  /** A create about to move its row to ready, with its container just torn down. */
  predicate CommitsNothing(cfg: Settings, s: State, sid: Sid) {
    && sid in s.sessions && s.sessions[sid].creator.alive && s.sessions[sid].creator.pc.CommitReady?
    && var next := CreatorStep(cfg, s.sessions[sid], Done);
       next.row.status.Ready? && next.world.container.None?
  }

  /** A create that outlives its placeholder can commit with its container gone. */
  lemma OutlivedPlaceholderCommitsNothing(cfg: Settings, plan: Plan)
    requires Witness(cfg, plan)
    ensures exists s :: Reaches(cfg, ALL.(noOutliving := false), INIT, s) && CommitsNothing(cfg, s, plan.sid)
  {
    hide Apply, Fits, Allowed, Reaches;
    var asm, now := ALL.(noOutliving := false), plan.createdAt + PLACEHOLDER_SECONDS + 1;
    var h := Happy(cfg, plan, |plan.creds.dbs| + 15, false);
    var gone := h.(world := Down(h.world, false, Done));
    var e := Alone(gone, map[], map[0 := StuckPass(now, false, h.row, map[0 := true], 0)]);
    FromInit(cfg, asm, plan, |plan.creds.dbs| + 15);
    SweepStuckRow(cfg, asm, h, now, false);
    Via(cfg, asm, INIT, Alone(h, map[], map[]), e);
    assert e.sessions[plan.sid] == gone && CommitsNothing(cfg, e, plan.sid);
  }

  /** So can one that is nuked before it has returned. */
  lemma NukeAtCommitCommitsNothing(cfg: Settings, plan: Plan)
    requires Witness(cfg, plan)
    ensures exists s :: Reaches(cfg, ALL.(nukeAfterReturn := false), INIT, s) && CommitsNothing(cfg, s, plan.sid)
  {
    hide Apply, Fits, Allowed, Reaches;
    var asm, h := ALL.(nukeAfterReturn := false), Happy(cfg, plan, |plan.creds.dbs| + 15, false);
    var gone := h.(world := Down(h.world, true, Done));
    var begun, e := Alone(h, map[0 := Nuke(plan.sid, false)], map[]),
        Alone(gone, map[0 := Nuke(plan.sid, true)], map[]);
    FromInit(cfg, asm, plan, |plan.creds.dbs| + 15);
    NukeBegins(cfg, asm, h);
    Via(cfg, asm, INIT, Alone(h, map[], map[]), begun);
    NukeTries(cfg, asm, h, Done);
    Via(cfg, asm, INIT, begun, e);
    assert e.sessions[plan.sid] == gone && CommitsNothing(cfg, e, plan.sid);
  }

  // ---- a row that leaves nuked ----

  /** A create whose first step failed, from a nuke that won the race on: its cleanup, then its error write. */
  function Lost(plan: Plan, i: nat): Session {
    var row := PlaceholderRow(plan.sid, plan.ticket, plan.createdAt, plan.port);
    Session(row.(status := if i < 3 then Nuked else Error), NOTHING,
            Creator(plan, CleanupPc(i), true))
  }

  lemma LostStep(cfg: Settings, asm: Assumptions, plan: Plan, i: nat)
    requires i < 3
    ensures var o := if i == 0 then Failed(Nothing) else Done;
      MoveAllowed(asm, Lost(plan, i), Own(o)) && CreatorStep(cfg, Lost(plan, i), o) == Lost(plan, i + 1)
  {
  }

  lemma LostRun(cfg: Settings, asm: Assumptions, plan: Plan)
    ensures Reaches(cfg, asm, Alone(Lost(plan, 0), map[], map[]), Alone(Lost(plan, 3), map[], map[]))
  {
    hide Apply, Fits, Allowed, CreatorStep, MoveAllowed, Lost, Reaches;
    var s := Alone(Lost(plan, 0), map[], map[]);
    for i := 0 to 3
      invariant i > 0 ==> Reaches(cfg, asm, s, Alone(Lost(plan, i), map[], map[]))
    {
      LostStep(cfg, asm, plan, i);
      CreateStep(cfg, asm, Lost(plan, i), if i == 0 then Failed(Nothing) else Done, map[], map[]);
      if i > 0 {
        Via(cfg, asm, s, Alone(Lost(plan, i), map[], map[]), Alone(Lost(plan, i + 1), map[], map[]));
      }
    }
  }

  ghost predicate BackAndForth(cfg: Settings, asm: Assumptions, nuked: State, error: State, again: State, sid: Sid) {
    && Reaches(cfg, asm, INIT, nuked) && Reaches(cfg, asm, nuked, error) && Reaches(cfg, asm, error, again)
    && sid in nuked.sessions && nuked.sessions[sid].row.status.Nuked?
    && sid in error.sessions && error.sessions[sid].row.status.Error?
    && sid in again.sessions && again.sessions[sid].row.status.Nuked? && Quiescent(again)
  }

  /** nuked is not terminal, from the empty store and for every request: the create's first step fails, a
      nuke writes nuked, the create's error path writes error over it, and a later pass nukes the row again. */
  lemma NukedIsNotTerminal(cfg: Settings, plan: Plan)
    requires Witness(cfg, plan)
    ensures exists a, b, c :: BackAndForth(cfg, ALL.(nukeAfterReturn := false), a, b, c, plan.sid)
  {
    hide Apply, Fits, Allowed, Reaches;
    var asm, h0 := ALL.(nukeAfterReturn := false), Happy(cfg, plan, 0, false);
    var failed, lost := CreatorStep(cfg, h0, Failed(Nothing)), Lost(plan, 0);
    var begun, tried := map[0 := Nuke(plan.sid, false)], map[0 := Nuke(plan.sid, true)];
    FromInit(cfg, asm, plan, 0);
    CreateStep(cfg, asm, h0, Failed(Nothing), map[], map[]);
    Via(cfg, asm, INIT, Alone(h0, map[], map[]), Alone(failed, map[], map[]));
    NukeBegins(cfg, asm, failed);
    Via(cfg, asm, INIT, Alone(failed, map[], map[]), Alone(failed, begun, map[]));
    NukeTries(cfg, asm, failed, Failed(Nothing));
    assert failed.(world := Down(failed.world, true, Failed(Nothing))) == failed;
    Via(cfg, asm, INIT, Alone(failed, begun, map[]), Alone(failed, tried, map[]));
    NukeCommits(cfg, asm, failed);
    assert failed.(row := failed.row.(status := Nuked)) == lost;
    Via(cfg, asm, INIT, Alone(failed, tried, map[]), Alone(lost, map[], map[]));
    LostRun(cfg, asm, plan);
    var error := Lost(plan, 3);
    ReapWithoutFile(cfg, asm, error, plan.createdAt + PLACEHOLDER_SECONDS + 1);
    assert BackAndForth(cfg, asm, Alone(lost, map[], map[]), Alone(error, map[], map[]),
                        Alone(error.(row := MarkNukedRow(error.row)), map[], map[]), plan.sid);
  }

  // ---- runs that stop short of quiet, but lose nothing ----

  /** Running at quiescence in a row that is not ready; the reaper will still claim it. */
  ghost predicate Stranded(s: State, sid: Sid) {
    && Quiescent(s) && sid in s.sessions
    && s.sessions[sid].world.container.Some?
    && !s.sessions[sid].row.status.Ready?
  }

  lemma ProcessDies(cfg: Settings, asm: Assumptions, ss: Session)
    requires !asm.noCrash
    ensures Reaches(cfg, asm, Alone(ss, map[], map[]), Alone(Dead(ss), map[], map[]))
  {
    var crash := Crash({ss.row.id}, {}, {}, {});
    assert Apply(cfg, Alone(ss, map[], map[]), crash) == Alone(Dead(ss), map[], map[]);
    Once(cfg, asm, Alone(ss, map[], map[]), crash, Alone(Dead(ss), map[], map[]));
  }

  lemma CrashStrands(cfg: Settings, plan: Plan)
    requires Witness(cfg, plan)
    ensures exists s :: Reaches(cfg, ALL.(noCrash := false), INIT, s) && Stranded(s, plan.sid)
  {
    hide Apply, Fits, Allowed, Reaches;
    var asm, h5 := ALL.(noCrash := false), Happy(cfg, plan, 5, false);
    FromInit(cfg, asm, plan, 5);
    ProcessDies(cfg, asm, h5);
    Via(cfg, asm, INIT, Alone(h5, map[], map[]), Alone(Dead(h5), map[], map[]));
    assert Stranded(Alone(Dead(h5), map[], map[]), plan.sid);
  }

  /** The claim of a pass that finds one expired session. */
  lemma ClaimExpiredRow(cfg: Settings, asm: Assumptions, ss: Session, now: int)
    requires DueExpired(ss.row, now)
    ensures Reaches(cfg, asm, Alone(ss, map[], map[]),
                    Alone(ss.(row := ss.row.(status := Expired)), map[],
                          map[0 := Pass(now, false, [ss.row], [], false, map[], 0, false)]))
  {
    hide MoveOf, CreatorStep;
    var s := Alone(ss, map[], map[]);
    var recs := [ss.row];
    var e := Alone(ss.(row := ss.row.(status := Expired)), map[],
        map[0 := Pass(now, false, recs, [], false, map[], 0, false)]);
    assert Rows(s) == map[ss.row.id := ss.row] && recs[0].id == ss.row.id;
    assert Selects(recs, Rows(s), r => DueExpired(r, now));
    assert Apply(cfg, s, ReapExpired(0, now, false, recs)) == e;
    Once(cfg, asm, s, ReapExpired(0, now, false, recs), e);
  }

  lemma RaisingClaimStrands(cfg: Settings, plan: Plan)
    requires Witness(cfg, plan)
    ensures exists s :: Reaches(cfg, ALL.(reaperCommits := false), INIT, s) && Stranded(s, plan.sid)
  {
    hide Apply, Fits, Allowed, Reaches;
    var asm, served, now := ALL.(reaperCommits := false), Happy(cfg, plan, Length(plan), false),
        DefaultExpiry(cfg, plan) + 1;
    var expired := served.(row := served.row.(status := Expired));
    var p := Pass(now, false, [served.row], [], false, map[], 0, false);
    FromInit(cfg, asm, plan, Length(plan));
    ClaimExpiredRow(cfg, asm, served, now);
    Via(cfg, asm, INIT, Alone(served, map[], map[]), Alone(expired, map[], map[0 := p]));
    SecondClaimRaises(cfg, asm, expired, p);
    Via(cfg, asm, INIT, Alone(expired, map[], map[0 := p]), Alone(expired, map[], map[]));
    assert Stranded(Alone(expired, map[], map[]), plan.sid);
  }

  lemma SecondClaimRaises(cfg: Settings, asm: Assumptions, ss: Session, p: Pass)
    requires !p.dispatched && !asm.reaperCommits && !DueStuck(ss.row, p.now)
    ensures Reaches(cfg, asm, Alone(ss, map[], map[0 := p]), Alone(ss, map[], map[]))
  {
    var s := Alone(ss, map[], map[0 := p]);
    assert Rows(s) == map[ss.row.id := ss.row];
    Once(cfg, asm, s, ReapStuck(0, Failed(Nothing), []), Alone(ss, map[], map[]));
  }

  lemma FailedTeardownStrands(cfg: Settings, plan: Plan)
    requires Witness(cfg, plan)
    ensures exists s :: Reaches(cfg, ALL.(reaperDowns := false), INIT, s) && Stranded(s, plan.sid)
  {
    hide Apply, Fits, Allowed, Reaches;
    var asm, served, now := ALL.(reaperDowns := false), Happy(cfg, plan, Length(plan), false),
        DefaultExpiry(cfg, plan) + 1;
    var expired := served.(row := served.row.(status := Expired));
    var claimed := Alone(expired, map[], map[0 := Pass(now, false, [served.row], [], false, map[], 0, false)]);
    FromInit(cfg, asm, plan, Length(plan));
    ClaimExpiredRow(cfg, asm, served, now);
    Via(cfg, asm, INIT, Alone(served, map[], map[]), claimed);
    FailingPass(cfg, asm, expired, served.row, now);
    Via(cfg, asm, INIT, claimed, Alone(expired, map[], map[]));
    assert Stranded(Alone(expired, map[], map[]), plan.sid);
  }

  /** The rest of a pass whose one teardown fails: it commits nothing. */
  lemma FailingPass(cfg: Settings, asm: Assumptions, ss: Session, rec: Row, now: int)
    requires !asm.reaperDowns && rec.id == ss.row.id && ss.row.status.Expired? && ss.world.file.Some?
    ensures Reaches(cfg, asm, Alone(ss, map[], map[0 := Pass(now, false, [rec], [], false, map[], 0, false)]),
                    Alone(ss, map[], map[]))
  {
    var p := Pass(now, false, [rec], [], false, map[], 0, false);
    var p1 := p.(dispatched := true);
    var p2 := p1.(oks := map[0 := false]);
    hide Apply, Fits, Allowed, Reaches;
    var s := Alone(ss, map[], map[0 := p]);
    SecondClaim(cfg, asm, ss, p, []);
    TeardownFails(cfg, asm, ss, p1);
    Via(cfg, asm, s, Alone(ss, map[], map[0 := p1]), Alone(ss, map[], map[0 := p2]));
    SkipsFailed(cfg, asm, ss, p2);
    Via(cfg, asm, s, Alone(ss, map[], map[0 := p2]), Alone(ss, map[], map[0 := p2.(next := 1)]));
    PassEnds(cfg, asm, ss, p2.(next := 1));
    Via(cfg, asm, s, Alone(ss, map[], map[0 := p2.(next := 1)]), Alone(ss, map[], map[]));
  }

  lemma SkipsFailed(cfg: Settings, asm: Assumptions, ss: Session, p: Pass)
    requires p.dispatched && !p.aborted && p.next == 0 && p.Jobs() == 1 && p.Job(0).id == ss.row.id
        && p.oks == map[0 := false]
    ensures Reaches(cfg, asm, Alone(ss, map[], map[0 := p]), Alone(ss, map[], map[0 := p.(next := 1)]))
  {
    var s, e := Alone(ss, map[], map[0 := p]), Alone(ss, map[], map[0 := p.(next := 1)]);
    assert Apply(cfg, s, ReapMark(0, Done)) == e;
    Once(cfg, asm, s, ReapMark(0, Done), e);
  }

  lemma TeardownFails(cfg: Settings, asm: Assumptions, ss: Session, p: Pass)
    requires !asm.reaperDowns && ss.world.file.Some?
    requires p.dispatched && p.Jobs() == 1 && p.Job(0).id == ss.row.id && p.oks == map[]
    ensures Reaches(cfg, asm, Alone(ss, map[], map[0 := p]), Alone(ss, map[], map[0 := p.(oks := map[0 := false])]))
  {
    var s, e := Alone(ss, map[], map[0 := p]), Alone(ss, map[], map[0 := p.(oks := map[0 := false])]);
    assert Apply(cfg, s, ReapDown(0, 0, Failed(Nothing))) == e;
    Once(cfg, asm, s, ReapDown(0, 0, Failed(Nothing)), e);
  }

  /** A close that silently fails leaves prod reachable through the tunnel of a public session. */
  lemma UnclosedTunnelStaysOpen(cfg: Settings, plan: Plan)
    requires Witness(cfg, plan)
    ensures exists s :: Reaches(cfg, ALL.(tunnelsClose := false), INIT, s) && plan.sid in s.sessions
                        && s.sessions[plan.sid].world.tunnel && s.sessions[plan.sid].world.container == Some(Public)
  {
    hide Apply, Fits, Allowed, Reaches;
    var asm := ALL.(tunnelsClose := false);
    var last := |plan.creds.dbs| + 8;
    FromInit(cfg, asm, plan, last);
    assert Happy(cfg, plan, last, false) == Happy(cfg, plan, last, true);
    HappyRun(cfg, asm, plan, last, Length(plan), true, map[], map[]);
    var e := Alone(Happy(cfg, plan, Length(plan), true), map[], map[]);
    Via(cfg, asm, INIT, Alone(Happy(cfg, plan, last, true), map[], map[]), e);
    assert e.sessions[plan.sid].world.tunnel;
  }
}
