/** What becomes of the data volumes: under the reaper loop's defaults only a nuke ever removes one. */
module Volumes {
  import opened Config
  import opened CreateScript
  import opened Leaks
  import opened NoLeak
  import opened Protocol
  import opened Runs
  import opened Store
  import opened World
  import opened WorldSafety
  import opened Wrappers

  /** The step is a `down` of this session that is asked to remove volumes and gets that far. */
  ghost predicate NukesVolume(s: State, step: Step, sid: Sid)
    requires Fits(s, step)
  {
    step.NukeDown? && s.nukes[step.call].sid == sid && Removing(step.outcome)
  }

  ghost predicate SweepsVolume(s: State, step: Step, sid: Sid)
    requires Fits(s, step)
  {
    step.ReapDown? && var p := s.passes[step.call];
      p.downWithVolumes && step.job >= |p.expired| && p.Job(step.job).id == sid && Removing(step.outcome)
  }

  /** Once a create is over, a step changes the session's volume exactly if it is a nuke's `down`, or the
      teardown of a stuck record in a pass that was asked to remove volumes, and there is a compose file. */
  lemma VolumeChangesExactly(cfg: Settings, s: State, step: Step, sid: Sid)
    requires Fits(s, step) && sid in s.sessions && !InFlight(s.sessions[sid].creator)
    ensures sid in Apply(cfg, s, step).sessions && !InFlight(Apply(cfg, s, step).sessions[sid].creator)
    ensures var w := s.sessions[sid].world;
      Apply(cfg, s, step).sessions[sid].world.volume != w.volume <==>
        w.volume.Some? && w.file.Some? && (NukesVolume(s, step, sid) || SweepsVolume(s, step, sid))
  {
    hide Apply, CreatorStep, Selects;
    StepIsMove(cfg, s, step, sid);
    var m := MoveOf(s, step, sid);
    assert !m.Own?;
    if m.TearDown? {
      DownRemoves(s.sessions[sid].world, m.removeVolumes, m.outcome);
      assert step.ReapDown? ==> (m.removeVolumes && Removing(m.outcome) <==> SweepsVolume(s, step, sid));
    }
  }

  /** No nuke removes the volume of `sid` along the run. */
  ghost predicate NotNuked(cfg: Settings, asm: Assumptions, s: State, steps: seq<Step>, sid: Sid)
    requires Run(cfg, asm, s, steps)
    decreases |steps|
  {
    steps == [] || (!NukesVolume(s, steps[0], sid) && NotNuked(cfg, asm, Apply(cfg, s, steps[0]), steps[1..], sid))
  }

  lemma {:induction false} RunKeepsVolume(cfg: Settings, asm: Assumptions, s: State, steps: seq<Step>, sid: Sid)
    requires asm.keepVolumes && PassesKeep(s) && Run(cfg, asm, s, steps)
    requires sid in s.sessions && !InFlight(s.sessions[sid].creator) && NotNuked(cfg, asm, s, steps, sid)
    ensures sid in End(cfg, asm, s, steps).sessions
    ensures End(cfg, asm, s, steps).sessions[sid].world.volume == s.sessions[sid].world.volume
    decreases |steps|
  {
    hide Apply, Fits, Allowed;
    if steps != [] {
      VolumeChangesExactly(cfg, s, steps[0], sid);
      StepPassesKeep(cfg, asm, s, steps[0]);
      assert !SweepsVolume(s, steps[0], sid) by { KeepingPass(s, steps[0], sid); }
      RunKeepsVolume(cfg, asm, Apply(cfg, s, steps[0]), steps[1..], sid);
    }
  }

  lemma KeepingPass(s: State, step: Step, sid: Sid)
    requires Fits(s, step) && PassesKeep(s)
    ensures !SweepsVolume(s, step, sid)
  {
  }

  /** In every run whose passes use the loop's default: from the end of a create on, whatever expires, is
      reaped or crashes, its volume stays as it is unless a nuke removes it. */
  lemma OnlyNukesRemoveVolumes(cfg: Settings, asm: Assumptions, steps: seq<Step>, later: seq<Step>, sid: Sid)
    requires asm.keepVolumes && Run(cfg, asm, INIT, steps) && Run(cfg, asm, End(cfg, asm, INIT, steps), later)
    requires sid in End(cfg, asm, INIT, steps).sessions
    requires !InFlight(End(cfg, asm, INIT, steps).sessions[sid].creator)
    requires NotNuked(cfg, asm, End(cfg, asm, INIT, steps), later, sid)
    ensures var s := End(cfg, asm, INIT, steps);
      var e := End(cfg, asm, s, later);
      sid in e.sessions && e.sessions[sid].world.volume == s.sessions[sid].world.volume
  {
    hide Apply, Fits, Allowed;
    RunKeepsWorld(cfg, asm, INIT, steps);
    RunKeepsVolume(cfg, asm, End(cfg, asm, INIT, steps), later, sid);
  }

  /** Reaped, and all its data still there. */
  ghost predicate LeavesVolume(s: State, plan: Plan) {
    && Quiescent(s) && plan.sid in s.sessions
    && s.sessions[plan.sid].row.status.Nuked? && s.sessions[plan.sid].world.container.None?
    && s.sessions[plan.sid].world.volume == Some(FullVolume(plan))
  }

  /** For every request there is a run, free of any fault, in which its session expires and is reaped
      completely, and its volume stays behind with every database in it. */
  lemma ReapedKeepsVolume(cfg: Settings, plan: Plan)
    requires Witness(cfg, plan)
    ensures exists s :: Reaches(cfg, ALL, INIT, s) && LeavesVolume(s, plan)
  {
    hide Apply, Fits, Allowed, Reaches;
    var served, now := Happy(cfg, plan, Length(plan), false), DefaultExpiry(cfg, plan) + 1;
    var expired := served.(row := served.row.(status := Expired));
    var down := expired.(world := Down(expired.world, false, Done));
    var nuked := down.(row := down.row.(status := Nuked));
    var p := Pass(now, false, [served.row], [], false, map[], 0, false);
    var p1 := p.(dispatched := true);
    var p2 := p1.(oks := map[0 := true]);
    FromInit(cfg, ALL, plan, Length(plan));
    ClaimExpiredRow(cfg, ALL, served, now);
    Via(cfg, ALL, INIT, Alone(served, map[], map[]), Alone(expired, map[], map[0 := p]));
    SecondClaim(cfg, ALL, expired, p, []);
    Via(cfg, ALL, INIT, Alone(expired, map[], map[0 := p]), Alone(expired, map[], map[0 := p1]));
    TearDownOnly(cfg, ALL, expired, p1);
    Via(cfg, ALL, INIT, Alone(expired, map[], map[0 := p1]), Alone(down, map[], map[0 := p2]));
    CommitOnly(cfg, ALL, down, p2, nuked);
    Via(cfg, ALL, INIT, Alone(down, map[], map[0 := p2]), Alone(nuked, map[], map[]));
    assert LeavesVolume(Alone(nuked, map[], map[]), plan);
  }

  /** A process crash mid-create does leak: the stuck row is swept and nuked, with nothing but the crash
      going wrong, and the volume with all cloned data stays behind. */
  lemma CrashLeavesVolume(cfg: Settings, plan: Plan)
    requires Witness(cfg, plan)
    ensures exists s :: Reaches(cfg, ALL.(noCrash := false), INIT, s) && LeavesVolume(s, plan)
  {
    hide Apply, Fits, Allowed, Reaches;
    var asm, now := ALL.(noCrash := false), plan.createdAt + PLACEHOLDER_SECONDS + 1;
    var h := Happy(cfg, plan, |plan.creds.dbs| + 12, false);
    var dead := Dead(h);
    var down := dead.(world := Down(dead.world, false, Done));
    var p := StuckPass(now, false, dead.row, map[0 := true], 0);
    var nuked := down.(row := MarkNukedRow(down.row));
    FromInit(cfg, asm, plan, |plan.creds.dbs| + 12);
    ProcessDies(cfg, asm, h);
    Via(cfg, asm, INIT, Alone(h, map[], map[]), Alone(dead, map[], map[]));
    SweepStuckRow(cfg, asm, dead, now, false);
    Via(cfg, asm, INIT, Alone(dead, map[], map[]), Alone(down, map[], map[0 := p]));
    assert p.Job(0) == dead.row && p.WasStuck(p.Job(0));
    CommitOnly(cfg, asm, down, p, nuked);
    Via(cfg, asm, INIT, Alone(down, map[], map[0 := p]), Alone(nuked, map[], map[]));
    assert LeavesVolume(Alone(nuked, map[], map[]), plan);
  }
}
