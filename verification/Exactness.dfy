/** The container results hold of all runs under exactly the assumptions they name: for every set of
    assumptions and every accepted configuration, the property holds in all reachable states if and only if
    those are among them. */
module Exactness {
  import opened Config
  import opened CreateScript
  import opened Leaks
  import opened NoLeak
  import opened Protocol
  import opened Runs
  import opened Store
  import opened World
  import opened WorldSafety
  import opened Wrappers

  // ---- fewer assumptions, more runs ----

  /** Whoever assumes `a` assumes `b`. */
  predicate Entails(a: Assumptions, b: Assumptions) {
    && (b.cleanupDowns ==> a.cleanupDowns) && (b.nukeDowns ==> a.nukeDowns) && (b.reaperDowns ==> a.reaperDowns)
    && (b.tunnelsClose ==> a.tunnelsClose) && (b.noOutliving ==> a.noOutliving)
    && (b.nukeAfterReturn ==> a.nukeAfterReturn) && (b.noCrash ==> a.noCrash)
    && (b.reaperCommits ==> a.reaperCommits) && (b.keepVolumes ==> a.keepVolumes)
  }

  lemma {:induction false} RunUnderFewer(cfg: Settings, a: Assumptions, b: Assumptions, s: State, steps: seq<Step>)
    requires Entails(a, b) && Run(cfg, a, s, steps)
    ensures Run(cfg, b, s, steps) && End(cfg, b, s, steps) == End(cfg, a, s, steps)
    decreases |steps|
  {
    hide Apply, Fits;
    if steps != [] {
      RunUnderFewer(cfg, a, b, Apply(cfg, s, steps[0]), steps[1..]);
    }
  }

  lemma ReachesUnderFewer(cfg: Settings, a: Assumptions, b: Assumptions, s: State, t: State)
    requires Entails(a, b) && Reaches(cfg, a, s, t)
    ensures Reaches(cfg, b, s, t)
  {
    var steps :| Run(cfg, a, s, steps) && End(cfg, a, s, steps) == t;
    RunUnderFewer(cfg, a, b, s, steps);
  }

  /** Some request that a configuration can serve. */
  function SomePlan(cfg: Settings): Plan {
    Plan(0, 0, 0, cfg.portStart, Creds([DbCred("db", "u_db_00000000", "", None)], ""))
  }

  // ---- nothing left running ----

  predicate QuietMeansReady(s: State) {
    Quiescent(s) ==> forall sid | sid in s.sessions && s.sessions[sid].world.container.Some? ::
      s.sessions[sid].row.status.Ready?
  }

  lemma NoLeakExactly(cfg: Settings, asm: Assumptions)
    requires cfg.Accepted()
    ensures (forall s | Reaches(cfg, asm, INIT, s) :: QuietMeansReady(s)) <==> Tidy(asm)
  {
    hide Apply, Fits, Allowed, Run, End;
    if Tidy(asm) {
      forall s | Reaches(cfg, asm, INIT, s) ensures QuietMeansReady(s) {
        var steps :| Run(cfg, asm, INIT, steps) && End(cfg, asm, INIT, steps) == s;
        forall sid | Quiescent(s) && sid in s.sessions && s.sessions[sid].world.container.Some?
          ensures s.sessions[sid].row.status.Ready?
        {
          NoLeakAtQuiescence(cfg, asm, steps, sid);
        }
      }
    } else {
      var s := LeftRunning(cfg, asm);
      assert !QuietMeansReady(s);
    }
  }

  /** With any of its assumptions missing, a state that is quiet and not tidy is reached. */
  lemma LeftRunning(cfg: Settings, asm: Assumptions) returns (s: State)
    requires cfg.Accepted() && !Tidy(asm)
    ensures Reaches(cfg, asm, INIT, s) && Stranded(s, SomePlan(cfg).sid)
  {
    hide Reaches;
    var plan := SomePlan(cfg);
    if !Recoverable(asm) {
      s := LostContainer(cfg, asm);
    } else if !asm.noCrash {
      CrashStrands(cfg, plan);
      s :| Reaches(cfg, ALL.(noCrash := false), INIT, s) && Stranded(s, plan.sid);
      ReachesUnderFewer(cfg, ALL.(noCrash := false), asm, INIT, s);
    } else if !asm.reaperCommits {
      RaisingClaimStrands(cfg, plan);
      s :| Reaches(cfg, ALL.(reaperCommits := false), INIT, s) && Stranded(s, plan.sid);
      ReachesUnderFewer(cfg, ALL.(reaperCommits := false), asm, INIT, s);
    } else {
      FailedTeardownStrands(cfg, plan);
      s :| Reaches(cfg, ALL.(reaperDowns := false), INIT, s) && Stranded(s, plan.sid);
      ReachesUnderFewer(cfg, ALL.(reaperDowns := false), asm, INIT, s);
    }
  }

  // ---- nothing lost ----

  /** Every running container keeps its compose file and a row that some later pass claims. */
  predicate AllRecoverable(s: State) {
    forall sid | sid in s.sessions && s.sessions[sid].world.container.Some? ::
      s.sessions[sid].world.file.Some? && Live(s.sessions[sid].row.status)
  }

  lemma RecoverableExactly(cfg: Settings, asm: Assumptions)
    requires cfg.Accepted()
    ensures (forall s | Reaches(cfg, asm, INIT, s) :: AllRecoverable(s)) <==> Recoverable(asm)
  {
    hide Apply, Fits, Allowed, Run, End;
    if Recoverable(asm) {
      forall s | Reaches(cfg, asm, INIT, s) ensures AllRecoverable(s) {
        var steps :| Run(cfg, asm, INIT, steps) && End(cfg, asm, INIT, steps) == s;
        forall sid | sid in s.sessions && s.sessions[sid].world.container.Some?
          ensures s.sessions[sid].world.file.Some? && Live(s.sessions[sid].row.status)
        {
          RunningIsRecoverable(cfg, asm, steps, sid);
        }
      }
    } else {
      var s := LostContainer(cfg, asm);
      assert !AllRecoverable(s);
    }
  }

  /** With any of its assumptions missing, a running container behind a nuked row is reached. */
  lemma LostContainer(cfg: Settings, asm: Assumptions) returns (s: State)
    requires cfg.Accepted() && !Recoverable(asm)
    ensures Reaches(cfg, asm, INIT, s) && Leaked(s, SomePlan(cfg).sid)
  {
    hide Reaches;
    var plan := SomePlan(cfg);
    if !asm.nukeAfterReturn {
      NukeDuringCreateLeaks(cfg, plan);
      s :| Reaches(cfg, ALL.(nukeAfterReturn := false), INIT, s) && Leaked(s, plan.sid);
      ReachesUnderFewer(cfg, ALL.(nukeAfterReturn := false), asm, INIT, s);
    } else if !asm.noOutliving {
      OutlivedPlaceholderLeaks(cfg, plan);
      s :| Reaches(cfg, ALL.(noOutliving := false), INIT, s) && Leaked(s, plan.sid);
      ReachesUnderFewer(cfg, ALL.(noOutliving := false), asm, INIT, s);
    } else if !asm.nukeDowns {
      FailedNukeLeaks(cfg, plan);
      s :| Reaches(cfg, ALL.(nukeDowns := false), INIT, s) && Leaked(s, plan.sid);
      ReachesUnderFewer(cfg, ALL.(nukeDowns := false), asm, INIT, s);
    } else {
      FailedCleanupLeaks(cfg, plan);
      s :| Reaches(cfg, ALL.(cleanupDowns := false), INIT, s) && Leaked(s, plan.sid);
      ReachesUnderFewer(cfg, ALL.(cleanupDowns := false), asm, INIT, s);
    }
  }

  // ---- an absent file means that nothing runs ----

  predicate AbsentMeansDown(s: State) {
    forall sid | sid in s.sessions && s.sessions[sid].world.file.None? :: s.sessions[sid].world.container.None?
  }

  lemma AbsentFileExactly(cfg: Settings, asm: Assumptions)
    requires cfg.Accepted()
    ensures (forall s | Reaches(cfg, asm, INIT, s) :: AbsentMeansDown(s)) <==> asm.cleanupDowns
  {
    hide Apply, Fits, Allowed, Run, End;
    if asm.cleanupDowns {
      forall s | Reaches(cfg, asm, INIT, s) ensures AbsentMeansDown(s) {
        var steps :| Run(cfg, asm, INIT, steps) && End(cfg, asm, INIT, steps) == s;
        forall sid | sid in s.sessions && s.sessions[sid].world.file.None?
          ensures s.sessions[sid].world.container.None?
        {
          AbsentFileMeansNothingRuns(cfg, asm, steps, sid);
        }
      }
    } else {
      var plan := SomePlan(cfg);
      FailedCleanupLeaks(cfg, plan);
      var s :| Reaches(cfg, ALL.(cleanupDowns := false), INIT, s) && Leaked(s, plan.sid)
               && s.sessions[plan.sid].world.file.None?;
      ReachesUnderFewer(cfg, ALL.(cleanupDowns := false), asm, INIT, s);
      assert !AbsentMeansDown(s);
    }
  }

  // ---- never public with an open tunnel ----

  predicate NeverBoth(s: State) {
    forall sid | sid in s.sessions :: !(s.sessions[sid].world.tunnel && s.sessions[sid].world.container == Some(Public))
  }

  lemma TunnelExactly(cfg: Settings, asm: Assumptions)
    requires cfg.Accepted()
    ensures (forall s | Reaches(cfg, asm, INIT, s) :: NeverBoth(s)) <==> asm.tunnelsClose
  {
    hide Apply, Fits, Allowed, Run, End;
    if asm.tunnelsClose {
      forall s | Reaches(cfg, asm, INIT, s) ensures NeverBoth(s) {
        var steps :| Run(cfg, asm, INIT, steps) && End(cfg, asm, INIT, steps) == s;
        forall sid | sid in s.sessions
          ensures !(s.sessions[sid].world.tunnel && s.sessions[sid].world.container == Some(Public))
        {
          NeverPublicWithTunnel(cfg, asm, steps, sid);
        }
      }
    } else {
      var plan := SomePlan(cfg);
      UnclosedTunnelStaysOpen(cfg, plan);
      var s :| Reaches(cfg, ALL.(tunnelsClose := false), INIT, s) && plan.sid in s.sessions
               && s.sessions[plan.sid].world.tunnel && s.sessions[plan.sid].world.container == Some(Public);
      ReachesUnderFewer(cfg, ALL.(tunnelsClose := false), asm, INIT, s);
      assert !NeverBoth(s);
    }
  }

  // ---- public means complete ----

  predicate PublicIsFull(s: State) {
    forall sid | sid in s.sessions && s.sessions[sid].world.container == Some(Public) ::
      s.sessions[sid].world.volume == Some(FullVolume(s.sessions[sid].creator.plan))
  }

  lemma PublicIsFullExactly(cfg: Settings, asm: Assumptions)
    requires cfg.Accepted()
    ensures (forall s | Reaches(cfg, asm, INIT, s) :: PublicIsFull(s)) <==> VolumesSafe(asm)
  {
    hide Apply, Fits, Allowed, Run, End;
    if VolumesSafe(asm) {
      forall s | Reaches(cfg, asm, INIT, s) ensures PublicIsFull(s) {
        var steps :| Run(cfg, asm, INIT, steps) && End(cfg, asm, INIT, steps) == s;
        forall sid | sid in s.sessions && s.sessions[sid].world.container == Some(Public)
          ensures s.sessions[sid].world.volume == Some(FullVolume(s.sessions[sid].creator.plan))
        {
          UntouchedMeansComplete(cfg, asm, steps, sid);
        }
      }
    } else {
      var s := ServedEmpty(cfg, asm);
      assert !PublicIsFull(s);
    }
  }

  lemma ServedEmpty(cfg: Settings, asm: Assumptions) returns (s: State)
    requires cfg.Accepted() && !VolumesSafe(asm)
    ensures Reaches(cfg, asm, INIT, s) && ServesNothing(s, SomePlan(cfg).sid)
  {
    hide Reaches;
    var plan := SomePlan(cfg);
    if !asm.nukeAfterReturn {
      NukeDuringRestartEmpties(cfg, plan);
      s :| Reaches(cfg, ALL.(nukeAfterReturn := false), INIT, s) && ServesNothing(s, plan.sid);
      ReachesUnderFewer(cfg, ALL.(nukeAfterReturn := false), asm, INIT, s);
    } else {
      VolumeSweepEmpties(cfg, plan);
      s :| Reaches(cfg, ALL.(noOutliving := false, keepVolumes := false), INIT, s) && ServesNothing(s, plan.sid);
      ReachesUnderFewer(cfg, ALL.(noOutliving := false, keepVolumes := false), asm, INIT, s);
    }
  }

  // ---- ready means serving ----

  predicate CommitsServing(cfg: Settings, s: State) {
    forall sid | sid in s.sessions && s.sessions[sid].creator.alive && s.sessions[sid].creator.pc.CommitReady? ::
      ReadyAndServing(cfg, CreatorStep(cfg, s.sessions[sid], Done))
  }

  lemma StateAtReadyExactly(cfg: Settings, asm: Assumptions)
    requires cfg.Accepted()
    ensures (forall s | Reaches(cfg, asm, INIT, s) :: CommitsServing(cfg, s)) <==> Owned(asm)
  {
    hide Apply, Fits, Allowed, Run, End, CreatorStep;
    if Owned(asm) {
      forall s | Reaches(cfg, asm, INIT, s) ensures CommitsServing(cfg, s) {
        var steps :| Run(cfg, asm, INIT, steps) && End(cfg, asm, INIT, steps) == s;
        forall sid | sid in s.sessions && s.sessions[sid].creator.alive && s.sessions[sid].creator.pc.CommitReady?
          ensures ReadyAndServing(cfg, CreatorStep(cfg, s.sessions[sid], Done))
        {
          OwnedStateAtReady(cfg, asm, steps, sid);
        }
      }
    } else {
      var s := CommittedDown(cfg, asm);
      assert !CommitsServing(cfg, s);
    }
  }

  lemma CommittedDown(cfg: Settings, asm: Assumptions) returns (s: State)
    requires cfg.Accepted() && !Owned(asm)
    ensures Reaches(cfg, asm, INIT, s) && CommitsNothing(cfg, s, SomePlan(cfg).sid)
  {
    hide Reaches, CommitsNothing;
    var plan := SomePlan(cfg);
    if !asm.nukeAfterReturn {
      NukeAtCommitCommitsNothing(cfg, plan);
      s :| Reaches(cfg, ALL.(nukeAfterReturn := false), INIT, s) && CommitsNothing(cfg, s, plan.sid);
      ReachesUnderFewer(cfg, ALL.(nukeAfterReturn := false), asm, INIT, s);
    } else {
      OutlivedPlaceholderCommitsNothing(cfg, plan);
      s :| Reaches(cfg, ALL.(noOutliving := false), INIT, s) && CommitsNothing(cfg, s, plan.sid);
      ReachesUnderFewer(cfg, ALL.(noOutliving := false), asm, INIT, s);
    }
  }
}
