/** The main results about containers: nothing published too early, nothing lost, nothing left running. */
module NoLeak {
  import opened Config
  import opened CreateScript
  import opened Protocol
  import opened RowSafety
  import opened Store
  import opened World
  import opened WorldSafety
  import opened Wrappers

  lemma StepKeepsOwner(cfg: Settings, asm: Assumptions, s: State, step: Step, sid: Sid)
    requires RowInv(cfg, s) && OwnersOk(s) && Fits(s, step)
    requires sid in Apply(cfg, s, step).sessions
    ensures OwnerOk(Apply(cfg, s, step).sessions[sid])
    ensures sid in s.sessions ==> OwnerKept(s.sessions[sid].creator, Apply(cfg, s, step).sessions[sid].creator)
  {
    hide RowInv;
    if sid in s.sessions {
      StepIsMove(cfg, s, step, sid);
      InterferenceIsLate(cfg, s, step, sid);
      assert OwnerOk(s.sessions[sid]);
      MoveKeepsOwner(cfg, s.sessions[sid], MoveOf(s, step, sid));
    } else {
      StepAdds(cfg, s, step, sid);
    }
  }

  predicate OwnerKept(c: Creator, c': Creator) {
    (c.pc.Returned? ==> c'.pc.Returned?) && (!InFlight(c) ==> !InFlight(c'))
  }

  lemma MoveKeepsOwner(cfg: Settings, ss: Session, m: Move)
    requires OwnerOk(ss) && (m.TearDown? || m.ForceNuked? || m.MarkNuked? ==> !Working(ss.creator))
    requires m.Own? ==> InFlight(ss.creator)
    ensures OwnerOk(Moved(cfg, ss, m)) && OwnerKept(ss.creator, Moved(cfg, ss, m).creator)
  {
  }

  lemma ReturnedStays(cfg: Settings, s: State, step: Step, sid: Sid)
    requires Fits(s, step) && sid in s.sessions && Finished(s.sessions[sid].creator.pc)
    ensures sid in Apply(cfg, s, step).sessions
    ensures Apply(cfg, s, step).sessions[sid].creator.pc == s.sessions[sid].creator.pc
  {
    hide Apply, CreatorStep;
    StepIsMove(cfg, s, step, sid);
  }

  lemma StepNukesOwned(cfg: Settings, asm: Assumptions, s: State, step: Step, a: CallId)
    requires asm.nukeAfterReturn && NukesOwned(s) && Fits(s, step) && Allowed(asm, s, step)
    requires a in Apply(cfg, s, step).nukes
    ensures NukeOwned(Apply(cfg, s, step), a)
  {
    hide Apply, CreatorStep, NewSession;
    var sid := Apply(cfg, s, step).nukes[a].sid;
    NukeAfter(cfg, s, step, a);
    assert a in s.nukes ==> NukeOwned(s, a);
    ReturnedStays(cfg, s, step, sid);
  }

  lemma StepPassesKeep(cfg: Settings, asm: Assumptions, s: State, step: Step)
    requires asm.keepVolumes && PassesKeep(s) && Fits(s, step) && Allowed(asm, s, step)
    ensures PassesKeep(Apply(cfg, s, step))
  {
    hide Apply, CreatorStep, NewSession;
    forall a | a in Apply(cfg, s, step).passes ensures !Apply(cfg, s, step).passes[a].downWithVolumes {
      PassAfter(cfg, s, step, a);
    }
  }

  /** A stuck record of a pass was there before the step, or the step claimed it. */
  lemma StuckOrigin(cfg: Settings, s: State, step: Step, a: CallId, i: nat)
    requires PhasesOk(s) && Fits(s, step) && a in Apply(cfg, s, step).passes
    requires |Apply(cfg, s, step).passes[a].expired| <= i < Apply(cfg, s, step).passes[a].Jobs()
    ensures var rec := Apply(cfg, s, step).passes[a].Job(i);
      || (a in s.passes && |s.passes[a].expired| <= i < s.passes[a].Jobs() && s.passes[a].Job(i) == rec)
      || (step.ReapStuck? && exists j :: 0 <= j < |step.recs| && step.recs[j] == rec)
  {
    hide Apply, Fits;
    var p' := Apply(cfg, s, step).passes[a];
    PassAfter(cfg, s, step, a);
    if step.ReapStuck? && step.call == a {
      assert step.recs[i - |p'.expired|] == p'.Job(i);
    }
  }

  lemma StepStuckOwned(cfg: Settings, asm: Assumptions, s: State, step: Step, a: CallId, i: nat)
    requires Owned(asm) && RowInv(cfg, s) && OwnersOk(s) && Fits(s, step) && Allowed(asm, s, step)
    requires a in Apply(cfg, s, step).passes
    requires |Apply(cfg, s, step).passes[a].expired| <= i < Apply(cfg, s, step).passes[a].Jobs()
    ensures StuckOwned(Apply(cfg, s, step), a, i)
  {
    hide Apply, CreatorStep, NewSession;
    var rec := Apply(cfg, s, step).passes[a].Job(i);
    StuckOrigin(cfg, s, step, a, i);
    if a in s.passes && |s.passes[a].expired| <= i < s.passes[a].Jobs() && s.passes[a].Job(i) == rec {
      assert StuckOwned(s, a, i);
    }
    StepMoves(cfg, s, step, rec.id);
  }

  lemma StepOwners(cfg: Settings, asm: Assumptions, s: State, step: Step)
    requires Owned(asm) && RowInv(cfg, s) && OwnersOk(s) && Fits(s, step) && Allowed(asm, s, step)
    ensures OwnersOk(Apply(cfg, s, step))
  {
    var s' := Apply(cfg, s, step);
    forall sid | sid in s'.sessions ensures OwnerOk(s'.sessions[sid]) {
      StepKeepsOwner(cfg, asm, s, step, sid);
    }
    forall a | a in s'.nukes ensures NukeOwned(s', a) {
      StepNukesOwned(cfg, asm, s, step, a);
    }
    assert NukesOwned(s');
    forall a, i | a in s'.passes && |s'.passes[a].expired| <= i < s'.passes[a].Jobs() ensures StuckOwned(s', a, i) {
      StepStuckOwned(cfg, asm, s, step, a, i);
    }
  }

  // ---- containers never outlive what could tear them down ----

  /** A session whose creator is past its commit or gone stays down once it is down. */
  lemma StaysDown(cfg: Settings, s: State, step: Step, sid: Sid)
    requires Fits(s, step) && sid in s.sessions && !Working(s.sessions[sid].creator)
    requires s.sessions[sid].world.container.None?
    ensures sid in Apply(cfg, s, step).sessions && Apply(cfg, s, step).sessions[sid].world.container.None?
  {
    StepIsMove(cfg, s, step, sid);
  }

  lemma MoveKeepsLive(cfg: Settings, asm: Assumptions, ss: Session, m: Move)
    requires MoveAllowed(asm, ss, m) && ComposeOk(ss) && OwnerOk(ss)
    requires ss.world.container.Some? ==> Live(ss.row.status)
    requires m.ForceNuked? || m.MarkNuked? ==> ss.world.container.None?
    ensures Moved(cfg, ss, m).world.container.Some? ==> Live(Moved(cfg, ss, m).row.status)
  {
  }

  lemma StepRunningIsLive(cfg: Settings, asm: Assumptions, s: State, step: Step, sid: Sid)
    requires RowInv(cfg, s) && OwnersOk(s) && RecoverOk(s) && Fits(s, step) && Allowed(asm, s, step)
    requires sid in Apply(cfg, s, step).sessions && Apply(cfg, s, step).sessions[sid].world.container.Some?
    requires sid in s.sessions ==> ComposeOk(s.sessions[sid])
    ensures Live(Apply(cfg, s, step).sessions[sid].row.status)
  {
    if sid in s.sessions {
      StepIsAllowedMove(cfg, asm, s, step, sid);
      if MoveOf(s, step, sid).ForceNuked? || MoveOf(s, step, sid).MarkNuked? {
        NukedWhenDown(cfg, s, step, sid);
      }
      assert OwnerOk(s.sessions[sid]);
      MoveKeepsLive(cfg, asm, s.sessions[sid], MoveOf(s, step, sid));
    } else {
      StepAdds(cfg, s, step, sid);
    }
  }

  /** A step that nukes a row finds its container already down. */
  lemma NukedWhenDown(cfg: Settings, s: State, step: Step, sid: Sid)
    requires RecoverOk(s) && Fits(s, step) && sid in s.sessions
    requires MoveOf(s, step, sid).ForceNuked? || MoveOf(s, step, sid).MarkNuked?
    ensures s.sessions[sid].world.container.None?
  {
  }

  lemma StepNukeDown(cfg: Settings, asm: Assumptions, s: State, step: Step, a: CallId)
    requires asm.nukeDowns && OwnersOk(s) && RecoverOk(s) && Fits(s, step) && Allowed(asm, s, step)
    requires forall sid | sid in s.sessions :: ComposeOk(s.sessions[sid])
    requires a in Apply(cfg, s, step).nukes && Apply(cfg, s, step).nukes[a].downTried
    ensures NukeDowned(Apply(cfg, s, step), a)
  {
    hide Apply, CreatorStep, NewSession;
    NukeAfter(cfg, s, step, a);
    var sid := s.nukes[a].sid;
    assert NukeOwned(s, a);
    if s.nukes[a].downTried {
      assert NukeDowned(s, a);
      StaysDown(cfg, s, step, sid);
    } else {
      assert ComposeOk(s.sessions[sid]);
      StepIsMove(cfg, s, step, sid);
    }
  }

  lemma StepJobDown(cfg: Settings, asm: Assumptions, s: State, step: Step, a: CallId, i: nat)
    requires RowInv(cfg, s) && OwnersOk(s) && RecoverOk(s) && Fits(s, step)
    requires forall sid | sid in s.sessions :: ComposeOk(s.sessions[sid])
    requires a in Apply(cfg, s, step).passes
    requires var p' := Apply(cfg, s, step).passes[a]; i < p'.Jobs() && i in p'.oks && p'.oks[i]
    ensures JobDowned(Apply(cfg, s, step), a, i)
  {
    FinishedJob(cfg, s, step, a, i);
    JobIsLate(cfg, s, a, i);
    var sid := s.passes[a].Job(i).id;
    if i in s.passes[a].oks {
      assert JobDowned(s, a, i);
    } else {
      assert ComposeOk(s.sessions[sid]);
      StepIsMove(cfg, s, step, sid);
    }
    if s.sessions[sid].world.container.None? {
      StaysDown(cfg, s, step, sid);
    }
  }

  /** A finished teardown was finished before the step, or is the step. */
  lemma FinishedJob(cfg: Settings, s: State, step: Step, a: CallId, i: nat)
    requires PhasesOk(s) && Fits(s, step) && a in Apply(cfg, s, step).passes
    requires var p' := Apply(cfg, s, step).passes[a]; i < p'.Jobs() && i in p'.oks && p'.oks[i]
    ensures a in s.passes && i < s.passes[a].Jobs() && s.passes[a].Job(i) == Apply(cfg, s, step).passes[a].Job(i)
    ensures (i in s.passes[a].oks && s.passes[a].oks[i])
         || (step.ReapDown? && step.call == a && step.job == i
             && (step.outcome.Done? || s.sessions[s.passes[a].Job(i).id].world.file.None?))
  {
    hide Apply, CreatorStep;
    PassAfter(cfg, s, step, a);
  }

  lemma StepRecover(cfg: Settings, asm: Assumptions, s: State, step: Step)
    requires Recoverable(asm) && RowInv(cfg, s) && OwnersOk(s) && RecoverOk(s) && Fits(s, step) && Allowed(asm, s, step)
    requires forall sid | sid in s.sessions :: ComposeOk(s.sessions[sid])
    ensures RecoverOk(Apply(cfg, s, step))
  {
    hide Apply;
    var s' := Apply(cfg, s, step);
    forall sid | sid in s'.sessions && s'.sessions[sid].world.container.Some?
      ensures Live(s'.sessions[sid].row.status)
    {
      StepRunningIsLive(cfg, asm, s, step, sid);
    }
    forall a | a in s'.nukes && s'.nukes[a].downTried ensures NukeDowned(s', a) {
      StepNukeDown(cfg, asm, s, step, a);
    }
    forall a, i | a in s'.passes && 0 <= i < s'.passes[a].Jobs() && i in s'.passes[a].oks && s'.passes[a].oks[i]
      ensures JobDowned(s', a, i)
    {
      StepJobDown(cfg, asm, s, step, a, i);
    }
  }

  // ---- expired sessions still running are about to be torn down ----

  lemma MoveKeepsTidy(cfg: Settings, sid: Sid, ss: Session, m: Move)
    requires RowOk(cfg, sid, ss) && ss.creator.alive && !m.Die?
    ensures var ss' := Moved(cfg, ss, m);
      && ss'.creator.alive
      && (ss'.row.status.Expired? && ss'.world.container.Some? ==>
            ss.world.container.Some? && (ss.row.status.Expired? || (m.Expire? && DueExpired(ss.row, m.now))))
  {
  }

  /** Only its own teardown takes a pending job off the list. */
  lemma JobStaysPending(cfg: Settings, asm: Assumptions, s: State, step: Step, a: CallId, i: nat, sid: Sid)
    requires asm.noCrash && asm.reaperCommits && PhasesOk(s) && Fits(s, step) && Allowed(asm, s, step)
    requires a in s.passes && PendingJob(s.passes[a], i, sid)
    ensures a in Apply(cfg, s, step).passes
    ensures PendingJob(Apply(cfg, s, step).passes[a], i, sid) || (step.ReapDown? && step.call == a && step.job == i)
  {
    hide CreatorStep, NewSession;
  }

  lemma TeardownStops(cfg: Settings, asm: Assumptions, s: State, step: Step)
    requires asm.reaperDowns && Fits(s, step) && Allowed(asm, s, step) && step.ReapDown?
    requires ComposeOk(s.sessions[s.passes[step.call].Job(step.job).id])
    ensures Apply(cfg, s, step).sessions[s.passes[step.call].Job(step.job).id].world.container.None?
  {
  }

  lemma StepPending(cfg: Settings, asm: Assumptions, s: State, step: Step, sid: Sid)
    requires Tidy(asm) && PhasesOk(s) && Pending(s, sid) && Fits(s, step) && Allowed(asm, s, step)
    requires sid in s.sessions && ComposeOk(s.sessions[sid])
    requires sid in Apply(cfg, s, step).sessions && Apply(cfg, s, step).sessions[sid].world.container.Some?
    ensures Pending(Apply(cfg, s, step), sid)
  {
    var a, i: nat :| a in s.passes && PendingJob(s.passes[a], i, sid);
    JobStaysPending(cfg, asm, s, step, a, i, sid);
    if step.ReapDown? && step.call == a && step.job == i {
      TeardownStops(cfg, asm, s, step);
    }
  }

  lemma ClaimIsPending(cfg: Settings, s: State, step: Step, sid: Sid)
    requires Fits(s, step) && step.ReapExpired? && sid in s.sessions && DueExpired(s.sessions[sid].row, step.now)
    requires s.sessions[sid].row.id == sid
    ensures Pending(Apply(cfg, s, step), sid)
  {
    assert Rows(s)[sid] == s.sessions[sid].row;
    var i :| 0 <= i < |step.recs| && step.recs[i].id == sid;
    assert PendingJob(Apply(cfg, s, step).passes[step.call], i, sid);
  }

  lemma StepTidy(cfg: Settings, asm: Assumptions, s: State, step: Step)
    requires Tidy(asm) && RowInv(cfg, s) && TidyOk(s) && Fits(s, step) && Allowed(asm, s, step)
    requires forall sid | sid in s.sessions :: ComposeOk(s.sessions[sid])
    ensures TidyOk(Apply(cfg, s, step))
  {
    hide Apply, CreatorStep;
    var s' := Apply(cfg, s, step);
    forall sid | sid in s'.sessions
      ensures s'.sessions[sid].creator.alive
      ensures s'.sessions[sid].row.status.Expired? && s'.sessions[sid].world.container.Some? ==> Pending(s', sid)
    {
      if sid in s.sessions {
        StepIsMove(cfg, s, step, sid);
        assert RowOk(cfg, sid, s.sessions[sid]);
        MoveKeepsTidy(cfg, sid, s.sessions[sid], MoveOf(s, step, sid));
        assert ComposeOk(s.sessions[sid]);
        if s'.sessions[sid].row.status.Expired? && s'.sessions[sid].world.container.Some? {
          if s.sessions[sid].row.status.Expired? {
            StepPending(cfg, asm, s, step, sid);
          } else {
            ClaimIsPending(cfg, s, step, sid);
          }
        }
      } else {
        StepAdds(cfg, s, step, sid);
      }
    }
  }

  // ---- all of it, over every run ----

  lemma StepKeepsSession(cfg: Settings, asm: Assumptions, s: State, step: Step, sid: Sid)
    requires RowInv(cfg, s) && WorldInv(asm, s) && Fits(s, step) && Allowed(asm, s, step)
    requires sid in Apply(cfg, s, step).sessions
    ensures var ss' := Apply(cfg, s, step).sessions[sid];
      && OrderOk(asm, ss')
      && (asm.cleanupDowns ==> ComposeOk(ss'))
      && (VolumesSafe(asm) ==> LoadOk(ss'))
      && (Owned(asm) ==> PlacedOk(ss'))
  {
    if sid in s.sessions {
      var ss, m := s.sessions[sid], MoveOf(s, step, sid);
      StepIsAllowedMove(cfg, asm, s, step, sid);
      MoveKeepsOrder(cfg, asm, ss, m);
      if asm.cleanupDowns {
        MoveKeepsCompose(cfg, asm, ss, m);
      }
      if VolumesSafe(asm) {
        VolumesLeftAlone(cfg, asm, s, step, sid);
        MoveKeepsLoad(cfg, asm, ss, m);
      }
      if Owned(asm) {
        InterferenceIsLate(cfg, s, step, sid);
        MoveKeepsPlaces(cfg, asm, ss, m);
      }
    } else {
      StepAdds(cfg, s, step, sid);
    }
  }

  lemma StepKeepsWorld(cfg: Settings, asm: Assumptions, s: State, step: Step)
    requires RowInv(cfg, s) && WorldInv(asm, s) && Fits(s, step) && Allowed(asm, s, step)
    ensures WorldInv(asm, Apply(cfg, s, step))
  {
    hide Apply, Fits;
    forall sid | sid in Apply(cfg, s, step).sessions
      ensures OrderOk(asm, Apply(cfg, s, step).sessions[sid])
      ensures asm.cleanupDowns ==> ComposeOk(Apply(cfg, s, step).sessions[sid])
      ensures VolumesSafe(asm) ==> LoadOk(Apply(cfg, s, step).sessions[sid])
      ensures Owned(asm) ==> PlacedOk(Apply(cfg, s, step).sessions[sid])
    {
      StepKeepsSession(cfg, asm, s, step, sid);
    }
    if asm.nukeAfterReturn {
      forall a | a in Apply(cfg, s, step).nukes ensures NukeOwned(Apply(cfg, s, step), a) {
        StepNukesOwned(cfg, asm, s, step, a);
      }
    }
    if asm.keepVolumes {
      StepPassesKeep(cfg, asm, s, step);
    }
    if Owned(asm) {
      StepOwners(cfg, asm, s, step);
      if Recoverable(asm) {
        StepRecover(cfg, asm, s, step);
        if Tidy(asm) {
          StepTidy(cfg, asm, s, step);
        }
      }
    }
  }

  lemma {:induction false} RunKeepsWorld(cfg: Settings, asm: Assumptions, s: State, steps: seq<Step>)
    requires RowInv(cfg, s) && WorldInv(asm, s) && Run(cfg, asm, s, steps)
    ensures RowInv(cfg, End(cfg, asm, s, steps)) && WorldInv(asm, End(cfg, asm, s, steps))
    decreases |steps|
  {
    if steps != [] {
      StepKeepsRows(cfg, s, steps[0]);
      StepKeepsWorld(cfg, asm, s, steps[0]);
      RunKeepsWorld(cfg, asm, Apply(cfg, s, steps[0]), steps[1..]);
    }
  }

  // ---- main results ----

  /** Whatever crashes, fails or interferes: the tunnel to prod is never open while the container is
      public, provided closing a tunnel works. */
  lemma NeverPublicWithTunnel(cfg: Settings, asm: Assumptions, steps: seq<Step>, sid: Sid)
    requires Run(cfg, asm, INIT, steps) && asm.tunnelsClose
    requires sid in End(cfg, asm, INIT, steps).sessions
    ensures var w := End(cfg, asm, INIT, steps).sessions[sid].world;
      !(w.tunnel && w.container == Some(Public))
  {
    hide Apply, Fits, Allowed, WorldInv, RowInv, LoadOk;
    RunKeepsWorld(cfg, asm, INIT, steps);
    assert OrderOk(asm, End(cfg, asm, INIT, steps).sessions[sid]);
  }

  /** Wherever a create fails: a public container holds every requested database, each cloned once and
      completely, and the grants, unless a nuke or a `-v` sweep reached the create while it worked. */
  lemma UntouchedMeansComplete(cfg: Settings, asm: Assumptions, steps: seq<Step>, sid: Sid)
    requires Run(cfg, asm, INIT, steps) && VolumesSafe(asm)
    requires sid in End(cfg, asm, INIT, steps).sessions
    ensures var ss := End(cfg, asm, INIT, steps).sessions[sid];
      ss.world.container == Some(Public) ==>
        ss.world.volume == Some(Volume(Dumps(ss.creator.plan.creds), Some(GrantsOf(ss.creator.plan.creds)), false))
  {
    RunKeepsWorld(cfg, asm, INIT, steps);
    assert LoadOk(End(cfg, asm, INIT, steps).sessions[sid]);
  }

  /** The moment a row becomes ready its container is up publicly, its volume survived the restart with
      everything in it, the audit log is on even if both best-effort flips failed, and the row is new. */
  lemma OwnedStateAtReady(cfg: Settings, asm: Assumptions, steps: seq<Step>, sid: Sid)
    requires Owned(asm) && Run(cfg, asm, INIT, steps)
    requires sid in End(cfg, asm, INIT, steps).sessions
    requires var c := End(cfg, asm, INIT, steps).sessions[sid].creator; c.alive && c.pc.CommitReady?
    ensures ReadyAndServing(cfg, CreatorStep(cfg, End(cfg, asm, INIT, steps).sessions[sid], Done))
  {
    RunKeepsWorld(cfg, asm, INIT, steps);
    CommitFinds(cfg, End(cfg, asm, INIT, steps).sessions[sid]);
  }

  predicate ReadyAndServing(cfg: Settings, ss: Session) {
    var plan, r, w := ss.creator.plan, ss.row, ss.world;
    && ss.creator.pc.Respond?
    && r.status.Ready? && r.creds == Encrypt(plan.creds)
    && r.expiresAt == DefaultExpiry(cfg, plan) && r.maxExtendedUntil == LatestExpiry(cfg, plan)
    && w.container == Some(Public) && w.file == Some(Public)
    && w.volume == Some(Volume(Dumps(plan.creds), Some(GrantsOf(plan.creds)), false))
    && w.generalLog
  }

  lemma CommitFinds(cfg: Settings, ss: Session)
    requires PlacedOk(ss) && LoadOk(ss) && OwnerOk(ss) && ss.creator.alive && ss.creator.pc.CommitReady?
    ensures ReadyAndServing(cfg, CreatorStep(cfg, ss, Done))
  {
  }

  /** A running container always has its compose file, crashes included: "file absent" really means there
      is nothing to tear down, as long as a failed create's own cleanup down works. */
  lemma AbsentFileMeansNothingRuns(cfg: Settings, asm: Assumptions, steps: seq<Step>, sid: Sid)
    requires Run(cfg, asm, INIT, steps) && asm.cleanupDowns
    requires sid in End(cfg, asm, INIT, steps).sessions
    ensures var w := End(cfg, asm, INIT, steps).sessions[sid].world;
      w.file.None? ==> w.container.None?
  {
    RunKeepsWorld(cfg, asm, INIT, steps);
    assert ComposeOk(End(cfg, asm, INIT, steps).sessions[sid]);
  }

  /** Nothing is lost: with crashes, raising transactions and failing reaper teardowns allowed, every
      running container keeps its compose file and a row the reaper will still claim. */
  lemma RunningIsRecoverable(cfg: Settings, asm: Assumptions, steps: seq<Step>, sid: Sid)
    requires Run(cfg, asm, INIT, steps) && Recoverable(asm)
    requires sid in End(cfg, asm, INIT, steps).sessions
    requires End(cfg, asm, INIT, steps).sessions[sid].world.container.Some?
    ensures var ss := End(cfg, asm, INIT, steps).sessions[sid];
      && ss.world.file.Some?
      && Live(ss.row.status)
      && forall now | now > ss.row.expiresAt :: DueExpired(ss.row, now) || DueStuck(ss.row, now)
  {
    RunKeepsWorld(cfg, asm, INIT, steps);
    assert ComposeOk(End(cfg, asm, INIT, steps).sessions[sid]);
  }

  /** Nothing is left running: when no create, reset, nuke or reap is under way, every running container
      belongs to a ready row. */
  lemma NoLeakAtQuiescence(cfg: Settings, asm: Assumptions, steps: seq<Step>, sid: Sid)
    requires Run(cfg, asm, INIT, steps) && Tidy(asm)
    requires Quiescent(End(cfg, asm, INIT, steps))
    requires sid in End(cfg, asm, INIT, steps).sessions
    requires End(cfg, asm, INIT, steps).sessions[sid].world.container.Some?
    ensures End(cfg, asm, INIT, steps).sessions[sid].row.status.Ready?
  {
    hide Apply, Fits, Allowed, RowInv, LoadOk;
    RunKeepsWorld(cfg, asm, INIT, steps);
    var s := End(cfg, asm, INIT, steps);
    var ss := s.sessions[sid];
    assert RowOk(cfg, sid, ss) && ComposeOk(ss);
    assert !Pending(s, sid);
  }
}
