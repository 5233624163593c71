/** What the others' teardowns do to a create that is still working, told step by step along the run: exactly
    when a public container serves everything, and exactly when a row becomes ready with all of it up. */
module Interference {
  import opened Config
  import opened CreateScript
  import opened NoLeak
  import opened Protocol
  import opened Store
  import opened World
  import opened WorldSafety
  import opened Wrappers

  /** What the create of a session has suffered: its volume was removed while it worked; its container was
      taken down while it stood at its commit. */
  datatype Harm = Harm(emptied: bool, stopped: bool)

  const UNHARMED := Harm(false, false)

  function Suffered(ss: Session, m: Move, h: Harm): Harm {
    Harm(h.emptied || Empties(ss, m), h.stopped || Stops(ss, m))
  }

  ghost function HarmAfter(s: State, step: Step, sid: Sid, h: Harm): Harm
    requires Fits(s, step)
  {
    if sid in s.sessions then Suffered(s.sessions[sid], MoveOf(s, step, sid), h) else h
  }

  /** The harm done to the create of `sid` over a run that starts with harm `h`. */
  ghost function HarmOf(cfg: Settings, asm: Assumptions, s: State, steps: seq<Step>, sid: Sid, h: Harm): Harm
    requires Run(cfg, asm, s, steps)
    decreases |steps|
  {
    if steps == [] then h
    else HarmOf(cfg, asm, Apply(cfg, s, steps[0]), steps[1..], sid, HarmAfter(s, steps[0], sid, h))
  }

  // ---- how harm and the state go together ----

  /** After its volume is gone a create can still publish, but never again with grants in the volume. */
  predicate EmptiedOk(ss: Session) {
    var at, w := Position(ss.creator.pc), ss.world;
    && (Working(ss.creator) ==> at >= 4)
    && (Working(ss.creator) && at <= 11 ==> w.container.None?)
    && ((Working(ss.creator) && at >= 12) || w.container == Some(Public) ==>
          w.volume.Some? ==> w.volume.value.granted.None?)
  }

  /** Nobody but the create itself touches its compose file, and only a teardown its container. */
  predicate CommitOk(ss: Session, stopped: bool) {
    var at, w := Position(ss.creator.pc), ss.world;
    && (Working(ss.creator) ==>
          w.file == (if at <= 1 then None else if at <= 12 then Some(Private) else Some(Public)))
    && (Working(ss.creator) && at >= 15 ==> w.generalLog && (w.container.Some? ==> w.container == Some(Public)))
    && (stopped ==> at >= 16)
    && (Working(ss.creator) && at == 16 ==> (w.container.None? <==> stopped))
  }

  predicate HarmOk(ss: Session, h: Harm) {
    (if h.emptied then EmptiedOk(ss) else LoadOk(ss)) && CommitOk(ss, h.stopped)
  }

  lemma EarlyStaysEmptied(cfg: Settings, asm: Assumptions, ss: Session, o: Outcome)
    requires Position(ss.creator.pc) <= 11 && EmptiedOk(ss) && OrderOk(asm, ss) && MoveAllowed(asm, ss, Own(o))
    ensures EmptiedOk(CreatorStep(cfg, ss, o))
  {
    hide Dumps, DumpOf, GrantsOf;
  }

  lemma LateStaysEmptied(cfg: Settings, asm: Assumptions, ss: Session, o: Outcome)
    requires Position(ss.creator.pc) >= 12 && EmptiedOk(ss) && OrderOk(asm, ss) && MoveAllowed(asm, ss, Own(o))
    ensures EmptiedOk(CreatorStep(cfg, ss, o))
  {
    hide Dumps, DumpOf, GrantsOf;
  }

  lemma OwnStepStaysEmptied(cfg: Settings, asm: Assumptions, ss: Session, o: Outcome)
    requires EmptiedOk(ss) && OrderOk(asm, ss) && MoveAllowed(asm, ss, Own(o))
    ensures EmptiedOk(CreatorStep(cfg, ss, o))
  {
    hide CreatorStep, EmptiedOk, OrderOk, MoveAllowed;
    if Position(ss.creator.pc) <= 11 {
      EarlyStaysEmptied(cfg, asm, ss, o);
    } else {
      LateStaysEmptied(cfg, asm, ss, o);
    }
  }

  lemma MoveKeepsEmptied(cfg: Settings, asm: Assumptions, ss: Session, m: Move)
    requires EmptiedOk(ss) && OrderOk(asm, ss) && MoveAllowed(asm, ss, m)
    ensures EmptiedOk(Moved(cfg, ss, m))
  {
    hide CreatorStep;
    if m.Own? {
      OwnStepStaysEmptied(cfg, asm, ss, m.outcome);
    }
  }

  /** The removal itself: the container goes with the volume. */
  lemma EmptyingMove(cfg: Settings, asm: Assumptions, ss: Session, m: Move)
    requires LoadOk(ss) && OrderOk(asm, ss) && Empties(ss, m)
    ensures EmptiedOk(Moved(cfg, ss, m))
  {
  }

  lemma OwnStepKeepsCommit(cfg: Settings, asm: Assumptions, ss: Session, o: Outcome, stopped: bool)
    requires CommitOk(ss, stopped) && MoveAllowed(asm, ss, Own(o))
    ensures CommitOk(CreatorStep(cfg, ss, o), stopped)
  {
    hide Dumps;
  }

  lemma MoveKeepsCommit(cfg: Settings, asm: Assumptions, ss: Session, m: Move, stopped: bool)
    requires CommitOk(ss, stopped) && MoveAllowed(asm, ss, m)
    ensures CommitOk(Moved(cfg, ss, m), stopped || Stops(ss, m))
  {
    hide CreatorStep;
    if m.Own? {
      OwnStepKeepsCommit(cfg, asm, ss, m.outcome, stopped);
    }
  }

  lemma MoveKeepsHarm(cfg: Settings, asm: Assumptions, ss: Session, m: Move, h: Harm)
    requires HarmOk(ss, h) && OrderOk(asm, ss) && MoveAllowed(asm, ss, m)
    ensures HarmOk(Moved(cfg, ss, m), Suffered(ss, m, h)) && OrderOk(asm, Moved(cfg, ss, m))
  {
    hide Moved, EmptiedOk, LoadOk, CommitOk, OrderOk, Empties, Stops;
    MoveKeepsOrder(cfg, asm, ss, m);
    MoveKeepsCommit(cfg, asm, ss, m, h.stopped);
    if h.emptied {
      MoveKeepsEmptied(cfg, asm, ss, m);
    } else if Empties(ss, m) {
      EmptyingMove(cfg, asm, ss, m);
    } else {
      MoveKeepsLoad(cfg, asm, ss, m);
    }
  }

  predicate SessionHarmOk(asm: Assumptions, s: State, sid: Sid, h: Harm) {
    if sid in s.sessions then HarmOk(s.sessions[sid], h) && OrderOk(asm, s.sessions[sid]) else h == UNHARMED
  }

  lemma StepKeepsHarm(cfg: Settings, asm: Assumptions, s: State, step: Step, sid: Sid, h: Harm)
    requires SessionHarmOk(asm, s, sid, h) && Fits(s, step) && Allowed(asm, s, step)
    ensures SessionHarmOk(asm, Apply(cfg, s, step), sid, HarmAfter(s, step, sid, h))
  {
    hide Apply, CreatorStep;
    if sid in s.sessions {
      StepIsAllowedMove(cfg, asm, s, step, sid);
      MoveKeepsHarm(cfg, asm, s.sessions[sid], MoveOf(s, step, sid), h);
    } else if sid in Apply(cfg, s, step).sessions {
      StepAdds(cfg, s, step, sid);
    }
  }

  lemma {:induction false} RunKeepsHarm(
      cfg: Settings, asm: Assumptions, s: State, steps: seq<Step>, sid: Sid, h: Harm)
    requires SessionHarmOk(asm, s, sid, h) && Run(cfg, asm, s, steps)
    ensures SessionHarmOk(asm, End(cfg, asm, s, steps), sid, HarmOf(cfg, asm, s, steps, sid, h))
    decreases |steps|
  {
    hide SessionHarmOk, HarmAfter;
    if steps != [] {
      StepKeepsHarm(cfg, asm, s, steps[0], sid, h);
      RunKeepsHarm(cfg, asm, Apply(cfg, s, steps[0]), steps[1..], sid, HarmAfter(s, steps[0], sid, h));
    }
  }

  // ---- main results: every run, no assumption at all ----

  /** A public container has every requested database, each cloned once and completely, and the grants,
      exactly if nobody removed the volume of this very session while its create worked. */
  lemma PublicMeansComplete(cfg: Settings, asm: Assumptions, steps: seq<Step>, sid: Sid)
    requires Run(cfg, asm, INIT, steps) && sid in End(cfg, asm, INIT, steps).sessions
    requires End(cfg, asm, INIT, steps).sessions[sid].world.container == Some(Public)
    ensures var ss := End(cfg, asm, INIT, steps).sessions[sid];
      ss.world.volume ==
        Some(Volume(Dumps(ss.creator.plan.creds), Some(GrantsOf(ss.creator.plan.creds)), false))
      <==> !HarmOf(cfg, asm, INIT, steps, sid, UNHARMED).emptied
  {
    hide Apply, Fits, Allowed;
    RunKeepsHarm(cfg, asm, INIT, steps, sid, UNHARMED);
  }

  /** The moment a row becomes ready its container is up publicly, its volume survived the restart with
      everything in it, and the audit log is on even if both best-effort flips failed, exactly if nobody
      removed the volume while the create worked, and nobody took down the container after its last health
      check. A `down` that keeps volumes before that does no harm. */
  lemma StateAtReady(cfg: Settings, asm: Assumptions, steps: seq<Step>, sid: Sid)
    requires Run(cfg, asm, INIT, steps) && sid in End(cfg, asm, INIT, steps).sessions
    requires var ss := End(cfg, asm, INIT, steps).sessions[sid];
      ss.creator.alive && ss.creator.pc.CommitReady? && ss.row.status.Starting?
    ensures ReadyAndServing(cfg, CreatorStep(cfg, End(cfg, asm, INIT, steps).sessions[sid], Done))
            <==> HarmOf(cfg, asm, INIT, steps, sid, UNHARMED) == UNHARMED
  {
    hide Apply, Fits, Allowed;
    RunKeepsHarm(cfg, asm, INIT, steps, sid, UNHARMED);
  }
}
