/** Putting runs together. */
module Runs {
  import opened Config
  import opened Protocol

  /** Some run leads from one state to the other. */
  ghost predicate Reaches(cfg: Settings, asm: Assumptions, s: State, t: State) {
    exists steps :: Run(cfg, asm, s, steps) && End(cfg, asm, s, steps) == t
  }

  lemma {:induction false} AppendRuns(cfg: Settings, asm: Assumptions, s: State, xs: seq<Step>, ys: seq<Step>)
    requires Run(cfg, asm, s, xs) && Run(cfg, asm, End(cfg, asm, s, xs), ys)
    ensures Run(cfg, asm, s, xs + ys) && End(cfg, asm, s, xs + ys) == End(cfg, asm, End(cfg, asm, s, xs), ys)
    decreases |xs|
  {
    hide Apply, Fits;
    if xs == [] {
      assert xs + ys == ys;
    } else {
      assert (xs + ys)[0] == xs[0] && (xs + ys)[1..] == xs[1..] + ys;
      AppendRuns(cfg, asm, Apply(cfg, s, xs[0]), xs[1..], ys);
    }
  }

  lemma Via(cfg: Settings, asm: Assumptions, s: State, t: State, u: State)
    requires Reaches(cfg, asm, s, t) && Reaches(cfg, asm, t, u)
    ensures Reaches(cfg, asm, s, u)
  {
    var xs :| Run(cfg, asm, s, xs) && End(cfg, asm, s, xs) == t;
    var ys :| Run(cfg, asm, t, ys) && End(cfg, asm, t, ys) == u;
    AppendRuns(cfg, asm, s, xs, ys);
  }

  lemma Once(cfg: Settings, asm: Assumptions, s: State, step: Step, t: State)
    requires Fits(s, step) && Allowed(asm, s, step) && Apply(cfg, s, step) == t
    ensures Reaches(cfg, asm, s, t)
  {
    hide Apply, Fits;
    var steps := [step];
    assert steps[1..] == [];
    assert Run(cfg, asm, s, steps);
    assert End(cfg, asm, s, steps) == End(cfg, asm, Apply(cfg, s, step), []);
  }

  lemma Next(cfg: Settings, asm: Assumptions, s: State, t: State, step: Step, u: State)
    requires Reaches(cfg, asm, s, t) && Fits(t, step) && Allowed(asm, t, step) && Apply(cfg, t, step) == u
    ensures Reaches(cfg, asm, s, u)
  {
    hide Apply, Fits;
    Once(cfg, asm, t, step, u);
    Via(cfg, asm, s, t, u);
  }

  lemma NoSteps(cfg: Settings, asm: Assumptions, s: State)
    ensures Reaches(cfg, asm, s, s)
  {
    assert Run(cfg, asm, s, []) && End(cfg, asm, s, []) == s;
  }
}
