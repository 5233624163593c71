/** `reap_once`: two claims, teardowns that finish in any order, and commits in the order of the claims;
    proved equal to a plain sweep over the rows. */
module Reaper {
  import opened Sandboxes
  import opened Store
  import opened World

  // ---- the simple sweep ----

  predicate Due(r: Row, now: int) {
    DueExpired(r, now) || DueStuck(r, now)
  }

  /** With no compose file there is nothing to tear down. */
  predicate TearsDown(w: World, o: Outcome) {
    w.file.None? || o.Done?
  }

  /** A due row is nuked if its teardown succeeds; otherwise ready becomes expired and the rest stays. */
  function SweepRow(r: Row, now: int, ok: bool): Row {
    if r.status.Nuked? || r.expiresAt >= now then r
    else if ok then r.(status := Nuked)
    else if r.status.Ready? then r.(status := Expired)
    else r
  }

  /** Volumes are only removed for stuck rows, and only if the caller asks for it. */
  function SweepWorld(w: World, r: Row, now: int, downWithVolumes: bool, o: Outcome): World {
    if Due(r, now) then Down(w, downWithVolumes && DueStuck(r, now), o) else w
  }

  /** Exactly when a sweep removes a volume: asked to, from a row due as stuck, through its compose file. */
  lemma SweepRemovesVolume(w: World, r: Row, now: int, downWithVolumes: bool, o: Outcome)
    ensures SweepWorld(w, r, now, downWithVolumes, o).volume != w.volume <==>
            w.volume.Some? && downWithVolumes && DueStuck(r, now) && w.file.Some? && Removing(o)
  {
    DownRemoves(w, downWithVolumes, o);
  }

  // ---- the claims ----

  /** The jobs of a pass: every due row once, the expired ones first. */
  ghost predicate JobsOf(t: Table, now: int, expired: seq<Row>, stuck: seq<Row>) {
    Selects(expired, t, r => DueExpired(r, now)) && Selects(stuck, t, r => DueStuck(r, now))
  }

  lemma JobsAreTheDueRows(t: Table, now: int, expired: seq<Row>, stuck: seq<Row>)
    requires Keyed(t) && JobsOf(t, now, expired, stuck)
    ensures var jobs := expired + stuck;
      && (forall i | 0 <= i < |jobs| :: jobs[i].id in t && jobs[i] == t[jobs[i].id] && Due(jobs[i], now))
      && (forall i | 0 <= i < |jobs| ::
            (i < |expired| <==> DueExpired(jobs[i], now)) && (jobs[i] in stuck <==> i >= |expired|))
      && (forall i, j | 0 <= i < j < |jobs| :: jobs[i].id != jobs[j].id)
      && (forall sid | sid in t && Due(t[sid], now) :: exists i :: 0 <= i < |jobs| && jobs[i].id == sid)
  {
    var jobs := expired + stuck;
    forall sid | sid in t && Due(t[sid], now) ensures exists i :: 0 <= i < |jobs| && jobs[i].id == sid {
      if DueExpired(t[sid], now) {
        var i :| 0 <= i < |expired| && expired[i].id == sid;
        assert jobs[i].id == sid;
      } else {
        var i :| 0 <= i < |stuck| && stuck[i].id == sid;
        assert jobs[|expired| + i].id == sid;
      }
    }
    forall i | 0 <= i < |jobs|
      ensures jobs[i].id in t && jobs[i] == t[jobs[i].id] && Due(jobs[i], now)
      ensures (i < |expired| <==> DueExpired(jobs[i], now)) && (jobs[i] in stuck <==> i >= |expired|)
    {
      if i < |expired| {
        assert DueExpired(expired[i], now);
        assert forall j | 0 <= j < |stuck| :: DueStuck(stuck[j], now);
      } else {
        assert DueStuck(stuck[i - |expired|], now);
      }
    }
    forall i, j | 0 <= i < j < |jobs| ensures jobs[i].id != jobs[j].id {
      if i < |expired| && j >= |expired| {
        assert DueExpired(expired[i], now) && DueStuck(stuck[j - |expired|], now);
      }
    }
  }

  lemma StuckAreDue(t: Table, now: int, expired: seq<Row>, stuck: seq<Row>)
    requires Keyed(t) && JobsOf(t, now, expired, stuck)
    ensures var jobs := expired + stuck; forall i | 0 <= i < |jobs| :: jobs[i] in stuck <==> DueStuck(jobs[i], now)
  {
    JobsAreTheDueRows(t, now, expired, stuck);
  }

  /** Claiming the expired rows first does not change which rows are stuck. */
  lemma StuckAfterExpire(t: Table, now: int, stuck: seq<Row>)
    requires Selects(stuck, ExpireDue(t, now), r => DueStuck(r, now))
    ensures Selects(stuck, t, r => DueStuck(r, now))
  {
    var t' := ExpireDue(t, now);
    forall sid | sid in t ensures DueStuck(t[sid], now) <==> DueStuck(t'[sid], now) {
      assert t'[sid] == ExpireRow(t[sid], now);
    }
    forall sid | sid in t && DueStuck(t[sid], now) ensures exists i :: 0 <= i < |stuck| && stuck[i].id == sid {
      assert sid in t' && DueStuck(t'[sid], now);
    }
  }

  // ---- the two phases ----

  /** `_teardown`, with the outcome its `down` will have. */
  method Teardown(host: Host, sid: Sid, removeVolumes: bool, o: Outcome) returns (ok: bool)
    requires sid in host.worlds
    modifies host
    ensures ok == TearsDown(old(host.worlds)[sid], o)
    ensures ok <==> old(host.worlds)[sid].file.None? || o.Done?
    ensures host.worlds == old(host.worlds)[sid := Down(old(host.worlds)[sid], removeVolumes, o)]
  {
    if host.worlds[sid].file.None? {
      assert host.worlds[sid := host.worlds[sid]] == host.worlds;
      return true;
    }
    host.worlds := host.worlds[sid := Down(host.worlds[sid], removeVolumes, o)];
    ok := o.Done?;
  }

  ghost predicate DistinctIds(jobs: seq<Row>) {
    forall i, j | 0 <= i < |jobs| && 0 <= j < |jobs| && i != j :: jobs[i].id != jobs[j].id
  }

  ghost predicate IsJob(jobs: seq<Row>, sid: Sid) {
    exists i :: 0 <= i < |jobs| && jobs[i].id == sid
  }

  function Indices(n: nat): (s: set<nat>)
    ensures forall i: nat :: i in s <==> i < n
  {
    if n == 0 then {} else Indices(n - 1) + {n - 1}
  }

  /** Phase 1: the pool finishes the jobs in any order; each touches its own session only. `outcomes` says
      how each session's `down` goes. */
  method TearDownAll(host: Host, jobs: seq<Row>, firstStuck: nat, downWithVolumes: bool, outcomes: map<Sid, Outcome>)
    returns (oks: map<nat, bool>)
    requires DistinctIds(jobs) && host.worlds.Keys <= outcomes.Keys
    requires forall i | 0 <= i < |jobs| :: jobs[i].id in host.worlds
    modifies host
    ensures host.worlds.Keys == old(host.worlds).Keys
    ensures forall i: nat | i < |jobs| ::
      && i in oks
      && JobDone(old(host.worlds), host.worlds, jobs[i].id, downWithVolumes && i >= firstStuck, outcomes, oks[i])
    ensures forall sid | sid in host.worlds && !IsJob(jobs, sid) :: host.worlds[sid] == old(host.worlds)[sid]
  {
    hide Pool;
    oks := map[];
    ghost var ws := host.worlds;
    var running := Indices(|jobs|);
    PoolStart(ws, jobs, firstStuck, downWithVolumes, outcomes);
    while running != {}
      invariant running <= Indices(|jobs|)
      invariant Pool(ws, host.worlds, jobs, firstStuck, downWithVolumes, outcomes, oks, running)
      decreases |running|
    {
      var i :| i in running;
      PoolStep(ws, host.worlds, jobs, firstStuck, downWithVolumes, outcomes, oks, running, i);
      var ok := Teardown(host, jobs[i].id, downWithVolumes && i >= firstStuck, outcomes[jobs[i].id]);
      oks := oks[i := ok];
      running := running - {i};
    }
    PoolEnd(ws, host.worlds, jobs, firstStuck, downWithVolumes, outcomes, oks);
  }

  /** The pool with the jobs of `running` still to do: their sessions are untouched, the others' torn down. */
  ghost predicate Pool(
      ws: map<Sid, World>, ws': map<Sid, World>, jobs: seq<Row>, firstStuck: nat, downWithVolumes: bool,
      outcomes: map<Sid, Outcome>, oks: map<nat, bool>, running: set<nat>)
  {
    && ws'.Keys == ws.Keys
    && (forall i: nat | i < |jobs| :: jobs[i].id in ws)
    && (forall i: nat | i < |jobs| && i in running :: ws'[jobs[i].id] == ws[jobs[i].id])
    && (forall i: nat | i < |jobs| && i !in running ::
          i in oks && JobDone(ws, ws', jobs[i].id, downWithVolumes && i >= firstStuck, outcomes, oks[i]))
    && (forall sid | sid in ws && !IsJob(jobs, sid) :: ws'[sid] == ws[sid])
  }

  lemma PoolStart(
      ws: map<Sid, World>, jobs: seq<Row>, firstStuck: nat, downWithVolumes: bool, outcomes: map<Sid, Outcome>)
    requires forall i | 0 <= i < |jobs| :: jobs[i].id in ws
    ensures Pool(ws, ws, jobs, firstStuck, downWithVolumes, outcomes, map[], Indices(|jobs|))
  {
  }

  lemma PoolStep(
      ws: map<Sid, World>, ws': map<Sid, World>, jobs: seq<Row>, firstStuck: nat, downWithVolumes: bool,
      outcomes: map<Sid, Outcome>, oks: map<nat, bool>, running: set<nat>, i: nat)
    requires DistinctIds(jobs) && ws.Keys <= outcomes.Keys && i in running && i < |jobs|
    requires Pool(ws, ws', jobs, firstStuck, downWithVolumes, outcomes, oks, running)
    ensures var sid, v := jobs[i].id, downWithVolumes && i >= firstStuck;
      && sid in ws'
      && Pool(ws, ws'[sid := Down(ws'[sid], v, outcomes[sid])], jobs, firstStuck, downWithVolumes, outcomes,
              oks[i := TearsDown(ws'[sid], outcomes[sid])], running - {i})
  {
    hide Down, TearsDown;
    var sid := jobs[i].id;
    assert IsJob(jobs, sid);
    forall j: nat | j < |jobs| && j !in running
      ensures j != i && jobs[j].id != sid
      ensures j in oks && JobDone(ws, ws', jobs[j].id, downWithVolumes && j >= firstStuck, outcomes, oks[j])
    {
    }
  }

  lemma PoolEnd(
      ws: map<Sid, World>, ws': map<Sid, World>, jobs: seq<Row>, firstStuck: nat, downWithVolumes: bool,
      outcomes: map<Sid, Outcome>, oks: map<nat, bool>)
    requires Pool(ws, ws', jobs, firstStuck, downWithVolumes, outcomes, oks, {})
    ensures ws'.Keys == ws.Keys
    ensures forall i: nat | i < |jobs| ::
      i in oks && JobDone(ws, ws', jobs[i].id, downWithVolumes && i >= firstStuck, outcomes, oks[i])
    ensures forall sid | sid in ws' && !IsJob(jobs, sid) :: ws'[sid] == ws[sid]
  {
  }

  predicate JobDone(
      before: map<Sid, World>, after: map<Sid, World>, sid: Sid, removeVolumes: bool,
      outcomes: map<Sid, Outcome>, ok: bool)
  {
    && sid in before && sid in after && sid in outcomes
    && after[sid] == Down(before[sid], removeVolumes, outcomes[sid])
    && ok == TearsDown(before[sid], outcomes[sid])
  }

  /** One commit: the write the commit loop chooses for a record is the one that nukes its row. */
  method CommitOne(store: SessionStore, rec: Row, stuck: seq<Row>, fails: bool, ghost now: int) returns (raised: bool)
    requires rec.id in store.rows && store.rows[rec.id] == ExpireRow(rec, now)
    requires Due(rec, now) && (rec in stuck <==> DueStuck(rec, now))
    modifies store
    ensures raised == fails
    ensures store.rows == if raised then old(store.rows) else old(store.rows)[rec.id := rec.(status := Nuked)]
  {
    if (rec.status.Expired? || rec.status.Starting? || rec.status.Error?) && rec in stuck {
      raised := store.MarkNuked(rec.id, fails);
    } else {
      raised := store.SetStatus(rec.id, Nuked, fails);
    }
  }

  /** `nuked` lists, in order and each once, the records `at` of the jobs, and these are exactly the ones
      among the first `n` whose teardown succeeded. */
  ghost predicate Lists(nuked: seq<Row>, at: seq<nat>, jobs: seq<Row>, oks: map<nat, bool>, n: nat) {
    && |at| == |nuked| && n <= |jobs|
    && (forall k | 0 <= k < |at| :: at[k] < n && nuked[k] == jobs[at[k]] && at[k] in oks && oks[at[k]])
    && (forall k, l | 0 <= k < l < |at| :: at[k] < at[l])
    && (forall i: nat | i < n && i in oks && oks[i] :: exists k :: 0 <= k < |at| && at[k] == i)
  }

  lemma ListsOneMore(nuked: seq<Row>, at: seq<nat>, jobs: seq<Row>, oks: map<nat, bool>, n: nat)
    requires n < |jobs| && n in oks && Lists(nuked, at, jobs, oks, n)
    ensures oks[n] ==> Lists(nuked + [jobs[n]], at + [n], jobs, oks, n + 1)
    ensures !oks[n] ==> Lists(nuked, at, jobs, oks, n + 1)
  {
    if oks[n] {
      var at' := at + [n];
      forall i: nat | i < n + 1 && i in oks && oks[i] ensures exists k :: 0 <= k < |at'| && at'[k] == i {
        if i < n {
          var k :| 0 <= k < |at| && at[k] == i;
          assert at'[k] == i;
        } else {
          assert at'[|at|] == i;
        }
      }
    }
  }

  /** Phase 2: commit the successful teardowns in order. `fails` says whose commit raises; the first such one
      ends the pass where it stands. */
  method CommitAll(
      store: SessionStore, jobs: seq<Row>, stuck: seq<Row>, oks: map<nat, bool>, fails: set<Sid>, ghost now: int)
    returns (raised: bool, nuked: seq<Row>, ghost at: seq<nat>, ghost done: nat)
    requires DistinctIds(jobs)
    requires forall i: nat | i < |jobs| ::
      && i in oks
      && jobs[i].id in store.rows && store.rows[jobs[i].id] == ExpireRow(jobs[i], now)
      && Due(jobs[i], now) && (jobs[i] in stuck <==> DueStuck(jobs[i], now))
    modifies store
    ensures raised <==> exists i: nat :: i < |jobs| && oks[i] && jobs[i].id in fails
    ensures if raised then done < |jobs| && oks[done] && jobs[done].id in fails else done == |jobs|
    ensures store.rows.Keys == old(store.rows).Keys
    ensures forall i: nat | i < |jobs| ::
      store.rows[jobs[i].id] == if i < done && oks[i] then jobs[i].(status := Nuked) else ExpireRow(jobs[i], now)
    ensures forall sid | sid in store.rows && !IsJob(jobs, sid) :: store.rows[sid] == old(store.rows)[sid]
    ensures Lists(nuked, at, jobs, oks, done)
  {
    hide ExpireRow, Due, DueStuck, Lists;
    nuked, at, done, raised := [], [], 0, false;
    NoneListed(jobs, oks);
    for i := 0 to |jobs|
      invariant done == i && !raised
      invariant store.rows.Keys == old(store.rows).Keys
      invariant forall j: nat | j < |jobs| ::
        store.rows[jobs[j].id] == if j < i && oks[j] then jobs[j].(status := Nuked) else ExpireRow(jobs[j], now)
      invariant forall sid | sid in store.rows && !IsJob(jobs, sid) :: store.rows[sid] == old(store.rows)[sid]
      invariant Lists(nuked, at, jobs, oks, i)
      invariant forall j: nat | j < i :: !(oks[j] && jobs[j].id in fails)
    {
      assert IsJob(jobs, jobs[i].id);
      ListsOneMore(nuked, at, jobs, oks, i);
      if oks[i] {
        raised := CommitOne(store, jobs[i], stuck, jobs[i].id in fails, now);
        if raised { return; }
        nuked, at := nuked + [jobs[i]], at + [i];
      }
      done := i + 1;
    }
  }

  lemma NoneListed(jobs: seq<Row>, oks: map<nat, bool>)
    ensures Lists([], [], jobs, oks, 0)
  {
  }

  /** A due row whose teardown failed is left as the claim left it. */
  lemma FailedRowIsExpired(r: Row, now: int)
    requires Due(r, now)
    ensures SweepRow(r, now, false) == ExpireRow(r, now)
  {
  }

  // ---- the pass ----

  /** The sessions whose teardown succeeds, or needs nothing. */
  function Removable(ws: map<Sid, World>, outcomes: map<Sid, Outcome>): set<Sid> {
    set sid | sid in ws && sid in outcomes && TearsDown(ws[sid], outcomes[sid])
  }

  function Sweep(t: Table, now: int, ok: set<Sid>): Table {
    map sid | sid in t :: SweepRow(t[sid], now, sid in ok)
  }

  function SweepWorlds(
      t: Table, ws: map<Sid, World>, now: int, downWithVolumes: bool, outcomes: map<Sid, Outcome>): map<Sid, World>
    requires ws.Keys <= outcomes.Keys
  {
    map sid | sid in ws ::
      if sid in t then SweepWorld(ws[sid], t[sid], now, downWithVolumes, outcomes[sid]) else ws[sid]
  }

  /** Which of a pass's transactions raise: the claims, and the commits of which sessions. */
  datatype Faults = Faults(claimExpired: bool, claimStuck: bool, commits: set<Sid>)

  /** With no other writer. `outcomes` says how each session's `down` goes, `faults` which transactions raise.
      A pass raises exactly if a claim does, or the commit of an overdue row whose teardown succeeded. One that
      does not raise is exactly the simple sweep, row by row and world by world, and returns exactly the
      records whose teardown succeeded (there was no compose file, or the `down` went well), each once, in
      the order of expired ++ stuck. One that raises in a claim has torn nothing down; one that raises in a
      commit has torn everything down, nuked only rows whose teardown succeeded, and claimed the others. */
  method ReapOnce(
      store: SessionStore, host: Host, now: int, downWithVolumes: bool, outcomes: map<Sid, Outcome>, faults: Faults)
    returns (raised: bool, nuked: seq<Row>, ghost at: seq<nat>, ghost expired: seq<Row>, ghost stuck: seq<Row>)
    requires Keyed(store.rows) && store.rows.Keys <= host.worlds.Keys <= outcomes.Keys
    modifies store, host
    ensures raised <==>
      || faults.claimExpired || faults.claimStuck
      || exists sid :: sid in faults.commits && Nukable(old(store.rows), old(host.worlds), now, outcomes, sid)
    ensures !raised ==>
      && store.rows == Sweep(old(store.rows), now, Removable(old(host.worlds), outcomes))
      && host.worlds == SweepWorlds(old(store.rows), old(host.worlds), now, downWithVolumes, outcomes)
      && JobsOf(old(store.rows), now, expired, stuck)
    ensures !raised ==>
      && RowsAsDue(old(store.rows), store.rows, old(host.worlds), now, outcomes)
      && WorldsAsDue(old(store.rows), old(host.worlds), host.worlds, now, downWithVolumes, outcomes)
      && ReturnsNuked(nuked, at, expired + stuck, store.rows, old(host.worlds), outcomes)
    ensures raised ==>
      || (host.worlds == old(host.worlds)
          && (store.rows == old(store.rows) || store.rows == ExpireDue(old(store.rows), now)))
      || (host.worlds == SweepWorlds(old(store.rows), old(host.worlds), now, downWithVolumes, outcomes)
          && HalfSwept(old(store.rows), store.rows, now, Removable(old(host.worlds), outcomes)))
  {
    hide Selects, DueExpired, DueStuck, Nukable;
    hide RowsAsDue, WorldsAsDue, ReturnsNuked, Sweep, SweepWorlds, HalfSwept, Removable;
    ghost var t, ws := store.rows, host.worlds;
    expired, stuck, nuked, at := [], [], [], [];
    var claimed, orphans;
    raised, claimed := store.ClaimExpired(now, faults.claimExpired);
    if raised { return; }
    raised, orphans := store.ClaimStuck(now, faults.claimStuck);
    if raised { return; }
    expired, stuck := claimed, orphans;
    StuckAfterExpire(t, now, stuck);
    raised, nuked, at := ReapClaimed(store, host, t, claimed, orphans, now, downWithVolumes, outcomes, faults.commits);
    SweepSpelled(t, ws, now, downWithVolumes, outcomes);
  }

  /** A pass after its claims, which left `t` as `ExpireDue(t, now)`. */
  method ReapClaimed(
      store: SessionStore, host: Host, ghost t: Table, claimed: seq<Row>, orphans: seq<Row>, now: int,
      downWithVolumes: bool, outcomes: map<Sid, Outcome>, fails: set<Sid>)
    returns (raised: bool, nuked: seq<Row>, ghost at: seq<nat>)
    requires Keyed(t) && t.Keys <= host.worlds.Keys <= outcomes.Keys
    requires store.rows == ExpireDue(t, now) && JobsOf(t, now, claimed, orphans)
    modifies store, host
    ensures raised <==> exists sid :: sid in fails && Nukable(t, old(host.worlds), now, outcomes, sid)
    ensures host.worlds == SweepWorlds(t, old(host.worlds), now, downWithVolumes, outcomes)
    ensures HalfSwept(t, store.rows, now, Removable(old(host.worlds), outcomes))
    ensures !raised ==>
      && store.rows == Sweep(t, now, Removable(old(host.worlds), outcomes))
      && ReturnsNuked(nuked, at, claimed + orphans, store.rows, old(host.worlds), outcomes)
  {
    hide Down, TearsDown, Selects, DueExpired, DueStuck, SweepRow, SweepWorld, Lists, Nukable, ReturnsNuked;
    ghost var ws := host.worlds;
    JobsAreTheDueRows(t, now, claimed, orphans);
    StuckAreDue(t, now, claimed, orphans);
    var jobs := claimed + orphans;
    var oks := TearDownAll(host, jobs, |claimed|, downWithVolumes, outcomes);
    WorldsSwept(t, ws, now, downWithVolumes, outcomes, jobs, |claimed|, oks, host.worlds);
    ghost var done;
    assert forall i: nat | i < |jobs| ::
      i in oks && jobs[i].id in store.rows && store.rows[jobs[i].id] == ExpireRow(jobs[i], now);
    hide ExpireRow;
    raised, nuked, at, done := CommitAll(store, jobs, orphans, oks, fails, now);
    RowsSwept(t, now, jobs, Removable(ws, outcomes), done, oks, store.rows);
    CommitsRaise(t, ws, now, outcomes, jobs, oks, fails);
    if !raised {
      ListIsRight(nuked, at, jobs, oks, t, store.rows, ws, now, outcomes);
    }
  }

  /** An overdue row, not yet nuked, whose teardown succeeds. */
  predicate Nukable(t: Table, ws: map<Sid, World>, now: int, outcomes: map<Sid, Outcome>, sid: Sid) {
    && sid in t && !t[sid].status.Nuked? && t[sid].expiresAt < now
    && sid in ws && sid in outcomes && (ws[sid].file.None? || outcomes[sid].Done?)
  }

  lemma CommitsRaise(
      t: Table, ws: map<Sid, World>, now: int, outcomes: map<Sid, Outcome>, jobs: seq<Row>, oks: map<nat, bool>,
      fails: set<Sid>)
    requires t.Keys <= ws.Keys <= outcomes.Keys
    requires forall i: nat | i < |jobs| :: i in oks && jobs[i].id in t && jobs[i] == t[jobs[i].id] && Due(jobs[i], now)
    requires forall i: nat | i < |jobs| :: oks[i] <==> jobs[i].id in Removable(ws, outcomes)
    requires forall sid | sid in t && Due(t[sid], now) :: IsJob(jobs, sid)
    ensures (exists i: nat :: i < |jobs| && oks[i] && jobs[i].id in fails)
            <==> exists sid :: sid in fails && Nukable(t, ws, now, outcomes, sid)
  {
    if i: nat :| i < |jobs| && oks[i] && jobs[i].id in fails {
      assert Nukable(t, ws, now, outcomes, jobs[i].id);
    }
    if sid :| sid in fails && Nukable(t, ws, now, outcomes, sid) {
      assert Due(t[sid], now);
      var i: nat :| i < |jobs| && jobs[i].id == sid;
      assert oks[i] && jobs[i].id in fails;
    }
  }

  /** Only statuses change: an overdue row not yet nuked becomes nuked if it has no compose file or its `down`
      went well, and otherwise expired if it was ready. */
  ghost predicate RowsAsDue(t: Table, t': Table, ws: map<Sid, World>, now: int, outcomes: map<Sid, Outcome>)
    requires t.Keys <= ws.Keys <= outcomes.Keys
  {
    t'.Keys == t.Keys && forall sid | sid in t ::
      t'[sid] == t[sid].(status :=
        if t[sid].status.Nuked? || t[sid].expiresAt >= now then t[sid].status
        else if ws[sid].file.None? || outcomes[sid].Done? then Nuked
        else if t[sid].status.Ready? then Expired
        else t[sid].status)
  }

  /** Exactly the overdue sessions not yet nuked are torn down, with volumes only if that is asked for and the
      row is in starting or error. */
  ghost predicate WorldsAsDue(
      t: Table, ws: map<Sid, World>, ws': map<Sid, World>, now: int, downWithVolumes: bool,
      outcomes: map<Sid, Outcome>)
    requires ws.Keys <= outcomes.Keys
  {
    ws'.Keys == ws.Keys && forall sid | sid in ws ::
      ws'[sid] ==
        if sid !in t || t[sid].status.Nuked? || t[sid].expiresAt >= now then ws[sid]
        else Down(ws[sid], downWithVolumes && (t[sid].status.Starting? || t[sid].status.Error?), outcomes[sid])
  }

  /** The list has exactly the records of `jobs` without a compose file or with a `down` that went well, each
      once and in order (`at` are their places), and all their rows are now nuked. */
  ghost predicate ReturnsNuked(
      nuked: seq<Row>, at: seq<nat>, jobs: seq<Row>, t': Table, ws: map<Sid, World>, outcomes: map<Sid, Outcome>)
  {
    && |at| == |nuked| && (forall k, l | 0 <= k < l < |at| :: at[k] < at[l])
    && (forall k | 0 <= k < |at| :: at[k] < |jobs| && nuked[k] == jobs[at[k]])
    && (forall rec | rec in jobs :: rec.id in ws && rec.id in outcomes
          && (rec in nuked <==> ws[rec.id].file.None? || outcomes[rec.id].Done?))
    && (forall rec | rec in nuked :: rec in jobs && rec.id in t' && t'[rec.id].status.Nuked?)
    && (forall k, l | 0 <= k < l < |nuked| :: nuked[k].id != nuked[l].id)
  }

  lemma ListIsRight(
      nuked: seq<Row>, at: seq<nat>, jobs: seq<Row>, oks: map<nat, bool>, t: Table, t': Table, ws: map<Sid, World>,
      now: int, outcomes: map<Sid, Outcome>)
    requires Lists(nuked, at, jobs, oks, |jobs|) && DistinctIds(jobs) && t.Keys <= ws.Keys <= outcomes.Keys
    requires forall i: nat | i < |jobs| :: i in oks && jobs[i].id in t && jobs[i] == t[jobs[i].id] && Due(jobs[i], now)
    requires forall i: nat | i < |jobs| :: oks[i] <==> jobs[i].id in Removable(ws, outcomes)
    requires t' == Sweep(t, now, Removable(ws, outcomes))
    ensures ReturnsNuked(nuked, at, jobs, t', ws, outcomes)
  {
    forall rec | rec in jobs
      ensures rec.id in ws && rec.id in outcomes
      ensures rec in nuked <==> ws[rec.id].file.None? || outcomes[rec.id].Done?
    {
      var i: nat :| i < |jobs| && jobs[i] == rec;
      if oks[i] {
        var k :| 0 <= k < |at| && at[k] == i;
        assert nuked[k] == rec;
      }
    }
    forall rec | rec in nuked ensures rec in jobs && rec.id in t' && t'[rec.id].status.Nuked? {
      var k :| 0 <= k < |nuked| && nuked[k] == rec;
      assert jobs[at[k]] == rec && oks[at[k]];
    }
  }

  lemma SweepSpelled(t: Table, ws: map<Sid, World>, now: int, downWithVolumes: bool, outcomes: map<Sid, Outcome>)
    requires t.Keys <= ws.Keys <= outcomes.Keys
    ensures RowsAsDue(t, Sweep(t, now, Removable(ws, outcomes)), ws, now, outcomes)
    ensures WorldsAsDue(t, ws, SweepWorlds(t, ws, now, downWithVolumes, outcomes), now, downWithVolumes, outcomes)
  {
    hide Down;
  }

  /** Every row is as a claim leaves it, or, if its teardown succeeded, possibly nuked. */
  ghost predicate HalfSwept(t: Table, t': Table, now: int, ok: set<Sid>) {
    t'.Keys == t.Keys && forall sid | sid in t ::
      t'[sid] == ExpireRow(t[sid], now) || (sid in ok && t'[sid] == SweepRow(t[sid], now, true))
  }

  lemma WorldsSwept(
      t: Table, ws: map<Sid, World>, now: int, downWithVolumes: bool, outcomes: map<Sid, Outcome>,
      jobs: seq<Row>, firstStuck: nat, oks: map<nat, bool>, ws': map<Sid, World>)
    requires ws'.Keys == ws.Keys && t.Keys <= ws.Keys <= outcomes.Keys
    requires forall i: nat | i < |jobs| ::
      && jobs[i].id in t && jobs[i] == t[jobs[i].id] && Due(jobs[i], now)
      && (i < firstStuck <==> DueExpired(jobs[i], now))
      && i in oks && JobDone(ws, ws', jobs[i].id, downWithVolumes && i >= firstStuck, outcomes, oks[i])
    requires forall sid | sid in ws && !IsJob(jobs, sid) :: ws'[sid] == ws[sid]
    requires forall sid | sid in t && Due(t[sid], now) :: IsJob(jobs, sid)
    ensures ws' == SweepWorlds(t, ws, now, downWithVolumes, outcomes)
    ensures forall i: nat | i < |jobs| :: oks[i] <==> jobs[i].id in Removable(ws, outcomes)
  {
    hide Down;
    forall sid | sid in ws ensures ws'[sid] == SweepWorlds(t, ws, now, downWithVolumes, outcomes)[sid] {
      if IsJob(jobs, sid) {
        var i: nat :| i < |jobs| && jobs[i].id == sid;
        assert JobDone(ws, ws', jobs[i].id, downWithVolumes && i >= firstStuck, outcomes, oks[i]);
      }
    }
  }

  lemma RowsSwept(t: Table, now: int, jobs: seq<Row>, ok: set<Sid>, done: nat, oks: map<nat, bool>, t': Table)
    requires t'.Keys == t.Keys && done <= |jobs|
    requires forall i: nat | i < |jobs| ::
      i in oks && jobs[i].id in t && jobs[i] == t[jobs[i].id] && Due(jobs[i], now) && (oks[i] <==> jobs[i].id in ok)
    requires forall i: nat | i < |jobs| ::
      t'[jobs[i].id] == if i < done && oks[i] then jobs[i].(status := Nuked) else ExpireRow(jobs[i], now)
    requires forall sid | sid in t && !IsJob(jobs, sid) :: t'[sid] == ExpireRow(t[sid], now)
    requires forall sid | sid in t && Due(t[sid], now) :: IsJob(jobs, sid)
    ensures HalfSwept(t, t', now, ok)
    ensures done == |jobs| ==> t' == Sweep(t, now, ok)
  {
    forall sid | sid in t
      ensures t'[sid] == ExpireRow(t[sid], now) || (sid in ok && t'[sid] == SweepRow(t[sid], now, true))
      ensures done == |jobs| ==> t'[sid] == Sweep(t, now, ok)[sid]
    {
      if IsJob(jobs, sid) {
        var i: nat :| i < |jobs| && jobs[i].id == sid;
        FailedRowIsExpired(jobs[i], now);
      }
    }
  }
}
