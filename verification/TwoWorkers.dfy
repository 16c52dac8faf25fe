/**
 Runs of two workers, put together step by step.  The thread of worker 1 is out of ML code most of the time, and the
 thread of worker 2 leads the rounds and helps worker 1.
 */
module TwoWorkers {
  import opened Phases
  import opened Marking
  import opened System
  import opened Wrappers
  import K = Collector
  import C = Control
  import I = Invariant
  import S = Safety
  import W = Barrier
  import Stall

  /** Of the steps that the collector does not withstand, the kind that a run may contain. */
  datatype Flaw = Staleness | Skipping | Tearing | Haste

  datatype From = From(start: State, flaw: Flaw)

  /** No thread is in the middle of a write. */
  predicate Quiet(k: K.State) { forall w <- k.task :: !k.task[w].Writing? }

  ghost predicate AllFree(h: Heap) { forall o <- h :: o != STATIC ==> h[o].link == Link.Free }

  /** In a run that skips a stack nobody writes, users stay, and nobody enumerates a stack. */
  ghost predicate Allowed(f: From, s: State, l: Step) {
    match l
    case Handshake(h) =>
      && (h.Decide? && h.finished ==> f.flaw.Haste? || (Quiet(s.k) && AllFree(s.k.heap)))
      && (EnvStepOf(s.c, h).Sync2Begins? ==> f.flaw.Tearing? || Quiet(s.k))
    case Thread(l) =>
      && (l.Remember? ==> f.flaw.Staleness? || !s.k.env.epoch.OnSweep?)
      && (l.LockUser? || l.Spurious? ==> f.flaw.Skipping?)
      && (f.flaw.Skipping? ==>
            && !l.Read? && !l.Swap? && !l.Remember? && !l.WalkDone? && !l.EndUser?
            && (l.Publish? && l.w in s.k.task && s.k.task[l.w].u in s.k.users ==>
                !s.k.users[s.k.task[l.w].u].walk.Walk?))
  }

  /** Such a run contains no other step that the collector does not withstand. */
  lemma OnlyThisFlaw(f: From, s: State, l: Step)
    requires Allowed(f, s, l) && Breaks(s, l) && (l.Thread? ==> !l.l.Shake? && !l.l.ScanEnd?)
    ensures l.Thread? && W.Stale(s.k, l.l) ==> f.flaw.Staleness?
    ensures l.Thread? && S.Skips(s.k, l.l) ==> f.flaw.Skipping?
    ensures l.Thread? ==> W.Stale(s.k, l.l) || S.Skips(s.k, l.l)
    ensures l.Handshake? && !l.h.Decide? ==> f.flaw.Tearing? && S.Torn(s.k, K.Shake(EnvStepOf(s.c, l.h)))
    ensures l.Handshake? && l.h.Decide? ==> f.flaw.Haste? && S.Hasty(s.k, K.ScanEnd(l.h.finished))
  {
    if Quiet(s.k) { NothingInFlight(s.k); }
    hide EnvStepOf, EnvOf, I.FlightOf;
  }

  lemma NothingInFlight(k: K.State)
    requires Quiet(k)
    ensures I.FlightOf(k.env, k.heap, k.task).held == {} && forall w <- k.task :: !I.IsLoose(k.heap, k.task[w])
  {
  }

  ghost predicate Fragment(f: From, ss: seq<State>, ls: seq<Step>) {
    && |ss| == |ls| + 1 && ss[0] == f.start
    && forall i :: 0 <= i < |ls| ==> Next(ss[i], ls[i], ss[i + 1]) && Allowed(f, ss[i], ls[i])
  }

  /** Some such run ends in s. */
  ghost predicate Reach(f: From, s: State) {
    exists ss: seq<State>, ls: seq<Step> :: Fragment(f, ss, ls) && ss[|ls|] == s
  }

  lemma AtStart(f: From)
    ensures Reach(f, f.start)
  {
    assert Fragment(f, [f.start], []) && [f.start][0] == f.start;
  }

  lemma Extend(f: From, s: State, l: Step, s': State)
    requires Reach(f, s) && Next(s, l, s') && Allowed(f, s, l)
    ensures Reach(f, s')
  {
    hide Next, Allowed;
    var ss: seq<State>, ls: seq<Step> :| Fragment(f, ss, ls) && ss[|ls|] == s;
    assert Fragment(f, ss + [s'], ls + [l]) && (ss + [s'])[|ls + [l]|] == s';
  }

  /** The handshakes stand at c, and the rest of the system at k; the environment in k is not looked at. */
  function At(c: C.State, k: K.State): State { State(c, k.(env := EnvOf(c))) }

  /** A step of the handshakes that changes the collector only through its environment. */
  lemma Shakes(f: From, c: C.State, k: K.State, h: C.Step, c': C.State)
    requires Reach(f, At(c, k)) && C.Next(c, h, c') && Before(At(c, k), h) && !h.Decide?
    requires var e := EnvStepOf(c, h); !e.Done? && !e.Elect? && !e.OpenGc? && !e.SweepBegins?
    requires EnvStepOf(c, h).Sync2Begins? ==> f.flaw.Tearing? || Quiet(k)
    ensures Reach(f, At(c', k))
  {
    hide Reach, EnvOf, EnvStepOf, C.Next, Before;
    Extend(f, At(c, k), Handshake(h), At(c', k));
  }

  /** Any step of the handshakes but the decision. */
  lemma Turns(f: From, c: C.State, k: K.State, h: C.Step, c': C.State, k': K.State)
    requires Reach(f, At(c, k)) && C.Next(c, h, c') && Before(At(c, k), h) && !h.Decide?
    requires At(c', k').k == K.Effect(At(c, k).k, EnvStepOf(c, h), EnvOf(c')) && !EnvStepOf(c, h).Sync2Begins?
    ensures Reach(f, At(c', k'))
  {
    hide Reach, EnvOf, EnvStepOf, C.Next, Before, K.Effect;
    Extend(f, At(c, k), Handshake(h), At(c', k'));
  }

  /** A step of a thread between handshakes. */
  lemma Goes(f: From, c: C.State, k: K.State, l: K.Step, k': K.State)
    requires Reach(f, At(c, k)) && K.Next(At(c, k).k, l, At(c, k').k) && !l.Shake? && !l.ScanEnd?
    requires Actor(l).Some? ==> C.IdleOwner(c, Actor(l).value)
    requires l.ScanStart? || l.ScanOne? || l.ScanPass? ==> LeaderPc(c).Finish?
    requires Allowed(f, At(c, k), Thread(l))
    ensures Reach(f, At(c, k'))
  {
    hide Reach, EnvOf, K.Next, LeaderPc, Allowed;
    Extend(f, At(c, k), Thread(l), At(c, k'));
  }

  lemma Schedules(f: From, c: C.State, k: K.State, l: K.Step, k': K.State)
    requires Reach(f, At(c, k)) && K.UserStep(At(c, k).k, l, At(c, k').k)
             && (Actor(l).Some? ==> C.IdleOwner(c, Actor(l).value))
    requires Allowed(f, At(c, k), Thread(l))
    ensures Reach(f, At(c, k'))
  {
    assert !l.Shake? && !l.ScanEnd? && !l.ScanStart? && !l.ScanOne? && !l.ScanPass?;
    hide Reach, At, Allowed, K.UserStep, K.MLStep, K.WriteStep, K.CollectorStep;
    Goes(f, c, k, l, k');
  }

  lemma Computes(f: From, c: C.State, k: K.State, l: K.Step, k': K.State)
    requires Reach(f, At(c, k)) && K.MLStep(At(c, k).k, l, At(c, k').k) && C.IdleOwner(c, l.w)
    requires Allowed(f, At(c, k), Thread(l))
    ensures Reach(f, At(c, k'))
  {
    assert !l.Shake? && !l.ScanEnd? && !l.ScanStart? && !l.ScanOne? && !l.ScanPass?;
    hide Reach, At, Allowed, K.UserStep, K.MLStep, K.WriteStep, K.CollectorStep;
    Goes(f, c, k, l, k');
  }

  /** A step of a write. */
  lemma Steps(f: From, c: C.State, k: K.State, l: K.Step, k': K.State)
    requires Reach(f, At(c, k)) && K.WriteStep(At(c, k).k, l, At(c, k').k) && C.IdleOwner(c, l.w)
    requires Allowed(f, At(c, k), Thread(l))
    ensures Reach(f, At(c, k'))
  {
    assert !l.Shake? && !l.ScanEnd? && !l.ScanStart? && !l.ScanOne? && !l.ScanPass?;
    hide Reach, At, Allowed, K.UserStep, K.MLStep, K.WriteStep, K.CollectorStep;
    Goes(f, c, k, l, k');
  }

  lemma Collects(f: From, c: C.State, k: K.State, l: K.Step, k': K.State)
    requires Reach(f, At(c, k)) && K.CollectorStep(At(c, k).k, l, At(c, k').k) && Actor(l).None?
    requires !l.Shake? && !l.ScanEnd? && !l.ScanStart? && !l.ScanOne? && !l.ScanPass?
    requires Allowed(f, At(c, k), Thread(l))
    ensures Reach(f, At(c, k'))
  {
    hide Reach, At, Allowed, K.UserStep, K.MLStep, K.WriteStep, K.CollectorStep;
    Goes(f, c, k, l, k');
  }

  // ---------------------------------------------------------------- handshakes of two workers

  function Calm(sig: Signal, lock: Lock): C.Unit { Stall.U(sig, false, lock, C.Idle, None) }

  /** At rest: the thread of worker 1 is out of ML code, that of worker 2 runs it. */
  function Rest(gc: nat): C.State { Stall.Two(Calm(Async, Open), Calm(Async, Own), Async, 0, gc, {}, None) }

  // A round that worker 2 leads for itself; then it helps worker 1, and leads on for it.

  function A0(g: Signal, n: Signal, gc: nat): C.State {
    Stall.Two(Calm(g, Open), Stall.U(g, false, Own, C.Begin(n, 2, C.Greedy), None), g, 0, gc, {}, Some(2))
  }

  function A1(g: Signal, n: Signal, gc: nat): C.State {
    Stall.Two(Calm(g, Open), Stall.U(g, false, Own, C.Switching(g, {1, 2}, 0, 2, C.Greedy), None),
              n, 0, gc, {}, Some(2))
  }

  function A2(g: Signal, n: Signal, gc: nat): C.State {
    Stall.Two(Stall.U(n, true, Open, C.Idle, None), Stall.U(g, false, Own, C.Switching(g, {2}, 1, 2, C.Greedy), None),
              n, 0, gc, {1}, Some(2))
  }

  function A3(g: Signal, n: Signal, gc: nat): C.State {
    Stall.Two(Stall.U(n, true, Open, C.Idle, None), Stall.U(n, true, Own, C.Switching(g, {}, 2, 2, C.Greedy), None),
              n, 0, gc, {1, 2}, Some(2))
  }

  function A4(n: Signal, gc: nat): C.State {
    Stall.Two(Stall.U(n, true, Open, C.Idle, None), Stall.U(n, true, Own, C.Rejoin, None), n, 2, gc, {1, 2}, None)
  }

  function A5(n: Signal, gc: nat): C.State {
    Stall.Two(Stall.U(n, true, Open, C.Idle, None), Stall.U(n, false, Own, C.Act(2, C.Greedy), Some(2)),
              n, 2, gc, {1, 2}, None)
  }

  function A6(n: Signal, gc: nat): C.State {
    Stall.Two(Stall.U(n, true, Open, C.Idle, None), Calm(n, Own), n, 1, gc, {1}, None)
  }

  function A7(n: Signal, gc: nat): C.State {
    Stall.Two(Stall.U(n, false, Help(2), C.Idle, Some(2)), Stall.U(n, false, Own, C.Act(1, C.Helping), None),
              n, 1, gc, {1}, None)
  }

  // A round that worker 2 leads as the helper of worker 1; then it answers for worker 1, and last for itself.

  function B0(n: Signal, pc: C.Pc, gc: nat): C.State {
    Stall.Two(Calm(n, Help(2)), Stall.U(n, false, Own, pc, None), n, 0, gc, {}, Some(2))
  }

  function B1(g: Signal, n: Signal, gc: nat): C.State {
    Stall.Two(Calm(g, Help(2)), Stall.U(g, false, Own, C.Switching(g, {1, 2}, 0, 1, C.Helping), None),
              n, 0, gc, {}, Some(2))
  }

  function B2(g: Signal, n: Signal, gc: nat): C.State {
    Stall.Two(Stall.U(n, true, Help(2), C.Idle, None),
              Stall.U(g, false, Own, C.Switching(g, {2}, 1, 1, C.Helping), None), n, 0, gc, {1}, Some(2))
  }

  function B3(g: Signal, n: Signal, gc: nat): C.State {
    Stall.Two(Stall.U(n, true, Help(2), C.Idle, None), Stall.U(n, true, Own, C.Switching(g, {}, 2, 1, C.Helping), None),
              n, 0, gc, {1, 2}, Some(2))
  }

  function B4(n: Signal, gc: nat): C.State {
    Stall.Two(Stall.U(n, true, Help(2), C.Idle, None), Stall.U(n, true, Own, C.Release(1), None),
              n, 2, gc, {1, 2}, None)
  }

  function B5(n: Signal, gc: nat): C.State {
    Stall.Two(Stall.U(n, false, Help(2), C.Idle, Some(2)), Stall.U(n, true, Own, C.Act(1, C.Helping), None),
              n, 2, gc, {1, 2}, None)
  }

  function B6(n: Signal, gc: nat): C.State {
    Stall.Two(Calm(n, Help(2)), Stall.U(n, true, Own, C.Release(1), None), n, 1, gc, {2}, None)
  }

  function B7(n: Signal, gc: nat): C.State {
    Stall.Two(Calm(n, Open), Stall.U(n, true, Own, C.Idle, None), n, 1, gc, {2}, None)
  }

  function B8(n: Signal, gc: nat): C.State {
    Stall.Two(Calm(n, Open), Stall.U(n, false, Own, C.Act(2, C.Greedy), Some(2)), n, 1, gc, {2}, None)
  }

  lemma ANexts(g: Signal, n: Signal, gc: nat)
    ensures C.Next(A0(g, n, gc), C.GlobalPhase(2), A1(g, n, gc))
    ensures C.Next(A1(g, n, gc), C.SwitchOne(2, 1, false), A2(g, n, gc))
    ensures C.Next(A2(g, n, gc), C.SwitchOne(2, 2, false), A3(g, n, gc))
  {
    Stall.SmallSets();
  }

  lemma ANextsMore(g: Signal, n: Signal, gc: nat)
    ensures C.Next(A3(g, n, gc), C.AddCount(2), A4(n, gc))
    ensures C.Next(A4(n, gc), C.RejoinOwn(2), A5(n, gc))
  {
    Stall.SmallSets();
  }

  lemma ANextsLast(n: Signal, gc: nat)
    ensures C.Next(A5(n, gc), C.Answer(2), A6(n, gc))
    ensures C.Next(A6(n, gc), C.HelpOther(2, 1), A7(n, gc))
    ensures C.Next(A7(n, gc), C.Answer(2), B0(n, C.Elected(n, 1, C.Helping), gc))
  {
    Stall.SmallSets();
  }

  lemma BNexts(g: Signal, n: Signal, gc: nat)
    ensures C.Next(B0(g, C.Begin(n, 1, C.Helping), gc), C.GlobalPhase(2), B1(g, n, gc))
    ensures C.Next(B1(g, n, gc), C.SwitchOne(2, 1, false), B2(g, n, gc))
    ensures C.Next(B2(g, n, gc), C.SwitchOne(2, 2, false), B3(g, n, gc))
  {
    Stall.SmallSets();
  }

  lemma BNextsMore(g: Signal, n: Signal, gc: nat)
    ensures C.Next(B3(g, n, gc), C.AddCount(2), B4(n, gc))
    ensures C.Next(B4(n, gc), C.ReleaseOther(2), B5(n, gc))
    ensures C.Next(B5(n, gc), C.Answer(2), B6(n, gc))
  {
    Stall.SmallSets();
  }

  lemma BNextsLast(n: Signal, next: Signal, gc: nat)
    ensures C.Next(B6(n, gc), C.ReleaseOther(2), B7(n, gc))
    ensures C.Next(B7(n, gc), C.Check(2), B8(n, gc))
    ensures C.Elected(n, 2, C.Greedy) == C.Begin(next, 2, C.Greedy) ==> C.Next(B8(n, gc), C.Answer(2), A0(n, next, gc))
  {
    Stall.SmallSets();
  }

  lemma Stages(a: C.Unit, b: C.Unit, g: Signal, flag: int, gc: nat, owes: set<Worker>, lead: Option<Worker>)
    ensures var c := Stall.Two(a, b, g, flag, gc, owes, lead);
            EnvOf(c) == K.Env(EpochOf(c), map[1 := StageOf(a), 2 := StageOf(b)])
  {
  }

  // ---------------------------------------------------------------- rounds

  /** From the publication of n on. */
  lemma RoundA(f: From, k: K.State, g: Signal, n: Signal, gc: nat)
    requires Reach(f, At(A1(g, n, gc), k))
    ensures Reach(f, At(A5(n, gc), k))
  {
    ANexts(g, n, gc);
    ANextsMore(g, n, gc);
    hide Reach, C.Next, EnvOf;
    Shakes(f, A1(g, n, gc), k, C.SwitchOne(2, 1, false), A2(g, n, gc));
    Shakes(f, A2(g, n, gc), k, C.SwitchOne(2, 2, false), A3(g, n, gc));
    Shakes(f, A3(g, n, gc), k, C.AddCount(2), A4(n, gc));
    Shakes(f, A4(n, gc), k, C.RejoinOwn(2), A5(n, gc));
  }

  /** From the publication of n on. */
  lemma RoundB(f: From, k: K.State, g: Signal, n: Signal, gc: nat)
    requires Reach(f, At(B1(g, n, gc), k))
    ensures Reach(f, At(B5(n, gc), k))
  {
    BNexts(g, n, gc);
    BNextsMore(g, n, gc);
    hide Reach, C.Next, EnvOf;
    Shakes(f, B1(g, n, gc), k, C.SwitchOne(2, 1, false), B2(g, n, gc));
    Shakes(f, B2(g, n, gc), k, C.SwitchOne(2, 2, false), B3(g, n, gc));
    Shakes(f, B3(g, n, gc), k, C.AddCount(2), B4(n, gc));
    Shakes(f, B4(n, gc), k, C.ReleaseOther(2), B5(n, gc));
  }

  lemma StagesIn(n: Signal, gc: nat)
    ensures EnvOf(A5(n, gc)).stage ==
            map[1 := StageOf(Stall.U(n, true, Open, C.Idle, None)), 2 :=
                StageOf(Stall.U(n, false, Own, C.Idle, Some(2)))]
    ensures EnvOf(A7(n, gc)).stage ==
            map[1 := StageOf(Stall.U(n, false, Open, C.Idle, Some(2))), 2 :=
                StageOf(Stall.U(n, false, Own, C.Idle, None))]
    ensures EnvOf(B5(n, gc)).stage ==
            map[1 := StageOf(Stall.U(n, false, Open, C.Idle, Some(2))), 2 :=
                StageOf(Stall.U(n, true, Own, C.Idle, None))]
    ensures EnvOf(B8(n, gc)).stage ==
            map[1 := StageOf(Stall.U(n, false, Open, C.Idle, None)), 2 :=
                StageOf(Stall.U(n, false, Own, C.Idle, Some(2)))]
  {
    Stages(Stall.U(n, true, Open, C.Idle, None), Stall.U(n, false, Own, C.Act(2, C.Greedy), Some(2)),
           n, 2, gc, {1, 2}, None);
    Stages(Stall.U(n, false, Help(2), C.Idle, Some(2)), Stall.U(n, false, Own, C.Act(1, C.Helping), None),
           n, 1, gc, {1}, None);
    Stages(Stall.U(n, false, Help(2), C.Idle, Some(2)), Stall.U(n, true, Own, C.Act(1, C.Helping), None),
           n, 2, gc, {1, 2}, None);
    Stages(Calm(n, Open), Stall.U(n, false, Own, C.Act(2, C.Greedy), Some(2)), n, 1, gc, {2}, None);
    hide EnvOf, EpochOf;
  }

  /** The thread of t acts for w. */
  ghost predicate ActsFor(c: C.State, t: Worker, w: Worker) {
    t in c.ws && c.ws[t].pc.Act? && c.ws[t].pc.w == w && w in EnvOf(c).stage
  }

  /** An answer; in SYNC2 the worker thereby gives up enumerating the globals. */
  lemma Answers(f: From, c: C.State, k: K.State, t: Worker, w: Worker, c': C.State, genum: set<Worker>)
    requires Reach(f, At(c, k)) && C.Next(c, C.Answer(t), c') && ActsFor(c, t, w) && c.g != Sync1
             && K.ActionDone(At(c, k).k, w)
    requires genum == if EnvOf(c).stage[w] == K.Rooting then k.genum - {w} else k.genum
    ensures Reach(f, At(c', k.(genum := genum)))
  {
    hide Reach, EnvOf, C.Next, K.ActionDone;
    Turns(f, c, k, C.Answer(t), c', k.(genum := genum));
  }

  lemma EarlyActs(f: From, k: K.State, gc: nat)
    requires Reach(f, At(A5(Sync1, gc), k)) && Interruptible(k, 2) && gc % 2 == 1
    ensures Reach(f, At(A7(Sync1, gc), k))
  {
    ANextsLast(Sync1, gc);
    StagesIn(Sync1, gc);
    hide Reach, C.Next, EnvOf;
    Shakes(f, A5(Sync1, gc), k, C.Answer(2), A6(Sync1, gc));
    Shakes(f, A6(Sync1, gc), k, C.HelpOther(2, 1), A7(Sync1, gc));
  }

  lemma EarlyEnds(f: From, k: K.State, gc: nat)
    requires Reach(f, At(A7(Sync1, gc), k)) && gc % 2 == 1
    ensures Reach(f, At(B0(Sync1, C.Begin(Sync2, 1, C.Helping), gc), k.(genum := k.genum + {1})))
  {
    ANextsLast(Sync1, gc);
    StagesIn(Sync1, gc);
    hide Reach, C.Next, EnvOf;
    Turns(f, A7(Sync1, gc), k, C.Answer(2), B0(Sync1, C.Begin(Sync2, 1, C.Helping), gc), k.(genum := k.genum + {1}));
  }

  /** SYNC1; worker 1 is to enumerate the globals. */
  lemma ToSync2(f: From, k: K.State, gc: nat, k': K.State)
    requires Reach(f, At(A0(Async, Sync1, gc), k)) && Interruptible(k, 2) && gc % 2 == 1
             && k' == k.(genum := k.genum + {1})
    ensures Reach(f, At(B0(Sync1, C.Begin(Sync2, 1, C.Helping), gc), k'))
  {
    ANexts(Async, Sync1, gc);
    hide Reach, C.Next, At, EnvOf, A5, A7, B0;
    Shakes(f, A0(Async, Sync1, gc), k, C.GlobalPhase(2), A1(Async, Sync1, gc));
    hide A0, A1;
    RoundA(f, k, Async, Sync1, gc);
    EarlyActs(f, k, gc);
    EarlyEnds(f, k, gc);
  }

  /** Worker 1 is done with SYNC2. */
  lemma RootsOne(f: From, k: K.State, gc: nat, genum: set<Worker>)
    requires Reach(f, At(B5(Sync2, gc), k)) && gc % 2 == 1 && K.ActionDone(At(B5(Sync2, gc), k).k, 1)
    requires genum == k.genum - {1}
    ensures Reach(f, At(B7(Sync2, gc), k.(genum := genum)))
  {
    BNextsMore(Sync1, Sync2, gc);
    BNextsLast(Sync2, Mark, gc);
    StagesIn(Sync2, gc);
    hide Reach, C.Next, EnvOf, K.ActionDone;
    Answers(f, B5(Sync2, gc), k, 2, 1, B6(Sync2, gc), genum);
    Shakes(f, B6(Sync2, gc), k.(genum := genum), C.ReleaseOther(2), B7(Sync2, gc));
  }

  /** Worker 2 begins with it. */
  lemma RootsNext(f: From, k: K.State, gc: nat)
    requires Reach(f, At(B7(Sync2, gc), k)) && Interruptible(k, 2) && gc % 2 == 1
    ensures Reach(f, At(B8(Sync2, gc), k))
  {
    BNextsLast(Sync2, Mark, gc);
    hide Reach, C.Next, EnvOf;
    Shakes(f, B7(Sync2, gc), k, C.Check(2), B8(Sync2, gc));
  }

  /** It is done with SYNC2 as well. */
  lemma RootsTwo(f: From, k: K.State, gc: nat)
    requires Reach(f, At(B8(Sync2, gc), k)) && gc % 2 == 1 && k.genum == {} && K.ActionDone(At(B8(Sync2, gc), k).k, 2)
    ensures Reach(f, At(A0(Sync2, Mark, gc), k))
  {
    BNextsLast(Sync2, Mark, gc);
    StagesIn(Sync2, gc);
    assert k.(genum := {}) == k;
    hide Reach, C.Next, EnvOf, K.ActionDone;
    Answers(f, B8(Sync2, gc), k, 2, 2, A0(Sync2, Mark, gc), {});
  }

  /** Having nothing to trace, worker 2 is done with MARK. */
  lemma TracesTwo(f: From, k: K.State, gc: nat)
    requires Reach(f, At(A1(Sync2, Mark, gc), k)) && gc % 2 == 1 && k.genum == {} && K.NoLinks(k.heap, 2)
    ensures Reach(f, At(A6(Mark, gc), k))
  {
    RoundA(f, k, Sync2, Mark, gc);
    ANextsLast(Mark, gc);
    StagesIn(Mark, gc);
    assert k.(genum := {}) == k;
    hide Reach, C.Next, EnvOf, K.NoLinks;
    Answers(f, A5(Mark, gc), k, 2, 2, A6(Mark, gc), {});
  }

  /** Both at once. */
  lemma ToMarkPending(f: From, k: K.State, gc: nat)
    requires Reach(f, At(B8(Sync2, gc), k)) && gc % 2 == 1 && k.genum == {} && K.ActionDone(At(B8(Sync2, gc), k).k, 2)
             && K.NoLinks(k.heap, 2)
    ensures Reach(f, At(A6(Mark, gc), k))
  {
    ANexts(Sync2, Mark, gc);
    hide Reach, C.Next, EnvOf, K.NoLinks, K.ActionDone, At, B8, A6;
    RootsTwo(f, k, gc);
    Shakes(f, A0(Sync2, Mark, gc), k, C.GlobalPhase(2), A1(Sync2, Mark, gc));
    TracesTwo(f, k, gc);
  }

  ghost predicate NothingRemembered(h: Heap) { !K.HasRemembered(h, 1) && !K.HasRemembered(h, 2) }

  /** One pass over the remembered sets. */
  lemma Scans(f: From, c: C.State, k: K.State, n: nat, done: K.Scan)
    requires Reach(f, At(c, k)) && k.scan == K.Pass(n, {1, 2}, {1, 2}) && NothingRemembered(k.heap)
             && LeaderPc(c).Finish?
    requires done == K.Pass(n, {}, {1, 2})
    ensures Reach(f, At(c, k.(scan := done)))
  {
    hide Reach, K.HasRemembered, LeaderPc, EnvOf;
    assert {1, 2} - {1} == {2} && {2} - {2} == {};
    Goes(f, c, k, K.ScanOne(1), k.(scan := K.Pass(n, {2}, {1, 2})));
    Goes(f, c, k.(scan := K.Pass(n, {2}, {1, 2})), K.ScanOne(2), k.(scan := done));
  }

  /** sml_heap_mark_finish finds all remembered sets empty, twice, and ASYNC is next. */
  lemma Finishes(f: From, c: C.State, k: K.State, t: Worker, c': C.State)
    requires Reach(f, At(c, k)) && k.scan == K.Off && NothingRemembered(k.heap) && LeaderPc(c).Finish?
             && C.Next(c, C.Decide(t, true), c')
    requires f.flaw.Haste? || (Quiet(k) && AllFree(k.heap))
    requires EnvOf(c) == K.Env(K.OnMark, map[1 := K.Traced, 2 := K.Traced]) == EnvOf(c')
    ensures Reach(f, At(c', k.(scan := K.Passed)))
  {
    hide Reach, K.HasRemembered, LeaderPc, EnvOf, C.Next;
    assert EnvOf(c).stage.Keys == {1, 2};
    Goes(f, c, k, K.ScanStart, k.(scan := K.Pass(1, {1, 2}, {1, 2})));
    hide K.CollectorStep, At;
    Scans(f, c, k.(scan := K.Pass(1, {1, 2}, {1, 2})), 1, K.Pass(1, {}, {1, 2}));
    Again(f, c, k.(scan := K.Pass(1, {}, {1, 2})), k.(scan := K.Pass(2, {1, 2}, {1, 2})));
    Scans(f, c, k.(scan := K.Pass(2, {1, 2}, {1, 2})), 2, K.Pass(2, {}, {1, 2}));
    Decides(f, c, k.(scan := K.Pass(2, {}, {1, 2})), t, c', k.(scan := K.Passed));
  }

  lemma Again(f: From, c: C.State, k: K.State, k': K.State)
    requires Reach(f, At(c, k)) && k.scan == K.Pass(1, {}, {1, 2}) && LeaderPc(c).Finish?
             && k' == k.(scan := K.Pass(2, {1, 2}, {1, 2}))
    ensures Reach(f, At(c, k'))
  {
    hide Reach, LeaderPc, EnvOf;
    Goes(f, c, k, K.ScanPass, k');
  }

  lemma Decides(f: From, c: C.State, k: K.State, t: Worker, c': C.State, k': K.State)
    requires Reach(f, At(c, k)) && k.scan == K.Pass(2, {}, {1, 2}) && C.Next(c, C.Decide(t, true), c')
    requires EnvOf(c).stage.Keys == {1, 2} && EnvOf(c') == EnvOf(c) && k' == k.(scan := K.Passed)
    requires f.flaw.Haste? || (Quiet(k) && AllFree(k.heap))
    ensures Reach(f, At(c', k'))
  {
    hide Reach, EnvOf, C.Next;
    Extend(f, At(c, k), Handshake(C.Decide(t, true)), At(c', k'));
  }

  /** Worker 1 is done with SYNC2 and its thread runs ML code; worker 2 has not begun. */
  function B7Own(): C.State {
    Stall.Two(Calm(Sync2, Own), Stall.U(Sync2, true, Own, C.Idle, None), Sync2, 1, 1, {2}, None)
  }

  lemma OwnNexts()
    ensures C.Next(B7(Sync2, 1), C.Enter(1), B7Own()) && C.Next(B7Own(), C.Leave(1), B7(Sync2, 1))
    ensures EnvOf(B7Own()) == K.Env(K.OnSync2, map[1 := K.Rooted, 2 := K.Early]) && C.IdleOwner(B7Own(), 1)
  {
    Stall.SmallSets();
  }

  // ---------------------------------------------------------------- rounds that worker 1 leads as it leaves ML code

  // Worker 1 enters ML code, leaves it, and is the last to answer.

  function M1(n: Signal): C.State { Stall.Two(Stall.U(n, true, Own, C.Idle, None), Calm(n, Own), n, 1, 1, {1}, None) }

  function M2(n: Signal): C.State {
    Stall.Two(Stall.U(n, false, Open, C.Act(1, C.Leaving), Some(1)), Calm(n, Own), n, 1, 1, {1}, None)
  }

  function M3(n: Signal, pc: C.Pc): C.State {
    Stall.Two(Stall.U(n, false, Open, pc, None), Calm(n, Own), n, 0, 1, {}, Some(1))
  }

  // It has sent ASYNC to itself, and worker 2 helps it.

  function M5(): C.State {
    Stall.Two(Stall.U(Mark, false, Open, C.Switching(Mark, {1, 2}, 0, 1, C.Leaving), None), Calm(Mark, Own),
              Async, 0, 1, {}, Some(1))
  }

  function Sending(lock: Lock, pre: bool, runner: Option<Worker>): C.Unit {
    Stall.U(Async, pre, lock, C.Switching(Mark, {2}, 1, 1, C.Leaving), runner)
  }

  function M6(): C.State { Stall.Two(Sending(Open, true, None), Calm(Mark, Own), Async, 0, 1, {1}, Some(1)) }

  function M7(): C.State {
    Stall.Two(Sending(Help(2), false, Some(2)), Stall.U(Mark, false, Own, C.Act(1, C.Helping), None),
              Async, 0, 1, {1}, Some(1))
  }

  lemma MNexts(n: Signal)
    ensures C.Next(A6(n, 1), C.Enter(1), M1(n)) && C.Next(M1(n), C.Leave(1), M2(n))
    ensures C.Next(M2(n), C.Answer(1), M3(n, C.Elected(n, 1, C.Leaving)))
  {
    Stall.SmallSets();
  }

  lemma MDecides()
    ensures C.Next(M3(Mark, C.Finish(1, C.Leaving)), C.Decide(1, true), M3(Mark, C.Begin(Async, 1, C.Leaving)))
  {
    Stall.SmallSets();
  }

  lemma MNextsOn()
    ensures C.Next(M3(Mark, C.Begin(Async, 1, C.Leaving)), C.GlobalPhase(1), M5())
            && C.Next(M5(), C.SwitchOne(1, 1, false), M6())
    ensures C.Next(M6(), C.HelpOther(2, 1), M7())
  {
    Stall.SmallSets();
  }

  lemma MStages()
    ensures EnvOf(M1(Mark)) == K.Env(K.OnMark, map[1 := K.MarkPending, 2 := K.Traced])
    ensures EnvOf(M2(Mark)) == K.Env(K.OnMark, map[1 := K.Tracing, 2 := K.Traced])
    ensures forall pc: C.Pc :: EnvOf(M3(Mark, pc)) == K.Env(K.OnMark, map[1 := K.Traced, 2 := K.Traced])
    ensures EnvOf(M5()) == K.Env(K.OnSweep, map[1 := K.Traced, 2 := K.Traced])
    ensures EnvOf(M7()) == K.Env(K.OnSweep, map[1 := K.Sweeping, 2 := K.Traced])
  {
  }

  // ---------------------------------------------------------------- heaps and users

  /** The global variable holds v; its slot has been enumerated when k is 1. */
  function Global(v: Ptr, k: nat): Object { Object([v], New, Static(k), 0, false) }

  function G(v: Ptr, k: nat): Heap { map[STATIC := Global(v, k)] }

  function Still(h: Heap): K.State { K.State(K.Env(K.Rest, map[]), h, map[], map[], {}, K.Off) }

  function One(u: K.Uid, x: K.User): map<K.Uid, K.User> { map[u := x] }

  lemma Users(u: K.Uid, x: K.User, y: K.User)
    ensures One(u, x)[u := y] == One(u, y) && One(u, x) - {u} == map[] && One(u, x).Keys == {u}
            && map[][u := x] == One(u, x)
  {
  }

  function Busy(u: K.Uid, x: K.User, w: Worker, h: Heap): K.State {
    K.State(K.Env(K.Rest, map[]), h, One(u, x), map[w := K.Running(u)], {}, K.Off)
  }

  function Resting(u: K.Uid, x: K.User, h: Heap): K.State {
    K.State(K.Env(K.Rest, map[]), h, One(u, x), map[], {}, K.Off)
  }

  /** The thread of w can go on. */
  ghost predicate Free(c: C.State, w: Worker) {
    C.IdleOwner(c, w) && w in EnvOf(c).stage && !K.Acting(EnvOf(c).stage[w])
  }

  /** The thread of w runs ML code for u. */
  ghost predicate RunsFor(c: C.State, k: K.State, w: Worker, u: K.Uid) {
    Free(c, w) && w in k.task && k.task[w] == K.Running(u) && u in k.users
  }

  lemma Starts(f: From, c: C.State, k: K.State, w: Worker, u: K.Uid, x: K.User, k': K.State)
    requires Reach(f, At(c, k)) && Free(c, w) && w !in k.task && u !in k.users && forall v <- k.task :: k.task[v].u != u
    requires x == K.User(w, {}, !K.AllocatesTargets(EnvOf(c).stage[w]), K.NoWalk)
    requires k' == k.(users := k.users[u := x], task := k.task[w := K.Running(u)])
    ensures Reach(f, At(c, k'))
  {
    hide Reach, EnvOf, C.IdleOwner, K.AllocatesTargets;
    Schedules(f, c, k, K.StartUser(w, u), k');
  }

  lemma Resumes(f: From, c: C.State, k: K.State, w: Worker, u: K.Uid, k': K.State)
    requires Reach(f, At(c, k)) && Free(c, w) && w !in k.task && u in k.users && forall v <- k.task :: k.task[v].u != u
    requires k.users[u].home == w && k' == k.(task := k.task[w := K.Running(u)])
    ensures Reach(f, At(c, k'))
  {
    hide Reach, EnvOf, C.IdleOwner;
    Schedules(f, c, k, K.Resume(w, u), k');
  }

  lemma Quits(f: From, c: C.State, k: K.State, w: Worker, u: K.Uid, k': K.State)
    requires Reach(f, At(c, k)) && RunsFor(c, k, w, u) && k' == k.(task := k.task - {w})
    ensures Reach(f, At(c, k'))
  {
    hide Reach, EnvOf, C.IdleOwner;
    Schedules(f, c, k, K.Quit(w), k');
  }

  lemma Loads(f: From, c: C.State, k: K.State, w: Worker, u: K.Uid, o: Ptr, i: nat, k': K.State)
    requires Reach(f, At(c, k)) && RunsFor(c, k, w, u) && (o == STATIC || o in k.users[u].roots)
    requires o in k.heap && i < |k.heap[o].fields|
    requires k' == k.(users := k.users[u := k.users[u].(roots := k.users[u].roots + {k.heap[o].fields[i]})])
    ensures Reach(f, At(c, k'))
  {
    hide Reach, EnvOf, C.IdleOwner;
    Computes(f, c, k, K.Load(w, o, i), k');
  }

  lemma Drops(f: From, c: C.State, k: K.State, w: Worker, u: K.Uid, keep: set<Ptr>, k': K.State)
    requires Reach(f, At(c, k)) && RunsFor(c, k, w, u)
    requires k' == k.(users := k.users[u := k.users[u].(roots := k.users[u].roots * keep)])
    ensures Reach(f, At(c, k'))
  {
    hide Reach, EnvOf, C.IdleOwner;
    Computes(f, c, k, K.DropRoots(w, keep), k');
  }

  lemma Allocs(f: From, c: C.State, k: K.State, w: Worker, u: K.Uid, p: Ptr, x: Object, k': K.State)
    requires Reach(f, At(c, k)) && RunsFor(c, k, w, u) && p > 0 && p !in k.heap
    requires forall v <- x.fields :: v == 0 || v in k.users[u].roots
    requires var g := EnvOf(c).stage[w];
             x == Object(x.fields, if K.AllocatesTargets(g) then White else New, Link.Free, w,
                         EnvOf(c).epoch.OnSweep? && g == K.Plain)
    requires k' == k.(users := k.users[u := k.users[u].(roots := k.users[u].roots + {p})], heap := k.heap[p := x])
    ensures Reach(f, At(c, k'))
  {
    hide Reach, EnvOf, C.IdleOwner, K.AllocatesTargets;
    Computes(f, c, k, K.Alloc(w, p, x.fields), k');
  }

  /** The thread of w is in the middle of the write t. */
  ghost predicate WritesFor(c: C.State, k: K.State, w: Worker, t: K.Task) {
    Free(c, w) && w in k.task && k.task[w] == t && t.Writing? && t.u in k.users
  }

  lemma Reads(f: From, c: C.State, k: K.State, w: Worker, u: K.Uid, o: Ptr, i: nat, v: Ptr, k': K.State)
    requires Reach(f, At(c, k)) && RunsFor(c, k, w, u) && !f.flaw.Skipping?
    requires (o == STATIC || o in k.users[u].roots) && (v == 0 || v in k.users[u].roots)
    requires o in k.heap && i < |k.heap[o].fields|
    requires k' == k.(task := k.task[w := K.Writing(u, o, i, v, k.heap[o].fields[i], false, None)])
    ensures Reach(f, At(c, k'))
  {
    hide Reach, EnvOf, C.IdleOwner;
    Steps(f, c, k, K.Read(w, o, i, v), k');
  }

  lemma Looks(f: From, c: C.State, k: K.State, w: Worker, t: K.Task, k': K.State)
    requires Reach(f, At(c, k)) && WritesFor(c, k, w, t) && t.todo.None?
    requires k' == k.(task := k.task[w := t.(todo := Some(K.ToRemember(EnvOf(c).stage[w], t.v, t.was)))])
    ensures Reach(f, At(c, k'))
  {
    hide Reach, EnvOf, C.IdleOwner, K.ToRemember;
    Steps(f, c, k, K.Look(w), k');
  }

  lemma Tests(f: From, c: C.State, k: K.State, w: Worker, t: K.Task, p: Ptr, l: seq<Ptr>, k': K.State)
    requires Reach(f, At(c, k)) && WritesFor(c, k, w, t) && t.todo == Some([p] + l) && !K.HasPending(k.heap, w)
    requires !f.flaw.Skipping? && (f.flaw.Staleness? || !EnvOf(c).epoch.OnSweep?)
    requires k' == k.(heap := Visit(k.heap, p, Pending(w)), task := k.task[w := t.(todo := Some(l))])
    ensures Reach(f, At(c, k'))
  {
    assert ([p] + l)[0] == p && ([p] + l)[1..] == l;
    hide Reach, EnvOf, C.IdleOwner, K.HasPending, Visit;
    Steps(f, c, k, K.Remember(w), k');
  }

  lemma Pushes(f: From, c: C.State, k: K.State, w: Worker, t: K.Task, k': K.State)
    requires Reach(f, At(c, k)) && WritesFor(c, k, w, t) && K.HasPending(k.heap, w)
    requires k' == k.(heap := Take(k.heap, Pending(w), Remembered(w)))
    ensures Reach(f, At(c, k'))
  {
    hide Reach, EnvOf, C.IdleOwner, K.HasPending, Take;
    Steps(f, c, k, K.Push(w), k');
  }

  lemma StoresIt(f: From, c: C.State, k: K.State, w: Worker, t: K.Task, k': K.State)
    requires Reach(f, At(c, k)) && WritesFor(c, k, w, t) && t.todo == Some([]) && !t.stored
    requires !K.HasPending(k.heap, w) && t.o in k.heap && t.k < |k.heap[t.o].fields|
    requires k' == k.(heap := SetField(k.heap, t.o, t.k, t.v), task := k.task[w := K.Running(t.u)])
    ensures Reach(f, At(c, k'))
  {
    hide Reach, EnvOf, K.HasPending, SetField, C.IdleOwner;
    Steps(f, c, k, K.Store(w), k');
  }

  /** What is not white is remembered for nothing. */
  lemma {:induction false} Remembers(f: From, c: C.State, k: K.State, w: Worker, t: K.Task, l: seq<Ptr>)
    requires Reach(f, At(c, k)) && WritesFor(c, k, w, t) && t.todo == Some(l)
    requires !f.flaw.Skipping? && (f.flaw.Staleness? || !EnvOf(c).epoch.OnSweep?)
    requires !K.HasPending(k.heap, w) && forall p :: p in l ==> !IsWhite(k.heap, p)
    ensures Reach(f, At(c, k.(task := k.task[w := t.(todo := Some([]))])))
    decreases |l|
  {
    if l == [] {
      assert k.task[w := t.(todo := Some([]))] == k.task;
    } else {
      var t' := t.(todo := Some(l[1..]));
      var k' := k.(task := k.task[w := t']);
      assert l[0] in l && l == [l[0]] + l[1..];
      hide Reach, EnvOf, K.HasPending, C.IdleOwner, At, Free;
      Tests(f, c, k, w, t, l[0], l[1..], k');
      assert k'.task[w := t.(todo := Some([]))] == k.task[w := t.(todo := Some([]))];
      Remembers(f, c, k', w, t', l[1..]);
    }
  }

  predicate NothingToMark(h: Heap, g: K.Stage, v: Ptr, was: Ptr) {
    (K.InsertionBarrier(g) ==> !IsWhite(h, v)) && (K.DeletionBarrier(g) ==> !IsWhite(h, was))
  }

  lemma ToRememberIs(g: K.Stage, v: Ptr, was: Ptr)
    ensures forall p :: p in K.ToRemember(g, v, was) ==>
              (p == v && K.InsertionBarrier(g)) || (p == was && K.DeletionBarrier(g))
  {
  }

  /** A write that has read the slot, to its end: there is nothing left to be marked. */
  lemma WritesOn(f: From, c: C.State, k: K.State, w: Worker, t: K.Task, k': K.State)
    requires Reach(f, At(c, k)) && WritesFor(c, k, w, t) && t.todo.None? && !t.stored
    requires !f.flaw.Skipping? && (f.flaw.Staleness? || !EnvOf(c).epoch.OnSweep?)
    requires !K.HasPending(k.heap, w) && NothingToMark(k.heap, EnvOf(c).stage[w], t.v, t.was)
    requires t.o in k.heap && t.k < |k.heap[t.o].fields|
    requires k' == k.(heap := SetField(k.heap, t.o, t.k, t.v), task := k.task[w := K.Running(t.u)])
    ensures Reach(f, At(c, k'))
  {
    var l := K.ToRemember(EnvOf(c).stage[w], t.v, t.was);
    ToRememberIs(EnvOf(c).stage[w], t.v, t.was);
    var t1, t2 := t.(todo := Some(l)), t.(todo := Some([]));
    var k1 := k.(task := k.task[w := t1]);
    var k2 := k1.(task := k1.task[w := t2]);
    assert k2.task[w := K.Running(t.u)] == k.task[w := K.Running(t.u)];
    hide Reach, EnvOf, K.HasPending, SetField, C.IdleOwner, At, K.ToRemember, Free;
    Looks(f, c, k, w, t, k1);
    Remembers(f, c, k1, w, t1, l);
    StoresIt(f, c, k2, w, t2, k');
  }

  /** A whole write that marks nothing. */
  lemma WritesAll(f: From, c: C.State, k: K.State, w: Worker, u: K.Uid, o: Ptr, i: nat, v: Ptr, k': K.State)
    requires Reach(f, At(c, k)) && RunsFor(c, k, w, u)
    requires !f.flaw.Skipping? && (f.flaw.Staleness? || !EnvOf(c).epoch.OnSweep?)
    requires (o == STATIC || o in k.users[u].roots) && (v == 0 || v in k.users[u].roots)
    requires o in k.heap && i < |k.heap[o].fields|
    requires !K.HasPending(k.heap, w) && NothingToMark(k.heap, EnvOf(c).stage[w], v, k.heap[o].fields[i])
    requires k' == k.(heap := SetField(k.heap, o, i, v))
    ensures Reach(f, At(c, k'))
  {
    var t := K.Writing(u, o, i, v, k.heap[o].fields[i], false, None);
    var k1 := k.(task := k.task[w := t]);
    assert k1.task[w := K.Running(u)] == k.task;
    hide Reach, EnvOf, K.HasPending, SetField, C.IdleOwner, At, Free;
    Reads(f, c, k, w, u, o, i, v, k1);
    WritesOn(f, c, k1, w, t, k');
  }

  /** A user leaves ML code. */
  lemma Leaves(f: From, c: C.State, u: K.Uid, x: K.User, w: Worker, h: Heap)
    requires Reach(f, At(c, Busy(u, x, w, h))) && C.IdleOwner(c, w)
    requires w in EnvOf(c).stage && !K.Acting(EnvOf(c).stage[w])
    ensures Reach(f, At(c, Resting(u, x, h)))
  {
    assert map[w := K.Running(u)] - {w} == map[];
    hide Reach, EnvOf, C.IdleOwner;
    Schedules(f, c, Busy(u, x, w, h), K.Quit(w), Resting(u, x, h));
  }

  /** The action of SYNC2 enumerates a stack with one pointer on it. */
  lemma Walks(f: From, c: C.State, k: K.State, w: Worker, u: K.Uid, p: Ptr, k': K.State)
    requires Reach(f, At(c, k)) && w in EnvOf(c).stage && EnvOf(c).stage[w] == K.Rooting && !f.flaw.Skipping?
    requires u in k.users && k.users[u] == K.User(w, {p}, false, K.NoWalk)
    requires k' == k.(heap := Visit(k.heap, p, Roots(w)), users := k.users[u := K.User(w, {p}, true, K.NoWalk)])
    ensures Reach(f, At(c, k'))
  {
    var x := k.users[u];
    var k1 := k.(users := k.users[u := x.(walk := K.Walk(w, {p}))]);
    var k2 := k.(heap := Visit(k.heap, p, Roots(w)), users := k.users[u := x.(walk := K.Walk(w, {}))]);
    hide Reach, EnvOf, Visit;
    Collects(f, c, k, K.WalkLock(w, u), k1);
    hide K.CollectorStep, At;
    WalksOn(f, c, k1, w, u, p, k2);
    WalksOff(f, c, k2, w, u, p, k');
  }

  lemma WalksOn(f: From, c: C.State, k: K.State, w: Worker, u: K.Uid, p: Ptr, k': K.State)
    requires Reach(f, At(c, k)) && !f.flaw.Skipping?
    requires u in k.users && k.users[u] == K.User(w, {p}, false, K.Walk(w, {p}))
    requires k' == k.(heap := Visit(k.heap, p, Roots(w)),
                      users := k.users[u := K.User(w, {p}, false, K.Walk(w, {}))])
    ensures Reach(f, At(c, k'))
  {
    assert {p} - {p} == {};
    hide Reach, EnvOf, Visit;
    Collects(f, c, k, K.WalkRoot(u, p), k');
  }

  lemma WalksOff(f: From, c: C.State, k: K.State, w: Worker, u: K.Uid, p: Ptr, k': K.State)
    requires Reach(f, At(c, k)) && !f.flaw.Skipping?
    requires u in k.users && k.users[u] == K.User(w, {p}, false, K.Walk(w, {}))
    requires k' == k.(users := k.users[u := K.User(w, {p}, true, K.NoWalk)])
    ensures Reach(f, At(c, k'))
  {
    hide Reach, EnvOf;
    Collects(f, c, k, K.WalkDone(u), k');
  }

  // ---------------------------------------------------------------- phases of a collection

  /** The state in which every run begins. */
  const START: State := At(C.INIT, Still(G(0, 0)))

  lemma StartsRuns()
    ensures Init(START)
  {
    assert EnvOf(C.INIT) == K.Env(K.Rest, map[]);
  }

  /** What such a run is, seen from outside. */
  lemma IsARun(f: From, ss: seq<State>, ls: seq<Step>)
    requires Fragment(f, ss, ls) && f.start == START
    ensures IsRun(ss, ls)
    ensures forall i :: 0 <= i < |ls| && Breaks(ss[i], ls[i]) ==>
              match f.flaw
              case Staleness => ls[i].Thread? && W.Stale(ss[i].k, ls[i].l)
              case Skipping => ls[i].Thread? && S.Skips(ss[i].k, ls[i].l)
              case Tearing =>
                ls[i].Handshake? && !ls[i].h.Decide? && S.Torn(ss[i].k, K.Shake(EnvStepOf(ss[i].c, ls[i].h)))
              case Haste => ls[i].Handshake? && ls[i].h.Decide? && S.Hasty(ss[i].k, K.ScanEnd(ls[i].h.finished))
  {
    StartsRuns();
    hide Init, START, Allowed, Breaks, S.Torn, S.Hasty, W.Stale, S.Skips, EnvStepOf;
    forall i | 0 <= i < |ls| && Breaks(ss[i], ls[i]) ensures ls[i].Thread? ==> !ls[i].l.Shake? && !ls[i].l.ScanEnd? {
      assert Next(ss[i], ls[i], ss[i + 1]);
    }
    hide Next;
    forall i | 0 <= i < |ls| && Breaks(ss[i], ls[i])
      ensures match f.flaw
              case Staleness => ls[i].Thread? && W.Stale(ss[i].k, ls[i].l)
              case Skipping => ls[i].Thread? && S.Skips(ss[i].k, ls[i].l)
              case Tearing =>
                ls[i].Handshake? && !ls[i].h.Decide? && S.Torn(ss[i].k, K.Shake(EnvStepOf(ss[i].c, ls[i].h)))
              case Haste => ls[i].Handshake? && ls[i].h.Decide? && S.Hasty(ss[i].k, K.ScanEnd(ls[i].h.finished))
    {
      OnlyThisFlaw(f, ss[i], ls[i]);
    }
  }

  /** A run to the last state and one step more. */
  lemma OneMore(f: From, last: State, l: Step, s': State) returns (ss: seq<State>, ls: seq<Step>)
    requires Reach(f, last) && Next(last, l, s') && Allowed(f, last, l)
    ensures |ss| == |ls| + 1 && |ls| > 0 && Fragment(f, ss, ls) && ss[|ls| - 1] == last && ss[|ls|] == s'
            && ls[|ls| - 1] == l
  {
    hide Next, Allowed;
    var rs: seq<State>, ks: seq<Step> :| Fragment(f, rs, ks) && rs[|ks|] == last;
    ss, ls := rs + [s'], ks + [l];
  }

  lemma Registers(f: From)
    requires f.start == START
    ensures Reach(f, At(Rest(0), Still(G(0, 0))))
  {
    var c1 := C.State(map[1 := Calm(Async, Own)], Async, 0, 0, {1}, {}, None);
    var c2 := Stall.Two(Calm(Async, Own), Calm(Async, Own), Async, 0, 0, {}, None);
    FirstNexts(c1, c2);
    AtStart(f);
    hide Reach, Init, C.Next, EnvOf;
    Shakes(f, C.INIT, Still(G(0, 0)), C.Register(1), c1);
    Shakes(f, c1, Still(G(0, 0)), C.Register(2), c2);
    Shakes(f, c2, Still(G(0, 0)), C.Leave(1), Rest(0));
  }

  lemma FirstNexts(c1: C.State, c2: C.State)
    requires c1 == C.State(map[1 := Calm(Async, Own)], Async, 0, 0, {1}, {}, None)
    requires c2 == Stall.Two(Calm(Async, Own), Calm(Async, Own), Async, 0, 0, {}, None)
    ensures C.Next(C.INIT, C.Register(1), c1) && C.Next(c1, C.Register(2), c2) && C.Next(c2, C.Leave(1), Rest(0))
  {
    Stall.SmallSets();
  }

  lemma Begin(f: From, k: K.State, gc: nat, k': K.State)
    requires Reach(f, At(Rest(gc), k)) && gc % 2 == 0 && Interruptible(k, 2)
    requires k' == k.(users := K.Unsettled(k.users), heap := K.Restart(k.heap))
    ensures Reach(f, At(A0(Async, Sync1, gc + 1), k'))
  {
    Stall.SmallSets();
    assert C.Next(Rest(gc), C.Start(2, true), A0(Async, Sync1, gc + 1));
    hide Reach, C.Next, EnvOf, K.Unsettled, K.Restart;
    Turns(f, Rest(gc), k, C.Start(2, true), A0(Async, Sync1, gc + 1), k');
  }

  /** The global variable is enumerated. */
  lemma WalksStatic(f: From, k: K.State, gc: nat, v: Ptr, h: Heap)
    requires Reach(f, At(B5(Sync2, gc), k)) && k.genum == {1} && gc % 2 == 1
    requires STATIC in k.heap && k.heap[STATIC] == Global(v, 0)
    requires h == Relink(Visit(k.heap, v, Roots(1)), STATIC, Static(1))
    ensures Reach(f, At(B5(Sync2, gc), k.(heap := h)))
  {
    StagesIn(Sync2, gc);
    hide Reach, EnvOf;
    Collects(f, B5(Sync2, gc), k, K.WalkStatic(1), k.(heap := h));
  }

  lemma RootingDone(k: K.State, gc: nat, v: Ptr)
    requires k.genum == {1} && gc % 2 == 1 && (forall u <- k.users :: k.users[u].home != 1)
    requires STATIC in k.heap && k.heap[STATIC] == Global(v, 1)
    ensures K.ActionDone(At(B5(Sync2, gc), k).k, 1)
  {
    StagesIn(Sync2, gc);
    hide EnvOf;
  }

  lemma RootingTwoDone(k: K.State, gc: nat)
    requires k.genum == {} && gc % 2 == 1 && (forall u <- k.users :: k.users[u].settled)
    ensures K.ActionDone(At(B8(Sync2, gc), k).k, 2)
  {
    StagesIn(Sync2, gc);
    hide EnvOf;
  }

  /** SYNC2 of worker 1, which has no users. */
  lemma EnumeratesStatic(f: From, k: K.State, gc: nat, v: Ptr, h: Heap)
    requires Reach(f, At(B5(Sync2, gc), k)) && k.genum == {1} && gc % 2 == 1
             && (forall u <- k.users :: k.users[u].home != 1)
    requires STATIC in k.heap && k.heap[STATIC] == Global(v, 0)
    requires h == Relink(Visit(k.heap, v, Roots(1)), STATIC, Static(1))
    ensures Reach(f, At(B7(Sync2, gc), k.(heap := h, genum := {})))
  {
    WalksStatic(f, k, gc, v, h);
    var k' := k.(heap := h);
    RootingDone(k', gc, v);
    hide Reach, At, K.ActionDone, Relink;
    assert k'.genum - {1} == {};
    RootsOne(f, k', gc, {});
  }

  /** SYNC2 is published, and worker 1, which has no users, is done with it. */
  lemma ToRooted(f: From, k: K.State, gc: nat, v: Ptr, h: Heap)
    requires Reach(f, At(B1(Sync1, Sync2, gc), k)) && k.genum == {1} && gc % 2 == 1
             && (forall u <- k.users :: k.users[u].home != 1)
    requires STATIC in k.heap && k.heap[STATIC] == Global(v, 0)
    requires h == Relink(Visit(k.heap, v, Roots(1)), STATIC, Static(1))
    ensures Reach(f, At(B7(Sync2, gc), k.(heap := h, genum := {})))
  {
    hide Reach, At, B1, B5, B7, Relink;
    RoundB(f, k, Sync1, Sync2, gc);
    EnumeratesStatic(f, k, gc, v, h);
  }

  /** The same from the start of the collection, and worker 2 begins with SYNC2. */
  lemma ToRootingTwo(f: From, k: K.State, gc: nat, v: Ptr, h: Heap, k': K.State)
    requires Reach(f, At(A0(Async, Sync1, gc), k)) && k.genum == {} && gc % 2 == 1 && Interruptible(k, 2) && Quiet(k)
    requires forall u <- k.users :: k.users[u].home != 1
    requires STATIC in k.heap && k.heap[STATIC] == Global(v, 0)
    requires h == Relink(Visit(k.heap, v, Roots(1)), STATIC, Static(1))
    requires k' == k.(heap := h)
    ensures Reach(f, At(B8(Sync2, gc), k'))
  {
    var k1 := k.(genum := {1});
    BNexts(Sync1, Sync2, gc);
    assert k.genum + {1} == {1} && k1.(heap := h, genum := {}) == k';
    hide Reach, C.Next, At, A0, B1, B7, B8, Relink, EnvOf, Quiet, Visit;
    ToSync2(f, k, gc, k1);
    Shakes(f, B0(Sync1, C.Begin(Sync2, 1, C.Helping), gc), k1, C.GlobalPhase(2), B1(Sync1, Sync2, gc));
    hide B0;
    ToRooted(f, k1, gc, v, h);
    RootsNext(f, k', gc);
  }

  lemma FinishNexts(gc: nat)
    requires gc % 2 == 1
    ensures C.Next(B0(Mark, C.Finish(1, C.Helping), gc), C.Decide(2, true), B0(Mark, C.Begin(Async, 1, C.Helping), gc))
    ensures forall pc: C.Pc :: EnvOf(B0(Mark, pc, gc)) == K.Env(K.OnMark, map[1 := K.Traced, 2 := K.Traced])
  {
    Stall.SmallSets();
  }

  /** Worker 2 answers MARK for worker 1 as well, and there is nothing to trace. */
  lemma TracesOne(f: From, k: K.State, gc: nat)
    requires gc % 2 == 1 && Reach(f, At(A6(Mark, gc), k)) && Interruptible(k, 2) && k.genum == {}
             && K.NoLinks(k.heap, 1)
    ensures Reach(f, At(B0(Mark, C.Finish(1, C.Helping), gc), k))
  {
    ANextsLast(Mark, gc);
    hide Reach, C.Next, EnvOf, K.NoLinks;
    Shakes(f, A6(Mark, gc), k, C.HelpOther(2, 1), A7(Mark, gc));
    TracesOneEnd(f, k, gc);
  }

  lemma TracesOneEnd(f: From, k: K.State, gc: nat)
    requires gc % 2 == 1 && Reach(f, At(A7(Mark, gc), k)) && k.genum == {} && K.NoLinks(k.heap, 1)
    ensures Reach(f, At(B0(Mark, C.Finish(1, C.Helping), gc), k))
  {
    ANextsLast(Mark, gc);
    StagesIn(Mark, gc);
    hide EnvOf, C.Next, K.NoLinks;
    assert k.(genum := {}) == k;
    hide Reach;
    Answers(f, A7(Mark, gc), k, 2, 1, B0(Mark, C.Finish(1, C.Helping), gc), {});
  }

  /** All remembered sets are empty, and ASYNC is published. */
  lemma ToSending(f: From, k: K.State, gc: nat, k': K.State)
    requires gc % 2 == 1 && Reach(f, At(B0(Mark, C.Finish(1, C.Helping), gc), k)) && k.scan == K.Off
    requires Quiet(k) && AllFree(k.heap) && NothingRemembered(k.heap)
    requires k' == k.(heap := K.Unswept(k.heap))
    ensures Reach(f, At(B1(Mark, Async, gc), k'))
  {
    FinishNexts(gc);
    hide Reach, C.Next, EnvOf, NothingRemembered, K.Unswept, Quiet, AllFree;
    Finishes(f, B0(Mark, C.Finish(1, C.Helping), gc), k, 2, B0(Mark, C.Begin(Async, 1, C.Helping), gc));
    hide B0, B1, At;
    Published(f, k.(scan := K.Passed), gc, k');
  }

  lemma Published(f: From, k: K.State, gc: nat, k': K.State)
    requires gc % 2 == 1 && Reach(f, At(B0(Mark, C.Begin(Async, 1, C.Helping), gc), k))
    requires k' == k.(heap := K.Unswept(k.heap), scan := K.Off)
    ensures Reach(f, At(B1(Mark, Async, gc), k'))
  {
    BNexts(Mark, Async, gc);
    hide Reach, C.Next, EnvOf, K.Unswept;
    Turns(f, B0(Mark, C.Begin(Async, 1, C.Helping), gc), k, C.GlobalPhase(2), B1(Mark, Async, gc), k');
  }
}
