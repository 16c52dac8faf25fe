/**
 A run of two workers in which a spurious failure to take a lock makes the collector skip a stack, and free an object
 that the stack holds.

 Worker 1 is done with SYNC2 and worker 2 is not when the thread of worker 1 moves a user of worker 2 over to itself.
 Its compare-and-swap on the user's lock fails although the lock is free; it concludes that worker 2 is enumerating
 the stack, takes the lock at the next attempt, and does not enumerate the stack itself.  Worker 2 later finds that
 the user is no longer one of its own.
 */
module SkippedStack {
  import opened Phases
  import opened Marking
  import opened System
  import opened TwoWorkers
  import K = Collector
  import C = Control
  import S = Safety
  import E = Enumeration

  // ---------------------------------------------------------------- the user and its object

  /** Object 1 lies in the heap of worker 2; the stack of user 1 is the only place that holds it. */
  function Z(swept: bool): Object { Object([], White, Link.Free, 2, swept) }

  function GZ(k: nat): Heap { map[STATIC := Global(0, k), 1 := Z(false)] }

  /** Nobody runs ML code; user 1 belongs to worker w. */
  function Away(k: nat, home: Worker, settled: bool): K.State {
    Resting(1, K.User(home, {1}, settled, K.NoWalk), GZ(k))
  }

  lemma Facts(k: nat)
    ensures GZ(k).Keys == {STATIC, 1} && K.NoLinks(GZ(k), 1) && K.NoLinks(GZ(k), 2) && NothingRemembered(GZ(k))
    ensures Relink(GZ(0), STATIC, Static(1)) == GZ(1) && K.Restart(GZ(0)) == GZ(0) && K.Unswept(GZ(k)) == GZ(k)
    ensures K.Unsettled(Away(k, 2, false).users) == Away(k, 2, false).users
    ensures Visit(GZ(0), 0, Roots(1)) == GZ(0) && AllFree(GZ(k))
  {
  }

  const F0: From := From(START, Skipping)

  /** Worker 2 runs user 1, which allocates object 1 and leaves ML code. */
  lemma ToAway(c: C.State)
    requires Reach(F0, At(c, Still(G(0, 0)))) && EnvOf(c) == K.Env(K.Rest, map[1 := K.Plain, 2 := K.Plain])
             && C.IdleOwner(c, 2)
    ensures Reach(F0, At(c, Away(0, 2, false)))
  {
    var x := K.User(2, {}, false, K.NoWalk);
    Users(1, x, x);
    hide Reach, EnvOf, C.IdleOwner;
    Schedules(F0, c, Still(G(0, 0)), K.StartUser(2, 1), Busy(1, x, 2, G(0, 0)));
    hide K.UserStep, At;
    Allocates(c, x);
    Leaves(F0, c, 1, x.(roots := {1}), 2, GZ(0));
  }

  lemma Allocates(c: C.State, x: K.User)
    requires x == K.User(2, {}, false, K.NoWalk) && Reach(F0, At(c, Busy(1, x, 2, G(0, 0))))
    requires EnvOf(c) == K.Env(K.Rest, map[1 := K.Plain, 2 := K.Plain]) && C.IdleOwner(c, 2)
    ensures Reach(F0, At(c, Busy(1, x.(roots := {1}), 2, GZ(0))))
  {
    Users(1, x, x.(roots := {1}));
    assert {} + {1} == {1} && G(0, 0)[1 := Z(false)] == GZ(0);
    hide Reach, EnvOf, C.IdleOwner, At, One;
    Allocs(F0, c, Busy(1, x, 2, G(0, 0)), 2, 1, 1, Z(false), Busy(1, x.(roots := {1}), 2, GZ(0)));
  }

  lemma RestStages()
    ensures EnvOf(Rest(0)) == K.Env(K.Rest, map[1 := K.Plain, 2 := K.Plain]) && C.IdleOwner(Rest(0), 2)
  {
  }

  /** SYNC1 is over. */
  const T1: State := At(B0(Sync1, C.Begin(Sync2, 1, C.Helping), 1), Away(0, 2, false).(genum := {1}))

  lemma ToT1()
    ensures Reach(F0, T1)
  {
    RestStages();
    Facts(0);
    hide Reach, At, EnvOf, K.Unsettled, K.Restart, C.IdleOwner, B0;
    Registers(F0);
    ToAway(Rest(0));
    Begin(F0, Away(0, 2, false), 0, Away(0, 2, false));
    assert {} + {1} == {1};
    ToSync2(F0, Away(0, 2, false), 1, Away(0, 2, false).(genum := {1}));
  }

  // ---------------------------------------------------------------- SYNC2

  /** SYNC2 has just been published. */
  const F2: From := From(At(B1(Sync1, Sync2, 1), Away(0, 2, false).(genum := {1})), Skipping)

  ghost predicate InSync2(c: C.State) {
    EnvOf(c) == K.Env(K.OnSync2, map[1 := K.Rooted, 2 := K.Early]) && C.IdleOwner(c, 1)
  }

  function Moving(x: K.User, waited: bool): K.State {
    K.State(K.Env(K.Rest, map[]), GZ(1), One(1, x), map[1 := K.Entering(1, K.After, waited)], {}, K.Off)
  }

  /** The move: the attempt that fails, the one that does not, and no enumeration. */
  lemma Skips(c: C.State)
    requires Reach(F2, At(c, Away(1, 2, false))) && InSync2(c)
    ensures Reach(F2, At(c, Away(1, 1, true)))
  {
    var x := K.User(2, {1}, false, K.NoWalk);
    hide Reach, EnvOf, C.IdleOwner;
    Schedules(F2, c, Away(1, 2, false), K.Arrive(1, 1), Moving(x, false));
    Schedules(F2, c, Moving(x, false), K.Spurious(1), Moving(x, true));
    hide K.UserStep, At, InSync2;
    SkipsOn(c);
  }

  lemma SkipsOn(c: C.State)
    requires Reach(F2, At(c, Moving(K.User(2, {1}, false, K.NoWalk), true))) && InSync2(c)
    ensures Reach(F2, At(c, Away(1, 1, true)))
  {
    var x := K.User(2, {1}, false, K.NoWalk);
    Users(1, x, x.(walk := K.Held(1)));
    hide Reach, EnvOf, C.IdleOwner;
    Schedules(F2, c, Moving(x, true), K.LockUser(1), Moving(x.(walk := K.Held(1)), true));
    hide K.UserStep, At, InSync2;
    SkipsEnd(c);
  }

  lemma SkipsEnd(c: C.State)
    requires Reach(F2, At(c, Moving(K.User(2, {1}, false, K.Held(1)), true))) && InSync2(c)
    ensures Reach(F2, At(c, Away(1, 1, true)))
  {
    var y, z := K.User(2, {1}, false, K.Held(1)), K.User(1, {1}, true, K.NoWalk);
    Users(1, y, z);
    hide Reach, EnvOf, C.IdleOwner;
    Schedules(F2, c, Moving(y, true), K.Publish(1), Busy(1, z, 1, GZ(1)));
    hide K.UserStep, At;
    Leaves(F2, c, 1, z, 1, GZ(1));
  }

  /** SYNC2 is over. */
  const T3: State := At(A0(Sync2, Mark, 1), Away(1, 1, true))

  lemma ToT3()
    ensures Reach(F2, T3)
  {
    Facts(0);
    OwnNexts();
    RootingTwoDone(Away(1, 1, true), 1);
    AtStart(F2);
    hide Reach, At, EnvOf, C.Next, C.IdleOwner, Relink, K.ActionDone, B1, B7, B8, A0, InSync2, Visit;
    ToRooted(F2, Away(0, 2, false).(genum := {1}), 1, 0, GZ(1));
    ToB7Own();
    Skips(B7Own());
    FromB7Own();
    RootsNext(F2, Away(1, 1, true), 1);
    RootsTwo(F2, Away(1, 1, true), 1);
  }

  lemma ToB7Own()
    requires Reach(F2, At(B7(Sync2, 1), Away(1, 2, false)))
    ensures Reach(F2, At(B7Own(), Away(1, 2, false)))
  {
    OwnNexts();
    hide Reach, EnvOf, C.Next;
    Shakes(F2, B7(Sync2, 1), Away(1, 2, false), C.Enter(1), B7Own());
  }

  lemma FromB7Own()
    requires Reach(F2, At(B7Own(), Away(1, 1, true)))
    ensures Reach(F2, At(B7(Sync2, 1), Away(1, 1, true)))
  {
    OwnNexts();
    hide Reach, EnvOf, C.Next;
    Shakes(F2, B7Own(), Away(1, 1, true), C.Leave(1), B7(Sync2, 1));
  }

  // ---------------------------------------------------------------- MARK and ASYNC

  /** MARK has just been published. */
  const F4: From := From(At(A1(Sync2, Mark, 1), Away(1, 1, true)), Skipping)

  /** The state in which object 1 is about to be swept. */
  const LAST: State := At(B8(Async, 1), Away(1, 1, true))

  lemma ToLast()
    ensures Reach(F4, LAST)
  {
    Facts(1);
    AtStart(F4);
    var k := Away(1, 1, true);
    hide Reach, At, EnvOf, A1, A6, B0, B1, B5, B8, K.NoLinks, NothingRemembered, K.Unswept, GZ, AllFree;
    TracesTwo(F4, k, 1);
    TracesOne(F4, k, 1);
    ToSending(F4, k, 1, k);
    RoundB(F4, k, Mark, Async, 1);
    SweepsOne(k, 1);
  }

  /** Worker 1 has nothing to sweep; then worker 2 sweeps. */
  lemma SweepsOne(k: K.State, gc: nat)
    requires Reach(F4, At(B5(Async, gc), k)) && gc % 2 == 1 && k.heap == GZ(1) && k.genum == {} && Interruptible(k, 2)
    ensures Reach(F4, At(B8(Async, gc), k))
  {
    NothingOfOne(k, gc);
    hide Reach, K.ActionDone, EnvOf, C.Next;
    SweptOne(k, gc);
    BNextsLast(Async, Sync1, gc);
    Shakes(F4, B6(Async, gc), k, C.ReleaseOther(2), B7(Async, gc));
    Shakes(F4, B7(Async, gc), k, C.Check(2), B8(Async, gc));
  }

  lemma NothingOfOne(k: K.State, gc: nat)
    requires gc % 2 == 1 && k.heap == GZ(1)
    ensures K.ActionDone(At(B5(Async, gc), k).k, 1)
  {
    StagesIn(Async, gc);
    Facts(1);
    hide EnvOf;
  }

  lemma SweptOne(k: K.State, gc: nat)
    requires Reach(F4, At(B5(Async, gc), k)) && gc % 2 == 1 && k.genum == {} && K.ActionDone(At(B5(Async, gc), k).k, 1)
    ensures Reach(F4, At(B6(Async, gc), k))
  {
    BNextsMore(Mark, Async, gc);
    StagesIn(Async, gc);
    assert k.(genum := {}) == k;
    hide Reach, EnvOf, C.Next, K.ActionDone;
    Answers(F4, B5(Async, gc), k, 2, 1, B6(Async, gc), {});
  }

  lemma LastSweep(k: K.State)
    requires k.heap == GZ(1) && k.env.stage == map[1 := K.Plain, 2 := K.Sweeping]
    ensures K.CollectorStep(k, K.SweepObject(2, 1), k.(heap := GZ(1) - {1})) && 1 in GZ(1)
  {
  }

  lemma LastStep() returns (s': State)
    ensures Next(LAST, Thread(K.SweepObject(2, 1)), s') && 1 in LAST.k.heap && 1 !in s'.k.heap && S.Path(LAST.k, [1])
  {
    StagesIn(Async, 1);
    LastSweep(LAST.k);
    hide EnvOf, K.CollectorStep, K.UserStep, K.MLStep, K.WriteStep;
    assert 1 in LAST.k.users[1].roots;
    s' := LAST.(k := LAST.k.(heap := GZ(1) - {1}));
  }

  // ---------------------------------------------------------------- the run

  /** Users stay, and nobody enumerates the stack of a user. */
  lemma AllowedSkips(f: From, s: State, l: Step, s': State)
    requires f.flaw.Skipping? && Next(s, l, s') && Allowed(f, s, l)
    ensures s.k.users.Keys <= s'.k.users.Keys
    ensures l.Thread? ==> forall u :: !E.Enumerates(s.k, l.l, u)
  {
    hide EnvOf, EnvStepOf, C.Next, Before, K.CollectorStep, K.UserStep, K.MLStep, K.WriteStep;
    if l.Thread? {
      ThreadsKeepUsers(s.k, l.l, s'.k);
    } else if l.h.Decide? {
      ScanEndKeepsUsers(s.k, l.h.finished, s'.k);
    } else {
      HandshakesKeepUsers(s.k, EnvStepOf(s.c, l.h), EnvOf(s'.c), s'.k);
    }
  }

  lemma ScanEndKeepsUsers(k: K.State, finished: bool, k': K.State)
    requires K.CollectorStep(k, K.ScanEnd(finished), k')
    ensures k'.users == k.users
  {
  }

  lemma HandshakesKeepUsers(k: K.State, e: K.EnvStep, env: K.Env, k': K.State)
    requires k' == K.Effect(k, e, env)
    ensures k'.users.Keys == k.users.Keys
  {
    hide K.Restart, K.Unswept;
  }

  lemma ThreadsKeepUsers(k: K.State, l: K.Step, k': K.State)
    requires K.Next(k, l, k') && !l.Shake? && !l.EndUser?
    ensures k.users.Keys <= k'.users.Keys
  {
    hide K.CollectorStep, K.UserStep, K.MLStep, K.WriteStep;
    if K.CollectorStep(k, l, k') { CollectorKeepsUsers(k, l, k'); }
    else if K.UserStep(k, l, k') { UserKeepsUsers(k, l, k'); }
    else if K.MLStep(k, l, k') { MLKeepsUsers(k, l, k'); }
    else { E.WriteShape(k, l, k'); }
  }

  lemma CollectorKeepsUsers(k: K.State, l: K.Step, k': K.State)
    requires K.CollectorStep(k, l, k')
    ensures k.users.Keys <= k'.users.Keys
  {
    hide Visit, Relink, Take, K.Sweep, K.HasRemembered;
  }

  lemma UserKeepsUsers(k: K.State, l: K.Step, k': K.State)
    requires K.UserStep(k, l, k') && !l.EndUser?
    ensures k.users.Keys <= k'.users.Keys
  {
  }

  lemma MLKeepsUsers(k: K.State, l: K.Step, k': K.State)
    requires K.MLStep(k, l, k')
    ensures k.users.Keys <= k'.users.Keys
  {
  }

  lemma {:induction false} UsersStay(f: From, ss: seq<State>, ls: seq<Step>, i: nat, j: nat)
    requires f.flaw.Skipping? && Fragment(f, ss, ls) && i <= j <= |ls|
    ensures ss[i].k.users.Keys <= ss[j].k.users.Keys
    decreases j
  {
    hide Next, Allowed;
    if i < j {
      UsersStay(f, ss, ls, i, j - 1);
      AllowedSkips(f, ss[j - 1], ls[j - 1], ss[j]);
    }
  }

  /** A run, its continuation by one step, and a run from there. */
  lemma Join(f: From, ss: seq<State>, ls: seq<Step>, l: Step, f': From, ss': seq<State>, ls': seq<Step>)
    requires Fragment(f, ss, ls) && Fragment(f', ss', ls') && Next(ss[|ls|], l, ss'[0]) && Allowed(f, ss[|ls|], l)
             && f.flaw == f'.flaw
    ensures Fragment(f, ss + ss', ls + [l] + ls')
    ensures (ss + ss')[|ls|] == ss[|ls|] && (ls + [l] + ls')[|ls|] == l
    ensures (ss + ss')[|ls + [l] + ls'|] == ss'[|ls'|]
  {
    hide Next, Allowed;
    var rs, ks := ss + ss', ls + [l] + ls';
    forall i | 0 <= i < |ks| ensures Next(rs[i], ks[i], rs[i + 1]) && Allowed(f, rs[i], ks[i]) {
      if i > |ls| {
        var j := i - |ls| - 1;
        assert rs[i] == ss'[j] && ks[i] == ls'[j] && rs[i + 1] == ss'[j + 1];
        AllowedSame(f', f, ss'[j], ls'[j]);
      }
    }
  }

  lemma AllowedSame(f: From, f': From, s: State, l: Step)
    requires Allowed(f, s, l) && f.flaw == f'.flaw
    ensures Allowed(f', s, l)
  {
  }

  lemma Publishes(c: C.State, k: K.State, h: C.Step, c': C.State)
    requires C.Next(c, h, c') && Before(At(c, k), h) && (EnvStepOf(c, h).Sync2Begins? || EnvStepOf(c, h).MarkBegins?)
             && !h.Decide?
    ensures Next(At(c, k), Handshake(h), At(c', k))
  {
    hide C.Next, Before, EnvOf, EnvStepOf;
  }

  lemma PublishesSync2()
    ensures Next(T1, Handshake(C.GlobalPhase(2)), F2.start) && EnvStepOf(T1.c, C.GlobalPhase(2)) == K.Sync2Begins
  {
    BNexts(Sync1, Sync2, 1);
    hide C.Next, EnvOf, Next, Away;
    Publishes(B0(Sync1, C.Begin(Sync2, 1, C.Helping), 1), Away(0, 2, false).(genum := {1}), C.GlobalPhase(2),
              B1(Sync1, Sync2, 1));
  }

  lemma PublishesMark()
    ensures Next(T3, Handshake(C.GlobalPhase(2)), F4.start) && EnvStepOf(T3.c, C.GlobalPhase(2)) == K.MarkBegins
  {
    ANexts(Sync2, Mark, 1);
    hide C.Next, EnvOf, Next, Away;
    Publishes(A0(Sync2, Mark, 1), Away(1, 1, true), C.GlobalPhase(2), A1(Sync2, Mark, 1));
  }

  lemma AllowedHandshake(f: From, s: State)
    requires Quiet(s.k)
    ensures Allowed(f, s, Handshake(C.GlobalPhase(2)))
  {
    hide EnvStepOf;
  }

  /** Up to the end of SYNC2, which is published by step i. */
  lemma FirstPart() returns (ss: seq<State>, ls: seq<Step>, i: nat)
    ensures Fragment(F0, ss, ls) && i < |ls| && ss[i] == T1 && ls[i] == Handshake(C.GlobalPhase(2)) && ss[|ls|] == T3
  {
    hide Next, Allowed;
    ToT1();
    ToT3();
    PublishesSync2();
    assert Quiet(T1.k) by { hide EnvOf; }
    AllowedHandshake(F0, T1);
    hide START, T1, T3, At;
    var s1: seq<State>, l1: seq<Step> :| Fragment(F0, s1, l1) && s1[|l1|] == T1;
    var s2: seq<State>, l2: seq<Step> :| Fragment(F2, s2, l2) && s2[|l2|] == T3;
    var l := Handshake(C.GlobalPhase(2));
    Join(F0, s1, l1, l, F2, s2, l2);
    ss, ls, i := s1 + s2, l1 + [l] + l2, |l1|;
  }

  /** The whole run: SYNC2 is published by step i and MARK by step j. */
  lemma WholeRun() returns (ss: seq<State>, ls: seq<Step>, i: nat, j: nat)
    ensures Fragment(F0, ss, ls) && i < j < |ls| && ss[i] == T1 && ss[j] == T3 && ss[|ls|] == LAST
    ensures ls[i] == Handshake(C.GlobalPhase(2)) == ls[j]
  {
    hide Next, Allowed;
    ToLast();
    PublishesMark();
    assert Quiet(T3.k) by { hide EnvOf; }
    AllowedHandshake(F0, T3);
    hide START, T1, T3, LAST, At;
    var s1, l1, n := FirstPart();
    var s2: seq<State>, l2: seq<Step> :| Fragment(F4, s2, l2) && s2[|l2|] == LAST;
    var l := Handshake(C.GlobalPhase(2));
    Join(F0, s1, l1, l, F4, s2, l2);
    ss, ls, i, j := s1 + s2, l1 + [l] + l2, n, |l1|;
  }

  lemma NobodyEnumerates(ss: seq<State>, ls: seq<Step>, i: nat, j: nat)
    requires Fragment(F0, ss, ls) && i <= j <= |ls| && 1 in ss[i].k.users
    ensures forall m :: i <= m <= j ==> 1 in ss[m].k.users
    ensures forall n :: 0 <= n < |ls| && ls[n].Thread? ==> !E.Enumerates(ss[n].k, ls[n].l, 1)
  {
    hide Next, Allowed, E.Enumerates;
    forall m | i <= m <= j ensures 1 in ss[m].k.users { UsersStay(F0, ss, ls, i, m); }
    forall n | 0 <= n < |ls| && ls[n].Thread? ensures !E.Enumerates(ss[n].k, ls[n].l, 1) {
      AllowedSkips(F0, ss[n], ls[n], ss[n + 1]);
    }
  }

  /** Without the condition on skipped stacks the enumeration is incomplete and safety fails: there is a run of the
      whole system in which nothing else goes wrong, in which user 1 lives through SYNC2, no step enumerates its stack,
      and the last step frees an object to which a path leads from it. */
  lemma SpuriousFailureSkipsAStack() returns (ss: seq<State>, ls: seq<Step>, i: nat, j: nat, s': State)
    ensures IsRun(ss, ls) && i < j < |ls| && ls[i].Handshake? && ls[j].Handshake?
    ensures forall n :: 0 <= n < |ls| && Breaks(ss[n], ls[n]) ==> ls[n].Thread? && S.Skips(ss[n].k, ls[n].l)
    ensures EnvStepOf(ss[i].c, ls[i].h) == K.Sync2Begins && EnvStepOf(ss[j].c, ls[j].h) == K.MarkBegins
    ensures forall m :: i <= m <= j ==> 1 in ss[m].k.users
    ensures forall n :: 0 <= n < |ls| && ls[n].Thread? ==> !E.Enumerates(ss[n].k, ls[n].l, 1)
    ensures Next(ss[|ls|], Thread(K.SweepObject(2, 1)), s') && S.Path(ss[|ls|].k, [1])
    ensures 1 in ss[|ls|].k.heap && 1 !in s'.k.heap
  {
    PublishesSync2();
    PublishesMark();
    assert 1 in T1.k.users by { hide EnvOf; }
    hide Next, Init, START, LAST, T1, T3, Allowed, S.Skips, E.Enumerates, S.Path, EnvStepOf, Breaks;
    ss, ls, i, j := WholeRun();
    IsARun(F0, ss, ls);
    s' := LastStep();
    NobodyEnumerates(ss, ls, i, j);
  }
}
