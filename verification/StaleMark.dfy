/**
 A run of two workers in which a stale test-and-set makes the collector free an object that is still in use.

 Worker 1, leaving ML code, is the last to answer MARK and begins to send ASYNC.  It has sent it to itself and not
 yet to worker 2 when worker 2 helps it, sweeps its heap, and goes on with ML code in MARK.  Worker 2 overwrites the
 only global variable, which holds an object of worker 1 that is already a target of the next collection: the
 deletion barrier marks it.  The next collection takes the object for visited and never scans it.
 */
module StaleMark {
  import opened Phases
  import opened Wrappers
  import opened Marking
  import opened System
  import opened TwoWorkers
  import K = Collector
  import C = Control
  import S = Safety
  import W = Barrier
  import Stall

  /** Nothing else goes wrong in the runs of this module. */
  const F: From := From(START, Staleness)

  // ---------------------------------------------------------------- heaps

  /** Object 1, which points to object 2; both lie in the heap of worker 1. */
  function X(color: Color, link: Link, swept: bool): Object { Object([2], color, link, 1, swept) }

  function Y(color: Color, swept: bool): Object { Object([], color, Link.Free, 1, swept) }

  function GXY(v: Ptr, k: nat, x: Object, y: Object): Heap { map[STATIC := Global(v, k), 1 := x, 2 := y] }

  lemma Heaps(v: Ptr, k: nat, x: Object, y: Object, w: Ptr)
    ensures G(v, k)[2 := y][1 := x] == GXY(v, k, x, y) && GXY(v, k, x, y).Keys == {STATIC, 1, 2}
    ensures SetField(GXY(v, k, x, y), STATIC, 0, w) == GXY(w, k, x, y)
    ensures forall c: Object :: GXY(v, k, x, y)[1 := c] == GXY(v, k, c, y) && GXY(v, k, x, y)[2 := c] == GXY(v, k, x, c)
    ensures Relink(G(v, 0), STATIC, Static(1)) == G(v, 1)
            && Relink(GXY(v, 0, x, y), STATIC, Static(1)) == GXY(v, 1, x, y)
  {
    assert [v][0 := w] == [w];
    assert Global(v, k).(fields := [w]) == Global(w, k);
  }

  // ---------------------------------------------------------------- the first collection

  lemma FirstMark()
    ensures Reach(F, At(A6(Mark, 1), Still(G(0, 1))))
  {
    var k := Still(G(0, 0));
    Registers(F);
    FirstStart(k);
    RootingTwoDone(Still(G(0, 1)), 1);
    Heaps(0, 0, X(New, Link.Free, false), Y(New, false), 0);
    hide Reach, At, Relink, K.ActionDone;
    assert Visit(G(0, 0), 0, Roots(1)) == G(0, 0);
    hide Visit;
    ToRootingTwo(F, k, 1, 0, G(0, 1), Still(G(0, 1)));
    ToMarkPending(F, Still(G(0, 1)), 1);
  }

  lemma FirstStart(k: K.State)
    requires Reach(F, At(Rest(0), k)) && k == Still(G(0, 0))
    ensures Reach(F, At(A0(Async, Sync1, 1), k))
  {
    hide Reach, At;
    assert K.Unsettled(map[]) == map[] && K.Restart(G(0, 0)) == G(0, 0);
    hide K.Unsettled, K.Restart;
    Begin(F, k, 0, k);
  }

  // After worker 2 has helped worker 1, worker 1 sends ASYNC to worker 2.

  function M8(): C.State {
    Stall.Two(Sending(Help(2), false, None), Stall.U(Mark, false, Own, C.Release(1), None), Async, -1, 1, {}, Some(1))
  }

  function M9(): C.State { Stall.Two(Sending(Open, false, None), Calm(Mark, Own), Async, -1, 1, {}, Some(1)) }

  function M10(): C.State {
    Stall.Two(Stall.U(Async, false, Open, C.Switching(Mark, {}, 2, 1, C.Leaving), None),
              Stall.U(Async, true, Own, C.Idle, None),
              Async, -1, 1, {2}, Some(1))
  }

  function M11(): C.State {
    Stall.Two(Calm(Async, Open), Stall.U(Async, true, Own, C.Idle, None), Async, 1, 1, {2}, None)
  }

  function M12(): C.State {
    Stall.Two(Calm(Async, Open), Stall.U(Async, false, Own, C.Act(2, C.Greedy), Some(2)), Async, 1, 1, {2}, None)
  }

  function M13(): C.State {
    Stall.Two(Calm(Async, Open), Stall.U(Async, false, Own, C.Closing(2, C.Greedy), None), Async, 0, 1, {}, Some(2))
  }

  lemma MNextsMore()
    ensures C.Next(M7(), C.Answer(2), M8()) && C.Next(M8(), C.ReleaseOther(2), M9())
  {
    Stall.SmallSets();
  }

  lemma MNextsAdd()
    ensures C.Next(M9(), C.SwitchOne(1, 2, false), M10()) && C.Next(M10(), C.AddCount(1), M11())
  {
    Stall.SmallSets();
  }

  lemma MNextsLast()
    ensures C.Next(M11(), C.Check(2), M12()) && C.Next(M12(), C.Answer(2), M13()) && C.Next(M13(), C.EndGc(2), Rest(2))
  {
    Stall.SmallSets();
  }

  lemma MStagesMore()
    ensures InMark(M1(Mark)) && InWindow(M9())
    ensures EnvOf(M12()) == K.Env(K.OnSweep, map[1 := K.Plain, 2 := K.Sweeping])
    ensures EnvOf(M13()).stage == map[1 := K.Plain, 2 := K.Plain]
  {
  }

  // ---------------------------------------------------------------- the first user

  const NEW: Heap := GXY(1, 1, X(New, Link.Free, false), Y(New, false))

  /** Worker 1 has been sent MARK and runs ML code; worker 2 is done with it. */
  ghost predicate InMark(c: C.State) {
    EnvOf(c) == K.Env(K.OnMark, map[1 := K.MarkPending, 2 := K.Traced]) && C.IdleOwner(c, 1)
  }

  /** In MARK worker 1 allocates two objects and keeps the first in the global variable. */
  lemma FirstUser(c: C.State)
    requires Reach(F, At(c, Still(G(0, 1)))) && InMark(c)
    ensures Reach(F, At(c, Still(NEW)))
  {
    var x := K.User(1, {}, true, K.NoWalk);
    Users(1, x, x);
    hide Reach, EnvOf, C.IdleOwner;
    Schedules(F, c, Still(G(0, 1)), K.StartUser(1, 1), Busy(1, x, 1, G(0, 1)));
    hide InMark, At, K.UserStep;
    FirstAlloc(c, x);
    SecondAlloc(c, x.(roots := {2}));
    FirstStore(c, x.(roots := {2, 1}));
    FirstQuit(c, x.(roots := {2, 1}));
  }

  lemma FirstAlloc(c: C.State, x: K.User)
    requires x == K.User(1, {}, true, K.NoWalk) && Reach(F, At(c, Busy(1, x, 1, G(0, 1)))) && InMark(c)
    ensures Reach(F, At(c, Busy(1, x.(roots := {2}), 1, G(0, 1)[2 := Y(New, false)])))
  {
    Users(1, x, x.(roots := {2}));
    assert {} + {2} == {2};
    hide Reach, EnvOf, C.IdleOwner, At, One;
    Allocs(F, c, Busy(1, x, 1, G(0, 1)), 1, 1, 2, Y(New, false),
           Busy(1, x.(roots := {2}), 1, G(0, 1)[2 := Y(New, false)]));
  }

  lemma SecondAlloc(c: C.State, x: K.User)
    requires x == K.User(1, {2}, true, K.NoWalk) && Reach(F, At(c, Busy(1, x, 1, G(0, 1)[2 := Y(New, false)])))
             && InMark(c)
    ensures Reach(F, At(c, Busy(1, x.(roots := {2, 1}), 1, GXY(0, 1, X(New, Link.Free, false), Y(New, false)))))
  {
    Users(1, x, x.(roots := {2, 1}));
    Heaps(0, 1, X(New, Link.Free, false), Y(New, false), 0);
    assert {2} + {1} == {2, 1};
    hide Reach, EnvOf, C.IdleOwner, At, One;
    Allocs(F, c, Busy(1, x, 1, G(0, 1)[2 := Y(New, false)]), 1, 1, 1, X(New, Link.Free, false),
           Busy(1, x.(roots := {2, 1}), 1, GXY(0, 1, X(New, Link.Free, false), Y(New, false))));
  }

  lemma FirstStore(c: C.State, x: K.User)
    requires x == K.User(1, {2, 1}, true, K.NoWalk) && InMark(c)
    requires Reach(F, At(c, Busy(1, x, 1, GXY(0, 1, X(New, Link.Free, false), Y(New, false)))))
    ensures Reach(F, At(c, Busy(1, x, 1, NEW)))
  {
    Heaps(0, 1, X(New, Link.Free, false), Y(New, false), 1);
    hide Reach, EnvOf, SetField, C.IdleOwner, At;
    WritesAll(F, c, Busy(1, x, 1, GXY(0, 1, X(New, Link.Free, false), Y(New, false))), 1, 1, STATIC, 0, 1,
              Busy(1, x, 1, NEW));
  }

  lemma FirstQuit(c: C.State, x: K.User)
    requires Reach(F, At(c, Busy(1, x, 1, NEW))) && x.walk == K.NoWalk && InMark(c)
    ensures Reach(F, At(c, Still(NEW)))
  {
    hide Reach, EnvOf, C.IdleOwner, At, One;
    Leaves(F, c, 1, x, 1, NEW);
    FirstQuitEnd(c, x);
  }

  lemma FirstQuitEnd(c: C.State, x: K.User)
    requires Reach(F, At(c, Resting(1, x, NEW))) && x.walk == K.NoWalk
    ensures Reach(F, At(c, Still(NEW)))
  {
    Users(1, x, x);
    hide Reach, EnvOf, C.IdleOwner, One;
    Schedules(F, c, Resting(1, x, NEW), K.EndUser(1), Still(NEW));
  }

  // ---------------------------------------------------------------- the stale write

  const SWEPT: Heap := GXY(1, 1, X(White, Link.Free, true), Y(White, true))

  lemma NewHeap()
    ensures K.NoLinks(NEW, 1) && NothingRemembered(NEW) && K.Unswept(NEW) == NEW && AllFree(NEW)
    ensures K.NoLinks(SWEPT, 1) && NothingRemembered(SWEPT) && (forall o <- SWEPT :: o != STATIC ==> SWEPT[o].swept)
  {
  }

  /** Worker 1 answers MARK; all is traced. */
  lemma LastAnswer()
    requires Reach(F, At(A6(Mark, 1), Still(G(0, 1))))
    ensures Reach(F, At(M3(Mark, C.Begin(Async, 1, C.Leaving)), Still(NEW).(scan := K.Passed)))
  {
    MNexts(Mark);
    MStages();
    MStagesMore();
    NewHeap();
    hide Reach, C.Next, EnvOf, NothingRemembered, K.NoLinks, AllFree;
    Shakes(F, A6(Mark, 1), Still(G(0, 1)), C.Enter(1), M1(Mark));
    FirstUser(M1(Mark));
    Shakes(F, M1(Mark), Still(NEW), C.Leave(1), M2(Mark));
    Answers(F, M2(Mark), Still(NEW), 1, 1, M3(Mark, C.Finish(1, C.Leaving)), {});
    LastDecision();
  }

  lemma LastDecision()
    requires Reach(F, At(M3(Mark, C.Finish(1, C.Leaving)), Still(NEW)))
    ensures Reach(F, At(M3(Mark, C.Begin(Async, 1, C.Leaving)), Still(NEW).(scan := K.Passed)))
  {
    MDecides();
    MStages();
    NewHeap();
    hide Reach, C.Next, EnvOf, NothingRemembered, AllFree;
    Finishes(F, M3(Mark, C.Finish(1, C.Leaving)), Still(NEW), 1, M3(Mark, C.Begin(Async, 1, C.Leaving)));
  }

  /** Worker 1 sends itself ASYNC and worker 2 begins to sweep for it. */
  lemma ToSweeping()
    requires Reach(F, At(M3(Mark, C.Begin(Async, 1, C.Leaving)), Still(NEW).(scan := K.Passed)))
    ensures Reach(F, At(M7(), Still(NEW)))
  {
    MNextsOn();
    NewHeap();
    hide Reach, C.Next, EnvOf, K.Unswept;
    Turns(F, M3(Mark, C.Begin(Async, 1, C.Leaving)), Still(NEW).(scan := K.Passed), C.GlobalPhase(1), M5(), Still(NEW));
    Shakes(F, M5(), Still(NEW), C.SwitchOne(1, 1, false), M6());
    Shakes(F, M6(), Still(NEW), C.HelpOther(2, 1), M7());
  }

  lemma SweptHeap()
    ensures var h := GXY(1, 1, X(White, Link.Free, true), Y(New, false)); K.Sweep(NEW, 1) == h && K.Sweep(h, 2) == SWEPT
  {
    Heaps(1, 1, X(New, Link.Free, false), Y(New, false), 0);
    Heaps(1, 1, X(White, Link.Free, true), Y(New, false), 0);
  }

  lemma SweepsBoth(c: C.State)
    requires Reach(F, At(c, Still(NEW))) && EnvOf(c) == K.Env(K.OnSweep, map[1 := K.Sweeping, 2 := K.Traced])
    ensures Reach(F, At(c, Still(SWEPT)))
  {
    var h := GXY(1, 1, X(White, Link.Free, true), Y(New, false));
    SweptHeap();
    hide Reach, EnvOf, K.Sweep;
    Collects(F, c, Still(NEW), K.SweepObject(1, 1), Still(h));
    Collects(F, c, Still(h), K.SweepObject(1, 2), Still(SWEPT));
  }

  /** Worker 2 has swept for worker 1 and is itself still in MARK. */
  lemma SweepIsDone()
    ensures K.ActionDone(At(M7(), Still(SWEPT)).k, 1)
  {
    MStages();
    NewHeap();
    hide EnvOf, NothingRemembered;
  }

  lemma ToWindow()
    requires Reach(F, At(M7(), Still(SWEPT)))
    ensures Reach(F, At(M9(), Still(SWEPT)))
  {
    MNextsMore();
    MStages();
    SweepIsDone();
    hide Reach, C.Next, EnvOf, K.ActionDone, SWEPT;
    Answers(F, M7(), Still(SWEPT), 2, 1, M8(), {});
    Shakes(F, M8(), Still(SWEPT), C.ReleaseOther(2), M9());
  }

  /** ASYNC has been published, worker 1 has swept, and worker 2 runs ML code in MARK. */
  ghost predicate InWindow(c: C.State) {
    EnvOf(c) == K.Env(K.OnSweep, map[1 := K.Plain, 2 := K.Traced]) && C.IdleOwner(c, 2)
  }

  const OWNER: K.User := K.User(2, {1}, true, K.NoWalk)

  const STALE: Heap := GXY(0, 1, X(Marked, Remembered(2), true), Y(White, true))

  lemma SecondUser(c: C.State)
    requires Reach(F, At(c, Still(SWEPT))) && InWindow(c)
    ensures Reach(F, At(c, Busy(2, OWNER, 2, SWEPT)))
  {
    var x := K.User(2, {}, true, K.NoWalk);
    Users(2, x, x);
    hide Reach, EnvOf, C.IdleOwner;
    Schedules(F, c, Still(SWEPT), K.StartUser(2, 2), Busy(2, x, 2, SWEPT));
    hide K.UserStep, At, InWindow;
    SecondLoad(c, x);
  }

  lemma SecondLoad(c: C.State, x: K.User)
    requires x == K.User(2, {}, true, K.NoWalk) && Reach(F, At(c, Busy(2, x, 2, SWEPT))) && InWindow(c)
    ensures Reach(F, At(c, Busy(2, OWNER, 2, SWEPT)))
  {
    Users(2, x, OWNER);
    assert {} + {1} == {1};
    hide Reach, EnvOf, C.IdleOwner, At, One;
    Loads(F, c, Busy(2, x, 2, SWEPT), 2, 2, STATIC, 0, Busy(2, OWNER, 2, SWEPT));
  }

  // The stale write, step by step.

  function Half(link: Link): Heap { GXY(1, 1, X(Marked, link, true), Y(White, true)) }

  function Erasing(todo: Option<seq<Ptr>>): K.Task { K.Writing(2, STATIC, 0, 0, 1, false, todo) }

  function InWrite(t: K.Task, h: Heap): K.State {
    K.State(K.Env(K.Rest, map[]), h, One(2, OWNER), map[2 := t], {}, K.Off)
  }

  lemma StaleHeaps()
    ensures Visit(SWEPT, 1, Pending(2)) == Half(Pending(2))
    ensures Take(Half(Pending(2)), Pending(2), Remembered(2)) == Half(Remembered(2))
    ensures SetField(Half(Remembered(2)), STATIC, 0, 0) == STALE
    ensures !K.HasPending(SWEPT, 2) && !K.HasPending(Half(Remembered(2)), 2)
  {
    Heaps(1, 1, X(White, Link.Free, true), Y(White, true), 0);
    Heaps(1, 1, X(Marked, Remembered(2), true), Y(White, true), 0);
  }

  lemma SecondRead(c: C.State)
    requires Reach(F, At(c, Busy(2, OWNER, 2, SWEPT))) && InWindow(c)
    ensures Reach(F, At(c, InWrite(Erasing(Some([1])), SWEPT)))
  {
    assert K.ToRemember(K.Traced, 0, 1) == [1];
    Users(2, OWNER, OWNER);
    hide Reach, EnvOf, C.IdleOwner, At, One, K.ToRemember;
    Reads(F, c, Busy(2, OWNER, 2, SWEPT), 2, 2, STATIC, 0, 0, InWrite(Erasing(None), SWEPT));
    Looks(F, c, InWrite(Erasing(None), SWEPT), 2, Erasing(None), InWrite(Erasing(Some([1])), SWEPT));
  }

  /** The test-and-set that finds an object of the next collection. */
  lemma SecondMark(c: C.State)
    requires Reach(F, At(c, InWrite(Erasing(Some([1])), SWEPT))) && InWindow(c)
    ensures Reach(F, At(c, InWrite(Erasing(Some([])), Half(Pending(2)))))
  {
    Users(2, OWNER, OWNER);
    hide Reach, EnvOf, C.IdleOwner, One, Visit, At;
    assert [1] + [] == [1];
    StaleHeaps();
    hide SWEPT, Half;
    Tests(F, c, InWrite(Erasing(Some([1])), SWEPT), 2, Erasing(Some([1])), 1, [],
          InWrite(Erasing(Some([])), Half(Pending(2))));
  }

  lemma SecondPush(c: C.State)
    requires Reach(F, At(c, InWrite(Erasing(Some([])), Half(Pending(2))))) && InWindow(c)
    ensures Reach(F, At(c, InWrite(Erasing(Some([])), Half(Remembered(2)))))
  {
    Users(2, OWNER, OWNER);
    hide Reach, EnvOf, C.IdleOwner, One, Take, At;
    StaleHeaps();
    assert 1 in Half(Pending(2)) && Half(Pending(2))[1].link == Pending(2);
    Pushes(F, c, InWrite(Erasing(Some([])), Half(Pending(2))), 2, Erasing(Some([])),
           InWrite(Erasing(Some([])), Half(Remembered(2))));
  }

  lemma SecondStores(c: C.State)
    requires Reach(F, At(c, InWrite(Erasing(Some([])), Half(Remembered(2))))) && InWindow(c)
    ensures Reach(F, At(c, Busy(2, OWNER, 2, STALE)))
  {
    Users(2, OWNER, OWNER);
    hide Reach, EnvOf, C.IdleOwner, One, SetField, At;
    StaleHeaps();
    StoresIt(F, c, InWrite(Erasing(Some([])), Half(Remembered(2))), 2, Erasing(Some([])), Busy(2, OWNER, 2, STALE));
  }

  lemma SecondStore(c: C.State)
    requires Reach(F, At(c, Busy(2, OWNER, 2, SWEPT))) && InWindow(c)
    ensures Reach(F, At(c, Busy(2, OWNER, 2, STALE)))
  {
    hide Reach, At, InWindow;
    SecondRead(c);
    SecondMark(c);
    SecondPush(c);
    SecondStores(c);
  }

  const LEFT: Heap := GXY(0, 1, X(Marked, Link.Free, true), Y(White, true))

  lemma ForgottenHeap()
    ensures Take(STALE, Remembered(2), Link.Free) == LEFT
  {
    Heaps(0, 1, X(Marked, Remembered(2), true), Y(White, true), 0);
  }

  /** Worker 2 is sent ASYNC as well. */
  lemma ToForgetting(k: K.State)
    requires Reach(F, At(M9(), k)) && k.scan == K.Off && Interruptible(k, 2)
    ensures Reach(F, At(M12(), k))
  {
    MNextsAdd();
    MNextsLast();
    hide Reach, C.Next, EnvOf;
    Shakes(F, M9(), k, C.SwitchOne(1, 2, false), M10());
    Shakes(F, M10(), k, C.AddCount(1), M11());
    Shakes(F, M11(), k, C.Check(2), M12());
  }

  lemma Forgets(c: C.State)
    requires Reach(F, At(c, Busy(2, OWNER, 2, STALE)))
             && EnvOf(c) == K.Env(K.OnSweep, map[1 := K.Plain, 2 := K.Sweeping])
    ensures Reach(F, At(c, Busy(2, OWNER, 2, LEFT)))
  {
    ForgottenHeap();
    hide Reach, EnvOf, Take;
    Collects(F, c, Busy(2, OWNER, 2, STALE), K.Forget(2), Busy(2, OWNER, 2, LEFT));
  }

  lemma LeftHeap()
    ensures NothingRemembered(LEFT) && K.NoLinks(LEFT, 1) && K.NoLinks(LEFT, 2) && AllFree(LEFT)
    ensures forall o <- LEFT :: o == STATIC || (LEFT[o].owner == 1 && LEFT[o].swept)
  {
  }

  lemma FirstCloses(k: K.State)
    requires Reach(F, At(M12(), k)) && k == Busy(2, OWNER, 2, LEFT)
    ensures Reach(F, At(Rest(2), k))
  {
    MNextsLast();
    MStagesMore();
    LeftHeap();
    hide Reach, C.Next, EnvOf;
    assert K.ActionDone(At(M12(), k).k, 2) && Before(At(M13(), k), C.EndGc(2));
    hide K.ActionDone;
    Answers(F, M12(), k, 2, 2, M13(), {});
    Shakes(F, M13(), k, C.EndGc(2), Rest(2));
  }

  lemma FirstCollection()
    ensures Reach(F, At(Rest(2), Busy(2, OWNER, 2, LEFT)))
  {
    MStages();
    MStagesMore();
    hide Reach, At, EnvOf;
    FirstMark();
    LastAnswer();
    ToSweeping();
    SweepsBoth(M7());
    ToWindow();
    SecondUser(M9());
    SecondStore(M9());
    ToForgetting(Busy(2, OWNER, 2, STALE));
    Forgets(M12());
    FirstCloses(Busy(2, OWNER, 2, LEFT));
  }

  // ---------------------------------------------------------------- the second collection

  const AGAIN: Heap := GXY(0, 0, X(Marked, Link.Free, true), Y(White, true))

  lemma SecondStart(k: K.State)
    requires Reach(F, At(Rest(2), k)) && k == Busy(2, OWNER, 2, LEFT)
    ensures Reach(F, At(A0(Async, Sync1, 3), Busy(2, OWNER.(settled := false), 2, AGAIN)))
  {
    assert K.Unsettled(k.users) == One(2, OWNER.(settled := false)) && K.Restart(LEFT) == AGAIN;
    hide Reach, At, K.Unsettled, K.Restart;
    Begin(F, k, 2, Busy(2, OWNER.(settled := false), 2, AGAIN));
  }

  /** SYNC2 of worker 2: object 1, which its user holds, is marked already and so not put on a list. */
  lemma SecondWalk(c: C.State, x: K.User)
    requires x == OWNER.(settled := false) && Reach(F, At(c, Busy(2, x, 2, LEFT)))
    requires EnvOf(c).stage == map[1 := K.Rooted, 2 := K.Rooting]
    ensures Reach(F, At(c, Busy(2, OWNER, 2, LEFT)))
  {
    Users(2, x, OWNER);
    assert Visit(LEFT, 1, Roots(2)) == LEFT;
    hide Reach, EnvOf, Visit, One, LEFT, At;
    Walks(F, c, Busy(2, x, 2, LEFT), 2, 2, 1, Busy(2, OWNER, 2, LEFT));
  }

  lemma SecondRooting()
    requires Reach(F, At(A0(Async, Sync1, 3), Busy(2, OWNER.(settled := false), 2, AGAIN)))
    ensures Reach(F, At(B8(Sync2, 3), Busy(2, OWNER.(settled := false), 2, LEFT)))
  {
    Heaps(0, 0, X(Marked, Link.Free, true), Y(White, true), 0);
    hide Reach, At, Relink;
    assert Visit(AGAIN, 0, Roots(1)) == AGAIN;
    hide Visit;
    ToRootingTwo(F, Busy(2, OWNER.(settled := false), 2, AGAIN), 3, 0, LEFT,
                 Busy(2, OWNER.(settled := false), 2, LEFT));
  }

  lemma SecondRootingTwo()
    requires Reach(F, At(B8(Sync2, 3), Busy(2, OWNER.(settled := false), 2, LEFT)))
    ensures Reach(F, At(A6(Mark, 3), Busy(2, OWNER, 2, LEFT)))
  {
    StagesIn(Sync2, 3);
    LeftHeap();
    RootingTwoDone(Busy(2, OWNER, 2, LEFT), 3);
    hide Reach, At, K.ActionDone, EnvOf, K.NoLinks;
    SecondWalk(B8(Sync2, 3), OWNER.(settled := false));
    ToMarkPending(F, Busy(2, OWNER, 2, LEFT), 3);
  }

  /** The heap when the second sweep begins. */
  const FINAL: Heap := GXY(0, 1, X(Marked, Link.Free, false), Y(White, false))

  /** The state in which object 2 is about to be swept. */
  const LAST: State := At(B5(Async, 3), Busy(2, OWNER, 2, FINAL))

  lemma FinalHeap()
    ensures K.Unswept(LEFT) == FINAL
  {
  }

  /** Nothing is left to trace, and worker 2 begins to sweep for worker 1. */
  lemma SecondSweep(k: K.State)
    requires Reach(F, At(A6(Mark, 3), k)) && k == Busy(2, OWNER, 2, LEFT)
    ensures Reach(F, LAST)
  {
    FinalHeap();
    LeftHeap();
    hide Reach, At, A6, B0, B1, B5, K.Unswept, NothingRemembered, K.NoLinks, LEFT, FINAL, AllFree;
    TracesOne(F, k, 3);
    ToSending(F, k, 3, Busy(2, OWNER, 2, FINAL));
    RoundB(F, Busy(2, OWNER, 2, FINAL), Mark, Async, 3);
  }

  lemma LastIsReached()
    ensures Reach(F, LAST)
  {
    hide Reach, At;
    FirstCollection();
    SecondStart(Busy(2, OWNER, 2, LEFT));
    SecondRooting();
    SecondRootingTwo();
    SecondSweep(Busy(2, OWNER, 2, LEFT));
  }

  lemma LastSweep(k: K.State)
    requires k.heap == FINAL && k.env.stage == map[1 := K.Sweeping, 2 := K.SweepPending]
    ensures K.CollectorStep(k, K.SweepObject(1, 2), k.(heap := FINAL - {2})) && 2 in FINAL
  {
  }

  lemma LastStep() returns (s': State)
    ensures Next(LAST, Thread(K.SweepObject(1, 2)), s') && 2 in LAST.k.heap && 2 !in s'.k.heap
  {
    StagesIn(Async, 3);
    LastSweep(LAST.k);
    hide EnvOf, FINAL, K.CollectorStep, K.UserStep, K.MLStep, K.WriteStep;
    s' := LAST.(k := LAST.k.(heap := FINAL - {2}));
  }

  lemma LastPath()
    ensures S.Path(LAST.k, [1, 2])
  {
    hide EnvOf;
    assert 1 in LAST.k.users[2].roots && S.Points(LAST.k.heap, 1, 2);
  }

  /** Without the condition on stale writes safety fails: there is a run of the whole system in which nothing else goes
      wrong than a stale test-and-set, and its last step frees an object to which a path leads from the stack of a
      running user thread. */
  lemma StaleWriteLosesAnObject() returns (ss: seq<State>, ls: seq<Step>, n: nat, path: seq<Ptr>)
    ensures IsRun(ss, ls)
    ensures forall i :: 0 <= i < |ls| && Breaks(ss[i], ls[i]) ==> ls[i].Thread? && W.Stale(ss[i].k, ls[i].l)
    ensures n < |ls| && ls[n].Thread? && W.Stale(ss[n].k, ls[n].l)
    ensures S.Path(ss[|ls| - 1].k, path) && path[|path| - 1] != 0
    ensures path[|path| - 1] in ss[|ls| - 1].k.heap && path[|path| - 1] !in ss[|ls|].k.heap
  {
    hide IsRun, S.Path, LAST, Next, Fragment, W.Stale, Breaks;
    LastIsReached();
    var s' := LastStep();
    LastPath();
    path := [1, 2];
    ss, ls := OneMore(F, LAST, Thread(K.SweepObject(1, 2)), s');
    IsARun(F, ss, ls);
    if NoneBreaks(ss, ls, |ls|) { NothingReachableIsFreed(ss, ls, |ls| - 1, path); }
    n :| 0 <= n < |ls| && Breaks(ss[n], ls[n]);
  }
}
