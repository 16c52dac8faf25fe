/**
 A run of two workers in which sml_heap_mark_finish says too early that tracing is over, and an object that is still in
 use is freed.

 Worker 2 is done with MARK and its thread overwrites the only pointer to object 2, which points to object 3.  The
 deletion barrier sets the collect bit of object 2, and the thread is interrupted before it puts the object on its
 remembered set.  Worker 1 scans the pointer, finds the bit set, and leaves the object to whoever has set it.  All
 remembered sets are read twice and found empty, so object 2 is never scanned, and object 3 never marked.
 */
module HastyAnswer {
  import opened Phases
  import opened Wrappers
  import opened Marking
  import opened System
  import opened TwoWorkers
  import K = Collector
  import C = Control
  import S = Safety
  import Stall

  /** Nothing else goes wrong in the runs of this module. */
  const F: From := From(START, Haste)

  // ---------------------------------------------------------------- heaps

  /** Object 1, which a global variable holds, points to object 2, which points to object 3; all lie in the heap of
      worker 1. */
  function Obj(fields: seq<Ptr>, color: Color, link: Link): Object { Object(fields, color, link, 1, false) }

  function Chain(v: Ptr, k: nat, first: Object, second: Object): Heap {
    map[STATIC := Global(v, k), 1 := first, 2 := second, 3 := Obj([], White, Link.Free)]
  }

  function One2(color: Color, link: Link): Object { Obj([2], color, link) }

  function Two3(color: Color, link: Link): Object { Obj([3], color, link) }

  lemma Chains(v: Ptr, k: nat, a: Object, b: Object)
    ensures Chain(v, k, a, b).Keys == {STATIC, 1, 2, 3}
    ensures forall c: Object ::
              Chain(v, k, a, b)[1 := c] == Chain(v, k, c, b) && Chain(v, k, a, b)[2 := c] == Chain(v, k, a, c)
    ensures Relink(Chain(v, 0, a, b), STATIC, Static(1)) == Chain(v, 1, a, b)
    ensures !a.swept && !b.swept ==> K.Unswept(Chain(v, k, a, b)) == Chain(v, k, a, b)
  {
  }

  const WHITE: Heap := Chain(1, 0, One2(White, Link.Free), Two3(White, Link.Free))

  // ---------------------------------------------------------------- before the collection

  function RestOwn(): C.State { Stall.Two(Calm(Async, Own), Calm(Async, Own), Async, 0, 0, {}, None) }

  lemma RestNexts()
    ensures C.Next(Rest(0), C.Enter(1), RestOwn()) && C.Next(RestOwn(), C.Leave(1), Rest(0))
    ensures EnvOf(RestOwn()) == K.Env(K.Rest, map[1 := K.Plain, 2 := K.Plain]) && C.IdleOwner(RestOwn(), 1)
  {
    Stall.SmallSets();
  }

  ghost predicate AtRest(c: C.State) {
    EnvOf(c) == K.Env(K.Rest, map[1 := K.Plain, 2 := K.Plain]) && C.IdleOwner(c, 1)
  }

  function Maker(roots: set<Ptr>): K.User { K.User(1, roots, false, K.NoWalk) }

  /** Heaps on the way: object 3; objects 3 and 2; all three. */
  function Begun(n: nat): Heap {
    var h := G(0, 0)[3 := Obj([], White, Link.Free)];
    if n == 1 then h
    else if n == 2 then h[2 := Two3(White, Link.Free)]
    else h[2 := Two3(White, Link.Free)][1 := One2(White, Link.Free)]
  }

  /** The thread of worker 1 makes the three objects. */
  lemma Makes(c: C.State)
    requires Reach(F, At(c, Still(G(0, 0)))) && AtRest(c)
    ensures Reach(F, At(c, Busy(1, Maker({3, 2, 1}), 1, Begun(3))))
  {
    Users(1, Maker({}), Maker({3}));
    hide Reach, EnvOf, C.IdleOwner, At, One;
    assert map[][1 := K.Running(1)] == map[1 := K.Running(1)];
    Starts(F, c, Still(G(0, 0)), 1, 1, Maker({}), Busy(1, Maker({}), 1, G(0, 0)));
    assert {} + {3} == {3};
    Allocs(F, c, Busy(1, Maker({}), 1, G(0, 0)), 1, 1, 3, Obj([], White, Link.Free), Busy(1, Maker({3}), 1, Begun(1)));
    hide AtRest;
    MakesOn(c);
  }

  lemma MakesOn(c: C.State)
    requires Reach(F, At(c, Busy(1, Maker({3}), 1, Begun(1)))) && AtRest(c)
    ensures Reach(F, At(c, Busy(1, Maker({3, 2, 1}), 1, Begun(3))))
  {
    Users(1, Maker({3}), Maker({3, 2}));
    Users(1, Maker({3, 2}), Maker({3, 2, 1}));
    hide Reach, EnvOf, C.IdleOwner, At, One;
    assert {3} + {2} == {3, 2};
    Allocs(F, c, Busy(1, Maker({3}), 1, Begun(1)), 1, 1, 2, Two3(White, Link.Free),
           Busy(1, Maker({3, 2}), 1, Begun(2)));
    assert {3, 2} + {1} == {3, 2, 1};
    Allocs(F, c, Busy(1, Maker({3, 2}), 1, Begun(2)), 1, 1, 1, One2(White, Link.Free),
           Busy(1, Maker({3, 2, 1}), 1, Begun(3)));
  }

  lemma Published()
    ensures SetField(Begun(3), STATIC, 0, 1) == WHITE && !K.HasPending(Begun(3), 1)
  {
    assert [0][0 := 1] == [1];
  }

  /** It puts the first one into the global variable and leaves ML code. */
  lemma Keeps(c: C.State)
    requires Reach(F, At(c, Busy(1, Maker({3, 2, 1}), 1, Begun(3)))) && AtRest(c)
    ensures Reach(F, At(c, Still(WHITE)))
  {
    Published();
    Users(1, Maker({3, 2, 1}), Maker({}));
    hide Reach, EnvOf, C.IdleOwner, At, One, SetField, WHITE;
    WritesAll(F, c, Busy(1, Maker({3, 2, 1}), 1, Begun(3)), 1, 1, STATIC, 0, 1, Busy(1, Maker({3, 2, 1}), 1, WHITE));
    Leaves(F, c, 1, Maker({3, 2, 1}), 1, WHITE);
    hide Begun, AtRest;
    Ends(c);
  }

  lemma Ends(c: C.State)
    requires Reach(F, At(c, Resting(1, Maker({3, 2, 1}), WHITE)))
    ensures Reach(F, At(c, Still(WHITE)))
  {
    Users(1, Maker({3, 2, 1}), Maker({}));
    hide Reach, EnvOf, C.IdleOwner, One, WHITE;
    Schedules(F, c, Resting(1, Maker({3, 2, 1}), WHITE), K.EndUser(1), Still(WHITE));
  }

  lemma ToRest()
    ensures Reach(F, At(Rest(0), Still(WHITE)))
  {
    RestNexts();
    Registers(F);
    hide Reach, At, EnvOf, C.Next, C.IdleOwner, WHITE, Rest, RestOwn;
    Enters();
    Makes(RestOwn());
    Keeps(RestOwn());
    Exits();
  }

  lemma Enters()
    requires Reach(F, At(Rest(0), Still(G(0, 0))))
    ensures Reach(F, At(RestOwn(), Still(G(0, 0))))
  {
    RestNexts();
    hide Reach, EnvOf, C.Next;
    Shakes(F, Rest(0), Still(G(0, 0)), C.Enter(1), RestOwn());
  }

  lemma Exits()
    requires Reach(F, At(RestOwn(), Still(WHITE)))
    ensures Reach(F, At(Rest(0), Still(WHITE)))
  {
    RestNexts();
    hide Reach, EnvOf, C.Next, WHITE;
    Shakes(F, RestOwn(), Still(WHITE), C.Leave(1), Rest(0));
  }

  // ---------------------------------------------------------------- up to MARK

  const ROOTED: Heap := Chain(1, 1, One2(Marked, Roots(1)), Two3(White, Link.Free))

  lemma RootedHeap()
    ensures Relink(Visit(WHITE, 1, Roots(1)), STATIC, Static(1)) == ROOTED && K.Restart(WHITE) == WHITE
  {
    Chains(1, 0, One2(White, Link.Free), Two3(White, Link.Free));
    Chains(1, 0, One2(Marked, Roots(1)), Two3(White, Link.Free));
  }

  lemma NothingOfTwo()
    ensures K.NoLinks(ROOTED, 2)
  {
  }

  /** Worker 1 has enumerated the global variable and been sent MARK; worker 2 is done with it. */
  lemma ToMark()
    ensures Reach(F, At(A6(Mark, 1), Still(ROOTED)))
  {
    ToRest();
    NothingOfTwo();
    RootingTwoDone(Still(ROOTED), 1);
    assert K.Unsettled(map[]) == map[];
    hide Reach, At, Relink, Visit, K.ActionDone, K.NoLinks, K.Unsettled, K.Restart, WHITE, ROOTED, Rest, A0, A6, B8;
    StartsCollection();
    EnumeratesRoots();
    ToMarkPending(F, Still(ROOTED), 1);
  }

  lemma StartsCollection()
    requires Reach(F, At(Rest(0), Still(WHITE)))
    ensures Reach(F, At(A0(Async, Sync1, 1), Still(WHITE)))
  {
    RootedHeap();
    assert K.Unsettled(map[]) == map[];
    hide Reach, At, K.Unsettled, K.Restart, WHITE;
    Begin(F, Still(WHITE), 0, Still(WHITE));
  }

  lemma EnumeratesRoots()
    requires Reach(F, At(A0(Async, Sync1, 1), Still(WHITE)))
    ensures Reach(F, At(B8(Sync2, 1), Still(ROOTED)))
  {
    RootedHeap();
    hide Reach, At, Relink, Visit, A0, B8;
    ToRootingTwo(F, Still(WHITE), 1, 1, ROOTED, Still(ROOTED));
  }

  // ---------------------------------------------------------------- the interrupted write

  function Mutator(roots: set<Ptr>): K.User { K.User(2, roots, true, K.NoWalk) }

  function Erasing(todo: Option<seq<Ptr>>): K.Task { K.Writing(2, 1, 0, 0, 2, false, todo) }

  /** The thread of worker 2 does t for a user whose stack holds objects 1 and 2. */
  function InWrite(t: K.Task, h: Heap): K.State {
    K.State(K.Env(K.Rest, map[]), h, One(2, Mutator({1, 2})), map[2 := t], {}, K.Off)
  }

  /** Worker 2 is done with MARK and its thread can go on. */
  ghost predicate InMark(c: C.State) {
    EnvOf(c) == K.Env(K.OnMark, map[1 := K.MarkPending, 2 := K.Traced]) && C.IdleOwner(c, 2)
  }

  lemma MarkStages()
    ensures InMark(A6(Mark, 1))
  {
  }

  lemma LoadsBoth(c: C.State)
    requires Reach(F, At(c, Still(ROOTED))) && InMark(c)
    ensures Reach(F, At(c, InWrite(K.Running(2), ROOTED)))
  {
    Users(2, Mutator({}), Mutator({1}));
    Users(2, Mutator({1}), Mutator({1, 2}));
    assert map[][2 := K.Running(2)] == map[2 := K.Running(2)];
    hide Reach, EnvOf, C.IdleOwner, At, One;
    Starts(F, c, Still(ROOTED), 2, 2, Mutator({}), Busy(2, Mutator({}), 2, ROOTED));
    assert {} + {1} == {1} && {1} + {2} == {1, 2};
    Loads(F, c, Busy(2, Mutator({}), 2, ROOTED), 2, 2, STATIC, 0, Busy(2, Mutator({1}), 2, ROOTED));
    Loads(F, c, Busy(2, Mutator({1}), 2, ROOTED), 2, 2, 1, 0, Busy(2, Mutator({1, 2}), 2, ROOTED));
  }

  const PENDING: Heap := Chain(1, 1, One2(Marked, Roots(1)), Two3(Marked, Pending(2)))

  lemma PendingHeap()
    ensures Visit(ROOTED, 2, Pending(2)) == PENDING && !K.HasPending(ROOTED, 2)
  {
    Chains(1, 1, One2(Marked, Roots(1)), Two3(White, Link.Free));
  }

  /** sml_write reads the slot, looks at the phase, and sets the collect bit of object 2. */
  lemma ReadsAndLooks(c: C.State)
    requires Reach(F, At(c, InWrite(K.Running(2), ROOTED))) && InMark(c)
    ensures Reach(F, At(c, InWrite(Erasing(Some([2])), ROOTED)))
  {
    Users(2, Mutator({1, 2}), Mutator({}));
    assert K.ToRemember(K.Traced, 0, 2) == [2];
    hide Reach, EnvOf, C.IdleOwner, At, One, K.ToRemember;
    Reads(F, c, InWrite(K.Running(2), ROOTED), 2, 2, 1, 0, 0, InWrite(Erasing(None), ROOTED));
    Looks(F, c, InWrite(Erasing(None), ROOTED), 2, Erasing(None), InWrite(Erasing(Some([2])), ROOTED));
  }

  lemma TestsAndSets(c: C.State)
    requires Reach(F, At(c, InWrite(Erasing(Some([2])), ROOTED))) && InMark(c)
    ensures Reach(F, At(c, InWrite(Erasing(Some([])), PENDING)))
  {
    Users(2, Mutator({1, 2}), Mutator({}));
    PendingHeap();
    hide Reach, EnvOf, C.IdleOwner, At, One, Visit, K.HasPending, ROOTED, PENDING;
    assert [2] + [] == [2];
    Tests(F, c, InWrite(Erasing(Some([2])), ROOTED), 2, Erasing(Some([2])), 2, [], InWrite(Erasing(Some([])), PENDING));
  }

  // ---------------------------------------------------------------- worker 1 traces

  lemma ToTracing(k: K.State)
    requires Reach(F, At(A6(Mark, 1), k)) && 1 !in k.task
    ensures Reach(F, At(M2(Mark), k))
  {
    MNexts(Mark);
    hide Reach, C.Next, EnvOf;
    Shakes(F, A6(Mark, 1), k, C.Enter(1), M1(Mark));
    Shakes(F, M1(Mark), k, C.Leave(1), M2(Mark));
  }

  function Half(link: Link): Heap { Chain(1, 1, One2(Marked, link), Two3(Marked, Pending(2))) }

  lemma Halves()
    ensures Half(Roots(1)) == PENDING && Take(PENDING, Roots(1), Stack(1)) == Half(Stack(1))
    ensures forall a: Link, b: Link :: Relink(Half(a), 1, b) == Half(b)
    ensures forall a: Link, b: Link :: Visit(Half(a), 2, b) == Half(a)
  {
    forall a: Link, b: Link ensures Relink(Half(a), 1, b) == Half(b) {
      Chains(1, 1, One2(Marked, a), Two3(Marked, Pending(2)));
    }
  }

  /** Its set holds object 1; in the slot it finds object 2, marked, and leaves it alone. */
  lemma Traces(c: C.State)
    requires Reach(F, At(c, InWrite(Erasing(Some([])), PENDING)))
    requires EnvOf(c) == K.Env(K.OnMark, map[1 := K.Tracing, 2 := K.Traced])
    ensures Reach(F, At(c, InWrite(Erasing(Some([])), Half(Link.Free))))
  {
    Halves();
    hide Reach, EnvOf, One, Take, Relink, Visit;
    var t := Erasing(Some([]));
    Collects(F, c, InWrite(t, PENDING), K.TakeList(1, false), InWrite(t, Half(Stack(1))));
    Collects(F, c, InWrite(t, Half(Stack(1))), K.Pop(1, 1), InWrite(t, Half(Scanning(1, 0))));
    hide PENDING;
    Scans1(c, t);
  }

  lemma Scans1(c: C.State, t: K.Task)
    requires Reach(F, At(c, InWrite(t, Half(Scanning(1, 0)))))
    ensures Reach(F, At(c, InWrite(t, Half(Link.Free))))
  {
    Halves();
    hide Reach, EnvOf, One, Take, Relink, Visit;
    Collects(F, c, InWrite(t, Half(Scanning(1, 0))), K.ScanField(1, 1), InWrite(t, Half(Scanning(1, 1))));
    Collects(F, c, InWrite(t, Half(Scanning(1, 1))), K.DoneScan(1, 1), InWrite(t, Half(Link.Free)));
  }

  lemma HalfHeap()
    ensures K.NoLinks(Half(Link.Free), 1) && NothingRemembered(Half(Link.Free))
    ensures K.Unswept(Half(Link.Free)) == Half(Link.Free)
  {
    Chains(1, 1, One2(Marked, Link.Free), Two3(Marked, Pending(2)));
  }

  /** It answers, finds all remembered sets empty, and publishes ASYNC. */
  lemma AnswersAndDecides(k: K.State)
    requires Reach(F, At(M2(Mark), k)) && k == InWrite(Erasing(Some([])), Half(Link.Free))
    ensures Reach(F, At(M3(Mark, C.Finish(1, C.Leaving)), k))
  {
    MNexts(Mark);
    MStages();
    HalfHeap();
    hide Reach, C.Next, EnvOf, K.NoLinks;
    assert k.(genum := {}) == k;
    Answers(F, M2(Mark), k, 1, 1, M3(Mark, C.Finish(1, C.Leaving)), {});
  }

  lemma Decides1(k: K.State)
    requires Reach(F, At(M3(Mark, C.Finish(1, C.Leaving)), k)) && k == InWrite(Erasing(Some([])), Half(Link.Free))
    ensures Reach(F, At(M5(), k))
  {
    MDecides();
    MStages();
    HalfHeap();
    hide Reach, C.Next, EnvOf, NothingRemembered;
    Finishes(F, M3(Mark, C.Finish(1, C.Leaving)), k, 1, M3(Mark, C.Begin(Async, 1, C.Leaving)));
    PublishesAsync(k);
  }

  lemma PublishesAsync(k: K.State)
    requires Reach(F, At(M3(Mark, C.Begin(Async, 1, C.Leaving)), k.(scan := K.Passed)))
    requires k == InWrite(Erasing(Some([])), Half(Link.Free))
    ensures Reach(F, At(M5(), k))
  {
    MNextsOn();
    HalfHeap();
    hide Reach, C.Next, EnvOf, K.Unswept;
    Turns(F, M3(Mark, C.Begin(Async, 1, C.Leaving)), k.(scan := K.Passed), C.GlobalPhase(1), M5(), k);
  }

  // ---------------------------------------------------------------- the end of the write, and the sweep

  const LATE: Heap := Chain(1, 1, Obj([0], Marked, Link.Free), Two3(Marked, Remembered(2)))

  const PUSHED: Heap := Chain(1, 1, One2(Marked, Link.Free), Two3(Marked, Remembered(2)))

  lemma LateHeap()
    ensures Take(Half(Link.Free), Pending(2), Remembered(2)) == PUSHED && SetField(PUSHED, 1, 0, 0) == LATE
    ensures K.HasPending(Half(Link.Free), 2) && !K.HasPending(PUSHED, 2)
  {
    Chains(1, 1, One2(Marked, Link.Free), Two3(Marked, Remembered(2)));
    assert [2][0 := 0] == [0];
    assert 2 in Half(Link.Free) && Half(Link.Free)[2].link == Pending(2);
  }

  lemma PushesTooLate(c: C.State)
    requires Reach(F, At(c, InWrite(Erasing(Some([])), Half(Link.Free)))) && InSweep(c)
    ensures Reach(F, At(c, InWrite(Erasing(Some([])), PUSHED)))
  {
    Users(2, Mutator({1, 2}), Mutator({}));
    LateHeap();
    hide Reach, EnvOf, C.IdleOwner, At, One, Take, K.HasPending, Half, PUSHED;
    Pushes(F, c, InWrite(Erasing(Some([])), Half(Link.Free)), 2, Erasing(Some([])), InWrite(Erasing(Some([])), PUSHED));
  }

  lemma StoresAtLast(c: C.State)
    requires Reach(F, At(c, InWrite(Erasing(Some([])), PUSHED))) && InSweep(c)
    ensures Reach(F, At(c, InWrite(K.Running(2), LATE)))
  {
    Users(2, Mutator({1, 2}), Mutator({}));
    LateHeap();
    hide Reach, EnvOf, C.IdleOwner, At, One, SetField, K.HasPending, LATE;
    StoresIt(F, c, InWrite(Erasing(Some([])), PUSHED), 2, Erasing(Some([])), InWrite(K.Running(2), LATE));
  }

  /** ASYNC has been published and sent to nobody. */
  ghost predicate InSweep(c: C.State) {
    EnvOf(c) == K.Env(K.OnSweep, map[1 := K.Traced, 2 := K.Traced]) && C.IdleOwner(c, 2)
  }

  lemma SweepStages()
    ensures InSweep(M5())
  {
  }

  /** The state in which object 3 is about to be swept. */
  const LAST: State := At(M7(), InWrite(K.Running(2), LATE))

  /** Worker 1 sends itself ASYNC, and the thread of worker 2 begins to sweep for it. */
  lemma ToSweeping()
    requires Reach(F, At(M5(), InWrite(K.Running(2), LATE)))
    ensures Reach(F, LAST)
  {
    MNextsOn();
    hide Reach, C.Next, EnvOf, LATE;
    Shakes(F, M5(), InWrite(K.Running(2), LATE), C.SwitchOne(1, 1, false), M6());
    Shakes(F, M6(), InWrite(K.Running(2), LATE), C.HelpOther(2, 1), M7());
  }

  lemma LastIsReached()
    ensures Reach(F, LAST)
  {
    MarkStages();
    SweepStages();
    MStages();
    hide Reach, At, EnvOf, C.IdleOwner, A6, M5, M7, ROOTED, PENDING, PUSHED, LATE, Half, InMark, InSweep;
    ToMark();
    LoadsBoth(A6(Mark, 1));
    ReadsAndLooks(A6(Mark, 1));
    TestsAndSets(A6(Mark, 1));
    ToTracing(InWrite(Erasing(Some([])), PENDING));
    Traces(M2(Mark));
    AnswersAndDecides(InWrite(Erasing(Some([])), Half(Link.Free)));
    Decides1(InWrite(Erasing(Some([])), Half(Link.Free)));
    PushesTooLate(M5());
    StoresAtLast(M5());
    ToSweeping();
  }

  lemma LastSweep(k: K.State)
    requires k.heap == LATE && k.env.stage == map[1 := K.Sweeping, 2 := K.Traced]
    ensures K.CollectorStep(k, K.SweepObject(1, 3), k.(heap := LATE - {3})) && 3 in LATE
  {
  }

  lemma LastStep() returns (s': State)
    ensures Next(LAST, Thread(K.SweepObject(1, 3)), s') && 3 in LAST.k.heap && 3 !in s'.k.heap
  {
    MStages();
    LastSweep(LAST.k);
    hide EnvOf, LATE, K.CollectorStep, K.UserStep, K.MLStep, K.WriteStep;
    s' := LAST.(k := LAST.k.(heap := LATE - {3}));
  }

  lemma LastPath()
    ensures S.Path(LAST.k, [2, 3])
  {
    hide EnvOf;
    assert 2 in LAST.k.users[2].roots && S.Points(LAST.k.heap, 2, 3);
  }

  /** Without the condition on the answer safety fails: there is a run of the whole system in which nothing else goes
      wrong than a hasty answer of mark_finish, and its last step frees an object to which a path leads from the stack
      of a running user thread. */
  lemma HastyAnswerLosesAnObject() returns (ss: seq<State>, ls: seq<Step>, n: nat, path: seq<Ptr>)
    ensures IsRun(ss, ls)
    ensures forall i :: 0 <= i < |ls| && Breaks(ss[i], ls[i]) ==>
              ls[i].Handshake? && ls[i].h.Decide? && S.Hasty(ss[i].k, K.ScanEnd(ls[i].h.finished))
    ensures n < |ls| && ls[n].Handshake? && ls[n].h.Decide? && S.Hasty(ss[n].k, K.ScanEnd(ls[n].h.finished))
    ensures S.Path(ss[|ls| - 1].k, path) && path[|path| - 1] != 0
    ensures path[|path| - 1] in ss[|ls| - 1].k.heap && path[|path| - 1] !in ss[|ls|].k.heap
  {
    hide IsRun, S.Path, LAST, Next, Fragment, S.Hasty, Breaks;
    LastIsReached();
    var s' := LastStep();
    LastPath();
    path := [2, 3];
    ss, ls := OneMore(F, LAST, Thread(K.SweepObject(1, 3)), s');
    IsARun(F, ss, ls);
    if NoneBreaks(ss, ls, |ls|) { NothingReachableIsFreed(ss, ls, |ls| - 1, path); }
    n :| 0 <= n < |ls| && Breaks(ss[n], ls[n]);
  }
}
