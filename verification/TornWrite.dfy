/**
 A run of two workers in which two threads write to the same slot at the same time, and an object is freed that a third
 reading has left on a stack.

 The thread of worker 2, which has seen SYNC1, reads the slot of object 1 and is interrupted.  The thread of worker 1,
 which has not, stores object 2 there; it has no barrier yet.  SYNC2 is published.  When its stack has been enumerated,
 the thread of worker 1 loads object 2 from the slot.  Now the thread of worker 2 goes on: it remembers what it has read
 and overwrites object 2, which nobody has remembered.
 */
module TornWrite {
  import opened Phases
  import opened Wrappers
  import opened Marking
  import opened System
  import opened TwoWorkers
  import K = Collector
  import C = Control
  import S = Safety
  import Stall

  /** Nothing else goes wrong in the runs of this module. */
  const F: From := From(START, Tearing)

  // ---------------------------------------------------------------- heaps and users

  /** Object 1, in the heap of worker 2, is held by the global variable; its slot holds v. */
  function First(v: Ptr, color: Color, link: Link): Object { Object([v], color, link, 2, false) }

  /** Object 2, in the heap of worker 1. */
  const SECOND: Object := Object([], White, Link.Free, 1, false)

  function Alone(v: Ptr, k: nat): Heap { map[STATIC := Global(v, k), 1 := First(0, White, Link.Free)] }

  function Pair(v: Ptr, k: nat, color: Color, link: Link): Heap {
    map[STATIC := Global(1, k), 1 := First(v, color, link), 2 := SECOND]
  }

  lemma Pairs(v: Ptr, k: nat, color: Color, link: Link)
    ensures Pair(v, k, color, link).Keys == {STATIC, 1, 2}
    ensures SetField(Pair(v, k, color, link), 1, 0, 0) == Pair(0, k, color, link)
    ensures SetField(Pair(v, k, color, link), 1, 0, 2) == Pair(2, k, color, link)
    ensures forall l: Link :: Relink(Pair(v, k, color, link), 1, l) == Pair(v, k, color, l)
    ensures Relink(Pair(v, 0, color, link), STATIC, Static(1)) == Pair(v, 1, color, link)
    ensures K.Unswept(Pair(v, k, color, link)) == Pair(v, k, color, link)
    ensures !link.Pending? ==> !K.HasPending(Pair(v, k, color, link), 1) && !K.HasPending(Pair(v, k, color, link), 2)
  {
    assert [v][0 := 0] == [0] && [v][0 := 2] == [2];
  }

  function U1(roots: set<Ptr>, settled: bool): K.User { K.User(1, roots, settled, K.NoWalk) }

  function U2(settled: bool): K.User { K.User(2, {1}, settled, K.NoWalk) }

  function Users2(a: K.User, b: K.User): map<K.Uid, K.User> { map[1 := a, 2 := b] }

  lemma BothUsers(a: K.User, b: K.User)
    ensures Users2(a, b).Keys == {1, 2} && Users2(a, b)[1] == a && Users2(a, b)[2] == b
    ensures forall c: K.User :: Users2(a, b)[1 := c] == Users2(c, b) && Users2(a, b)[2 := c] == Users2(a, c)
  {
  }

  /** What the threads of both workers do. */
  function Tasks2(a: K.Task, b: K.Task): map<Worker, K.Task> { map[1 := a, 2 := b] }

  lemma BothTasks(a: K.Task, b: K.Task)
    ensures Tasks2(a, b).Keys == {1, 2} && Tasks2(a, b)[1] == a && Tasks2(a, b)[2] == b
    ensures Tasks2(a, b) - {1} == map[2 := b] && map[2 := b][1 := a] == Tasks2(a, b)
    ensures forall c: K.Task :: Tasks2(a, b)[1 := c] == Tasks2(c, b) && Tasks2(a, b)[2 := c] == Tasks2(a, c)
  {
  }

  function Erasing(todo: Option<seq<Ptr>>): K.Task { K.Writing(2, 1, 0, 0, 0, false, todo) }

  /** Both users, and the thread of worker 2 does t. */
  function With(a: K.User, b: K.User, t: K.Task, h: Heap, genum: set<Worker>): K.State {
    K.State(K.Env(K.Rest, map[]), h, Users2(a, b), map[2 := t], genum, K.Off)
  }

  /** The same while the thread of worker 1 runs ML code. */
  function And(a: K.User, b: K.User, t: K.Task, h: Heap): K.State {
    K.State(K.Env(K.Rest, map[]), h, Users2(a, b), Tasks2(K.Running(1), t), {}, K.Off)
  }

  // ---------------------------------------------------------------- before the collection

  ghost predicate AtRest(c: C.State) {
    EnvOf(c) == K.Env(K.Rest, map[1 := K.Plain, 2 := K.Plain]) && C.IdleOwner(c, 2)
  }

  lemma RestStages()
    ensures AtRest(Rest(0))
  {
  }

  function Maker(roots: set<Ptr>): K.User { K.User(2, roots, false, K.NoWalk) }

  lemma AloneHeap()
    ensures G(0, 0)[1 := First(0, White, Link.Free)] == Alone(0, 0)
    ensures SetField(Alone(0, 0), STATIC, 0, 1) == Alone(1, 0)
    ensures !K.HasPending(Alone(0, 0), 2) && K.Restart(Alone(1, 0)) == Alone(1, 0)
    ensures K.Unsettled(One(2, Maker({1}))) == One(2, Maker({1}))
  {
    assert [0][0 := 1] == [1];
  }

  /** The thread of worker 2 makes object 1 and keeps it in the global variable. */
  lemma Makes(c: C.State)
    requires Reach(F, At(c, Still(G(0, 0)))) && AtRest(c)
    ensures Reach(F, At(c, Busy(2, Maker({1}), 2, Alone(1, 0))))
  {
    Users(2, Maker({}), Maker({1}));
    AloneHeap();
    hide Reach, EnvOf, C.IdleOwner, At, One, SetField, K.HasPending;
    assert map[][2 := K.Running(2)] == map[2 := K.Running(2)] && {} + {1} == {1};
    Starts(F, c, Still(G(0, 0)), 2, 2, Maker({}), Busy(2, Maker({}), 2, G(0, 0)));
    Allocs(F, c, Busy(2, Maker({}), 2, G(0, 0)), 2, 2, 1, First(0, White, Link.Free),
           Busy(2, Maker({1}), 2, Alone(0, 0)));
    Publishes(c);
  }

  lemma Publishes(c: C.State)
    requires Reach(F, At(c, Busy(2, Maker({1}), 2, Alone(0, 0)))) && AtRest(c)
    ensures Reach(F, At(c, Busy(2, Maker({1}), 2, Alone(1, 0))))
  {
    Users(2, Maker({1}), Maker({1}));
    AloneHeap();
    hide Reach, EnvOf, C.IdleOwner, At, One, SetField, K.HasPending;
    WritesAll(F, c, Busy(2, Maker({1}), 2, Alone(0, 0)), 2, 2, STATIC, 0, 1, Busy(2, Maker({1}), 2, Alone(1, 0)));
  }

  /** A collection begins, and worker 2 is done with SYNC1. */
  lemma ToEarly(k: K.State)
    requires Reach(F, At(Rest(0), k)) && k == Busy(2, Maker({1}), 2, Alone(1, 0))
    ensures Reach(F, At(A6(Sync1, 1), k))
  {
    AloneHeap();
    hide Reach, At, EnvOf, C.Next, K.Unsettled, K.Restart, One, A5, A6;
    Begin(F, k, 0, k);
    EarlyOne(k);
  }

  lemma EarlyOne(k: K.State)
    requires Reach(F, At(A0(Async, Sync1, 1), k)) && Interruptible(k, 2)
    ensures Reach(F, At(A6(Sync1, 1), k))
  {
    ANexts(Async, Sync1, 1);
    hide Reach, EnvOf, C.Next, A5, A6;
    Shakes(F, A0(Async, Sync1, 1), k, C.GlobalPhase(2), A1(Async, Sync1, 1));
    RoundA(F, k, Async, Sync1, 1);
    EarlyTwo(k);
  }

  lemma EarlyTwo(k: K.State)
    requires Reach(F, At(A5(Sync1, 1), k))
    ensures Reach(F, At(A6(Sync1, 1), k))
  {
    ANextsLast(Sync1, 1);
    StagesIn(Sync1, 1);
    hide Reach, EnvOf, C.Next;
    Shakes(F, A5(Sync1, 1), k, C.Answer(2), A6(Sync1, 1));
  }

  // ---------------------------------------------------------------- SYNC1

  /** Worker 2 has seen SYNC1, worker 1 has not. */
  ghost predicate InSync1(c: C.State, w: Worker) {
    EnvOf(c) == K.Env(K.OnSync1(None), map[1 := K.Plain, 2 := K.Early]) && C.IdleOwner(c, w)
  }

  lemma Sync1Stages()
    ensures InSync1(A6(Sync1, 1), 2) && InSync1(M1(Sync1), 1)
  {
  }

  /** The thread of worker 2 reads the slot. */
  lemma ReadsSlot(c: C.State)
    requires Reach(F, At(c, Busy(2, Maker({1}), 2, Alone(1, 0)))) && InSync1(c, 2)
    ensures Reach(F, At(c, Lone(Alone(1, 0))))
  {
    Users(2, Maker({1}), U2(false));
    hide Reach, EnvOf, C.IdleOwner, At, One;
    assert map[2 := K.Running(2)][2 := Erasing(None)] == map[2 := Erasing(None)];
    Reads(F, c, Busy(2, Maker({1}), 2, Alone(1, 0)), 2, 2, 1, 0, 0, Lone(Alone(1, 0)));
  }

  /** It has read the slot, and no other thread is in ML code. */
  function Lone(h: Heap): K.State {
    K.State(K.Env(K.Rest, map[]), h, One(2, U2(false)), map[2 := Erasing(None)], {}, K.Off)
  }

  lemma EntersOne(k: K.State)
    requires Reach(F, At(A6(Sync1, 1), k))
    ensures Reach(F, At(M1(Sync1), k))
  {
    MNexts(Sync1);
    hide Reach, EnvOf, C.Next;
    Shakes(F, A6(Sync1, 1), k, C.Enter(1), M1(Sync1));
  }

  /** The thread of worker 1 starts and loads object 1. */
  lemma StartsOne(c: C.State)
    requires Reach(F, At(c, Lone(Alone(1, 0)))) && InSync1(c, 1)
    ensures Reach(F, At(c, And(U1({1}, false), U2(false), Erasing(None), Alone(1, 0))))
  {
    BothUsers(U1({}, false), U2(false));
    BothTasks(K.Running(1), Erasing(None));
    assert One(2, U2(false))[1 := U1({}, false)] == Users2(U1({}, false), U2(false));
    hide Reach, EnvOf, C.IdleOwner, At, One, Users2, Tasks2, Erasing;
    Starts(F, c, Lone(Alone(1, 0)), 1, 1, U1({}, false), And(U1({}, false), U2(false), Erasing(None), Alone(1, 0)));
    LoadsFirst(c);
  }

  lemma LoadsFirst(c: C.State)
    requires Reach(F, At(c, And(U1({}, false), U2(false), Erasing(None), Alone(1, 0)))) && InSync1(c, 1)
    ensures Reach(F, At(c, And(U1({1}, false), U2(false), Erasing(None), Alone(1, 0))))
  {
    BothUsers(U1({}, false), U2(false));
    BothTasks(K.Running(1), Erasing(None));
    hide Reach, EnvOf, C.IdleOwner, At, One, Users2, Tasks2, Erasing;
    assert {} + {1} == {1};
    Loads(F, c, And(U1({}, false), U2(false), Erasing(None), Alone(1, 0)), 1, 1, STATIC, 0,
          And(U1({1}, false), U2(false), Erasing(None), Alone(1, 0)));
  }

  const WHITE: Heap := Pair(0, 0, White, Link.Free)
  const TORN: Heap := Pair(2, 0, White, Link.Free)

  lemma TornHeap()
    ensures Alone(1, 0)[2 := SECOND] == WHITE && SetField(WHITE, 1, 0, 2) == TORN && !K.HasPending(WHITE, 1)
    ensures 1 in WHITE && |WHITE[1].fields| == 1
  {
    Pairs(0, 0, White, Link.Free);
  }

  /** It makes object 2, stores it in the slot, and forgets it. */
  lemma StoresSecond(c: C.State)
    requires Reach(F, At(c, And(U1({1}, false), U2(false), Erasing(None), Alone(1, 0)))) && InSync1(c, 1)
    ensures Reach(F, At(c, And(U1({1, 2}, false), U2(false), Erasing(None), TORN)))
  {
    BothUsers(U1({1}, false), U2(false));
    BothUsers(U1({1, 2}, false), U2(false));
    BothTasks(K.Running(1), Erasing(None));
    TornHeap();
    hide Reach, EnvOf, C.IdleOwner, At, Users2, Tasks2, SetField, K.HasPending, TORN;
    assert {1} + {2} == {1, 2};
    Allocs(F, c, And(U1({1}, false), U2(false), Erasing(None), Alone(1, 0)), 1, 1, 2, SECOND,
           And(U1({1, 2}, false), U2(false), Erasing(None), WHITE));
    WritesAll(F, c, And(U1({1, 2}, false), U2(false), Erasing(None), WHITE), 1, 1, 1, 0, 2,
              And(U1({1, 2}, false), U2(false), Erasing(None), TORN));
  }

  lemma ForgetsSecond(c: C.State)
    requires Reach(F, At(c, And(U1({1, 2}, false), U2(false), Erasing(None), TORN))) && InSync1(c, 1)
    ensures Reach(F, At(c, With(U1({1}, false), U2(false), Erasing(None), TORN, {})))
  {
    BothUsers(U1({1, 2}, false), U2(false));
    BothUsers(U1({1}, false), U2(false));
    BothTasks(K.Running(1), Erasing(None));
    hide Reach, EnvOf, C.IdleOwner, At, Users2, Tasks2, TORN;
    assert {1, 2} * {1} == {1};
    Drops(F, c, And(U1({1, 2}, false), U2(false), Erasing(None), TORN), 1, 1, {1},
          And(U1({1}, false), U2(false), Erasing(None), TORN));
    Quits(F, c, And(U1({1}, false), U2(false), Erasing(None), TORN), 1, 1,
          With(U1({1}, false), U2(false), Erasing(None), TORN, {}));
  }

  // ---------------------------------------------------------------- worker 1 leads into SYNC2

  function T5(): C.State {
    Stall.Two(Stall.U(Sync1, false, Open, C.Switching(Sync1, {1, 2}, 0, 1, C.Leaving), None), Calm(Sync1, Own),
              Sync2, 0, 1, {}, Some(1))
  }

  function T6(): C.State {
    Stall.Two(Stall.U(Sync2, true, Open, C.Switching(Sync1, {2}, 1, 1, C.Leaving), None), Calm(Sync1, Own),
              Sync2, 0, 1, {1}, Some(1))
  }

  function T7(): C.State {
    Stall.Two(Stall.U(Sync2, true, Open, C.Switching(Sync1, {}, 2, 1, C.Leaving), None),
              Stall.U(Sync2, true, Own, C.Idle, None), Sync2, 0, 1, {1, 2}, Some(1))
  }

  function T8(lock: Lock): C.State {
    Stall.Two(Stall.U(Sync2, true, lock, C.Idle, None), Stall.U(Sync2, true, Own, C.Idle, None),
              Sync2, 2, 1, {1, 2}, None)
  }

  function T9(): C.State {
    Stall.Two(Stall.U(Sync2, false, Own, C.Act(1, C.Greedy), Some(1)), Stall.U(Sync2, true, Own, C.Idle, None),
              Sync2, 2, 1, {1, 2}, None)
  }

  lemma TNexts()
    ensures C.Next(M3(Sync1, C.Begin(Sync2, 1, C.Leaving)), C.GlobalPhase(1), T5())
    ensures C.Next(T5(), C.SwitchOne(1, 1, false), T6())
  {
    Stall.SmallSets();
  }

  lemma TNextsMore()
    ensures C.Next(T6(), C.SwitchOne(1, 2, false), T7()) && C.Next(T7(), C.AddCount(1), T8(Open))
  {
    Stall.SmallSets();
  }

  lemma TNextsOn()
    ensures C.Next(T8(Open), C.Enter(1), T8(Own)) && C.Next(T8(Own), C.Check(1), T9())
  {
    Stall.SmallSets();
  }

  lemma TNextsLast()
    ensures C.Next(T9(), C.Answer(1), B7Own())
  {
    Stall.SmallSets();
  }

  lemma TStages()
    ensures EnvOf(M2(Sync1)).stage == map[1 := K.Early, 2 := K.Early]
    ensures EnvOf(T9()) == K.Env(K.OnSync2, map[1 := K.Rooting, 2 := K.Early])
  {
  }

  /** Worker 1 answers SYNC1 as it leaves ML code, and is to enumerate the globals. */
  lemma AnswersSync1(k: K.State, k': K.State)
    requires Reach(F, At(M1(Sync1), k)) && 1 !in k.task && k.genum == {} && k' == k.(genum := {1})
    ensures Reach(F, At(M3(Sync1, C.Begin(Sync2, 1, C.Leaving)), k'))
  {
    MNexts(Sync1);
    TStages();
    hide Reach, EnvOf, C.Next;
    Shakes(F, M1(Sync1), k, C.Leave(1), M2(Sync1));
    assert {} + {1} == {1};
    Turns(F, M2(Sync1), k, C.Answer(1), M3(Sync1, C.Begin(Sync2, 1, C.Leaving)), k');
  }

  /** SYNC2 is published and sent, in the middle of the write of worker 2. */
  lemma PublishesSync2(k: K.State)
    requires Reach(F, At(M3(Sync1, C.Begin(Sync2, 1, C.Leaving)), k)) && k.scan == K.Off && Interruptible(k, 1)
    ensures Reach(F, At(T9(), k))
  {
    TNexts();
    TNextsMore();
    hide Reach, EnvOf, C.Next;
    Shakes(F, M3(Sync1, C.Begin(Sync2, 1, C.Leaving)), k, C.GlobalPhase(1), T5());
    Shakes(F, T5(), k, C.SwitchOne(1, 1, false), T6());
    Shakes(F, T6(), k, C.SwitchOne(1, 2, false), T7());
    BeginsSync2(k);
  }

  lemma BeginsSync2(k: K.State)
    requires Reach(F, At(T7(), k)) && Interruptible(k, 1)
    ensures Reach(F, At(T9(), k))
  {
    TNextsMore();
    TNextsOn();
    hide Reach, EnvOf, C.Next;
    Shakes(F, T7(), k, C.AddCount(1), T8(Open));
    Shakes(F, T8(Open), k, C.Enter(1), T8(Own));
    Shakes(F, T8(Own), k, C.Check(1), T9());
  }

  const ROOTED: Heap := Pair(2, 1, Marked, Roots(1))

  lemma RootedHeap()
    ensures Visit(TORN, 1, Roots(1)) == Pair(2, 0, Marked, Roots(1))
    ensures Relink(Visit(Pair(2, 0, Marked, Roots(1)), 1, Roots(1)), STATIC, Static(1)) == ROOTED
  {
    Pairs(2, 0, White, Link.Free);
    Pairs(2, 0, Marked, Roots(1));
  }

  /** Worker 1 enumerates its stack and the global variable; both hold object 1. */
  lemma EnumeratesOne(c: C.State)
    requires Reach(F, At(c, With(U1({1}, false), U2(false), Erasing(None), TORN, {1})))
    requires EnvOf(c) == K.Env(K.OnSync2, map[1 := K.Rooting, 2 := K.Early])
    ensures Reach(F, At(c, With(U1({1}, true), U2(false), Erasing(None), ROOTED, {1})))
  {
    BothUsers(U1({1}, false), U2(false));
    RootedHeap();
    hide Reach, EnvOf, At, Users2, Visit, TORN, Relink;
    Walks(F, c, With(U1({1}, false), U2(false), Erasing(None), TORN, {1}), 1, 1, 1,
          With(U1({1}, true), U2(false), Erasing(None), Pair(2, 0, Marked, Roots(1)), {1}));
    EnumeratesGlobal(c);
  }

  lemma EnumeratesGlobal(c: C.State)
    requires Reach(F, At(c, With(U1({1}, true), U2(false), Erasing(None), Pair(2, 0, Marked, Roots(1)), {1})))
    requires EnvOf(c) == K.Env(K.OnSync2, map[1 := K.Rooting, 2 := K.Early])
    ensures Reach(F, At(c, With(U1({1}, true), U2(false), Erasing(None), ROOTED, {1})))
  {
    RootedHeap();
    hide Reach, EnvOf, Users2, Visit, Relink, ROOTED;
    Collects(F, c, With(U1({1}, true), U2(false), Erasing(None), Pair(2, 0, Marked, Roots(1)), {1}), K.WalkStatic(1),
             With(U1({1}, true), U2(false), Erasing(None), ROOTED, {1}));
  }

  lemma OneIsDone()
    ensures K.ActionDone(At(T9(), With(U1({1}, true), U2(false), Erasing(None), ROOTED, {1})).k, 1)
  {
    TStages();
    hide EnvOf;
  }

  lemma AnswersSync2()
    requires Reach(F, At(T9(), With(U1({1}, true), U2(false), Erasing(None), ROOTED, {1})))
    ensures Reach(F, At(B7Own(), With(U1({1}, true), U2(false), Erasing(None), ROOTED, {})))
  {
    TNextsLast();
    TStages();
    OneIsDone();
    assert {1} - {1} == {};
    hide Reach, EnvOf, C.Next, K.ActionDone, ROOTED;
    Answers(F, T9(), With(U1({1}, true), U2(false), Erasing(None), ROOTED, {1}), 1, 1, B7Own(), {});
  }

  // ---------------------------------------------------------------- the end of the write

  /** Worker 1 is done with SYNC2, worker 2 has not seen it. */
  ghost predicate InSync2(c: C.State, w: Worker) {
    EnvOf(c) == K.Env(K.OnSync2, map[1 := K.Rooted, 2 := K.Early]) && C.IdleOwner(c, w)
  }

  lemma Sync2Stages()
    ensures InSync2(B7Own(), 1) && InSync2(B7Own(), 2)
  {
  }

  /** The thread of worker 1 loads object 2 from the slot. */
  lemma LoadsSecond(c: C.State)
    requires Reach(F, At(c, With(U1({1}, true), U2(false), Erasing(None), ROOTED, {}))) && InSync2(c, 1)
    ensures Reach(F, At(c, With(U1({1, 2}, true), U2(false), Erasing(None), ROOTED, {})))
  {
    BothUsers(U1({1}, true), U2(false));
    BothUsers(U1({1, 2}, true), U2(false));
    BothTasks(K.Running(1), Erasing(None));
    assert {1} + {2} == {1, 2};
    hide Reach, EnvOf, C.IdleOwner, At, Users2, Tasks2, Erasing;
    Resumes(F, c, With(U1({1}, true), U2(false), Erasing(None), ROOTED, {}), 1, 1,
            And(U1({1}, true), U2(false), Erasing(None), ROOTED));
    Loads(F, c, And(U1({1}, true), U2(false), Erasing(None), ROOTED), 1, 1, 1, 0,
          And(U1({1, 2}, true), U2(false), Erasing(None), ROOTED));
    Quits(F, c, And(U1({1, 2}, true), U2(false), Erasing(None), ROOTED), 1, 1,
          With(U1({1, 2}, true), U2(false), Erasing(None), ROOTED, {}));
  }

  const ERASED: Heap := Pair(0, 1, Marked, Roots(1))

  lemma ErasedHeap()
    ensures SetField(ROOTED, 1, 0, 0) == ERASED && !K.HasPending(ROOTED, 2)
    ensures 1 in ROOTED && |ROOTED[1].fields| == 1 && !IsWhite(ROOTED, 0)
    ensures Visit(ERASED, 1, Roots(2)) == ERASED
    ensures K.NoLinks(ERASED, 2)
  {
    Pairs(2, 1, Marked, Roots(1));
    Pairs(0, 1, Marked, Roots(1));
  }

  /** The thread of worker 2 overwrites it; what it has read, NULL, needs no remembering. */
  lemma ErasesSecond(c: C.State)
    requires Reach(F, At(c, With(U1({1, 2}, true), U2(false), Erasing(None), ROOTED, {}))) && InSync2(c, 2)
    ensures Reach(F, At(c, With(U1({1, 2}, true), U2(false), K.Running(2), ERASED, {})))
  {
    BothUsers(U1({1, 2}, true), U2(false));
    ErasedHeap();
    hide Reach, EnvOf, C.IdleOwner, At, Users2, SetField, K.HasPending, ROOTED, ERASED;
    WritesOn(F, c, With(U1({1, 2}, true), U2(false), Erasing(None), ROOTED, {}), 2, Erasing(None),
             With(U1({1, 2}, true), U2(false), K.Running(2), ERASED, {}));
  }

  /** The state from then on: both stacks hold object 1, and that of user 1 object 2. */
  function Later(settled: bool, h: Heap): K.State { With(U1({1, 2}, true), U2(settled), K.Running(2), h, {}) }

  // ---------------------------------------------------------------- the rest of the collection

  lemma RootingTwo(k: K.State)
    requires Reach(F, At(B7Own(), k)) && 1 !in k.task && Interruptible(k, 2)
    ensures Reach(F, At(B8(Sync2, 1), k))
  {
    OwnNexts();
    hide Reach, EnvOf, C.Next, B8;
    Shakes(F, B7Own(), k, C.Leave(1), B7(Sync2, 1));
    RootsNext(F, k, 1);
  }

  lemma EnumeratesTwo()
    requires Reach(F, At(B8(Sync2, 1), Later(false, ERASED)))
    ensures Reach(F, At(B8(Sync2, 1), Later(true, ERASED)))
  {
    StagesIn(Sync2, 1);
    BothUsers(U1({1, 2}, true), U2(false));
    ErasedHeap();
    hide Reach, EnvOf, At, Users2, Visit, ERASED, B8;
    Walks(F, B8(Sync2, 1), Later(false, ERASED), 2, 2, 1, Later(true, ERASED));
  }

  /** Worker 2 is done with MARK, and helps worker 1, whose set holds object 1. */
  lemma ToTracing()
    requires Reach(F, At(B8(Sync2, 1), Later(true, ERASED)))
    ensures Reach(F, At(A7(Mark, 1), Later(true, ERASED)))
  {
    ErasedHeap();
    RootingTwoDone(Later(true, ERASED), 1);
    ANextsLast(Mark, 1);
    hide Reach, EnvOf, C.Next, ERASED, K.NoLinks, K.ActionDone;
    ToMarkPending(F, Later(true, ERASED), 1);
    Shakes(F, A6(Mark, 1), Later(true, ERASED), C.HelpOther(2, 1), A7(Mark, 1));
  }

  function Listed(link: Link): Heap { Pair(0, 1, Marked, link) }

  lemma Lists()
    ensures Take(ERASED, Roots(1), Stack(1)) == Listed(Stack(1))
    ensures forall a: Link, b: Link :: Relink(Listed(a), 1, b) == Listed(b)
    ensures forall a: Link, b: Link :: Visit(Listed(a), 0, b) == Listed(a)
  {
    forall a: Link, b: Link ensures Relink(Listed(a), 1, b) == Listed(b) { Pairs(0, 1, Marked, a); }
  }

  /** Object 1 is scanned; its slot is NULL. */
  lemma Traces(c: C.State)
    requires Reach(F, At(c, Later(true, ERASED))) && EnvOf(c) == K.Env(K.OnMark, map[1 := K.Tracing, 2 := K.Traced])
    ensures Reach(F, At(c, Later(true, Listed(Link.Free))))
  {
    Lists();
    hide Reach, EnvOf, Users2, Take, Relink, Visit;
    Collects(F, c, Later(true, ERASED), K.TakeList(1, false), Later(true, Listed(Stack(1))));
    Collects(F, c, Later(true, Listed(Stack(1))), K.Pop(1, 1), Later(true, Listed(Scanning(1, 0))));
    hide K.CollectorStep;
    Scans1(c);
  }

  lemma Scans1(c: C.State)
    requires Reach(F, At(c, Later(true, Listed(Scanning(1, 0)))))
    ensures Reach(F, At(c, Later(true, Listed(Link.Free))))
  {
    Lists();
    hide Reach, EnvOf, Users2, Take, Relink, Visit;
    Collects(F, c, Later(true, Listed(Scanning(1, 0))), K.ScanField(1, 1), Later(true, Listed(Scanning(1, 1))));
    Collects(F, c, Later(true, Listed(Scanning(1, 1))), K.DoneScan(1, 1), Later(true, Listed(Link.Free)));
  }

  const DONE: Heap := Listed(Link.Free)

  lemma DoneHeap()
    ensures K.NoLinks(DONE, 1) && NothingRemembered(DONE) && AllFree(DONE) && K.Unswept(DONE) == DONE
  {
    Pairs(0, 1, Marked, Link.Free);
  }

  /** The state in which object 2 is about to be swept. */
  const LAST: State := At(B5(Async, 1), Later(true, DONE))

  lemma ToSweeping()
    requires Reach(F, At(A7(Mark, 1), Later(true, DONE)))
    ensures Reach(F, LAST)
  {
    DoneHeap();
    hide Reach, At, A7, B0, B1, B5, DONE, K.NoLinks, NothingRemembered, AllFree, K.Unswept;
    TracesOneEnd(F, Later(true, DONE), 1);
    ToSending(F, Later(true, DONE), 1, Later(true, DONE));
    RoundB(F, Later(true, DONE), Mark, Async, 1);
  }

  // ---------------------------------------------------------------- the whole run

  lemma StartsCollection()
    ensures Reach(F, At(A6(Sync1, 1), Busy(2, Maker({1}), 2, Alone(1, 0))))
  {
    RestStages();
    Registers(F);
    hide Reach, At, EnvOf, C.IdleOwner, AtRest, A6;
    Makes(Rest(0));
    ToEarly(Busy(2, Maker({1}), 2, Alone(1, 0)));
  }

  lemma WritesInSync1()
    ensures Reach(F, At(M1(Sync1), With(U1({1}, false), U2(false), Erasing(None), TORN, {})))
  {
    Sync1Stages();
    StartsCollection();
    hide Reach, At, InSync1, A6, M1, TORN;
    ReadsSlot(A6(Sync1, 1));
    EntersOne(Lone(Alone(1, 0)));
    StartsOne(M1(Sync1));
    StoresSecond(M1(Sync1));
    ForgetsSecond(M1(Sync1));
  }

  lemma ToSync2Done()
    ensures Reach(F, At(B7Own(), With(U1({1}, true), U2(false), Erasing(None), ROOTED, {})))
  {
    WritesInSync1();
    TStages();
    var k := With(U1({1}, false), U2(false), Erasing(None), TORN, {});
    var k' := With(U1({1}, false), U2(false), Erasing(None), TORN, {1});
    hide Reach, At, EnvOf, M1, M3, T9, B7Own, TORN, ROOTED;
    AnswersSync1(k, k');
    PublishesSync2(k');
    EnumeratesOne(T9());
    AnswersSync2();
  }

  lemma LastIsReached()
    ensures Reach(F, LAST)
  {
    ToSync2Done();
    Sync2Stages();
    StagesIn(Mark, 1);
    TracingStages();
    hide Reach, At, EnvOf, InSync2, B7Own, B8, A7, ROOTED, ERASED, LAST;
    LoadsSecond(B7Own());
    ErasesSecond(B7Own());
    RootingTwo(Later(false, ERASED));
    EnumeratesTwo();
    ToTracing();
    Traces(A7(Mark, 1));
    ToSweeping();
  }

  lemma TracingStages()
    ensures EnvOf(A7(Mark, 1)) == K.Env(K.OnMark, map[1 := K.Tracing, 2 := K.Traced])
    ensures EnvOf(B5(Async, 1)) == K.Env(K.OnSweep, map[1 := K.Sweeping, 2 := K.SweepPending])
  {
  }

  lemma LastStep() returns (s': State)
    ensures Next(LAST, Thread(K.SweepObject(1, 2)), s') && 2 in LAST.k.heap && 2 !in s'.k.heap
  {
    TracingStages();
    hide EnvOf, K.UserStep, K.MLStep, K.WriteStep;
    s' := LAST.(k := LAST.k.(heap := DONE - {2}));
  }

  lemma LastPath()
    ensures S.Path(LAST.k, [2])
  {
    hide EnvOf;
    assert 2 in LAST.k.users[1].roots;
  }

  /** Without the condition on SYNC2 safety fails: there is a run of the whole system in which nothing else goes wrong
      than that SYNC2 is published in the middle of two writes to one slot, and its last step frees an object that is on
      the stack of a user thread. */
  lemma TornWriteLosesAnObject() returns (ss: seq<State>, ls: seq<Step>, n: nat, path: seq<Ptr>)
    ensures IsRun(ss, ls)
    ensures forall i :: 0 <= i < |ls| && Breaks(ss[i], ls[i]) ==>
              ls[i].Handshake? && !ls[i].h.Decide? && S.Torn(ss[i].k, K.Shake(EnvStepOf(ss[i].c, ls[i].h)))
    ensures n < |ls| && ls[n].Handshake? && !ls[n].h.Decide? && S.Torn(ss[n].k, K.Shake(EnvStepOf(ss[n].c, ls[n].h)))
    ensures S.Path(ss[|ls| - 1].k, path) && path[|path| - 1] != 0
    ensures path[|path| - 1] in ss[|ls| - 1].k.heap && path[|path| - 1] !in ss[|ls|].k.heap
  {
    hide IsRun, S.Path, LAST, Next, Fragment, S.Torn, Breaks, EnvStepOf;
    LastIsReached();
    var s' := LastStep();
    LastPath();
    path := [2];
    ss, ls := OneMore(F, LAST, Thread(K.SweepObject(1, 2)), s');
    IsARun(F, ss, ls);
    if NoneBreaks(ss, ls, |ls|) { NothingReachableIsFreed(ss, ls, |ls| - 1, path); }
    n :| 0 <= n < |ls| && Breaks(ss[n], ls[n]);
  }
}
