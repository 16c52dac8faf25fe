/**
 What every run of the collector keeps: no object a user thread can reach is freed, and when tracing is over every
 such object is marked or was never a target.
 */
module Safety {
  import opened Phases
  import opened Marking
  import opened Collector
  import opened Invariant
  import opened Barrier

  // ---------------------------------------------------------------- the collector's own steps

  lemma TakeListKeepsInv(s: State, w: Worker, remembered: bool, s': State)
    requires Inv(s) && CollectorStep(s, TakeList(w, remembered), s')
    ensures Inv(s')
  {
    hide FlightOf, TearsOk;
    TakeKeepsHeap(s.env, s.genum, s.heap, Flying(s), if remembered then Remembered(w) else Roots(w), Stack(w));
    ScansOnlyWhenTraced(s, w);
    HeapChange(s, s'.heap);
  }

  lemma RelinkKeepsInv(s: State, o: Ptr, w: Worker, link: Link)
    requires Inv(s) && o in s.heap && w in s.env.stage
    requires (s.heap[o].link == Stack(w) && link == Scanning(w, 0))
          || (s.heap[o].link == Scanning(w, |s.heap[o].fields|) && link == Link.Free)
    ensures Inv(s.(heap := Relink(s.heap, o, link)))
  {
    hide FlightOf, TearsOk;
    assert ObjOk(s.env, s.genum, o, s.heap[o]);
    RelinkKeepsHeap(s.env, s.genum, s.heap, Flying(s), o, link);
    ScansOnlyWhenTraced(s, w);
    HeapChange(s, Relink(s.heap, o, link));
  }

  /** Marking the value of the slot that is next in line, then moving on to the next slot. */
  lemma ScanKeepsInv(s: State, o: Ptr, w: Worker, k: nat, list: Link, link: Link)
    requires Inv(s) && o in s.heap && k < |s.heap[o].fields| && w in s.env.stage && s.scan == Off
    requires (s.heap[o].link == Scanning(w, k) && list == Stack(w) && link == Scanning(w, k + 1))
          || (o == STATIC && s.heap[o].link == Static(k) && s.env.stage[w] == Rooting && w in s.genum
              && list == Roots(w) && link == Static(k + 1))
    ensures Inv(s.(heap := Relink(Visit(s.heap, s.heap[o].fields[k], list), o, link)))
  {
    hide FlightOf, TearsOk;
    assert ObjOk(s.env, s.genum, o, s.heap[o]);
    var p := s.heap[o].fields[k];
    var h1 := Visit(s.heap, p, list);
    VisitKeepsHeap(s.env, s.genum, s.heap, Flying(s), p, list);
    HeapChange(s, h1);
    assert h1[o] == s.heap[o] && !IsWhite(h1, p);
    RelinkKeepsHeap(s.env, s.genum, h1, Flying(s), o, link);
    HeapChange(s.(heap := h1), Relink(h1, o, link));
  }

  lemma ScanFieldShape(s: State, w: Worker, o: Ptr, s': State)
    requires CollectorStep(s, ScanField(w, o), s')
    ensures o in s.heap && s.heap[o].link.Scanning? && s.heap[o].link.w == w && s.heap[o].link.k < |s.heap[o].fields|
    ensures var k := s.heap[o].link.k;
            s' == s.(heap := Relink(Visit(s.heap, s.heap[o].fields[k], Stack(w)), o, Scanning(w, k + 1)))
  {
    hide Visit, Relink;
  }

  lemma ScanFieldKeepsInv(s: State, w: Worker, o: Ptr, s': State)
    requires Inv(s) && CollectorStep(s, ScanField(w, o), s')
    ensures Inv(s')
  {
    ScanFieldShape(s, w, o, s');
    hide CollectorStep, FlightOf;
    assert ObjOk(s.env, s.genum, o, s.heap[o]);
    ScansOnlyWhenTraced(s, w);
    hide Inv, Visit, Relink, ObjOk;
    ScanKeepsInv(s, o, w, s.heap[o].link.k, Stack(w), Scanning(w, s.heap[o].link.k + 1));
  }

  lemma WalkStaticShape(s: State, w: Worker, s': State)
    requires CollectorStep(s, WalkStatic(w), s')
    ensures w in s.env.stage && s.env.stage[w] == Rooting && w in s.genum && STATIC in s.heap
            && s.heap[STATIC].link.Static?
    ensures s.heap[STATIC].link.k < |s.heap[STATIC].fields|
    ensures var k := s.heap[STATIC].link.k;
            s' == s.(heap := Relink(Visit(s.heap, s.heap[STATIC].fields[k], Roots(w)), STATIC, Static(k + 1)))
  {
    hide Visit, Relink;
  }

  lemma WalkStaticKeepsInv(s: State, w: Worker, s': State)
    requires Inv(s) && CollectorStep(s, WalkStatic(w), s')
    ensures Inv(s')
  {
    hide Inv, CollectorStep, Visit, Relink;
    WalkStaticShape(s, w, s');
    ScansOnlyWhenTraced(s, w);
    ScanKeepsInv(s, STATIC, w, s.heap[STATIC].link.k, Roots(w), Static(s.heap[STATIC].link.k + 1));
  }

  lemma WalkLockKeepsInv(s: State, w: Worker, u: Uid, s': State)
    requires Inv(s) && CollectorStep(s, WalkLock(w, u), s')
    ensures Inv(s')
  {
    hide FlightOf, TearsOk;
    assert UserOk(s.env, s.task, u, s.users[u]) && RootsOk(s.env.epoch, s.heap, Flying(s), s.users[u]);
    NobodyWrites(s, u);
    UserChange(s, u, s'.users[u]);
  }

  lemma WalkRootKeepsInv(s: State, u: Uid, p: Ptr, s': State)
    requires Inv(s) && CollectorStep(s, WalkRoot(u, p), s')
    ensures Inv(s')
  {
    hide FlightOf, TearsOk;
    var x := s.users[u];
    var w := x.walk.who;
    assert UserOk(s.env, s.task, u, x);
    if w != x.home { assert TaskOk(s.env, s.users, w, s.task[w]); }
    assert Tricolor(s.env.epoch);
    var h' := Visit(s.heap, p, Roots(w));
    VisitKeepsHeap(s.env, s.genum, s.heap, Flying(s), p, Roots(w));
    ScansOnlyWhenTraced(s, w);
    HeapChange(s, h');
    var s1 := s.(heap := h');
    NobodyWrites(s1, u);
    assert RootsOk(s.env.epoch, h', Flying(s), x);
    UserChange(s1, u, s'.users[u]);
    assert s' == SetUser(s1, u, s'.users[u]);
  }

  lemma WalkDoneKeepsInv(s: State, u: Uid, s': State)
    requires Inv(s) && CollectorStep(s, WalkDone(u), s')
    ensures Inv(s')
  {
    hide FlightOf, TearsOk;
    var x := s.users[u];
    assert UserOk(s.env, s.task, u, x) && RootsOk(s.env.epoch, s.heap, Flying(s), x);
    NobodyWrites(s, u);
    UserChange(s, u, s'.users[u]);
  }

  lemma ForgetKeepsInv(s: State, w: Worker, s': State)
    requires Inv(s) && CollectorStep(s, Forget(w), s')
    ensures Inv(s')
  {
    hide FlightOf, TearsOk;
    forall o <- s.heap ensures s.heap[o].link != Remembered(w) { assert ObjOk(s.env, s.genum, o, s.heap[o]); }
    assert s'.heap == s.heap;
  }

  lemma SweepKeepsInv(s: State, o: Ptr)
    requires Inv(s) && s.env.epoch.OnSweep? && o in s.heap && o != STATIC && !s.heap[o].swept
    ensures Inv(s.(heap := Sweep(s.heap, o)))
  {
    hide FlightOf, TearsOk;
    SweepKeepsHeap(s.env, s.genum, s.heap, Flying(s), o);
    HeapChange(s, Sweep(s.heap, o));
  }

  /** sml_heap_mark_finish says that tracing is over although a thread has marked an object and has yet to put it on its
      remembered set, or has put it there after the set was read, or has yet to mark what it has overwritten. */
  ghost predicate Hasty(s: State, l: Step) {
    l == ScanEnd(true) && !Clean(s.heap, Flying(s))
  }

  lemma ScanStepKeepsInv(s: State, l: Step, s': State)
    requires Inv(s) && CollectorStep(s, l, s') && (l.ScanStart? || l.ScanOne? || l.ScanPass? || l.ScanEnd?)
    requires !Hasty(s, l)
    ensures Inv(s')
  {
    hide SlotsOk, SlotsVal, RootsOk, UserOk, TaskOk, WriteOk, TearsOk, FlightOf;
  }

  lemma HastyBreaksInv(s: State, l: Step, s': State)
    requires CollectorStep(s, l, s') && Hasty(s, l)
    ensures s'.scan == Passed && !Inv(s')
  {
    hide FlightOf, HeapOk, AllRootsOk, UsersOk, TasksOk, WritesOk, TearsOk;
  }

  // ---------------------------------------------------------------- user threads

  lemma StartUserKeepsInv(s: State, w: Worker, u: Uid, s': State)
    requires Inv(s) && UserStep(s, StartUser(w, u), s')
    ensures Inv(s')
  {
    hide FlightOf, TearsOk;
    TaskChange(s, w, Running(u), s'.users[u]);
  }

  lemma EndUserKeepsInv(s: State, u: Uid, s': State)
    requires Inv(s) && UserStep(s, EndUser(u), s')
    ensures Inv(s')
  {
    hide HeapOk, ScanOk, RootsOk, FlightOf, TearsOk;
    forall w <- s.task ensures WriteOk(s.env, s.heap, Flying(s), s'.users, w, s.task[w]) {
      assert WriteOk(s.env, s.heap, Flying(s), s.users, w, s.task[w]);
    }
  }

  lemma ResumeKeepsInv(s: State, w: Worker, u: Uid, s': State)
    requires Inv(s) && UserStep(s, Resume(w, u), s')
    ensures Inv(s')
  {
    hide FlightOf, TearsOk;
    var x := s.users[u];
    assert UserOk(s.env, s.task, u, x) && RootsOk(s.env.epoch, s.heap, Flying(s), x);
    TaskChange(s, w, Running(u), x);
    assert s' == SetUser(s, u, x).(task := s.task[w := Running(u)]);
  }

  lemma QuitKeepsInv(s: State, w: Worker, s': State)
    requires Inv(s) && UserStep(s, Quit(w), s')
    ensures Inv(s')
  {
    NotWriting(s.env, s.heap, w, s.task[w]);
    QuitSets(s, w, s');
    hide HeapOk, ScanOk, RootsOk, FlightOf, TearsOk;
    forall u <- s.users ensures UserOk(s.env, s'.task, u, s.users[u]) { assert UserOk(s.env, s.task, u, s.users[u]); }
  }

  lemma QuitSets(s: State, w: Worker, s': State)
    requires w in s.task && s.task[w].Running? && s'.task == s.task - {w}
    ensures FlightOf(s.env, s.heap, s'.task) == Flying(s)
    ensures TearsOk(s.env, s.heap, s.task) ==> TearsOk(s.env, s.heap, s'.task)
  {
    NotWriting(s.env, s.heap, w, s.task[w]);
    hide Owing, IsLoose, Promised, FlightOf, TearsOk;
    SameSets(s.env, s.heap, s.task, s'.task);
  }

  lemma ArriveKeepsInv(s: State, w: Worker, u: Uid, s': State)
    requires Inv(s) && UserStep(s, Arrive(w, u), s')
    ensures Inv(s')
  {
    hide FlightOf, TearsOk;
    var x := s.users[u];
    assert UserOk(s.env, s.task, u, x) && RootsOk(s.env.epoch, s.heap, Flying(s), x);
    TaskChange(s, w, s'.task[w], x);
    assert s' == SetUser(s, u, x).(task := s.task[w := s'.task[w]]);
  }

  /** Finding the lock taken, and a spurious failure to take it. */
  lemma WaitKeepsInv(s: State, l: Step, s': State)
    requires Inv(s) && UserStep(s, l, s') && (l.SeeBusy? || l.Spurious?)
    ensures Inv(s')
  {
    hide FlightOf, TearsOk;
    var w := l.w;
    var u := s.task[w].u;
    var x := s.users[u];
    assert UserOk(s.env, s.task, u, x) && TaskOk(s.env, s.users, w, s.task[w]);
    assert RootsOk(s.env.epoch, s.heap, Flying(s), x);
    TaskChange(s, w, s'.task[w], x);
    assert s' == SetUser(s, u, x).(task := s.task[w := s'.task[w]]);
  }

  /** A thread that moves a user over without taking the lock finds no one enumerating the user's stack. */
  lemma LockFreeMoveFindsNoWalk(s: State, w: Worker)
    requires UsersOk(s.env, s.task, s.users) && TasksOk(s.env, s.users, s.task) && EnvOk(s.env) && Moves(s, w)
             && s.task[w].when.Outside?
    ensures s.users[s.task[w].u].walk == NoWalk
    ensures forall v <- s.env.stage :: s.env.stage[v] != Rooting
  {
    var u := s.task[w].u;
    assert UserOk(s.env, s.task, u, s.users[u]) && TaskOk(s.env, s.users, w, s.task[w]);
  }

  lemma MoveKeepsInv(s: State, w: Worker, s': State)
    requires Inv(s) && UserStep(s, Move(w), s')
    ensures Inv(s')
  {
    hide FlightOf, TearsOk;
    var u := s.task[w].u;
    var x := s.users[u];
    assert UserOk(s.env, s.task, u, x) && TaskOk(s.env, s.users, w, s.task[w]);
    assert RootsOk(s.env.epoch, s.heap, Flying(s), x);
    LockFreeMoveFindsNoWalk(s, w);
    TaskChange(s, w, Running(u), x.(home := w));
  }

  /** A thread in SYNC2 takes the lock at a second attempt, concludes that the stack has been enumerated, and it has not
      been. */
  predicate Skips(s: State, l: Step) {
    l.LockUser? && Moves(s, l.w) && s.task[l.w].when.After? && s.task[l.w].waited && !s.users[s.task[l.w].u].settled
  }

  lemma SkipBreaksInv(s: State, l: Step, s': State)
    requires UserStep(s, l, s') && Skips(s, l)
    ensures !UserOk(s'.env, s'.task, s.task[l.w].u, s'.users[s.task[l.w].u]) && !Inv(s')
  {
    hide FlightOf, HeapOk, AllRootsOk, TasksOk, WritesOk, TearsOk, ScanOk;
  }

  lemma LockUserKeepsInv(s: State, w: Worker, s': State)
    requires Inv(s) && UserStep(s, LockUser(w), s') && !Skips(s, LockUser(w))
    ensures Inv(s')
  {
    hide FlightOf, TearsOk;
    var u := s.task[w].u;
    var x := s.users[u];
    assert UserOk(s.env, s.task, u, x) && TaskOk(s.env, s.users, w, s.task[w]);
    assert RootsOk(s.env.epoch, s.heap, Flying(s), x);
    UserChange(s, u, s'.users[u]);
  }

  lemma PublishKeepsInv(s: State, w: Worker, s': State)
    requires Inv(s) && UserStep(s, Publish(w), s')
    ensures Inv(s')
  {
    hide FlightOf, TearsOk;
    var u := s.task[w].u;
    var x := s.users[u];
    assert UserOk(s.env, s.task, u, x) && TaskOk(s.env, s.users, w, s.task[w]);
    assert RootsOk(s.env.epoch, s.heap, Flying(s), x);
    TaskChange(s, w, Running(u), s'.users[u]);
  }

  // ---------------------------------------------------------------- ML code

  lemma DropRootsKeepsInv(s: State, w: Worker, keep: set<Ptr>, s': State)
    requires Inv(s) && MLStep(s, DropRoots(w, keep), s')
    ensures Inv(s')
  {
    hide FlightOf, TearsOk;
    var u := s.task[w].u;
    RunningIsUnlocked(s, w);
    assert UserOk(s.env, s.task, u, s.users[u]) && RootsOk(s.env.epoch, s.heap, Flying(s), s.users[u]);
    UserChange(s, u, s'.users[u]);
  }

  lemma LoadKeepsInv(s: State, w: Worker, o: Ptr, k: nat, s': State)
    requires Inv(s) && MLStep(s, Load(w, o, k), s')
    ensures Inv(s')
  {
    hide FlightOf, TearsOk;
    var u := s.task[w].u;
    RunningIsUnlocked(s, w);
    SlotIsSafe(s, w, o, k);
    assert UserOk(s.env, s.task, u, s.users[u]) && RootsOk(s.env.epoch, s.heap, Flying(s), s.users[u]);
    UserChange(s, u, s'.users[u]);
  }

  lemma AllocKeepsInv(s: State, w: Worker, p: Ptr, init: seq<Ptr>, s': State)
    requires Inv(s) && MLStep(s, Alloc(w, p, init), s')
    ensures Inv(s')
  {
    var u := s.task[w].u;
    var x := s'.heap[p];
    RunningIsUnlocked(s, w);
    assert forall k :: (p, k) !in Flying(s).loose;
    hide FlightOf, TearsOk;
    assert RootsOk(s.env.epoch, s.heap, Flying(s), s.users[u]);
    AllocKeepsHeap(s.env, s.genum, s.heap, Flying(s), p, x);
    if s.scan == Passed { AllocKeepsClean(s.heap, Flying(s), p, x); }
    ScanStays(s, s'.heap);
    HeapChange(s, s'.heap);
    var s1 := s.(heap := s'.heap);
    assert UserOk(s.env, s.task, u, s.users[u]) && RootsOk(s.env.epoch, s1.heap, Flying(s), s.users[u]);
    UserChange(s1, u, s'.users[u]);
    assert s' == SetUser(s1, u, s'.users[u]);
  }

  lemma AllocKeepsClean(h: Heap, q: Flight, p: Ptr, x: Object)
    requires x.link == Link.Free && x.color != White
    ensures Clean(h, q) ==> Clean(h[p := x], q)
  {
  }

  // ---------------------------------------------------------------- handshakes

  /** A worker whose thread is writing is at most sent a signal. */
  ghost predicate CalmFor(env: Env, env': Env, w: Worker) {
    w in env.stage && w in env'.stage
    && (env'.stage[w] == env.stage[w] || (env.stage[w] == Rooted && env'.stage[w] == MarkPending)
        || (env.stage[w] == Traced && env'.stage[w] in {MarkPending, SweepPending}))
  }

  lemma FlightOfEnv(env: Env, env': Env, h: Heap, task: map<Worker, Task>)
    requires forall w <- task :: task[w].Writing? ==> CalmFor(env, env', w)
    ensures FlightOf(env', h, task) == FlightOf(env, h, task)
  {
    forall w <- task ensures Owing(env', w, task[w]) == Owing(env, w, task[w]) { }
    hide Owing, IsLoose;
    assert FlightOf(env', h, task).held == FlightOf(env, h, task).held;
  }

  lemma TearsOfEnv(env: Env, env': Env, h: Heap, task: map<Worker, Task>)
    requires TearsOk(env, h, task) && EnvOk(env) && EnvOk(env') && env'.epoch == env.epoch
    requires forall w <- task :: task[w].Writing? ==> CalmFor(env, env', w)
    ensures TearsOk(env', h, task)
  {
    if Tricolor(env.epoch) {
      forall w <- task | IsLoose(h, task[w]) && w in env'.stage && env'.stage[w] == Early
        ensures var p := h[task[w].o].fields[task[w].k];
                !IsWhite(h, p) || exists v <- task :: Promised(env', v, task[v], p)
      {
        var p := h[task[w].o].fields[task[w].k];
        assert StageFits(env.epoch, Early) && env.stage[w] == Early;
        if IsWhite(h, p) {
          var v :| v in task && Promised(env, v, task[v], p);
          assert StageFits(env.epoch, env'.stage[v]);
          assert Promised(env', v, task[v], p);
        }
      }
    }
  }

  lemma WriteOfEnv(env: Env, env': Env, h: Heap, q: Flight, users: map<Uid, User>, w: Worker, t: Task)
    requires WriteOk(env, h, q, users, w, t) && env'.epoch == env.epoch && (t.Writing? ==> CalmFor(env, env', w))
    ensures WriteOk(env', h, q, users, w, t)
  {
  }

  /** The objects, the users and the threads do not mind a change of stage that each of them does not mind. */
  lemma EnvChange(s: State, env: Env, genum: set<Worker>)
    requires Inv(s) && EnvOk(env) && env.epoch == s.env.epoch
    requires forall p, o :: ObjOk(s.env, s.genum, p, o) && p in s.heap && s.heap[p] == o ==> ObjOk(env, genum, p, o)
    requires forall u :: u in s.users && UserOk(s.env, s.task, u, s.users[u]) ==> UserOk(env, s.task, u, s.users[u])
    requires forall w :: w in s.task && TaskOk(s.env, s.users, w, s.task[w]) ==> TaskOk(env, s.users, w, s.task[w])
    requires forall w <- s.task :: s.task[w].Writing? ==> CalmFor(s.env, env, w)
    requires ScanOk(env, s.heap, Flying(s), s.scan)
    ensures Inv(s.(env := env, genum := genum))
  {
    hide SlotsOk, SlotsVal, RootsOk, ScanOk, UserOk, TaskOk, FlightOf, TearsOk, WriteOk, CalmFor;
    FlightOfEnv(s.env, env, s.heap, s.task);
    TearsOfEnv(s.env, env, s.heap, s.task);
    forall w <- s.task ensures WriteOk(env, s.heap, Flying(s), s.users, w, s.task[w]) {
      WriteOfEnv(s.env, env, s.heap, Flying(s), s.users, w, s.task[w]);
    }
  }

  /** Writers keep calm. */
  lemma WritersKeepCalm(s: State, e: EnvStep, s': State)
    requires TasksOk(s.env, s.users, s.task) && EnvEffect(s, e, s')
    requires e.Join? || e.Die? || e.Accept? || e.Send? || e.Done?
    ensures forall w <- s.task :: s.task[w].Writing? ==> CalmFor(s.env, s'.env, w)
  {
    hide ActionDone;
    forall w <- s.task | s.task[w].Writing? ensures CalmFor(s.env, s'.env, w) {
      assert TaskOk(s.env, s.users, w, s.task[w]);
    }
  }

  lemma JoinKeepsInv(s: State, w: Worker, s': State)
    requires Inv(s) && EnvEffect(s, Join(w), s')
    ensures Inv(s')
  {
    WritersKeepCalm(s, Join(w), s');
    hide SlotsOk, SlotsVal, RootsOk, FlightOf, TearsOk, WriteOk, CalmFor;
    forall p, o | ObjOk(s.env, s.genum, p, o) && p in s.heap && s.heap[p] == o ensures ObjOk(s'.env, s.genum, p, o) { }
    EnvChange(s, s'.env, s.genum);
  }

  lemma DieKeepsInv(s: State, w: Worker, s': State)
    requires Inv(s) && EnvEffect(s, Die(w), s')
    ensures Inv(s')
  {
    WritersKeepCalm(s, Die(w), s');
    hide SlotsOk, SlotsVal, RootsOk, FlightOf, TearsOk, WriteOk, CalmFor;
    forall p, o | ObjOk(s.env, s.genum, p, o) && p in s.heap && s.heap[p] == o ensures ObjOk(s'.env, s.genum, p, o) { }
    EnvChange(s, s'.env, s.genum);
  }

  lemma AcceptKeepsObject(s: State, w: Worker, s': State, p: Ptr)
    requires EnvOk(s.env) && EnvEffect(s, Accept(w), s') && p in s.heap && ObjOk(s.env, s.genum, p, s.heap[p])
    ensures ObjOk(s'.env, s'.genum, p, s.heap[p])
  {
  }

  lemma AcceptKeepsUser(s: State, w: Worker, s': State, u: Uid)
    requires EnvOk(s.env) && EnvEffect(s, Accept(w), s') && TasksOk(s.env, s.users, s.task)
    requires u in s.users && UserOk(s.env, s.task, u, s.users[u])
    ensures UserOk(s'.env, s.task, u, s.users[u])
  {
  }

  lemma AcceptKeepsTask(s: State, w: Worker, s': State, v: Worker)
    requires EnvOk(s.env) && EnvEffect(s, Accept(w), s') && v in s.task && TaskOk(s.env, s.users, v, s.task[v])
    ensures TaskOk(s'.env, s.users, v, s.task[v])
  {
  }

  lemma AcceptKeepsInv(s: State, w: Worker, s': State)
    requires Inv(s) && EnvEffect(s, Accept(w), s')
    ensures Inv(s')
  {
    WritersKeepCalm(s, Accept(w), s');
    hide SlotsOk, SlotsVal, AllRootsOk, FlightOf, TearsOk, WritesOk, CalmFor, ObjOk, UserOk, TaskOk;
    forall p <- s.heap ensures ObjOk(s'.env, s.genum, p, s.heap[p]) { AcceptKeepsObject(s, w, s', p); }
    forall u <- s.users ensures UserOk(s'.env, s.task, u, s.users[u]) { AcceptKeepsUser(s, w, s', u); }
    forall v <- s.task ensures TaskOk(s'.env, s.users, v, s.task[v]) { AcceptKeepsTask(s, w, s', v); }
    ScansOnlyWhenTraced(s, w);
    EnvChange(s, s'.env, s.genum);
  }

  lemma SendKeepsInv(s: State, w: Worker, s': State)
    requires Inv(s) && EnvEffect(s, Send(w), s')
    ensures Inv(s')
  {
    WritersKeepCalm(s, Send(w), s');
    hide SlotsOk, SlotsVal, RootsOk, FlightOf, TearsOk, WriteOk, CalmFor;
    forall p, o | ObjOk(s.env, s.genum, p, o) && p in s.heap && s.heap[p] == o ensures ObjOk(s'.env, s.genum, p, o) { }
    EnvChange(s, s'.env, s.genum);
  }

  lemma DoneKeepsObject(s: State, w: Worker, s': State, p: Ptr)
    requires EnvOk(s.env) && EnvEffect(s, Done(w), s') && p in s.heap && ObjOk(s.env, s.genum, p, s.heap[p])
    ensures ObjOk(s'.env, s'.genum, p, s.heap[p])
  {
    var o := s.heap[p];
    if p == STATIC && s.env.epoch.OnSync2? && o.link.k != |o.fields| {
      var v :| v in s.genum && v in s.env.stage && s.env.stage[v] in {Early, Rooting};
      assert v != w && v in s'.genum && s'.env.stage[v] == s.env.stage[v];
    }
  }

  lemma DoneKeepsInv(s: State, w: Worker, s': State)
    requires Inv(s) && EnvEffect(s, Done(w), s')
    ensures Inv(s')
  {
    WritersKeepCalm(s, Done(w), s');
    hide SlotsOk, SlotsVal, RootsOk, FlightOf, TearsOk, WriteOk, CalmFor;
    forall p, o | ObjOk(s.env, s.genum, p, o) && p in s.heap && s.heap[p] == o ensures ObjOk(s'.env, s'.genum, p, o) {
      DoneKeepsObject(s, w, s', p);
    }
    forall u | u in s.users && UserOk(s.env, s.task, u, s.users[u]) ensures UserOk(s'.env, s.task, u, s.users[u]) {
      DoneKeepsUser(s, w, s', u);
    }
    forall v | v in s.task && TaskOk(s.env, s.users, v, s.task[v]) ensures TaskOk(s'.env, s.users, v, s.task[v]) {
      DoneKeepsTask(s, w, s', v);
    }
    ScansOnlyWhenTraced(s, w);
    hide UserOk, TaskOk, ObjOk, HeapOk, AllRootsOk, ActionDone;
    EnvChange(s, s'.env, s'.genum);
  }

  lemma DoneKeepsUser(s: State, w: Worker, s': State, u: Uid)
    requires EnvEffect(s, Done(w), s') && EnvOk(s.env) && u in s.users && UserOk(s.env, s.task, u, s.users[u])
    ensures UserOk(s'.env, s.task, u, s.users[u])
  {
  }

  lemma DoneKeepsTask(s: State, w: Worker, s': State, v: Worker)
    requires EnvEffect(s, Done(w), s') && EnvOk(s.env) && v in s.task && TaskOk(s.env, s.users, v, s.task[v])
    ensures TaskOk(s'.env, s.users, v, s.task[v])
  {
    hide ActionDone;
  }

  /** A step that publishes something leaves the stages and the fields alone, and so what writes in flight hold. */
  lemma EpochFlight(s: State, s': State)
    requires s'.env.stage == s.env.stage && s'.task == s.task && s'.heap.Keys == s.heap.Keys
    requires SameFields(s.heap, s'.heap)
    ensures Flying(s') == Flying(s)
  {
    forall w <- s.task
      ensures Owing(s'.env, w, s.task[w]) == Owing(s.env, w, s.task[w])
      ensures IsLoose(s'.heap, s.task[w]) == IsLoose(s.heap, s.task[w])
    {
    }
    hide Owing, IsLoose;
    assert Flying(s').loose == Flying(s).loose;
  }

  lemma ElectKeepsInv(s: State, w: Worker, s': State)
    requires Inv(s) && EnvEffect(s, Elect(w), s')
    ensures Inv(s')
  {
    EpochFlight(s, s');
    hide FlightOf;
    forall u <- s.users
      ensures RootsOk(s'.env.epoch, s'.heap, Flying(s'), s'.users[u]) && UserOk(s'.env, s'.task, u, s'.users[u])
    {
      assert RootsOk(s.env.epoch, s.heap, Flying(s), s.users[u]) && UserOk(s.env, s.task, u, s.users[u]);
    }
    EpochKeepsWrites(s, s');
    assert SlotsVal(s'.env.epoch, s'.heap);
  }

  /** Before SYNC2 and after the end of tracing a write in flight asks for little. */
  lemma EpochKeepsWrites(s: State, s': State)
    requires Inv(s) && s'.env.stage == s.env.stage && s'.task == s.task && s'.heap.Keys == s.heap.Keys
    requires SameFields(s.heap, s'.heap) && s'.users.Keys == s.users.Keys && !Tricolor(s'.env.epoch)
    requires forall u <- s.users :: s'.users[u].roots == s.users[u].roots
    requires forall p :: p in s.heap && Garbage(s'.env.epoch, s'.heap[p]) ==> Garbage(s.env.epoch, s.heap[p])
    requires Marks(s'.env.epoch) ==> Marks(s.env.epoch) || All(s.env, Plain)
    requires forall p :: p in s.heap && Marks(s'.env.epoch) && IsWhite(s'.heap, p) ==> IsWhite(s.heap, p)
    ensures WritesOk(s'.env, s'.heap, Flying(s'), s'.users, s'.task) && TearsOk(s'.env, s'.heap, s'.task)
  {
    hide FlightOf;
    forall w <- s.task ensures WriteOk(s'.env, s'.heap, Flying(s'), s'.users, w, s.task[w]) {
      assert WriteOk(s.env, s.heap, Flying(s), s.users, w, s.task[w]);
    }
  }

  lemma OpenGcKeepsUsers(s: State, s': State)
    requires Inv(s) && EnvEffect(s, OpenGc, s')
    ensures AllRootsOk(s'.env.epoch, s'.heap, Flying(s'), s'.users) && UsersOk(s'.env, s'.task, s'.users)
  {
    hide FlightOf, HeapOk, TearsOk, WritesOk;
    forall u <- s.users
      ensures RootsOk(s'.env.epoch, s'.heap, Flying(s'), s'.users[u]) && UserOk(s'.env, s'.task, u, s'.users[u])
    {
      assert RootsOk(s.env.epoch, s.heap, Flying(s), s.users[u]) && UserOk(s.env, s.task, u, s.users[u]);
      assert !s.users[u].walk.NoWalk? && s.users[u].walk.who in s.task
             ==> TaskOk(s.env, s.users, s.users[u].walk.who, s.task[s.users[u].walk.who]);
    }
  }

  lemma OpenGcKeepsInv(s: State, s': State)
    requires Inv(s) && EnvEffect(s, OpenGc, s')
    ensures Inv(s')
  {
    EpochFlight(s, s');
    OpenGcKeepsUsers(s, s');
    hide FlightOf;
    EpochKeepsWrites(s, s');
    hide UserOk, RootsOk, WritesOk, TearsOk;
  }

  lemma Sync1BeginsKeepsInv(s: State, s': State)
    requires Inv(s) && EnvEffect(s, Sync1Begins, s')
    ensures Inv(s')
  {
    EpochFlight(s, s');
    hide FlightOf;
    forall u <- s.users ensures RootsOk(s'.env.epoch, s'.heap, Flying(s'), s'.users[u]) {
      assert RootsOk(s.env.epoch, s.heap, Flying(s), s.users[u]);
    }
    EpochKeepsWrites(s, s');
  }

  lemma Sync2BeginsKeepsStatic(s: State, s': State)
    requires EnvOk(s.env) && EnvEffect(s, Sync2Begins, s') && STATIC in s.heap
             && StaticOk(s.env, s.genum, s.heap[STATIC])
    ensures StaticOk(s'.env, s'.genum, s'.heap[STATIC])
  {
    var c := s.env.epoch.chosen.value;
    assert c in s'.genum && c in s'.env.stage && s'.env.stage[c] == Early;
  }

  /** SYNC2 is published while a thread is about to overwrite a white object that it does not know of: a worker that had
      not seen SYNC1 yet has stored it after the thread had read the slot. */
  ghost predicate Torn(s: State, l: Step) {
    l == Shake(Sync2Begins)
    && exists w <- s.task ::
         IsLoose(s.heap, s.task[w]) && IsWhite(s.heap, s.heap[s.task[w].o].fields[s.task[w].k])
         && s.heap[s.task[w].o].fields[s.task[w].k] !in Flying(s).held
  }

  lemma Sync2BeginsKeepsWrites(s: State, s': State)
    requires Inv(s) && EnvEffect(s, Sync2Begins, s') && !Torn(s, Shake(Sync2Begins))
    ensures WritesOk(s'.env, s'.heap, Flying(s'), s'.users, s'.task) && TearsOk(s'.env, s'.heap, s'.task)
  {
    EpochFlight(s, s');
    forall w <- s.task ensures WriteOk(s'.env, s'.heap, Flying(s'), s'.users, w, s.task[w]) {
      assert WriteOk(s.env, s.heap, Flying(s), s.users, w, s.task[w]);
      if s.task[w].Writing? { assert UserOk(s.env, s.task, s.task[w].u, s.users[s.task[w].u]); }
    }
    forall w <- s.task | IsLoose(s.heap, s.task[w])
      ensures var p := s.heap[s.task[w].o].fields[s.task[w].k];
              !IsWhite(s.heap, p) || exists v <- s.task :: Promised(s'.env, v, s.task[v], p)
    {
      var p := s.heap[s.task[w].o].fields[s.task[w].k];
      if IsWhite(s.heap, p) {
        assert p in Flying(s').held;
        var v :| v in s.task && p in Owing(s'.env, v, s.task[v]);
        assert Promised(s'.env, v, s.task[v], p);
      }
    }
  }

  /** When all workers run both barriers, everything marked so far is still to be scanned, and so are the globals:
      tracing cannot miss what a scanned slot holds because no slot has been scanned. */
  lemma Sync2BeginsKeepsSlots(s: State, s': State)
    requires Inv(s) && EnvEffect(s, Sync2Begins, s') && !Torn(s, Shake(Sync2Begins)) && Flying(s') == Flying(s)
    ensures SlotsVal(s'.env.epoch, s'.heap) && SlotsOk(s'.heap, Flying(s'))
  {
    forall o, k | o in s.heap && 0 <= k < |s.heap[o].fields| && s.heap[o].color != White ensures Grey(s.heap[o], k) {
      assert ObjOk(s.env, s.genum, o, s.heap[o]);
    }
    forall o, k | o in s.heap && 0 <= k < |s.heap[o].fields| && (o, k) in Flying(s').loose
      ensures Ok(s'.heap, Flying(s'), s'.heap[o].fields[k])
    {
      if s.heap[o].fields[k] in Flying(s').held { HeldIsOk(s'.heap, Flying(s'), s.heap[o].fields[k]); }
    }
    hide FlightOf, TearsOk, WriteOk;
  }

  lemma Sync2BeginsKeepsUsers(s: State, s': State)
    requires Inv(s) && EnvEffect(s, Sync2Begins, s')
    ensures AllRootsOk(s'.env.epoch, s'.heap, Flying(s'), s'.users) && UsersOk(s'.env, s'.task, s'.users)
  {
    hide FlightOf, HeapOk, TearsOk, WritesOk, ScanOk;
    forall u <- s.users
      ensures RootsOk(s'.env.epoch, s'.heap, Flying(s'), s'.users[u]) && UserOk(s'.env, s'.task, u, s'.users[u])
    {
      assert RootsOk(s.env.epoch, s.heap, Flying(s), s.users[u]) && UserOk(s.env, s.task, u, s.users[u]);
      assert s.users[u].walk.Walk? && s.users[u].walk.who in s.task
             ==> TaskOk(s.env, s.users, s.users[u].walk.who, s.task[s.users[u].walk.who]);
    }
  }

  lemma Sync2BeginsKeepsInv(s: State, s': State)
    requires Inv(s) && EnvEffect(s, Sync2Begins, s') && !Torn(s, Shake(Sync2Begins))
    ensures Inv(s')
  {
    Sync2BeginsKeepsWrites(s, s');
    EpochFlight(s, s');
    Sync2BeginsKeepsSlots(s, s');
    Sync2BeginsKeepsUsers(s, s');
    hide FlightOf, TearsOk, WritesOk, Torn, SlotsVal, SlotsOk, AllRootsOk, UsersOk;
    Sync2BeginsKeepsStatic(s, s');
    forall o <- s.heap ensures ObjOk(s'.env, s'.genum, o, s'.heap[o]) { assert ObjOk(s.env, s.genum, o, s.heap[o]); }
  }

  lemma TornBreaksInv(s: State, s': State)
    requires EnvEffect(s, Sync2Begins, s') && Torn(s, Shake(Sync2Begins))
    requires TasksOk(s.env, s.users, s.task)
    ensures !TearsOk(s'.env, s'.heap, s'.task) && !Inv(s')
  {
    EpochFlight(s, s');
    var w :| w in s.task && IsLoose(s.heap, s.task[w]) && IsWhite(s.heap, s.heap[s.task[w].o].fields[s.task[w].k])
             && s.heap[s.task[w].o].fields[s.task[w].k] !in Flying(s).held;
    var p := s.heap[s.task[w].o].fields[s.task[w].k];
    assert TaskOk(s.env, s.users, w, s.task[w]) && s'.env.stage[w] == Early;
    forall v <- s.task ensures !Promised(s'.env, v, s.task[v], p) {
      assert TaskOk(s.env, s.users, v, s.task[v]) && s'.env.stage[v] == Early;
    }
  }

  lemma MarkBeginsKeepsInv(s: State, s': State)
    requires Inv(s) && EnvEffect(s, MarkBegins, s')
    ensures Inv(s')
  {
    EpochFlight(s, s');
    hide SlotsOk, FlightOf, Ok;
    forall u <- s.users
      ensures RootsOk(s'.env.epoch, s'.heap, Flying(s'), s'.users[u]) && UserOk(s'.env, s'.task, u, s'.users[u])
    {
      assert RootsOk(s.env.epoch, s.heap, Flying(s), s.users[u]) && UserOk(s.env, s.task, u, s.users[u]);
    }
    forall w <- s.task ensures WriteOk(s'.env, s'.heap, Flying(s'), s'.users, w, s.task[w]) {
      assert WriteOk(s.env, s.heap, Flying(s), s.users, w, s.task[w]);
    }
    assert SlotsVal(s'.env.epoch, s'.heap);
  }

  lemma SweepBeginsKeepsUsers(s: State, s': State)
    requires Inv(s) && EnvEffect(s, SweepBegins, s')
    requires forall x :: Ok(s.heap, Flying(s), x) ==> !IsWhite(s.heap, x)
    ensures AllRootsOk(s'.env.epoch, s'.heap, Flying(s'), s'.users) && UsersOk(s'.env, s'.task, s'.users)
  {
    hide FlightOf, Ok, HeapOk, TearsOk, WritesOk;
    forall u <- s.users
      ensures RootsOk(s'.env.epoch, s'.heap, Flying(s'), s'.users[u]) && UserOk(s'.env, s'.task, u, s'.users[u])
    {
      assert RootsOk(s.env.epoch, s.heap, Flying(s), s.users[u]) && UserOk(s.env, s.task, u, s.users[u]);
    }
  }

  /** Nothing is grey when sweeping begins, so what a stack, a write in flight or a marked object points to is
      marked. */
  lemma SweepBeginsKeepsInv(s: State, s': State)
    requires Inv(s) && EnvEffect(s, SweepBegins, s')
    ensures Inv(s')
  {
    EpochFlight(s, s');
    hide FlightOf;
    forall x | Ok(s.heap, Flying(s), x) ensures !IsWhite(s.heap, x) { CleanMeansDone(s, x); }
    SweepBeginsKeepsUsers(s, s');
    forall w <- s.task ensures WriteOk(s'.env, s'.heap, Flying(s'), s'.users, w, s.task[w]) {
      SweepBeginsKeepsWrite(s, s', w);
    }
    SweepBeginsKeepsSlots(s, s');
    hide SlotsOk, SlotsVal, Ok, UsersOk, AllRootsOk, WriteOk, TaskOk;
    forall o <- s.heap ensures ObjOk(s'.env, s'.genum, o, s'.heap[o]) { assert ObjOk(s.env, s.genum, o, s.heap[o]); }
  }

  lemma SweepBeginsKeepsWrite(s: State, s': State, w: Worker)
    requires Inv(s) && EnvEffect(s, SweepBegins, s') && w in s.task
    requires forall x :: Ok(s.heap, Flying(s), x) ==> !IsWhite(s.heap, x)
    ensures WriteOk(s'.env, s'.heap, Flying(s'), s'.users, w, s.task[w])
  {
    hide FlightOf, Ok;
    assert WriteOk(s.env, s.heap, Flying(s), s.users, w, s.task[w]);
    if s.task[w].Writing? { assert UserOk(s.env, s.task, s.task[w].u, s.users[s.task[w].u]); }
  }

  lemma SweepBeginsKeepsSlots(s: State, s': State)
    requires Inv(s) && EnvEffect(s, SweepBegins, s')
    requires forall x :: Ok(s.heap, Flying(s), x) ==> !IsWhite(s.heap, x)
    ensures SlotsVal(s'.env.epoch, s'.heap)
  {
    hide FlightOf;
    forall o, k | o in s'.heap && 0 <= k < |s'.heap[o].fields| && !Garbage(s'.env.epoch, s'.heap[o])
      ensures Val(s'.env.epoch, s'.heap, s'.heap[o].fields[k])
    {
      var v := s.heap[o].fields[k];
      assert Val(s.env.epoch, s.heap, v);
      assert ObjOk(s.env, s.genum, o, s.heap[o]);
      assert !Grey(s.heap[o], k);
      assert Ok(s.heap, Flying(s), v);
    }
  }

  lemma CloseKeepsInv(s: State, s': State)
    requires Inv(s) && EnvEffect(s, Close, s')
    ensures Inv(s')
  {
    EpochFlight(s, s');
    hide FlightOf;
    forall u <- s.users
      ensures RootsOk(s'.env.epoch, s'.heap, Flying(s'), s'.users[u]) && UserOk(s'.env, s'.task, u, s'.users[u])
    {
      assert RootsOk(s.env.epoch, s.heap, Flying(s), s.users[u]) && UserOk(s.env, s.task, u, s.users[u]);
    }
    forall o, k | o in s.heap && 0 <= k < |s.heap[o].fields| ensures Val(s'.env.epoch, s'.heap, s.heap[o].fields[k]) {
      assert ObjOk(s.env, s.genum, o, s.heap[o]);
      assert Val(s.env.epoch, s.heap, s.heap[o].fields[k]);
    }
    EpochKeepsWrites(s, s');
    forall o <- s.heap ensures ObjOk(s'.env, s'.genum, o, s'.heap[o]) { assert ObjOk(s.env, s.genum, o, s.heap[o]); }
  }

  // ---------------------------------------------------------------- every step

  lemma HandshakeKeepsInv(s: State, e: EnvStep, s': State)
    requires Inv(s) && EnvEffect(s, e, s') && !Torn(s, Shake(e))
    ensures Inv(s')
  {
    if e.Stutter? { assert s' == s; }
    hide Inv, EnvEffect, Torn;
    match e {
      case Stutter =>
      case Join(w) => JoinKeepsInv(s, w, s');
      case Die(w) => DieKeepsInv(s, w, s');
      case Accept(w) => AcceptKeepsInv(s, w, s');
      case Send(w) => SendKeepsInv(s, w, s');
      case Done(w) => DoneKeepsInv(s, w, s');
      case Elect(w) => ElectKeepsInv(s, w, s');
      case OpenGc => OpenGcKeepsInv(s, s');
      case Sync1Begins => Sync1BeginsKeepsInv(s, s');
      case Sync2Begins => Sync2BeginsKeepsInv(s, s');
      case MarkBegins => MarkBeginsKeepsInv(s, s');
      case SweepBegins => SweepBeginsKeepsInv(s, s');
      case Close => CloseKeepsInv(s, s');
    }
  }

  lemma ObjectStepKeepsInv(s: State, l: Step, s': State)
    requires Inv(s) && CollectorStep(s, l, s') && (l.Pop? || l.DoneScan? || l.SweepObject? || l.SweepPool?)
    ensures Inv(s')
  {
    assert l.Pop? || l.DoneScan? ==> ObjOk(s.env, s.genum, l.o, s.heap[l.o]);
    assert l.SweepObject? ==> StageFits(s.env.epoch, s.env.stage[l.w]);
    if l.Pop? {
      RelinkKeepsInv(s, l.o, l.w, Scanning(l.w, 0));
    } else if l.DoneScan? {
      RelinkKeepsInv(s, l.o, l.w, Link.Free);
    } else {
      SweepKeepsInv(s, l.o);
    }
    hide Inv, ObjOk;
  }

  lemma CollectorStepKeepsInv(s: State, l: Step, s': State)
    requires Inv(s) && CollectorStep(s, l, s') && !Hasty(s, l)
    ensures Inv(s')
  {
    CollectorStepKinds(s, l, s');
    hide Inv, ObjOk, Hasty;
    if l.Pop? || l.DoneScan? || l.SweepObject? || l.SweepPool? {
      ObjectStepKeepsInv(s, l, s');
      return;
    }
    hide CollectorStep;
    match l {
      case TakeList(w, remembered) => TakeListKeepsInv(s, w, remembered, s');
      case ScanField(w, o) => ScanFieldKeepsInv(s, w, o, s');
      case WalkLock(w, u) => WalkLockKeepsInv(s, w, u, s');
      case WalkRoot(u, p) => WalkRootKeepsInv(s, u, p, s');
      case WalkDone(u) => WalkDoneKeepsInv(s, u, s');
      case WalkStatic(w) => WalkStaticKeepsInv(s, w, s');
      case Forget(w) => ForgetKeepsInv(s, w, s');
      case ScanStart => ScanStepKeepsInv(s, l, s');
      case ScanOne(_) => ScanStepKeepsInv(s, l, s');
      case ScanPass => ScanStepKeepsInv(s, l, s');
      case ScanEnd(_) => ScanStepKeepsInv(s, l, s');
      case _ =>
    }
  }

  lemma CollectorStepKinds(s: State, l: Step, s': State)
    requires CollectorStep(s, l, s')
    ensures l.TakeList? || l.Pop? || l.ScanField? || l.DoneScan? || l.WalkLock? || l.WalkRoot? || l.WalkDone?
            || l.WalkStatic? || l.Forget? || l.SweepObject? || l.SweepPool? || l.ScanStart? || l.ScanOne? || l.ScanPass?
            || l.ScanEnd?
  {
    hide HasRemembered;
  }

  lemma UserStepKeepsInv(s: State, l: Step, s': State)
    requires Inv(s) && UserStep(s, l, s') && !Skips(s, l)
    ensures Inv(s')
  {
    UserStepKinds(s, l, s');
    hide Inv, Skips, UserStep;
    match l {
      case StartUser(w, u) => StartUserKeepsInv(s, w, u, s');
      case EndUser(u) => EndUserKeepsInv(s, u, s');
      case Resume(w, u) => ResumeKeepsInv(s, w, u, s');
      case Quit(w) => QuitKeepsInv(s, w, s');
      case Arrive(w, u) => ArriveKeepsInv(s, w, u, s');
      case SeeBusy(w) => WaitKeepsInv(s, l, s');
      case Spurious(w) => WaitKeepsInv(s, l, s');
      case Move(w) => MoveKeepsInv(s, w, s');
      case LockUser(w) => LockUserKeepsInv(s, w, s');
      case Publish(w) => PublishKeepsInv(s, w, s');
      case _ =>
    }
  }

  lemma UserStepKinds(s: State, l: Step, s': State)
    requires UserStep(s, l, s')
    ensures l.StartUser? || l.EndUser? || l.Resume? || l.Quit? || l.Arrive? || l.SeeBusy? || l.Spurious? || l.Move?
            || l.LockUser? || l.Publish?
  {
  }

  lemma MLStepKeepsInv(s: State, l: Step, s': State)
    requires Inv(s) && MLStep(s, l, s')
    ensures Inv(s')
  {
    MLStepKinds(s, l, s');
    hide Inv, MLStep;
    match l {
      case Load(w, o, k) => LoadKeepsInv(s, w, o, k, s');
      case Alloc(w, p, init) => AllocKeepsInv(s, w, p, init, s');
      case DropRoots(w, keep) => DropRootsKeepsInv(s, w, keep, s');
      case _ =>
    }
  }

  lemma MLStepKinds(s: State, l: Step, s': State)
    requires MLStep(s, l, s')
    ensures l.Load? || l.Alloc? || l.DropRoots?
  {
  }

  /** The steps that the collector does not withstand. */
  ghost predicate Breaks(s: State, l: Step) { Stale(s, l) || Skips(s, l) || Torn(s, l) || Hasty(s, l) }

  lemma BreaksInv(s: State, l: Step, s': State)
    requires Inv(s) && Next(s, l, s') && Breaks(s, l)
    ensures !Inv(s')
  {
    assert (Stale(s, l) ==> l.Remember?) && (Skips(s, l) ==> l.LockUser?);
    assert (Torn(s, l) ==> l == Shake(Sync2Begins)) && (Hasty(s, l) ==> l == ScanEnd(true));
    assert TasksOk(s.env, s.users, s.task);
    hide Inv, EnvEffect, CollectorStep, UserStep, MLStep, WriteStep, Stale, Skips, Torn, Hasty, TasksOk;
    if Stale(s, l) {
      OnlyWrite(s, l, s');
      StaleMarksSwept(s, l, s');
    } else if Skips(s, l) {
      OnlyUser(s, l, s');
      SkipBreaksInv(s, l, s');
    } else if Torn(s, l) {
      TornBreaksInv(s, s');
    } else {
      OnlyCollector(s, l, s');
      HastyBreaksInv(s, l, s');
    }
  }

  lemma OnlyWrite(s: State, l: Step, s': State)
    requires Next(s, l, s') && l.Remember?
    ensures WriteStep(s, l, s')
  {
    hide WriteStep;
  }

  lemma OnlyUser(s: State, l: Step, s': State)
    requires Next(s, l, s') && l.LockUser?
    ensures UserStep(s, l, s')
  {
    hide UserStep;
  }

  lemma OnlyCollector(s: State, l: Step, s': State)
    requires Next(s, l, s') && l.ScanEnd?
    ensures CollectorStep(s, l, s')
  {
    hide CollectorStep;
  }

  /** A step keeps the invariant exactly when it is none of these. */
  lemma InvKeptUnlessBroken(s: State, l: Step, s': State)
    requires Inv(s) && Next(s, l, s')
    ensures Inv(s') <==> !Breaks(s, l)
  {
    if Breaks(s, l) {
      BreaksInv(s, l, s');
    } else {
      hide Inv, Stale, Skips, Torn, Hasty, EnvEffect, CollectorStep, UserStep, MLStep, WriteStep;
      if l.Shake? { HandshakeKeepsInv(s, l.e, s'); }
      else if CollectorStep(s, l, s') { CollectorStepKeepsInv(s, l, s'); }
      else if UserStep(s, l, s') { UserStepKeepsInv(s, l, s'); }
      else if MLStep(s, l, s') { MLStepKeepsInv(s, l, s'); }
      else { WriteStepKeepsInv(s, l, s'); }
    }
  }

  // ---------------------------------------------------------------- main results

  predicate Points(h: Heap, o: Ptr, p: Ptr) { o in h && p in h[o].fields }

  /** A chain of pointers that starts on a stack or in a global variable. */
  ghost predicate Path(s: State, path: seq<Ptr>) {
    && 0 < |path| && (path[0] == STATIC || exists u <- s.users :: path[0] in s.users[u].roots)
    && forall i, j :: 0 <= i < j < |path| && j == i + 1 ==> Points(s.heap, path[i], path[j])
  }

  /** In every state of a run, whatever a user thread can reach is an object that will not be freed. */
  lemma {:induction false} ReachableIsNoGarbage(s: State, path: seq<Ptr>)
    requires Inv(s) && Path(s, path)
    ensures path[|path| - 1] == 0 || (path[|path| - 1] in s.heap && !Garbage(s.env.epoch, s.heap[path[|path| - 1]]))
  {
    var n := |path| - 1;
    if n == 0 {
      if path[0] == STATIC {
        assert ObjOk(s.env, s.genum, STATIC, s.heap[STATIC]);
      } else {
        var u :| u in s.users && path[0] in s.users[u].roots;
        assert RootsOk(s.env.epoch, s.heap, Flying(s), s.users[u]);
      }
    } else {
      assert path[n - 1] == path[..n][n - 1];
      ReachableIsNoGarbage(s, path[..n]);
      assert Points(s.heap, path[n - 1], path[n]);
      assert path[n - 1] != 0 by { assert forall p <- s.heap :: ObjOk(s.env, s.genum, p, s.heap[p]); }
      var k :| 0 <= k < |s.heap[path[n - 1]].fields| && s.heap[path[n - 1]].fields[k] == path[n];
    }
  }

  lemma OnlyGarbageIsFreed(s: State, l: Step, s': State, p: Ptr)
    requires Next(s, l, s') && p in s.heap && !Garbage(s.env.epoch, s.heap[p]) && EnvOk(s.env)
    ensures p in s'.heap
  {
    hide EnvOk, EnvEffect, CollectorStep, UserStep, MLStep, WriteStep;
    if l.Shake? {
      ShakeFreesNothing(s, l.e, s', p);
    } else if CollectorStep(s, l, s') {
      CollectorFreesGarbage(s, l, s', p);
    } else {
      ThreadFreesNothing(s, l, s', p);
    }
  }

  lemma ShakeFreesNothing(s: State, e: EnvStep, s': State, p: Ptr)
    requires EnvEffect(s, e, s') && p in s.heap
    ensures p in s'.heap
  {
    hide EnvNext, MayShake;
  }

  lemma CollectorFreesGarbage(s: State, l: Step, s': State, p: Ptr)
    requires CollectorStep(s, l, s') && p in s.heap && !Garbage(s.env.epoch, s.heap[p]) && EnvOk(s.env)
    ensures p in s'.heap
  {
    hide NoLinks, HasRemembered;
    if l.SweepObject? { assert StageFits(s.env.epoch, s.env.stage[l.w]); }
  }

  lemma ThreadFreesNothing(s: State, l: Step, s': State, p: Ptr)
    requires (UserStep(s, l, s') || MLStep(s, l, s') || WriteStep(s, l, s')) && p in s.heap
    ensures p in s'.heap
  {
  }

  /** No step frees an object that a user thread can reach. */
  lemma ReachableIsNotFreed(s: State, path: seq<Ptr>, l: Step, s': State)
    requires Inv(s) && Path(s, path) && Next(s, l, s') && path[|path| - 1] != 0
    ensures path[|path| - 1] in s'.heap
  {
    ReachableIsNoGarbage(s, path);
    OnlyGarbageIsFreed(s, l, s', path[|path| - 1]);
  }

  /** When sml_heap_mark_finish answers yes, and is not hasty, every object that a user thread can reach is marked or
      new. */
  lemma {:induction false} FinishedMeansMarked(s: State, s': State, path: seq<Ptr>)
    requires Inv(s) && Next(s, ScanEnd(true), s') && !Hasty(s, ScanEnd(true)) && Path(s, path)
    ensures path[|path| - 1] == 0 || (path[|path| - 1] in s.heap && s.heap[path[|path| - 1]].color != White)
  {
    var n := |path| - 1;
    ReachableIsNoGarbage(s, path);
    assert ObjOk(s.env, s.genum, STATIC, s.heap[STATIC]);
    if n == 0 {
      if path[0] != STATIC {
        var u :| u in s.users && path[0] in s.users[u].roots;
        assert RootsOk(s.env.epoch, s.heap, Flying(s), s.users[u]) && UserOk(s.env, s.task, u, s.users[u]);
        CleanMeansDone(s, path[0]);
      }
    } else {
      assert path[n - 1] == path[..n][n - 1] && Points(s.heap, path[n - 1], path[n]);
      FinishedMeansMarked(s, s', path[..n]);
      assert path[n - 1] != 0 by { assert forall p <- s.heap :: ObjOk(s.env, s.genum, p, s.heap[p]); }
      var k :| 0 <= k < |s.heap[path[n - 1]].fields| && s.heap[path[n - 1]].fields[k] == path[n];
      assert !Grey(s.heap[path[n - 1]], k);
      CleanMeansDone(s, path[n]);
    }
  }

  ghost predicate IsRun(ss: seq<State>, ls: seq<Step>) {
    && |ss| == |ls| + 1 && Init(ss[0])
    && forall i :: 0 <= i < |ls| ==> Next(ss[i], ls[i], ss[i + 1])
  }

  /** None of the first n steps is one that the collector does not withstand. */
  ghost predicate NoneBreaks(ss: seq<State>, ls: seq<Step>, n: nat)
    requires |ss| > |ls| >= n
  {
    forall i :: 0 <= i < n ==> !Breaks(ss[i], ls[i])
  }

  lemma {:induction false} RunKeepsInv(ss: seq<State>, ls: seq<Step>, i: nat)
    requires IsRun(ss, ls) && i < |ss| && NoneBreaks(ss, ls, i)
    ensures Inv(ss[i])
  {
    hide Inv, Next, Breaks;
    if i == 0 {
      InitInv(ss[0]);
    } else {
      RunKeepsInv(ss, ls, i - 1);
      InvKeptUnlessBroken(ss[i - 1], ls[i - 1], ss[i]);
    }
  }

  /** Over whole runs, any number of collections: what a user thread can reach stays in the heap. */
  lemma RunFreesNothingReachable(ss: seq<State>, ls: seq<Step>, i: nat, path: seq<Ptr>)
    requires IsRun(ss, ls) && i < |ls| && NoneBreaks(ss, ls, i) && Path(ss[i], path) && path[|path| - 1] != 0
    ensures path[|path| - 1] in ss[i].heap && path[|path| - 1] in ss[i + 1].heap
  {
    RunKeepsInv(ss, ls, i);
    ReachableIsNoGarbage(ss[i], path);
    ReachableIsNotFreed(ss[i], path, ls[i], ss[i + 1]);
  }
}
