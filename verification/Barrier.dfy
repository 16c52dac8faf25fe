/**
 The steps of sml_write and sml_cmpswap: the barrier takes several, and other threads and the collector go on in
 between.
 */
module Barrier {
  import opened Phases
  import opened Marking
  import opened Wrappers
  import opened Collector
  import opened Invariant

  /** The one test-and-set that the collector does not withstand: that of a write which began in MARK and finds an
      object that another worker has already swept. */
  predicate Stale(s: State, l: Step) {
    s.env.epoch.OnSweep? && l.Remember? && l.w in s.task && s.task[l.w].Writing? && s.task[l.w].todo.Some?
    && s.task[l.w].todo.value != [] && IsWhite(s.heap, s.task[l.w].todo.value[0])
  }

  lemma ReadKeepsInv(s: State, w: Worker, o: Ptr, k: nat, v: Ptr, s': State)
    requires Inv(s) && WriteStep(s, Read(w, o, k, v), s')
    ensures Inv(s')
  {
    var t := s'.task[w];
    NotWriting(s.env, s.heap, w, s.task[w]);
    assert !IsLoose(s.heap, t) && Owing(s.env, w, t) == {} && forall p :: !Promised(s.env, w, t, p);
    hide Owing, IsLoose, Promised, FlightOf, TearsOk;
    SameSets(s.env, s.heap, s.task, s'.task);
    RunningIsUnlocked(s, w);
    SlotIsSafe(s, w, o, k);
    SafeValue(s, w, v);
    assert TaskOk(s.env, s.users, w, s.task[w]);
    hide HeapOk, ScanOk, RootsOk;
    WriteChange(s, w, t, s.heap);
  }

  /** What sml_cmpswap makes of the writes in flight. */
  lemma SwapFlight(s: State, w: Worker, o: Ptr, k: nat, was: Ptr, v: Ptr, s': State)
    requires WriteStep(s, Swap(w, o, k, was, v), s')
    ensures Stores(s.heap, Flying(s), o, k, v, Flying(s')) && was in Flying(s').held
    ensures s.env.stage[w] == Early ==> v in Flying(s').held
    ensures forall p :: p in Flying(s').held ==> p in Flying(s).held || p == was || (p == v && s.env.stage[w] == Early)
  {
    var t := s'.task[w];
    NotWriting(s.env, s.heap, w, s.task[w]);
    assert was in Owing(s.env, w, t) && (v in Owing(s.env, w, t) || s.env.stage[w] != Early);
    assert forall p :: p in Owing(s.env, w, t) ==> p == was || (p == v && s.env.stage[w] == Early);
    assert !IsLoose(s'.heap, t);
    OtherSlots(s, w, o, k, v, s');
    hide Owing, IsLoose, SetField;
    forall p | p in Flying(s).held ensures p in Flying(s').held {
      var a :| a in s.task && p in Owing(s.env, a, s.task[a]);
      assert s'.task[a] == s.task[a];
    }
  }

  /** A store makes at most its own slot loose. */
  lemma OtherSlots(s: State, w: Worker, o: Ptr, k: nat, v: Ptr, s': State)
    requires o in s.heap && k < |s.heap[o].fields| && s'.heap == SetField(s.heap, o, k, v)
    requires w in s'.task && !IsLoose(s'.heap, s'.task[w]) && s'.task == s.task[w := s'.task[w]]
    ensures forall p, i :: (p, i) in Flying(s').loose ==> (p, i) in Flying(s).loose || (p == o && i == k)
  {
    forall a <- s'.task | IsLoose(s'.heap, s'.task[a])
      ensures (s'.task[a].o == o && s'.task[a].k == k)
              || (a in s.task && s.task[a] == s'.task[a] && IsLoose(s.heap, s.task[a]))
    {
    }
    hide IsLoose, Owing;
  }

  /** A value that a worker of SYNC2 stores is marked or promised to be. */
  lemma StoreKeepsTears(s: State, w: Worker, o: Ptr, k: nat, v: Ptr, s': State)
    requires TearsOk(s.env, s.heap, s.task) && EnvOk(s.env) && s'.env == s.env && w in s.task
    requires o in s.heap && k < |s.heap[o].fields| && s'.heap == SetField(s.heap, o, k, v)
    requires w in s'.task && s'.task == s.task[w := s'.task[w]] && !IsLoose(s'.heap, s'.task[w])
    requires s.env.epoch.OnSync2? ==> !IsWhite(s.heap, v) || Promised(s.env, w, s'.task[w], v)
    requires forall p :: !Promised(s.env, w, s.task[w], p)
    ensures TearsOk(s'.env, s'.heap, s'.task)
  {
    hide Promised;
    if Tricolor(s.env.epoch) {
      forall a <- s'.task | IsLoose(s'.heap, s'.task[a]) && a in s.env.stage && s.env.stage[a] == Early
        ensures var p := s'.heap[s'.task[a].o].fields[s'.task[a].k];
                !IsWhite(s'.heap, p) || exists b <- s'.task :: Promised(s.env, b, s'.task[b], p)
      {
        assert a != w && StageFits(s.env.epoch, s.env.stage[a]);
        if s.task[a].o != o || s.task[a].k != k {
          assert IsLoose(s.heap, s.task[a]);
          var p := s.heap[s.task[a].o].fields[s.task[a].k];
          if IsWhite(s.heap, p) {
            var b :| b in s.task && Promised(s.env, b, s.task[b], p);
            assert s'.task[b] == s.task[b];
          }
        }
      }
    }
  }

  lemma SwapKeepsInv(s: State, w: Worker, o: Ptr, k: nat, was: Ptr, v: Ptr, s': State)
    requires Inv(s) && WriteStep(s, Swap(w, o, k, was, v), s')
    ensures Inv(s')
  {
    var t := s'.task[w];
    var q, q' := Flying(s), Flying(s');
    SwapFlight(s, w, o, k, was, v, s');
    RunningIsUnlocked(s, w);
    SafeValue(s, w, v);
    SafeValue(s, w, was);
    assert TaskOk(s.env, s.users, w, s.task[w]) && StageFits(s.env.epoch, s.env.stage[w]);
    NotWriting(s.env, s.heap, w, s.task[w]);
    assert InsertionBarrier(s.env.stage[w]) ==> Promised(s.env, w, t, v);
    StoreKeepsTears(s, w, o, k, v, s');
    hide Owing, IsLoose, Promised, FlightOf, TearsOk;
    assert UserOk(s.env, s.task, s.task[w].u, s.users[s.task[w].u]);
    SetFieldKeepsHeap(s.env, s.genum, s.heap, q, o, k, v, q');
    if Tricolor(s.env.epoch) { HeldIsOk(s'.heap, q', was); }
    if s.scan == Passed && Clean(s.heap, q) { CleanMeansDone(s, was); }
    hide HeapOk, RootsOk;
    WriteChange(s, w, t, s'.heap);
  }

  lemma LookFlight(s: State, w: Worker, s': State)
    requires WriteStep(s, Look(w), s') && EnvOk(s.env)
    ensures Flying(s').loose == Flying(s).loose
    ensures Tricolor(s.env.epoch) ==> Flying(s).held <= Flying(s').held
    ensures s.env.stage[w] == Traced ==> Flying(s').held <= Flying(s).held
    ensures TearsOk(s.env, s.heap, s.task) ==> TearsOk(s'.env, s'.heap, s'.task)
  {
    var t, t' := s.task[w], s'.task[w];
    assert StageFits(s.env.epoch, s.env.stage[w]);
    var l := t'.todo.value;
    assert InsertionBarrier(s.env.stage[w]) ==> l[0] == t.v;
    assert DeletionBarrier(s.env.stage[w]) ==> l[|l| - 1] == t.was;
    assert Tricolor(s.env.epoch) ==> forall p :: p in Owing(s.env, w, t) ==> p in Owing(s.env, w, t');
    assert s.env.stage[w] == Traced ==> l == [t.was];
    assert s.env.stage[w] == Traced ==> forall p :: p in Owing(s.env, w, t') ==> p in Owing(s.env, w, t);
    assert Tricolor(s.env.epoch) ==> forall p :: Promised(s.env, w, t, p) ==> Promised(s.env, w, t', p);
    hide Owing, Promised;
    forall a <- s.task ensures IsLoose(s.heap, s'.task[a]) == IsLoose(s.heap, s.task[a]) { }
    hide IsLoose;
  }

  lemma LookKeepsInv(s: State, w: Worker, s': State)
    requires Inv(s) && WriteStep(s, Look(w), s')
    ensures Inv(s')
  {
    var t := s'.task[w];
    LookFlight(s, w, s');
    assert TaskOk(s.env, s.users, w, s.task[w]) && WriteOk(s.env, s.heap, Flying(s), s.users, w, s.task[w]);
    SafeValue(s, w, s.task[w].v);
    LookTodo(s.env, s.heap, w, t);
    hide Owing, IsLoose, Promised, FlightOf, TearsOk, TodoOk;
    if Tricolor(s.env.epoch) { LessInFlight(s.heap, Flying(s), Flying(s')); }
    if Tricolor(s.env.epoch) && s.users[t.u].settled {
      OkStays(s.heap, Flying(s), s.heap, Flying(s'), t.was);
    }
    hide RootsOk, Ok;
    WriteChange(s, w, t, s.heap);
  }

  lemma LookTodo(env: Env, h: Heap, w: Worker, t: Task)
    requires t.Writing? && w in env.stage && t.todo == Some(ToRemember(env.stage[w], t.v, t.was))
    ensures TodoOk(env, h, w, t, t.todo.value)
  {
    var l := t.todo.value;
    assert InsertionBarrier(env.stage[w]) ==> l[0] == t.v;
    assert DeletionBarrier(env.stage[w]) ==> l[|l| - 1] == t.was;
  }

  /** The test-and-set. */
  lemma MarkKeepsInv(s: State, w: Worker, p: Ptr)
    requires Inv(s) && Writes(s, w) && s.task[w].todo.Some? && s.task[w].todo.value != []
    requires p == s.task[w].todo.value[0] && !Stale(s, Remember(w))
    ensures Inv(s.(heap := Visit(s.heap, p, Pending(w))))
    ensures FlightOf(s.env, Visit(s.heap, p, Pending(w)), s.task) == Flying(s)
  {
    var t := s.task[w];
    hide FlightOf, TearsOk;
    assert WriteOk(s.env, s.heap, Flying(s), s.users, w, t) && StageFits(s.env.epoch, s.env.stage[w]);
    SafeValue(s, w, t.v);
    RunningIsUnlocked(s, w);
    assert UserOk(s.env, s.task, t.u, s.users[t.u]);
    VisitKeepsHeap(s.env, s.genum, s.heap, Flying(s), p, Pending(w));
    assert p in t.todo.value;
    if s.scan == Passed && Clean(s.heap, Flying(s)) { CleanMeansDone(s, p); }
    ScanStays(s, Visit(s.heap, p, Pending(w)));
    HeapChange(s, Visit(s.heap, p, Pending(w)));
  }

  /** What has been marked need not be held any longer. */
  lemma DropFlight(s: State, w: Worker, t: Task)
    requires w in s.task && s.task[w].Writing? && s.task[w].todo.Some? && s.task[w].todo.value != []
    requires t == s.task[w].(todo := Some(s.task[w].todo.value[1..])) && !IsWhite(s.heap, s.task[w].todo.value[0])
    ensures var q, q' := Flying(s), FlightOf(s.env, s.heap, s.task[w := t]);
            q'.loose == q.loose && q'.held <= q.held && forall p :: p in q.held ==> p in q'.held || !IsWhite(s.heap, p)
    ensures TearsOk(s.env, s.heap, s.task) ==> TearsOk(s.env, s.heap, s.task[w := t])
  {
    var l := s.task[w].todo.value;
    assert l == [l[0]] + l[1..];
    assert forall p :: p in Owing(s.env, w, t) ==> p in Owing(s.env, w, s.task[w]);
    assert forall p :: p in Owing(s.env, w, s.task[w]) ==> p in Owing(s.env, w, t) || p == l[0];
    assert forall p :: Promised(s.env, w, s.task[w], p) ==> Promised(s.env, w, t, p) || p == l[0];
    hide Owing, Promised;
    var task' := s.task[w := t];
    forall a <- s.task ensures IsLoose(s.heap, task'[a]) == IsLoose(s.heap, s.task[a]) { }
    hide IsLoose;
    DropTears(s, w, t, l[0]);
  }

  lemma DropTears(s: State, w: Worker, t: Task, x: Ptr)
    requires w in s.task && s.task[w].Writing? && t.Writing? && t.o == s.task[w].o && t.k == s.task[w].k
    requires forall a <- s.task :: IsLoose(s.heap, s.task[w := t][a]) == IsLoose(s.heap, s.task[a])
    requires forall p :: Promised(s.env, w, s.task[w], p) ==> Promised(s.env, w, t, p) || p == x
    requires !IsWhite(s.heap, x)
    ensures TearsOk(s.env, s.heap, s.task) ==> TearsOk(s.env, s.heap, s.task[w := t])
  {
    hide Promised, IsLoose;
  }

  lemma RestOfTodo(env: Env, h: Heap, w: Worker, t: Task, l: seq<Ptr>)
    requires t.Writing? && w in env.stage && l != [] && TodoOk(env, h, w, t, l) && !IsWhite(h, l[0])
    ensures TodoOk(env, h, w, t.(todo := Some(l[1..])), l[1..])
  {
    assert l == [l[0]] + l[1..];
    assert forall p :: p in l ==> p == l[0] || p in l[1..];
    assert forall p :: p in l[1..] ==> p in l;
  }

  lemma RememberKeepsInv(s: State, w: Worker, s': State)
    requires Inv(s) && WriteStep(s, Remember(w), s') && !Stale(s, Remember(w))
    ensures Inv(s')
  {
    var l := s.task[w].todo.value;
    var t := s'.task[w];
    var s1 := s.(heap := s'.heap);
    MarkKeepsInv(s, w, l[0]);
    VisitEvolves(s.heap, Flying(s), l[0], Pending(w));
    DropFlight(s1, w, t);
    assert TaskOk(s.env, s.users, w, s.task[w]) && WriteOk(s.env, s1.heap, Flying(s1), s.users, w, s.task[w]);
    RestOfTodo(s.env, s1.heap, w, s.task[w], l);
    hide Owing, IsLoose, Promised, FlightOf, TearsOk, TodoOk, Visit;
    LessInFlight(s1.heap, Flying(s1), Flying(s'));
    if Tricolor(s.env.epoch) && s.users[t.u].settled {
      OkStays(s1.heap, Flying(s1), s1.heap, Flying(s'), t.was);
    }
    assert 0 !in s1.heap by { assert forall p <- s1.heap :: ObjOk(s.env, s.genum, p, s1.heap[p]); }
    hide RootsOk, Ok;
    WriteChange(s1, w, t, s1.heap);
  }

  lemma PushKeepsInv(s: State, w: Worker, s': State)
    requires Inv(s) && WriteStep(s, Push(w), s')
    ensures Inv(s')
  {
    hide FlightOf, TearsOk;
    TakeKeepsHeap(s.env, s.genum, s.heap, Flying(s), Pending(w), Remembered(w));
    var o :| o in s.heap && s.heap[o].link == Pending(w);
    assert ObjOk(s.env, s.genum, STATIC, s.heap[STATIC]);
    assert o != STATIC && !Clean(s.heap, Flying(s));
    ScanStays(s, s'.heap);
    HeapChange(s, s'.heap);
  }

  /** When a write has remembered all it is to, the value overwritten is no longer white and the value written is safe,
      in every phase in which that matters, whatever other threads have stored to the slot in the meantime. */
  lemma BarrierDone(s: State, w: Worker)
    requires Inv(s) && Writes(s, w) && s.task[w].todo == Some([]) && Tricolor(s.env.epoch)
    ensures !IsWhite(s.heap, s.task[w].was) && Ok(s.heap, Flying(s), s.task[w].v)
    ensures s.env.epoch.OnSync2? ==> !IsWhite(s.heap, s.task[w].v)
  {
    hide FlightOf, TearsOk;
    var t := s.task[w];
    assert WriteOk(s.env, s.heap, Flying(s), s.users, w, t) && StageFits(s.env.epoch, s.env.stage[w]);
    RunningIsUnlocked(s, w);
    assert TaskOk(s.env, s.users, w, t);
    SafeValue(s, w, t.v);
  }

  lemma StoreFlight(s: State, w: Worker, s': State)
    requires WriteStep(s, Store(w), s') && s.task[w].o in s.heap && s.task[w].k < |s.heap[s.task[w].o].fields|
    ensures var t := s.task[w]; t.stored ==> FlightOf(s.env, s.heap, s'.task) == Flying(s)
    ensures var t := s.task[w];
            && Stores(s.heap, Flying(s), t.o, t.k, t.v, Flying(s')) && Flying(s').held == Flying(s).held
            && (!t.stored && s.heap[t.o].fields[t.k] != t.was ==> (t.o, t.k as int) in Flying(s).loose)
    ensures s.task[w].stored && TearsOk(s.env, s.heap, s.task) ==> TearsOk(s'.env, s'.heap, s'.task)
  {
    var t := s.task[w];
    NotWriting(s'.env, s'.heap, w, s'.task[w]);
    assert Owing(s.env, w, t) == {} && forall p :: !Promised(s.env, w, t, p);
    assert !t.stored && s.heap[t.o].fields[t.k] != t.was ==> IsLoose(s.heap, t);
    assert t.stored ==> !IsLoose(s.heap, t);
    if t.stored {
      hide Owing, Promised, IsLoose;
      SameSets(s.env, s.heap, s.task, s'.task);
    } else {
      OtherSlots(s, w, t.o, t.k, t.v, s');
      hide Owing, Promised, IsLoose;
      HeldBySame(s.env, s.heap, s.task, s'.heap, s'.task);
    }
  }

  lemma HeldBySame(env: Env, h: Heap, task: map<Worker, Task>, h': Heap, task': map<Worker, Task>)
    requires forall v, p :: v in task' && p in Owing(env, v, task'[v]) <==> v in task && p in Owing(env, v, task[v])
    ensures FlightOf(env, h', task').held == FlightOf(env, h, task).held
  {
    hide Owing, IsLoose;
  }

  lemma StoreKeepsHeap(s: State, w: Worker, s': State)
    requires Inv(s) && WriteStep(s, Store(w), s')
    ensures HeapOk(s.env, s.genum, s'.heap, Flying(s')) && TearsOk(s'.env, s'.heap, s'.task)
    ensures Keeps(s.env.epoch, s.heap, Flying(s), s'.heap, Flying(s')) && Flying(s').held == Flying(s).held
  {
    var t := s.task[w];
    var q, q' := Flying(s), Flying(s');
    assert WriteOk(s.env, s.heap, q, s.users, w, t);
    StoreFlight(s, w, s');
    SafeValue(s, w, t.v);
    if Tricolor(s.env.epoch) { BarrierDone(s, w); }
    hide Owing, IsLoose, Promised, FlightOf, TearsOk, HeapOk, RootsOk, Ok, TodoOk, UsersOk, TasksOk, WritesOk;
    if t.stored {
      StoredBefore(s, w, s');
    } else {
      NotWriting(s'.env, s'.heap, w, s'.task[w]);
      StoreKeepsTears(s, w, t.o, t.k, t.v, s');
      SetFieldKeepsHeap(s.env, s.genum, s.heap, q, t.o, t.k, t.v, q');
    }
  }

  lemma StoredBefore(s: State, w: Worker, s': State)
    requires Inv(s) && WriteStep(s, Store(w), s') && s.task[w].stored && Flying(s') == Flying(s)
    ensures s'.heap == s.heap && Keeps(s.env.epoch, s.heap, Flying(s), s'.heap, Flying(s'))
    ensures HeapOk(s.env, s.genum, s'.heap, Flying(s'))
  {
    assert 0 !in s.heap by { assert forall p <- s.heap :: ObjOk(s.env, s.genum, p, s.heap[p]); }
    hide FlightOf, HeapOk;
  }

  /** The write ends: the slot holds the value, and nothing is on its way any more. */
  lemma StoreKeepsInv(s: State, w: Worker, s': State)
    requires Inv(s) && WriteStep(s, Store(w), s')
    ensures Inv(s')
  {
    assert TaskOk(s.env, s.users, w, s.task[w]);
    StoreKeepsHeap(s, w, s');
    hide Owing, IsLoose, Promised, FlightOf, TearsOk, HeapOk, RootsOk, Ok, TodoOk, Keeps;
    WriteChange(s, w, s'.task[w], s'.heap);
  }

  lemma WriteStepKeepsInv(s: State, l: Step, s': State)
    requires Inv(s) && WriteStep(s, l, s') && !Stale(s, l)
    ensures Inv(s')
  {
    WriteStepKinds(s, l, s');
    hide Inv, Stale, WriteStep;
    match l {
      case Read(w, o, k, v) => ReadKeepsInv(s, w, o, k, v, s');
      case Swap(w, o, k, was, v) => SwapKeepsInv(s, w, o, k, was, v, s');
      case Look(w) => LookKeepsInv(s, w, s');
      case Remember(w) => RememberKeepsInv(s, w, s');
      case Push(w) => PushKeepsInv(s, w, s');
      case Store(w) => StoreKeepsInv(s, w, s');
      case _ =>
    }
  }

  lemma WriteStepKinds(s: State, l: Step, s': State)
    requires WriteStep(s, l, s')
    ensures l.Read? || l.Swap? || l.Look? || l.Remember? || l.Push? || l.Store?
  {
  }

  /** What a stale test-and-set leaves behind: an object of the next collection that is marked before it began. */
  lemma StaleMarksSwept(s: State, l: Step, s': State)
    requires Inv(s) && WriteStep(s, l, s') && Stale(s, l)
    ensures var x := s.task[l.w].todo.value[0];
            x in s'.heap && x != STATIC && s.heap[x].swept && s'.heap[x].color == Marked
            && s'.heap[x].link == Pending(l.w)
    ensures !Inv(s')
  {
    hide FlightOf, TearsOk;
    var t := s.task[l.w];
    var x := t.todo.value[0];
    assert x in t.todo.value;
    assert WriteOk(s.env, s.heap, Flying(s), s.users, l.w, t);
    SafeValue(s, l.w, t.v);
    assert ObjOk(s.env, s.genum, STATIC, s.heap[STATIC]);
    assert !ObjOk(s'.env, s'.genum, x, s'.heap[x]);
  }
}
