/**
 The invariant of the collector, what edits of the heap keep of it, and what follows from it.
 */
module Invariant {
  import opened Phases
  import opened Marking
  import opened Wrappers
  import opened Collector

  // ---------------------------------------------------------------- invariant

  /** In the last phase an object that was not marked is garbage; a swept one is alive again. */
  predicate Garbage(e: Epoch, o: Object) { e.OnSweep? && o.color == White && !o.swept }

  /** p may be used: NULL or an object that will not be freed in this collection. */
  predicate Val(e: Epoch, h: Heap, p: Ptr) { p == 0 || (p in h && !Garbage(e, h[p])) }

  predicate LinkOk(env: Env, o: Object) {
    match o.link
    case Free => true
    case Roots(w) => o.color == Marked && w in env.stage && env.stage[w] in {Rooting, Rooted, MarkPending, Tracing}
    case Remembered(w) => o.color == Marked && w in env.stage && DeletionBarrier(env.stage[w])
    case Pending(w) => o.color == Marked && w in env.stage && DeletionBarrier(env.stage[w])
    case Stack(w) => o.color == Marked && w in env.stage && env.stage[w] == Tracing
    case Scanning(w, k) => o.color == Marked && w in env.stage && env.stage[w] == Tracing && k <= |o.fields|
    case Static(_) => false
  }

  predicate EpochOk(env: Env, o: Object) {
    match env.epoch
    case Rest => o.color == White && o.link == Link.Free
    case Opening => o.color == White && o.link == Link.Free
    case OnSync1(_) => o.color == White || (o.color == Marked && (o.link.Remembered? || o.link.Pending?))
    case OnSync2 => true
    case OnMark => true
    case OnSweep => o.link == Link.Free && (o.swept ==> o.color == White)
                    && (o.owner in env.stage && env.stage[o.owner] == Plain ==> o.swept)
  }

  /** In SYNC2 the globals have been enumerated, or some worker has yet to do so before it answers. */
  ghost predicate StaticOk(env: Env, genum: set<Worker>, o: Object) {
    o.color == New && o.link.Static? && o.link.k <= |o.fields|
    && match env.epoch
       case Opening => o.link.k == 0
       case OnSync1(chosen) => o.link.k == 0 && (chosen.Some? ==> chosen.value in genum)
       case OnSync2 => o.link.k == |o.fields| || exists w <- genum :: w in env.stage && env.stage[w] in {Early, Rooting}
       case OnMark => o.link.k == |o.fields|
       case _ => true
  }

  ghost predicate ObjOk(env: Env, genum: set<Worker>, p: Ptr, o: Object) {
    if p == STATIC then StaticOk(env, genum, o) else p != 0 && LinkOk(env, o) && EpochOk(env, o)
  }

  ghost predicate ObjsOk(env: Env, genum: set<Worker>, h: Heap) {
    STATIC in h && forall p <- h :: ObjOk(env, genum, p, h[p])
  }

  /** What is not garbage points to no garbage. */
  ghost predicate SlotsVal(e: Epoch, h: Heap) {
    forall o, k :: o in h && 0 <= k < |h[o].fields| && !Garbage(e, h[o]) ==> Val(e, h, h[o].fields[k])
  }

  ghost predicate HeapOk(env: Env, genum: set<Worker>, h: Heap, q: Flight) {
    ObjsOk(env, genum, h) && SlotsVal(env.epoch, h) && (Tricolor(env.epoch) ==> SlotsOk(h, q))
  }

  /** A stack holds no garbage; from its enumeration on, tracing cannot miss what it holds. */
  ghost predicate RootsOk(e: Epoch, h: Heap, q: Flight, u: User) {
    && (forall p <- u.roots :: Val(e, h, p))
    && (Tricolor(e) && u.settled ==> forall p <- u.roots :: Ok(h, q, p))
    && (Tricolor(e) && u.walk.Walk? ==> forall p <- u.roots :: p !in u.walk.todo ==> Ok(h, q, p))
  }

  ghost predicate AllRootsOk(e: Epoch, h: Heap, q: Flight, users: map<Uid, User>) {
    forall u <- users :: RootsOk(e, h, q, users[u])
  }

  /** A user is locked by the worker it belongs to, during SYNC2, or by the thread that moves it. */
  predicate UserOk(env: Env, task: map<Worker, Task>, u: Uid, x: User) {
    && x.home in env.stage
    && (match env.epoch
        case Opening => !x.settled
        case OnSync1(_) => !x.settled
        case OnSync2 => (env.stage[x.home] == Early ==> !x.settled) && (env.stage[x.home] == Rooted ==> x.settled)
        case OnMark => x.settled
        case _ => true)
    && match x.walk
       case NoWalk => true
       case Held(w) => w in task && task[w].Entering? && task[w].u == u && !task[w].when.Outside?
                       && (task[w].when.After? ==> x.settled)
       case Walk(w, todo) =>
         todo <= x.roots
         && if w == x.home then env.stage[w] == Rooting && !x.settled
            else w in task && task[w].Entering? && task[w].u == u && task[w].when.After?
  }

  ghost predicate UsersOk(env: Env, task: map<Worker, Task>, users: map<Uid, User>) {
    forall u <- users :: UserOk(env, task, u, users[u])
  }

  /** A thread inside sml_enter keeps its worker from accepting a signal, so what it saw stays true. */
  predicate TaskOk(env: Env, users: map<Uid, User>, w: Worker, t: Task) {
    w in env.stage && t.u in users
    && match t
       case Running(u) => users[u].home == w
       case Writing(u, _, _, _, _, _, _) => users[u].home == w && !Acting(env.stage[w])
       case Entering(u, when, waited) =>
         users[u].home != w
         && (match when
             case Outside => env.stage[w] in {Plain, MarkPending, Traced, SweepPending}
             case Before => env.stage[w] == Early
             case After => env.stage[w] in {Rooted, MarkPending})
         && (waited ==> !when.Outside?)
  }

  ghost predicate TasksOk(env: Env, users: map<Uid, User>, task: map<Worker, Task>) {
    && (forall w <- task :: TaskOk(env, users, w, task[w]))
    && (forall v, w :: v in task && w in task && task[v].u == task[w].u ==> v == w)
  }

  // ---------------------------------------------------------------- writes in flight

  /** The slot has changed since sml_write has read it. */
  predicate IsLoose(h: Heap, t: Task) {
    t.Writing? && !t.stored && t.o in h && t.k < |h[t.o].fields| && h[t.o].fields[t.k] != t.was
  }

  /** What a sml_cmpswap that has stored has yet to remember, whatever becomes of the phase before it looks at it. */
  function Owing(env: Env, w: Worker, t: Task): set<Ptr> {
    if !t.Writing? || !t.stored then {}
    else match t.todo
         case Some(l) => set p | p in l
         case None => {t.was} + if w in env.stage && env.stage[w] == Early then {t.v} else {}
  }

  /** The same if it looks at the phase now. */
  predicate Promised(env: Env, w: Worker, t: Task, p: Ptr) {
    p in Owing(env, w, t)
    || (t.Writing? && t.stored && t.todo.None? && w in env.stage && InsertionBarrier(env.stage[w]) && p == t.v)
  }

  ghost function FlightOf(env: Env, h: Heap, task: map<Worker, Task>): Flight {
    Flight(set w | w in task && IsLoose(h, task[w]) :: (task[w].o, task[w].k as int),
           set w, p | w in task && p in Owing(env, w, task[w]) :: p)
  }

  /** Objects may be marked. */
  predicate Marks(e: Epoch) { e.OnSync1? || Tricolor(e) }

  /** A write in flight: its user knows the object and the value, nothing it knows is garbage, and what it was to
      remember has been remembered or is still to be. */
  ghost predicate WriteOk(env: Env, h: Heap, q: Flight, users: map<Uid, User>, w: Worker, t: Task) {
    t.Writing? ==>
      && w in env.stage && t.u in users && (t.o == STATIC || t.o in users[t.u].roots)
      && (t.v == 0 || t.v in users[t.u].roots)
      && t.o in h && t.k < |h[t.o].fields| && Val(env.epoch, h, t.was)
      && (Tricolor(env.epoch) && users[t.u].settled ==> Ok(h, q, t.was))
      && (t.todo.Some? ==> TodoOk(env, h, w, t, t.todo.value))
  }

  ghost predicate TodoOk(env: Env, h: Heap, w: Worker, t: Task, l: seq<Ptr>)
    requires t.Writing? && w in env.stage
  {
    var g := env.stage[w];
    && (forall p :: p in l ==> p == t.v || p == t.was)
    && (l != [] ==> DeletionBarrier(g) || g == SweepPending)
    && (Marks(env.epoch) && DeletionBarrier(g) ==> t.was in l || !IsWhite(h, t.was))
    && (Marks(env.epoch) && InsertionBarrier(g) ==> t.v in l || !IsWhite(h, t.v))
  }

  ghost predicate WritesOk(env: Env, h: Heap, q: Flight, users: map<Uid, User>, task: map<Worker, Task>) {
    forall w <- task :: WriteOk(env, h, q, users, w, task[w])
  }

  /** A thread that has seen SYNC1 and not yet SYNC2 overwrites nothing white that nobody has remembered. */
  ghost predicate TearsOk(env: Env, h: Heap, task: map<Worker, Task>) {
    Tricolor(env.epoch) ==>
      forall w <- task :: IsLoose(h, task[w]) && w in env.stage && env.stage[w] == Early ==>
        !IsWhite(h, h[task[w].o].fields[task[w].k])
        || exists v <- task :: Promised(env, v, task[v], h[task[w].o].fields[task[w].k])
  }

  // ---------------------------------------------------------------- the end of tracing

  /** No object is on a list, or on its way to one. */
  ghost predicate Clean(h: Heap, q: Flight) {
    (forall o <- h :: o != STATIC ==> h[o].link == Link.Free) && NothingHeld(h, q)
  }

  ghost predicate ScanOk(env: Env, h: Heap, q: Flight, scan: Scan) {
    match scan
    case Off => true
    case Pass(n, todo, known) =>
      env.epoch.OnMark? && All(env, Traced) && known <= env.stage.Keys && todo <= known && (n == 1 || n == 2)
    case Passed => env.epoch.OnMark? && All(env, Traced) && Clean(h, q)
  }

  ghost predicate Inv(s: State) {
    var q := FlightOf(s.env, s.heap, s.task);
    && EnvOk(s.env) && HeapOk(s.env, s.genum, s.heap, q) && AllRootsOk(s.env.epoch, s.heap, q, s.users)
    && UsersOk(s.env, s.task, s.users) && TasksOk(s.env, s.users, s.task)
    && WritesOk(s.env, s.heap, q, s.users, s.task) && TearsOk(s.env, s.heap, s.task)
    && ScanOk(s.env, s.heap, q, s.scan)
  }

  lemma InitInv(s: State)
    requires Init(s)
    ensures Inv(s)
  {
  }

  // ---------------------------------------------------------------- edits of the heap

  /** What an edit of the heap must keep for the stacks to be as good as before. */
  ghost predicate Keeps(e: Epoch, h: Heap, q: Flight, h': Heap, q': Flight) {
    && 0 !in h' && (forall p :: Val(e, h, p) ==> Val(e, h', p))
    && (Marks(e) ==> forall p :: p in h && IsWhite(h', p) ==> IsWhite(h, p))
    && (Tricolor(e) ==> Evolves(h, q, h', q'))
  }

  lemma RootsStay(e: Epoch, h: Heap, q: Flight, h': Heap, q': Flight, users: map<Uid, User>)
    requires AllRootsOk(e, h, q, users) && Keeps(e, h, q, h', q')
    ensures AllRootsOk(e, h', q', users)
  {
    forall u <- users ensures RootsOk(e, h', q', users[u]) {
      assert RootsOk(e, h, q, users[u]);
      if Tricolor(e) {
        forall p <- users[u].roots | Ok(h, q, p) ensures Ok(h', q', p) {
          assert Val(e, h, p);
          OkStays(h, q, h', q', p);
        }
      }
    }
  }

  /** Marking an object in an epoch in which objects may be marked. */
  lemma VisitKeepsHeap(env: Env, genum: set<Worker>, h: Heap, q: Flight, p: Ptr, link: Link)
    requires HeapOk(env, genum, h, q) && EnvOk(env) && IsList(link)
    requires Tricolor(env.epoch) || (env.epoch.OnSync1? && link.Pending?) || !IsWhite(h, p)
    requires link.w in env.stage
    requires match link case Roots(w) => env.stage[w] in {Rooting, Rooted, MarkPending}
                        case Remembered(w) => DeletionBarrier(env.stage[w])
                        case Pending(w) => DeletionBarrier(env.stage[w]) || !IsWhite(h, p)
                        case Stack(w) => env.stage[w] == Tracing
    ensures HeapOk(env, genum, Visit(h, p, link), q) && Keeps(env.epoch, h, q, Visit(h, p, link), q)
  {
    VisitEvolves(h, q, p, link);
    if Tricolor(env.epoch) { VisitKeepsSlots(h, q, p, link); }
  }

  lemma SetFieldKeepsHeap(env: Env, genum: set<Worker>, h: Heap, q: Flight, o: Ptr, k: nat, v: Ptr, q': Flight)
    requires HeapOk(env, genum, h, q) && o in h && k < |h[o].fields| && Val(env.epoch, h, v)
    requires Tricolor(env.epoch) ==>
               && Stores(h, q, o, k, v, q')
               && ((o, k) in q.loose || h[o].fields[k] in q'.held || !IsWhite(h, h[o].fields[k]))
               && (Ok(h, q, v) || v in q'.held)
    ensures HeapOk(env, genum, SetField(h, o, k, v), q') && Keeps(env.epoch, h, q, SetField(h, o, k, v), q')
  {
    if Tricolor(env.epoch) { SetFieldEvolves(h, q, o, k, v, q'); SetFieldKeepsSlots(h, q, o, k, v, q'); }
  }

  lemma RelinkKeepsHeap(env: Env, genum: set<Worker>, h: Heap, q: Flight, o: Ptr, link: Link)
    requires HeapOk(env, genum, h, q) && o in h && h[o].color != White && Tricolor(env.epoch)
    requires forall k :: 0 <= k < |h[o].fields| && Grey(h[o], k) ==>
             Grey(h[o].(link := link), k) || !IsWhite(h, h[o].fields[k])
    requires ObjOk(env, genum, o, h[o].(link := link))
    ensures HeapOk(env, genum, Relink(h, o, link), q) && Keeps(env.epoch, h, q, Relink(h, o, link), q)
  {
    RelinkEvolves(h, q, o, link);
  }

  lemma TakeKeepsHeap(env: Env, genum: set<Worker>, h: Heap, q: Flight, from: Link, to: Link)
    requires HeapOk(env, genum, h, q) && IsList(from) && IsList(to)
    requires to.Stack? ==> to.w in env.stage && env.stage[to.w] == Tracing && env.epoch.OnMark?
    requires !to.Stack? ==> to == Remembered(from.w) && from.Pending?
    ensures HeapOk(env, genum, Take(h, from, to), q) && Keeps(env.epoch, h, q, Take(h, from, to), q)
  {
    TakeEvolves(h, q, from, to);
    var h' := Take(h, from, to);
    forall p <- h' ensures ObjOk(env, genum, p, h'[p]) { assert ObjOk(env, genum, p, h[p]); }
  }

  /** Freeing an unmarked object, or making a marked one a target of the next collection. */
  lemma SweepKeepsHeap(env: Env, genum: set<Worker>, h: Heap, q: Flight, o: Ptr)
    requires HeapOk(env, genum, h, q) && env.epoch.OnSweep? && o in h && o != STATIC && !h[o].swept
    ensures HeapOk(env, genum, Sweep(h, o), q) && Keeps(env.epoch, h, q, Sweep(h, o), q)
  {
  }

  lemma AllocKeepsHeap(env: Env, genum: set<Worker>, h: Heap, q: Flight, p: Ptr, x: Object)
    requires HeapOk(env, genum, h, q) && p > 0 && p !in h && ObjOk(env, genum, p, x) && !Garbage(env.epoch, x)
    requires forall v <- x.fields :: Val(env.epoch, h, v)
    requires Tricolor(env.epoch) && x.color != White ==> forall v <- x.fields :: Ok(h, q, v)
    requires forall k :: (p, k) !in q.loose
    ensures HeapOk(env, genum, h[p := x], q) && Keeps(env.epoch, h, q, h[p := x], q)
  {
    var h' := h[p := x];
    forall k | 0 <= k < |x.fields| ensures Val(env.epoch, h, x.fields[k]) {
      assert x.fields[k] in x.fields;
    }
    if Tricolor(env.epoch) {
      assert Evolves(h, q, h', q);
      forall o, k: nat | o in h' && k < |h'[o].fields|
                         && ((h'[o].color != White && !Grey(h'[o], k)) || (o, k) in q.loose)
        ensures Scanned(h, q, h', q, o, k)
      {
        if o == p { OkStays(h, q, h', q, x.fields[k]); }
      }
      SlotsStay(h, q, h', q);
    }
  }

  // ---------------------------------------------------------------- consequences of the invariant

  ghost function Flying(s: State): Flight { FlightOf(s.env, s.heap, s.task) }

  /** When all lists are empty and no write has left anything to be remembered, no slot is grey any more. */
  lemma CleanMeansDone(s: State, x: Ptr)
    requires Inv(s) && s.env.epoch.OnMark? && Clean(s.heap, Flying(s)) && Ok(s.heap, Flying(s), x)
    ensures !IsWhite(s.heap, x)
  {
    hide FlightOf;
    if IsWhite(s.heap, x) {
      assert ObjOk(s.env, s.genum, STATIC, s.heap[STATIC]);
      NothingGreyNothingProtected(s.heap, Flying(s), x);
    }
  }

  lemma ScansOnlyWhenTraced(s: State, w: Worker)
    requires Inv(s) && w in s.env.stage && s.env.stage[w] != Traced
    ensures s.scan == Off
  {
    hide FlightOf, HeapOk, AllRootsOk, UsersOk, TasksOk, WritesOk, TearsOk;
  }

  /** Nobody else touches the stack of a user that runs ML code, and no action of its worker runs while it writes. */
  lemma RunningIsUnlocked(s: State, w: Worker)
    requires UsersOk(s.env, s.task, s.users) && TasksOk(s.env, s.users, s.task) && EnvOk(s.env)
    requires Runs(s, w) || Writes(s, w)
    ensures s.users[s.task[w].u].walk == NoWalk && s.users[s.task[w].u].home == w
    ensures Tricolor(s.env.epoch) && !(s.env.epoch.OnSync2? && s.env.stage[w] == Early) ==> s.users[s.task[w].u].settled
  {
    var u := s.task[w].u;
    assert TaskOk(s.env, s.users, w, s.task[w]);
    assert UserOk(s.env, s.task, u, s.users[u]);
  }

  /** What a running user can load is no garbage, and once its stack has been enumerated tracing cannot miss it. */
  lemma SlotIsSafe(s: State, w: Worker, o: Ptr, k: nat)
    requires Inv(s) && Runs(s, w) && Holds(s, w, o) && k < |s.heap[o].fields|
    ensures Val(s.env.epoch, s.heap, s.heap[o].fields[k])
    ensures Tricolor(s.env.epoch) && s.users[s.task[w].u].settled ==> Ok(s.heap, Flying(s), s.heap[o].fields[k])
  {
    hide FlightOf;
    var u := s.task[w].u;
    assert RootsOk(s.env.epoch, s.heap, Flying(s), s.users[u]);
    assert ObjOk(s.env, s.genum, STATIC, s.heap[STATIC]);
    assert o != STATIC ==> Val(s.env.epoch, s.heap, o);
    if Tricolor(s.env.epoch) && s.users[u].settled {
      LoadIsOk(s.heap, Flying(s), o, k);
    }
  }

  /** The value a running user writes: NULL, or a root that is safe once the stack has been enumerated. */
  lemma SafeValue(s: State, w: Worker, v: Ptr)
    requires Inv(s) && (Runs(s, w) || Writes(s, w)) && (v == 0 || v in s.users[s.task[w].u].roots)
    ensures Val(s.env.epoch, s.heap, v) && 0 !in s.heap
    ensures Tricolor(s.env.epoch) && s.users[s.task[w].u].settled ==> Ok(s.heap, Flying(s), v)
  {
    hide FlightOf;
    assert RootsOk(s.env.epoch, s.heap, Flying(s), s.users[s.task[w].u]);
    assert 0 !in s.heap by {
      assert forall p <- s.heap :: ObjOk(s.env, s.genum, p, s.heap[p]);
    }
  }

  // ---------------------------------------------------------------- generic changes of the state

  /** An edit that writes to no field. */
  ghost predicate SameFields(h: Heap, h': Heap) {
    forall o :: o in h && o in h' ==> h'[o].fields == h[o].fields
  }

  /** The objects of writes in flight are on the stacks of their users, so they stay in the heap. */
  lemma WritersStay(s: State, h': Heap, w: Worker)
    requires Inv(s) && (forall p :: Val(s.env.epoch, s.heap, p) ==> Val(s.env.epoch, h', p)) && STATIC in h'
    requires 0 !in s.heap && w in s.task && s.task[w].Writing?
    ensures s.task[w].o in s.heap && s.task[w].o in h'
  {
    hide FlightOf;
    var t := s.task[w];
    assert WriteOk(s.env, s.heap, Flying(s), s.users, w, t) && RootsOk(s.env.epoch, s.heap, Flying(s), s.users[t.u]);
  }

  lemma SameFlight(env: Env, h: Heap, h': Heap, task: map<Worker, Task>)
    requires SameFields(h, h') && forall w <- task :: task[w].Writing? ==> task[w].o in h && task[w].o in h'
    ensures FlightOf(env, h', task) == FlightOf(env, h, task)
    ensures forall w <- task :: IsLoose(h', task[w]) == IsLoose(h, task[w])
  {
    hide Owing;
    forall w <- task ensures IsLoose(h', task[w]) == IsLoose(h, task[w]) { }
    hide IsLoose;
    assert FlightOf(env, h', task).loose == FlightOf(env, h, task).loose;
  }

  lemma WriteStays(env: Env, h: Heap, q: Flight, h': Heap, q': Flight, users: map<Uid, User>, w: Worker, t: Task)
    requires WriteOk(env, h, q, users, w, t) && Keeps(env.epoch, h, q, h', q') && 0 !in h
    requires t.Writing? ==> t.o in h' && |h'[t.o].fields| == |h[t.o].fields| && Val(env.epoch, h, t.v)
    ensures WriteOk(env, h', q', users, w, t)
  {
    if t.Writing? && Tricolor(env.epoch) && users[t.u].settled { OkStays(h, q, h', q', t.was); }
  }

  lemma HeapChange(s: State, h': Heap)
    requires Inv(s) && SameFields(s.heap, h') && HeapOk(s.env, s.genum, h', Flying(s))
    requires Keeps(s.env.epoch, s.heap, Flying(s), h', Flying(s)) && ScanOk(s.env, h', Flying(s), s.scan)
    ensures Inv(s.(heap := h')) && FlightOf(s.env, h', s.task) == Flying(s)
  {
    var q := Flying(s);
    hide FlightOf, UserOk, TaskOk;
    assert 0 !in s.heap by { assert forall p <- s.heap :: ObjOk(s.env, s.genum, p, s.heap[p]); }
    forall w <- s.task | s.task[w].Writing? ensures s.task[w].o in s.heap && s.task[w].o in h' {
      WritersStay(s, h', w);
    }
    SameFlight(s.env, s.heap, h', s.task);
    RootsStay(s.env.epoch, s.heap, q, h', q, s.users);
    forall w <- s.task ensures WriteOk(s.env, h', q, s.users, w, s.task[w]) {
      if s.task[w].Writing? { WrittenIsVal(s, w); }
      WriteStays(s.env, s.heap, q, h', q, s.users, w, s.task[w]);
    }
    TearsStay(s, h');
  }

  lemma WrittenIsVal(s: State, w: Worker)
    requires Inv(s) && w in s.task && s.task[w].Writing?
    ensures s.task[w].u in s.users && Val(s.env.epoch, s.heap, s.task[w].v)
  {
    hide FlightOf;
    var t := s.task[w];
    assert WriteOk(s.env, s.heap, Flying(s), s.users, w, t) && RootsOk(s.env.epoch, s.heap, Flying(s), s.users[t.u]);
  }

  lemma TearsStay(s: State, h': Heap)
    requires TearsOk(s.env, s.heap, s.task) && SameFields(s.heap, h')
    requires forall w <- s.task :: s.task[w].Writing? ==> s.task[w].o in s.heap && s.task[w].o in h'
    requires Tricolor(s.env.epoch) ==> forall w <- s.task :: IsLoose(s.heap, s.task[w]) ==>
               (IsWhite(h', s.heap[s.task[w].o].fields[s.task[w].k]) ==>
                IsWhite(s.heap, s.heap[s.task[w].o].fields[s.task[w].k]))
    ensures TearsOk(s.env, h', s.task)
  {
    hide Promised;
  }

  /** An edit that takes nothing off a list, and puts nothing on a list once tracing is known to be over. */
  lemma ScanStays(s: State, h': Heap)
    requires Inv(s)
    requires s.scan == Passed && Clean(s.heap, Flying(s)) ==> Clean(h', Flying(s))
    ensures ScanOk(s.env, h', Flying(s), s.scan)
  {
    hide HeapOk, AllRootsOk, UsersOk, TasksOk, WritesOk, TearsOk, FlightOf, Clean;
  }

  lemma NotWriting(env: Env, h: Heap, w: Worker, t: Task)
    requires !t.Writing?
    ensures Owing(env, w, t) == {} && !IsLoose(h, t) && forall p :: !Promised(env, w, t, p)
  {
  }

  /** What a thread that is not in the middle of a write does is no matter to the writes in flight. */
  lemma OtherTask(env: Env, h: Heap, task: map<Worker, Task>, w: Worker, t: Task)
    requires !t.Writing? && (w in task ==> !task[w].Writing?)
    ensures FlightOf(env, h, task[w := t]) == FlightOf(env, h, task)
    ensures TearsOk(env, h, task) ==> TearsOk(env, h, task[w := t])
  {
    NotWriting(env, h, w, t);
    if w in task { NotWriting(env, h, w, task[w]); }
    hide Owing, IsLoose, Promised, FlightOf, TearsOk;
    SameSets(env, h, task, task[w := t]);
  }

  /** Neither is a change after which the same slots are loose and the same is held and promised. */
  lemma SameSets(env: Env, h: Heap, task: map<Worker, Task>, task': map<Worker, Task>)
    requires forall v, p :: v in task' && p in Owing(env, v, task'[v]) <==> v in task && p in Owing(env, v, task[v])
    requires forall v :: v in task' && IsLoose(h, task'[v]) <==> v in task && IsLoose(h, task[v])
    requires forall v :: v in task && v in task' && IsLoose(h, task[v]) ==> task'[v] == task[v]
    requires forall v, p :: v in task' && Promised(env, v, task'[v], p) <==> v in task && Promised(env, v, task[v], p)
    ensures FlightOf(env, h, task') == FlightOf(env, h, task)
    ensures TearsOk(env, h, task) ==> TearsOk(env, h, task')
  {
    hide Owing, IsLoose, Promised;
    var q, q' := FlightOf(env, h, task), FlightOf(env, h, task');
    assert q'.loose == q.loose;
    assert q'.held == q.held;
  }

  /** Replacing one user that no thread but that of w is concerned with, together with what w does. */
  lemma OneTask(s: State, w: Worker, t: Task, x: User, s': State)
    requires UsersOk(s.env, s.task, s.users) && TasksOk(s.env, s.users, s.task)
    requires s'.env == s.env && s'.users == s.users[t.u := x] && s'.task == s.task[w := t]
    requires (w in s.task ==> s.task[w].u == t.u) && forall v <- s.task :: s.task[v].u == t.u ==> v == w
    requires UserOk(s.env, s'.task, t.u, x) && TaskOk(s.env, s'.users, w, t)
    ensures UsersOk(s'.env, s'.task, s'.users) && TasksOk(s'.env, s'.users, s'.task)
  {
    forall v <- s.users | v != t.u ensures UserOk(s.env, s'.task, v, s.users[v]) {
      assert UserOk(s.env, s.task, v, s.users[v]);
    }
    forall v <- s.task | v != w ensures TaskOk(s.env, s'.users, v, s.task[v]) {
      assert TaskOk(s.env, s.users, v, s.task[v]);
    }
  }

  /** The same for the whole invariant. */
  lemma TaskChange(s: State, w: Worker, t: Task, x: User)
    requires Inv(s)
    requires (w in s.task ==> s.task[w].u == t.u && !s.task[w].Writing?) && !t.Writing?
    requires forall v <- s.task :: s.task[v].u == t.u ==> v == w
    requires UserOk(s.env, s.task[w := t], t.u, x) && TaskOk(s.env, s.users[t.u := x], w, t)
    requires RootsOk(s.env.epoch, s.heap, Flying(s), x)
    ensures Inv(SetUser(s, t.u, x).(task := s.task[w := t]))
  {
    OtherTask(s.env, s.heap, s.task, w, t);
    OneTask(s, w, t, x, SetUser(s, t.u, x).(task := s.task[w := t]));
    var q := Flying(s);
    hide HeapOk, ScanOk, RootsOk, FlightOf, TearsOk, UsersOk, TasksOk, UserOk, TaskOk;
    forall v <- s.task | v != w ensures WriteOk(s.env, s.heap, q, s.users[t.u := x], v, s.task[v]) {
      assert WriteOk(s.env, s.heap, q, s.users, v, s.task[v]);
    }
  }

  /** Replacing one user without changing what the threads do. */
  lemma UserChange(s: State, u: Uid, x: User)
    requires Inv(s) && u in s.users && x.home == s.users[u].home && UserOk(s.env, s.task, u, x)
    requires RootsOk(s.env.epoch, s.heap, Flying(s), x)
    requires forall w <- s.task :: s.task[w].Writing? ==> s.task[w].u != u
    ensures Inv(SetUser(s, u, x))
  {
    hide HeapOk, ScanOk, RootsOk, UserOk, FlightOf, TearsOk;
    forall v <- s.task
      ensures TaskOk(s.env, s.users[u := x], v, s.task[v])
      ensures WriteOk(s.env, s.heap, Flying(s), s.users[u := x], v, s.task[v])
    {
      assert TaskOk(s.env, s.users, v, s.task[v]) && WriteOk(s.env, s.heap, Flying(s), s.users, v, s.task[v]);
    }
  }

  /** The thread of a worker that acts, and the thread of a mover, are not in the middle of a write. */
  lemma NobodyWrites(s: State, u: Uid)
    requires UsersOk(s.env, s.task, s.users) && TasksOk(s.env, s.users, s.task) && u in s.users
    requires s.env.stage[s.users[u].home] == Rooting || s.users[u].walk.Walk?
    ensures forall w <- s.task :: s.task[w].Writing? ==> s.task[w].u != u
  {
    assert UserOk(s.env, s.task, u, s.users[u]);
    forall w <- s.task | s.task[w].Writing? ensures s.task[w].u != u { assert TaskOk(s.env, s.users, w, s.task[w]); }
  }

  /** A step of a write: what one thread does changes, and perhaps the heap. */
  lemma WriteChange(s: State, w: Worker, t: Task, h': Heap)
    requires Inv(s) && w in s.task && !s.task[w].Entering? && !t.Entering? && t.u == s.task[w].u
    requires var q' := FlightOf(s.env, h', s.task[w := t]);
             && HeapOk(s.env, s.genum, h', q') && Keeps(s.env.epoch, s.heap, Flying(s), h', q')
             && WriteOk(s.env, h', q', s.users, w, t) && ScanOk(s.env, h', q', s.scan)
    requires TaskOk(s.env, s.users, w, t) && TearsOk(s.env, h', s.task[w := t])
    requires forall o :: o in s.heap && o in h' ==> |h'[o].fields| == |s.heap[o].fields|
    ensures Inv(s.(heap := h', task := s.task[w := t]))
  {
    var q' := FlightOf(s.env, h', s.task[w := t]);
    assert 0 !in s.heap by { assert forall p <- s.heap :: ObjOk(s.env, s.genum, p, s.heap[p]); }
    hide FlightOf, TearsOk, ScanOk, HeapOk;
    RootsStay(s.env.epoch, s.heap, Flying(s), h', q', s.users);
    forall v <- s.task | v != w ensures WriteOk(s.env, h', q', s.users, v, s.task[v]) {
      if s.task[v].Writing? { WritersStay(s, h', v); WrittenIsVal(s, v); }
      WriteStays(s.env, s.heap, Flying(s), h', q', s.users, v, s.task[v]);
    }
    hide Keeps, WriteOk;
    forall u <- s.users ensures UserOk(s.env, s.task[w := t], u, s.users[u]) {
      assert UserOk(s.env, s.task, u, s.users[u]);
    }
  }
}
