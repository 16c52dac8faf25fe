/**
 The on-the-fly collector of heap_concurrent.c and the user migration of control.c, over any number of workers,
 user threads, objects and collections.

 Of the handshakes this module sees only what the collector depends on: the stage of each worker and the epoch of
 the whole collection (Env).  Module System shows that the handshakes of Control drive exactly these changes.
 One step is one access to memory that another thread may see: a load, the read, the tests and sets, the pushes and
 the store of a write, one slot scanned, one root walked, one object swept.
 */
module Collector {
  import opened Phases
  import opened Wrappers
  import opened Marking

  type Uid = int

  // ---------------------------------------------------------------- stages

  /** Where a worker stands: ASYNC and PRESYNC1 have no barrier; SYNC1 and PRESYNC2 have both barriers; SYNC2 is split
      into the action and what follows it; so are MARK and ASYNC. */
  datatype Stage = Plain | Early | Rooting | Rooted | MarkPending | Tracing | Traced | SweepPending | Sweeping

  /** Rest: gc_count is even.  Opening: gc_count is odd, SYNC1 not yet published.  OnSync1(c): SYNC1 published and c is
      the worker elected to enumerate the globals.  Then SYNC2, MARK, and ASYNC published. */
  datatype Epoch = Rest | Opening | OnSync1(chosen: Option<Worker>) | OnSync2 | OnMark | OnSweep

  datatype Env = Env(epoch: Epoch, stage: map<Worker, Stage>)

  predicate StageFits(e: Epoch, t: Stage) {
    match e
    case Rest => t == Plain
    case Opening => t == Plain
    case OnSync1(_) => t == Plain || t == Early
    case OnSync2 => t == Early || t == Rooting || t == Rooted
    case OnMark => t == Rooted || t == MarkPending || t == Tracing || t == Traced
    case OnSweep => t == Traced || t == SweepPending || t == Sweeping || t == Plain
  }

  /** Some thread runs the worker's action. */
  predicate Acting(t: Stage) { t == Rooting || t == Tracing || t == Sweeping }

  /** phase >= SYNC1: the barrier remembers the value that is overwritten. */
  predicate DeletionBarrier(t: Stage) { t != Plain && t != SweepPending && t != Sweeping }

  /** SYNC1 <= phase <= SYNC2: it also remembers the value that is written. */
  predicate InsertionBarrier(t: Stage) { t == Early || t == Rooting || t == Rooted }

  /** ASYNC <= phase <= PRESYNC2: new objects lie before the allocation pointer that SYNC2 will snapshot. */
  predicate AllocatesTargets(t: Stage) { t == Plain || t == Early }

  /** From the first SYNC2 to the end of tracing. */
  predicate Tricolor(e: Epoch) { e.OnSync2? || e.OnMark? }

  predicate All(e: Env, t: Stage) { forall w <- e.stage :: e.stage[w] == t }

  predicate EnvOk(e: Env) {
    && (forall w <- e.stage :: StageFits(e.epoch, e.stage[w]))
    && (e.epoch.OnSync1? && e.epoch.chosen.Some? ==> e.epoch.chosen.value in e.stage)
  }

  datatype EnvStep =
    | Stutter | Join(w: Worker) | Die(w: Worker) | Accept(w: Worker) | Send(w: Worker) | Done(w: Worker)
    | Elect(w: Worker) | OpenGc | Sync1Begins | Sync2Begins | MarkBegins | SweepBegins | Close

  /** The stage of a worker registered in epoch e: it has the phase of workers_available, already accepted. */
  function JoinStage(e: Epoch): Stage {
    match e
    case OnSync1(_) => Early
    case OnSync2 => Rooted
    case OnMark => Traced
    case _ => Plain
  }

  ghost predicate EnvNext(e: Env, l: EnvStep, e': Env) {
    match l
    case Stutter => e' == e
    case Join(w) => w !in e.stage && e' == e.(stage := e.stage[w := JoinStage(e.epoch)])
    case Die(w) => w in e.stage && e.epoch == OnSync1(None) && e.stage[w] == Plain && e' == e.(stage := e.stage - {w})
    case Accept(w) =>
      w in e.stage
      && (match e.stage[w]
          case Plain => e.epoch.OnSync1? && e.epoch.chosen.None? && e' == e.(stage := e.stage[w := Early])
          case Early => e.epoch.OnSync2? && e' == e.(stage := e.stage[w := Rooting])
          case MarkPending => e' == e.(stage := e.stage[w := Tracing])
          case SweepPending => e' == e.(stage := e.stage[w := Sweeping])
          case _ => false)
    case Send(w) =>
      w in e.stage
      && (match e.stage[w]
          case Rooted => e.epoch.OnMark? && e' == e.(stage := e.stage[w := MarkPending])
          case Traced => e' == e.(stage := e.stage[w := if e.epoch.OnMark? then MarkPending else SweepPending])
          case _ => false)
    case Done(w) =>
      w in e.stage
      && (match e.stage[w]
          case Rooting => e' == e.(stage := e.stage[w := Rooted])
          case Tracing => e' == e.(stage := e.stage[w := Traced])
          case Sweeping => e' == e.(stage := e.stage[w := Plain])
          case _ => false)
    case Elect(w) => e.epoch == OnSync1(None) && w in e.stage && All(e, Early) && e' == e.(epoch := OnSync1(Some(w)))
    case OpenGc => e.epoch.Rest? && e' == e.(epoch := Opening)
    case Sync1Begins => e.epoch.Opening? && e' == e.(epoch := OnSync1(None))
    case Sync2Begins => e.epoch.OnSync1? && e.epoch.chosen.Some? && All(e, Early) && e' == e.(epoch := OnSync2)
    case MarkBegins => e.epoch.OnSync2? && All(e, Rooted) && e' == e.(epoch := OnMark)
    case SweepBegins => e.epoch.OnMark? && All(e, Traced) && e' == e.(epoch := OnSweep)
    case Close => e.epoch.OnSweep? && All(e, Plain) && e' == e.(epoch := Rest)
  }

  // ---------------------------------------------------------------- users

  /** The lock on a user (BUSY_FLAG): free, held by a thread that will not enumerate, or held by a thread that is
      enumerating the stack for worker who and has the roots todo left. */
  datatype Busy = NoWalk | Held(who: Worker) | Walk(who: Worker, todo: set<Ptr>)

  /** A user thread: the worker it belongs to, the pointers on its stack, and whether the stack has been enumerated in
      this collection. */
  datatype User = User(home: Worker, roots: set<Ptr>, settled: bool, walk: Busy)

  /** What sml_enter saw in the state of its own worker: a phase outside SYNC1..SYNC2, one before SYNC2, or SYNC2. */
  datatype When = Outside | Before | After

  /** What the thread of a worker does: it runs ML code for a user; it is inside sml_write or sml_cmpswap, or it is
      moving a user over to its worker.
      A write of v to slot k of o has read was there; stored says that v is there already (sml_cmpswap stores first),
      and todo is what it has yet to remember, once it has looked at the phase.
      waited records that a mover could not take the user's lock at once. */
  datatype Task =
    | Running(u: Uid)
    | Writing(u: Uid, o: Ptr, k: nat, v: Ptr, was: Ptr, stored: bool, todo: Option<seq<Ptr>>)
    | Entering(u: Uid, when: When, waited: bool)

  function Saw(t: Stage): When {
    match t case Early => Before case Rooting => After case Rooted => After case _ => Outside
  }

  /** sml_heap_mark_finish: reading the remembered sets of the known workers, for the first or second time. */
  datatype Scan = Off | Pass(n: nat, todo: set<Worker>, known: set<Worker>) | Passed

  datatype State = State(env: Env, heap: Heap, users: map<Uid, User>, task: map<Worker, Task>, genum: set<Worker>,
                         scan: Scan)

  /** No workers, no users, no objects, and any number of global variables, all NULL. */
  ghost predicate Init(s: State) {
    && s.env == Env(Rest, map[]) && s.users == map[] && s.task == map[] && s.genum == {} && s.scan == Off
    && s.heap.Keys == {STATIC} && s.heap[STATIC].color == New && s.heap[STATIC].link == Static(0)
    && forall k :: 0 <= k < |s.heap[STATIC].fields| ==> s.heap[STATIC].fields[k] == 0
  }

  // ---------------------------------------------------------------- steps

  datatype Step =
    | Shake(e: EnvStep)
    // the collector
    | TakeList(w: Worker, remembered: bool) | Pop(w: Worker, o: Ptr) | ScanField(w: Worker, o: Ptr)
    | DoneScan(w: Worker, o: Ptr)
    | WalkLock(w: Worker, u: Uid) | WalkRoot(u: Uid, p: Ptr) | WalkDone(u: Uid) | WalkStatic(w: Worker)
    | Forget(w: Worker) | SweepObject(w: Worker, o: Ptr) | SweepPool(o: Ptr)
    | ScanStart | ScanOne(w: Worker) | ScanPass | ScanEnd(finished: bool)
    // user threads
    | StartUser(w: Worker, u: Uid) | EndUser(u: Uid) | Resume(w: Worker, u: Uid) | Quit(w: Worker)
    | Arrive(w: Worker, u: Uid) | SeeBusy(w: Worker) | Spurious(w: Worker) | Move(w: Worker) | LockUser(w: Worker)
    | Publish(w: Worker)
    // ML code
    | Load(w: Worker, o: Ptr, k: nat) | Alloc(w: Worker, p: Ptr, init: seq<Ptr>) | DropRoots(w: Worker, keep: set<Ptr>)
    // writes
    | Read(w: Worker, o: Ptr, k: nat, v: Ptr) | Swap(w: Worker, o: Ptr, k: nat, was: Ptr, v: Ptr)
    | Look(w: Worker) | Remember(w: Worker) | Push(w: Worker) | Store(w: Worker)

  /** The thread of w may run ML code or enter it. */
  predicate Ready(s: State, w: Worker) { w in s.env.stage && !Acting(s.env.stage[w]) }

  predicate Runs(s: State, w: Worker) {
    Ready(s, w) && w in s.task && s.task[w].Running? && s.task[w].u in s.users
  }

  predicate Moves(s: State, w: Worker) {
    w in s.env.stage && w in s.task && s.task[w].Entering? && s.task[w].u in s.users
  }

  predicate Writes(s: State, w: Worker) {
    Ready(s, w) && w in s.task && s.task[w].Writing? && s.task[w].u in s.users
  }

  predicate Away(s: State, u: Uid) { u in s.users && forall w <- s.task :: s.task[w].u != u }

  predicate Holds(s: State, w: Worker, o: Ptr)
    requires Runs(s, w)
  {
    o in s.heap && (o == STATIC || o in s.users[s.task[w].u].roots)
  }

  predicate Knows(s: State, w: Worker, v: Ptr)
    requires Runs(s, w)
  {
    v == 0 || v in s.users[s.task[w].u].roots
  }

  function SetUser(s: State, u: Uid, x: User): State { s.(users := s.users[u := x]) }

  /** barrier, in this order: the value written is remembered while the phase is at most SYNC2, then the value
      overwritten. */
  function ToRemember(t: Stage, v: Ptr, was: Ptr): seq<Ptr> {
    (if InsertionBarrier(t) then [v] else []) + if DeletionBarrier(t) then [was] else []
  }

  /** The store of sml_write; sml_cmpswap has stored already. */
  function Stored(h: Heap, t: Task): Heap
    requires t.Writing?
  {
    if !t.stored && t.o in h && t.k < |h[t.o].fields| then SetField(h, t.o, t.k, t.v) else h
  }

  /** copy_collect_bitmap on one block: what is not marked is free, what is marked or new becomes a target of the next
      collection. */
  function Sweep(h: Heap, o: Ptr): Heap
    requires o in h
  {
    if h[o].color == White then h - {o} else h[o := h[o].(color := White, swept := true)]
  }

  function Unswept(h: Heap): Heap { map p <- h :: h[p].(swept := false) }

  function Unsettled(us: map<Uid, User>): map<Uid, User> { map u <- us :: us[u].(settled := false) }

  /** The global variables are all to be enumerated again. */
  function Restart(h: Heap): Heap {
    if STATIC in h then Relink(h, STATIC, Static(0)) else h
  }

  ghost predicate HasRemembered(h: Heap, w: Worker) { exists o <- h :: h[o].link == Remembered(w) }

  ghost predicate HasPending(h: Heap, w: Worker) { exists o <- h :: h[o].link == Pending(w) }

  ghost predicate NoLinks(h: Heap, w: Worker) {
    forall o <- h :: h[o].link != Roots(w) && h[o].link != Remembered(w) && h[o].link != Stack(w)
                     && !(h[o].link.Scanning? && h[o].link.w == w)
  }

  /** What a worker must have done before it answers. */
  ghost predicate ActionDone(s: State, w: Worker)
    requires w in s.env.stage
  {
    match s.env.stage[w]
    case Rooting => (forall u <- s.users :: s.users[u].home == w ==> s.users[u].settled)
                    && (w in s.genum && STATIC in s.heap && s.heap[STATIC].link.Static? ==>
                        s.heap[STATIC].link.k == |s.heap[STATIC].fields|)
    case Tracing => NoLinks(s.heap, w)
    case Sweeping => (forall o <- s.heap :: o != STATIC && s.heap[o].owner == w ==> s.heap[o].swept)
      && !HasRemembered(s.heap, w)
    case _ => true
  }

  /** What must hold before a step of the handshakes. */
  ghost predicate MayShake(s: State, l: EnvStep) {
    match l
    case Join(w) => forall o <- s.heap :: o != STATIC ==> s.heap[o].owner != w
    case Die(w) => w !in s.task && forall u <- s.users :: s.users[u].home != w
    case Accept(w) => w in s.task ==> s.task[w].Running?
    case Send(_) => s.scan == Off
    case Done(w) => w in s.env.stage && ActionDone(s, w)
    case SweepBegins => s.scan == Passed
    case Close => forall o <- s.heap :: o != STATIC ==> s.heap[o].swept
    case _ => true
  }

  /** What it does besides moving the environment on. */
  function Effect(s: State, l: EnvStep, env: Env): State {
    match l
    case Done(w) =>
      s.(env := env, genum := if w in s.env.stage && s.env.stage[w] == Rooting then s.genum - {w} else s.genum)
    case Elect(w) => s.(env := env, genum := s.genum + {w})
    case OpenGc => s.(env := env, users := Unsettled(s.users), heap := Restart(s.heap))
    case SweepBegins => s.(env := env, heap := Unswept(s.heap), scan := Off)
    case _ => s.(env := env)
  }

  ghost predicate EnvEffect(s: State, l: EnvStep, s': State) {
    EnvNext(s.env, l, s'.env) && MayShake(s, l) && s' == Effect(s, l, s'.env)
  }

  ghost predicate CollectorStep(s: State, l: Step, s': State) {
    match l
    case TakeList(w, remembered) =>
      w in s.env.stage && s.env.stage[w] == Tracing
      && s' == s.(heap := Take(s.heap, if remembered then Remembered(w) else Roots(w), Stack(w)))
    case Pop(w, o) => o in s.heap && s.heap[o].link == Stack(w) && s' == s.(heap := Relink(s.heap, o, Scanning(w, 0)))
    case ScanField(w, o) =>
      o in s.heap && s.heap[o].link.Scanning? && s.heap[o].link.w == w && s.heap[o].link.k < |s.heap[o].fields|
      && var k := s.heap[o].link.k;
         s' == s.(heap := Relink(Visit(s.heap, s.heap[o].fields[k], Stack(w)), o, Scanning(w, k + 1)))
    case DoneScan(w, o) =>
      o in s.heap && s.heap[o].link == Scanning(w, |s.heap[o].fields|) && s' == s.(heap := Relink(s.heap, o, Link.Free))
    case WalkLock(w, u) =>
      w in s.env.stage && s.env.stage[w] == Rooting && u in s.users && s.users[u].home == w
      && s.users[u].walk.NoWalk? && !s.users[u].settled
      && s' == SetUser(s, u, s.users[u].(walk := Walk(w, s.users[u].roots)))
    case WalkRoot(u, p) =>
      u in s.users && s.users[u].walk.Walk? && p in s.users[u].walk.todo
      && var k := s.users[u].walk;
         s' == SetUser(s, u, s.users[u].(walk := Walk(k.who, k.todo - {p}))).(heap := Visit(s.heap, p, Roots(k.who)))
    case WalkDone(u) =>
      u in s.users && s.users[u].walk == Walk(s.users[u].home, {})
      && s' == SetUser(s, u, s.users[u].(walk := NoWalk, settled := true))
    case WalkStatic(w) =>
      w in s.env.stage && s.env.stage[w] == Rooting && w in s.genum && STATIC in s.heap && s.heap[STATIC].link.Static?
      && s.heap[STATIC].link.k < |s.heap[STATIC].fields|
      && var k := s.heap[STATIC].link.k;
         s' == s.(heap := Relink(Visit(s.heap, s.heap[STATIC].fields[k], Roots(w)), STATIC, Static(k + 1)))
    case Forget(w) =>
      w in s.env.stage && s.env.stage[w] == Sweeping && s' == s.(heap := Take(s.heap, Remembered(w), Link.Free))
    case SweepObject(w, o) =>
      w in s.env.stage && s.env.stage[w] == Sweeping && o in s.heap && o != STATIC && s.heap[o].owner == w
      && !s.heap[o].swept
      && s' == s.(heap := Sweep(s.heap, o))
    case SweepPool(o) =>
      s.env.epoch.OnSweep? && All(s.env, Plain) && o in s.heap && o != STATIC && s.heap[o].owner !in s.env.stage
      && !s.heap[o].swept && s' == s.(heap := Sweep(s.heap, o))
    case ScanStart =>
      s.env.epoch.OnMark? && All(s.env, Traced) && s.scan == Off
      && s' == s.(scan := Pass(1, s.env.stage.Keys, s.env.stage.Keys))
    case ScanOne(w) =>
      s.scan.Pass? && w in s.scan.todo && !HasRemembered(s.heap, w)
      && s' == s.(scan := s.scan.(todo := s.scan.todo - {w}))
    case ScanPass => s.scan.Pass? && s.scan.n == 1 && s.scan.todo == {}
      && s' == s.(scan := Pass(2, s.scan.known, s.scan.known))
    case ScanEnd(finished) =>
      s.scan.Pass?
      && (finished ==> s.scan.n == 2 && s.scan.todo == {} && s.scan.known == s.env.stage.Keys)
      && s' == s.(scan := if finished then Passed else Off)
    case _ => false
  }

  ghost predicate UserStep(s: State, l: Step, s': State) {
    match l
    case StartUser(w, u) =>
      Ready(s, w) && w !in s.task && u !in s.users && (forall v <- s.task :: s.task[v].u != u)
      && s' == SetUser(s, u, User(w, {}, !AllocatesTargets(s.env.stage[w]), NoWalk)).(task := s.task[w := Running(u)])
    case EndUser(u) => Away(s, u) && s.users[u].walk.NoWalk? && s' == s.(users := s.users - {u})
    case Resume(w, u) =>
      Ready(s, w) && w !in s.task && Away(s, u) && s.users[u].home == w && s' == s.(task := s.task[w := Running(u)])
    case Quit(w) => Runs(s, w) && s' == s.(task := s.task - {w})
    case Arrive(w, u) =>
      Ready(s, w) && w !in s.task && Away(s, u) && s.users[u].home != w
      && s' == s.(task := s.task[w := Entering(u, Saw(s.env.stage[w]), false)])
    case SeeBusy(w) =>
      Moves(s, w) && !s.task[w].when.Outside? && !s.users[s.task[w].u].walk.NoWalk?
      && s.users[s.task[w].u].walk.who != w
      && s' == s.(task := s.task[w := s.task[w].(waited := true)])
    case Spurious(w) =>
      Moves(s, w) && !s.task[w].when.Outside? && s.users[s.task[w].u].walk.NoWalk?
      && s' == s.(task := s.task[w := s.task[w].(waited := true)])
    case Move(w) =>
      Moves(s, w) && s.task[w].when.Outside?
      && var u := s.task[w].u;
         s' == SetUser(s, u, s.users[u].(home := w)).(task := s.task[w := Running(u)])
    case LockUser(w) =>
      Moves(s, w) && !s.task[w].when.Outside? && s.users[s.task[w].u].walk.NoWalk?
      && var u := s.task[w].u;
         var walks := s.task[w].when.After? && !s.task[w].waited;
         s' == SetUser(s, u, s.users[u].(walk := if walks then Walk(w, s.users[u].roots) else Held(w)))
    case Publish(w) =>
      Moves(s, w) && (s.users[s.task[w].u].walk == Held(w) || s.users[s.task[w].u].walk == Walk(w, {}))
      && var u := s.task[w].u;
         s' == SetUser(s, u, s.users[u].(home := w, settled := s.task[w].when.After?, walk := NoWalk))
               .(task := s.task[w := Running(u)])
    case _ => false
  }

  ghost predicate MLStep(s: State, l: Step, s': State) {
    match l
    case Load(w, o, k) =>
      Runs(s, w) && Holds(s, w, o) && k < |s.heap[o].fields|
      && var u := s.task[w].u;
         s' == SetUser(s, u, s.users[u].(roots := s.users[u].roots + {s.heap[o].fields[k]}))
    case Alloc(w, p, init) =>
      Runs(s, w) && p > 0 && p !in s.heap && (forall v <- init :: Knows(s, w, v))
      && var u := s.task[w].u; var t := s.env.stage[w];
         s' == SetUser(s, u, s.users[u].(roots := s.users[u].roots + {p}))
               .(heap := s.heap[p := Object(init, if AllocatesTargets(t) then White else New, Link.Free, w,
                                            s.env.epoch.OnSweep? && t == Plain)])
    case DropRoots(w, keep) =>
      Runs(s, w)
      && var u := s.task[w].u;
         s' == SetUser(s, u, s.users[u].(roots := s.users[u].roots * keep))
    case _ => false
  }

  /** sml_write reads the slot, and sml_cmpswap exchanges it; then both look at the phase, remember what it tells them
      to, each time by a test-and-set of the collect bit and a push on the remembered set if it was clear, and sml_write
      stores. */
  ghost predicate WriteStep(s: State, l: Step, s': State) {
    match l
    case Read(w, o, k, v) =>
      Runs(s, w) && Holds(s, w, o) && k < |s.heap[o].fields| && Knows(s, w, v)
      && var t := Writing(s.task[w].u, o, k, v, s.heap[o].fields[k], false, None);
         s' == s.(task := s.task[w := t])
    case Swap(w, o, k, was, v) =>
      Runs(s, w) && Holds(s, w, o) && k < |s.heap[o].fields| && Knows(s, w, was) && Knows(s, w, v)
      && s.heap[o].fields[k] == was
      && var t := Writing(s.task[w].u, o, k, v, was, true, None);
         s' == s.(heap := SetField(s.heap, o, k, v), task := s.task[w := t])
    case Look(w) =>
      Writes(s, w) && s.task[w].todo.None?
      && var t := s.task[w];
         s' == s.(task := s.task[w := t.(todo := Some(ToRemember(s.env.stage[w], t.v, t.was)))])
    case Remember(w) =>
      Writes(s, w) && s.task[w].todo.Some? && s.task[w].todo.value != [] && !HasPending(s.heap, w)
      && var l := s.task[w].todo.value;
         s' == s.(heap := Visit(s.heap, l[0], Pending(w)), task := s.task[w := s.task[w].(todo := Some(l[1..]))])
    case Push(w) =>
      Writes(s, w) && HasPending(s.heap, w) && s' == s.(heap := Take(s.heap, Pending(w), Remembered(w)))
    case Store(w) =>
      Writes(s, w) && s.task[w].todo == Some([]) && !HasPending(s.heap, w)
      && s' == s.(heap := Stored(s.heap, s.task[w]), task := s.task[w := Running(s.task[w].u)])
    case _ => false
  }

  ghost predicate Next(s: State, l: Step, s': State) {
    match l
    case Shake(e) => EnvEffect(s, e, s')
    case _ => CollectorStep(s, l, s') || UserStep(s, l, s') || MLStep(s, l, s') || WriteStep(s, l, s')
  }
}
