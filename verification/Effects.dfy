/**
 What the steps of the collector leave in memory: which slots hold what, which objects come and go, who is marked and
 what is on which list; and that tracing, left alone, comes to an end.
 */
module Effects {
  import opened Phases
  import opened Wrappers
  import opened Marking
  import opened Collector
  import opened Invariant
  import opened Safety

  // ---------------------------------------------------------------- slots

  /** Nothing has changed but slot k of o. */
  ghost predicate OnlySlot(h: Heap, h': Heap, o: Ptr, k: nat) {
    && h'.Keys == h.Keys
    && forall p <- h ::
         && h'[p].color == h[p].color && h'[p].link == h[p].link && h'[p].owner == h[p].owner
         && h'[p].swept == h[p].swept && |h'[p].fields| == |h[p].fields|
         && forall i :: 0 <= i < |h[p].fields| && (p != o || i != k) ==> h'[p].fields[i] == h[p].fields[i]
  }

  /** sml_cmpswap: the slot held the value expected and now holds the new one, and the barrier is still to come. */
  lemma SwapExchanges(s: State, w: Worker, o: Ptr, k: nat, was: Ptr, v: Ptr, s': State)
    requires Next(s, Swap(w, o, k, was, v), s')
    ensures o in s.heap && o in s'.heap && k < |s.heap[o].fields| == |s'.heap[o].fields|
    ensures s.heap[o].fields[k] == was && s'.heap[o].fields[k] == v && OnlySlot(s.heap, s'.heap, o, k)
    ensures w in s.task && s'.task == s.task[w := Writing(s.task[w].u, o, k, v, was, true, None)]
    ensures s'.env == s.env && s'.users == s.users && s'.genum == s.genum && s'.scan == s.scan
  {
  }

  /** The store at the end of sml_write: the slot holds the new value.  A sml_cmpswap has nothing left to store. */
  lemma StoreWrites(s: State, w: Worker, s': State)
    requires Next(s, Store(w), s') && Inv(s)
    ensures w in s.task && s.task[w].Writing? && s'.task == s.task[w := Running(s.task[w].u)]
    ensures var t := s.task[w];
            if t.stored then s'.heap == s.heap
            else t.o in s'.heap && t.k < |s'.heap[t.o].fields| && s'.heap[t.o].fields[t.k] == t.v
                 && OnlySlot(s.heap, s'.heap, t.o, t.k)
    ensures s'.env == s.env && s'.users == s.users && s'.genum == s.genum && s'.scan == s.scan
  {
    var q := FlightOf(s.env, s.heap, s.task);
    assert WriteOk(s.env, s.heap, q, s.users, w, s.task[w]);
  }

  /** One slot written, and its new value. */
  datatype Cell = Cell(o: Ptr, k: int, v: Ptr)

  /** What a step writes, if it writes to a slot. */
  function Wrote(s: State, l: Step): Option<Cell> {
    match l
    case Swap(_, o, k, _, v) => Some(Cell(o, k, v))
    case Store(w) =>
      if w in s.task && s.task[w].Writing? && !s.task[w].stored then
        Some(Cell(s.task[w].o, s.task[w].k, s.task[w].v))
      else None
    case _ => None
  }

  predicate WroteTo(s: State, l: Step, o: Ptr, k: int) {
    Wrote(s, l).Some? && Wrote(s, l).value.o == o && Wrote(s, l).value.k == k
  }

  lemma CollectorKeepsFields(s: State, l: Step, s': State, o: Ptr)
    requires CollectorStep(s, l, s') && o in s.heap && o in s'.heap
    ensures s'.heap[o].fields == s.heap[o].fields
  {
    if l.TakeList? || l.Forget? {
      hide CollectorStep;
      TakesKeepObjects(s, l, s', o);
    } else {
      hide HasRemembered, All, Take;
    }
  }

  lemma ProgramKeepsFields(s: State, l: Step, s': State, o: Ptr)
    requires UserStep(s, l, s') || MLStep(s, l, s')
    requires o in s.heap && o in s'.heap
    ensures s'.heap[o].fields == s.heap[o].fields
  {
  }

  lemma ShakeKeepsFields(s: State, e: EnvStep, s': State, o: Ptr)
    requires EnvEffect(s, e, s') && o in s.heap && o in s'.heap
    ensures s'.heap[o].fields == s.heap[o].fields
  {
    hide EnvNext, MayShake;
  }

  lemma WriteChangesSlot(s: State, l: Step, s': State, o: Ptr, k: nat)
    requires WriteStep(s, l, s') && o in s.heap && o in s'.heap && k < |s.heap[o].fields|
    ensures |s'.heap[o].fields| == |s.heap[o].fields|
    ensures s'.heap[o].fields[k] == if WroteTo(s, l, o, k) then Wrote(s, l).value.v else s.heap[o].fields[k]
  {
    hide HasPending, ToRemember;
  }

  /** Whatever the collector does to an object, its slots change by the writes of the program alone. */
  lemma SlotChanges(s: State, l: Step, s': State, o: Ptr, k: nat)
    requires Next(s, l, s') && o in s.heap && o in s'.heap && k < |s.heap[o].fields|
    ensures |s'.heap[o].fields| == |s.heap[o].fields|
    ensures s'.heap[o].fields[k] == if WroteTo(s, l, o, k) then Wrote(s, l).value.v else s.heap[o].fields[k]
  {
    hide CollectorStep, UserStep, MLStep, WriteStep, EnvEffect;
    if l.Shake? {
      ShakeKeepsFields(s, l.e, s', o);
    } else if WriteStep(s, l, s') {
      WriteChangesSlot(s, l, s', o, k);
    } else {
      OnlyWritesWrite(s, l, s');
      if CollectorStep(s, l, s') { CollectorKeepsFields(s, l, s', o); } else { ProgramKeepsFields(s, l, s', o); }
    }
  }

  lemma OnlyWritesWrite(s: State, l: Step, s': State)
    requires CollectorStep(s, l, s') || UserStep(s, l, s') || MLStep(s, l, s')
    ensures Wrote(s, l).None?
  {
  }

  /** Over whole runs: a slot to which nothing is written holds what it held. */
  lemma {:induction false} UnwrittenStays(ss: seq<State>, ls: seq<Step>, i: nat, n: nat, o: Ptr, k: nat)
    requires IsRun(ss, ls) && i <= n < |ss| && (forall m :: i <= m <= n ==> o in ss[m].heap)
    requires k < |ss[i].heap[o].fields| && forall m :: i <= m < n ==> !WroteTo(ss[m], ls[m], o, k)
    ensures |ss[n].heap[o].fields| == |ss[i].heap[o].fields| && ss[n].heap[o].fields[k] == ss[i].heap[o].fields[k]
  {
    hide Next, Init, Wrote, WroteTo;
    if i < n {
      UnwrittenStays(ss, ls, i, n - 1, o, k);
      SlotChanges(ss[n - 1], ls[n - 1], ss[n], o, k);
    }
  }

  /** And a slot to which something is written holds what has been written to it last, however often the object has been
      marked, put on lists and swept since. */
  lemma LastWriteWins(ss: seq<State>, ls: seq<Step>, j: nat, n: nat, o: Ptr, k: nat)
    requires IsRun(ss, ls) && j < n < |ss| && (forall m :: j <= m <= n ==> o in ss[m].heap)
    requires k < |ss[j].heap[o].fields| && WroteTo(ss[j], ls[j], o, k)
    requires forall m :: j < m < n ==> !WroteTo(ss[m], ls[m], o, k)
    ensures k < |ss[n].heap[o].fields| && ss[n].heap[o].fields[k] == Wrote(ss[j], ls[j]).value.v
  {
    hide Next, Init;
    SlotChanges(ss[j], ls[j], ss[j + 1], o, k);
    hide Wrote, WroteTo;
    UnwrittenStays(ss, ls, j + 1, n, o, k);
  }

  // ---------------------------------------------------------------- the steps of a write

  /** What the barrier reads is what the slot holds. */
  lemma ReadSeesSlot(s: State, w: Worker, o: Ptr, k: nat, v: Ptr, s': State)
    requires Next(s, Read(w, o, k, v), s')
    ensures o in s.heap && k < |s.heap[o].fields| && s' == s.(task := s'.task) && w in s.task
    ensures s'.task == s.task[w := Writing(s.task[w].u, o, k, v, s.heap[o].fields[k], false, None)]
  {
  }

  /** And so is what a load puts on the stack. */
  lemma LoadSeesSlot(s: State, w: Worker, o: Ptr, k: nat, s': State)
    requires Next(s, Load(w, o, k), s')
    ensures w in s.task && s.task[w].u in s.users && o in s.heap && k < |s.heap[o].fields|
    ensures s'.users.Keys == s.users.Keys && s' == s.(users := s'.users)
    ensures forall u <- s.users :: s'.users[u].home == s.users[u].home && s'.users[u].settled == s.users[u].settled
                                   && s'.users[u].walk == s.users[u].walk
    ensures forall u <- s.users ::
              s'.users[u].roots == s.users[u].roots + if u == s.task[w].u then {s.heap[o].fields[k]} else {}
  {
  }

  /** A write remembers both values from SYNC1 to SYNC2, then the one overwritten, and out of a collection nothing. */
  lemma LookDecides(s: State, w: Worker, s': State)
    requires Next(s, Look(w), s')
    ensures w in s.task && s.task[w].Writing? && w in s.env.stage && s' == s.(task := s'.task)
    ensures var t, g := s.task[w], s.env.stage[w];
            var l := if g in {Early, Rooting, Rooted} then [t.v, t.was]
                     else if g in {MarkPending, Tracing, Traced} then [t.was]
                     else [];
            s'.task == s.task[w := t.(todo := Some(l))]
  {
    var t := s.task[w];
    TwoValues(t.v, t.was);
    hide ToRemember;
    LookList(s.env.stage[w], t.v, t.was);
  }

  lemma TwoValues(v: Ptr, was: Ptr)
    ensures [v] + [was] == [v, was] && [] + [was] == [was]
  {
  }

  lemma LookList(g: Stage, v: Ptr, was: Ptr)
    ensures ToRemember(g, v, was) == if g in {Early, Rooting, Rooted} then [v, was]
                                     else if g in {MarkPending, Tracing, Traced} then [was]
                                     else []
  {
    TwoValues(v, was);
  }

  /** The test-and-set: the object is marked if it was a target and not marked, and else nothing happens to it. */
  lemma RememberMarks(s: State, w: Worker, s': State)
    requires Next(s, Remember(w), s')
    ensures w in s.task && s.task[w].Writing? && s.task[w].todo.Some? && s.task[w].todo.value != []
    ensures var t := s.task[w];
            && s'.task == s.task[w := t.(todo := Some(t.todo.value[1..]))] && s'.heap.Keys == s.heap.Keys
            && forall p <- s.heap ::
                 s'.heap[p] == if p == t.todo.value[0] && s.heap[p].color == White
                               then s.heap[p].(color := Marked, link := Pending(w)) else s.heap[p]
    ensures s'.env == s.env && s'.users == s.users && s'.genum == s.genum && s'.scan == s.scan
  {
    hide HasPending;
  }

  // ---------------------------------------------------------------- lists

  /** The objects of one list are on another now, all others are where they were, and nothing else has changed. */
  ghost predicate Moved(h: Heap, from: Link, to: Link, h': Heap) {
    && h'.Keys == h.Keys
    && forall p <- h ::
         && h'[p].link == (if h[p].link == from then to else h[p].link)
         && h'[p].color == h[p].color && h'[p].fields == h[p].fields && h'[p].owner == h[p].owner
         && h'[p].swept == h[p].swept
  }

  lemma TakeMoves(h: Heap, from: Link, to: Link)
    ensures Moved(h, from, to, Take(h, from, to))
  {
  }

  /** The thread tracing for w takes a whole root set or remembered set; a write puts what it has marked on the
      remembered set; and when sweeping, the remembered set is forgotten. */
  lemma ListsMove(s: State, l: Step, s': State)
    requires Next(s, l, s') && (l.TakeList? || l.Push? || l.Forget?)
    ensures s' == s.(heap := s'.heap)
    ensures match l
            case TakeList(w, true) => Moved(s.heap, Remembered(w), Stack(w), s'.heap)
            case TakeList(w, false) => Moved(s.heap, Roots(w), Stack(w), s'.heap)
            case Push(w) => Moved(s.heap, Pending(w), Remembered(w), s'.heap)
            case Forget(w) => Moved(s.heap, Remembered(w), Link.Free, s'.heap)
  {
    hide HasPending, Moved, Take;
    match l
    case TakeList(w, remembered) => TakeMoves(s.heap, if remembered then Remembered(w) else Roots(w), Stack(w));
    case Push(w) => TakeMoves(s.heap, Pending(w), Remembered(w));
    case Forget(w) => TakeMoves(s.heap, Remembered(w), Link.Free);
  }

  // ---------------------------------------------------------------- objects

  /** An object is there from its allocation until it is swept unmarked.  A new one is a target up to SYNC1 of its
      worker and from then on not, and it belongs to the next collection if its worker has swept. */
  lemma ObjectsComeAndGo(s: State, l: Step, s': State, p: Ptr)
    requires Next(s, l, s')
    ensures p !in s.heap && p in s'.heap <==> l.Alloc? && l.p == p
    ensures l.Alloc? && l.p == p ==>
              var t := s.env.stage[l.w];
              && s'.heap[p].fields == l.init && s'.heap[p].link == Link.Free && s'.heap[p].owner == l.w
              && s'.heap[p].color == (if t in {Plain, Early} then White else New)
              && (s'.heap[p].swept <==> t == Plain && s.env.epoch.OnSweep?)
              && s'.users[s.task[l.w].u].roots == s.users[s.task[l.w].u].roots + {p}
    ensures p in s.heap && p !in s'.heap <==>
              p in s.heap && s.heap[p].color == White && (l == SweepObject(s.heap[p].owner, p) || l == SweepPool(p))
  {
    hide EnvEffect, CollectorStep, UserStep, MLStep, WriteStep;
    if l.Shake? {
      ShakeKeepsObjects(s, l.e, s');
    } else if CollectorStep(s, l, s') {
      CollectorFrees(s, l, s', p);
    } else {
      ProgramAllocates(s, l, s', p);
    }
  }

  lemma ShakeKeepsObjects(s: State, e: EnvStep, s': State)
    requires EnvEffect(s, e, s')
    ensures s'.heap.Keys == s.heap.Keys
  {
    hide EnvNext, MayShake;
  }

  lemma TakesKeepObjects(s: State, l: Step, s': State, p: Ptr)
    requires CollectorStep(s, l, s') && (l.TakeList? || l.Forget?)
    ensures s'.heap.Keys == s.heap.Keys
    ensures p in s.heap ==> s'.heap[p].color == s.heap[p].color && s'.heap[p].fields == s.heap[p].fields
  {
  }

  lemma CollectorFrees(s: State, l: Step, s': State, p: Ptr)
    requires CollectorStep(s, l, s')
    ensures !l.Alloc? && (p in s'.heap ==> p in s.heap)
    ensures p in s.heap && p !in s'.heap <==>
              p in s.heap && s.heap[p].color == White && (l == SweepObject(s.heap[p].owner, p) || l == SweepPool(p))
  {
    if l.TakeList? || l.Forget? {
      hide CollectorStep;
      TakesKeepObjects(s, l, s', p);
    } else {
      hide HasRemembered, All, Take;
    }
  }

  lemma ProgramAllocates(s: State, l: Step, s': State, p: Ptr)
    requires UserStep(s, l, s') || MLStep(s, l, s') || WriteStep(s, l, s')
    ensures !l.SweepObject? && !l.SweepPool? && (p in s.heap ==> p in s'.heap)
    ensures p !in s.heap && p in s'.heap <==> l.Alloc? && l.p == p
    ensures l.Alloc? && l.p == p ==>
              && l.w in s.env.stage && l.w in s.task && s.task[l.w].u in s.users && s.task[l.w].u in s'.users
              && var t := s.env.stage[l.w];
              && s'.heap[p].fields == l.init && s'.heap[p].link == Link.Free && s'.heap[p].owner == l.w
              && s'.heap[p].color == (if t in {Plain, Early} then White else New)
              && (s'.heap[p].swept <==> t == Plain && s.env.epoch.OnSweep?)
              && s'.users[s.task[l.w].u].roots == s.users[s.task[l.w].u].roots + {p}
  {
    hide HasPending, ToRemember;
  }

  // ---------------------------------------------------------------- marking

  /** The object whose collect bit a step tests and sets, and the list for it if the bit was clear. */
  datatype Test = Test(p: Ptr, list: Link)

  function Tested(s: State, l: Step): Option<Test> {
    match l
    case ScanField(w, o) =>
      if o in s.heap && s.heap[o].link.Scanning? && s.heap[o].link.k < |s.heap[o].fields|
        then Some(Test(s.heap[o].fields[s.heap[o].link.k], Stack(w)))
      else None
    case WalkRoot(u, p) =>
      if u in s.users && s.users[u].walk.Walk? then Some(Test(p, Roots(s.users[u].walk.who))) else None
    case WalkStatic(w) =>
      if STATIC in s.heap && s.heap[STATIC].link.Static? && s.heap[STATIC].link.k < |s.heap[STATIC].fields|
        then Some(Test(s.heap[STATIC].fields[s.heap[STATIC].link.k], Roots(w)))
      else None
    case Remember(w) =>
      if w in s.task && s.task[w].Writing? && s.task[w].todo.Some? && s.task[w].todo.value != []
        then Some(Test(s.task[w].todo.value[0], Pending(w)))
      else None
    case _ => None
  }

  predicate Sweeps(s: State, l: Step, p: Ptr) {
    (l.SweepPool? || l.SweepObject?) && l.o == p
  }

  /** An object is marked by the first test alone, and put on a list by it; only sweeping takes the mark away, and then
      the object is a target of the next collection. */
  lemma FirstTestMarks(s: State, l: Step, s': State, p: Ptr)
    requires Next(s, l, s') && p in s.heap && p in s'.heap
    ensures var first := s.heap[p].color == White && Tested(s, l).Some? && Tested(s, l).value.p == p;
            && s'.heap[p].color == (if Sweeps(s, l, p) then White else if first then Marked else s.heap[p].color)
            && (first && !(l.ScanField? && l.o == p) && !(l.WalkStatic? && p == STATIC) ==>
                s'.heap[p].link == Tested(s, l).value.list)
    ensures Sweeps(s, l, p) ==> !s.heap[p].swept && s'.heap[p].swept
  {
    hide EnvEffect, CollectorStep, UserStep, MLStep, WriteStep;
    if l.Shake? {
      ShakeKeepsColors(s, l.e, s', p);
    } else if CollectorStep(s, l, s') {
      CollectorMarks(s, l, s', p);
    } else {
      ProgramMarks(s, l, s', p);
    }
  }

  lemma ShakeKeepsColors(s: State, e: EnvStep, s': State, p: Ptr)
    requires EnvEffect(s, e, s') && p in s.heap && p in s'.heap
    ensures s'.heap[p].color == s.heap[p].color
  {
    hide EnvNext, MayShake;
  }

  lemma CollectorMarks(s: State, l: Step, s': State, p: Ptr)
    requires CollectorStep(s, l, s') && p in s.heap && p in s'.heap
    ensures var first := s.heap[p].color == White && Tested(s, l).Some? && Tested(s, l).value.p == p;
            && s'.heap[p].color == (if Sweeps(s, l, p) then White else if first then Marked else s.heap[p].color)
            && (first && !(l.ScanField? && l.o == p) && !(l.WalkStatic? && p == STATIC) ==>
                s'.heap[p].link == Tested(s, l).value.list)
    ensures Sweeps(s, l, p) ==> !s.heap[p].swept && s'.heap[p].swept
  {
    if l.TakeList? || l.Forget? {
      hide CollectorStep;
      TakesKeepObjects(s, l, s', p);
    } else {
      hide HasRemembered, All, Take;
    }
  }

  lemma ProgramMarks(s: State, l: Step, s': State, p: Ptr)
    requires UserStep(s, l, s') || MLStep(s, l, s') || WriteStep(s, l, s')
    requires p in s.heap && p in s'.heap
    ensures !Sweeps(s, l, p)
    ensures var first := s.heap[p].color == White && Tested(s, l).Some? && Tested(s, l).value.p == p;
            && s'.heap[p].color == (if first then Marked else s.heap[p].color)
            && (first ==> s'.heap[p].link == Tested(s, l).value.list)
  {
    hide HasPending, ToRemember;
  }

  // ---------------------------------------------------------------- the end of tracing

  /** What tracing has yet to do for an object: mark it, take it from the list, pop it, scan its slots and leave it. */
  function Weight(o: Object): nat {
    if o.color == White then |o.fields| + 5
    else match o.link
         case Roots(_) => |o.fields| + 4
         case Remembered(_) => |o.fields| + 4
         case Stack(_) => |o.fields| + 3
         case Scanning(_, k) => if k <= |o.fields| then |o.fields| - k + 2 else 0
         case _ => 0
  }

  ghost function Work(h: Heap): set<(Ptr, int)> { set p, i | p in h && 0 <= i < Weight(h[p]) :: (p, i) }

  lemma LessWork(h: Heap, h': Heap, p: Ptr)
    requires h'.Keys == h.Keys && p in h && Weight(h'[p]) < Weight(h[p])
    requires forall q <- h :: Weight(h'[q]) <= Weight(h[q])
    ensures Work(h') < Work(h)
  {
    hide Weight;
    assert (p, Weight(h'[p])) in Work(h) && (p, Weight(h'[p])) !in Work(h');
  }

  /** The steps of the thread that traces for w, on a list that is not empty. */
  ghost predicate Traces(s: State, w: Worker, l: Step) {
    match l
    case TakeList(v, remembered) => v == w && exists o <- s.heap ::
          s.heap[o].link == if remembered then Remembered(w) else Roots(w)
    case Pop(v, _) => v == w
    case ScanField(v, _) => v == w
    case DoneScan(v, _) => v == w
    case _ => false
  }

  /** Each of them leaves less to do. */
  lemma TracingWorks(s: State, w: Worker, l: Step, s': State)
    requires Inv(s) && Next(s, l, s') && Traces(s, w, l)
    ensures s'.heap.Keys == s.heap.Keys && Work(s'.heap) < Work(s.heap)
  {
    hide Work, Inv;
    var p := Worked(s, w, l);
    Linked(s);
    TracingEases(s, w, l, p, s');
    LessWork(s.heap, s'.heap, p);
  }

  /** An object on a list is marked, and is scanned no farther than to its end. */
  lemma Linked(s: State)
    requires Inv(s)
    ensures forall p <- s.heap :: IsList(s.heap[p].link) || s.heap[p].link.Scanning? ==>
              s.heap[p].color == Marked && (s.heap[p].link.Scanning? ==> s.heap[p].link.k <= |s.heap[p].fields|)
  {
    hide FlightOf, AllRootsOk, UsersOk, TasksOk, WritesOk, TearsOk, ScanOk, SlotsVal, SlotsOk, EpochOk;
    forall p <- s.heap ensures ObjOk(s.env, s.genum, p, s.heap[p]) { }
    hide StaticOk;
  }

  /** The object that a step works on. */
  ghost function Worked(s: State, w: Worker, l: Step): (p: Ptr)
    requires Traces(s, w, l)
    ensures l.TakeList? ==> p in s.heap && s.heap[p].link == if l.remembered then Remembered(w) else Roots(w)
    ensures !l.TakeList? ==> p == l.o
  {
    match l
    case TakeList(_, remembered) =>
      var p: Ptr :| p in s.heap && s.heap[p].link == if remembered then Remembered(w) else Roots(w);
      p
    case Pop(_, o) => o
    case ScanField(_, o) => o
    case DoneScan(_, o) => o
  }

  lemma TracingEases(s: State, w: Worker, l: Step, p: Ptr, s': State)
    requires CollectorStep(s, l, s') && Traces(s, w, l) && p == Worked(s, w, l)
    requires forall o <- s.heap :: IsList(s.heap[o].link) || s.heap[o].link.Scanning? ==>
               s.heap[o].color == Marked && (s.heap[o].link.Scanning? ==> s.heap[o].link.k <= |s.heap[o].fields|)
    ensures s'.heap.Keys == s.heap.Keys && p in s.heap && Weight(s'.heap[p]) < Weight(s.heap[p])
    ensures forall q <- s.heap :: Weight(s'.heap[q]) <= Weight(s.heap[q])
  {
    if l.TakeList? {
      var from := if l.remembered then Remembered(w) else Roots(w);
      TakeMoves(s.heap, from, Stack(w));
      hide Take;
    } else {
      hide Take;
    }
  }

  /** As long as the thread has something on a list, it can go on. */
  lemma TracingIsNotStuck(s: State, w: Worker) returns (l: Step, s': State)
    requires Inv(s) && w in s.env.stage && s.env.stage[w] == Tracing && !ActionDone(s, w)
    ensures Traces(s, w, l) && Next(s, l, s') && s'.env == s.env
  {
    Linked(s);
    var o: Ptr := OnSomeList(s, w);
    hide Inv, Visit, Relink, Take, ActionDone, HasRemembered;
    var link := s.heap[o].link;
    if link.Roots? || link.Remembered? {
      l, s' := TakeList(w, link.Remembered?), s.(heap := Take(s.heap, link, Stack(w)));
    } else if link.Stack? {
      l, s' := Pop(w, o), s.(heap := Relink(s.heap, o, Scanning(w, 0)));
    } else if link.k == |s.heap[o].fields| {
      l, s' := DoneScan(w, o), s.(heap := Relink(s.heap, o, Link.Free));
    } else {
      VisitKeepsKeys(s.heap, s.heap[o].fields[link.k], Stack(w));
      l := ScanField(w, o);
      s' := s.(heap := Relink(Visit(s.heap, s.heap[o].fields[link.k], Stack(w)), o, Scanning(w, link.k + 1)));
    }
    assert CollectorStep(s, l, s');
    hide CollectorStep, UserStep, MLStep, WriteStep;
  }

  lemma OnSomeList(s: State, w: Worker) returns (o: Ptr)
    requires w in s.env.stage && s.env.stage[w] == Tracing && !ActionDone(s, w)
    ensures o in s.heap
    ensures s.heap[o].link in {Roots(w), Remembered(w), Stack(w)}
            || (s.heap[o].link.Scanning? && s.heap[o].link.w == w)
  {
    o :| o in s.heap && (s.heap[o].link == Roots(w) || s.heap[o].link == Remembered(w) || s.heap[o].link == Stack(w)
                         || (s.heap[o].link.Scanning? && s.heap[o].link.w == w));
  }

  lemma TracingBreaksNothing(s: State, w: Worker, l: Step)
    requires Traces(s, w, l)
    ensures !Breaks(s, l)
  {
  }

  lemma VisitKeepsKeys(h: Heap, p: Ptr, link: Link)
    ensures Visit(h, p, link).Keys == h.Keys
  {
  }

  /** Left alone, the thread empties the lists of w, and it cannot take more steps than there was work to do. */
  lemma {:induction false} TracingEnds(s: State, w: Worker) returns (ss: seq<State>, ls: seq<Step>)
    requires Inv(s) && w in s.env.stage && s.env.stage[w] == Tracing
    ensures |ss| == |ls| + 1 <= |Work(s.heap)| + 1 && ss[0] == s
    ensures forall i :: 0 <= i < |ls| ==> Traces(ss[i], w, ls[i]) && Next(ss[i], ls[i], ss[i + 1])
    ensures w in ss[|ls|].env.stage && ActionDone(ss[|ls|], w)
    decreases Work(s.heap)
  {
    hide Inv, Next, Traces, ActionDone, Breaks, Work;
    if ActionDone(s, w) {
      return [s], [];
    }
    var l, s' := TracingIsNotStuck(s, w);
    TracingWorks(s, w, l, s');
    TracingBreaksNothing(s, w, l);
    InvKeptUnlessBroken(s, l, s');
    Fewer(Work(s'.heap), Work(s.heap));
    var ss', ls' := TracingEnds(s', w);
    ss, ls := [s] + ss', [l] + ls';
    assert forall i :: 0 < i < |ls| ==> ss[i] == ss'[i - 1] && ls[i] == ls'[i - 1] && ss[i + 1] == ss'[i];
  }

  lemma Fewer<T>(a: set<T>, b: set<T>)
    requires a < b
    ensures |a| < |b|
  {
    assert b == a + (b - a) && b - a != {};
  }

  // ---------------------------------------------------------------- users

  /** The stack of a user grows by loads and allocations of the thread that runs it, shrinks when that thread drops
      pointers, and is left alone by everybody else; the user belongs to whoever moves it. */
  lemma UserChanges(s: State, l: Step, s': State, u: Uid)
    requires Next(s, l, s') && u in s.users && u in s'.users
    ensures s'.users[u].roots == match l
                                 case Load(w, o, k) =>
                                   s.users[u].roots + if w in s.task && s.task[w].u == u && o in s.heap
                                                         && k < |s.heap[o].fields| then {s.heap[o].fields[k]} else {}
                                 case Alloc(w, p, _) =>
                                   s.users[u].roots + if w in s.task && s.task[w].u == u then {p} else {}
                                 case DropRoots(w, keep) =>
                                   if w in s.task && s.task[w].u == u then s.users[u].roots * keep
                                   else s.users[u].roots
                                 case _ => s.users[u].roots
    ensures s'.users[u].home == if (l.Move? || l.Publish?) && l.w in s.task && s.task[l.w].u == u then l.w
                                else s.users[u].home
  {
    hide EnvEffect, CollectorStep, UserStep, MLStep, WriteStep;
    if l.Shake? {
      ShakeKeepsUsers(s, l.e, s', u);
    } else if CollectorStep(s, l, s') {
      CollectorKeepsUsers(s, l, s', u);
    } else if WriteStep(s, l, s') {
      WriteKeepsUsers(s, l, s');
    } else {
      ProgramChangesUser(s, l, s', u);
    }
  }

  lemma ShakeKeepsUsers(s: State, e: EnvStep, s': State, u: Uid)
    requires EnvEffect(s, e, s') && u in s.users && u in s'.users
    ensures s'.users[u].roots == s.users[u].roots && s'.users[u].home == s.users[u].home
  {
    hide EnvNext, MayShake;
  }

  lemma CollectorKeepsUsers(s: State, l: Step, s': State, u: Uid)
    requires CollectorStep(s, l, s') && u in s.users && u in s'.users
    ensures s'.users[u].roots == s.users[u].roots && s'.users[u].home == s.users[u].home
    ensures !l.Load? && !l.Alloc? && !l.DropRoots? && !l.Move? && !l.Publish?
  {
    hide HasRemembered, All, Visit, Take, Relink;
  }

  lemma WriteKeepsUsers(s: State, l: Step, s': State)
    requires WriteStep(s, l, s')
    ensures s'.users == s.users && !l.Load? && !l.Alloc? && !l.DropRoots? && !l.Move? && !l.Publish?
  {
  }

  lemma ProgramChangesUser(s: State, l: Step, s': State, u: Uid)
    requires (UserStep(s, l, s') || MLStep(s, l, s')) && u in s.users && u in s'.users
    ensures s'.users[u].roots == match l
                                 case Load(w, o, k) =>
                                   s.users[u].roots + if w in s.task && s.task[w].u == u && o in s.heap
                                                         && k < |s.heap[o].fields| then {s.heap[o].fields[k]} else {}
                                 case Alloc(w, p, _) =>
                                   s.users[u].roots + if w in s.task && s.task[w].u == u then {p} else {}
                                 case DropRoots(w, keep) =>
                                   if w in s.task && s.task[w].u == u then s.users[u].roots * keep
                                   else s.users[u].roots
                                 case _ => s.users[u].roots
    ensures s'.users[u].home == if (l.Move? || l.Publish?) && l.w in s.task && s.task[l.w].u == u then l.w
                                else s.users[u].home
  {
  }

  /** sml_enter on another worker: the thread remembers what it saw of its own phase, and that a first attempt at the
      lock of the user has failed, for whatever reason; with the lock it enumerates the stack if it saw SYNC2 and got
      the lock at once; then the user belongs to its worker, and counts as enumerated if it saw SYNC2. */
  lemma EnterSteps(s: State, l: Step, s': State)
    requires Next(s, l, s')
    ensures l.Arrive? ==>
              l.w in s.env.stage
              && var g := s.env.stage[l.w];
                 var when := if g == Early then Before else if g == Rooting || g == Rooted then After else Outside;
                 s' == s.(task := s.task[l.w := Entering(l.u, when, false)])
    ensures l.SeeBusy? || l.Spurious? || l.LockUser? || l.Move? || l.Publish? ==>
              l.w in s.task && s.task[l.w].Entering? && s.task[l.w].u in s.users
    ensures l.SeeBusy? || l.Spurious? ==>
              s' == s.(task := s.task[l.w := Entering(s.task[l.w].u, s.task[l.w].when, true)])
    ensures l.LockUser? ==>
              var t := s.task[l.w];
              var x := s.users[t.u];
              var walk := if t.when.After? && !t.waited then Walk(l.w, x.roots) else Held(l.w);
              s' == s.(users := s.users[t.u := User(x.home, x.roots, x.settled, walk)])
    ensures l.Move? || l.Publish? ==>
              var t := s.task[l.w];
              var x := s.users[t.u];
              && s'.task == s.task[l.w := Running(t.u)] && s'.heap == s.heap && s'.env == s.env
              && s'.users == s.users[t.u := User(l.w, x.roots, if l.Move? then x.settled else t.when.After?,
                                                 if l.Move? then x.walk else NoWalk)]
  {
    hide CollectorStep, MLStep, WriteStep, EnvEffect;
    if UserStep(s, l, s') {
      hide Away;
    } else {
      NotEntering(s, l, s');
    }
  }

  lemma NotEntering(s: State, l: Step, s': State)
    requires l.Shake? || CollectorStep(s, l, s') || MLStep(s, l, s') || WriteStep(s, l, s')
    ensures !l.Arrive? && !l.SeeBusy? && !l.Spurious? && !l.LockUser? && !l.Move? && !l.Publish?
  {
  }

  // ---------------------------------------------------------------- the end of an enumeration

  /** The steps of the action of SYNC2 on the stack of u. */
  ghost predicate Walks(s: State, u: Uid, l: Step) {
    match l
    case WalkLock(w, v) => v == u && u in s.users && w == s.users[u].home
    case WalkRoot(v, _) => v == u
    case WalkDone(v) => v == u
    case _ => false
  }

  /** Each pointer of the stack once, in any order. */
  predicate Enumerates(order: seq<Ptr>, roots: set<Ptr>) {
    if order == [] then roots == {}
    else order[0] in roots && Enumerates(order[1..], roots - {order[0]})
  }

  /** Left alone, a worker in the action of SYNC2 enumerates the stack of a user of its own that nobody has locked, in
      any order: one step takes the lock, one each visits a pointer, and one gives the lock up again. */
  lemma StackWalkEnds(s: State, u: Uid, order: seq<Ptr>) returns (ss: seq<State>, ls: seq<Step>)
    requires Inv(s) && u in s.users && s.env.stage[s.users[u].home] == Rooting && s.users[u].walk.NoWalk?
    requires !s.users[u].settled && Enumerates(order, s.users[u].roots)
    ensures |ss| == |ls| + 1 && |ls| == |order| + 2 && ss[0] == s
    ensures forall i :: 0 <= i < |ls| ==> Walks(ss[i], u, ls[i]) && Next(ss[i], ls[i], ss[i + 1])
    ensures u in ss[|ls|].users && ss[|ls|].users[u] == s.users[u].(settled := true)
    ensures forall p <- s.users[u].roots :: !IsWhite(ss[|ls|].heap, p)
  {
    var x := s.users[u];
    var s1 := SetUser(s, u, x.(walk := Walk(x.home, x.roots)));
    assert UserOk(s.env, s.task, u, x);
    hide Inv, Visit;
    var l1 := WalkLock(x.home, u);
    assert CollectorStep(s, l1, s1) && Walks(s, u, l1);
    var ss', ls' := WalkOn(s1, u, order);
    forall p <- x.roots ensures p in order { Listed(order, x.roots, p); }
    ss, ls := [s] + ss', [l1] + ls';
    hide Next, Walks, CollectorStep, IsWhite;
    assert forall i :: 0 < i < |ls| ==> ss[i] == ss'[i - 1] && ls[i] == ls'[i - 1] && ss[i + 1] == ss'[i];
  }

  lemma {:induction false} WalkOn(s: State, u: Uid, order: seq<Ptr>) returns (ss: seq<State>, ls: seq<Step>)
    requires u in s.users && s.users[u].walk.Walk? && s.users[u].walk.who == s.users[u].home
             && Enumerates(order, s.users[u].walk.todo)
    ensures |ss| == |ls| + 1 && |ls| == |order| + 1 && ss[0] == s
    ensures forall i :: 0 <= i < |ls| ==> Walks(ss[i], u, ls[i]) && Next(ss[i], ls[i], ss[i + 1])
    ensures u in ss[|ls|].users && ss[|ls|].users[u] == s.users[u].(settled := true, walk := NoWalk)
    ensures forall p :: (p in order || !IsWhite(s.heap, p)) ==> !IsWhite(ss[|ls|].heap, p)
    decreases |order|
  {
    var x := s.users[u];
    if order == [] {
      ss, ls := [s, SetUser(s, u, x.(walk := NoWalk, settled := true))], [WalkDone(u)];
      assert CollectorStep(s, WalkDone(u), ss[1]) && Walks(s, u, WalkDone(u));
      return;
    }
    var p := order[0];
    var s' := VisitNext(s, u, p);
    var ss', ls' := WalkOn(s', u, order[1..]);
    ss, ls := [s] + ss', [WalkRoot(u, p)] + ls';
    hide Next, Walks, IsWhite, Enumerates;
    assert forall i :: 0 < i < |ls| ==> ss[i] == ss'[i - 1] && ls[i] == ls'[i - 1] && ss[i + 1] == ss'[i];
    assert order == [p] + order[1..];
  }

  lemma {:induction false} Listed(order: seq<Ptr>, roots: set<Ptr>, p: Ptr)
    requires Enumerates(order, roots) && p in roots
    ensures p in order
  {
    if p != order[0] { Listed(order[1..], roots - {order[0]}, p); }
  }

  lemma VisitNext(s: State, u: Uid, p: Ptr) returns (s': State)
    requires u in s.users && s.users[u].walk.Walk? && s.users[u].walk.who == s.users[u].home
             && p in s.users[u].walk.todo
    ensures Walks(s, u, WalkRoot(u, p)) && Next(s, WalkRoot(u, p), s') && u in s'.users
    ensures s'.users[u] == s.users[u].(walk := Walk(s.users[u].home, s.users[u].walk.todo - {p}))
    ensures forall q :: q == p || !IsWhite(s.heap, q) ==> !IsWhite(s'.heap, q)
  {
    var x := s.users[u];
    s' := SetUser(s, u, x.(walk := Walk(x.home, x.walk.todo - {p}))).(heap := Visit(s.heap, p, Roots(x.home)));
    assert CollectorStep(s, WalkRoot(u, p), s');
  }
}
