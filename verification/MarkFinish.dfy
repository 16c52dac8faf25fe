/**
 Why sml_heap_mark_finish reads every remembered set twice, and what its answer is worth: it is right as long as it
 reads no set while the owner is in the middle of remembering an object.
 */
module MarkFinish {
  import opened Phases
  import opened Marking
  import opened Collector
  import opened Invariant
  import opened Barrier
  import opened Safety

  ghost predicate HasWhiteOwing(s: State, w: Worker) {
    w in s.task && exists p :: p in Owing(s.env, w, s.task[w]) && IsWhite(s.heap, p)
  }

  /** The thread of w has marked an object and has yet to push it, or it has exchanged a white value for another and has
      yet to mark it. */
  ghost predicate Unfinished(s: State, w: Worker) { HasPending(s.heap, w) || HasWhiteOwing(s, w) }

  /** mark_finish reads the remembered set of such a worker. */
  ghost predicate Overlooks(s: State, l: Step) { l.ScanOne? && Unfinished(s, l.w) }

  ghost predicate OnList(h: Heap, w: Worker) { HasRemembered(h, w) || HasPending(h, w) }

  /** In the first reading, what is not done shows on some list or in a worker still to be read; in the second it is on
      the list of a worker still to be read. */
  ghost predicate Shows(s: State, n: nat, todo: set<Worker>) {
    Clean(s.heap, Flying(s))
    || if n == 1 then (exists w <- s.env.stage :: OnList(s.heap, w)) || (exists w <- todo :: Unfinished(s, w))
       else exists w <- todo :: OnList(s.heap, w)
  }

  /** Nothing has been overlooked so far, or a worker has joined and the answer will be no. */
  ghost predicate PassOk(s: State) {
    s.scan.Pass? && s.scan.known == s.env.stage.Keys ==> Shows(s, s.scan.n, s.scan.todo)
  }

  // ---------------------------------------------------------------- what happens during a reading

  lemma Reading(s: State)
    requires Inv(s) && s.scan.Pass?
    ensures s.env.epoch.OnMark? && All(s.env, Traced)
  {
    hide FlightOf, HeapOk, AllRootsOk, UsersOk, TasksOk, WritesOk, TearsOk;
  }

  /** Nobody traces or enumerates. */
  lemma NobodyTraces(s: State)
    requires Inv(s) && s.scan.Pass?
    ensures forall o <- s.heap :: !s.heap[o].link.Stack? && !s.heap[o].link.Scanning? && !s.heap[o].link.Roots?
    ensures forall u <- s.users :: !s.users[u].walk.Walk?
  {
    Reading(s);
    forall o <- s.heap ensures !s.heap[o].link.Stack? && !s.heap[o].link.Scanning? && !s.heap[o].link.Roots? {
      assert ObjOk(s.env, s.genum, o, s.heap[o]);
    }
    assert forall w <- s.task :: TaskOk(s.env, s.users, w, s.task[w]);
    forall u <- s.users ensures !s.users[u].walk.Walk? { assert UserOk(s.env, s.task, u, s.users[u]); }
  }

  /** The collector itself only reads. */
  lemma OnlyReads(s: State, l: Step, s': State)
    requires Inv(s) && s.scan.Pass? && CollectorStep(s, l, s')
    ensures (l.ScanOne? || l.ScanPass? || l.ScanEnd?) && s'.heap == s.heap && s'.task == s.task && s'.env == s.env
  {
    Reading(s);
    NobodyTraces(s);
    hide Inv;
    OnlyScans(s, l, s');
    hide All;
    ScanSteps(s, l, s');
  }

  lemma OnlyScans(s: State, l: Step, s': State)
    requires s.env.epoch.OnMark? && All(s.env, Traced) && s.scan.Pass? && CollectorStep(s, l, s')
    requires forall o <- s.heap :: !s.heap[o].link.Stack? && !s.heap[o].link.Scanning? && !s.heap[o].link.Roots?
    requires forall u <- s.users :: !s.users[u].walk.Walk?
    ensures l.ScanOne? || l.ScanPass? || l.ScanEnd?
  {
    CollectorStepKinds(s, l, s');
    hide HasRemembered, Visit, Relink, Take, Sweep;
  }

  lemma ScanSteps(s: State, l: Step, s': State)
    requires CollectorStep(s, l, s') && (l.ScanOne? || l.ScanPass? || l.ScanEnd?) && s.scan.Pass?
    ensures s'.heap == s.heap && s'.task == s.task && s'.env == s.env
    ensures l.ScanOne? ==> !HasRemembered(s.heap, l.w) && s'.scan == s.scan.(todo := s.scan.todo - {l.w})
    ensures l.ScanPass? ==> s.scan.n == 1 && s.scan.todo == {} && s'.scan == Pass(2, s.scan.known, s.scan.known)
    ensures l.ScanEnd? ==> !s'.scan.Pass?
  {
    hide HasRemembered;
  }

  /** Nothing but a worker joining. */
  lemma OnlyJoins(s: State, e: EnvStep, s': State)
    requires Inv(s) && s.scan.Pass? && EnvEffect(s, e, s')
    ensures (e.Join? || e.Stutter?) && s'.heap == s.heap && s'.task == s.task && s'.scan == s.scan
    ensures s.env.stage.Keys <= s'.env.stage.Keys && All(s'.env, Traced)
    ensures e.Stutter? ==> s'.env == s.env
  {
    Reading(s);
    hide Inv, ActionDone;
  }

  /** Once all is done it stays so: the invariant says so of the state after the reading, and the threads do not know
      that it is still going on. */
  lemma DoneStays(s: State, l: Step, s': State)
    requires Inv(s) && s.scan.Pass? && Clean(s.heap, Flying(s)) && Next(s, l, s') && !Breaks(s, l)
    ensures Clean(s'.heap, Flying(s'))
  {
    hide Clean, FlightOf, UserStep, MLStep, WriteStep, CollectorStep, EnvEffect, Breaks;
    if l.Shake? {
      OnlyJoins(s, l.e, s');
      JoinIsQuiet(s, l.e, s');
    } else if CollectorStep(s, l, s') {
      OnlyReads(s, l, s');
    } else {
      ThreadKeepsDone(s, l, s');
    }
  }

  lemma JoinIsQuiet(s: State, e: EnvStep, s': State)
    requires Inv(s) && s.scan.Pass? && EnvEffect(s, e, s')
    ensures Flying(s') == Flying(s) && forall w <- s.task :: Owing(s'.env, w, s.task[w]) == Owing(s.env, w, s.task[w])
  {
    OnlyJoins(s, e, s');
    Reading(s);
    assert TasksOk(s.env, s.users, s.task);
    if e.Join? { WritersKeepCalm(s, e, s'); } else { assert s'.env == s.env; }
    hide Inv, EnvEffect, TasksOk;
    FlightOfEnv(s.env, s'.env, s.heap, s.task);
  }

  lemma ThreadKeepsDone(s: State, l: Step, s': State)
    requires Inv(s) && s.scan.Pass? && Clean(s.heap, Flying(s)) && !Breaks(s, l)
    requires UserStep(s, l, s') || MLStep(s, l, s') || WriteStep(s, l, s')
    ensures Clean(s'.heap, Flying(s'))
  {
    var p, p' := s.(scan := Passed), s'.(scan := Passed);
    Reading(s);
    SameButScan(s, l, s');
    hide FlightOf, Clean, UserStep, MLStep, WriteStep, HeapOk, AllRootsOk, UsersOk, TasksOk, WritesOk, TearsOk;
    assert Inv(p);
    if UserStep(p, l, p') { UserStepKeepsInv(p, l, p'); }
    else if MLStep(p, l, p') { MLStepKeepsInv(p, l, p'); }
    else { WriteStepKeepsInv(p, l, p'); }
  }

  lemma SameButScan(s: State, l: Step, s': State)
    requires UserStep(s, l, s') || MLStep(s, l, s') || WriteStep(s, l, s')
    ensures var p, p' := s.(scan := Passed), s'.(scan := Passed);
            UserStep(p, l, p') || MLStep(p, l, p') || WriteStep(p, l, p')
    ensures Skips(s.(scan := Passed), l) == Skips(s, l) && Stale(s.(scan := Passed), l) == Stale(s, l)
  {
    if UserStep(s, l, s') { UserButScan(s, l, s'); }
    else if MLStep(s, l, s') { MLButScan(s, l, s'); }
    else { WriteButScan(s, l, s'); }
    hide UserStep, MLStep, WriteStep;
  }

  lemma UserButScan(s: State, l: Step, s': State)
    requires UserStep(s, l, s')
    ensures UserStep(s.(scan := Passed), l, s'.(scan := Passed))
  {
  }

  lemma MLButScan(s: State, l: Step, s': State)
    requires MLStep(s, l, s')
    ensures MLStep(s.(scan := Passed), l, s'.(scan := Passed))
  {
  }

  lemma WriteButScan(s: State, l: Step, s': State)
    requires WriteStep(s, l, s')
    ensures WriteStep(s.(scan := Passed), l, s'.(scan := Passed))
  {
    hide Visit, Take, SetField, HasPending;
  }

  /** What is on a list or on its way there stays so. */
  lemma ListsStay(s: State, l: Step, s': State)
    requires Inv(s) && s.scan.Pass? && Next(s, l, s')
    ensures forall w :: OnList(s.heap, w) ==> OnList(s'.heap, w)
    ensures s.env.stage.Keys <= s'.env.stage.Keys
  {
    WhitesAreFree(s);
    hide Inv, UserStep, MLStep, WriteStep, CollectorStep, EnvEffect;
    if l.Shake? {
      OnlyJoins(s, l.e, s');
    } else if CollectorStep(s, l, s') {
      OnlyReads(s, l, s');
    } else {
      ThreadsKeepLists(s, l, s');
    }
  }

  lemma WhitesAreFree(s: State)
    requires Inv(s)
    ensures forall o, w :: o in s.heap && (s.heap[o].link == Remembered(w) || s.heap[o].link == Pending(w)) ==>
              s.heap[o].color == Marked && w in s.env.stage
  {
    hide FlightOf, AllRootsOk, UsersOk, TasksOk, WritesOk, TearsOk, ScanOk;
    forall o <- s.heap ensures s.heap[o].color == White ==> !s.heap[o].link.Remembered? && !s.heap[o].link.Pending? {
      assert ObjOk(s.env, s.genum, o, s.heap[o]);
    }
    forall o, w | o in s.heap && (s.heap[o].link == Remembered(w) || s.heap[o].link == Pending(w))
      ensures w in s.env.stage && s.heap[o].color == Marked
    {
      assert ObjOk(s.env, s.genum, o, s.heap[o]);
    }
  }

  lemma ThreadsKeepLists(s: State, l: Step, s': State)
    requires UserStep(s, l, s') || MLStep(s, l, s') || WriteStep(s, l, s')
    requires forall o <- s.heap :: s.heap[o].color == White ==> !s.heap[o].link.Remembered? && !s.heap[o].link.Pending?
    ensures forall w :: OnList(s.heap, w) ==> OnList(s'.heap, w)
    ensures s'.env == s.env
  {
    forall o, w | o in s.heap && (s.heap[o].link == Remembered(w) || s.heap[o].link == Pending(w))
      ensures o in s'.heap && (s'.heap[o].link == Remembered(w) || s'.heap[o].link == Pending(w))
    {
    }
    hide UserStep, MLStep, WriteStep;
  }

  /** What is unfinished stays so until it shows on a list. */
  lemma UnfinishedStays(s: State, l: Step, s': State, w: Worker)
    requires Inv(s) && s.scan.Pass? && Next(s, l, s') && Unfinished(s, w)
    ensures Unfinished(s', w) || exists v <- s'.env.stage :: OnList(s'.heap, v)
  {
    ListsStay(s, l, s');
    WhitesAreFree(s);
    if HasPending(s.heap, w) {
      assert OnList(s.heap, w) && w in s.env.stage;
      assert OnList(s'.heap, w) && w in s'.env.stage;
    } else {
      Reading(s);
      hide Inv, UserStep, MLStep, WriteStep, CollectorStep, EnvEffect, Owing;
      if l.Shake? {
        OnlyJoins(s, l.e, s');
        JoinIsQuiet(s, l.e, s');
      } else if CollectorStep(s, l, s') {
        OnlyReads(s, l, s');
      } else if WriteStep(s, l, s') {
        WriteKeepsUnfinished(s, l, s', w);
      } else {
        ThreadKeepsUnfinished(s, l, s', w);
      }
    }
  }

  lemma ThreadKeepsUnfinished(s: State, l: Step, s': State, w: Worker)
    requires UserStep(s, l, s') || MLStep(s, l, s')
    requires HasWhiteOwing(s, w)
    ensures HasWhiteOwing(s', w)
  {
    var p :| p in Owing(s.env, w, s.task[w]) && IsWhite(s.heap, p);
    assert s.task[w].Writing?;
    OthersGoOn(s, l, s', w);
    assert p in Owing(s'.env, w, s'.task[w]) && IsWhite(s'.heap, p);
  }

  lemma OthersGoOn(s: State, l: Step, s': State, w: Worker)
    requires (UserStep(s, l, s') || MLStep(s, l, s')) && w in s.task && s.task[w].Writing?
    ensures w in s'.task && s'.task[w] == s.task[w] && s'.env == s.env
    ensures forall p :: IsWhite(s.heap, p) ==> IsWhite(s'.heap, p)
  {
  }

  lemma WriteKeepsUnfinished(s: State, l: Step, s': State, w: Worker)
    requires WriteStep(s, l, s') && HasWhiteOwing(s, w) && All(s.env, Traced)
    ensures HasWhiteOwing(s', w) || exists v <- s'.env.stage :: OnList(s'.heap, v)
  {
    var p :| p in Owing(s.env, w, s.task[w]) && IsWhite(s.heap, p);
    if IsWhite(s'.heap, p) {
      WriteKeepsOwing(s, l, s', w, p);
    } else {
      MarksOnlyPending(s, l, s', p);
    }
  }

  lemma MarksOnlyPending(s: State, l: Step, s': State, p: Ptr)
    requires WriteStep(s, l, s') && IsWhite(s.heap, p) && !IsWhite(s'.heap, p)
    ensures l.w in s'.env.stage && OnList(s'.heap, l.w)
  {
    assert p in s'.heap && s'.heap[p].link == Pending(l.w);
  }

  lemma WriteKeepsOwing(s: State, l: Step, s': State, w: Worker, p: Ptr)
    requires WriteStep(s, l, s') && w in s.task && All(s.env, Traced)
    requires p in Owing(s.env, w, s.task[w]) && IsWhite(s.heap, p) && IsWhite(s'.heap, p)
    ensures w in s'.task && p in Owing(s'.env, w, s'.task[w])
  {
    if l.w == w && l.Remember? {
      var r := s.task[w].todo.value;
      assert r == [r[0]] + r[1..] && p in r && p != r[0];
    }
    if l.w == w && l.Look? { assert s'.task[w].todo.value[0] == s.task[w].was; }
  }

  // ---------------------------------------------------------------- every step

  lemma StartShows(s: State, s': State)
    requires Inv(s) && CollectorStep(s, ScanStart, s')
    ensures Shows(s', 1, s'.env.stage.Keys)
  {
    var q := Flying(s);
    if !Clean(s.heap, q) {
      if NothingHeld(s.heap, q) {
        var o :| o in s.heap && o != STATIC && s.heap[o].link != Link.Free;
        assert ObjOk(s.env, s.genum, o, s.heap[o]);
        assert OnList(s.heap, s.heap[o].link.w);
      } else {
        var p :| p in q.held && IsWhite(s.heap, p);
        var w :| w in s.task && p in Owing(s.env, w, s.task[w]);
        assert TaskOk(s.env, s.users, w, s.task[w]) && Unfinished(s', w);
      }
    }
  }

  /** The second reading begins: what is left shows on a list. */
  lemma AgainShows(s: State, s': State)
    requires s'.heap == s.heap && s'.task == s.task && s'.env == s.env && Shows(s, 1, {})
    ensures Shows(s', 2, s.env.stage.Keys)
  {
    hide Clean, FlightOf, OnList, Unfinished;
  }

  /** A set is read that is empty, by a worker that is not in the middle of anything. */
  lemma ReadShows(s: State, n: nat, todo: set<Worker>, w: Worker, s': State)
    requires s'.heap == s.heap && s'.task == s.task && s'.env == s.env && Shows(s, n, todo)
    requires !HasRemembered(s.heap, w) && !Unfinished(s, w)
    ensures Shows(s', n, todo - {w})
  {
    hide Clean, FlightOf;
    if !Clean(s.heap, Flying(s)) && n == 1 && !(exists v <- s.env.stage :: OnList(s.heap, v)) {
      var v :| v in todo && Unfinished(s, v);
      assert v in todo - {w} && Unfinished(s', v);
    }
  }

  lemma OtherShows(s: State, l: Step, s': State, n: nat, todo: set<Worker>)
    requires Inv(s) && s.scan.Pass? && Next(s, l, s') && !Breaks(s, l) && Shows(s, n, todo)
    ensures Shows(s', n, todo)
  {
    ListsStay(s, l, s');
    if Clean(s.heap, Flying(s)) {
      DoneStays(s, l, s');
    } else if n == 1 && !(exists v <- s.env.stage :: OnList(s.heap, v)) {
      var w :| w in todo && Unfinished(s, w);
      UnfinishedStays(s, l, s', w);
    }
  }

  lemma ScanChanges(s: State, l: Step, s': State)
    requires Next(s, l, s')
    ensures s'.scan == s.scan || CollectorStep(s, l, s') || !s'.scan.Pass?
    ensures !s.scan.Pass? && s'.scan.Pass? ==> l.ScanStart? && CollectorStep(s, l, s')
  {
    hide CollectorStep, UserStep, MLStep, WriteStep, EnvEffect;
    if l.Shake? { ShakesScan(s, l.e, s'); }
    else if CollectorStep(s, l, s') { CollectorScans(s, l, s'); }
    else { ThreadsDoNotScan(s, l, s'); }
  }

  lemma ShakesScan(s: State, e: EnvStep, s': State)
    requires EnvEffect(s, e, s')
    ensures s'.scan == s.scan || !s'.scan.Pass?
  {
    hide EnvNext, MayShake;
  }

  lemma CollectorScans(s: State, l: Step, s': State)
    requires CollectorStep(s, l, s')
    ensures !s.scan.Pass? && s'.scan.Pass? ==> l.ScanStart?
  {
    hide Visit, Relink, Take, Sweep, HasRemembered;
  }

  lemma ThreadsDoNotScan(s: State, l: Step, s': State)
    requires UserStep(s, l, s') || MLStep(s, l, s') || WriteStep(s, l, s')
    ensures s'.scan == s.scan
  {
    hide Visit, Take, SetField, HasPending;
  }

  lemma KnownAreThere(s: State)
    requires Inv(s) && s.scan.Pass?
    ensures s.scan.known <= s.env.stage.Keys
  {
    hide FlightOf, HeapOk, AllRootsOk, UsersOk, TasksOk, WritesOk, TearsOk;
  }

  /** Every step that overlooks nothing. */
  lemma StepShows(s: State, l: Step, s': State)
    requires Inv(s) && Next(s, l, s') && !Breaks(s, l) && !Overlooks(s, l) && PassOk(s)
    ensures PassOk(s')
  {
    ScanChanges(s, l, s');
    hide Inv, Breaks, Shows, CollectorStep;
    if s'.scan.Pass? && s'.scan.known == s'.env.stage.Keys {
      if !s.scan.Pass? {
        Starts(s, s');
      } else {
        ReadingShows(s, l, s');
      }
    }
  }

  lemma Starts(s: State, s': State)
    requires Inv(s) && CollectorStep(s, ScanStart, s')
    ensures s'.scan.Pass? && Shows(s', s'.scan.n, s'.scan.todo)
  {
    StartShows(s, s');
    hide Inv, Shows;
  }

  lemma ReadingShows(s: State, l: Step, s': State)
    requires Inv(s) && Next(s, l, s') && !Breaks(s, l) && !Overlooks(s, l) && PassOk(s)
    requires s.scan.Pass? && s'.scan.Pass? && s'.scan.known == s'.env.stage.Keys
    requires s'.scan == s.scan || CollectorStep(s, l, s')
    ensures Shows(s', s'.scan.n, s'.scan.todo)
  {
    KnownAreThere(s);
    ListsStay(s, l, s');
    hide Inv, Breaks, Shows, Next;
    if CollectorStep(s, l, s') {
      OnlyReads(s, l, s');
      ScanSteps(s, l, s');
      hide CollectorStep;
      if l.ScanOne? { ReadShows(s, s.scan.n, s.scan.todo, l.w, s'); } else { AgainShows(s, s'); }
    } else {
      OtherShows(s, l, s', s.scan.n, s.scan.todo);
    }
  }

  // ---------------------------------------------------------------- main result

  /** No set is read in the first n steps while its owner is in the middle of remembering something. */
  ghost predicate NoneOverlooks(ss: seq<State>, ls: seq<Step>, n: nat)
    requires |ss| > |ls| >= n
  {
    forall i :: 0 <= i < n ==> !Overlooks(ss[i], ls[i])
  }

  lemma {:induction false} RunShows(ss: seq<State>, ls: seq<Step>, i: nat)
    requires IsRun(ss, ls) && i < |ss| && NoneBreaks(ss, ls, i) && NoneOverlooks(ss, ls, i)
    ensures PassOk(ss[i])
  {
    if i == 0 {
      assert ss[0].scan == Off;
    } else {
      hide Next, Breaks, Overlooks, PassOk;
      RunShows(ss, ls, i - 1);
      RunKeepsInv(ss, ls, i - 1);
      hide Init;
      StepShows(ss[i - 1], ls[i - 1], ss[i]);
    }
  }

  /** The answer of mark_finish is never hasty in a run in which no set is read while its owner is in the middle of
      remembering something. */
  lemma NoOversightNoHaste(ss: seq<State>, ls: seq<Step>, i: nat)
    requires IsRun(ss, ls) && i < |ls| && NoneBreaks(ss, ls, i) && NoneOverlooks(ss, ls, i)
    ensures !Hasty(ss[i], ls[i])
  {
    RunShows(ss, ls, i);
    assert Next(ss[i], ls[i], ss[i + 1]);
    if ls[i] == ScanEnd(true) { EndShows(ss[i], ss[i + 1]); }
  }

  lemma EndShows(s: State, s': State)
    requires Next(s, ScanEnd(true), s') && PassOk(s)
    ensures Clean(s.heap, Flying(s))
  {
    OnlyCollector(s, ScanEnd(true), s');
    hide Clean, FlightOf, OnList;
  }
}
