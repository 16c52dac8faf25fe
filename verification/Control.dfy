/**
 The handshakes of control.c as a transition system.  One step is one atomic operation on `state`,
 `workers_available`, `sml_check_flag` or `gc_count`; every interleaving of the steps is a run.

 A collection is a sequence of rounds, one per signal.  The thread that takes the counter from 1 to 0 leads
 the next round: it publishes the signal for newcomers, sends it to every registered worker one by one, and
 only then adds the number of signals sent to the counter, which may have become negative meanwhile.
 */
module Control {
  import opened Phases
  import opened Wrappers

  /** How a thread came to act for a worker; it decides what the thread does after its answer.
      Lazy is sml_gc(0), which starts a collection without acting for itself. */
  datatype Mode = Greedy | Leaving | Helping | Lazy

  /** What a worker thread is about to do inside the protocol. */
  datatype Pc =
    | Idle
    | Act(w: Worker, mode: Mode)                 // has accepted w's signal, action not yet answered
    | Finish(w: Worker, mode: Mode)              // answered MARK last: sml_heap_mark_finish
    | Closing(w: Worker, mode: Mode)             // answered ASYNC last: sml_heap_global_async, then gc_count + 1
    | Begin(next: Signal, w: Worker, mode: Mode) // about to call global_phase
    | Switching(was: Signal, todo: set<Worker>, n: nat, w: Worker, mode: Mode)  // in change_phase
    | Rejoin                                     // greedy leader about to accept its own signal
    | Release(w: Worker)                         // helper about to hand w back

  predicate Leads(p: Pc) { p.Finish? || p.Closing? || p.Begin? || p.Switching? }

  /** Where a thread continues when it has nothing to lead. */
  function After(w: Worker, mode: Mode): Pc {
    if mode == Helping then Release(w) else Idle
  }

  /** A worker context together with the control point of the thread that owns it.
      runner records which thread is running the worker's action. */
  datatype Unit = Unit(ctx: Ctx, pc: Pc, runner: Option<Worker>)

  /** ws is the list of registered workers, g the low bits of workers_available, flag is sml_check_flag and gc is
      gc_count.  The last three record history: the names used, who owes an answer, and who leads. */
  datatype State = State(ws: map<Worker, Unit>, g: Signal, flag: int, gc: nat,
                         used: set<Worker>, owes: set<Worker>, lead: Option<Worker>)

  const INIT: State := State(map[], Async, 0, 0, {}, {}, None)

  datatype Step =
    | Register(w: Worker)
    | Enter(w: Worker)
    | Leave(w: Worker)
    | Check(w: Worker)
    | HelpOther(t: Worker, w: Worker)
    | Answer(t: Worker)
    | Decide(t: Worker, finished: bool)
    | GlobalPhase(t: Worker)
    | SwitchOne(t: Worker, v: Worker, kill: bool)
    | AddCount(t: Worker)
    | RejoinOwn(t: Worker)
    | ReleaseOther(t: Worker)
    | Start(t: Worker, greedy: bool)
    | EndGc(t: Worker)
    | Cancel(w: Worker)

  function SetCtx(s: State, w: Worker, c: Ctx): State
    requires w in s.ws
  {
    s.(ws := s.ws[w := s.ws[w].(ctx := c)])
  }

  function SetPc(s: State, t: Worker, p: Pc): State
    requires t in s.ws
  {
    s.(ws := s.ws[t := s.ws[t].(pc := p)])
  }

  /** Thread t takes over the pending signal of w. */
  function Accept(s: State, t: Worker, w: Worker, mode: Mode, lock: Lock): State
    requires t in s.ws && w in s.ws
  {
    var u := s.ws[w];
    SetPc(s.(ws := s.ws[w := u.(ctx := u.ctx.(pre := false, lock := lock), runner := Some(t))]), t, Act(w, mode))
  }

  /** The thread that sees 1 leads on according to the round that has just been completed. */
  function Elected(g: Signal, w: Worker, mode: Mode): Pc {
    match g
    case Async => Closing(w, mode)
    case Sync1 => Begin(Sync2, w, mode)
    case Sync2 => Begin(Mark, w, mode)
    case Mark => Finish(w, mode)
  }

  predicate IdleOwner(s: State, t: Worker) {
    t in s.ws && s.ws[t].pc == Idle && s.ws[t].ctx.lock == Own
  }

  function DoLeave(s: State, w: Worker): State
    requires w in s.ws
  {
    if s.ws[w].ctx.pre then Accept(s, w, w, Leaving, Open) else SetCtx(s, w, s.ws[w].ctx.(lock := Open))
  }

  function DoAnswer(s: State, t: Worker, w: Worker, mode: Mode): State
    requires t in s.ws && w in s.ws
  {
    var s1 := s.(ws := s.ws[w := s.ws[w].(runner := None)], flag := s.flag - 1, owes := s.owes - {w});
    if s.flag == 1 then SetPc(s1, t, Elected(s.ws[w].ctx.sig, w, mode)).(lead := Some(t))
    else SetPc(s1, t, After(w, mode))
  }

  function DoGlobalPhase(s: State, t: Worker, next: Signal, w: Worker, mode: Mode): State
    requires t in s.ws
  {
    SetPc(s, t, Switching(s.g, s.ws.Keys, 0, w, mode)).(g := next)
  }

  function DoSwitch(s: State, t: Worker, p: Pc, v: Worker): State
    requires t in s.ws && v in s.ws && p.Switching?
  {
    var u := s.ws[v];
    SetPc(s.(ws := s.ws[v := u.(ctx := u.ctx.(sig := s.g, pre := true))], owes := s.owes + {v}),
          t, p.(todo := p.todo - {v}, n := p.n + 1))
  }

  function DoKill(s: State, t: Worker, p: Pc, v: Worker): State
    requires t in s.ws && p.Switching? && t != v
  {
    SetPc(s.(ws := s.ws - {v}), t, p.(todo := p.todo - {v}))
  }

  function DoAdd(s: State, t: Worker, p: Pc): State
    requires t in s.ws && p.Switching?
  {
    SetPc(s, t, if p.mode == Greedy then Rejoin else After(p.w, p.mode)).(flag := s.flag + p.n, lead := None)
  }

  function DoRelease(s: State, t: Worker, w: Worker): State
    requires t in s.ws
  {
    if w in s.ws then
      if s.ws[w].ctx.pre then Accept(s, t, w, Helping, s.ws[w].ctx.lock)
      else SetPc(SetCtx(s, w, s.ws[w].ctx.(lock := Open)), t, Idle)
    else SetPc(s, t, Idle)
  }

  ghost predicate Next(s: State, l: Step, s': State) {
    match l
    case Register(w) =>
      w !in s.used && s' == s.(ws := s.ws[w := Unit(Ctx(s.g, false, Own, false), Idle, None)], used := s.used + {w})
    case Enter(w) =>
      w in s.ws && s.ws[w].pc == Idle && s.ws[w].ctx.lock == Open && !s.ws[w].ctx.canceled
      && s' == SetCtx(s, w, s.ws[w].ctx.(lock := Own))
    case Leave(w) => IdleOwner(s, w) && s' == DoLeave(s, w)
    case Check(w) => IdleOwner(s, w) && s.ws[w].ctx.pre && s' == Accept(s, w, w, Greedy, Own)
    case HelpOther(t, w) =>
      IdleOwner(s, t) && w in s.ws && s.ws[w].ctx.lock == Open && s.ws[w].ctx.pre
      && s' == Accept(s, t, w, Helping, Help(t))
    case Answer(t) =>
      t in s.ws && s.ws[t].pc.Act? && s.ws[t].pc.w in s.ws && s' == DoAnswer(s, t, s.ws[t].pc.w, s.ws[t].pc.mode)
    case Decide(t, finished) =>
      t in s.ws && s.ws[t].pc.Finish?
      && s' == SetPc(s, t, Begin(if finished then Async else Mark, s.ws[t].pc.w, s.ws[t].pc.mode))
    case GlobalPhase(t) =>
      t in s.ws && s.ws[t].pc.Begin? && s' == DoGlobalPhase(s, t, s.ws[t].pc.next, s.ws[t].pc.w, s.ws[t].pc.mode)
    case SwitchOne(t, v, kill) =>
      t in s.ws && s.ws[t].pc.Switching? && v in s.ws[t].pc.todo && v in s.ws
      && if kill then s.ws[t].pc.was == Async && s.ws[v].ctx.canceled && t != v && s' == DoKill(s, t, s.ws[t].pc, v)
         else s' == DoSwitch(s, t, s.ws[t].pc, v)
    case AddCount(t) =>
      t in s.ws && s.ws[t].pc.Switching? && s.ws[t].pc.todo == {} && s' == DoAdd(s, t, s.ws[t].pc)
    case RejoinOwn(t) => t in s.ws && s.ws[t].pc.Rejoin? && s' == Accept(s, t, t, Greedy, Own)
    case ReleaseOther(t) => t in s.ws && s.ws[t].pc.Release? && s' == DoRelease(s, t, s.ws[t].pc.w)
    case Start(t, greedy) =>
      IdleOwner(s, t) && s.gc % 2 == 0
      && s' == SetPc(s, t, Begin(Sync1, t, if greedy then Greedy else Lazy)).(gc := s.gc + 1, lead := Some(t))
    case EndGc(t) =>
      t in s.ws && s.ws[t].pc.Closing?
      && s' == SetPc(s, t, After(s.ws[t].pc.w, s.ws[t].pc.mode)).(gc := s.gc + 1, lead := None)
    case Cancel(w) =>
      w in s.ws && s.ws[w].pc == Idle && s.ws[w].ctx.lock != Own && s' == SetCtx(s, w, s.ws[w].ctx.(canceled := true))
  }

  // ---------------------------------------------------------------- invariant

  /** The worker that a thread acts or leads for is held the way the mode says. */
  predicate ModeOk(s: State, t: Worker, w: Worker, mode: Mode) {
    w in s.ws
    && (mode == Greedy || mode == Lazy ==> w == t && s.ws[w].ctx.lock == Own)
    && (mode == Helping ==> s.ws[w].ctx.lock == Help(t))
  }

  predicate UnitOk(s: State, t: Worker)
    requires t in s.ws
  {
    var u := s.ws[t];
    && (u.pc != Idle ==> !u.ctx.canceled)
    && (u.ctx.canceled ==> u.ctx.lock != Own)
    && (u.runner.Some? ==> !u.ctx.pre && u.runner.value in s.ws && s.ws[u.runner.value].pc.Act?
                           && s.ws[u.runner.value].pc.w == t)
    && match u.pc
       case Idle => true
       case Act(w, mode) => mode != Lazy && ModeOk(s, t, w, mode) && s.ws[w].runner == Some(t)
                            && (mode == Leaving ==> w == t && s.ws[w].ctx.lock == Open)
       case Finish(w, mode) => s.lead == Some(t) && mode != Lazy && ModeOk(s, t, w, mode) && s.g == Mark
       case Closing(w, mode) => s.lead == Some(t) && mode != Lazy && ModeOk(s, t, w, mode) && s.g == Async
       case Begin(next, w, mode) =>
         s.lead == Some(t) && ModeOk(s, t, w, mode) && Follows(s.g, next)
         && (mode == Lazy ==> next == Sync1) && (next == Sync1 ==> mode == Lazy || mode == Greedy)
       case Switching(was, todo, n, w, mode) =>
         s.lead == Some(t) && ModeOk(s, t, w, mode) && Follows(was, s.g) && todo <= s.ws.Keys && |s.owes| <= n
         && (was == Async ==> mode == Lazy || mode == Greedy)
         && (mode != Leaving ==> w in todo || s.ws[w].ctx.pre)
       case Rejoin => s.ws[t].ctx.lock == Own && s.ws[t].ctx.pre
       case Release(w) => w in s.used && (w in s.ws ==> s.ws[w].ctx.lock == Help(t))
  }

  predicate Owes(u: Unit) { u.ctx.pre || u.runner.Some? }

  ghost predicate UnitsOk(s: State) {
    && s.ws.Keys <= s.used
    && (forall t <- s.ws :: UnitOk(s, t))
  }

  /** The leader's view of the round: the signals sent but not yet added to the counter, the workers not yet sent this
      round's signal, and the signal they are still in. */
  datatype View = View(notAdded: nat, unsent: set<Worker>, previous: Signal)

  function Round(s: State): View {
    if s.lead.Some? && s.lead.value in s.ws && s.ws[s.lead.value].pc.Switching? then
      var p := s.ws[s.lead.value].pc;
      View(p.n, p.todo, p.was)
    else View(0, {}, s.g)
  }

  ghost predicate RoundOk(s: State) {
    && (s.lead.Some? ==> s.lead.value in s.ws && Leads(s.ws[s.lead.value].pc) && s.gc % 2 == 1
                         && (!s.ws[s.lead.value].pc.Switching? ==> s.owes == {}))
    && s.flag == |s.owes| - Round(s).notAdded
    && (s.gc % 2 == 0 ==> s.owes == {} && s.g == Async)
    && s.owes <= s.ws.Keys
    && Round(s).notAdded + |Round(s).unsent| <= |s.used|
  }

  ghost predicate SignalsOk(s: State, v: View) {
    forall w <- s.ws ::
      && (w in s.owes <==> Owes(s.ws[w]))
      && (w in v.unsent ==> !Owes(s.ws[w]))
      && s.ws[w].ctx.sig == if w in v.unsent then v.previous else s.g
  }

  ghost predicate Inv(s: State) {
    UnitsOk(s) && RoundOk(s) && SignalsOk(s, Round(s))
  }

  lemma SubsetSize<T>(a: set<T>, b: set<T>)
    requires a <= b
    ensures |a| <= |b|
  {
    assert b == a + (b - a);
  }

  lemma InitInv()
    ensures Inv(INIT)
  {
  }

  /** The answer that sees 1 is the last one: nobody else owes an answer and nobody leads. */
  lemma AnswerSeesOne(s: State, t: Worker)
    requires Inv(s) && t in s.ws && s.ws[t].pc.Act?
    ensures s.ws[t].pc.w in s.owes && |s.owes - {s.ws[t].pc.w}| == |s.owes| - 1
    ensures s.flag == 1 <==> (s.lead == None && s.owes == {s.ws[t].pc.w})
  {
    var w := s.ws[t].pc.w;
    assert UnitOk(s, t);
    assert w in s.owes;
    assert s.owes == (s.owes - {w}) + {w};
    if s.lead.Some? {
      assert UnitOk(s, s.lead.value);
    }
    if s.flag == 1 {
      assert |s.owes - {w}| == 0;
    }
  }

  /** Taking over a pending signal is invisible to every worker but the two involved. */
  lemma AcceptOther(s: State, t: Worker, w: Worker, mode: Mode, lock: Lock, u: Worker)
    requires t in s.ws && w in s.ws && u in s.ws && u != t && u != w && UnitOk(s, u) && UnitOk(s, w)
    requires s.ws[w].ctx.pre && !s.ws[t].pc.Act? && !Leads(s.ws[t].pc)
    requires s.ws[w].ctx.lock == lock || s.ws[w].ctx.lock == Open || (w == t && s.ws[w].ctx.lock == Own)
    requires match lock case Open => w == t case Own => w == t case Help(helper) => helper == t
    ensures UnitOk(Accept(s, t, w, mode, lock), u)
  {
  }

  lemma AcceptKeepsUnits(s: State, t: Worker, w: Worker, mode: Mode, lock: Lock)
    requires Inv(s) && t in s.ws && w in s.ws && s.ws[w].ctx.pre && !s.ws[t].pc.Act? && !Leads(s.ws[t].pc)
    requires s.ws[w].ctx.lock == lock || s.ws[w].ctx.lock == Open || (w == t && s.ws[w].ctx.lock == Own)
    requires !s.ws[t].ctx.canceled && (lock == Own ==> !s.ws[w].ctx.canceled)
    requires match mode case Greedy => w == t && lock == Own case Helping => lock == Help(t)
                        case Leaving => w == t && lock == Open case Lazy => false
    ensures UnitsOk(Accept(s, t, w, mode, lock))
  {
    var s' := Accept(s, t, w, mode, lock);
    assert UnitOk(s, w) && UnitOk(s, t);
    forall u | u in s.ws && u != t && u != w ensures UnitOk(s', u) {
      assert UnitOk(s, u);
      AcceptOther(s, t, w, mode, lock, u);
    }
  }

  lemma AnswerOther(s: State, t: Worker, w: Worker, mode: Mode, u: Worker)
    requires t in s.ws && w in s.ws && u in s.ws && u != t && UnitOk(s, u)
    requires s.ws[w].runner == Some(t) && s.ws[t].pc == Act(w, mode)
    requires (s.flag == 1 ==> s.lead == None) && |s.owes - {w}| <= |s.owes|
    ensures UnitOk(DoAnswer(s, t, w, mode), u)
  {
  }

  lemma SwitchOther(s: State, t: Worker, p: Pc, v: Worker, u: Worker)
    requires t in s.ws && v in s.ws && u in s.ws && u != t && UnitOk(s, u)
    requires s.ws[t].pc == p && p.Switching? && !Owes(s.ws[v]) && s.lead == Some(t)
    ensures UnitOk(DoSwitch(s, t, p, v), u)
  {
  }

  lemma HandBackOther(s: State, t: Worker, w: Worker, u: Worker)
    requires t in s.ws && u in s.ws && u != t && UnitOk(s, u) && (w in s.ws ==> UnitOk(s, w))
    requires s.ws[t].pc == Release(w) && (w in s.ws ==> s.ws[w].ctx.lock == Help(t) && !s.ws[w].ctx.pre)
    ensures UnitOk(DoRelease(s, t, w), u)
  {
  }

  lemma KillOther(s: State, t: Worker, p: Pc, v: Worker, u: Worker)
    requires t in s.ws && v in s.ws && u in s.ws && u != t && u != v && t != v && UnitOk(s, u) && UnitOk(s, v)
    requires s.ws[t].pc == p && p.Switching? && !Owes(s.ws[v]) && s.lead == Some(t) && s.ws[v].ctx.canceled
    ensures UnitOk(DoKill(s, t, p, v), u)
  {
  }

  lemma RegisterKeepsUnits(s: State, w: Worker, s': State)
    requires Inv(s) && Next(s, Register(w), s')
    ensures UnitsOk(s')
  {
    if s.lead.Some? { assert UnitOk(s, s.lead.value); }
  }

  lemma RegisterKeepsRound(s: State, w: Worker, s': State)
    requires Inv(s) && Next(s, Register(w), s')
    ensures RoundOk(s') && SignalsOk(s', Round(s'))
  {
    SubsetSize(s.used, s'.used);
    if s.lead.Some? { assert UnitOk(s, s.lead.value); }
  }

  lemma EnterKeepsUnits(s: State, w: Worker, s': State)
    requires Inv(s) && Next(s, Enter(w), s')
    ensures UnitsOk(s')
  {
    if s.lead.Some? { assert UnitOk(s, s.lead.value); }
    assert UnitOk(s, w);
  }

  lemma EnterKeepsRound(s: State, w: Worker, s': State)
    requires Inv(s) && Next(s, Enter(w), s')
    ensures RoundOk(s') && SignalsOk(s', Round(s'))
  {
    if s.lead.Some? { assert UnitOk(s, s.lead.value); }
    assert UnitOk(s, w);
  }

  lemma LeaveKeepsUnits(s: State, w: Worker, s': State)
    requires Inv(s) && Next(s, Leave(w), s')
    ensures UnitsOk(s')
  {
    if s.lead.Some? { assert UnitOk(s, s.lead.value); }
    assert UnitOk(s, w);
    if s.ws[w].ctx.pre { AcceptKeepsUnits(s, w, w, Leaving, Open); }
  }

  lemma LeaveKeepsRound(s: State, w: Worker, s': State)
    requires Inv(s) && Next(s, Leave(w), s')
    ensures RoundOk(s') && SignalsOk(s', Round(s'))
  {
    if s.lead.Some? { assert UnitOk(s, s.lead.value); }
    assert UnitOk(s, w);
  }

  lemma CheckKeepsUnits(s: State, w: Worker, s': State)
    requires Inv(s) && Next(s, Check(w), s')
    ensures UnitsOk(s')
  {
    if s.lead.Some? { assert UnitOk(s, s.lead.value); }
    assert UnitOk(s, w);
    AcceptKeepsUnits(s, w, w, Greedy, Own);
  }

  lemma CheckKeepsRound(s: State, w: Worker, s': State)
    requires Inv(s) && Next(s, Check(w), s')
    ensures RoundOk(s') && SignalsOk(s', Round(s'))
  {
    if s.lead.Some? { assert UnitOk(s, s.lead.value); }
    assert UnitOk(s, w);
  }

  lemma HelpOtherKeepsUnits(s: State, t: Worker, w: Worker, s': State)
    requires Inv(s) && Next(s, HelpOther(t, w), s')
    ensures UnitsOk(s')
  {
    if s.lead.Some? { assert UnitOk(s, s.lead.value); }
    assert UnitOk(s, t);
    AcceptKeepsUnits(s, t, w, Helping, Help(t));
  }

  lemma HelpOtherKeepsRound(s: State, t: Worker, w: Worker, s': State)
    requires Inv(s) && Next(s, HelpOther(t, w), s')
    ensures RoundOk(s') && SignalsOk(s', Round(s'))
  {
    if s.lead.Some? { assert UnitOk(s, s.lead.value); }
    assert UnitOk(s, t);
  }

  lemma AnswerKeepsUnits(s: State, t: Worker, s': State)
    requires Inv(s) && Next(s, Answer(t), s')
    ensures UnitsOk(s')
  {
    if s.lead.Some? { assert UnitOk(s, s.lead.value); }
    assert UnitOk(s, t);
    AnswerSeesOne(s, t);
    forall u | u in s.ws && u != t ensures UnitOk(s', u) {
      assert UnitOk(s, u);
      AnswerOther(s, t, s.ws[t].pc.w, s.ws[t].pc.mode, u);
    }
  }

  lemma AnswerKeepsRound(s: State, t: Worker, s': State)
    requires Inv(s) && Next(s, Answer(t), s')
    ensures RoundOk(s') && SignalsOk(s', Round(s'))
  {
    if s.lead.Some? { assert UnitOk(s, s.lead.value); }
    assert UnitOk(s, t);
    AnswerSeesOne(s, t);
  }

  lemma DecideKeepsUnits(s: State, t: Worker, finished: bool, s': State)
    requires Inv(s) && Next(s, Decide(t, finished), s')
    ensures UnitsOk(s')
  {
    assert UnitOk(s, t);
  }

  lemma DecideKeepsRound(s: State, t: Worker, finished: bool, s': State)
    requires Inv(s) && Next(s, Decide(t, finished), s')
    ensures RoundOk(s') && SignalsOk(s', Round(s'))
  {
    assert UnitOk(s, t);
  }

  lemma GlobalPhaseKeepsUnits(s: State, t: Worker, s': State)
    requires Inv(s) && Next(s, GlobalPhase(t), s')
    ensures UnitsOk(s')
  {
    assert UnitOk(s, t);
  }

  lemma GlobalPhaseKeepsRound(s: State, t: Worker, s': State)
    requires Inv(s) && Next(s, GlobalPhase(t), s')
    ensures RoundOk(s') && SignalsOk(s', Round(s'))
  {
    assert UnitOk(s, t);
    SubsetSize(s.ws.Keys, s.used);
  }

  lemma SwitchOneKeepsUnits(s: State, t: Worker, v: Worker, kill: bool, s': State)
    requires Inv(s) && Next(s, SwitchOne(t, v, kill), s')
    ensures UnitsOk(s')
  {
    if s.lead.Some? { assert UnitOk(s, s.lead.value); }
    assert UnitOk(s, t);
    assert !Owes(s.ws[v]);
    assert |s.owes + {v}| == |s.owes| + 1;
    forall u | u in s'.ws && u != t ensures UnitOk(s', u) {
      assert UnitOk(s, u) && UnitOk(s, v);
      if kill { KillOther(s, t, s.ws[t].pc, v, u); } else { SwitchOther(s, t, s.ws[t].pc, v, u); }
    }
  }

  lemma SwitchOneKeepsRound(s: State, t: Worker, v: Worker, kill: bool, s': State)
    requires Inv(s) && Next(s, SwitchOne(t, v, kill), s')
    ensures RoundOk(s') && SignalsOk(s', Round(s'))
  {
    if s.lead.Some? { assert UnitOk(s, s.lead.value); }
    assert UnitOk(s, t);
    assert !Owes(s.ws[v]);
    assert |s.owes + {v}| == |s.owes| + 1;
  }

  lemma AddCountKeepsUnits(s: State, t: Worker, s': State)
    requires Inv(s) && Next(s, AddCount(t), s')
    ensures UnitsOk(s')
  {
    if s.lead.Some? { assert UnitOk(s, s.lead.value); }
    assert UnitOk(s, t);
  }

  lemma AddCountKeepsRound(s: State, t: Worker, s': State)
    requires Inv(s) && Next(s, AddCount(t), s')
    ensures RoundOk(s') && SignalsOk(s', Round(s'))
  {
    if s.lead.Some? { assert UnitOk(s, s.lead.value); }
    assert UnitOk(s, t);
  }

  lemma RejoinOwnKeepsUnits(s: State, t: Worker, s': State)
    requires Inv(s) && Next(s, RejoinOwn(t), s')
    ensures UnitsOk(s')
  {
    if s.lead.Some? { assert UnitOk(s, s.lead.value); }
    assert UnitOk(s, t);
    AcceptKeepsUnits(s, t, t, Greedy, Own);
  }

  lemma RejoinOwnKeepsRound(s: State, t: Worker, s': State)
    requires Inv(s) && Next(s, RejoinOwn(t), s')
    ensures RoundOk(s') && SignalsOk(s', Round(s'))
  {
    if s.lead.Some? { assert UnitOk(s, s.lead.value); }
    assert UnitOk(s, t);
  }

  lemma ReleaseOtherKeepsUnits(s: State, t: Worker, s': State)
    requires Inv(s) && Next(s, ReleaseOther(t), s')
    ensures UnitsOk(s')
  {
    assert UnitOk(s, t);
    var w := s.ws[t].pc.w;
    if w in s.ws && s.ws[w].ctx.pre {
      AcceptKeepsUnits(s, t, w, Helping, s.ws[w].ctx.lock);
    } else {
      forall u | u in s.ws && u != t ensures UnitOk(s', u) {
        assert UnitOk(s, u) && (w in s.ws ==> UnitOk(s, w));
        HandBackOther(s, t, w, u);
      }
    }
  }

  lemma ReleaseOtherKeepsRound(s: State, t: Worker, s': State)
    requires Inv(s) && Next(s, ReleaseOther(t), s')
    ensures RoundOk(s') && SignalsOk(s', Round(s'))
  {
    if s.lead.Some? { assert UnitOk(s, s.lead.value); }
    assert UnitOk(s, t);
  }

  lemma StartKeepsUnits(s: State, t: Worker, greedy: bool, s': State)
    requires Inv(s) && Next(s, Start(t, greedy), s')
    ensures UnitsOk(s')
  {
    assert UnitOk(s, t);
  }

  lemma StartKeepsRound(s: State, t: Worker, greedy: bool, s': State)
    requires Inv(s) && Next(s, Start(t, greedy), s')
    ensures RoundOk(s') && SignalsOk(s', Round(s'))
  {
    assert UnitOk(s, t);
  }

  lemma EndGcKeepsUnits(s: State, t: Worker, s': State)
    requires Inv(s) && Next(s, EndGc(t), s')
    ensures UnitsOk(s')
  {
    assert UnitOk(s, t);
  }

  lemma EndGcKeepsRound(s: State, t: Worker, s': State)
    requires Inv(s) && Next(s, EndGc(t), s')
    ensures RoundOk(s') && SignalsOk(s', Round(s'))
  {
    assert UnitOk(s, t);
  }

  lemma CancelKeepsUnits(s: State, w: Worker, s': State)
    requires Inv(s) && Next(s, Cancel(w), s')
    ensures UnitsOk(s')
  {
    if s.lead.Some? { assert UnitOk(s, s.lead.value); }
    assert UnitOk(s, w);
  }

  lemma CancelKeepsRound(s: State, w: Worker, s': State)
    requires Inv(s) && Next(s, Cancel(w), s')
    ensures RoundOk(s') && SignalsOk(s', Round(s'))
  {
    if s.lead.Some? { assert UnitOk(s, s.lead.value); }
    assert UnitOk(s, w);
  }

  lemma StepKeepsInv(s: State, l: Step, s': State)
    requires Inv(s) && Next(s, l, s')
    ensures Inv(s')
  {
    hide Next, UnitsOk, RoundOk, SignalsOk;
    match l {
      case Register(w) => RegisterKeepsUnits(s, w, s'); RegisterKeepsRound(s, w, s');
      case Enter(w) => EnterKeepsUnits(s, w, s'); EnterKeepsRound(s, w, s');
      case Leave(w) => LeaveKeepsUnits(s, w, s'); LeaveKeepsRound(s, w, s');
      case Check(w) => CheckKeepsUnits(s, w, s'); CheckKeepsRound(s, w, s');
      case HelpOther(t, w) => HelpOtherKeepsUnits(s, t, w, s'); HelpOtherKeepsRound(s, t, w, s');
      case Answer(t) => AnswerKeepsUnits(s, t, s'); AnswerKeepsRound(s, t, s');
      case Decide(t, finished) => DecideKeepsUnits(s, t, finished, s'); DecideKeepsRound(s, t, finished, s');
      case GlobalPhase(t) => GlobalPhaseKeepsUnits(s, t, s'); GlobalPhaseKeepsRound(s, t, s');
      case SwitchOne(t, v, kill) => SwitchOneKeepsUnits(s, t, v, kill, s'); SwitchOneKeepsRound(s, t, v, kill, s');
      case AddCount(t) => AddCountKeepsUnits(s, t, s'); AddCountKeepsRound(s, t, s');
      case RejoinOwn(t) => RejoinOwnKeepsUnits(s, t, s'); RejoinOwnKeepsRound(s, t, s');
      case ReleaseOther(t) => ReleaseOtherKeepsUnits(s, t, s'); ReleaseOtherKeepsRound(s, t, s');
      case Start(t, greedy) => StartKeepsUnits(s, t, greedy, s'); StartKeepsRound(s, t, greedy, s');
      case EndGc(t) => EndGcKeepsUnits(s, t, s'); EndGcKeepsRound(s, t, s');
      case Cancel(w) => CancelKeepsUnits(s, w, s'); CancelKeepsRound(s, w, s');
    }
  }

  // ---------------------------------------------------------------- what holds in every run

  /** A worker disappears only when change_phase finds it canceled, and once canceled it stays so. */
  lemma CanceledStays(s: State, l: Step, s': State, w: Worker)
    requires Inv(s) && Next(s, l, s') && w in s.ws
    ensures w !in s'.ws <==> l.SwitchOne? && l.kill && l.v == w
    ensures w !in s'.ws ==> s.ws[w].ctx.canceled && s.g == Sync1
    ensures w in s'.ws ==> (s'.ws[w].ctx.canceled <==> s.ws[w].ctx.canceled || l == Cancel(w))
  {
    assert w in s.used && (l.SwitchOne? && l.kill ==> UnitOk(s, l.t));
    hide Inv;
    if l.SwitchOne? {
      hide Accept, DoLeave, DoAnswer, DoRelease;
    } else {
      hide DoKill, DoSwitch;
      OthersKeepCanceled(s, l, s', w);
      hide Next;
    }
  }

  lemma OthersKeepCanceled(s: State, l: Step, s': State, w: Worker)
    requires Next(s, l, s') && !l.SwitchOne? && w in s.ws && w in s.used
    ensures w in s'.ws && (s'.ws[w].ctx.canceled <==> s.ws[w].ctx.canceled || l == Cancel(w))
  {
  }

  ghost predicate IsRun(ss: seq<State>, ls: seq<Step>) {
    && |ss| == |ls| + 1 && ss[0] == INIT
    && forall i :: 0 <= i < |ls| ==> Next(ss[i], ls[i], ss[i + 1])
  }

  lemma {:induction false} RunKeepsInv(ss: seq<State>, ls: seq<Step>, i: nat)
    requires IsRun(ss, ls) && i < |ss|
    ensures Inv(ss[i])
  {
    if i == 0 {
      InitInv();
    } else {
      RunKeepsInv(ss, ls, i - 1);
      StepKeepsInv(ss[i - 1], ls[i - 1], ss[i]);
    }
  }

  /** Each worker is in g, in PRE-g, or still in a phase that g may follow; in particular change_phase always finds the
      phase it expects, which is what its assertion says. */
  lemma PhasesStayClose(s: State, w: Worker)
    requires Inv(s) && w in s.ws
    ensures s.ws[w].ctx.sig == s.g || (Follows(s.ws[w].ctx.sig, s.g) && !s.ws[w].ctx.pre)
    ensures forall t :: t in s.ws && s.ws[t].pc.Switching? && w in s.ws[t].pc.todo ==>
                        s.ws[w].ctx.sig == s.ws[t].pc.was && !s.ws[w].ctx.pre
  {
    if s.lead.Some? {
      assert UnitOk(s, s.lead.value);
    }
    forall t | t in s.ws && s.ws[t].pc.Switching? && w in s.ws[t].pc.todo
      ensures s.ws[w].ctx.sig == s.ws[t].pc.was && !s.ws[w].ctx.pre
    {
      assert UnitOk(s, t);
    }
  }

  /** The counter is the debt: signals sent and added, minus answers given.  The C word is unsigned; its test for 1
      agrees with the integer as long as fewer than 2^31 workers have ever been created. */
  lemma CounterIsDebt(s: State)
    requires Inv(s)
    ensures s.flag + Round(s).notAdded == |s.owes|
    ensures forall w :: w in s.owes <==> w in s.ws && (s.ws[w].ctx.pre || s.ws[w].runner.Some?)
    ensures |s.used| < 0x8000_0000 ==> (s.flag % 0x1_0000_0000 == 1 <==> s.flag == 1)
  {
    SubsetSize(s.owes, s.used);
  }

  /** There is one leader at a time, and one thread at a time runs a worker's action. */
  lemma LeaderAndActorAreUnique(s: State, t: Worker, u: Worker)
    requires Inv(s) && t in s.ws && u in s.ws
    ensures Leads(s.ws[t].pc) && Leads(s.ws[u].pc) ==> t == u
    ensures s.ws[t].pc.Act? && s.ws[u].pc.Act? && s.ws[t].pc.w == s.ws[u].pc.w ==> t == u
  {
    assert UnitOk(s, t) && UnitOk(s, u);
  }

  /** Between two global_phase steps the set of workers still to be signalled only shrinks, and a new debt is one of a
      worker taken from it. */
  lemma RoundOnlyShrinks(s: State, l: Step, s': State)
    requires Inv(s) && Next(s, l, s') && !l.GlobalPhase?
    ensures Round(s').unsent <= Round(s).unsent
    ensures s'.owes <= s.owes + Round(s).unsent && s'.owes * Round(s').unsent <= s.owes * Round(s).unsent
  {
    hide Inv, Next;
    match l {
      case SwitchOne(t, v, kill) => SwitchShrinks(s, t, v, kill, s');
      case Answer(t) => AnswerShrinks(s, t, s');
      case AddCount(t) => LeadShrinks(s, l, s');
      case Decide(t, _) => LeadShrinks(s, l, s');
      case Start(t, _) => LeadShrinks(s, l, s');
      case EndGc(t) => LeadShrinks(s, l, s');
      case RejoinOwn(t) => TakeShrinks(s, l, s');
      case ReleaseOther(t) => ReleaseShrinks(s, t, s');
      case Check(w) => TakeShrinks(s, l, s');
      case HelpOther(t, w) => TakeShrinks(s, l, s');
      case _ => OwnShrinks(s, l, s');
    }
  }

  ghost predicate Shrinks(s: State, s': State) {
    && Round(s').unsent <= Round(s).unsent
    && s'.owes <= s.owes + Round(s).unsent && s'.owes * Round(s').unsent <= s.owes * Round(s).unsent
  }

  lemma SwitchShrinks(s: State, t: Worker, v: Worker, kill: bool, s': State)
    requires Inv(s) && Next(s, SwitchOne(t, v, kill), s')
    ensures Shrinks(s, s')
  {
    assert UnitOk(s, t);
    assert Round(s).unsent == s.ws[t].pc.todo && v in s.ws[t].pc.todo;
    hide UnitsOk, SignalsOk, RoundOk;
    assert Round(s').unsent == s.ws[t].pc.todo - {v} && s'.owes <= s.owes + {v};
    hide Next, Round;
    SetsShrink(Round(s).unsent, Round(s').unsent, s.owes, s'.owes, v);
  }

  lemma SetsShrink(todo: set<Worker>, todo': set<Worker>, owes: set<Worker>, owes': set<Worker>, v: Worker)
    requires v in todo && todo' == todo - {v} && owes' <= owes + {v}
    ensures todo' <= todo && owes' <= owes + todo && owes' * todo' <= owes * todo
  {
  }

  lemma AnswerShrinks(s: State, t: Worker, s': State)
    requires Inv(s) && Next(s, Answer(t), s')
    ensures Shrinks(s, s')
  {
    AnswerSeesOne(s, t);
    if s.lead.Some? { assert UnitOk(s, s.lead.value); }
    hide UnitsOk, SignalsOk;
  }

  lemma LeadShrinks(s: State, l: Step, s': State)
    requires Inv(s) && Next(s, l, s') && (l.AddCount? || l.Decide? || l.Start? || l.EndGc?)
    ensures Shrinks(s, s')
  {
    assert UnitOk(s, l.t);
    hide UnitsOk, SignalsOk;
  }

  /** When the leader is about to do the same and nobody owes more or less, nothing has changed in the round. */
  lemma SameRound(s: State, s': State)
    requires s'.owes == s.owes && s'.lead == s.lead
    requires s.lead.Some? ==>
             s.lead.value in s.ws && s.lead.value in s'.ws && s'.ws[s.lead.value].pc == s.ws[s.lead.value].pc
    ensures Shrinks(s, s')
  {
  }

  lemma TakeShrinks(s: State, l: Step, s': State)
    requires Inv(s) && Next(s, l, s') && (l.RejoinOwn? || l.Check? || l.HelpOther?)
    ensures Shrinks(s, s')
  {
    if s.lead.Some? { assert Leads(s.ws[s.lead.value].pc); }
    hide Inv, Shrinks;
    SameRound(s, s');
  }

  lemma ReleaseShrinks(s: State, t: Worker, s': State)
    requires Inv(s) && Next(s, ReleaseOther(t), s')
    ensures Shrinks(s, s')
  {
    if s.lead.Some? { assert Leads(s.ws[s.lead.value].pc); }
    hide Inv, Shrinks;
    SameRound(s, s');
  }

  lemma OwnShrinks(s: State, l: Step, s': State)
    requires Inv(s) && Next(s, l, s') && (l.Register? || l.Enter? || l.Leave? || l.Cancel?)
    ensures Shrinks(s, s')
  {
    if s.lead.Some? { assert Leads(s.ws[s.lead.value].pc); }
    assert s.ws.Keys <= s.used;
    hide Inv, Shrinks;
    SameRound(s, s');
  }

  /** Once a worker has answered in a round it owes nothing until the next round begins, so its action runs at most once
      per round, whether the owner, a leaving thread or a helper ran it. */
  lemma ActionRunsOncePerRound(s: State, l: Step, s': State, w: Worker)
    requires Inv(s) && Next(s, l, s') && !l.GlobalPhase?
    requires w !in s.owes && w !in Round(s).unsent
    ensures w !in s'.owes && w !in Round(s').unsent && (w in s.ws && w in s'.ws ==> !Owes(s'.ws[w]))
  {
    RoundOnlyShrinks(s, l, s');
    StepKeepsInv(s, l, s');
    hide Next;
  }

  /** A pending signal disappears only because some thread now runs its action, and a worker is given up (by its owner
      or by a helper) only when no signal is pending. */
  lemma SignalsAreNotDropped(s: State, l: Step, s': State, w: Worker)
    requires Inv(s) && Next(s, l, s') && w in s.ws && w in s'.ws
    ensures s.ws[w].ctx.pre && !s'.ws[w].ctx.pre ==> s'.ws[w].runner.Some?
    ensures s.ws[w].ctx.lock != Open && s'.ws[w].ctx.lock == Open ==> !s'.ws[w].ctx.pre
  {
    assert w in s.used;
    hide Inv, Next;
    if LeaderStep(l) { LeaderKeepsSignal(s, l, s', w); } else { ThreadKeepsSignal(s, l, s', w); }
  }

  predicate LeaderStep(l: Step) {
    l.Answer? || l.Decide? || l.GlobalPhase? || l.SwitchOne? || l.AddCount? || l.Start? || l.EndGc?
  }

  ghost predicate KeepsSignal(s: State, s': State, w: Worker)
    requires w in s.ws && w in s'.ws
  {
    && (s.ws[w].ctx.pre && !s'.ws[w].ctx.pre ==> s'.ws[w].runner.Some?)
    && (s.ws[w].ctx.lock != Open && s'.ws[w].ctx.lock == Open ==> !s'.ws[w].ctx.pre)
  }

  lemma LeaderKeepsSignal(s: State, l: Step, s': State, w: Worker)
    requires Next(s, l, s') && LeaderStep(l) && w in s.ws && w in s'.ws
    ensures KeepsSignal(s, s', w)
  {
  }

  lemma ThreadKeepsSignal(s: State, l: Step, s': State, w: Worker)
    requires Next(s, l, s') && !LeaderStep(l) && w in s.ws && w in s'.ws && w in s.used
    ensures KeepsSignal(s, s', w)
  {
  }

  /** The collection has come to a standstill: a round is over, but nobody was elected to lead the next one. */
  ghost predicate Stalled(s: State) {
    Inv(s) && s.gc % 2 == 1 && s.lead == None && s.owes == {}
  }

  /** A round is going on while answers are owed or the leader is still sending signals or adding the count. */
  ghost predicate InRound(s: State) {
    s.owes != {} || (s.lead.Some? && s.lead.value in s.ws && s.ws[s.lead.value].pc.Switching?)
  }

  /** A round ends in one of two ways.  Either an answer is the last event, and then the answering thread is elected and
      all actions are done; or the leader's addition is, and then nobody is elected. */
  lemma RoundEnds(s: State, l: Step, s': State)
    requires Inv(s) && Next(s, l, s') && InRound(s)
    ensures !InRound(s') <==> (l.Answer? && s.flag == 1) || (l.AddCount? && s.owes == {})
    ensures l.Answer? && s.flag == 1 ==> s'.lead == Some(l.t) && s'.owes == {}
    ensures l.AddCount? && s.owes == {} ==> Stalled(s')
  {
    if l.AddCount? {
      AddCountEnds(s, l.t, s');
    } else if l.Answer? {
      AnswerEnds(s, l.t, s');
    } else {
      RoundGoesOn(s, l, s');
    }
  }

  lemma AddCountEnds(s: State, t: Worker, s': State)
    requires Inv(s) && Next(s, AddCount(t), s') && InRound(s)
    ensures !InRound(s') <==> s.owes == {}
    ensures s.owes == {} ==> Stalled(s')
  {
    StepKeepsInv(s, AddCount(t), s');
    assert UnitOk(s, t);
    hide UnitsOk, SignalsOk;
  }

  lemma AnswerEnds(s: State, t: Worker, s': State)
    requires Inv(s) && Next(s, Answer(t), s') && InRound(s)
    ensures !InRound(s') <==> s.flag == 1
    ensures s.flag == 1 ==> s'.lead == Some(t) && s'.owes == {}
  {
    AnswerSeesOne(s, t);
    assert UnitOk(s, t);
    if s.lead.Some? { assert UnitOk(s, s.lead.value); }
    hide UnitsOk, SignalsOk;
  }

  lemma RoundGoesOn(s: State, l: Step, s': State)
    requires Inv(s) && Next(s, l, s') && InRound(s) && !l.AddCount? && !l.Answer?
    ensures InRound(s')
  {
    if l.SwitchOne? { assert UnitOk(s, l.t); }
    if l.GlobalPhase? { assert UnitOk(s, l.t); }
    if s.lead.Some? { assert UnitOk(s, s.lead.value); }
    hide UnitsOk, SignalsOk;
  }

  /** A stalled collection never moves again: no step elects a leader, sends a signal or ends the collection. */
  lemma StalledForever(s: State, l: Step, s': State)
    requires Stalled(s) && Next(s, l, s')
    ensures Stalled(s') && s'.gc == s.gc && s'.g == s.g && s'.flag == 0
  {
    StepKeepsInv(s, l, s');
    match l {
      case Leave(w) => assert w !in s.owes;
      case Check(w) => assert w !in s.owes;
      case HelpOther(t, w) => assert w !in s.owes;
      case Answer(t) => AnswerSeesOne(s, t);
      case Decide(t, _) => assert UnitOk(s, t);
      case ReleaseOther(t) => assert forall w :: w in s.ws ==> !Owes(s.ws[w]);
      case RejoinOwn(t) => assert UnitOk(s, t);
      case _ =>
    }
  }

  /** Exactly the addition that comes after all answers ends the round without electing anybody, and only the leader
      that has left ML code can be so late: any other still owes the answer for the worker it acts for. */
  lemma OnlyALeavingLeaderStalls(s: State, t: Worker, s': State)
    requires Inv(s) && Next(s, AddCount(t), s')
    ensures Stalled(s') <==> s.owes == {}
    ensures s.ws[t].pc.mode != Leaving ==> s.ws[t].pc.w in s.owes && !Stalled(s')
  {
    assert UnitOk(s, t);
    AddCountKeepsUnits(s, t, s');
    AddCountKeepsRound(s, t, s');
  }

  // ---------------------------------------------------------------- over runs

  /** This step is the answer for w. */
  predicate AnswersFor(s: State, l: Step, w: Worker) {
    l.Answer? && l.t in s.ws && s.ws[l.t].pc.Act? && s.ws[l.t].pc.w == w
  }

  lemma {:induction false} AnsweredStays(ss: seq<State>, ls: seq<Step>, i: nat, j: nat, w: Worker)
    requires IsRun(ss, ls) && i < j < |ss| && AnswersFor(ss[i], ls[i], w)
    requires forall m :: i < m < j ==> !ls[m].GlobalPhase?
    ensures w !in ss[j].owes && w !in Round(ss[j]).unsent
    decreases j
  {
    hide Inv, Next, Round, INIT;
    RunKeepsInv(ss, ls, j - 1);
    if j == i + 1 {
      AnswerPaysTheDebt(ss[i], ls[i].t, ss[j]);
    } else {
      AnsweredStays(ss, ls, i, j - 1, w);
      ActionRunsOncePerRound(ss[j - 1], ls[j - 1], ss[j], w);
    }
  }

  lemma AnswerPaysTheDebt(s: State, t: Worker, s': State)
    requires Inv(s) && Next(s, Answer(t), s')
    ensures s.ws[t].pc.w in s.owes && s.ws[t].pc.w !in s'.owes && s.ws[t].pc.w !in Round(s').unsent
  {
    AnswerSeesOne(s, t);
    AnswerShrinks(s, t, s');
    assert s.ws[t].pc.w !in Round(s).unsent;
    hide UnitsOk, RoundOk, SignalsOk;
  }

  /** Between two global_phase steps no worker is answered for twice. */
  lemma OneAnswerPerRound(ss: seq<State>, ls: seq<Step>, i: nat, j: nat, w: Worker)
    requires IsRun(ss, ls) && i < j < |ls| && AnswersFor(ss[i], ls[i], w)
    requires forall m :: i < m < j ==> !ls[m].GlobalPhase?
    ensures !AnswersFor(ss[j], ls[j], w)
  {
    if AnswersFor(ss[j], ls[j], w) {
      assert Next(ss[j], ls[j], ss[j + 1]);
      RunKeepsInv(ss, ls, j);
      hide Inv;
      AnswerPaysTheDebt(ss[j], ls[j].t, ss[j + 1]);
      AnsweredStays(ss, ls, i, j, w);
    }
  }

  /** A collection that has stalled is the last one: in all later states it stands where it stood. */
  lemma {:induction false} NothingEndsAStall(ss: seq<State>, ls: seq<Step>, i: nat, j: nat)
    requires IsRun(ss, ls) && i <= j < |ss| && Stalled(ss[i])
    ensures Stalled(ss[j]) && ss[j].gc == ss[i].gc && ss[j].g == ss[i].g
    decreases j
  {
    hide Stalled, Next;
    if i < j {
      NothingEndsAStall(ss, ls, i, j - 1);
      assert Next(ss[j - 1], ls[j - 1], ss[j]);
      StalledForever(ss[j - 1], ls[j - 1], ss[j]);
    }
  }
}
