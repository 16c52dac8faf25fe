/**
 The handshakes of Control and the collector of Collector put together.  A state of the whole system is a state of
 each; a step is a step of the handshakes with what it means for the collector, or a step of one thread in between.
 */
module System {
  import opened Phases
  import opened Wrappers
  import opened Marking
  import K = Collector
  import C = Control
  import I = Invariant
  import S = Safety

  // ---------------------------------------------------------------- what the collector sees of the handshakes

  function StageOf(u: C.Unit): K.Stage {
    match u.ctx.sig
    case Async => if u.ctx.pre then K.SweepPending else if u.runner.Some? then K.Sweeping else K.Plain
    case Sync1 => if u.ctx.pre then K.Plain else K.Early
    case Sync2 => if u.ctx.pre then K.Early else if u.runner.Some? then K.Rooting else K.Rooted
    case Mark => if u.ctx.pre then K.MarkPending else if u.runner.Some? then K.Tracing else K.Traced
  }

  /** sml_current_phase: the low three bits of the state of the worker. */
  function PhaseBits(u: C.Unit): bv8 { StateByte(u.ctx) & PHASE_MASK }

  /** The codes are ordered so that the tests of the runtime can compare them: `phase >= SYNC1` finds the stages in
      which a write remembers what it overwrites, `SYNC1 <= phase && phase <= SYNC2` those in which it also remembers
      what it writes and in which sml_enter asks for the lock of a user it moves, `phase == SYNC2` those in which
      sml_enter enumerates, and `ASYNC <= phase && phase <= PRESYNC2` those in which new objects are targets. */
  lemma PhaseTests(u: C.Unit)
    ensures PhaseBits(u) >= 3 <==> K.DeletionBarrier(StageOf(u))
    ensures 3 <= PhaseBits(u) <= 5 <==> K.InsertionBarrier(StageOf(u))
    ensures 3 <= PhaseBits(u) <= 5 <==> !K.Saw(StageOf(u)).Outside?
    ensures PhaseBits(u) == 5 <==> K.Saw(StageOf(u)).After?
    ensures !K.Acting(StageOf(u)) ==> (1 <= PhaseBits(u) <= 4 <==> K.AllocatesTargets(StageOf(u)))
  {
    PhaseIsThere(u.ctx);
  }

  lemma PhaseIsThere(c: Ctx)
    ensures StateByte(c) & PHASE_MASK == PhaseCode(c.sig, c.pre)
  {
  }

  /** What the leader, if there is one, is about to do. */
  function LeaderPc(c: C.State): C.Pc {
    if c.lead.Some? && c.lead.value in c.ws then c.ws[c.lead.value].pc else C.Idle
  }

  function EpochOf(c: C.State): K.Epoch {
    if c.gc % 2 == 0 then K.Rest
    else match c.g
         case Async => if LeaderPc(c).Begin? then K.Opening else K.OnSweep
         case Sync1 => K.OnSync1(if LeaderPc(c).Begin? then Some(LeaderPc(c).w) else None)
         case Sync2 => K.OnSync2
         case Mark => K.OnMark
  }

  function EnvOf(c: C.State): K.Env {
    K.Env(EpochOf(c), map w <- c.ws :: StageOf(c.ws[w]))
  }

  /** Every step of the handshakes is one step of the environment of the collector. */
  function EnvStepOf(c: C.State, l: C.Step): K.EnvStep {
    match l
    case Register(w) => K.Join(w)
    case Leave(w) => if w in c.ws && c.ws[w].ctx.pre then K.Accept(w) else K.Stutter
    case Check(w) => K.Accept(w)
    case HelpOther(_, w) => K.Accept(w)
    case Answer(t) =>
      if t in c.ws && c.ws[t].pc.Act? then
        if c.g == Sync1 then if c.flag == 1 then K.Elect(c.ws[t].pc.w) else K.Stutter
        else K.Done(c.ws[t].pc.w)
      else K.Stutter
    case GlobalPhase(t) =>
      if t in c.ws && c.ws[t].pc.Begin? then
        match c.ws[t].pc.next
        case Sync1 => K.Sync1Begins
        case Sync2 => K.Sync2Begins
        case Mark => if c.g == Sync2 then K.MarkBegins else K.Stutter
        case Async => K.SweepBegins
      else K.Stutter
    case SwitchOne(_, v, kill) =>
      if kill then K.Die(v) else if c.g == Mark || c.g == Async then K.Send(v) else K.Stutter
    case RejoinOwn(t) => K.Accept(t)
    case ReleaseOther(t) =>
      if t in c.ws && c.ws[t].pc.Release? && c.ws[t].pc.w in c.ws && c.ws[c.ws[t].pc.w].ctx.pre
        then K.Accept(c.ws[t].pc.w)
      else K.Stutter
    case Start(_, _) => K.OpenGc
    case EndGc(_) => K.Close
    case _ => K.Stutter
  }

  /** Stages change as K says when one worker's record does. */
  lemma OneStage(c: C.State, c': C.State, w: Worker)
    requires w in c.ws && c'.ws.Keys == c.ws.Keys
    requires forall v <- c.ws :: v != w ==> StageOf(c'.ws[v]) == StageOf(c.ws[v])
    ensures EnvOf(c').stage == EnvOf(c).stage[w := StageOf(c'.ws[w])]
  {
  }

  lemma SameStages(c: C.State, c': C.State)
    requires c'.ws.Keys == c.ws.Keys && forall v <- c.ws :: StageOf(c'.ws[v]) == StageOf(c.ws[v])
    ensures EnvOf(c').stage == EnvOf(c).stage
  {
    var a, b := EnvOf(c').stage, EnvOf(c).stage;
    assert a.Keys == c'.ws.Keys && b.Keys == c.ws.Keys;
    assert forall w <- a :: a[w] == b[w];
  }

  /** When nothing is owed and nothing is unsent, every worker has done the action of the current signal. */
  lemma NothingOwed(c: C.State, w: Worker)
    requires C.Inv(c) && w in c.ws && (w !in c.owes || (c.g == Sync1 && !c.ws[w].ctx.pre)) && C.Round(c).unsent == {}
    ensures StageOf(c.ws[w]) == match c.g case Async => K.Plain case Sync1 => K.Early case Sync2 => K.Rooted
            case Mark => K.Traced
  {
    assert w in c.owes <==> C.Owes(c.ws[w]);
    assert c.ws[w].ctx.sig == c.g;
  }

  lemma AcceptDrives(c: C.State, t: Worker, w: Worker, mode: C.Mode, lock: Lock)
    requires C.Inv(c) && t in c.ws && w in c.ws && c.ws[w].ctx.pre && !C.Leads(c.ws[t].pc)
    ensures K.EnvNext(EnvOf(c), K.Accept(w), EnvOf(C.Accept(c, t, w, mode, lock)))
  {
    var c' := C.Accept(c, t, w, mode, lock);
    OneStage(c, c', w);
    if c.lead.Some? { assert C.UnitOk(c, c.lead.value); }
    assert w in c.owes;
  }

  /** A step that changes neither the epoch nor any stage. */
  lemma Invisible(c: C.State, c': C.State)
    requires c'.ws.Keys == c.ws.Keys && (forall v <- c.ws :: StageOf(c'.ws[v]) == StageOf(c.ws[v]))
    requires EpochOf(c') == EpochOf(c)
    ensures K.EnvNext(EnvOf(c), K.Stutter, EnvOf(c'))
  {
    SameStages(c, c');
  }

  /** A step that changes the stage of one worker only. */
  lemma Visible(c: C.State, c': C.State, w: Worker, l: K.EnvStep)
    requires w in c.ws && c'.ws.Keys == c.ws.Keys
             && forall v <- c.ws :: v != w ==> StageOf(c'.ws[v]) == StageOf(c.ws[v])
    requires EpochOf(c') == EpochOf(c)
    requires K.EnvNext(EnvOf(c), l, EnvOf(c).(stage := EnvOf(c).stage[w := StageOf(c'.ws[w])]))
    ensures K.EnvNext(EnvOf(c), l, EnvOf(c'))
  {
    hide StageOf, EpochOf, K.EnvNext;
    OneStage(c, c', w);
  }

  /** What a step leaves alone: the workers, their contexts and who runs their actions, but for one worker. */
  ghost predicate OnlyTouches(c: C.State, c': C.State, w: Worker) {
    w in c.ws && c'.ws.Keys == c.ws.Keys
    && forall v <- c.ws :: v != w ==> c'.ws[v].ctx == c.ws[v].ctx && c'.ws[v].runner == c.ws[v].runner
  }

  lemma RegisterDrives(c: C.State, w: Worker, c': C.State)
    requires C.Inv(c) && C.Next(c, C.Register(w), c')
    ensures K.EnvNext(EnvOf(c), K.Join(w), EnvOf(c'))
  {
    if c.lead.Some? { assert C.UnitOk(c, c.lead.value); }
    assert w !in c.ws && (c.gc % 2 == 0 ==> c.g == Async);
    assert LeaderPc(c') == LeaderPc(c);
    hide C.Inv;
    var a, b := EnvOf(c').stage, EnvOf(c).stage[w := StageOf(c'.ws[w])];
    assert a.Keys == b.Keys;
    assert forall v <- a :: a[v] == b[v];
  }

  /** The acting thread answers for a worker that is in the current round, and it sees 1 only when it is the last. */
  lemma AnswerFacts(c: C.State, t: Worker)
    requires C.Inv(c) && t in c.ws && c.ws[t].pc.Act?
    ensures var w := c.ws[t].pc.w;
            w in c.ws && c.ws[w].runner == Some(t) && !c.ws[w].ctx.pre && c.ws[w].ctx.sig == c.g && c.gc % 2 == 1
    ensures c.lead.Some? ==> c.lead.value in c.ws && c.ws[c.lead.value].pc.Switching? && c.lead.value != t
    ensures c.flag == 1 ==> c.lead == None && forall v <- c.ws :: v == c.ws[t].pc.w || v !in c.owes
  {
    assert C.UnitOk(c, t);
    C.AnswerSeesOne(c, t);
    if c.lead.Some? { assert C.UnitOk(c, c.lead.value); }
  }

  lemma AnswerSync1Drives(c: C.State, t: Worker, c': C.State)
    requires C.Inv(c) && C.Next(c, C.Answer(t), c') && c.g == Sync1
    ensures K.EnvNext(EnvOf(c), EnvStepOf(c, C.Answer(t)), EnvOf(c'))
  {
    AnswerFacts(c, t);
    if c.flag == 1 {
      forall v <- c.ws ensures StageOf(c.ws[v]) == K.Early { NothingOwed(c, v); }
    }
    hide C.Inv;
    SameStages(c, c');
  }

  lemma AnswerShape(c: C.State, t: Worker, c': C.State)
    requires C.Next(c, C.Answer(t), c')
    ensures var w := c.ws[t].pc.w;
            OnlyTouches(c, c', w) && c'.ws[w].runner == None && c'.ws[w].ctx == c.ws[w].ctx && c'.g == c.g
            && c'.gc == c.gc
    ensures c.flag == 1 ==>
            c'.lead == Some(t) && c'.ws[t].pc == C.Elected(c.ws[c.ws[t].pc.w].ctx.sig, c.ws[t].pc.w, c.ws[t].pc.mode)
    ensures c.flag != 1 ==> c'.lead == c.lead && forall v <- c.ws :: v != t ==> c'.ws[v].pc == c.ws[v].pc
  {
  }

  lemma AnswerDrives(c: C.State, t: Worker, c': C.State)
    requires C.Inv(c) && C.Next(c, C.Answer(t), c') && c.g != Sync1
    ensures K.EnvNext(EnvOf(c), EnvStepOf(c, C.Answer(t)), EnvOf(c'))
  {
    AnswerShape(c, t, c');
    AnswerFacts(c, t);
    assert c.ws[t].pc.Act?;
    hide C.Inv, C.Next;
    Visible(c, c', c.ws[t].pc.w, K.Done(c.ws[t].pc.w));
  }

  lemma GlobalPhaseDrives(c: C.State, t: Worker, c': C.State)
    requires C.Inv(c) && C.Next(c, C.GlobalPhase(t), c')
    ensures K.EnvNext(EnvOf(c), EnvStepOf(c, C.GlobalPhase(t)), EnvOf(c'))
  {
    assert C.UnitOk(c, t);
    forall v <- c.ws ensures c.g != Async ==> StageOf(c.ws[v]) == match c.g case Sync1 => K.Early case Sync2 => K.Rooted
      case _ => K.Traced
    {
      NothingOwed(c, v);
    }
    SameStages(c, c');
  }

  lemma KillDrives(c: C.State, t: Worker, v: Worker, c': C.State)
    requires C.Inv(c) && C.Next(c, C.SwitchOne(t, v, true), c')
    ensures K.EnvNext(EnvOf(c), K.Die(v), EnvOf(c'))
  {
    assert C.UnitOk(c, t);
    assert c.ws[v].ctx.sig == c.ws[t].pc.was && !C.Owes(c.ws[v]) && c.gc % 2 == 1 && c.lead == Some(t);
    hide C.Inv;
    assert c'.ws.Keys == c.ws.Keys - {v} && LeaderPc(c').Switching? && c'.g == c.g && c'.gc == c.gc;
    assert forall w <- c'.ws :: StageOf(c'.ws[w]) == StageOf(c.ws[w]);
    assert EpochOf(c') == EpochOf(c) == K.OnSync1(None) && StageOf(c.ws[v]) == K.Plain;
    hide C.Next, StageOf, EpochOf;
    var a, b := EnvOf(c').stage, EnvOf(c).stage - {v};
    assert a.Keys == b.Keys;
    assert forall w <- a :: a[w] == b[w];
  }

  lemma SwitchShape(c: C.State, t: Worker, v: Worker, c': C.State)
    requires C.Next(c, C.SwitchOne(t, v, false), c')
    ensures t in c.ws && c.ws[t].pc.Switching? && v in c.ws[t].pc.todo
    ensures OnlyTouches(c, c', v) && c'.ws[v].ctx.sig == c.g && c'.ws[v].ctx.pre && c'.ws[v].runner == c.ws[v].runner
    ensures c'.g == c.g && c'.gc == c.gc && c'.lead == c.lead && c'.ws[t].pc.Switching?
  {
  }

  lemma SwitchFacts(c: C.State, t: Worker, v: Worker)
    requires C.Inv(c) && t in c.ws && c.ws[t].pc.Switching? && v in c.ws[t].pc.todo
    ensures v in c.ws && c.ws[v].ctx.sig == c.ws[t].pc.was && !C.Owes(c.ws[v]) && c.gc % 2 == 1 && c.lead == Some(t)
    ensures Follows(c.ws[t].pc.was, c.g)
  {
    assert C.UnitOk(c, t);
  }

  lemma SwitchOneDrives(c: C.State, t: Worker, v: Worker, c': C.State)
    requires C.Inv(c) && C.Next(c, C.SwitchOne(t, v, false), c')
    ensures K.EnvNext(EnvOf(c), EnvStepOf(c, C.SwitchOne(t, v, false)), EnvOf(c'))
  {
    hide C.Inv, C.Next;
    if c.g == Mark || c.g == Async { SwitchIsSeen(c, t, v, c'); } else { SwitchIsUnseen(c, t, v, c'); }
  }

  lemma SwitchIsSeen(c: C.State, t: Worker, v: Worker, c': C.State)
    requires C.Inv(c) && C.Next(c, C.SwitchOne(t, v, false), c') && (c.g == Mark || c.g == Async)
    ensures K.EnvNext(EnvOf(c), EnvStepOf(c, C.SwitchOne(t, v, false)), EnvOf(c'))
  {
    hide C.Inv, C.Next;
    SwitchShape(c, t, v, c');
    SwitchFacts(c, t, v);
    Visible(c, c', v, K.Send(v));
  }

  lemma SwitchIsUnseen(c: C.State, t: Worker, v: Worker, c': C.State)
    requires C.Inv(c) && C.Next(c, C.SwitchOne(t, v, false), c') && c.g != Mark && c.g != Async
    ensures K.EnvNext(EnvOf(c), EnvStepOf(c, C.SwitchOne(t, v, false)), EnvOf(c'))
  {
    hide C.Inv, C.Next;
    SwitchShape(c, t, v, c');
    SwitchFacts(c, t, v);
    Invisible(c, c');
  }

  lemma CloseShape(c: C.State, t: Worker, c': C.State)
    requires C.Next(c, C.EndGc(t), c')
    ensures t in c.ws && c.ws[t].pc.Closing? && OnlyTouches(c, c', t) && c'.ws[t].ctx == c.ws[t].ctx
            && c'.ws[t].runner == c.ws[t].runner
    ensures c'.gc == c.gc + 1
  {
  }

  lemma CloseFacts(c: C.State, t: Worker)
    requires C.Inv(c) && t in c.ws && c.ws[t].pc.Closing?
    ensures EpochOf(c) == K.OnSweep && c.gc % 2 == 1 && forall v <- c.ws :: StageOf(c.ws[v]) == K.Plain
  {
    assert C.UnitOk(c, t);
    forall v <- c.ws ensures StageOf(c.ws[v]) == K.Plain { NothingOwed(c, v); }
  }

  lemma CloseDrives(c: C.State, t: Worker, c': C.State)
    requires C.Inv(c) && C.Next(c, C.EndGc(t), c')
    ensures K.EnvNext(EnvOf(c), K.Close, EnvOf(c'))
  {
    hide C.Inv, C.Next;
    CloseShape(c, t, c');
    CloseFacts(c, t);
    SameStages(c, c');
  }

  lemma LeaveDrives(c: C.State, w: Worker, c': C.State)
    requires C.Inv(c) && C.Next(c, C.Leave(w), c')
    ensures K.EnvNext(EnvOf(c), EnvStepOf(c, C.Leave(w)), EnvOf(c'))
  {
    if c.ws[w].ctx.pre {
      AcceptDrives(c, w, w, C.Leaving, Open);
    } else {
      hide C.Inv;
      Invisible(c, c');
    }
  }

  lemma ReleaseShape(c: C.State, t: Worker, c': C.State)
    requires C.Next(c, C.ReleaseOther(t), c') && !(c.ws[t].pc.w in c.ws && c.ws[c.ws[t].pc.w].ctx.pre)
    ensures c'.ws.Keys == c.ws.Keys && c'.g == c.g && c'.gc == c.gc && c'.lead == c.lead
    ensures forall v <- c.ws :: c'.ws[v].ctx.sig == c.ws[v].ctx.sig && c'.ws[v].ctx.pre == c.ws[v].ctx.pre
                                && c'.ws[v].runner == c.ws[v].runner && (v != t ==> c'.ws[v].pc == c.ws[v].pc)
  {
  }

  lemma ReleaseDrives(c: C.State, t: Worker, c': C.State)
    requires C.Inv(c) && C.Next(c, C.ReleaseOther(t), c')
    ensures K.EnvNext(EnvOf(c), EnvStepOf(c, C.ReleaseOther(t)), EnvOf(c'))
  {
    var w := c.ws[t].pc.w;
    if w in c.ws && c.ws[w].ctx.pre {
      assert C.UnitOk(c, t);
      assert c' == C.Accept(c, t, w, C.Helping, c.ws[w].ctx.lock);
      hide C.Inv, C.Next, K.EnvNext, EnvOf;
      AcceptDrives(c, t, w, C.Helping, c.ws[w].ctx.lock);
    } else {
      ReleaseShape(c, t, c');
      assert c.lead.Some? ==> c.lead.value != t;
      hide C.Inv, C.Next, K.EnvNext, EnvOf;
      SameSignalsDrive(c, t, c');
    }
  }

  /** A step that leaves signals, debts and the leader alone. */
  lemma SameSignalsDrive(c: C.State, t: Worker, c': C.State)
    requires c'.ws.Keys == c.ws.Keys && c'.g == c.g && c'.gc == c.gc && c'.lead == c.lead
    requires forall v <- c.ws :: c'.ws[v].ctx.sig == c.ws[v].ctx.sig && c'.ws[v].ctx.pre == c.ws[v].ctx.pre
                                 && c'.ws[v].runner == c.ws[v].runner && (v != t ==> c'.ws[v].pc == c.ws[v].pc)
    requires c.lead.Some? ==> c.lead.value != t
    ensures K.EnvNext(EnvOf(c), K.Stutter, EnvOf(c'))
  {
    assert LeaderPc(c') == LeaderPc(c);
    assert forall v <- c.ws :: StageOf(c'.ws[v]) == StageOf(c.ws[v]);
    hide StageOf, EnvOf, K.EnvNext;
    Invisible(c, c');
  }

  lemma AddCountDrives(c: C.State, t: Worker, c': C.State)
    requires C.Inv(c) && C.Next(c, C.AddCount(t), c')
    ensures K.EnvNext(EnvOf(c), K.Stutter, EnvOf(c'))
  {
    assert C.UnitOk(c, t);
    hide C.Inv;
    Invisible(c, c');
  }

  lemma DecideDrives(c: C.State, t: Worker, finished: bool, c': C.State)
    requires C.Inv(c) && C.Next(c, C.Decide(t, finished), c')
    ensures K.EnvNext(EnvOf(c), K.Stutter, EnvOf(c'))
  {
    assert C.UnitOk(c, t);
    hide C.Inv;
    Invisible(c, c');
  }

  lemma QuietShape(c: C.State, l: C.Step, c': C.State)
    requires C.Next(c, l, c') && (l.Enter? || l.Cancel?)
    ensures c'.ws.Keys == c.ws.Keys && c'.g == c.g && c'.gc == c.gc && LeaderPc(c') == LeaderPc(c)
    ensures forall v <- c.ws :: StageOf(c'.ws[v]) == StageOf(c.ws[v])
  {
  }

  /** Entering a worker and cancelling one are invisible, and so is everything else that only moves a lock. */
  lemma QuietDrives(c: C.State, l: C.Step, c': C.State)
    requires C.Next(c, l, c') && (l.Enter? || l.Cancel?)
    ensures K.EnvNext(EnvOf(c), K.Stutter, EnvOf(c'))
  {
    QuietShape(c, l, c');
    hide StageOf, EnvOf, K.EnvNext, C.Next;
    Invisible(c, c');
  }

  lemma StartDrives(c: C.State, t: Worker, greedy: bool, c': C.State)
    requires C.Inv(c) && C.Next(c, C.Start(t, greedy), c')
    ensures K.EnvNext(EnvOf(c), K.OpenGc, EnvOf(c'))
  {
    assert c.g == Async;
    hide C.Inv;
    SameStages(c, c');
  }

  /** The protocol drives the collector: every step of the handshakes, in every interleaving, is the step of the
      environment that EnvStepOf names. */
  lemma HandshakesDriveStages(c: C.State, l: C.Step, c': C.State)
    requires C.Inv(c) && C.Next(c, l, c')
    ensures K.EnvNext(EnvOf(c), EnvStepOf(c, l), EnvOf(c'))
  {
    hide EnvOf, StageOf, EpochOf, K.EnvNext;
    match l {
      case Register(w) => RegisterDrives(c, w, c');
      case Enter(w) => QuietDrives(c, l, c');
      case Leave(w) => LeaveDrives(c, w, c');
      case Check(w) => AcceptDrives(c, w, w, C.Greedy, Own);
      case HelpOther(t, w) => AcceptDrives(c, t, w, C.Helping, Help(t));
      case Answer(t) => if c.g == Sync1 { AnswerSync1Drives(c, t, c'); } else { AnswerDrives(c, t, c'); }
      case Decide(t, finished) => DecideDrives(c, t, finished, c');
      case GlobalPhase(t) => GlobalPhaseDrives(c, t, c');
      case SwitchOne(t, v, kill) => if kill { KillDrives(c, t, v, c'); } else { SwitchOneDrives(c, t, v, c'); }
      case AddCount(t) => AddCountDrives(c, t, c');
      case RejoinOwn(t) => assert C.UnitOk(c, t); AcceptDrives(c, t, t, C.Greedy, Own);
      case ReleaseOther(t) => ReleaseDrives(c, t, c');
      case Start(t, greedy) => StartDrives(c, t, greedy, c');
      case EndGc(t) => CloseDrives(c, t, c');
      case Cancel(w) => QuietDrives(c, l, c');
    }
  }

  // ---------------------------------------------------------------- the whole system

  datatype State = State(c: C.State, k: K.State)

  datatype Step = Handshake(h: C.Step) | Thread(l: K.Step)

  /** The worker whose own thread takes this step, in ML code or inside sml_enter. */
  function Actor(l: K.Step): Option<Worker> {
    match l
    case StartUser(w, _) => Some(w)
    case Resume(w, _) => Some(w)
    case Quit(w) => Some(w)
    case Arrive(w, _) => Some(w)
    case SeeBusy(w) => Some(w)
    case Spurious(w) => Some(w)
    case Move(w) => Some(w)
    case LockUser(w) => Some(w)
    case Publish(w) => Some(w)
    case Load(w, _, _) => Some(w)
    case Alloc(w, _, _) => Some(w)
    case DropRoots(w, _) => Some(w)
    case Read(w, _, _, _) => Some(w)
    case Swap(w, _, _, _, _) => Some(w)
    case Look(w) => Some(w)
    case Remember(w) => Some(w)
    case Push(w) => Some(w)
    case Store(w) => Some(w)
    case _ => None
  }

  /** The thread of w is not in the middle of sml_enter or of a write. */
  predicate Interruptible(k: K.State, w: Worker) { w in k.task ==> k.task[w].Running? }

  /** What the code itself checks or has done before this step of the handshakes. */
  ghost predicate Before(s: State, h: C.Step) {
    match h
    case Leave(w) => w !in s.k.task
    case Check(w) => Interruptible(s.k, w)
    case HelpOther(t, _) => Interruptible(s.k, t)
    case Start(t, _) => Interruptible(s.k, t)
    case Answer(t) => t in s.c.ws && s.c.ws[t].pc.Act? && s.c.ws[t].pc.w in s.k.env.stage ==>
      K.ActionDone(s.k, s.c.ws[t].pc.w)
    case SwitchOne(_, v, kill) => kill ==> forall u <- s.k.users :: s.k.users[u].home != v
    case EndGc(_) => forall o <- s.k.heap :: o != STATIC && s.k.heap[o].owner !in s.k.env.stage ==> s.k.heap[o].swept
    case _ => true
  }

  ghost predicate Next(s: State, l: Step, s': State) {
    match l
    case Handshake(h) =>
      C.Next(s.c, h, s'.c) && Before(s, h)
      && if h.Decide? then K.CollectorStep(s.k, K.ScanEnd(h.finished), s'.k)
         else s'.k == K.Effect(s.k, EnvStepOf(s.c, h), EnvOf(s'.c))
    case Thread(l) =>
      K.Next(s.k, l, s'.k) && !l.Shake? && !l.ScanEnd? && s'.c == s.c
      && (Actor(l).Some? ==> C.IdleOwner(s.c, Actor(l).value))
      && (l.ScanStart? || l.ScanOne? || l.ScanPass? ==> LeaderPc(s.c).Finish?)
  }

  ghost predicate Init(s: State) { s.c == C.INIT && K.Init(s.k) }

  ghost predicate TasksFit(c: C.State, k: K.State) {
    forall w <- k.task :: w in c.ws && c.ws[w].ctx.lock == Own && (!k.task[w].Running? ==> c.ws[w].pc == C.Idle)
  }

  ghost predicate OwnersFit(c: C.State, k: K.State) {
    forall o <- k.heap :: o == STATIC || k.heap[o].owner in c.used
  }

  predicate ScanFits(c: C.State, k: K.State) {
    && (k.scan == K.Passed <==> LeaderPc(c).Begin? && LeaderPc(c).next == Async)
    && (k.scan.Pass? ==> LeaderPc(c).Finish?)
  }

  ghost predicate Inv(s: State) {
    && C.Inv(s.c) && I.Inv(s.k) && s.k.env == EnvOf(s.c)
    && TasksFit(s.c, s.k) && OwnersFit(s.c, s.k) && ScanFits(s.c, s.k)
  }

  lemma InitInv(s: State)
    requires Init(s)
    ensures Inv(s)
  {
    C.InitInv();
    I.InitInv(s.k);
    assert EnvOf(s.c).stage == map[];
  }

  /** The handshakes never leave a worker acting while its own thread is in ML code: every step of such a thread finds
      its worker ready. */
  lemma OwnerIsReady(s: State, w: Worker)
    requires Inv(s) && C.IdleOwner(s.c, w)
    ensures K.Ready(s.k, w)
  {
    assert C.UnitOk(s.c, w);
    forall t <- s.c.ws ensures s.c.ws[w].runner != Some(t) { assert C.UnitOk(s.c, t); }
  }

  /** The steps that change what the leader is about to do are its own. */
  lemma LeaderStays(c: C.State, h: C.Step, c': C.State)
    requires C.Inv(c) && C.Next(c, h, c')
    requires !h.Answer? && !h.Decide? && !h.GlobalPhase? && !h.AddCount? && !h.Start? && !h.EndGc? && !h.SwitchOne?
    ensures LeaderPc(c') == LeaderPc(c)
  {
    if c.lead.Some? { assert C.UnitOk(c, c.lead.value); }
    hide C.SignalsOk, C.RoundOk;
    match h {
      case RejoinOwn(t) => assert C.UnitOk(c, t);
      case ReleaseOther(t) => assert C.UnitOk(c, t);
      case _ =>
    }
  }

  lemma LeaderMoves(c: C.State, h: C.Step, c': C.State)
    requires C.Inv(c) && C.Next(c, h, c')
    requires h.Answer? || h.GlobalPhase? || h.AddCount? || h.Start? || h.EndGc? || h.SwitchOne?
    ensures !LeaderPc(c').Begin? || LeaderPc(c').next != Async
    ensures LeaderPc(c).Finish? ==> LeaderPc(c').Finish?
    ensures LeaderPc(c).Begin? && LeaderPc(c).next == Async ==> h.GlobalPhase?
  {
    if h.Answer? { AnswerMoves(c, h.t, c'); } else { OwnerMoves(c, h, c'); }
  }

  ghost predicate Moves(c: C.State, h: C.Step, c': C.State) {
    && (!LeaderPc(c').Begin? || LeaderPc(c').next != Async)
    && (LeaderPc(c).Finish? ==> LeaderPc(c').Finish?)
    && (LeaderPc(c).Begin? && LeaderPc(c).next == Async ==> h.GlobalPhase?)
  }

  lemma AnswerMoves(c: C.State, t: Worker, c': C.State)
    requires C.Inv(c) && C.Next(c, C.Answer(t), c')
    ensures Moves(c, C.Answer(t), c')
  {
    AnswerFacts(c, t);
    AnswerShape(c, t, c');
    hide C.Inv, C.Next;
  }

  lemma OwnerMoves(c: C.State, h: C.Step, c': C.State)
    requires C.Inv(c) && C.Next(c, h, c') && (h.GlobalPhase? || h.AddCount? || h.Start? || h.EndGc? || h.SwitchOne?)
    ensures Moves(c, h, c')
  {
    assert C.UnitOk(c, h.t);
    assert c.lead.Some? ==> c.gc % 2 == 1;
    hide C.Inv;
  }

  /** A lock is given up only by a thread outside ML, and taken only when it is open. */
  lemma TaskStaysFit(c: C.State, h: C.Step, c': C.State, w: Worker, entering: bool)
    requires C.Inv(c) && C.Next(c, h, c') && w in c.ws && c.ws[w].ctx.lock == Own && (entering ==> c.ws[w].pc == C.Idle)
    requires match h case Leave(v) => v != w case Check(v) => v == w ==> !entering
             case HelpOther(t, _) => t == w ==> !entering
                     case Start(t, _) => t == w ==> !entering case _ => true
    ensures w in c'.ws && c'.ws[w].ctx.lock == Own && (entering ==> c'.ws[w].pc == C.Idle)
  {
    if h.Answer? { AnswerKeepsTask(c, h.t, c', w, entering); }
    else if h.SwitchOne? { SwitchKeepsTask(c, h.t, h.v, h.kill, c', w, entering); }
    else if C.LeaderStep(h) { LeaderKeepsTask(c, h, c', w, entering); } else { ThreadKeepsTask(c, h, c', w, entering); }
  }

  lemma LeaderKeepsTask(c: C.State, h: C.Step, c': C.State, w: Worker, entering: bool)
    requires C.Inv(c) && C.Next(c, h, c') && w in c.ws && c.ws[w].ctx.lock == Own && (entering ==> c.ws[w].pc == C.Idle)
    requires C.LeaderStep(h) && !h.Answer? && !h.SwitchOne? && match h case Start(t, _) => t == w ==> !entering
             case _ => true
    ensures w in c'.ws && c'.ws[w].ctx.lock == Own && (entering ==> c'.ws[w].pc == C.Idle)
  {
    assert C.UnitOk(c, w);
    hide C.Inv;
  }

  lemma SwitchKeepsTask(c: C.State, t: Worker, v: Worker, kill: bool, c': C.State, w: Worker, entering: bool)
    requires C.Inv(c) && C.Next(c, C.SwitchOne(t, v, kill), c') && w in c.ws && c.ws[w].ctx.lock == Own
             && (entering ==> c.ws[w].pc == C.Idle)
    ensures w in c'.ws && c'.ws[w].ctx.lock == Own && (entering ==> c'.ws[w].pc == C.Idle)
  {
    assert C.UnitOk(c, w);
    hide C.Inv;
  }

  lemma AnswerKeepsTask(c: C.State, t: Worker, c': C.State, w: Worker, entering: bool)
    requires C.Inv(c) && C.Next(c, C.Answer(t), c') && w in c.ws && c.ws[w].ctx.lock == Own
             && (entering ==> c.ws[w].pc == C.Idle)
    ensures w in c'.ws && c'.ws[w].ctx.lock == Own && (entering ==> c'.ws[w].pc == C.Idle)
  {
    hide C.Inv;
  }

  lemma ThreadKeepsTask(c: C.State, h: C.Step, c': C.State, w: Worker, entering: bool)
    requires C.Inv(c) && C.Next(c, h, c') && w in c.ws && c.ws[w].ctx.lock == Own && (entering ==> c.ws[w].pc == C.Idle)
    requires !C.LeaderStep(h)
    requires match h case Leave(v) => v != w case Check(v) => v == w ==> !entering
             case HelpOther(t, _) => t == w ==> !entering case _ => true
    ensures w in c'.ws && c'.ws[w].ctx.lock == Own && (entering ==> c'.ws[w].pc == C.Idle)
  {
    assert C.UnitOk(c, w);
    if h.ReleaseOther? { assert C.UnitOk(c, h.t); }
    if h.RejoinOwn? { assert C.UnitOk(c, h.t); }
    assert w in c.used;
    hide C.Inv;
  }

  lemma TasksStayFit(s: State, h: C.Step, s': State)
    requires C.Inv(s.c) && TasksFit(s.c, s.k) && C.Next(s.c, h, s'.c) && Before(s, h) && s'.k.task == s.k.task
    ensures TasksFit(s'.c, s'.k)
  {
    hide C.Inv, C.Next;
    forall w <- s.k.task
      ensures w in s'.c.ws && s'.c.ws[w].ctx.lock == Own && (!s.k.task[w].Running? ==> s'.c.ws[w].pc == C.Idle)
    {
      TaskStaysFit(s.c, h, s'.c, w, !s.k.task[w].Running?);
    }
  }

  lemma UsedGrows(c: C.State, h: C.Step, c': C.State)
    requires C.Next(c, h, c')
    ensures c.used <= c'.used
  {
  }

  lemma OwnersStayFit(s: State, e: K.EnvStep, s': State)
    requires OwnersFit(s.c, s.k) && s'.k == K.Effect(s.k, e, s'.k.env) && s.c.used <= s'.c.used
    ensures OwnersFit(s'.c, s'.k)
  {
    forall o <- s'.k.heap ensures o == STATIC || s'.k.heap[o].owner in s'.c.used {
      assert o in s.k.heap && (o != STATIC ==> s'.k.heap[o].owner == s.k.heap[o].owner);
    }
  }

  lemma DecideFits(s: State, h: C.Step, s': State)
    requires C.Inv(s.c) && ScanFits(s.c, s.k) && h.Decide? && C.Next(s.c, h, s'.c)
             && K.CollectorStep(s.k, K.ScanEnd(h.finished), s'.k)
    ensures ScanFits(s'.c, s'.k) && EnvOf(s'.c) == EnvOf(s.c)
  {
    assert C.UnitOk(s.c, h.t);
    DecideDrives(s.c, h.t, h.finished, s'.c);
  }

  lemma ScanStaysFit(s: State, h: C.Step, s': State)
    requires C.Inv(s.c) && ScanFits(s.c, s.k) && !h.Decide? && C.Next(s.c, h, s'.c)
    requires s'.k.scan == if EnvStepOf(s.c, h) == K.SweepBegins then K.Off else s.k.scan
    ensures ScanFits(s'.c, s'.k)
  {
    if h.Answer? || h.GlobalPhase? || h.AddCount? || h.Start? || h.EndGc? || h.SwitchOne? {
      LeaderMoves(s.c, h, s'.c);
      if h.GlobalPhase? { assert C.UnitOk(s.c, h.t); }
    } else {
      LeaderStays(s.c, h, s'.c);
    }
    hide C.Inv, C.Next, LeaderPc;
  }

  lemma CloseGuard(s: State, t: Worker)
    requires Inv(s) && Before(s, C.EndGc(t)) && t in s.c.ws && s.c.ws[t].pc.Closing?
    ensures K.MayShake(s.k, K.Close)
  {
    CloseFacts(s.c, t);
    hide C.Inv;
    forall o <- s.k.heap | o != STATIC ensures s.k.heap[o].swept {
      assert I.ObjOk(s.k.env, s.k.genum, o, s.k.heap[o]);
    }
  }

  /** Whoever accepts a signal for w, the thread of w is not inside sml_enter and not in the middle of a write. */
  lemma AcceptGuard(s: State, h: C.Step, c': C.State, w: Worker)
    requires C.Inv(s.c) && TasksFit(s.c, s.k) && C.Next(s.c, h, c') && Before(s, h) && EnvStepOf(s.c, h) == K.Accept(w)
    ensures K.MayShake(s.k, K.Accept(w))
  {
    match h {
      case RejoinOwn(t) =>
      case ReleaseOther(t) => assert C.UnitOk(s.c, t);
      case _ =>
    }
  }

  lemma SwitchGuard(s: State, t: Worker, v: Worker, kill: bool, c': C.State)
    requires C.Inv(s.c) && TasksFit(s.c, s.k) && ScanFits(s.c, s.k)
    requires C.Next(s.c, C.SwitchOne(t, v, kill), c') && Before(s, C.SwitchOne(t, v, kill))
    ensures K.MayShake(s.k, EnvStepOf(s.c, C.SwitchOne(t, v, kill)))
  {
    assert C.UnitOk(s.c, t) && C.UnitOk(s.c, v);
  }

  lemma SweepGuard(s: State, t: Worker, c': C.State)
    requires C.Inv(s.c) && ScanFits(s.c, s.k) && C.Next(s.c, C.GlobalPhase(t), c')
    ensures K.MayShake(s.k, EnvStepOf(s.c, C.GlobalPhase(t)))
  {
    assert C.UnitOk(s.c, t);
  }

  /** What the collector needs for a step of the handshakes to be safe follows from the protocol: nobody accepts a
      signal for a worker whose thread is inside sml_enter or a write, no signal is sent while the remembered sets are
      being read, ASYNC is published only after mark_finish said yes, and when the last worker has answered ASYNC all of
      the heap but the pool has been swept. */
  lemma ProtocolGuards(s: State, h: C.Step, c': C.State)
    requires Inv(s) && C.Next(s.c, h, c') && Before(s, h) && !h.Decide?
    ensures K.MayShake(s.k, EnvStepOf(s.c, h))
  {
    if h.Answer? { AnswerFacts(s.c, h.t); assert EnvOf(s.c).stage.Keys == s.c.ws.Keys; }
    if h.EndGc? { assert h.t in s.c.ws && s.c.ws[h.t].pc.Closing?; CloseGuard(s, h.t); }
    var e := EnvStepOf(s.c, h);
    if e.Accept? { AcceptGuard(s, h, c', e.w); }
    if h.SwitchOne? { SwitchGuard(s, h.t, h.v, h.kill, c'); }
    if h.GlobalPhase? { SweepGuard(s, h.t, c'); }
    hide C.Inv, I.Inv, EnvOf, TasksFit, ScanFits;
  }

  lemma DecideKeepsInv(s: State, h: C.Step, s': State)
    requires Inv(s) && Next(s, Handshake(h), s') && h.Decide? && !S.Hasty(s.k, K.ScanEnd(h.finished))
    ensures Inv(s')
  {
    assert s'.k == s.k.(scan := s'.k.scan);
    hide C.Inv, C.Next, I.Inv, EnvOf, TasksFit, ScanFits, K.CollectorStep, S.Hasty;
    C.StepKeepsInv(s.c, h, s'.c);
    UsedGrows(s.c, h, s'.c);
    DecideFits(s, h, s');
    S.CollectorStepKeepsInv(s.k, K.ScanEnd(h.finished), s'.k);
    TasksStayFit(s, h, s');
  }

  /** A step of the handshakes, and what the threads did before it, keep everything together. */
  lemma HandshakeKeepsInv(s: State, h: C.Step, s': State)
    requires Inv(s) && Next(s, Handshake(h), s') && !h.Decide? && !S.Torn(s.k, K.Shake(EnvStepOf(s.c, h)))
    ensures Inv(s')
  {
    hide C.Inv, C.Next, I.Inv, EnvOf, Before, TasksFit, ScanFits, OwnersFit, EnvStepOf, K.EnvNext, K.MayShake, S.Torn;
    C.StepKeepsInv(s.c, h, s'.c);
    UsedGrows(s.c, h, s'.c);
    ProtocolGuards(s, h, s'.c);
    HandshakesDriveStages(s.c, h, s'.c);
    S.HandshakeKeepsInv(s.k, EnvStepOf(s.c, h), s'.k);
    OwnersStayFit(s, EnvStepOf(s.c, h), s');
    ScanStaysFit(s, h, s');
    TasksStayFit(s, h, s');
  }

  ghost predicate SameOwners(k: K.State, k': K.State) {
    forall o <- k'.heap :: o in k.heap && k'.heap[o].owner == k.heap[o].owner
  }

  lemma CollectorShape(k: K.State, l: K.Step, k': K.State)
    requires K.CollectorStep(k, l, k')
    ensures k'.env == k.env && k'.task == k.task && SameOwners(k, k')
    ensures k'.scan == k.scan || l.ScanStart? || l.ScanOne? || l.ScanPass? || l.ScanEnd?
    ensures !l.ScanEnd? ==> (k'.scan == K.Passed <==> k.scan == K.Passed)
  {
    hide K.HasRemembered, K.NoLinks;
  }

  lemma UserShape(k: K.State, l: K.Step, k': K.State)
    requires K.UserStep(k, l, k')
    ensures k'.env == k.env && k'.heap == k.heap && k'.scan == k.scan
    ensures forall w <- k'.task :: (w in k.task && k'.task[w] == k.task[w]) || (Actor(l) == Some(w) && w in k.env.stage)
  {
  }

  lemma MLShape(k: K.State, l: K.Step, k': K.State)
    requires K.MLStep(k, l, k')
    ensures k'.env == k.env && k'.task == k.task && k'.scan == k.scan
    ensures Actor(l).Some? && Actor(l).value in k.env.stage
    ensures forall o <- k'.heap ::
              || (o in k.heap && k'.heap[o].owner == k.heap[o].owner)
              || k'.heap[o].owner == Actor(l).value
  {
  }

  lemma WriteShape(k: K.State, l: K.Step, k': K.State)
    requires K.WriteStep(k, l, k')
    ensures k'.env == k.env && k'.scan == k.scan && SameOwners(k, k')
    ensures Actor(l).Some? && Actor(l).value in k.env.stage
    ensures forall w <- k'.task :: (w in k.task && k'.task[w] == k.task[w]) || Actor(l) == Some(w)
  {
    hide K.HasPending;
  }

  /** A thread steps only while it holds its own worker. */
  lemma ThreadFits(s: State, l: K.Step, s': State)
    requires Next(s, Thread(l), s') && s.k.env.stage.Keys == s.c.ws.Keys <= s.c.used
    requires TasksFit(s.c, s.k) && OwnersFit(s.c, s.k) && ScanFits(s.c, s.k)
    ensures s'.k.env == s.k.env && TasksFit(s'.c, s'.k) && ScanFits(s'.c, s'.k) && OwnersFit(s'.c, s'.k)
  {
    hide K.CollectorStep, K.UserStep, K.MLStep, K.WriteStep;
    if K.CollectorStep(s.k, l, s'.k) { CollectorShape(s.k, l, s'.k); }
    else if K.UserStep(s.k, l, s'.k) { UserShape(s.k, l, s'.k); }
    else if K.MLStep(s.k, l, s'.k) { MLShape(s.k, l, s'.k); }
    else { WriteShape(s.k, l, s'.k); }
  }

  /** The steps that the collector does not withstand: two of the handshakes, and two of the threads. */
  ghost predicate Breaks(s: State, l: Step) {
    match l
    case Handshake(h) =>
      if h.Decide? then S.Hasty(s.k, K.ScanEnd(h.finished)) else S.Torn(s.k, K.Shake(EnvStepOf(s.c, h)))
    case Thread(l) => S.Breaks(s.k, l)
  }

  lemma DecideBreaksInv(s: State, h: C.Step, s': State)
    requires Next(s, Handshake(h), s') && h.Decide? && S.Hasty(s.k, K.ScanEnd(h.finished))
    ensures !Inv(s')
  {
    assert h.finished;
    hide S.Hasty, K.CollectorStep, C.Inv, I.Inv, C.Next, EnvOf, TasksFit, ScanFits, OwnersFit;
    S.HastyBreaksInv(s.k, K.ScanEnd(true), s'.k);
  }

  lemma PublishBreaksInv(s: State, h: C.Step, s': State)
    requires Inv(s) && Next(s, Handshake(h), s') && !h.Decide? && S.Torn(s.k, K.Shake(EnvStepOf(s.c, h)))
    ensures !Inv(s')
  {
    assert EnvStepOf(s.c, h) == K.Sync2Begins;
    assert I.TasksOk(s.k.env, s.k.users, s.k.task);
    hide S.Torn, C.Inv, I.Inv, C.Next, EnvOf, TasksFit, ScanFits, OwnersFit, EnvStepOf, Before, K.EnvNext, I.TasksOk;
    HandshakesDriveStages(s.c, h, s'.c);
    S.TornBreaksInv(s.k, s'.k);
  }

  /** A step of the whole system keeps handshakes, collector and threads in order exactly when it is none of these. */
  lemma StepKeepsInv(s: State, l: Step, s': State)
    requires Inv(s) && Next(s, l, s')
    ensures Inv(s') <==> !Breaks(s, l)
  {
    match l {
      case Handshake(h) =>
        hide Inv, Next, S.Hasty, S.Torn;
        if h.Decide? {
          if S.Hasty(s.k, K.ScanEnd(h.finished)) { DecideBreaksInv(s, h, s'); } else { DecideKeepsInv(s, h, s'); }
        } else {
          if S.Torn(s.k, K.Shake(EnvStepOf(s.c, h))) { PublishBreaksInv(s, h, s'); }
          else { HandshakeKeepsInv(s, h, s'); }
        }
      case Thread(l) =>
        ThreadFits(s, l, s');
        hide C.Inv, I.Inv, EnvOf, K.Next, S.Breaks, TasksFit, ScanFits, OwnersFit;
        S.InvKeptUnlessBroken(s.k, l, s'.k);
    }
  }

  ghost predicate IsRun(ss: seq<State>, ls: seq<Step>) {
    && |ss| == |ls| + 1 && Init(ss[0])
    && forall i :: 0 <= i < |ls| ==> Next(ss[i], ls[i], ss[i + 1])
  }

  /** None of the first n steps is one that the collector does not withstand. */
  ghost predicate NoneBreaks(ss: seq<State>, ls: seq<Step>, n: nat)
    requires |ss| > |ls| >= n
  {
    forall i :: 0 <= i < n ==> !Breaks(ss[i], ls[i])
  }

  lemma {:induction false} RunKeepsInv(ss: seq<State>, ls: seq<Step>, i: nat)
    requires IsRun(ss, ls) && i < |ss| && NoneBreaks(ss, ls, i)
    ensures Inv(ss[i])
  {
    hide Inv, Next, Breaks;
    if i == 0 {
      InitInv(ss[0]);
    } else {
      RunKeepsInv(ss, ls, i - 1);
      StepKeepsInv(ss[i - 1], ls[i - 1], ss[i]);
    }
  }

  /** Mutators, migrating users, helpers, leaders and tracers in any interleaving: nothing a user can reach is freed. */
  lemma NothingReachableIsFreed(ss: seq<State>, ls: seq<Step>, i: nat, path: seq<Ptr>)
    requires IsRun(ss, ls) && i < |ls| && NoneBreaks(ss, ls, i) && S.Path(ss[i].k, path) && path[|path| - 1] != 0
    ensures path[|path| - 1] in ss[i].k.heap && path[|path| - 1] in ss[i + 1].k.heap
  {
    RunKeepsInv(ss, ls, i);
    var p := path[|path| - 1];
    S.ReachableIsNoGarbage(ss[i].k, path);
    assert Next(ss[i], ls[i], ss[i + 1]);
    HandshakeFreesNothing(ss[i], ls[i], ss[i + 1], p);
  }

  lemma HandshakeFreesNothing(s: State, l: Step, s': State, p: Ptr)
    requires Inv(s) && Next(s, l, s') && p in s.k.heap && !I.Garbage(s.k.env.epoch, s.k.heap[p])
    ensures p in s'.k.heap
  {
    if l.Thread? {
      hide C.Inv, EnvOf, K.Next, I.Garbage, TasksFit, ScanFits, OwnersFit;
      S.OnlyGarbageIsFreed(s.k, l.l, s'.k, p);
    } else {
      hide C.Inv, C.Next, I.Inv, EnvOf, TasksFit, ScanFits, OwnersFit, EnvStepOf;
    }
  }

  /** When the leader of a MARK round decides that tracing is over, and is not hasty, what a user can reach is marked or
      new. */
  lemma DecidedMeansMarked(ss: seq<State>, ls: seq<Step>, i: nat, t: Worker, path: seq<Ptr>)
    requires IsRun(ss, ls) && i < |ls| && NoneBreaks(ss, ls, i + 1) && ls[i] == Handshake(C.Decide(t, true))
             && S.Path(ss[i].k, path)
    ensures var p := path[|path| - 1]; p == 0 || (p in ss[i].k.heap && ss[i].k.heap[p].color != White)
  {
    RunKeepsInv(ss, ls, i);
    assert Next(ss[i], ls[i], ss[i + 1]) && !Breaks(ss[i], ls[i]);
    hide C.Inv, I.Inv, EnvOf, S.Path, S.Hasty, TasksFit, ScanFits, OwnersFit;
    S.FinishedMeansMarked(ss[i].k, ss[i + 1].k, path);
  }
}
