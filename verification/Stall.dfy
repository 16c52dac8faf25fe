/** A run of two workers in which a collection comes to a standstill for good. */
module Stall {
  import opened Phases
  import opened Wrappers
  import opened Control

  function U(sig: Signal, pre: bool, lock: Lock, pc: Pc, runner: Option<Worker>): Unit {
    Unit(Ctx(sig, pre, lock, false), pc, runner)
  }

  function Two(a: Unit, b: Unit, g: Signal, flag: int, gc: nat, owes: set<Worker>, lead: Option<Worker>): State {
    State(map[1 := a, 2 := b], g, flag, gc, {1, 2}, owes, lead)
  }

  // The states of the run, after both workers have registered.
  const S2: State := Two(U(Async, false, Own, Idle, None), U(Async, false, Own, Idle, None), Async, 0, 0, {}, None)
  const S3: State := Two(U(Async, false, Own, Idle, None), U(Async, false, Open, Idle, None), Async, 0, 0, {}, None)
  const S4: State :=
    Two(U(Async, false, Own, Begin(Sync1, 1, Greedy), None), U(Async, false, Open, Idle, None),
        Async, 0, 1, {}, Some(1))
  const S5: State :=
    Two(U(Async, false, Own, Switching(Async, {1, 2}, 0, 1, Greedy), None), U(Async, false, Open, Idle, None),
        Sync1, 0, 1, {}, Some(1))
  const S6: State :=
    Two(U(Sync1, true, Own, Switching(Async, {2}, 1, 1, Greedy), None), U(Async, false, Open, Idle, None),
        Sync1, 0, 1, {1}, Some(1))
  const S7: State :=
    Two(U(Sync1, true, Own, Switching(Async, {}, 2, 1, Greedy), None), U(Sync1, true, Open, Idle, None),
        Sync1, 0, 1, {1, 2}, Some(1))
  const S8: State := Two(U(Sync1, true, Own, Rejoin, None), U(Sync1, true, Open, Idle, None), Sync1, 2, 1, {1, 2}, None)
  const S9: State :=
    Two(U(Sync1, false, Own, Act(1, Greedy), Some(1)), U(Sync1, true, Open, Idle, None), Sync1, 2, 1, {1, 2}, None)
  const S10: State := Two(U(Sync1, false, Own, Idle, None), U(Sync1, true, Open, Idle, None), Sync1, 1, 1, {2}, None)
  const S11: State := Two(U(Sync1, false, Own, Idle, None), U(Sync1, true, Own, Idle, None), Sync1, 1, 1, {2}, None)
  const S12: State :=
    Two(U(Sync1, false, Own, Idle, None), U(Sync1, false, Open, Act(2, Leaving), Some(2)), Sync1, 1, 1, {2}, None)
  const S13: State :=
    Two(U(Sync1, false, Own, Idle, None), U(Sync1, false, Open, Begin(Sync2, 2, Leaving), None),
        Sync1, 0, 1, {}, Some(2))
  const S14: State :=
    Two(U(Sync1, false, Own, Idle, None), U(Sync1, false, Open, Switching(Sync1, {1, 2}, 0, 2, Leaving), None),
        Sync2, 0, 1, {}, Some(2))
  const S15: State :=
    Two(U(Sync2, true, Own, Idle, None), U(Sync1, false, Open, Switching(Sync1, {2}, 1, 2, Leaving), None),
        Sync2, 0, 1, {1}, Some(2))
  const S16: State :=
    Two(U(Sync2, true, Own, Idle, None), U(Sync2, true, Open, Switching(Sync1, {}, 2, 2, Leaving), None),
        Sync2, 0, 1, {1, 2}, Some(2))
  const S17: State :=
    Two(U(Sync2, false, Own, Act(1, Greedy), Some(1)), U(Sync2, true, Open, Switching(Sync1, {}, 2, 2, Leaving), None),
        Sync2, 0, 1, {1, 2}, Some(2))
  const S18: State :=
    Two(U(Sync2, false, Own, Idle, None), U(Sync2, true, Open, Switching(Sync1, {}, 2, 2, Leaving), None),
        Sync2, -1, 1, {2}, Some(2))
  const S19: State :=
    Two(U(Sync2, false, Own, Act(2, Helping), None),
        U(Sync2, false, Help(1), Switching(Sync1, {}, 2, 2, Leaving), Some(1)), Sync2, -1, 1, {2}, Some(2))
  const S20: State :=
    Two(U(Sync2, false, Own, Release(2), None), U(Sync2, false, Help(1), Switching(Sync1, {}, 2, 2, Leaving), None),
        Sync2, -2, 1, {}, Some(2))
  const S21: State :=
    Two(U(Sync2, false, Own, Idle, None), U(Sync2, false, Open, Switching(Sync1, {}, 2, 2, Leaving), None),
        Sync2, -2, 1, {}, Some(2))
  const S22: State := Two(U(Sync2, false, Own, Idle, None), U(Sync2, false, Open, Idle, None), Sync2, 0, 1, {}, None)

  lemma SmallSets()
    ensures {1, 2} - {1} == {2} && {2} - {2} == {} && {1} + {2} == {1, 2} && {1, 2} - {2} == {1} && {1} - {1} == {}
    ensures forall a: Unit, b: Unit {:trigger map[1 := a, 2 := b]} :: map[1 := a, 2 := b].Keys == {1, 2}
    ensures forall a: Unit, b: Unit, c: Unit {:trigger map[1 := a, 2 := b][1 := c]} ::
            map[1 := a, 2 := b][1 := c] == map[1 := c, 2 := b]
    ensures forall a: Unit, b: Unit, c: Unit {:trigger map[1 := a, 2 := b][2 := c]} ::
            map[1 := a, 2 := b][2 := c] == map[1 := a, 2 := c]
  {
  }

  /** A run may be continued by any step from its last state. */
  lemma Extend(ss: seq<State>, ls: seq<Step>, l: Step, s': State) returns (ss': seq<State>, ls': seq<Step>)
    requires IsRun(ss, ls) && Next(ss[|ls|], l, s')
    ensures IsRun(ss', ls') && ss'[|ls'|] == s'
  {
    hide Next;
    ss', ls' := ss + [s'], ls + [l];
  }

  lemma Steps2(ss: seq<State>, ls: seq<Step>) returns (ss': seq<State>, ls': seq<Step>)
    requires IsRun(ss, ls) && ss[|ls|] == S2
    ensures IsRun(ss', ls') && ss'[|ls'|] == S6
  {
    SmallSets();
    ss', ls' := ss, ls;
    ss', ls' := Extend(ss', ls', Leave(2), S3);
    ss', ls' := Extend(ss', ls', Start(1, true), S4);
    ss', ls' := Extend(ss', ls', GlobalPhase(1), S5);
    ss', ls' := Extend(ss', ls', SwitchOne(1, 1, false), S6);
  }

  lemma Steps6(ss: seq<State>, ls: seq<Step>) returns (ss': seq<State>, ls': seq<Step>)
    requires IsRun(ss, ls) && ss[|ls|] == S6
    ensures IsRun(ss', ls') && ss'[|ls'|] == S10
  {
    SmallSets();
    ss', ls' := ss, ls;
    ss', ls' := Extend(ss', ls', SwitchOne(1, 2, false), S7);
    ss', ls' := Extend(ss', ls', AddCount(1), S8);
    ss', ls' := Extend(ss', ls', RejoinOwn(1), S9);
    ss', ls' := Extend(ss', ls', Answer(1), S10);
  }

  lemma Steps10(ss: seq<State>, ls: seq<Step>) returns (ss': seq<State>, ls': seq<Step>)
    requires IsRun(ss, ls) && ss[|ls|] == S10
    ensures IsRun(ss', ls') && ss'[|ls'|] == S14
  {
    SmallSets();
    ss', ls' := ss, ls;
    ss', ls' := Extend(ss', ls', Enter(2), S11);
    ss', ls' := Extend(ss', ls', Leave(2), S12);
    ss', ls' := Extend(ss', ls', Answer(2), S13);
    ss', ls' := Extend(ss', ls', GlobalPhase(2), S14);
  }

  lemma Steps14(ss: seq<State>, ls: seq<Step>) returns (ss': seq<State>, ls': seq<Step>)
    requires IsRun(ss, ls) && ss[|ls|] == S14
    ensures IsRun(ss', ls') && ss'[|ls'|] == S18
  {
    SmallSets();
    ss', ls' := ss, ls;
    ss', ls' := Extend(ss', ls', SwitchOne(2, 1, false), S15);
    ss', ls' := Extend(ss', ls', SwitchOne(2, 2, false), S16);
    ss', ls' := Extend(ss', ls', Check(1), S17);
    ss', ls' := Extend(ss', ls', Answer(1), S18);
  }

  lemma Steps18(ss: seq<State>, ls: seq<Step>) returns (ss': seq<State>, ls': seq<Step>)
    requires IsRun(ss, ls) && ss[|ls|] == S18
    ensures IsRun(ss', ls') && ss'[|ls'|] == S20
  {
    SmallSets();
    ss', ls' := ss, ls;
    ss', ls' := Extend(ss', ls', HelpOther(1, 2), S19);
    ss', ls' := Extend(ss', ls', Answer(1), S20);
  }

  lemma Steps20(ss: seq<State>, ls: seq<Step>) returns (ss': seq<State>, ls': seq<Step>)
    requires IsRun(ss, ls) && ss[|ls|] == S20
    ensures IsRun(ss', ls') && ss'[|ls'|] == S22
  {
    SmallSets();
    ss', ls' := ss, ls;
    ss', ls' := Extend(ss', ls', ReleaseOther(1), S21);
    ss', ls' := Extend(ss', ls', AddCount(2), S22);
  }

  /** The stall does happen: worker 2 leaves as the last to answer SYNC1, switches both workers to PRESYNC2, and before
      it adds 2 to the counter worker 1 answers for itself and then helps worker 2. */
  lemma LateAddStalls() returns (ss: seq<State>, ls: seq<Step>)
    ensures IsRun(ss, ls) && Stalled(ss[|ls|])
  {
    var s1 := State(map[1 := U(Async, false, Own, Idle, None)], Async, 0, 0, {1}, {}, None);
    ss, ls := Extend([INIT], [], Register(1), s1);
    ss, ls := Extend(ss, ls, Register(2), S2);
    ss, ls := Steps2(ss, ls);
    ss, ls := Steps6(ss, ls);
    ss, ls := Steps10(ss, ls);
    ss, ls := Steps14(ss, ls);
    ss, ls := Steps18(ss, ls);
    ss, ls := Steps20(ss, ls);
    RunKeepsInv(ss, ls, |ls|);
  }
}
