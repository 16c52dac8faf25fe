/**
 The phases of a worker and the byte they are packed into.

 Four signals go round: ASYNC, SYNC1, SYNC2, MARK.  A worker has either only been sent a signal (the PRE
 form of the phase) or has accepted it.  The runtime packs the phase into the low three bits of `state`,
 next to the bits that say who holds the worker, and moves between phases with one XOR or one OR.
 */
module Phases {

  /** Workers and threads go by the same names: each worker context is created by one worker thread. */
  type Worker = int

  datatype Signal = Async | Sync1 | Sync2 | Mark

  /** Who holds a worker: nobody (INACTIVE), its own thread (ACTIVE), or another thread (ACTIVE with HELPER). */
  datatype Lock = Open | Own | Help(helper: Worker)

  /** A worker context: the last signal sent, whether it is still pending, who holds it, and CANCELED_FLAG. */
  datatype Ctx = Ctx(sig: Signal, pre: bool, lock: Lock, canceled: bool)

  /** The signal may be followed by `next`; MARK follows MARK when tracing has to be repeated. */
  predicate Follows(sig: Signal, next: Signal) {
    match sig
    case Async => next == Sync1
    case Sync1 => next == Sync2
    case Sync2 => next == Mark
    case Mark => next == Mark || next == Async
  }

  const INACTIVE_STATE: bv8 := 0x10
  const HELPER_STATE: bv8 := 0x20
  const PHASE_MASK: bv8 := 0x07

  /** The enum constants PREASYNC = 0 up to MARK = 7. */
  function PhaseCode(sig: Signal, pre: bool): bv8 {
    var code: bv8 := match sig case Async => 0 case Sync1 => 2 case Sync2 => 4 case Mark => 6;
    if pre then code else code + 1
  }

  function LockCode(lock: Lock): bv8 {
    match lock
    case Open => INACTIVE_STATE
    case Own => 0
    case Help(_) => HELPER_STATE
  }

  /** The byte stored in `worker->state`. */
  function StateByte(c: Ctx): bv8 {
    PhaseCode(c.sig, c.pre) | LockCode(c.lock)
  }

  /** The byte determines phase and lock, up to the name of the helper. */
  lemma StateByteIsInjective(c: Ctx, d: Ctx)
    requires StateByte(c) == StateByte(d)
    ensures c.sig == d.sig && c.pre == d.pre && c.lock.Open? == d.lock.Open? && c.lock.Own? == d.lock.Own?
  {
    var x := PhaseCode(c.sig, c.pre);
    var y := PhaseCode(d.sig, d.pre);
    assert x == StateByte(c) & 0x07;
    assert y == StateByte(d) & 0x07;
  }

  /** XOR with old ^ new replaces the phase and leaves the lock bits alone, whoever holds the worker. */
  lemma XorSwitchesThePhase(c: Ctx, next: Signal)
    requires !c.pre
    ensures StateByte(c) ^ (PhaseCode(c.sig, false) ^ PhaseCode(next, true)) == StateByte(c.(sig := next, pre := true))
  {
  }

  /** OR with INACTIVE_STATE | 1, which is 0x11, opens the worker and accepts a pending signal in one operation. */
  lemma OrLeavesAndAccepts(c: Ctx)
    requires c.lock == Own
    ensures StateByte(c) | 0x11 == StateByte(c.(lock := Open, pre := false))
  {
  }

  /** What the helper writes when its release fails, `old_state | 1`, accepts the signal and keeps the lock. */
  lemma OrAcceptsForTheHelper(c: Ctx)
    requires c.lock.Help?
    ensures StateByte(c) | 1 == StateByte(c.(pre := false))
    ensures StateByte(c.(pre := false)) ^ 0x30 == StateByte(c.(pre := false, lock := Open))
  {
  }

  /** Dropping INACTIVE_STATE is what acquiring an open worker does; the phase stays. */
  lemma AndAcquires(c: Ctx)
    requires c.lock == Open
    ensures StateByte(c) & 0xEF == StateByte(c.(lock := Own))
  {
  }

  /** The test of help_inactive, `state == INACTIVE(state & ~1)`, finds the open workers with a pending signal. */
  lemma HelpTest(c: Ctx)
    ensures StateByte(c) == ((StateByte(c) & 0xFE) | 0x10) <==> c.lock == Open && c.pre
  {
  }
}
