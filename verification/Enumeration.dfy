/**
 The enumeration of the users' stacks.  What this module proves does not depend on the heap, so of the steps that the
 collector does not withstand only one matters here: a thread that takes a stack for enumerated which has not been.
 */
module Enumeration {
  import opened Phases
  import opened Marking
  import opened Collector
  import opened Invariant
  import opened Safety

  /** The stages, the users and the threads fit together. */
  ghost predicate People(s: State) {
    EnvOk(s.env) && UsersOk(s.env, s.task, s.users) && TasksOk(s.env, s.users, s.task)
  }

  // ---------------------------------------------------------------- steps

  lemma OneUser(s: State, u: Uid, x: User, s': State)
    requires People(s) && u in s.users && s'.env == s.env && s'.users == s.users[u := x] && s'.task == s.task
    requires x.home == s.users[u].home && UserOk(s.env, s.task, u, x)
    ensures People(s')
  {
    hide UserOk;
    forall v <- s.task ensures TaskOk(s.env, s'.users, v, s.task[v]) {
      assert TaskOk(s.env, s.users, v, s.task[v]);
    }
  }

  lemma CollectorKeepsPeople(s: State, l: Step, s': State)
    requires People(s) && CollectorStep(s, l, s')
    ensures People(s')
  {
    match l {
      case WalkLock(w, u) => assert UserOk(s.env, s.task, u, s.users[u]); OneUser(s, u, s'.users[u], s');
      case WalkRoot(u, p) => assert UserOk(s.env, s.task, u, s.users[u]); OneUser(s, u, s'.users[u], s');
      case WalkDone(u) => assert UserOk(s.env, s.task, u, s.users[u]); OneUser(s, u, s'.users[u], s');
      case _ =>
    }
  }

  lemma MLKeepsPeople(s: State, l: Step, s': State)
    requires People(s) && MLStep(s, l, s')
    ensures People(s')
  {
    var u := s.task[l.w].u;
    assert UserOk(s.env, s.task, u, s.users[u]);
    RunningIsUnlocked(s, l.w);
    OneUser(s, u, s'.users[u], s');
  }

  lemma WriteKeepsPeople(s: State, l: Step, s': State)
    requires People(s) && WriteStep(s, l, s')
    ensures People(s')
  {
    var u := s.task[l.w].u;
    assert UserOk(s.env, s.task, u, s.users[u]) && TaskOk(s.env, s.users, l.w, s.task[l.w]);
    RunningIsUnlocked(s, l.w);
    WriteShape(s, l, s');
    hide WriteStep;
    OneTask(s, l.w, s'.task[l.w], s.users[u], s');
  }

  lemma WriteShape(s: State, l: Step, s': State)
    requires WriteStep(s, l, s')
    ensures l.w in s.task && l.w in s'.task && s'.users == s.users && s'.env == s.env
    ensures s'.task == s.task[l.w := s'.task[l.w]] && s'.task[l.w].u == s.task[l.w].u && Ready(s, l.w)
    ensures !s.task[l.w].Entering? && !s'.task[l.w].Entering?
  {
    hide Visit, Take, SetField, HasPending;
  }

  lemma QuitOrEndKeepsPeople(s: State, l: Step, s': State)
    requires People(s) && UserStep(s, l, s') && (l.Quit? || l.EndUser?)
    ensures People(s')
  {
    forall v <- s'.users ensures UserOk(s.env, s'.task, v, s'.users[v]) { assert UserOk(s.env, s.task, v, s.users[v]); }
    forall v <- s'.task ensures TaskOk(s.env, s'.users, v, s'.task[v]) { assert TaskOk(s.env, s.users, v, s.task[v]); }
  }

  lemma MigrationKeepsPeople(s: State, l: Step, s': State)
    requires People(s) && UserStep(s, l, s') && !Skips(s, l)
             && (l.SeeBusy? || l.Spurious? || l.Move? || l.LockUser? || l.Publish?)
    ensures People(s')
  {
    var u := s.task[l.w].u;
    assert UserOk(s.env, s.task, u, s.users[u]) && TaskOk(s.env, s.users, l.w, s.task[l.w]);
    if l.Move? { LockFreeMoveFindsNoWalk(s, l.w); }
    if l.LockUser? { OneUser(s, u, s'.users[u], s'); }
    else { OneTask(s, l.w, s'.task[l.w], s'.users[u], s'); }
  }

  /** A thread without a task gets one. */
  lemma ComingKeepsPeople(s: State, l: Step, s': State)
    requires People(s) && UserStep(s, l, s') && (l.StartUser? || l.Resume? || l.Arrive?)
    ensures People(s')
  {
    var u := s'.task[l.w].u;
    if !l.StartUser? { assert UserOk(s.env, s.task, u, s.users[u]); }
    OneTask(s, l.w, s'.task[l.w], s'.users[u], s');
  }

  lemma UserKeepsPeople(s: State, l: Step, s': State)
    requires People(s) && UserStep(s, l, s') && !Skips(s, l)
    ensures People(s')
  {
    UserStepKinds(s, l, s');
    hide People, Skips, UserStep;
    if l.StartUser? || l.Resume? || l.Arrive? { ComingKeepsPeople(s, l, s'); }
    else if l.Quit? || l.EndUser? { QuitOrEndKeepsPeople(s, l, s'); }
    else { MigrationKeepsPeople(s, l, s'); }
  }

  // ---------------------------------------------------------------- handshakes

  lemma ShakeKeepsEnv(e: Env, l: EnvStep, e': Env)
    requires EnvOk(e) && EnvNext(e, l, e')
    ensures EnvOk(e')
  {
  }

  lemma ShakeKeepsUser(s: State, l: EnvStep, s': State, u: Uid)
    requires EnvOk(s.env) && EnvEffect(s, l, s') && u in s.users && UserOk(s.env, s.task, u, s.users[u])
    requires TasksOk(s.env, s.users, s.task)
    ensures u in s'.users && UserOk(s'.env, s'.task, u, s'.users[u])
  {
    var k := s.users[u].walk;
    if !k.NoWalk? && k.who in s.task { assert TaskOk(s.env, s.users, k.who, s.task[k.who]); }
  }

  lemma ShakeKeepsTask(s: State, l: EnvStep, s': State, w: Worker)
    requires EnvOk(s.env) && EnvEffect(s, l, s') && w in s.task && TaskOk(s.env, s.users, w, s.task[w])
    requires UsersOk(s.env, s.task, s.users)
    ensures w in s'.task && TaskOk(s'.env, s'.users, w, s'.task[w])
  {
    assert UserOk(s.env, s.task, s.task[w].u, s.users[s.task[w].u]);
  }

  lemma ShakeKeepsPeople(s: State, l: EnvStep, s': State)
    requires People(s) && EnvEffect(s, l, s')
    ensures People(s')
  {
    ShakeKeepsEnv(s.env, l, s'.env);
    forall u <- s.users ensures u in s'.users && UserOk(s'.env, s'.task, u, s'.users[u]) {
      ShakeKeepsUser(s, l, s', u);
    }
    forall w <- s.task ensures w in s'.task && TaskOk(s'.env, s'.users, w, s'.task[w]) { ShakeKeepsTask(s, l, s', w); }
    hide UserOk, TaskOk, EnvNext, MayShake, EnvOk;
  }

  /** A step keeps the people in order exactly when it skips no stack; writes are no matter here. */
  lemma PeopleKeptUnlessSkipped(s: State, l: Step, s': State)
    requires People(s) && Next(s, l, s')
    ensures People(s') <==> !Skips(s, l)
  {
    if Skips(s, l) {
      OnlyUser(s, l, s');
      SkipBreaksInv(s, l, s');
    } else {
      hide People, EnvEffect, CollectorStep, UserStep, MLStep, WriteStep, Skips;
      if l.Shake? { ShakeKeepsPeople(s, l.e, s'); }
      else if CollectorStep(s, l, s') { CollectorKeepsPeople(s, l, s'); }
      else if UserStep(s, l, s') { UserKeepsPeople(s, l, s'); }
      else if MLStep(s, l, s') { MLKeepsPeople(s, l, s'); }
      else { WriteKeepsPeople(s, l, s'); }
    }
  }

  /** The first n steps skip no stack. */
  predicate NoneSkips(ss: seq<State>, ls: seq<Step>, n: nat)
    requires |ss| > |ls| >= n
  {
    forall i :: 0 <= i < n ==> !Skips(ss[i], ls[i])
  }

  lemma {:induction false} RunKeepsPeople(ss: seq<State>, ls: seq<Step>, i: nat)
    requires IsRun(ss, ls) && i < |ss| && NoneSkips(ss, ls, i)
    ensures People(ss[i])
  {
    hide Next, Skips;
    if i > 0 {
      hide People, Init;
      RunKeepsPeople(ss, ls, i - 1);
      PeopleKeptUnlessSkipped(ss[i - 1], ls[i - 1], ss[i]);
    }
  }

  // ---------------------------------------------------------------- who enumerates

  /** This step ends an enumeration of u's whole stack, by the worker u belongs to or by the thread that moves u. */
  ghost predicate Enumerates(s: State, l: Step, u: Uid) {
    u in s.users && s.users[u].walk.Walk? && s.users[u].walk.todo == {}
    && (l == WalkDone(u) || (l.Publish? && l.w in s.task && s.task[l.w].u == u && s.users[u].walk.who == l.w))
  }

  /** Only a complete enumeration settles a user. */
  lemma SettledByEnumeration(s: State, l: Step, s': State, u: Uid)
    requires People(s) && Next(s, l, s') && u in s.users && u in s'.users && !s.users[u].settled && s'.users[u].settled
    ensures Enumerates(s, l, u)
  {
    assert UserOk(s.env, s.task, u, s.users[u]);
    hide People, Enumerates, EnvEffect, CollectorStep, UserStep, MLStep, WriteStep;
    if l.Shake? {
      ShakeSettlesNobody(s, l.e, s', u);
    } else if CollectorStep(s, l, s') {
      CollectorSettles(s, l, s', u);
    } else if UserStep(s, l, s') {
      UserSettles(s, l, s', u);
    } else if MLStep(s, l, s') {
      MLSettlesNobody(s, l, s', u);
    } else {
      WriteShape(s, l, s');
    }
  }

  lemma ShakeSettlesNobody(s: State, e: EnvStep, s': State, u: Uid)
    requires EnvEffect(s, e, s') && u in s.users
    ensures u in s'.users && (s'.users[u].settled ==> s.users[u].settled)
  {
    hide EnvNext, MayShake, Restart, Unswept;
  }

  lemma CollectorSettles(s: State, l: Step, s': State, u: Uid)
    requires CollectorStep(s, l, s') && u in s.users && u in s'.users && !s.users[u].settled && s'.users[u].settled
    ensures Enumerates(s, l, u)
  {
    hide HasRemembered, Visit, Relink, Take, Sweep;
  }

  lemma UserSettles(s: State, l: Step, s': State, u: Uid)
    requires UserStep(s, l, s') && u in s.users && u in s'.users && !s.users[u].settled && s'.users[u].settled
    requires UserOk(s.env, s.task, u, s.users[u])
    ensures Enumerates(s, l, u)
  {
    if l.Publish? { assert s.task[l.w].u == u; }
  }

  lemma MLSettlesNobody(s: State, l: Step, s': State, u: Uid)
    requires MLStep(s, l, s') && u in s.users
    ensures u in s'.users && s'.users[u].settled == s.users[u].settled
  {
  }

  lemma {:induction false} SettledSomewhere(ss: seq<State>, ls: seq<Step>, i: nat, j: nat, u: Uid) returns (n: nat)
    requires IsRun(ss, ls) && i <= j < |ss| && NoneSkips(ss, ls, j) && (forall m :: i <= m <= j ==> u in ss[m].users)
    requires !ss[i].users[u].settled && ss[j].users[u].settled
    ensures i <= n < j && Enumerates(ss[n], ls[n], u)
  {
    hide People, Next, Init, Enumerates, Skips;
    assert Next(ss[j - 1], ls[j - 1], ss[j]);
    if ss[j - 1].users[u].settled {
      n := SettledSomewhere(ss, ls, i, j - 1, u);
    } else {
      n := j - 1;
      RunKeepsPeople(ss, ls, n);
      SettledByEnumeration(ss[n], ls[n], ss[j], u);
    }
  }

  /** However users migrate: a user that lives through SYNC2 has its stack enumerated completely after all workers have
      passed SYNC1 and before any worker is sent MARK. */
  lemma EveryStackIsEnumerated(ss: seq<State>, ls: seq<Step>, i: nat, j: nat, u: Uid) returns (n: nat)
    requires IsRun(ss, ls) && i < j < |ls| && NoneSkips(ss, ls, j + 1) && ls[i] == Shake(Sync2Begins)
             && ls[j] == Shake(MarkBegins)
    requires forall m :: i <= m <= j ==> u in ss[m].users
    ensures i < n < j && Enumerates(ss[n], ls[n], u)
  {
    RunKeepsPeople(ss, ls, i);
    RunKeepsPeople(ss, ls, j);
    RunKeepsPeople(ss, ls, j + 1);
    assert Next(ss[i], ls[i], ss[i + 1]) && Next(ss[j], ls[j], ss[j + 1]);
    assert UserOk(ss[i].env, ss[i].task, u, ss[i].users[u])
           && UserOk(ss[j + 1].env, ss[j + 1].task, u, ss[j + 1].users[u]);
    n := SettledSomewhere(ss, ls, i + 1, j, u);
  }

  /** In every state of a run that skips no stack: the stack of a user is walked by one thread at a time, a user that
      runs ML code is not walked at all, and a thread that moves a user without the lock finds no stack being walked. */
  lemma WalksDoNotMeet(ss: seq<State>, ls: seq<Step>, i: nat, w: Worker)
    requires IsRun(ss, ls) && i < |ss| && NoneSkips(ss, ls, i) && w in ss[i].task && ss[i].task[w].u in ss[i].users
    ensures Runs(ss[i], w) || Writes(ss[i], w) ==> ss[i].users[ss[i].task[w].u].walk == NoWalk
    ensures Moves(ss[i], w) && ss[i].task[w].when.Outside? ==>
              ss[i].users[ss[i].task[w].u].walk == NoWalk
              && forall v <- ss[i].env.stage :: ss[i].env.stage[v] != Rooting
  {
    RunKeepsPeople(ss, ls, i);
    if Runs(ss[i], w) || Writes(ss[i], w) { RunningIsUnlocked(ss[i], w); }
    if Moves(ss[i], w) && ss[i].task[w].when.Outside? { LockFreeMoveFindsNoWalk(ss[i], w); }
  }

  // ---------------------------------------------------------------- what a lock found taken is worth

  /** The weak compare-and-swap of acquire_bit fails although the lock is free, in a thread in SYNC2, on a user whose
      stack has not been enumerated. */
  predicate Misleads(s: State, l: Step) {
    l.Spurious? && Moves(s, l.w) && s.task[l.w].when.After? && !s.users[s.task[l.w].u].settled
  }

  /** Its stack has been enumerated, or the worker it belongs to is at it. */
  predicate InGoodHands(x: User) { x.settled || (x.walk.Walk? && x.walk.who == x.home) }

  /** What a thread in SYNC2 concludes from finding the lock taken: the stack has been enumerated or is being so. */
  ghost predicate Believes(s: State) {
    forall w <- s.task :: s.task[w].Entering? && s.task[w].waited && s.task[w].when.After? ==>
      s.task[w].u in s.users
      && InGoodHands(s.users[s.task[w].u])
  }

  /** Only a spurious failure misleads it. */
  lemma BeliefStays(s: State, l: Step, s': State)
    requires People(s) && Believes(s) && Next(s, l, s') && !Misleads(s, l)
    ensures Believes(s')
  {
    hide People, EnvEffect, CollectorStep, UserStep, MLStep, WriteStep, Misleads;
    if l.Shake? { ShakeKeepsBelief(s, l.e, s'); }
    else if CollectorStep(s, l, s') { CollectorKeepsBelief(s, l, s'); }
    else if UserStep(s, l, s') { UserKeepsBelief(s, l, s'); }
    else if MLStep(s, l, s') { MLKeepsBelief(s, l, s'); }
    else { WriteShape(s, l, s'); }
  }

  lemma ShakeKeepsBelief(s: State, e: EnvStep, s': State)
    requires People(s) && Believes(s) && EnvEffect(s, e, s')
    ensures Believes(s')
  {
    if e.OpenGc? {
      forall w <- s.task | s.task[w].Entering? ensures !s.task[w].when.After? {
        assert TaskOk(s.env, s.users, w, s.task[w]) && StageFits(s.env.epoch, s.env.stage[w]);
      }
    }
    hide EnvNext, MayShake, Restart, Unswept, People;
  }

  lemma CollectorKeepsTasks(s: State, l: Step, s': State)
    requires CollectorStep(s, l, s')
    ensures s'.task == s.task
  {
    hide HasRemembered, Visit, Relink, Take, Sweep;
  }

  lemma CollectorKeepsUser(s: State, l: Step, s': State, u: Uid)
    requires CollectorStep(s, l, s') && u in s.users
    ensures u in s'.users && (InGoodHands(s.users[u]) ==> InGoodHands(s'.users[u]))
  {
    hide HasRemembered, Visit, Relink, Take, Sweep;
  }

  lemma CollectorKeepsBelief(s: State, l: Step, s': State)
    requires Believes(s) && CollectorStep(s, l, s')
    ensures Believes(s')
  {
    hide CollectorStep, InGoodHands;
    CollectorKeepsTasks(s, l, s');
    forall u <- s.users ensures u in s'.users && (InGoodHands(s.users[u]) ==> InGoodHands(s'.users[u])) {
      CollectorKeepsUser(s, l, s', u);
    }
  }

  lemma UserKeepsBelief(s: State, l: Step, s': State)
    requires People(s) && Believes(s) && UserStep(s, l, s') && !Misleads(s, l)
    ensures Believes(s')
  {
    forall w <- s'.task | s'.task[w].Entering? && s'.task[w].waited && s'.task[w].when.After?
      ensures s'.task[w].u in s'.users
              && InGoodHands(s'.users[s'.task[w].u])
    {
      if w in s.task && s'.task[w] == s.task[w] { OthersBelieve(s, l, s', w); } else { WaitersBelieve(s, l, s', w); }
    }
  }

  /** A thread that has waited before. */
  lemma OthersBelieve(s: State, l: Step, s': State, w: Worker)
    requires People(s) && Believes(s) && UserStep(s, l, s') && w in s.task && w in s'.task && s'.task[w] == s.task[w]
    requires s.task[w].Entering? && s.task[w].waited && s.task[w].when.After?
    ensures s.task[w].u in s'.users
            && InGoodHands(s'.users[s.task[w].u])
  {
    assert TaskOk(s.env, s.users, w, s.task[w]);
    hide UserOk, EnvOk;
  }

  /** A thread that finds the lock taken, or free and fails to take it. */
  lemma WaitersBelieve(s: State, l: Step, s': State, w: Worker)
    requires People(s) && UserStep(s, l, s') && !Misleads(s, l)
    requires w in s'.task && (w !in s.task || s'.task[w] != s.task[w])
    requires s'.task[w].Entering? && s'.task[w].waited && s'.task[w].when.After?
    ensures s'.task[w].u in s'.users
            && InGoodHands(s'.users[s'.task[w].u])
  {
    assert l.SeeBusy? || l.Spurious?;
    assert l.w == w;
    var u := s.task[w].u;
    assert UserOk(s.env, s.task, u, s.users[u]);
  }

  lemma MLKeepsBelief(s: State, l: Step, s': State)
    requires Believes(s) && MLStep(s, l, s')
    ensures Believes(s')
  {
  }

  /** No thread is misled in the first n steps. */
  predicate NoneMisleads(ss: seq<State>, ls: seq<Step>, n: nat)
    requires |ss| > |ls| >= n
  {
    forall i :: 0 <= i < n ==> !Misleads(ss[i], ls[i])
  }

  lemma BelieversDoNotSkip(s: State, l: Step, s': State)
    requires Believes(s) && Next(s, l, s')
    ensures !Skips(s, l)
  {
    hide CollectorStep, MLStep, WriteStep, EnvEffect;
    if l.LockUser? { OnlyUser(s, l, s'); }
  }

  /** What sml_enter concludes from a lock that it finds taken is right: no stack is skipped in a run in which no
      compare-and-swap fails for no reason in SYNC2 on a user whose stack has not been enumerated. */
  lemma {:induction false} NobodyMisledNobodySkips(ss: seq<State>, ls: seq<Step>, n: nat)
    requires IsRun(ss, ls) && n <= |ls| && NoneMisleads(ss, ls, n)
    ensures NoneSkips(ss, ls, n) && Believes(ss[n])
  {
    hide Next, Skips, Misleads;
    if n > 0 {
      NobodyMisledNobodySkips(ss, ls, n - 1);
      RunKeepsPeople(ss, ls, n - 1);
      hide People, Believes, Init;
      assert Next(ss[n - 1], ls[n - 1], ss[n]);
      BelieversDoNotSkip(ss[n - 1], ls[n - 1], ss[n]);
      BeliefStays(ss[n - 1], ls[n - 1], ss[n]);
    }
  }
}
