/** Invariants of whole runs: any operations in any order, crashes and restarts included. */
module Runs {
  import opened EngineSpec
  import opened Steps
  import opened Backing
  import opened Restart

  lemma NewEngineInv()
    ensures Inv(NEW_ENGINE) && BooksReplay(NEW_ENGINE) && ClosedAgree(NEW_ENGINE)
    ensures NoneCrossed(NEW_ENGINE) && Housed(NEW_ENGINE)
  {
    EmptyWorkingOk();
  }

  lemma StepKeepsHoused(v: EngineView, op: Op, world: World)
    requires Housed(v) && !op.OpRestart?
    ensures Housed(Step(v, op, world).0)
  {
    if op.OpCancelAll? {
      ForceCancelsBooks(v, AcceptedIn(v.log, op.marketId), world);
    }
  }

  lemma AdminStepKeeps(v: EngineView, op: Op, world: World)
    requires Inv(v) && !op.OpSubmit? && !op.OpCancel? && !op.OpRestart?
    ensures var r := Step(v, op, world);
            && Inv(r.0) && !Panics(r.1) && (!op.OpCancelAll? && BooksSynced(v) ==> BooksSynced(r.0))
            && (BooksHold(v) ==> BooksHold(r.0)) && (ClosedAgree(v) ==> ClosedAgree(r.0))
  {
    match op
    case OpPause(m, who) => PauseKeeps(v, m, who, world);
    case OpResume(m, who) => ResumeKeeps(v, m, who, world);
    case OpCancelAll(m) => CancelAllKeeps(v, m, world);
    case OpAddMarket(config) => AddMarketKeeps(v, config);
  }

  /**
   * One operation: the engine still agrees with its log, and panics only for want of a book. Statuses stay in
   * step unless orders are cancelled by force, and open orders stay in their books unless it panics.
   */
  lemma StepKeeps(v: EngineView, op: Op, world: World)
    requires Inv(v) && Fresh(v, op)
    ensures var r := Step(v, op, world);
            && Inv(r.0) && (Panics(r.1) ==> !Housed(v)) && (Housed(v) && !op.OpRestart? ==> Housed(r.0))
            && (!op.OpCancelAll? && BooksSynced(v) ==> BooksSynced(r.0))
            && (!Panics(r.1) && BooksHold(v) ==> BooksHold(r.0))
  {
    if Housed(v) && !op.OpRestart? { StepKeepsHoused(v, op, world); }
    if op.OpSubmit? {
      SubmitKeeps(v, op.signed, op.nowMs, op.freshId, world);
    } else if op.OpCancel? {
      CancelKeeps(v, op.orderId, op.traderId, world);
    } else if op.OpRestart? {
      RestartKeeps(v);
    } else {
      AdminStepKeeps(v, op, world);
    }
  }

  /** No operation, crashes and restarts included, makes book and log disagree on what is closed. */
  lemma StepAgrees(v: EngineView, op: Op, world: World)
    requires Inv(v) && ClosedAgree(v) && Fresh(v, op)
    ensures Inv(Step(v, op, world).0) && ClosedAgree(Step(v, op, world).0)
  {
    if op.OpSubmit? {
      SubmitAgrees(v, op.signed, op.nowMs, op.freshId, world);
    } else if op.OpCancel? {
      CancelAgrees(v, op.orderId, op.traderId, world);
    } else if op.OpRestart? {
      RestartKeeps(v);
    } else {
      AdminStepKeeps(v, op, world);
    }
  }

  /** A restart finds a log whose open orders do not cross. */
  ghost predicate CleanRestart(v: EngineView, op: Op)
    requires Inv(v)
  {
    op.OpRestart? ==> LogUncrossed(WorkingOf(v).orders)
  }

  /** No operation crosses a book, save a restart from a crossed log. */
  lemma StepUncrossed(v: EngineView, op: Op, world: World)
    requires Inv(v) && NoneCrossed(v) && CleanRestart(v, op)
    ensures NoneCrossed(Step(v, op, world).0)
  {
    if op.OpSubmit? {
      SubmitUncrossed(v, op.signed, op.nowMs, op.freshId, world);
    } else if op.OpCancel? {
      CancelUncrossed(v, op.orderId, op.traderId, world);
    } else if op.OpRestart? {
      RestartUncrossed(v);
    } else {
      AdminUncrossed(v, op, world);
    }
  }

  // ---- Runs ------------------------------------------------------------------------------------

  /** An engine that agrees with its log, and any run from it that generates new ids. */
  ghost predicate CanRun(v: EngineView, ops: seq<Op>, world: World) {
    Inv(v) && ClosedAgree(v) && FreshIds(v, ops, world)
  }

  /** The first step of a run leaves an engine that can run the rest. */
  lemma FirstStep(v: EngineView, ops: seq<Op>, world: World)
    requires CanRun(v, ops, world) && ops != []
    ensures CanRun(Step(v, ops[0], world).0, ops[1..], world)
    ensures Fresh(v, ops[0])
  {
    StepAgrees(v, ops[0], world);
  }

  /** An engine whose markets all have books never panics while it is not restarted. */
  lemma {:induction false} HousedRun(v: EngineView, ops: seq<Op>, world: World)
    requires CanRun(v, ops, world) && Housed(v) && NoRestart(ops)
    ensures NoCrash(v, ops, world) && Housed(Run(v, ops, world))
    decreases |ops|
  {
    if ops == [] {
    } else {
      assert ops[0] in ops && forall op :: op in ops[1..] ==> op in ops;
      FirstStep(v, ops, world);
      StepKeeps(v, ops[0], world);
      HousedRun(Step(v, ops[0], world).0, ops[1..], world);
    }
  }

  /** Every run from an engine that agrees with its log ends in one that does. */
  lemma {:induction false} RunKeeps(v: EngineView, ops: seq<Op>, world: World)
    requires CanRun(v, ops, world)
    ensures Inv(Run(v, ops, world)) && ClosedAgree(Run(v, ops, world))
    ensures NoForce(ops) && BooksSynced(v) ==> BooksSynced(Run(v, ops, world))
    ensures NoCrash(v, ops, world) && BooksHold(v) ==> BooksHold(Run(v, ops, world))
    decreases |ops|
  {
    if ops == [] {
    } else {
      FirstStep(v, ops, world);
      StepKeeps(v, ops[0], world);
      RunKeeps(Step(v, ops[0], world).0, ops[1..], world);
      assert NoForce(ops) ==> ops[0] in ops && NoForce(ops[1..]);
    }
  }

  lemma NewCanRun(ops: seq<Op>, world: World)
    requires FreshIds(NEW_ENGINE, ops, world)
    ensures CanRun(NEW_ENGINE, ops, world)
  {
    NewEngineInv();
  }

  // ---- Runs whose restarts are clean --------------------------------------------------------------

  /** Every restart of the run finds a log whose open orders do not cross. */
  ghost predicate CleanRestarts(v: EngineView, ops: seq<Op>, world: World)
    decreases |ops|
  {
    ops == [] ||
    (Inv(v) && CleanRestart(v, ops[0]) && CleanRestarts(Step(v, ops[0], world).0, ops[1..], world))
  }

  /** No book is ever crossed in such a run. */
  lemma {:induction false} RunUncrossed(v: EngineView, ops: seq<Op>, world: World)
    requires CanRun(v, ops, world) && NoneCrossed(v) && CleanRestarts(v, ops, world)
    ensures NoneCrossed(Run(v, ops, world))
    decreases |ops|
  {
    if ops == [] {
    } else {
      FirstStep(v, ops, world);
      StepUncrossed(v, ops[0], world);
      RunUncrossed(Step(v, ops[0], world).0, ops[1..], world);
    }
  }

  /** An engine that has panicked is not restarted from what it logged. */
  ghost predicate NoRestartAfterCrash(v: EngineView, ops: seq<Op>, world: World)
    decreases |ops|
  {
    ops == [] ||
    (var r := Step(v, ops[0], world);
     (Panics(r.1) ==> NoRestart(ops[1..])) && NoRestartAfterCrash(r.0, ops[1..], world))
  }

  /** Without restarts, or with none after a crash, every restart is clean. */
  lemma {:induction false} CleanWithoutCrash(v: EngineView, ops: seq<Op>, world: World)
    requires CanRun(v, ops, world) && NoneCrossed(v) && NoRestartAfterCrash(v, ops, world)
    requires BooksHold(v) || NoRestart(ops)
    ensures CleanRestarts(v, ops, world)
    decreases |ops|
  {
    if ops == [] {
    } else {
      assert ops[0] in ops && forall op :: op in ops[1..] ==> op in ops;
      FirstStep(v, ops, world);
      StepKeeps(v, ops[0], world);
      if ops[0].OpRestart? { BackedUncrossed(v); }
      StepUncrossed(v, ops[0], world);
      CleanWithoutCrash(Step(v, ops[0], world).0, ops[1..], world);
    }
  }
}
