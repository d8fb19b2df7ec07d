/**
 * Request handlers as concurrent steps over one engine, one broadcast channel and one event table:
 * src/api/mod.rs, src/api/rest.rs, src/pg/mod.rs. A handler mutates the engine under its lock, releases it,
 * publishes what was appended, takes a second look at the log, and appends that batch to the table.
 */
module Persist {
  import opened Basics
  import opened Domain
  import opened Replaying
  import opened LegalLogs
  import opened EngineSpec
  import opened Steps
  import opened Restart
  import opened Runs
  import opened LogTheory
  import opened Samples

  type Table = map<nat, SequencedEvent>

  // ---- The table -------------------------------------------------------------------------------

  /** `INSERT ... ON CONFLICT (seq_id) DO NOTHING`, row by row, in one transaction. */
  function InsertAbsent(table: Table, events: seq<SequencedEvent>): Table
    decreases |events|
  {
    if events == [] then table
    else InsertAbsent(if events[0].seqId in table then table else table[events[0].seqId := events[0]], events[1..])
  }

  method AppendEvents(table0: Table, events: seq<SequencedEvent>) returns (table: Table)
    ensures table == InsertAbsent(table0, events)
  {
    table := table0;
    var i := 0;
    while i < |events|
      invariant 0 <= i <= |events|
      invariant InsertAbsent(table0, events) == InsertAbsent(table, events[i..])
    {
      var event := events[i];
      assert events[i..][0] == event && events[i..][1..] == events[i + 1..];
      if event.seqId !in table { table := table[event.seqId := event]; }
      i := i + 1;
    }
  }

  /** `load_all_events`: the rows numbered `from` to `to`, in order. */
  function Rows(table: Table, from: nat, to: nat): seq<SequencedEvent>
    decreases to + 1 - from
  {
    if from > to then []
    else (if from in table then [table[from]] else []) + Rows(table, from + 1, to)
  }

  /** The events after `seqBefore`, as `publish_since` and `persist_since` collect them. */
  function Tail(log: seq<SequencedEvent>, seqBefore: nat): seq<SequencedEvent> {
    if log == [] then [] else
      var last := |log| - 1;
      Tail(log[..last], seqBefore) + (if log[last].seqId > seqBefore then [log[last]] else [])
  }

  lemma {:induction false} TailHas(log: seq<SequencedEvent>, seqBefore: nat)
    ensures forall e :: e in Tail(log, seqBefore) <==> e in log && e.seqId > seqBefore
  {
    if log == [] {
    } else {
      var last := |log| - 1;
      TailHas(log[..last], seqBefore);
      assert log == log[..last] + [log[last]];
    }
  }

  // ---- The protocol ----------------------------------------------------------------------------

  /** Where a handler stands between two of its atomic steps. */
  datatype Phase = Mutated(seqBefore: nat) | Published(seqBefore: nat) | Loaded(batch: seq<SequencedEvent>) | Finished

  datatype System = System(
    engine: EngineView,
    table: Table,
    sent: set<SequencedEvent>,
    handlers: map<nat, Phase>,
    base: nat,
    lostRows: bool,
    lostSends: bool)

  /** `...Missed`: the engine was locked at that instant; `AppendFailed`: the transaction did not commit. */
  datatype Action =
    | Enter(handler: nat, op: Op)
    | Publish(handler: nat)
    | PublishMissed(handler: nat)
    | Load(handler: nat)
    | LoadMissed(handler: nat)
    | Append(handler: nat)
    | AppendFailed(handler: nat)

  /** The engine call returned an error: the handler answers at once and neither publishes nor persists. */
  predicate Errs(outcome: Outcome) {
    match outcome
    case Submitted(s) => s.Rejected?
    case Cancelling(c) => c.CancelNotFound? || c.CancelUnauthorized?
    case Administered(r) => r.Err?
    case Registered => false
    case Restored => false
  }

  ghost predicate Enabled(s: System, a: Action) {
    match a
    case Enter(h, op) => h !in s.handlers && Fresh(s.engine, op) && !op.OpRestart?
    case Publish(h) => h in s.handlers && s.handlers[h].Mutated?
    case PublishMissed(h) => h in s.handlers && s.handlers[h].Mutated?
    case Load(h) => h in s.handlers && s.handlers[h].Published?
    case LoadMissed(h) => h in s.handlers && s.handlers[h].Published?
    case Append(h) => h in s.handlers && s.handlers[h].Loaded?
    case AppendFailed(h) => h in s.handlers && s.handlers[h].Loaded?
  }

  /** `peek_next_seq_id().saturating_sub(1)`. */
  function SeqBefore(v: EngineView): nat {
    if v.nextSeqId == 0 then 0 else v.nextSeqId - 1
  }

  /** The locked part of a handler; a panic kills the handler with whatever it had logged. */
  function Entered(s: System, h: nat, r: (EngineView, Outcome)): System {
    if Panics(r.1) then
      s.(engine := r.0, handlers := s.handlers[h := Finished], lostRows := true, lostSends := true)
    else
      s.(engine := r.0, handlers := s.handlers[h := if Errs(r.1) then Finished else Mutated(SeqBefore(s.engine))])
  }

  ghost function Next(s: System, a: Action, world: World): System
    requires Enabled(s, a)
  {
    match a
    case Enter(h, op) => Entered(s, h, Step(s.engine, op, world))
    case Publish(h) =>
      s.(sent := s.sent + (set e | e in Tail(s.engine.log, s.handlers[h].seqBefore)),
         handlers := s.handlers[h := Published(s.handlers[h].seqBefore)])
    case PublishMissed(h) => s.(handlers := s.handlers[h := Published(s.handlers[h].seqBefore)], lostSends := true)
    case Load(h) => s.(handlers := s.handlers[h := Loaded(Tail(s.engine.log, s.handlers[h].seqBefore))])
    case LoadMissed(h) => s.(handlers := s.handlers[h := Finished], lostRows := true)
    case Append(h) =>
      s.(table := InsertAbsent(s.table, s.handlers[h].batch), handlers := s.handlers[h := Finished])
    case AppendFailed(h) => s.(handlers := s.handlers[h := Finished], lostRows := true)
  }

  ghost predicate Schedule(s: System, actions: seq<Action>, world: World)
    decreases |actions|
  {
    actions == [] || (Enabled(s, actions[0]) && Schedule(Next(s, actions[0], world), actions[1..], world))
  }

  ghost function Execute(s: System, actions: seq<Action>, world: World): System
    requires Schedule(s, actions, world)
    decreases |actions|
  {
    if actions == [] then s else Execute(Next(s, actions[0], world), actions[1..], world)
  }

  // ---- The invariant ---------------------------------------------------------------------------

  ghost predicate InLog(e: SequencedEvent, log: seq<SequencedEvent>) {
    1 <= e.seqId <= |log| && log[e.seqId - 1] == e
  }

  /** Every row holds the logged event of its number. */
  ghost predicate SubTable(table: Table, log: seq<SequencedEvent>) {
    forall n :: n in table ==> InLog(table[n], log) && table[n].seqId == n
  }

  /** The handler still has row `n` to write. */
  ghost predicate OwesRow(p: Phase, n: nat) {
    match p
    case Mutated(seqBefore) => seqBefore < n
    case Published(seqBefore) => seqBefore < n
    case Loaded(batch) => exists e :: e in batch && e.seqId == n
    case Finished => false
  }

  ghost predicate RowCovered(s: System, n: nat) {
    n in s.table || exists h :: h in s.handlers && OwesRow(s.handlers[h], n)
  }

  /** The event was logged before the server opened, has been sent, or is still owed. */
  ghost predicate SendCovered(s: System, e: SequencedEvent) {
    || e.seqId <= s.base || e in s.sent
    || exists h :: h in s.handlers && s.handlers[h].Mutated? && s.handlers[h].seqBefore < e.seqId
  }

  ghost predicate BatchesInLog(s: System) {
    forall h, e :: h in s.handlers && s.handlers[h].Loaded? && e in s.handlers[h].batch ==> InLog(e, s.engine.log)
  }

  ghost predicate SystemOk(s: System) {
    && Inv(s.engine)
    && SubTable(s.table, s.engine.log)
    && (forall e :: e in s.sent ==> InLog(e, s.engine.log))
    && BatchesInLog(s)
    && (!s.lostRows ==> forall n :: 1 <= n <= |s.engine.log| ==> RowCovered(s, n))
    && (!s.lostSends ==> forall e :: e in s.engine.log ==> SendCovered(s, e))
  }

  lemma Numbered(v: EngineView)
    requires Inv(v)
    ensures v.nextSeqId == |v.log| + 1
    ensures forall e :: e in v.log <==> InLog(e, v.log)
    ensures forall i :: 0 <= i < |v.log| ==> v.log[i].seqId == i + 1
  {
    forall i | 0 <= i < |v.log| ensures v.log[i].seqId == i + 1 { LegalAt(v.log, i); }
    forall e | e in v.log ensures InLog(e, v.log) {
      var i :| 0 <= i < |v.log| && v.log[i] == e;
    }
  }

  lemma {:induction false} ForceGrows(v: EngineView, targets: seq<(OrderId, OrderHash)>, world: World)
    ensures v.log <= ForceCancels(v, targets, world).log
    decreases |targets|
  {
    if targets == [] {
    } else {
      ForceGrows(v, targets[..|targets| - 1], world);
    }
  }

  lemma SubmitGrows(v: EngineView, s: SignedOrder, nowMs: nat, freshId: OrderId, world: World)
    ensures v.log <= Submit(v, s, nowMs, freshId, world).0.log
  {
    SubmitCases(v, s, nowMs, freshId, world);
    if Passes(v, s, nowMs, world) {
      var o := NewOrder(s, freshId, v.nextSeqId, nowMs);
      assert v.log <= Admit(v, o, world.wall).log;
    }
  }

  /** The log only ever grows at its end, and not at all on an error. */
  lemma StepGrows(v: EngineView, op: Op, world: World)
    requires !op.OpRestart?
    ensures var r := Step(v, op, world); v.log <= r.0.log && (Errs(r.1) ==> r.0.log == v.log)
  {
    match op
    case OpSubmit(s, nowMs, freshId) =>
      SubmitGrows(v, s, nowMs, freshId, world);
      SubmitCases(v, s, nowMs, freshId, world);
    case OpCancelAll(m) => ForceGrows(v, AcceptedIn(v.log, m), world);
    case _ =>
  }

  // ---- Every step keeps it ---------------------------------------------------------------------

  lemma {:induction false} InsertKeeps(table: Table, events: seq<SequencedEvent>, log: seq<SequencedEvent>)
    requires SubTable(table, log) && forall e :: e in events ==> InLog(e, log)
    ensures var after := InsertAbsent(table, events);
            && SubTable(after, log)
            && (forall n :: n in table ==> n in after)
            && (forall e :: e in events ==> e.seqId in after)
    decreases |events|
  {
    if events == [] {
    } else {
      var one := if events[0].seqId in table then table else table[events[0].seqId := events[0]];
      InsertKeeps(one, events[1..], log);
      forall e | e in events ensures e.seqId in InsertAbsent(table, events) {
        assert e == events[0] || e in events[1..];
      }
    }
  }

  lemma EnterRows(s: System, t: System, h: nat, n: nat)
    requires s.handlers.Keys <= t.handlers.Keys && h !in s.handlers && t.table == s.table
    requires forall x :: x in s.handlers ==> t.handlers[x] == s.handlers[x]
    requires 1 <= n <= |s.engine.log| ==> RowCovered(s, n)
    requires n > |s.engine.log| ==> h in t.handlers && t.handlers[h] == Mutated(|s.engine.log|)
    ensures 1 <= n ==> RowCovered(t, n)
  {
    if 1 <= n <= |s.engine.log| {
      RowStillCovered(s, t, h, n);
    } else if n > |s.engine.log| {
      assert OwesRow(t.handlers[h], n);
    }
  }

  lemma EnterSends(s: System, t: System, h: nat, e: SequencedEvent)
    requires s.handlers.Keys <= t.handlers.Keys && h !in s.handlers && t.sent == s.sent && t.base == s.base
    requires forall x :: x in s.handlers ==> t.handlers[x] == s.handlers[x]
    requires e.seqId <= |s.engine.log| ==> SendCovered(s, e)
    requires e.seqId > |s.engine.log| ==> h in t.handlers && t.handlers[h] == Mutated(|s.engine.log|)
    ensures SendCovered(t, e)
  {
    if e.seqId <= |s.engine.log| {
      SendStillCovered(s, t, h, e);
    } else {
      assert t.handlers[h].Mutated? && t.handlers[h].seqBefore < e.seqId;
    }
  }

  /** A request that has had the engine keeps the system in order. */
  lemma EnterKeeps(s: System, h: nat, op: Op, world: World)
    requires SystemOk(s) && h !in s.handlers && Fresh(s.engine, op) && !op.OpRestart?
    ensures SystemOk(Next(s, Enter(h, op), world))
  {
    StepKeeps(s.engine, op, world);
    StepGrows(s.engine, op, world);
    EnteredOk(s, h, Step(s.engine, op, world));
  }

  /** Handler `h` joined, and owes everything it appended unless it died. */
  ghost predicate Joined(s: System, t: System, h: nat) {
    && s.engine.log <= t.engine.log && t.table == s.table && t.sent == s.sent && t.base == s.base
    && t.handlers.Keys == s.handlers.Keys + {h} && !t.handlers[h].Loaded?
    && (forall x :: x in s.handlers ==> t.handlers[x] == s.handlers[x])
    && (!t.lostRows ==> !s.lostRows) && (!t.lostSends ==> !s.lostSends)
    && (t.engine.log == s.engine.log || t.handlers[h] == Mutated(|s.engine.log|) || (t.lostRows && t.lostSends))
  }

  lemma EnteredJoins(s: System, h: nat, r: (EngineView, Outcome))
    requires h !in s.handlers && s.engine.nextSeqId == |s.engine.log| + 1
    requires s.engine.log <= r.0.log && (Errs(r.1) ==> r.0.log == s.engine.log)
    ensures Joined(s, Entered(s, h, r), h)
  {
  }

  lemma EnteredOk(s: System, h: nat, r: (EngineView, Outcome))
    requires SystemOk(s) && h !in s.handlers && Inv(r.0)
    requires s.engine.log <= r.0.log && (Errs(r.1) ==> r.0.log == s.engine.log)
    ensures SystemOk(Entered(s, h, r))
  {
    Numbered(s.engine);
    EnteredJoins(s, h, r);
    JoinedOk(s, Entered(s, h, r), h);
  }

  lemma JoinedOk(s: System, t: System, h: nat)
    requires SystemOk(s) && h !in s.handlers && Inv(t.engine) && Joined(s, t, h)
    ensures SystemOk(t)
  {
    Numbered(s.engine);
    Numbered(t.engine);
    assert forall e :: InLog(e, s.engine.log) ==> InLog(e, t.engine.log);
    forall n | 1 <= n <= |t.engine.log| && !t.lostRows ensures RowCovered(t, n) {
      EnterRows(s, t, h, n);
    }
    forall e | e in t.engine.log && !t.lostSends ensures SendCovered(t, e) {
      assert e.seqId <= |s.engine.log| ==> InLog(e, s.engine.log);
      EnterSends(s, t, h, e);
    }
  }

  /** Other handlers' debts survive a step of handler `h`. */
  lemma RowStillCovered(s: System, t: System, h: nat, n: nat)
    requires RowCovered(s, n) && forall m :: m in s.table ==> m in t.table
    requires forall x :: x in s.handlers && x != h ==> x in t.handlers && t.handlers[x] == s.handlers[x]
    requires h in s.handlers && OwesRow(s.handlers[h], n) ==> RowCovered(t, n)
    ensures RowCovered(t, n)
  {
    if n !in s.table {
      var x :| x in s.handlers && OwesRow(s.handlers[x], n);
      assert x != h ==> x in t.handlers && OwesRow(t.handlers[x], n);
    }
  }

  lemma SendStillCovered(s: System, t: System, h: nat, e: SequencedEvent)
    requires SendCovered(s, e) && s.sent <= t.sent && t.base == s.base
    requires forall x :: x in s.handlers && x != h ==> x in t.handlers && t.handlers[x] == s.handlers[x]
    requires h in s.handlers && s.handlers[h].Mutated? && s.handlers[h].seqBefore < e.seqId ==> SendCovered(t, e)
    ensures SendCovered(t, e)
  {
    if e !in s.sent && e.seqId > s.base {
      var x :| x in s.handlers && s.handlers[x].Mutated? && s.handlers[x].seqBefore < e.seqId;
      assert x != h ==> x in t.handlers && t.handlers[x].Mutated? && t.handlers[x].seqBefore < e.seqId;
    }
  }

  lemma RowsKept(s: System, a: Action, world: World)
    requires SystemOk(s) && Enabled(s, a) && !a.Enter? && !Next(s, a, world).lostRows
    ensures forall n :: 1 <= n <= |s.engine.log| ==> RowCovered(Next(s, a, world), n)
  {
    if a.Append? { InsertKeeps(s.table, s.handlers[a.handler].batch, s.engine.log); }
    forall n | 1 <= n <= |s.engine.log| ensures RowCovered(Next(s, a, world), n) {
      assert RowCovered(s, n);
      if !a.Append? && OwesRow(s.handlers[a.handler], n) { StillOwed(s, a, world, n); }
      RowStillCovered(s, Next(s, a, world), a.handler, n);
    }
  }

  /** A handler that has not appended yet still owes what it owed, unless it gave up. */
  lemma StillOwed(s: System, a: Action, world: World, n: nat)
    requires Inv(s.engine) && Enabled(s, a) && !a.Enter? && !a.Append? && !Next(s, a, world).lostRows
    requires 1 <= n <= |s.engine.log| && OwesRow(s.handlers[a.handler], n)
    ensures a.handler in Next(s, a, world).handlers && OwesRow(Next(s, a, world).handlers[a.handler], n)
  {
    Numbered(s.engine);
    if a.Load? {
      TailHas(s.engine.log, s.handlers[a.handler].seqBefore);
      assert s.engine.log[n - 1] in Next(s, a, world).handlers[a.handler].batch;
    }
  }

  lemma PublishSends(s: System, h: nat, world: World)
    requires h in s.handlers && s.handlers[h].Mutated?
    requires forall e :: e in s.engine.log ==> SendCovered(s, e)
    ensures forall e :: e in s.engine.log ==> SendCovered(Next(s, Publish(h), world), e)
  {
    TailHas(s.engine.log, s.handlers[h].seqBefore);
    forall e | e in s.engine.log ensures SendCovered(Next(s, Publish(h), world), e) {
      SendStillCovered(s, Next(s, Publish(h), world), h, e);
    }
  }

  lemma OtherSends(s: System, t: System, h: nat)
    requires h in s.handlers && !s.handlers[h].Mutated? && t.sent == s.sent && t.base == s.base
    requires forall x :: x in s.handlers && x != h ==> x in t.handlers && t.handlers[x] == s.handlers[x]
    requires forall e :: e in s.engine.log ==> SendCovered(s, e)
    ensures forall e :: e in s.engine.log ==> SendCovered(t, e)
  {
    forall e | e in s.engine.log ensures SendCovered(t, e) {
      SendStillCovered(s, t, h, e);
    }
  }

  lemma SendsKept(s: System, a: Action, world: World)
    requires Enabled(s, a) && !a.Enter? && !Next(s, a, world).lostSends
    requires forall e :: e in s.engine.log ==> SendCovered(s, e)
    ensures forall e :: e in s.engine.log ==> SendCovered(Next(s, a, world), e)
  {
    if a.Publish? {
      PublishSends(s, a.handler, world);
    } else {
      OtherSends(s, Next(s, a, world), a.handler);
    }
  }

  lemma ActionKeeps(s: System, a: Action, world: World)
    requires SystemOk(s) && Enabled(s, a)
    ensures SystemOk(Next(s, a, world))
  {
    if a.Enter? {
      EnterKeeps(s, a.handler, a.op, world);
    } else {
      var t, h := Next(s, a, world), a.handler;
      Numbered(s.engine);
      if a.Load? { TailHas(s.engine.log, s.handlers[h].seqBefore); }
      if a.Publish? { TailHas(s.engine.log, s.handlers[h].seqBefore); }
      if a.Append? { InsertKeeps(s.table, s.handlers[h].batch, s.engine.log); }
      if !t.lostRows { RowsKept(s, a, world); }
      if !t.lostSends { SendsKept(s, a, world); }
    }
  }

  /** A server that has just started: the table holds the engine's log, nothing is sent or in flight. */
  ghost predicate Opened(s: System) {
    && Inv(s.engine) && SubTable(s.table, s.engine.log)
    && (forall n :: 1 <= n <= |s.engine.log| ==> n in s.table)
    && s.base == |s.engine.log| && s.sent == {} && s.handlers == map[] && !s.lostRows && !s.lostSends
  }

  lemma {:induction false} ScheduleKeeps(s: System, actions: seq<Action>, world: World)
    requires SystemOk(s) && Schedule(s, actions, world)
    ensures SystemOk(Execute(s, actions, world))
    decreases |actions|
  {
    if actions == [] {
    } else {
      ActionKeeps(s, actions[0], world);
      ScheduleKeeps(Next(s, actions[0], world), actions[1..], world);
    }
  }

  lemma {:induction false} ScheduleOpened(s: System, actions: seq<Action>, world: World)
    requires Schedule(s, actions, world)
    ensures Execute(s, actions, world).base == s.base
    decreases |actions|
  {
    if actions == [] {
    } else {
      ScheduleOpened(Next(s, actions[0], world), actions[1..], world);
    }
  }

  lemma OpenedOk(s: System)
    requires Opened(s)
    ensures SystemOk(s)
  {
    Numbered(s.engine);
  }

  // ---- What the table holds --------------------------------------------------------------------

  /** Every interleaving of handlers, with any failures, leaves the table and the channel within the log. */
  lemma TableWithinLog(s: System, actions: seq<Action>, world: World)
    requires Opened(s) && Schedule(s, actions, world)
    ensures var t := Execute(s, actions, world);
            && Inv(t.engine) && SubTable(t.table, t.engine.log)
            && (forall e :: e in t.sent ==> InLog(e, t.engine.log))
  {
    OpenedOk(s);
    ScheduleKeeps(s, actions, world);
  }

  ghost predicate Quiescent(s: System) {
    forall h :: h in s.handlers ==> s.handlers[h].Finished?
  }

  lemma {:induction false} FullRows(table: Table, log: seq<SequencedEvent>, from: nat)
    requires 1 <= from <= |log| + 1 && SubTable(table, log)
    requires forall n :: from <= n <= |log| ==> n in table
    ensures Rows(table, from, |log|) == log[from - 1..]
    decreases |log| + 1 - from
  {
    if from > |log| {
    } else {
      FullRows(table, log, from + 1);
      assert InLog(table[from], log);
    }
  }

  /**
   * If nothing was lost, then once no request is in flight the table read back is the log itself, although
   * the batches of concurrent handlers overlap; and every event appended since the server opened was published.
   */
  lemma QuiescentTableIsLog(s: System, actions: seq<Action>, world: World)
    requires Opened(s) && Schedule(s, actions, world) && Quiescent(Execute(s, actions, world))
    ensures var t := Execute(s, actions, world);
            && (!t.lostRows ==> Rows(t.table, 1, |t.engine.log|) == t.engine.log)
            && (!t.lostSends ==> forall e :: e in t.engine.log && e.seqId > |s.engine.log| ==> e in t.sent)
  {
    OpenedOk(s);
    ScheduleKeeps(s, actions, world);
    var t := Execute(s, actions, world);
    if !t.lostRows {
      forall n | 1 <= n <= |t.engine.log| ensures n in t.table { assert RowCovered(t, n); }
      FullRows(t.table, t.engine.log, 1);
    }
    if !t.lostSends {
      ScheduleOpened(s, actions, world);
      forall e | e in t.engine.log && e.seqId > |s.engine.log| ensures e in t.sent { assert SendCovered(t, e); }
    }
  }

  // ---- What a lost batch costs -----------------------------------------------------------------

  lemma {:induction false} RowsAbove(table: Table, log: seq<SequencedEvent>, from: nat)
    requires 1 <= from && SubTable(table, log)
    ensures forall e :: e in Rows(table, from, |log|) ==> e.seqId >= from
    ensures Rows(table, from, |log|) == [] <==> forall n :: n in table ==> n < from
    decreases |log| + 1 - from
  {
    if from > |log| {
    } else {
      RowsAbove(table, log, from + 1);
    }
  }

  /** With the next row in place, one more event is replayed. */
  lemma RowPresent(log: seq<SequencedEvent>, table: Table, k: nat)
    requires LegalLog(log) && SubTable(table, log) && 1 <= k < |log| && k + 1 in table
    ensures Replayed(log[..k]).Ok? && Replayed(log[..k + 1]).Ok?
    ensures var rows, rest := Rows(table, k + 1, |log|), Rows(table, k + 2, |log|);
            && Fold(WorkingBefore(log, k), rows) == Fold(WorkingBefore(log, k + 1), rest)
            && (rows <= log[k..] <==> rest <= log[k + 1..])
  {
    var rows, rest := Rows(table, k + 1, |log|), Rows(table, k + 2, |log|);
    assert InLog(table[k + 1], log);
    PrefixStep(log, k);
    assert rows == [log[k]] + rest && rows[1..] == rest;
    assert log[k..] == [log[k]] + log[k + 1..];
    if rest <= log[k + 1..] { assert log[k..][..|rows|] == [log[k]] + log[k + 1..][..|rest|]; }
    if rows <= log[k..] { assert log[k + 1..][..|rest|] == log[k..][1..|rows|] == rows[1..]; }
  }

  /** With the next row missing, any later row is a gap. */
  lemma RowMissing(log: seq<SequencedEvent>, table: Table, k: nat)
    requires LegalLog(log) && SubTable(table, log) && 1 <= k <= |log| && k + 1 !in table
    ensures Replayed(log[..k]).Ok?
    ensures var rows := Rows(table, k + 1, |log|);
            (Fold(WorkingBefore(log, k), rows).Ok? <==> rows == []) && (rows <= log[k..] <==> rows == [])
  {
    PrefixReplays(log, k);
    var rows := Rows(table, k + 1, |log|);
    if rows != [] {
      RowsAbove(table, log, k + 2);
      assert rows[0] in Rows(table, k + 2, |log|);
      PrefixStep(log, k);
      assert log[k..][0] == log[k];
    }
  }

  /** Replaying the rows after the first `k` events fails at the first missing one. */
  lemma {:induction false} RowsReplay(log: seq<SequencedEvent>, table: Table, k: nat)
    requires LegalLog(log) && SubTable(table, log) && 1 <= k <= |log|
    ensures Replayed(log[..k]).Ok?
    ensures var rows := Rows(table, k + 1, |log|);
            Fold(WorkingBefore(log, k), rows).Ok? <==> rows <= log[k..]
    decreases |log| - k
  {
    if k < |log| && k + 1 in table {
      RowPresent(log, table, k);
      RowsReplay(log, table, k + 1);
    } else {
      assert k + 1 in table ==> InLog(table[k + 1], log);
      RowMissing(log, table, k);
    }
  }

  lemma PrefixReplays(log: seq<SequencedEvent>, k: nat)
    requires LegalLog(log) && k <= |log|
    ensures LegalLog(log[..k]) && Replayed(log[..k]).Ok? && WorkingBefore(log, k).lastSeq == k
  {
    EmptyWorkingOk();
    assert log == log[..k] + log[k..];
    FoldConcat(EMPTY_WORKING, log[..k], log[k..]);
    LegalFold(EMPTY_WORKING, log);
    LegalConcat(EMPTY_WORKING, log[..k], log[k..]);
    LegalFold(EMPTY_WORKING, log[..k]);
  }

  lemma PrefixStep(log: seq<SequencedEvent>, k: nat)
    requires LegalLog(log) && k < |log|
    ensures Replayed(log[..k]).Ok? && Replayed(log[..k + 1]).Ok? && log[k].seqId == k + 1
    ensures ApplyEvent(WorkingBefore(log, k), log[k]) == Ok(WorkingBefore(log, k + 1))
  {
    PrefixReplays(log, k + 1);
    assert log[..k + 1][..k] == log[..k];
    LastStep(log[..k + 1]);
    LegalAt(log, k);
  }

  lemma FirstRowRestarts(v: EngineView, table: Table)
    requires Inv(v) && SubTable(table, v.log) && 1 in table
    ensures var rows := Rows(table, 1, |v.log|);
            Replayed(rows).Ok? <==> rows <= v.log
  {
    var rows, rest := Rows(table, 1, |v.log|), Rows(table, 2, |v.log|);
    assert InLog(table[1], v.log);
    assert rows == [v.log[0]] + rest && rows[1..] == rest;
    PrefixStep(v.log, 0);
    assert v.log[..0] == [];
    RowsReplay(v.log, table, 1);
    assert v.log == [v.log[0]] + v.log[1..];
  }

  /**
   * When a table can be restarted from: exactly when its rows are consecutive and every fill and cancel among
   * them names orders accepted among them. With the first event in it, that means a prefix of the log; without
   * it, the restart may succeed and silently know nothing of the lost orders.
   */
  lemma TableRestarts(v: EngineView, table: Table)
    requires Inv(v) && SubTable(table, v.log)
    ensures var rows := Rows(table, 1, |v.log|);
            && (Replayed(rows).Ok? <==> Consecutive(rows) && SelfContained(rows))
            && (1 in table ==> (Replayed(rows).Ok? <==> rows <= v.log))
  {
    ReplaysExactly(Rows(table, 1, |v.log|));
    if 1 in table { FirstRowRestarts(v, table); }
  }

  // ---- A lost first batch ------------------------------------------------------------------------

  lemma ExecuteCons(s: System, a: Action, rest: seq<Action>, world: World)
    requires Enabled(s, a) && Schedule(Next(s, a, world), rest, world)
    ensures Schedule(s, [a] + rest, world) && Execute(s, [a] + rest, world) == Execute(Next(s, a, world), rest, world)
  {
    assert ([a] + rest)[1..] == rest;
  }

  /** After a request that got the engine and published, but then found the engine locked. */
  ghost function Missed(s: System, h: nat, op: Op, world: World): System
    requires Enabled(s, Enter(h, op)) && !Panics(Step(s.engine, op, world).1) && !Errs(Step(s.engine, op, world).1)
  {
    Next(Next(Next(s, Enter(h, op), world), Publish(h), world), LoadMissed(h), world)
  }

  /** The actions of such a request, and of whatever comes after it. */
  function MissedActions(h: nat, op: Op, rest: seq<Action>): seq<Action> {
    [Enter(h, op)] + ([Publish(h)] + ([LoadMissed(h)] + rest))
  }

  /** The actions of a request served to the end. */
  function ServedActions(h: nat, op: Op): seq<Action> {
    [Enter(h, op)] + ([Publish(h)] + ([Load(h)] + ([Append(h)] + [])))
  }

  lemma MissedRequest(s: System, h: nat, op: Op, rest: seq<Action>, world: World)
    requires Enabled(s, Enter(h, op)) && !Panics(Step(s.engine, op, world).1) && !Errs(Step(s.engine, op, world).1)
    requires Schedule(Missed(s, h, op, world), rest, world)
    ensures var actions := MissedActions(h, op, rest);
            && Schedule(s, actions, world)
            && Execute(s, actions, world) == Execute(Missed(s, h, op, world), rest, world)
  {
    var s1 := Next(s, Enter(h, op), world);
    var s2 := Next(s1, Publish(h), world);
    ExecuteCons(s2, LoadMissed(h), rest, world);
    ExecuteCons(s1, Publish(h), [LoadMissed(h)] + rest, world);
    ExecuteCons(s, Enter(h, op), [Publish(h)] + ([LoadMissed(h)] + rest), world);
  }

  /** A request served to the end writes everything after its own start. */
  lemma ServedRequest(s: System, h: nat, op: Op, world: World)
    requires Enabled(s, Enter(h, op)) && !Panics(Step(s.engine, op, world).1) && !Errs(Step(s.engine, op, world).1)
    ensures var actions := ServedActions(h, op);
            && Schedule(s, actions, world)
            && var t := Execute(s, actions, world);
               && t.engine == Step(s.engine, op, world).0
               && t.table == InsertAbsent(s.table, Tail(t.engine.log, SeqBefore(s.engine)))
  {
    var s1 := Next(s, Enter(h, op), world);
    var s2 := Next(s1, Publish(h), world);
    var s3 := Next(s2, Load(h), world);
    ExecuteCons(s3, Append(h), [], world);
    ExecuteCons(s2, Load(h), [Append(h)] + [], world);
    ExecuteCons(s1, Publish(h), [Load(h)] + ([Append(h)] + []), world);
    ExecuteCons(s, Enter(h, op), [Publish(h)] + ([Load(h)] + ([Append(h)] + [])), world);
  }

  /** A request the engine can be asked, and that it answers without a panic or an error. */
  ghost predicate Answered(v: EngineView, op: Op, world: World) {
    var r := Step(v, op, world);
    Fresh(v, op) && !op.OpRestart? && !Panics(r.1) && !Errs(r.1)
  }

  /** The engine has been asked two things in turn, and logged one acceptance for each. */
  ghost predicate TwoAccepted(v: EngineView, op1: Op, op2: Op, world: World) {
    var r1 := Step(v, op1, world);
    var r2 := Step(r1.0, op2, world);
    && v.log == [] && op1.OpSubmit? && op2.OpSubmit? && Answered(v, op1, world) && Answered(r1.0, op2, world)
    && |r1.0.log| == 1 && |r2.0.log| == 2 && r2.0.log[0].event.OrderAccepted? && r2.0.log[1].event.OrderAccepted?
  }

  /** Two handlers, the first of which finds the engine locked when it wants to persist. */
  function LosingActions(op1: Op, op2: Op): seq<Action> {
    MissedActions(1, op1, ServedActions(2, op2))
  }

  lemma MissedFields(s: System, h: nat, op: Op, world: World)
    requires Enabled(s, Enter(h, op)) && !Panics(Step(s.engine, op, world).1) && !Errs(Step(s.engine, op, world).1)
    ensures var t := Missed(s, h, op, world);
            t.engine == Step(s.engine, op, world).0 && t.table == s.table && t.handlers.Keys == s.handlers.Keys + {h}
  {
    var s1 := Entered(s, h, Step(s.engine, op, world));
    HandlerShape(s1, Publish(h), world);
    HandlerShape(Next(s1, Publish(h), world), LoadMissed(h), world);
  }

  /** Whatever can happen after such a request can happen after the actions that make it up. */
  lemma MissedThen(s: System, h: nat, op: Op, world: World) returns (t: System)
    requires Enabled(s, Enter(h, op)) && !Panics(Step(s.engine, op, world).1) && !Errs(Step(s.engine, op, world).1)
    ensures t.engine == Step(s.engine, op, world).0 && t.table == s.table && t.handlers.Keys == s.handlers.Keys + {h}
    ensures forall rest :: Schedule(t, rest, world) ==>
              && Schedule(s, MissedActions(h, op, rest), world)
              && Execute(s, MissedActions(h, op, rest), world) == Execute(t, rest, world)
  {
    t := Missed(s, h, op, world);
    MissedFields(s, h, op, world);
    forall rest | Schedule(t, rest, world)
      ensures Schedule(s, MissedActions(h, op, rest), world)
      ensures Execute(s, MissedActions(h, op, rest), world) == Execute(t, rest, world)
    {
      MissedRequest(s, h, op, rest, world);
    }
  }

  /** What the later steps of a handler leave alone. */
  lemma HandlerShape(s: System, a: Action, world: World)
    requires Enabled(s, a) && !a.Enter?
    ensures var t := Next(s, a, world);
            && t.engine == s.engine && t.handlers.Keys == s.handlers.Keys && (!a.Append? ==> t.table == s.table)
            && (a.Publish? ==> t.handlers[a.handler].Published?)
  {
  }

  lemma LosingSchedule(s: System, op1: Op, op2: Op, world: World) returns (t: System)
    requires s.table == map[] && s.handlers == map[]
    requires Answered(s.engine, op1, world) && Answered(Step(s.engine, op1, world).0, op2, world)
    ensures Schedule(s, LosingActions(op1, op2), world) && t == Execute(s, LosingActions(op1, op2), world)
    ensures var r1 := Step(s.engine, op1, world);
            t.engine == Step(r1.0, op2, world).0 && t.table == InsertAbsent(map[], Tail(t.engine.log, SeqBefore(r1.0)))
  {
    var s1 := MissedThen(s, 1, op1, world);
    ServedRequest(s1, 2, op2, world);
    t := Execute(s1, ServedActions(2, op2), world);
  }

  lemma SecondTail(a: SequencedEvent, b: SequencedEvent)
    requires a.seqId == 1 && b.seqId == 2
    ensures Tail([a, b], 1) == [b]
  {
    assert [a, b][..1] == [a] && [a][..0] == [];
    assert Tail([a], 1) == Tail([], 1) + [];
  }

  lemma SecondRow(b: SequencedEvent)
    requires b.seqId == 2
    ensures InsertAbsent(map[], [b]) == map[2 := b] && Rows(map[2 := b], 1, 2) == [b]
  {
    assert [b][1..] == [];
    assert Rows(map[2 := b], 2, 2) == [b] + Rows(map[2 := b], 3, 2);
  }

  lemma OneAcceptance(e: SequencedEvent)
    requires e.event.OrderAccepted?
    ensures Replayed([e]).Ok? && Replayed([e]).value.orders.Keys == {e.event.order.terms.orderId}
  {
    var next := ApplyEvent(EMPTY_WORKING, e).value;
    assert ApplyEvent(EMPTY_WORKING, e).Ok? && next.orders == map[e.event.order.terms.orderId := e.event.order];
    assert [e][1..] == [] && Fold(next, []) == Ok(next);
  }

  /** What a table that lost the first of two acceptances is worth. */
  lemma SecondRowOnly(v: EngineView)
    requires Inv(v) && |v.log| == 2 && v.log[0].event.OrderAccepted? && v.log[1].event.OrderAccepted?
    ensures var table := InsertAbsent(map[], Tail(v.log, 1));
            var rows := Rows(table, 1, 2);
            && SubTable(table, v.log) && rows == [v.log[1]] && Replayed(rows).Ok?
            && v.log[0].event.order.terms.orderId in WorkingOf(v).orders
            && v.log[0].event.order.terms.orderId !in Replayed(rows).value.orders
  {
    Numbered(v);
    assert v.log == [v.log[0], v.log[1]];
    SecondTail(v.log[0], v.log[1]);
    SecondRow(v.log[1]);
    OneAcceptance(v.log[1]);
    AcceptancesOrdered(v.log, 0, 1);
    FirstKnown(v);
  }

  lemma FirstKnown(v: EngineView)
    requires Inv(v) && v.log != [] && v.log[0].event.OrderAccepted?
    ensures v.log[0].event.order.terms.orderId in WorkingOf(v).orders
  {
    LogFacts(v);
    assert AcceptanceKnown(v.log[0], WorkingOf(v).orders);
  }

  lemma TwoRequests(v: EngineView, op1: Op, op2: Op, world: World)
    requires Inv(v) && TwoAccepted(v, op1, op2, world)
    ensures var v1 := Step(v, op1, world).0;
            var v2 := Step(v1, op2, world).0;
            && SeqBefore(v1) == 1 && Inv(v2) && |v2.log| == 2
            && v2.log[0].event.OrderAccepted? && v2.log[1].event.OrderAccepted?
  {
    var v1 := Step(v, op1, world).0;
    SubmitStepKeeps(v, op1, world);
    SubmitStepKeeps(v1, op2, world);
    Numbered(v1);
  }

  lemma SubmitStepKeeps(v: EngineView, op: Op, world: World)
    requires Inv(v) && Fresh(v, op) && op.OpSubmit?
    ensures Inv(Step(v, op, world).0)
  {
    StepKeeps(v, op, world);
  }

  /**
   * The first batch lost: a reachable table that holds the second order and not the first, from which the
   * program restarts without an error and knows nothing of the first order.
   */
  lemma FirstBatchLost(s: System, op1: Op, op2: Op, world: World) returns (t: System)
    requires Opened(s) && TwoAccepted(s.engine, op1, op2, world)
    ensures Schedule(s, LosingActions(op1, op2), world) && t == Execute(s, LosingActions(op1, op2), world)
    ensures Inv(t.engine) && |t.engine.log| == 2 && SubTable(t.table, t.engine.log)
    ensures var rows := Rows(t.table, 1, 2);
            && Replayed(rows).Ok? && t.engine.log[0].event.OrderAccepted?
            && t.engine.log[0].event.order.terms.orderId in WorkingOf(t.engine).orders
            && t.engine.log[0].event.order.terms.orderId !in Replayed(rows).value.orders
  {
    t := LosingSchedule(s, op1, op2, world);
    TwoRequests(s.engine, op1, op2, world);
    SecondRowOnly(t.engine);
  }

  /** A server just opened, and two requests as above. */
  lemma SampleSchedule() returns (s: System, op1: Op, op2: Op, world: World)
    ensures Opened(s) && TwoAccepted(s.engine, op1, op2, world)
  {
    var c, first, second, own, other, w := SampleOrders();
    world := w;
    s := JustOpened(c);
    op1, op2 := OpSubmit(first, 0, OrderId([1])), OpSubmit(second, 0, OrderId([2]));
    BothAnswered(c, first, second, OrderId([1]), OrderId([2]), world);
  }

  lemma JustOpened(c: MarketConfig) returns (s: System)
    ensures Opened(s) && s.engine == AddMarket(NEW_ENGINE, c)
  {
    s := System(AddMarket(NEW_ENGINE, c), map[], {}, map[], 0, false, false);
    NewEngineInv();
    AddMarketKeeps(NEW_ENGINE, c);
  }

  lemma BothAnswered(c: MarketConfig, s: SignedOrder, t: SignedOrder, id: OrderId, id2: OrderId, world: World)
    requires Sample(c, s, 0, world) && Sample(c, t, 0, world) && Follows(s, t) && s.side == t.side && id != id2
    ensures TwoAccepted(AddMarket(NEW_ENGINE, c), OpSubmit(s, 0, id), OpSubmit(t, 0, id2), world)
  {
    BothAccepted(c, s, t, 0, id, id2, world);
  }
}
