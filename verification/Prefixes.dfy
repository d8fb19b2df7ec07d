/** What a table that is a prefix of the log restarts to: batches begin and end between two requests. */
module Prefixes {
  import opened Domain
  import opened EngineSpec
  import opened Steps
  import opened Persist

  // ---- Where the log has been --------------------------------------------------------------------

  /** The lengths the log has at some point of the schedule. */
  ghost function Lengths(s: System, actions: seq<Action>, world: World): set<nat>
    requires Schedule(s, actions, world)
    decreases |actions|
  {
    {|s.engine.log|} + if actions == [] then {} else Lengths(Next(s, actions[0], world), actions[1..], world)
  }

  /** The log as it was after the first `i` actions. */
  ghost predicate LogAt(s: System, actions: seq<Action>, world: World, i: nat, log: seq<SequencedEvent>) {
    i <= |actions| && Schedule(s, actions[..i], world) && Execute(s, actions[..i], world).engine.log == log
  }

  lemma {:induction false} LengthReached(s: System, actions: seq<Action>, world: World, n: nat,
                                         last: seq<SequencedEvent>) returns (i: nat)
    requires SystemOk(s) && Schedule(s, actions, world) && n in Lengths(s, actions, world)
    requires last == Execute(s, actions, world).engine.log
    ensures n <= |last| && LogAt(s, actions, world, i, last[..n])
    decreases |actions|
  {
    if n == |s.engine.log| {
      i := 0;
      StartReached(s, actions, world, last);
    } else {
      LaterReached(s, actions, world, n);
      var j := LengthReached(Next(s, actions[0], world), actions[1..], world, n, last);
      i := j + 1;
      LogAtNext(s, actions, world, j, last[..n]);
    }
  }

  lemma StartReached(s: System, actions: seq<Action>, world: World, last: seq<SequencedEvent>)
    requires Schedule(s, actions, world) && last == Execute(s, actions, world).engine.log
    ensures |s.engine.log| <= |last| && LogAt(s, actions, world, 0, last[..|s.engine.log|])
  {
    LogGrowsOn(s, actions, world);
    assert actions[..0] == [];
  }

  lemma LaterReached(s: System, actions: seq<Action>, world: World, n: nat)
    requires SystemOk(s) && Schedule(s, actions, world) && n in Lengths(s, actions, world) && n != |s.engine.log|
    ensures actions != [] && SystemOk(Next(s, actions[0], world))
    ensures n in Lengths(Next(s, actions[0], world), actions[1..], world)
  {
    ActionKeeps(s, actions[0], world);
  }

  lemma LogAtNext(s: System, actions: seq<Action>, world: World, j: nat, log: seq<SequencedEvent>)
    requires actions != [] && Enabled(s, actions[0]) && LogAt(Next(s, actions[0], world), actions[1..], world, j, log)
    ensures LogAt(s, actions, world, j + 1, log)
  {
    assert actions == [actions[0]] + actions[1..];
    LogAtCons(s, actions[0], actions[1..], world, j, log);
  }

  lemma LogAtCons(s: System, a: Action, rest: seq<Action>, world: World, j: nat, log: seq<SequencedEvent>)
    requires Enabled(s, a) && LogAt(Next(s, a, world), rest, world, j, log)
    ensures LogAt(s, [a] + rest, world, j + 1, log)
  {
    ExecuteCons(s, a, rest[..j], world);
    assert ([a] + rest)[..j + 1] == [a] + rest[..j];
  }

  lemma ActionGrows(s: System, a: Action, world: World)
    requires Enabled(s, a)
    ensures s.engine.log <= Next(s, a, world).engine.log
  {
    if a.Enter? { StepGrows(s.engine, a.op, world); }
  }

  lemma {:induction false} LogGrowsOn(s: System, actions: seq<Action>, world: World)
    requires Schedule(s, actions, world)
    ensures s.engine.log <= Execute(s, actions, world).engine.log
    decreases |actions|
  {
    if actions == [] {
    } else {
      ActionGrows(s, actions[0], world);
      LogGrowsOn(Next(s, actions[0], world), actions[1..], world);
    }
  }

  // ---- Rows reach up to such a length --------------------------------------------------------------

  ghost predicate UpTo(numbers: set<nat>, n: nat, hi: nat) {
    n <= hi && forall x :: n <= x <= hi ==> x in numbers
  }

  /** Every number is followed without a gap by one at which the log has stood. */
  ghost predicate Marked(numbers: set<nat>, marks: set<nat>) {
    forall n :: n in numbers ==> exists hi :: hi in marks && UpTo(numbers, n, hi)
  }

  function Numbers(events: seq<SequencedEvent>): set<nat> {
    set e | e in events :: e.seqId
  }

  ghost predicate Marks(s: System, marks: set<nat>) {
    && |s.engine.log| in marks && Marked(s.table.Keys, marks)
    && (forall h :: h in s.handlers && s.handlers[h].Loaded? ==> Marked(Numbers(s.handlers[h].batch), marks))
  }

  lemma UnionMarked(a: set<nat>, b: set<nat>, marks: set<nat>)
    requires Marked(a, marks) && Marked(b, marks)
    ensures Marked(a + b, marks)
  {
    forall n | n in a + b ensures exists hi :: hi in marks && UpTo(a + b, n, hi) {
      if n in a {
        var hi :| hi in marks && UpTo(a, n, hi);
        assert UpTo(a + b, n, hi);
      } else {
        var hi :| hi in marks && UpTo(b, n, hi);
        assert UpTo(a + b, n, hi);
      }
    }
  }

  lemma {:induction false} InsertKeys(table: Table, events: seq<SequencedEvent>)
    ensures InsertAbsent(table, events).Keys == table.Keys + Numbers(events)
    decreases |events|
  {
    if events == [] {
    } else {
      var one := if events[0].seqId in table then table else table[events[0].seqId := events[0]];
      InsertKeys(one, events[1..]);
      assert Numbers(events) == {events[0].seqId} + Numbers(events[1..]) by {
        assert forall e :: e in events <==> e == events[0] || e in events[1..];
      }
    }
  }

  /** A batch holds every number after its start up to the length of the log. */
  lemma TailMarked(v: EngineView, seqBefore: nat, marks: set<nat>)
    requires Inv(v) && |v.log| in marks
    ensures Marked(Numbers(Tail(v.log, seqBefore)), marks)
  {
    var numbers := Numbers(Tail(v.log, seqBefore));
    Numbered(v);
    TailHas(v.log, seqBefore);
    forall x: nat ensures x in numbers <==> seqBefore < x && 1 <= x <= |v.log| {
      if seqBefore < x && 1 <= x <= |v.log| { assert v.log[x - 1] in Tail(v.log, seqBefore); }
    }
    forall n | n in numbers ensures exists hi :: hi in marks && UpTo(numbers, n, hi) {
      assert UpTo(numbers, n, |v.log|);
    }
  }

  lemma OpenedMarks(s: System, marks: set<nat>)
    requires Opened(s) && |s.engine.log| in marks
    ensures Marks(s, marks)
  {
    forall n | n in s.table.Keys ensures exists hi :: hi in marks && UpTo(s.table.Keys, n, hi) {
      assert InLog(s.table[n], s.engine.log);
      assert UpTo(s.table.Keys, n, |s.engine.log|);
    }
  }

  lemma EnterMarks(s: System, h: nat, op: Op, marks: set<nat>, world: World)
    requires Enabled(s, Enter(h, op)) && Marks(s, marks)
    requires |Next(s, Enter(h, op), world).engine.log| in marks
    ensures Marks(Next(s, Enter(h, op), world), marks)
  {
    var t := Entered(s, h, Step(s.engine, op, world));
    assert forall x :: x in t.handlers && t.handlers[x].Loaded? ==> x != h;
  }

  /** The later steps leave the log as it is. */
  lemma ActionMarks(s: System, a: Action, marks: set<nat>, world: World)
    requires Inv(s.engine) && Enabled(s, a) && !a.Enter? && Marks(s, marks)
    ensures Marks(Next(s, a, world), marks)
  {
    if a.Load? { TailMarked(s.engine, s.handlers[a.handler].seqBefore, marks); }
    if a.Append? {
      InsertKeys(s.table, s.handlers[a.handler].batch);
      UnionMarked(s.table.Keys, Numbers(s.handlers[a.handler].batch), marks);
    }
  }

  lemma NextMarks(s: System, a: Action, marks: set<nat>, world: World)
    requires SystemOk(s) && Enabled(s, a) && Marks(s, marks) && |Next(s, a, world).engine.log| in marks
    ensures Marks(Next(s, a, world), marks)
  {
    if a.Enter? {
      EnterMarks(s, a.handler, a.op, marks, world);
    } else {
      ActionMarks(s, a, marks, world);
    }
  }

  lemma LengthsNext(s: System, actions: seq<Action>, world: World)
    requires Schedule(s, actions, world) && actions != []
    ensures var next := Next(s, actions[0], world);
            && Lengths(next, actions[1..], world) <= Lengths(s, actions, world)
            && |next.engine.log| in Lengths(s, actions, world)
  {
    assert |Next(s, actions[0], world).engine.log| in Lengths(Next(s, actions[0], world), actions[1..], world);
  }

  /** The lengths the log goes through mark the rows of every table on the way. */
  lemma {:induction false} ScheduleMarks(s: System, actions: seq<Action>, marks: set<nat>, world: World)
    requires SystemOk(s) && Schedule(s, actions, world) && Marks(s, marks) && Lengths(s, actions, world) <= marks
    ensures Marks(Execute(s, actions, world), marks)
    decreases |actions|
  {
    if actions == [] {
    } else {
      ActionKeeps(s, actions[0], world);
      LengthsNext(s, actions, world);
      NextMarks(s, actions[0], marks, world);
      ScheduleMarks(Next(s, actions[0], world), actions[1..], marks, world);
    }
  }

  // ---- So a prefix is an earlier log -----------------------------------------------------------------

  lemma {:induction false} RowsHave(table: Table, from: nat, last: nat)
    ensures forall n :: from <= n <= last && n in table ==> table[n] in Rows(table, from, last)
    ensures forall e :: e in Rows(table, from, last) ==> exists n :: from <= n <= last && n in table && table[n] == e
    decreases last + 1 - from
  {
    if from > last {
    } else {
      RowsHave(table, from + 1, last);
      forall e | e in Rows(table, from, last) ensures exists n :: from <= n <= last && n in table && table[n] == e {
        if !(from in table && table[from] == e) { assert e in Rows(table, from + 1, last); }
      }
    }
  }

  /** If the rows are the first `k` events, the row numbers are 1 to `k`. */
  lemma PrefixKeys(v: EngineView, table: Table)
    requires Inv(v) && SubTable(table, v.log) && Rows(table, 1, |v.log|) <= v.log
    ensures forall n :: n in table <==> 1 <= n <= |Rows(table, 1, |v.log|)|
  {
    var rows := Rows(table, 1, |v.log|);
    Numbered(v);
    RowsHave(table, 1, |v.log|);
    forall n | n in table ensures 1 <= n <= |rows| {
      assert InLog(table[n], v.log) && table[n] in rows;
      var i :| 0 <= i < |rows| && rows[i] == table[n];
      assert rows[i] == v.log[i];
    }
    forall n | 1 <= n <= |rows| ensures n in table {
      assert rows[n - 1] == v.log[n - 1] && rows[n - 1] in rows;
      var m :| 1 <= m <= |v.log| && m in table && table[m] == rows[n - 1];
    }
  }

  /**
   * A table whose rows are a prefix of the log, the only ones with the first event in them that replay, holds
   * the log as it stood after some of the actions: a restart from it returns to an earlier state of the run.
   */
  lemma PrefixIsEarlier(s: System, actions: seq<Action>, world: World) returns (i: nat)
    requires Opened(s) && Schedule(s, actions, world)
    requires var t := Execute(s, actions, world); Rows(t.table, 1, |t.engine.log|) <= t.engine.log
    ensures var t := Execute(s, actions, world); LogAt(s, actions, world, i, Rows(t.table, 1, |t.engine.log|))
  {
    OpenedOk(s);
    ScheduleKeeps(s, actions, world);
    var t := Execute(s, actions, world);
    var rows := Rows(t.table, 1, |t.engine.log|);
    assert t.engine.log[..|rows|] == rows;
    if rows == [] {
      PrefixKeys(t.engine, t.table);
      EmptyTable(s, actions, world);
      i := 0;
      assert actions[..0] == [];
    } else {
      assert |rows| in Lengths(s, actions, world) by {
        OpenedMarks(s, Lengths(s, actions, world));
        ScheduleMarks(s, actions, Lengths(s, actions, world), world);
        PrefixLength(t, Lengths(s, actions, world));
      }
      i := LengthReached(s, actions, world, |rows|, t.engine.log);
    }
  }

  lemma PrefixLength(t: System, marks: set<nat>)
    requires SystemOk(t) && Marks(t, marks)
    requires Rows(t.table, 1, |t.engine.log|) <= t.engine.log && Rows(t.table, 1, |t.engine.log|) != []
    ensures |Rows(t.table, 1, |t.engine.log|)| in marks
  {
    var n := |Rows(t.table, 1, |t.engine.log|)|;
    PrefixKeys(t.engine, t.table);
    assert n in t.table.Keys;
    var hi :| hi in marks && UpTo(t.table.Keys, n, hi);
    assert hi in t.table;
  }

  lemma ActionKeepsRows(s: System, a: Action, world: World, n: nat)
    requires Enabled(s, a) && n in s.table
    ensures n in Next(s, a, world).table
  {
    if a.Append? { InsertKeys(s.table, s.handlers[a.handler].batch); }
  }

  lemma {:induction false} RowsStay(s: System, actions: seq<Action>, world: World, n: nat)
    requires Schedule(s, actions, world) && n in s.table
    ensures n in Execute(s, actions, world).table
    decreases |actions|
  {
    if actions == [] {
    } else {
      ActionKeepsRows(s, actions[0], world, n);
      RowsStay(Next(s, actions[0], world), actions[1..], world, n);
    }
  }

  /** Rows are never deleted, so an empty table was empty from the start. */
  lemma EmptyTable(s: System, actions: seq<Action>, world: World)
    requires Opened(s) && Schedule(s, actions, world) && forall n :: n !in Execute(s, actions, world).table
    ensures s.engine.log == []
  {
    if s.engine.log != [] {
      assert 1 in s.table;
      RowsStay(s, actions, world, 1);
    }
  }
}
