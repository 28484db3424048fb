/**
 * The processing job as the code runs it: a processor object whose fields
 * are the two tables, the two counters, the sleeps and the outstanding
 * database outcomes, updated in place by the loops of `main`. Every method
 * is proved to leave the object in the state the functions of `Processing`
 * describe.
 */
module Processor {
  import opened Wrappers
  import opened Json
  import opened Retry
  import opened Buffer
  import opened Normalize
  import Processing

  class Processor {
    var buffer: seq<Row>
    var main: map<Value, MainRow>
    var processed: nat
    var errors: nat
    var slept: seq<real>
    var script: seq<Attempt>
    const env: Processing.Env

    function State(): Processing.World
      reads this
    {
      Processing.World(buffer, main, processed, errors, slept, script)
    }

    constructor (w: Processing.World, env: Processing.Env)
      ensures State() == w && this.env == env
    {
      buffer, main, processed, errors, slept, script := w.buffer, w.main, w.processed, w.errors, w.slept, w.script;
      this.env := env;
    }

    /** `get_connection()` */
    method Connect() returns (ok: bool)
      modifies this
      ensures Processing.Connect(old(State())) == Processing.Step(State(), ok)
    {
      var conn, sleeps := GetConnection(script);
      script := Processing.Drop(script, if conn.Some? then conn.value + 1 else MaxConnectAttempts);
      slept := slept + sleeps;
      ok := conn.Some?;
    }

    /** One `cur.execute(...)` */
    method Execute() returns (ok: bool)
      modifies this
      ensures Processing.Execute(old(State())) == Processing.Step(State(), ok)
    {
      ok := Outcome(script, 0) == Succeeded;
      script := Processing.Drop(script, 1);
    }

    /** The body of `for data in data_list`; `failed` when it raises. */
    method ItemStep(row: Row, item: Value) returns (failed: bool)
      modifies this
      ensures Processing.ItemStep(old(State()), row, item, env) == Processing.Flow(State(), failed)
    {
      var plan := PlanItem(item, row);
      assert Processing.ItemStep(State(), row, item, env) == Processing.ItemInsert(State(), row, plan, env);
      match plan
      case Skip =>
        failed := false;
      case BadInfo =>
        failed := true;
      case Insert(m) =>
        failed := InsertItem(row, m);
    }

    /** The INSERT into `dtp_main` and the UPDATE of the buffer row. */
    method InsertItem(row: Row, m: MainRow) returns (failed: bool)
      modifies this
      ensures Processing.InsertItem(old(State()), row, m, env) == Processing.Flow(State(), failed)
    {
      var ok := Execute();
      if !ok {
        return true;
      }
      if m.kartId !in main {
        main := main[m.kartId := m];
      }
      ok := Execute();
      if !ok {
        return true;
      }
      buffer := MarkProcessed(buffer, row.id, env.now);
      processed := processed + 1;
      failed := false;
    }

    /** `for data in data_list`, left by the first exception. */
    method ProcessItems(row: Row, items: seq<Value>) returns (failed: bool)
      modifies this
      ensures Processing.ProcessItems(old(State()), row, items, env) == Processing.Flow(State(), failed)
    {
      failed := false;
      var i := 0;
      while i < |items|
        invariant 0 <= i <= |items|
        invariant Processing.ProcessItems(old(State()), row, items, env) ==
                  Processing.ProcessItems(State(), row, items[i..], env)
      {
        assert items[i..][0] == items[i] && items[i..][1..] == items[i + 1..];
        failed := ItemStep(row, items[i]);
        if failed {
          return;
        }
        i := i + 1;
      }
    }

    /** The `except` branch: count the error, try to flag the row. */
    method RecordError(row: Row)
      modifies this
      ensures State() == Processing.RecordError(old(State()), row)
    {
      errors := errors + 1;
      var ok := Connect();
      if ok {
        ok := Execute();
        if ok {
          buffer := MarkError(buffer, row.id);
        }
      }
    }

    /** One row of the batch. */
    method ProcessRow(row: Row)
      modifies this
      ensures State() == Processing.ProcessRow(old(State()), row, env)
    {
      var ok := Connect();
      if !ok {
        return;
      }
      var failed: bool;
      match Classify(row.raw, env.decode) {
        case Malformed =>
          failed := true;
        case Items(items) =>
          failed := ProcessItems(row, items);
      }
      if failed {
        RecordError(row);
      }
      slept := slept + [0.5];
    }

    /** `for i, row in enumerate(rows)` */
    method ProcessRows(rows: seq<Row>)
      modifies this
      ensures State() == Processing.ProcessRows(old(State()), rows, env)
    {
      for i := 0 to |rows|
        invariant Processing.ProcessRows(old(State()), rows, env) ==
                  Processing.ProcessRows(State(), rows[i..], env)
      {
        assert rows[i..][0] == rows[i] && rows[i..][1..] == rows[i + 1..];
        ProcessRow(rows[i]);
      }
    }

    /** One turn of the `while True` loop. */
    method Batch() returns (status: Processing.Status)
      modifies this
      ensures Processing.Batch(old(State()), env) == Processing.Ended(State(), status)
    {
      var ok := Connect();
      if !ok {
        return Processing.NoConnection;
      }
      ok := Execute();
      if !ok {
        slept := slept + [2.0];
        return Processing.Continue;
      }
      var rows := SelectBatch(buffer);
      if rows == [] {
        return Processing.Drained;
      }
      ProcessRows(rows);
      slept := slept + [2.0];
      status := Processing.Continue;
    }

    /** The `while True` loop, given at most `fuel` turns. */
    method Run(fuel: nat) returns (status: Processing.Status)
      modifies this
      ensures Processing.Run(old(State()), fuel, env) == Processing.Ended(State(), status)
    {
      var left: nat := fuel;
      status := Processing.Continue;
      while left > 0
        invariant left <= fuel
        invariant Processing.Run(old(State()), fuel, env) == Processing.Run(State(), left, env)
      {
        status := Batch();
        if status != Processing.Continue {
          return;
        }
        left := left - 1;
      }
      status := Processing.OutOfFuel;
    }

    /** `main`: the first connection, the early return, the loop. */
    method Job(fuel: nat) returns (status: Processing.Status)
      modifies this
      ensures Processing.Job(old(State()), fuel, env) == Processing.Ended(State(), status)
    {
      var ok := Connect();
      if !ok {
        return Processing.NoConnection;
      }
      if Eligibles(buffer) == [] {
        return Processing.NothingToDo;
      }
      status := Run(fuel);
    }
  }
}
