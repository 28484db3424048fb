/**
 * What the batch loop of the processing job guarantees, and what it does not:
 * how the tables may change, what happens to each kind of row under a
 * database that never fails, and the ways the loop can end.
 */
module ProcessingFacts {
  import opened Wrappers
  import opened Json
  import opened Retry
  import opened Buffer
  import opened Normalize
  import opened Processing

  /**
   * How the world can change: buffer rows only ever leave the eligible set,
   * main-table rows are never changed or removed, the counters never go down
   * and sleeps are only appended.
   */
  predicate Grows(a: World, b: World)
  {
    Evolves(a.buffer, b.buffer) &&
    (forall k :: k in a.main ==> k in b.main && b.main[k] == a.main[k]) &&
    a.processed <= b.processed && a.errors <= b.errors &&
    a.slept <= b.slept
  }

  /** Only buffer rows with the given id differ. */
  predicate OnlyRow(a: World, b: World, id: int)
  {
    |a.buffer| == |b.buffer| &&
    forall i :: 0 <= i < |a.buffer| && a.buffer[i].id != id ==> b.buffer[i] == a.buffer[i]
  }

  lemma GrowsTransitive(a: World, b: World, c: World)
    requires Grows(a, b) && Grows(b, c)
    ensures Grows(a, c)
  {
    EvolvesTransitive(a.buffer, b.buffer, c.buffer);
  }

  // ---------------------------------------------------------------------
  // Effects of each layer
  // ---------------------------------------------------------------------

  lemma ConnectEffect(w: World)
    ensures var c := Connect(w).w;
      Grows(w, c) && c.buffer == w.buffer && c.main == w.main &&
      c.processed == w.processed && c.errors == w.errors
  {
  }

  lemma InsertItemEffect(w: World, row: Row, m: MainRow, env: Env)
    ensures Grows(w, InsertItem(w, row, m, env).w)
    ensures OnlyRow(w, InsertItem(w, row, m, env).w, row.id)
    ensures InsertItem(w, row, m, env).w.errors == w.errors
  {
    var ins := Execute(w);
    var kept := Keep(ins.w, m);
    assert Grows(w, kept) && kept.buffer == w.buffer;
    if ins.ok {
      var upd := Execute(kept);
      if upd.ok {
        var last := InsertItem(w, row, m, env).w;
        assert last.buffer == MarkProcessed(w.buffer, row.id, env.now);
        assert Grows(kept, last);
      }
    }
  }

  lemma ItemStepEffect(w: World, row: Row, item: Value, env: Env)
    ensures Grows(w, ItemStep(w, row, item, env).w)
    ensures OnlyRow(w, ItemStep(w, row, item, env).w, row.id)
    ensures ItemStep(w, row, item, env).w.errors == w.errors
  {
    var plan := PlanItem(item, row);
    assert ItemStep(w, row, item, env) == ItemInsert(w, row, plan, env);
    if plan.Insert? {
      InsertItemEffect(w, row, plan.main, env);
    }
  }

  lemma {:induction false} ProcessItemsEffect(w: World, row: Row, items: seq<Value>, env: Env)
    ensures Grows(w, ProcessItems(w, row, items, env).w)
    ensures OnlyRow(w, ProcessItems(w, row, items, env).w, row.id)
    ensures ProcessItems(w, row, items, env).w.errors == w.errors
    decreases |items|
  {
    if items != [] {
      var f0 := ItemStep(w, row, items[0], env);
      ItemStepEffect(w, row, items[0], env);
      if !f0.failed {
        ProcessItemsEffect(f0.w, row, items[1..], env);
        GrowsTransitive(w, f0.w, ProcessItems(f0.w, row, items[1..], env).w);
      }
    }
  }

  lemma RecordErrorEffect(w: World, row: Row)
    ensures Grows(w, RecordError(w, row))
    ensures OnlyRow(w, RecordError(w, row), row.id)
    ensures RecordError(w, row).errors == w.errors + 1
    ensures RecordError(w, row).processed == w.processed
  {
  }

  /**
   * Processing one row changes no other buffer row, leaves every main-table
   * row in place, and counts at most one error.
   */
  lemma ProcessRowEffect(w: World, row: Row, env: Env)
    ensures Grows(w, ProcessRow(w, row, env))
    ensures OnlyRow(w, ProcessRow(w, row, env), row.id)
    ensures w.errors <= ProcessRow(w, row, env).errors <= w.errors + 1
  {
    var c := Connect(w);
    if c.ok {
      var f := match Classify(row.raw, env.decode)
        case Malformed => Flow(c.w, true)
        case Items(items) => ProcessItems(c.w, row, items, env);
      if Classify(row.raw, env.decode).Items? {
        ProcessItemsEffect(c.w, row, Classify(row.raw, env.decode).items, env);
      }
      GrowsTransitive(w, c.w, f.w);
      if f.failed {
        RecordErrorEffect(f.w, row);
        GrowsTransitive(w, f.w, RecordError(f.w, row));
      }
    }
  }

  lemma {:induction false} ProcessRowsEffect(w: World, rows: seq<Row>, env: Env)
    ensures Grows(w, ProcessRows(w, rows, env))
    ensures ProcessRows(w, rows, env).errors <= w.errors + |rows|
    decreases |rows|
  {
    if rows != [] {
      var w1 := ProcessRow(w, rows[0], env);
      ProcessRowEffect(w, rows[0], env);
      ProcessRowsEffect(w1, rows[1..], env);
      GrowsTransitive(w, w1, ProcessRows(w1, rows[1..], env));
    }
  }

  /** A batch turn never counts more errors than the batch size. */
  lemma BatchEffect(w: World, env: Env)
    ensures Grows(w, Batch(w, env).w)
    ensures Batch(w, env).w.errors <= w.errors + BatchSize
  {
    var c := Connect(w);
    ConnectEffect(w);
    if c.ok {
      var sel := Execute(c.w);
      assert Grows(c.w, sel.w);
      GrowsTransitive(w, c.w, sel.w);
      if sel.ok {
        var rows := SelectBatch(sel.w.buffer);
        if rows != [] {
          var w2 := ProcessRows(sel.w, rows, env);
          ProcessRowsEffect(sel.w, rows, env);
          GrowsTransitive(w, sel.w, w2);
          assert |rows| <= BatchSize;
          assert Batch(w, env).w == w2.(slept := w2.slept + [2.0]);
        } else {
          assert Batch(w, env).w == sel.w;
        }
      } else {
        assert Batch(w, env).w == sel.w.(slept := sel.w.slept + [2.0]);
      }
    }
  }

  lemma {:induction false} RunEffect(w: World, fuel: nat, env: Env)
    ensures Grows(w, Run(w, fuel, env).w)
    decreases fuel
  {
    if fuel > 0 {
      var b := Batch(w, env);
      BatchEffect(w, env);
      if b.status == Continue {
        RunEffect(b.w, fuel - 1, env);
        GrowsTransitive(w, b.w, Run(b.w, fuel - 1, env).w);
      }
    }
  }

  /**
   * Whatever the database does, a run of the job never un-processes or
   * un-flags a buffer row, never changes or deletes a main-table row, and
   * keeps the buffer in id order.
   */
  lemma JobEffect(w: World, fuel: nat, env: Env)
    ensures Grows(w, Job(w, fuel, env).w)
    ensures IdsIncreasing(w.buffer) ==> IdsIncreasing(Job(w, fuel, env).w.buffer)
  {
    var c := Connect(w);
    if c.ok && Eligibles(c.w.buffer) != [] {
      RunEffect(c.w, fuel, env);
    }
  }

  // ---------------------------------------------------------------------
  // How the loop ends
  // ---------------------------------------------------------------------

  /** The loop reports the buffer drained only when no row is eligible any more. */
  lemma {:induction false} DrainedMeansNothingEligible(w: World, fuel: nat, env: Env)
    requires Run(w, fuel, env).status == Drained
    ensures forall x :: x in Run(w, fuel, env).w.buffer ==> !Eligible(x)
    decreases fuel
  {
    var b := Batch(w, env);
    if b.status == Continue {
      DrainedMeansNothingEligible(b.w, fuel - 1, env);
    } else {
      BatchDrained(w, env);
    }
  }

  /** A turn reports the buffer drained only when its select found no eligible row. */
  lemma BatchDrained(w: World, env: Env)
    requires Batch(w, env).status == Drained
    ensures forall x :: x in Batch(w, env).w.buffer ==> !Eligible(x)
  {
    var c := Connect(w);
    var sel := Execute(c.w);
    assert c.ok && sel.ok;
    assert Batch(w, env).w == sel.w;
    assert SelectBatch(sel.w.buffer) == [];
    assert Eligibles(sel.w.buffer) == [];
  }

  /**
   * The converse: once the SELECT goes through over a buffer with no
   * eligible row, the batch is empty and the loop ends as drained.
   */
  lemma EmptyBatchEnds(w: World, env: Env)
    requires Connect(w).ok && Outcome(Connect(w).w.script, 0) == Succeeded
    requires forall x :: x in w.buffer ==> !Eligible(x)
    ensures Batch(w, env).status == Drained
  {
    var sel := Execute(Connect(w).w);
    assert sel.w.buffer == w.buffer;
    NothingEligibleSelectsNothing(w.buffer);
  }

  /** Every operation succeeds: the script of failures is used up. */
  predicate Healthy(w: World)
  {
    w.script == []
  }

  lemma HealthyConnect(w: World)
    requires Healthy(w)
    ensures Connect(w) == Step(w, true)
  {
    var c := ConnectPlan(w.script);
    assert Outcome(w.script, 0) == Succeeded;
    assert c.attempts == 1;
    assert w.slept + [] == w.slept;
  }

  /** A row whose payload holds nothing insertable: every item is skipped. */
  predicate Unusable(row: Row, decode: Decoder)
  {
    Classify(row.raw, decode).Items? &&
    forall it :: it in Classify(row.raw, decode).items ==> PlanItem(it, row).Skip?
  }

  lemma {:induction false} SkippedItems(w: World, row: Row, items: seq<Value>, env: Env)
    requires forall it :: it in items ==> PlanItem(it, row).Skip?
    ensures ProcessItems(w, row, items, env) == Flow(w, false)
    decreases |items|
  {
    if items != [] {
      assert items[0] in items;
      SkippedItems(w, row, items[1..], env);
    }
  }

  /**
   * A row with nothing insertable is neither marked processed nor flagged:
   * it stays eligible and is selected again by the next batch.
   */
  lemma UnusableRowStaysEligible(w: World, row: Row, env: Env)
    requires Healthy(w) && Unusable(row, env.decode)
    ensures ProcessRow(w, row, env) == w.(slept := w.slept + [0.5])
  {
    HealthyConnect(w);
    SkippedItems(w, row, Classify(row.raw, env.decode).items, env);
  }

  lemma {:induction false} UnusableRowsUnchanged(w: World, rows: seq<Row>, env: Env)
    requires Healthy(w)
    requires forall x :: x in rows ==> Unusable(x, env.decode)
    ensures var r := ProcessRows(w, rows, env);
      Healthy(r) && r.buffer == w.buffer && r.main == w.main &&
      r.processed == w.processed && r.errors == w.errors
    decreases |rows|
  {
    if rows != [] {
      assert rows[0] in rows;
      UnusableRowStaysEligible(w, rows[0], env);
      UnusableRowsUnchanged(ProcessRow(w, rows[0], env), rows[1..], env);
    }
  }

  /**
   * When the next batch holds only rows with nothing insertable, the loop
   * never drains and never loses its connection: however many turns it is
   * given, it uses them all and leaves the buffer as it was.
   */
  lemma {:induction false} StuckBatchNeverEnds(w: World, fuel: nat, env: Env)
    requires Healthy(w)
    requires SelectBatch(w.buffer) != []
    requires forall x :: x in SelectBatch(w.buffer) ==> Unusable(x, env.decode)
    ensures Run(w, fuel, env).status == OutOfFuel
    ensures Run(w, fuel, env).w.buffer == w.buffer
    decreases fuel
  {
    if fuel > 0 {
      HealthyConnect(w);
      var sel := Execute(w);
      assert sel.ok && sel.w == w;
      UnusableRowsUnchanged(w, SelectBatch(w.buffer), env);
      var b := Batch(w, env);
      assert b.status == Continue && b.w.buffer == w.buffer && Healthy(b.w);
      StuckBatchNeverEnds(b.w, fuel - 1, env);
    }
  }

  // ---------------------------------------------------------------------
  // What happens to each kind of row when the database never fails
  // ---------------------------------------------------------------------

  /**
   * An insertable item whose key is already in the main table is not an
   * error: the table keeps its first row for that key, the buffer row is
   * marked processed and the item is counted.
   */
  lemma DuplicateKeyIsBenign(w: World, row: Row, item: Value, env: Env)
    requires Healthy(w)
    requires PlanItem(item, row).Insert? && PlanItem(item, row).main.kartId in w.main
    ensures var f := ItemStep(w, row, item, env);
      !f.failed && f.w.main == w.main && f.w.processed == w.processed + 1 &&
      f.w.buffer == MarkProcessed(w.buffer, row.id, env.now)
  {
  }

  /** A new key is added to the main table with the row built from the item. */
  lemma NewKeyIsInserted(w: World, row: Row, item: Value, env: Env)
    requires Healthy(w)
    requires PlanItem(item, row).Insert? && PlanItem(item, row).main.kartId !in w.main
    ensures var m := PlanItem(item, row).main;
      var f := ItemStep(w, row, item, env);
      !f.failed && f.w.main == w.main[m.kartId := m] && f.w.processed == w.processed + 1 &&
      f.w.buffer == MarkProcessed(w.buffer, row.id, env.now)
  {
  }

  lemma MarkProcessedTwice(rows: seq<Row>, id: int, now: int)
    ensures MarkProcessed(MarkProcessed(rows, id, now), id, now) == MarkProcessed(rows, id, now)
  {
  }

  /**
   * `processed_count` counts items, not rows: a payload of `n` insertable
   * items adds `n`, every key ends up in the main table, and the row is
   * marked processed once at least one item went through.
   */
  lemma {:induction false} InsertableItems(w: World, row: Row, items: seq<Value>, env: Env)
    requires Healthy(w)
    requires forall it :: it in items ==> PlanItem(it, row).Insert?
    ensures var f := ProcessItems(w, row, items, env);
      !f.failed && Healthy(f.w) && f.w.processed == w.processed + |items| &&
      f.w.errors == w.errors && f.w.slept == w.slept &&
      (forall it :: it in items ==> PlanItem(it, row).main.kartId in f.w.main) &&
      f.w.buffer == if items == [] then w.buffer else MarkProcessed(w.buffer, row.id, env.now)
    decreases |items|
  {
    if items != [] {
      assert items[0] in items;
      var m := PlanItem(items[0], row).main;
      var f0 := ItemStep(w, row, items[0], env);
      if m.kartId in w.main {
        DuplicateKeyIsBenign(w, row, items[0], env);
      } else {
        NewKeyIsInserted(w, row, items[0], env);
      }
      assert m.kartId in f0.w.main;
      InsertableItems(f0.w, row, items[1..], env);
      var f := ProcessItems(f0.w, row, items[1..], env);
      ProcessItemsEffect(f0.w, row, items[1..], env);
      MarkProcessedTwice(w.buffer, row.id, env.now);
      forall it | it in items
        ensures PlanItem(it, row).main.kartId in f.w.main
      {
        if it != items[0] {
          assert it in items[1..];
        }
      }
    }
  }

  /**
   * A row whose payload is `n` insertable items is marked processed (when
   * `n > 0`), counted `n` times, not counted as an error, and followed by the
   * half-second pause.
   */
  lemma GoodRow(w: World, row: Row, env: Env)
    requires Healthy(w)
    requires Classify(row.raw, env.decode).Items?
    requires forall it :: it in Classify(row.raw, env.decode).items ==> PlanItem(it, row).Insert?
    ensures var items := Classify(row.raw, env.decode).items;
      var r := ProcessRow(w, row, env);
      r.processed == w.processed + |items| && r.errors == w.errors &&
      r.slept == w.slept + [0.5] &&
      r.buffer == if items == [] then w.buffer else MarkProcessed(w.buffer, row.id, env.now)
  {
    HealthyConnect(w);
    InsertableItems(w, row, Classify(row.raw, env.decode).items, env);
  }

  /** Rows with the given id are flagged; other rows are as in `before`. */
  lemma HealthyRecordError(w: World, row: Row)
    requires Healthy(w)
    ensures RecordError(w, row) == w.(errors := w.errors + 1, buffer := MarkError(w.buffer, row.id))
  {
    HealthyConnect(w.(errors := w.errors + 1));
  }

  /**
   * A payload that is neither a dict nor JSON text of a dict or a list is
   * quarantined: the row is flagged `is_error`, `error_count` goes up by one,
   * nothing is counted as processed.
   */
  lemma MalformedRowQuarantined(w: World, row: Row, env: Env)
    requires Healthy(w) && Classify(row.raw, env.decode).Malformed?
    ensures ProcessRow(w, row, env) ==
      w.(errors := w.errors + 1, buffer := MarkError(w.buffer, row.id), slept := w.slept + [0.5])
  {
    HealthyConnect(w);
    HealthyRecordError(w, row);
  }

  /**
   * An insert that fails for any reason other than a duplicate key
   * quarantines the row: nothing reaches the main table, nothing is counted
   * as processed, one error is counted, and the row is flagged exactly when
   * the fresh connection of the `except` branch and its UPDATE go through.
   */
  lemma FailedInsertQuarantines(w: World, row: Row, env: Env)
    requires Connect(w).ok
    requires Classify(row.raw, env.decode).Items? && Classify(row.raw, env.decode).items != []
    requires PlanItem(Classify(row.raw, env.decode).items[0], row).Insert?
    requires Outcome(Connect(w).w.script, 0) != Succeeded
    ensures var r := ProcessRow(w, row, env);
      var e := Connect(Execute(Connect(w).w).w);
      r.main == w.main && r.errors == w.errors + 1 && r.processed == w.processed &&
      r.buffer == if e.ok && Outcome(e.w.script, 0) == Succeeded then MarkError(w.buffer, row.id) else w.buffer
  {
    var c := Connect(w);
    ConnectEffect(w);
    var items := Classify(row.raw, env.decode).items;
    var f := ProcessItems(c.w, row, items, env);
    assert f == ItemStep(c.w, row, items[0], env);
    assert f == Flow(Execute(c.w).w, true);
    RecordErrorEffect(f.w, row);
  }

  /**
   * Without a connection for the row (lines 154-157) the row is skipped: the
   * tables and the counters are as they were, so the row stays eligible.
   */
  lemma NoConnectionSkipsRow(w: World, row: Row, env: Env)
    requires !Connect(w).ok
    ensures var r := ProcessRow(w, row, env);
      r.buffer == w.buffer && r.main == w.main &&
      r.processed == w.processed && r.errors == w.errors &&
      r.slept == w.slept + ConnectPlan(w.script).sleeps
  {
    ConnectEffect(w);
  }

  lemma InsertThenFail(w: World, row: Row, env: Env, a: Value, b: Value)
    requires Healthy(w)
    requires PlanItem(a, row).Insert? && PlanItem(b, row).BadInfo?
    ensures var f := ProcessItems(w, row, [a, b], env);
      f.failed && Healthy(f.w) && f.w.processed == w.processed + 1 && f.w.errors == w.errors &&
      f.w.buffer == MarkProcessed(w.buffer, row.id, env.now)
  {
    var fa := ItemStep(w, row, a, env);
    InsertableItems(w, row, [a], env);
    assert [a][1..] == [];
    assert ProcessItems(w, row, [a], env) == ProcessItems(fa.w, row, [], env);
    assert [a, b][1..] == [b];
    assert ProcessItems(w, row, [a, b], env) == ProcessItems(fa.w, row, [b], env);
  }

  /**
   * The marking happens inside the item loop, so a row whose first item is
   * inserted and whose second item fails ends up both processed and flagged
   * as an error, and is counted in both counters.
   */
  lemma ProcessedAndFlagged(w: World, row: Row, env: Env, a: Value, b: Value)
    requires Healthy(w)
    requires Classify(row.raw, env.decode) == Items([a, b])
    requires PlanItem(a, row).Insert? && PlanItem(b, row).BadInfo?
    ensures var r := ProcessRow(w, row, env);
      r.processed == w.processed + 1 && r.errors == w.errors + 1 && |r.buffer| == |w.buffer| &&
      forall i :: 0 <= i < |w.buffer| && w.buffer[i].id == row.id ==>
        r.buffer[i].processedAt == Some(env.now) && r.buffer[i].isError
  {
    HealthyConnect(w);
    InsertThenFail(w, row, env, a, b);
    var f := ProcessItems(w, row, [a, b], env);
    HealthyRecordError(f.w, row);
    var e := RecordError(f.w, row);
    assert ProcessRow(w, row, env) == e.(slept := e.slept + [0.5]);
    var p := MarkProcessed(w.buffer, row.id, env.now);
    assert e.buffer == MarkError(p, row.id);
    forall i | 0 <= i < |w.buffer| && w.buffer[i].id == row.id
      ensures e.buffer[i].processedAt == Some(env.now) && e.buffer[i].isError
    {
      assert p[i].processedAt == Some(env.now) && p[i].id == row.id;
    }
  }
}
