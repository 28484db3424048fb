/**
 * The batch loop of the processing job (`main`), on values. The world is the
 * buffer table, the main table keyed by `kart_id`, the two counters, the
 * sleeps requested so far and the script of outcomes the database still has
 * in store: every connection attempt and every statement consumes the next
 * outcome, and once the script is used up every operation succeeds.
 */
module Processing {
  import opened Wrappers
  import opened Json
  import opened Retry
  import opened Buffer
  import opened Normalize

  datatype World = World(
    buffer: seq<Row>,
    main: map<Value, MainRow>,
    processed: nat,
    errors: nat,
    slept: seq<real>,
    script: seq<Attempt>)

  /** What the job cannot see: how `json.loads` decodes, and the `CURRENT_TIMESTAMP` it writes. */
  datatype Env = Env(decode: Decoder, now: int)

  function Drop(script: seq<Attempt>, n: nat): (r: seq<Attempt>)
    ensures |r| == if n <= |script| then |script| - n else 0
  {
    if n <= |script| then script[n..] else []
  }

  // ---------------------------------------------------------------------
  // Database operations
  // ---------------------------------------------------------------------

  datatype Step = Step(w: World, ok: bool)

  /** `get_connection()`: its attempts come from the script, its sleeps are recorded. */
  function Connect(w: World): (s: Step)
  {
    var c := ConnectPlan(w.script);
    Step(w.(script := Drop(w.script, c.attempts), slept := w.slept + c.sleeps), c.ok)
  }

  /** One `cur.execute(...)`: true when the statement goes through. */
  function Execute(w: World): (s: Step)
  {
    Step(w.(script := Drop(w.script, 1)), Outcome(w.script, 0) == Succeeded)
  }

  // ---------------------------------------------------------------------
  // Items, rows, batches
  // ---------------------------------------------------------------------

  /** The world after some items, and whether an exception left the item loop. */
  datatype Flow = Flow(w: World, failed: bool)

  /**
   * One item of the loop at lines 177-235: skipped; failing on `infoDtp`;
   * or inserted (a key already in the main table is a UniqueViolation and
   * leaves the table as it was), then the buffer row is marked processed and
   * `processed_count` goes up by one. A failing statement raises.
   */
  function ItemStep(w: World, row: Row, item: Value, env: Env): (f: Flow)
  {
    ItemInsert(w, row, PlanItem(item, row), env)
  }

  /** The world with `m` in the main table, unless its key is already there. */
  function Keep(w: World, m: MainRow): (r: World)
  {
    if m.kartId in w.main then w else w.(main := w.main[m.kartId := m])
  }

  /** `ItemStep` once the item's plan is known. */
  function ItemInsert(w: World, row: Row, plan: Plan, env: Env): (f: Flow)
  {
    match plan
    case Skip => Flow(w, false)
    case BadInfo => Flow(w, true)
    case Insert(m) => InsertItem(w, row, m, env)
  }

  /** The two statements for an item that is inserted: the INSERT, then the UPDATE of the buffer row. */
  function InsertItem(w: World, row: Row, m: MainRow, env: Env): (f: Flow)
  {
    var ins := Execute(w);
    if !ins.ok then Flow(ins.w, true)
    else
      var upd := Execute(Keep(ins.w, m));
      if !upd.ok then Flow(upd.w, true)
      else Flow(upd.w.(buffer := MarkProcessed(upd.w.buffer, row.id, env.now), processed := upd.w.processed + 1), false)
  }

  /** The item loop; the first exception ends it. */
  function ProcessItems(w: World, row: Row, items: seq<Value>, env: Env): (f: Flow)
    decreases |items|
  {
    if items == [] then Flow(w, false)
    else
      var f0 := ItemStep(w, row, items[0], env);
      if f0.failed then f0 else ProcessItems(f0.w, row, items[1..], env)
  }

  /**
   * The `except` at lines 237-253: count the error, then try to flag the row
   * on a fresh connection; a failure there is swallowed.
   */
  function RecordError(w: World, row: Row): (r: World)
  {
    var c := Connect(w.(errors := w.errors + 1));
    if !c.ok then c.w
    else
      var e := Execute(c.w);
      if e.ok then e.w.(buffer := MarkError(e.w.buffer, row.id)) else e.w
  }

  /**
   * One row of the batch: without a connection the row is skipped (and the
   * half-second pause with it); otherwise its payload is parsed and its items
   * processed, a failure is recorded, and the job pauses half a second.
   */
  function ProcessRow(w: World, row: Row, env: Env): (r: World)
  {
    var c := Connect(w);
    if !c.ok then c.w
    else
      var f := match Classify(row.raw, env.decode)
        case Malformed => Flow(c.w, true)
        case Items(items) => ProcessItems(c.w, row, items, env);
      var w2 := if f.failed then RecordError(f.w, row) else f.w;
      w2.(slept := w2.slept + [0.5])
  }

  /** The rows of one batch, in the order selected. */
  function ProcessRows(w: World, rows: seq<Row>, env: Env): (r: World)
    decreases |rows|
  {
    if rows == [] then w else ProcessRows(ProcessRow(w, rows[0], env), rows[1..], env)
  }

  /** How the `while True` loop is left, if it is. */
  datatype Status = Continue | Drained | NoConnection | OutOfFuel | NothingToDo

  datatype Result = Ended(w: World, status: Status)

  /**
   * One turn of the `while True` loop: no connection ends the loop; a failing
   * SELECT is logged and the loop pauses two seconds; an empty batch ends the
   * loop; otherwise the batch is processed and the loop pauses two seconds.
   */
  function Batch(w: World, env: Env): (b: Result)
    ensures b.status in {Continue, Drained, NoConnection}
  {
    var c := Connect(w);
    if !c.ok then Ended(c.w, NoConnection)
    else
      var sel := Execute(c.w);
      if !sel.ok then Ended(sel.w.(slept := sel.w.slept + [2.0]), Continue)
      else
        var rows := SelectBatch(sel.w.buffer);
        if rows == [] then Ended(sel.w, Drained)
        else
          var w2 := ProcessRows(sel.w, rows, env);
          Ended(w2.(slept := w2.slept + [2.0]), Continue)
  }

  /** At most `fuel` turns of the loop, which by itself need not end. */
  function Run(w: World, fuel: nat, env: Env): (r: Result)
    ensures r.status in {Drained, NoConnection, OutOfFuel}
    decreases fuel
  {
    if fuel == 0 then Ended(w, OutOfFuel)
    else
      var b := Batch(w, env);
      if b.status == Continue then Run(b.w, fuel - 1, env) else b
  }

  /**
   * `main`: the first connection (no connection, nothing done), the early
   * return when no row is eligible, then the loop.
   */
  function Job(w: World, fuel: nat, env: Env): (r: Result)
  {
    var c := Connect(w);
    if !c.ok then Ended(c.w, NoConnection)
    else if Eligibles(c.w.buffer) == [] then Ended(c.w, NothingToDo)
    else Run(c.w, fuel, env)
  }
}
