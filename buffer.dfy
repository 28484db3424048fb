/**
 * The buffer table `lbn.dtp_buffer` as the processing job sees it: rows in
 * ascending `id` order, each with its payload and its two status columns
 * `date_processing` and `is_error`.
 */
module Buffer {
  import opened Wrappers
  import opened Json

  /**
   * One buffer row. `processedAt` is `date_processing` (a timestamp, here an
   * integer clock reading); `cityName` may be NULL; `raw` is the JSON column
   * as the driver returns it (a dict for a JSON document, otherwise the text).
   */
  datatype Row = Row(
    id: int,
    cityName: Option<string>,
    regionId: Value,
    districtId: Value,
    raw: Value,
    processedAt: Option<int>,
    isError: bool)

  /** `date_processing IS NULL AND is_error = FALSE` */
  predicate Eligible(r: Row)
  {
    r.processedAt.None? && !r.isError
  }

  /** The table in `ORDER BY id` order, with `id` a primary key. */
  predicate IdsIncreasing(rows: seq<Row>)
  {
    forall i, j :: 0 <= i < j < |rows| ==> rows[i].id < rows[j].id
  }

  const BatchSize: nat := 10

  /** The eligible rows, in table order. */
  function Eligibles(rows: seq<Row>): (r: seq<Row>)
    ensures |r| <= |rows|
    ensures forall x :: x in r <==> x in rows && Eligible(x)
  {
    if rows == [] then []
    else (if Eligible(rows[0]) then [rows[0]] else []) + Eligibles(rows[1..])
  }

  lemma {:induction false} EligiblesIncreasing(rows: seq<Row>)
    requires IdsIncreasing(rows)
    ensures IdsIncreasing(Eligibles(rows))
  {
    if rows != [] {
      EligiblesIncreasing(rows[1..]);
      var tail := Eligibles(rows[1..]);
      forall x | x in tail
        ensures rows[0].id < x.id
      {
        var k :| 0 <= k < |rows[1..]| && rows[1..][k] == x;
        assert rows[k + 1] == x;
      }
    }
  }

  /** The statement selecting a batch: eligible rows, `ORDER BY id LIMIT 10`. */
  function SelectBatch(rows: seq<Row>): seq<Row>
  {
    var e := Eligibles(rows);
    if |e| <= BatchSize then e else e[..BatchSize]
  }

  /** A table with no eligible row selects an empty batch. */
  lemma {:induction false} NothingEligibleSelectsNothing(rows: seq<Row>)
    requires forall x :: x in rows ==> !Eligible(x)
    ensures SelectBatch(rows) == []
  {
    if rows != [] {
      assert rows[0] in rows;
      NothingEligibleSelectsNothing(rows[1..]);
    }
  }

  /**
   * A batch holds at most ten rows, all of them eligible rows of the table,
   * in ascending id order; it is empty exactly when no row is eligible; it is
   * short only when it holds every eligible row; and every eligible row left
   * out has a larger id than every row taken.
   */
  lemma SelectBatchSpec(rows: seq<Row>)
    requires IdsIncreasing(rows)
    ensures |SelectBatch(rows)| <= BatchSize
    ensures forall x :: x in SelectBatch(rows) ==> x in rows && Eligible(x)
    ensures IdsIncreasing(SelectBatch(rows))
    ensures SelectBatch(rows) == [] <==> forall x :: x in rows ==> !Eligible(x)
    ensures |SelectBatch(rows)| < BatchSize ==> forall x :: x in rows && Eligible(x) ==> x in SelectBatch(rows)
    ensures forall x, y :: x in rows && Eligible(x) && x !in SelectBatch(rows) && y in SelectBatch(rows) ==> y.id < x.id
  {
    var e := Eligibles(rows);
    var b := SelectBatch(rows);
    EligiblesIncreasing(rows);
    assert b == e[..|b|];
    forall x | x in b
      ensures x in rows && Eligible(x)
    {
      assert x in e;
    }
    forall i, j | 0 <= i < j < |b|
      ensures b[i].id < b[j].id
    {
      assert b[i] == e[i] && b[j] == e[j];
    }
    if e != [] {
      assert e[0] in e && b[0] == e[0];
    }
    if |b| < BatchSize {
      assert b == e;
    }
    forall x, y | x in rows && Eligible(x) && x !in b && y in b
      ensures y.id < x.id
    {
      assert x in e;
      var i :| 0 <= i < |e| && e[i] == x;
      var j :| 0 <= j < |b| && b[j] == y;
      assert e[j] == y;
    }
  }

  // ---------------------------------------------------------------------
  // The two updates the job makes to a buffer row
  // ---------------------------------------------------------------------

  /**
   * How a table can change under the job: the same rows with the same ids and
   * payloads; a timestamp once set stays set, an error flag once set stays set.
   */
  predicate Evolves(a: seq<Row>, b: seq<Row>)
  {
    |a| == |b| &&
    forall i :: 0 <= i < |a| ==>
      b[i].id == a[i].id && b[i].cityName == a[i].cityName &&
      b[i].regionId == a[i].regionId && b[i].districtId == a[i].districtId &&
      b[i].raw == a[i].raw &&
      (a[i].processedAt.Some? ==> b[i].processedAt.Some?) &&
      (a[i].isError ==> b[i].isError)
  }

  lemma EvolvesTransitive(a: seq<Row>, b: seq<Row>, c: seq<Row>)
    requires Evolves(a, b) && Evolves(b, c)
    ensures Evolves(a, c)
  {
  }

  /** A row that has left the eligible set never comes back. */
  lemma EvolvesKeepsIneligible(a: seq<Row>, b: seq<Row>, i: nat)
    requires Evolves(a, b) && i < |a| && !Eligible(a[i])
    ensures !Eligible(b[i])
  {
  }

  /** `UPDATE ... SET date_processing = CURRENT_TIMESTAMP WHERE id = %s` */
  function MarkProcessed(rows: seq<Row>, id: int, now: int): (r: seq<Row>)
    ensures Evolves(rows, r)
    ensures IdsIncreasing(rows) ==> IdsIncreasing(r)
    ensures forall i :: 0 <= i < |rows| && rows[i].id != id ==> r[i] == rows[i]
    ensures forall i :: 0 <= i < |rows| && rows[i].id == id ==>
              !Eligible(r[i]) && r[i].processedAt == Some(now) && r[i].isError == rows[i].isError
  {
    seq(|rows|, i requires 0 <= i < |rows| =>
      if rows[i].id == id then rows[i].(processedAt := Some(now)) else rows[i])
  }

  /** `UPDATE ... SET is_error = TRUE WHERE id = %s` */
  function MarkError(rows: seq<Row>, id: int): (r: seq<Row>)
    ensures Evolves(rows, r)
    ensures IdsIncreasing(rows) ==> IdsIncreasing(r)
    ensures forall i :: 0 <= i < |rows| && rows[i].id != id ==> r[i] == rows[i]
    ensures forall i :: 0 <= i < |rows| && rows[i].id == id ==>
              !Eligible(r[i]) && r[i].isError && r[i].processedAt == rows[i].processedAt
  {
    seq(|rows|, i requires 0 <= i < |rows| =>
      if rows[i].id == id then rows[i].(isError := true) else rows[i])
  }
}
