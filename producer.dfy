/**
 * One producer thread (`insert_data`) up to the end of its first loop
 * iteration, and the launch loop in `main` that binds each thread to its own
 * connection and to its share of the rate.
 */
module Producer {
  import opened Wrappers
  import opened Errors
  import opened OrderedDict
  import opened Synthesis
  import opened Statement
  import opened Rate

  /** `time.sleep(seconds)`: None, or the error it raises for a negative pause. */
  function SleepError(seconds: real): (e: Option<Error>)
    ensures e.Some? <==> seconds < 0.0
    ensures e.Some? ==> e.value == NegativeSleep
  {
    if seconds < 0.0 then Some(NegativeSleep) else None
  }

  /** What the first iteration does: the statement it sends to the database,
      if any, and the exception that ends the thread, if any. */
  datatype Iteration = Iteration(issued: Option<Insert>, raised: Option<Error>)

  /** `insert_data(conn, table_name, fields, tps)` up to the end of its first
      iteration: the interval is computed first, then a record is generated,
      its statement executed, and the thread sleeps. */
  method InsertData(table: string, fields: Schema, tps: int, faker: Oracle) returns (it: Iteration)
    ensures tps == 0 ==> it == Iteration(None, Some(ZeroDivision))
    ensures tps != 0 && Synthesize(fields, faker).Failure? ==>
      it == Iteration(None, Some(Synthesize(fields, faker).error))
    ensures tps != 0 && Synthesize(fields, faker).Success? ==>
      it.issued == Some(ComposeInsert(table, Synthesize(fields, faker).value))
      && (it.raised.Some? <==> tps < 0)
      && (tps < 0 ==> it.raised == Some(NegativeSleep))
  {
    var interval := Interval(tps);
    if interval.Failure? {
      return Iteration(None, Some(interval.error));
    }
    var data := GenerateRandomData(fields, faker);
    if data.Failure? {
      return Iteration(None, Some(data.error));
    }
    var insert := ComposeInsert(table, data.value);
    it := Iteration(Some(insert), SleepError(interval.value));
  }

  /** The statement sent for a generated record names every schema field once,
      in schema order, with one placeholder and one parameter per field: the
      table follows "INSERT INTO ", the column list in the first parentheses
      splits back into the schema's field names, and the placeholder list
      after "VALUES" splits into one "%s" per field. */
  lemma {:induction false} IssuedStatement(table: string, fields: Schema, faker: Oracle)
    requires Synthesize(fields, faker).Success? && |fields| > 0
    requires '%' !in table
    requires forall i :: 0 <= i < |fields| ==> ',' !in fields[i].0 && '%' !in fields[i].0
    ensures SplitList(ColumnList(Synthesize(fields, faker).value)) == Keys(fields)
    ensures |SplitList(PlaceholderList(Synthesize(fields, faker).value))| == |fields|
    ensures |ComposeInsert(table, Synthesize(fields, faker).value).params| == |fields|
    ensures Count(ComposeInsert(table, Synthesize(fields, faker).value).sql, '%') == |fields|
    ensures SplitList(PlaceholderList(Synthesize(fields, faker).value)) == Repeat("%s", |fields|)
    ensures LaidOut(ComposeInsert(table, Synthesize(fields, faker).value).sql, table,
                    ColumnList(Synthesize(fields, faker).value), PlaceholderList(Synthesize(fields, faker).value))
    ensures var data := Synthesize(fields, faker).value;
      var sql, p := ComposeInsert(table, data).sql, |InsertInto| + |table| + |OpenColumns|;
      var q := p + |ColumnList(data)| + |CloseColumnsOpenValues|;
      && SplitList(sql[p..p + |ColumnList(data)|]) == Keys(fields)
      && SplitList(sql[q..q + |PlaceholderList(data)|]) == Repeat("%s", |fields|)
  {
    var data := Synthesize(fields, faker).value;
    SynthesizeKeys(fields, faker);
    forall i | 0 <= i < |data| ensures ',' !in data[i].0 && '%' !in data[i].0 {
      assert data[i].0 == Keys(data)[i] == Keys(fields)[i] == fields[i].0;
    }
    ColumnsLineUp(table, data);
    PlaceholderCount(table, data);
    InsertSqlLayout(table, data);
  }

  /** A thread as `main` starts it: the index of the connection opened for it,
      and the arguments passed to `insert_data`. */
  datatype Worker = Worker(connection: nat, table: string, fields: Schema, tps: int)

  /** The threads `main` starts for a target rate and a thread count. */
  function Plan(table: string, fields: Schema, total: int, n: int): (r: Result<seq<Worker>, Error>)
    ensures r.Failure? <==> n == 0
    ensures r.Failure? ==> r.error == ZeroDivision
    ensures r.Success? ==> |r.value| == (if n > 0 then n else 0)
    ensures r.Success? ==> forall i :: 0 <= i < |r.value| ==>
      r.value[i] == Worker(i, table, fields, FloorDiv(total, n).value)
  {
    match FloorDiv(total, n)
    case Failure(e) => Failure(e)
    case Success(per) =>
      var count := if n > 0 then n else 0;
      Success(seq(count, i requires 0 <= i < count => Worker(i, table, fields, per)))
  }

  /** The rate all threads together aim at. */
  function TotalRate(workers: seq<Worker>): int {
    if |workers| == 0 then 0 else workers[0].tps + TotalRate(workers[1..])
  }

  lemma {:induction false} TotalRateUniform(workers: seq<Worker>, per: int)
    requires forall i :: 0 <= i < |workers| ==> workers[i].tps == per
    ensures TotalRate(workers) == |workers| * per
  {
    if |workers| > 0 {
      TotalRateUniform(workers[1..], per);
    }
  }

  /** The computation of `tps_per_thread` and the `for _ in range(num_threads)`
      loop of `main`: one connection and one thread per iteration. */
  method LaunchWorkers(table: string, fields: Schema, total: int, n: int) returns (r: Result<seq<Worker>, Error>)
    ensures r == Plan(table, fields, total, n)
  {
    var share := FloorDiv(total, n);
    if share.Failure? {
      return Failure(share.error);
    }
    var workers: seq<Worker> := [];
    var connections: nat := 0;
    var count := if n > 0 then n else 0;
    while connections < count
      invariant connections <= count
      invariant |workers| == connections
      invariant forall i :: 0 <= i < connections ==> workers[i] == Worker(i, table, fields, share.value)
    {
      workers := workers + [Worker(connections, table, fields, share.value)];
      connections := connections + 1;
    }
    assert workers == Plan(table, fields, total, n).value;
    return Success(workers);
  }

  /** Every thread has a connection of its own and the same share; together
      they aim at the target, short of it by less than one record per second
      per thread. */
  lemma PlanShares(table: string, fields: Schema, total: int, n: int)
    requires n > 0
    ensures Plan(table, fields, total, n).Success?
    ensures |Plan(table, fields, total, n).value| == n
    ensures forall i, j :: 0 <= i < j < n ==>
      Plan(table, fields, total, n).value[i].connection != Plan(table, fields, total, n).value[j].connection
    ensures total - n < TotalRate(Plan(table, fields, total, n).value) <= total
  {
    var per := FloorDiv(total, n).value;
    var workers := Plan(table, fields, total, n).value;
    TotalRateUniform(workers, per);
    PartitionBounds(total, n);
  }

  /** With a non-negative target of fewer records per second than threads every
      share is zero, so every thread raises `ZeroDivisionError` before inserting
      anything. */
  lemma StarvedThreads(table: string, fields: Schema, total: int, n: int, i: nat)
    requires 0 <= total < n && i < n
    ensures Plan(table, fields, total, n).Success?
    ensures Plan(table, fields, total, n).value[i].tps == 0
    ensures Interval(Plan(table, fields, total, n).value[i].tps) == Failure(ZeroDivision)
  {
    ZeroShareIff(total, n);
  }

  /** `main` as configured: 40 threads of 100 records per second, 4000 in all,
      each pausing 1/100 s. */
  lemma MainPlan(table: string, fields: Schema)
    ensures Plan(table, fields, 4000, 40).Success?
    ensures |Plan(table, fields, 4000, 40).value| == 40
    ensures forall i :: 0 <= i < 40 ==> Plan(table, fields, 4000, 40).value[i].tps == 100
    ensures TotalRate(Plan(table, fields, 4000, 40).value) == 4000
    ensures Interval(100) == Success(0.01)
  {
    MainShare();
    TotalRateUniform(Plan(table, fields, 4000, 40).value, 100);
  }
}
