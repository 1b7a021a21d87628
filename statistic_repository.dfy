/**
 * The statistic service's repository over ClickHouse. The SQL text, grouping, ordering and
 * limits are the database's business: a query is a value naming what it asks for, and the
 * database answers it with a row or a sequence of rows. What the repository itself does —
 * choose the querier, whitelist the top-ten parameter, scan rows one by one — is modelled.
 */
module StatisticRepository {
  import opened Wrappers
  import opened Numeric
  import opened Txs
  import pb = Protos

  /** The three event tables: views, comments and likes. */
  datatype Table = Views | Comments | Likes

  function TableName(t: Table): string {
    match t
    case Views => "views"
    case Comments => "comments"
    case Likes => "likes"
  }

  /**
   * The top-ten parameter's whitelist: "likes", "comments" or "views" name a table, anything
   * else is rejected before a query is built.
   */
  function ParseTable(par: string): (r: Option<Table>)
    ensures r.Some? <==> par == "likes" || par == "comments" || par == "views"
    ensures r.Some? ==> TableName(r.value) == par
  {
    if par == "likes" then Some(Likes)
    else if par == "comments" then Some(Comments)
    else if par == "views" then Some(Views)
    else None
  }

  /** The column a top-ten query groups by. */
  datatype Column = PostIdColumn | UserIdColumn

  /** The queries the repository sends. */
  datatype Query =
    | CountQuery(table: Table, postID: Int64)     // SELECT COUNT(*) FROM table WHERE post_id = ?
    | DynamicQuery(table: Table, postID: Int64)   // per-day counts of the post in table, by date
    | TopTenQuery(column: Column, table: Table)   // the ten column values with most rows in table

  /** A value in a result row. */
  datatype SqlValue = SqlInt(n: int) | SqlDate(day: pb.Instant) | SqlText(s: string) | SqlNull

  type Row = seq<SqlValue>

  /** The database's answers: QueryRow's row (or its error) and Query's rows (or its error). */
  datatype SqlDb = SqlDb(
    queryRow: (Querier, Query) -> Result<Row>,
    query: (Querier, Query) -> Result<seq<Row>>)

  /** A query as it reached the database, with the querier it went through. */
  datatype Sent = Sent(querier: Querier, query: Query)

  /** What a repository method returns, and the query it sent (none when it rejected its input). */
  datatype Reply<T> = Reply(sent: Option<Sent>, result: Result<T>)

  /** models.Dynamic: a day and the number of events on it. */
  datatype Dynamic = Dynamic(date: pb.Instant, count: Int64)

  // ---------------------------------------------------------------------------
  // Scanning rows

  /**
   * database/sql's conversion of one column into a Go int: an integer that fits, or text that
   * strconv.ParseInt reads in base 10 within 64 bits (the same syntax as strconv.Atoi); a NULL,
   * a date or any other text is an error.
   */
  function ColumnInt(v: SqlValue): (r: Result<Int64>)
    ensures v.SqlInt? ==> (r.Ok? <==> -0x8000_0000_0000_0000 <= v.n < 0x8000_0000_0000_0000)
    ensures v.SqlInt? && r.Ok? ==> r.value == v.n
    ensures v.SqlText? ==> (r.Ok? <==> Atoi(v.s).Ok?) && (r.Ok? ==> r == Atoi(v.s))
    ensures v.SqlNull? || v.SqlDate? ==> r.Err?
  {
    match v
    case SqlInt(n) =>
      if -0x8000_0000_0000_0000 <= n < 0x8000_0000_0000_0000 then Ok(n as Int64)
      else Err(Message("sql: Scan error: value out of range"))
    case SqlText(s) =>
      if Atoi(s).Ok? then Ok(Atoi(s).value)
      else Err(Message("sql: Scan error: converting string to int: invalid syntax"))
    case _ => Err(Message("sql: Scan error: unsupported conversion"))
  }

  /** An integer column and its decimal text scan to the same int. */
  lemma TextColumnScansLikeInt(n: Int64)
    ensures ColumnInt(SqlText(Itoa(n))) == ColumnInt(SqlInt(n)) == Ok(n)
  {
    ItoaRoundTrip(n);
  }

  /** rows.Scan(&id) or Scan(&count): exactly one column, converted to a Go int. */
  function ScanInt(row: Row): (r: Result<Int64>)
    ensures r.Ok? <==> |row| == 1 && ColumnInt(row[0]).Ok?
    ensures r.Ok? ==> r == ColumnInt(row[0])
  {
    if |row| != 1 then Err(Message("sql: expected 1 destination arguments in Scan"))
    else ColumnInt(row[0])
  }

  /** rows.Scan(&d.Date, &d.Count): a date column, then a column converted to a Go int. */
  function ScanDynamic(row: Row): (r: Result<Dynamic>)
    ensures r.Ok? <==> |row| == 2 && row[0].SqlDate? && ColumnInt(row[1]).Ok?
    ensures r.Ok? ==> r.value == Dynamic(row[0].day, ColumnInt(row[1]).value)
  {
    if |row| != 2 then Err(Message("sql: expected 2 destination arguments in Scan"))
    else if !row[0].SqlDate? then Err(Message("sql: Scan error on column index 0"))
    else match ColumnInt(row[1])
      case Err(_) => Err(Message("sql: Scan error on column index 1"))
      case Ok(count) => Ok(Dynamic(row[0].day, count))
  }

  /** The rows.Next loop: every row scanned in order, or the first scan error. */
  function ScanAll<T>(rows: seq<Row>, scan: Row -> Result<T>): Result<seq<T>>
    decreases |rows|
  {
    if rows == [] then Ok([])
    else
      match ScanAll(rows[..|rows| - 1], scan)
      case Err(e) => Err(e)
      case Ok(vs) =>
        match scan(rows[|rows| - 1])
        case Err(e) => Err(e)
        case Ok(v) => Ok(vs + [v])
  }

  /** Once a prefix fails to scan, the whole sequence fails with the same error. */
  lemma {:induction false} ScanAllPrefixError<T>(rows: seq<Row>, i: nat, scan: Row -> Result<T>)
    requires i <= |rows| && ScanAll(rows[..i], scan).Err?
    ensures ScanAll(rows, scan) == ScanAll(rows[..i], scan)
    decreases |rows| - i
  {
    if i < |rows| {
      assert rows[..i + 1][..i] == rows[..i];
      ScanAllPrefixError(rows, i + 1, scan);
    } else {
      assert rows[..i] == rows;
    }
  }

  /**
   * Scanning succeeds exactly when every row scans, and then gives one element per row, in
   * row order: element i is row i scanned.
   */
  lemma {:induction false} ScanAllOk<T>(rows: seq<Row>, scan: Row -> Result<T>)
    ensures ScanAll(rows, scan).Ok? <==> forall i :: 0 <= i < |rows| ==> scan(rows[i]).Ok?
    ensures ScanAll(rows, scan).Ok? ==>
      && |ScanAll(rows, scan).value| == |rows|
      && forall i :: 0 <= i < |rows| ==> ScanAll(rows, scan).value[i] == scan(rows[i]).value
    decreases |rows|
  {
    if rows != [] {
      var front := rows[..|rows| - 1];
      ScanAllOk(front, scan);
      assert forall i :: 0 <= i < |front| ==> front[i] == rows[i];
    }
  }

  /** A failed scan reports the error of the first row that does not scan. */
  lemma {:induction false} ScanAllFirstError<T>(rows: seq<Row>, scan: Row -> Result<T>)
    requires ScanAll(rows, scan).Err?
    ensures exists i :: 0 <= i < |rows| && scan(rows[i]) == Err(ScanAll(rows, scan).error)
                        && forall j :: 0 <= j < i ==> scan(rows[j]).Ok?
    decreases |rows|
  {
    var front := rows[..|rows| - 1];
    assert forall j :: 0 <= j < |front| ==> front[j] == rows[j];
    if ScanAll(front, scan).Err? {
      ScanAllFirstError(front, scan);
      var i :| 0 <= i < |front| && scan(front[i]) == Err(ScanAll(front, scan).error) &&
        forall j :: 0 <= j < i ==> scan(front[j]).Ok?;
      assert scan(rows[i]) == Err(ScanAll(rows, scan).error);
    } else {
      ScanAllOk(front, scan);
      var i := |rows| - 1;
      assert scan(rows[i]) == Err(ScanAll(rows, scan).error);
    }
  }

  /** The rows.Next loop as the repository runs it: append each scanned row, return early on a scan error. */
  method CollectRows<T>(rows: seq<Row>, scan: Row -> Result<T>) returns (r: Result<seq<T>>)
    ensures r == ScanAll(rows, scan)
  {
    var collected: seq<T> := [];
    var i := 0;
    while i < |rows|
      invariant 0 <= i <= |rows|
      invariant ScanAll(rows[..i], scan) == Ok(collected)
    {
      assert rows[..i + 1][..i] == rows[..i];
      match scan(rows[i]) {
        case Err(e) =>
          assert ScanAll(rows[..i + 1], scan) == Err(e);
          ScanAllPrefixError(rows, i + 1, scan);
          return Err(e);
        case Ok(v) =>
          collected := collected + [v];
      }
      i := i + 1;
    }
    assert rows[..i] == rows;
    r := Ok(collected);
  }

  // ---------------------------------------------------------------------------
  // The repository

  /** The repository: a *sql.DB, which repository code uses when the context holds no transaction. */
  datatype Repository = Repository(db: SqlDb)

  /** GetViewsCount, GetCommentsCount and GetLikesCount: COUNT(*) of the post's rows in the table. */
  function GetCount(r: Repository, ctx: Context, table: Table, postID: Int64): (reply: Reply<Int64>)
    ensures reply.sent == Some(Sent(GetQuerier(ctx, Db), CountQuery(table, postID)))
    ensures r.db.queryRow(GetQuerier(ctx, Db), CountQuery(table, postID)).Err? ==>
      reply.result == Err(r.db.queryRow(GetQuerier(ctx, Db), CountQuery(table, postID)).error)
    ensures reply.result.Ok? <==>
      && r.db.queryRow(GetQuerier(ctx, Db), CountQuery(table, postID)).Ok?
      && ScanInt(r.db.queryRow(GetQuerier(ctx, Db), CountQuery(table, postID)).value).Ok?
    ensures r.db.queryRow(GetQuerier(ctx, Db), CountQuery(table, postID)).Ok? ==>
      reply.result == ScanInt(r.db.queryRow(GetQuerier(ctx, Db), CountQuery(table, postID)).value)
  {
    var sent := Sent(GetQuerier(ctx, Db), CountQuery(table, postID));
    match r.db.queryRow(sent.querier, sent.query)
    case Err(e) => Reply(Some(sent), Err(e))
    case Ok(row) => Reply(Some(sent), ScanInt(row))
  }

  /** What GetViewsDynamic, GetCommentsDynamic and GetLikesDynamic return: one Dynamic per row, in row order. */
  function DynamicReply(r: Repository, ctx: Context, table: Table, postID: Int64): Reply<seq<Dynamic>> {
    var sent := Sent(GetQuerier(ctx, Db), DynamicQuery(table, postID));
    match r.db.query(sent.querier, sent.query)
    case Err(e) => Reply(Some(sent), Err(e))
    case Ok(rows) => Reply(Some(sent), ScanAll(rows, ScanDynamic))
  }

  /** GetViewsDynamic, GetCommentsDynamic and GetLikesDynamic. */
  method GetDynamic(r: Repository, ctx: Context, table: Table, postID: Int64) returns (reply: Reply<seq<Dynamic>>)
    ensures reply == DynamicReply(r, ctx, table, postID)
  {
    var querier := GetQuerier(ctx, Db);
    var sent := Sent(querier, DynamicQuery(table, postID));
    var rows := r.db.query(querier, sent.query);
    if rows.Err? {
      return Reply(Some(sent), Err(rows.error));
    }
    var dynamics := CollectRows(rows.value, ScanDynamic);
    reply := Reply(Some(sent), dynamics);
  }

  /**
   * What GetTopTenPosts (column post_id) and GetTopTenUsers (column user_id) return: an
   * InvalidTopParameterError and no query for a parameter outside the whitelist, otherwise one
   * id per row of the query on the table the parameter names.
   */
  function TopTenReply(r: Repository, ctx: Context, column: Column, par: string): Reply<seq<Int64>> {
    match ParseTable(par)
    case None => Reply(None, Err(InvalidTopParameter))
    case Some(table) =>
      var sent := Sent(GetQuerier(ctx, Db), TopTenQuery(column, table));
      match r.db.query(sent.querier, sent.query)
      case Err(e) => Reply(Some(sent), Err(e))
      case Ok(rows) => Reply(Some(sent), ScanAll(rows, ScanInt))
  }

  /** GetTopTenPosts and GetTopTenUsers. */
  method GetTopTen(r: Repository, ctx: Context, column: Column, par: string) returns (reply: Reply<seq<Int64>>)
    ensures reply == TopTenReply(r, ctx, column, par)
  {
    var querier := GetQuerier(ctx, Db);
    if par != "likes" && par != "comments" && par != "views" {
      return Reply(None, Err(InvalidTopParameter));
    }
    var table := ParseTable(par).value;
    var sent := Sent(querier, TopTenQuery(column, table));
    var rows := r.db.query(querier, sent.query);
    if rows.Err? {
      return Reply(Some(sent), Err(rows.error));
    }
    var ids := CollectRows(rows.value, ScanInt);
    reply := Reply(Some(sent), ids);
  }

  // ---------------------------------------------------------------------------
  // Properties

  /** A parameter outside the whitelist is rejected with InvalidTopParameterError and no query is sent. */
  lemma TopTenRejects(r: Repository, ctx: Context, column: Column, par: string)
    requires par != "likes" && par != "comments" && par != "views"
    ensures TopTenReply(r, ctx, column, par) == Reply(None, Err(InvalidTopParameter))
  {
  }

  /** An accepted parameter sends one query, on the table the parameter names, through the context's querier. */
  lemma TopTenQueriesNamedTable(r: Repository, ctx: Context, column: Column, par: string)
    requires par == "likes" || par == "comments" || par == "views"
    ensures var reply := TopTenReply(r, ctx, column, par);
      && reply.sent.Some?
      && reply.sent.value.querier == GetQuerier(ctx, Db)
      && reply.sent.value.query.TopTenQuery?
      && reply.sent.value.query.column == column
      && TableName(reply.sent.value.query.table) == par
  {
  }

  /**
   * The top-ten list has one id per returned row, in row order, when every row scans; a
   * scan error anywhere discards the ids already collected and returns the first error.
   */
  lemma TopTenOnePerRow(r: Repository, ctx: Context, column: Column, par: string)
    requires ParseTable(par).Some?
    requires r.db.query(GetQuerier(ctx, Db), TopTenQuery(column, ParseTable(par).value)).Ok?
    ensures var rows := r.db.query(GetQuerier(ctx, Db), TopTenQuery(column, ParseTable(par).value)).value;
      var result := TopTenReply(r, ctx, column, par).result;
      && (result.Ok? <==> forall i :: 0 <= i < |rows| ==> ScanInt(rows[i]).Ok?)
      && (result.Ok? ==>
            && |result.value| == |rows|
            && forall i :: 0 <= i < |rows| ==> result.value[i] == ColumnInt(rows[i][0]).value)
  {
    var rows := r.db.query(GetQuerier(ctx, Db), TopTenQuery(column, ParseTable(par).value)).value;
    ScanAllOk(rows, ScanInt);
  }

  /** The dynamic has one entry per returned row, in row order, each the row's date and count. */
  lemma DynamicOnePerRow(r: Repository, ctx: Context, table: Table, postID: Int64)
    requires r.db.query(GetQuerier(ctx, Db), DynamicQuery(table, postID)).Ok?
    ensures var rows := r.db.query(GetQuerier(ctx, Db), DynamicQuery(table, postID)).value;
      var result := DynamicReply(r, ctx, table, postID).result;
      && (result.Ok? <==> forall i :: 0 <= i < |rows| ==> ScanDynamic(rows[i]).Ok?)
      && (result.Ok? ==>
            && |result.value| == |rows|
            && forall i :: 0 <= i < |rows| ==> result.value[i] == Dynamic(rows[i][0].day, ColumnInt(rows[i][1]).value))
  {
    var rows := r.db.query(GetQuerier(ctx, Db), DynamicQuery(table, postID)).value;
    ScanAllOk(rows, ScanDynamic);
  }

  /** A query error or a scan error is returned with no partial list. */
  lemma DynamicErrors(r: Repository, ctx: Context, table: Table, postID: Int64)
    ensures var answer := r.db.query(GetQuerier(ctx, Db), DynamicQuery(table, postID));
      var result := DynamicReply(r, ctx, table, postID).result;
      && (answer.Err? ==> result == Err(answer.error))
      && (answer.Ok? && result.Err? ==>
            exists i :: 0 <= i < |answer.value| && ScanDynamic(answer.value[i]) == Err(result.error))
  {
    var answer := r.db.query(GetQuerier(ctx, Db), DynamicQuery(table, postID));
    if answer.Ok? && DynamicReply(r, ctx, table, postID).result.Err? {
      ScanAllFirstError(answer.value, ScanDynamic);
    }
  }

  /** Inside a transaction every query of the repository goes through that transaction. */
  lemma QueriesRunInTransaction(r: Repository, ctx: Context, tx: nat, table: Table, postID: Int64, column: Column, par: string)
    ensures GetCount(r, InjectTx(ctx, tx), table, postID).sent.value.querier == InTx(tx)
    ensures DynamicReply(r, InjectTx(ctx, tx), table, postID).sent.value.querier == InTx(tx)
    ensures TopTenReply(r, InjectTx(ctx, tx), column, par).sent.Some? ==>
      TopTenReply(r, InjectTx(ctx, tx), column, par).sent.value.querier == InTx(tx)
  {
  }
}
