/**
 * The statistic service's transactor: a callback runs inside a database transaction that is
 * begun first and then committed when the callback succeeds or rolled back when it fails,
 * and repository code finds the transaction through the request context.
 */
module Txs {
  import opened Wrappers

  // ---------------------------------------------------------------------------
  // Contexts and queriers

  /** Keys of context values: the package's private txKey{}, or a key of some other package. */
  datatype ContextKey = TxKey | OtherKey(name: string)

  /** Values stored in a context: a transaction (by its id), or anything else. */
  datatype ContextValue = TxValue(tx: nat) | OtherValue(text: string)

  /** A context.Context: the background context, or a parent with one more key/value pair. */
  datatype Context = Background | WithValue(parent: Context, key: ContextKey, value: ContextValue)

  /** ctx.Value(key): the value of the innermost pair with that key, nil when there is none. */
  function Value(ctx: Context, key: ContextKey): (r: Option<ContextValue>)
    ensures ctx.WithValue? && ctx.key == key ==> r == Some(ctx.value)
    ensures ctx.WithValue? && ctx.key != key ==> r == Value(ctx.parent, key)
    ensures ctx.Background? ==> r.None?
  {
    match ctx
    case Background => None
    case WithValue(parent, k, v) => if k == key then Some(v) else Value(parent, key)
  }

  /** What repository code sends its SQL through: the database handle itself, or a transaction. */
  datatype Querier = Db | InTx(tx: nat)

  /** injectTx: the context with the transaction stored under txKey. */
  function InjectTx(ctx: Context, tx: nat): (r: Context)
    ensures Value(r, TxKey) == Some(TxValue(tx))
    ensures forall k :: k != TxKey ==> Value(r, k) == Value(ctx, k)
  {
    WithValue(ctx, TxKey, TxValue(tx))
  }

  /** GetQuerier: the transaction stored in the context when there is one, otherwise the default. */
  function GetQuerier(ctx: Context, defaultQuerier: Querier): (q: Querier)
    ensures (match Value(ctx, TxKey)
             case Some(TxValue(tx)) => q == InTx(tx)
             case _ => q == defaultQuerier)
  {
    match Value(ctx, TxKey)
    case Some(TxValue(tx)) => InTx(tx)
    case _ => defaultQuerier
  }

  /** Whatever context a transaction is injected into, GetQuerier finds that transaction. */
  lemma QuerierOfInjected(ctx: Context, tx: nat, defaultQuerier: Querier)
    ensures GetQuerier(InjectTx(ctx, tx), defaultQuerier) == InTx(tx)
  {
  }

  /** A context nobody injected a transaction into leaves repository code on the default querier. */
  lemma {:induction false} QuerierWithoutTx(ctx: Context, defaultQuerier: Querier)
    requires forall v :: !HasPair(ctx, TxKey, v)
    ensures GetQuerier(ctx, defaultQuerier) == defaultQuerier
  {
    NoPairNoValue(ctx, TxKey);
  }

  /** The context holds the pair (k, v) somewhere along its chain. */
  predicate HasPair(ctx: Context, k: ContextKey, v: ContextValue) {
    ctx.WithValue? && ((ctx.key == k && ctx.value == v) || HasPair(ctx.parent, k, v))
  }

  lemma {:induction false} NoPairNoValue(ctx: Context, k: ContextKey)
    requires forall v :: !HasPair(ctx, k, v)
    ensures Value(ctx, k).None?
  {
    if ctx.WithValue? {
      assert !HasPair(ctx, k, ctx.value);
      forall v ensures !HasPair(ctx.parent, k, v) {
        assert HasPair(ctx.parent, k, v) ==> HasPair(ctx, k, v);
      }
      NoPairNoValue(ctx.parent, k);
    }
  }

  // ---------------------------------------------------------------------------
  // The transaction protocol, as a value

  /** What the driver is asked to do, in order. */
  datatype TxOp = Begin(tx: nat) | Commit(tx: nat) | Rollback(tx: nat)

  /**
   * The database's answers for one transaction: the error BeginTx reports (if any), the id of
   * the transaction it opens, and the errors the driver reports for COMMIT and ROLLBACK.
   */
  datatype Driver = Driver(beginErr: Option<Error>, txId: nat, commitErr: Option<Error>, rollbackErr: Option<Error>)

  /** What WithTransactionWithValue returns, and what the driver was asked to do. */
  datatype TxReport<V> = TxReport(val: Option<V>, err: Option<Error>, ops: seq<TxOp>)

  /**
   * WithTransactionWithValue: begin; run the callback on the context carrying the transaction;
   * on a callback error return (nil, that error joined with the rollback's result); otherwise
   * commit and return the value with the commit's result, joined (by the deferred closure)
   * with the ErrTxDone that the rollback after a failed commit gets from database/sql.
   */
  function RunWithValue<V>(d: Driver, ctx: Context, txFunc: Context -> Result<V>): (r: TxReport<V>)
    ensures r.ops == [] || r.ops == [Begin(d.txId), Commit(d.txId)] || r.ops == [Begin(d.txId), Rollback(d.txId)]
  {
    if d.beginErr.Some? then TxReport(None, d.beginErr, [])
    else
      var tx := d.txId;
      match txFunc(InjectTx(ctx, tx))
      case Err(e) => TxReport(None, Join2(Some(e), d.rollbackErr), [Begin(tx), Rollback(tx)])
      case Ok(v) =>
        var err := if d.commitErr.None? then None else Join2(d.commitErr, Some(TxDone));
        TxReport(Some(v), err, [Begin(tx), Commit(tx)])
  }

  /** A callback without a value, as the value-returning form runs it. */
  function Valued(txFunc: Context -> Option<Error>): Context -> Result<()> {
    c => if txFunc(c).Some? then Err(txFunc(c).value) else Ok(())
  }

  /** A failed BeginTx is returned as it is; the callback never runs and nothing is committed or rolled back. */
  lemma BeginFailure<V>(d: Driver, ctx: Context, txFunc: Context -> Result<V>)
    requires d.beginErr.Some?
    ensures RunWithValue(d, ctx, txFunc) == TxReport(None, d.beginErr, [])
  {
  }

  /**
   * A failed callback: no value, an error that is (errors.Is) the callback's error and the
   * rollback's error, one rollback and no commit.
   */
  lemma CallbackFailure<V>(d: Driver, ctx: Context, txFunc: Context -> Result<V>)
    requires d.beginErr.None? && txFunc(InjectTx(ctx, d.txId)).Err?
    ensures var r := RunWithValue(d, ctx, txFunc);
      && r.val.None?
      && r.err.Some? && Is(r.err.value, txFunc(InjectTx(ctx, d.txId)).error)
      && (d.rollbackErr.Some? ==> Is(r.err.value, d.rollbackErr.value))
      && r.ops == [Begin(d.txId), Rollback(d.txId)]
  {
  }

  /** A successful callback and commit: the value, no error, no rollback. */
  lemma CommitSuccess<V>(d: Driver, ctx: Context, txFunc: Context -> Result<V>)
    requires d.beginErr.None? && txFunc(InjectTx(ctx, d.txId)).Ok? && d.commitErr.None?
    ensures RunWithValue(d, ctx, txFunc) ==
      TxReport(Some(txFunc(InjectTx(ctx, d.txId)).value), None, [Begin(d.txId), Commit(d.txId)])
  {
  }

  /**
   * A failed commit: the value is still returned, beside an error that is the commit's error and
   * ErrTxDone (the deferred rollback finds the transaction already done); the driver sees no rollback.
   */
  lemma CommitFailure<V>(d: Driver, ctx: Context, txFunc: Context -> Result<V>)
    requires d.beginErr.None? && txFunc(InjectTx(ctx, d.txId)).Ok? && d.commitErr.Some?
    ensures var r := RunWithValue(d, ctx, txFunc);
      && r.val == Some(txFunc(InjectTx(ctx, d.txId)).value)
      && r.err.Some? && Is(r.err.value, d.commitErr.value) && Is(r.err.value, TxDone)
      && r.ops == [Begin(d.txId), Commit(d.txId)]
  {
  }

  /** No error comes back exactly when the transaction began, the callback succeeded and the commit succeeded. */
  lemma NilErrorIffCommitted<V>(d: Driver, ctx: Context, txFunc: Context -> Result<V>)
    ensures RunWithValue(d, ctx, txFunc).err.None? <==>
      d.beginErr.None? && txFunc(InjectTx(ctx, d.txId)).Ok? && d.commitErr.None?
    ensures RunWithValue(d, ctx, txFunc).err.None? ==> RunWithValue(d, ctx, txFunc).val.Some?
  {
  }

  // ---------------------------------------------------------------------------
  // The transaction protocol, on objects

  /** A *sql.DB, with the requests its driver received. */
  class Database {
    const driver: Driver
    var log: seq<TxOp>

    constructor (driver: Driver)
      ensures this.driver == driver && log == []
    {
      this.driver := driver;
      log := [];
    }

    /** BeginTx: a fresh open transaction, or the driver's error and no transaction. */
    method BeginTx() returns (tx: Tx?, err: Option<Error>)
      modifies this
      ensures driver.beginErr.Some? ==> tx == null && err == driver.beginErr && log == old(log)
      ensures driver.beginErr.None? ==>
        && tx != null && fresh(tx) && tx.db == this && tx.id == driver.txId && !tx.done
        && err == None && log == old(log) + [Begin(driver.txId)]
    {
      if driver.beginErr.Some? {
        return null, driver.beginErr;
      }
      log := log + [Begin(driver.txId)];
      tx := new Tx(this, driver.txId);
      err := None;
    }
  }

  /** A *sql.Tx: once committed or rolled back it is done, and every later Commit or Rollback gets ErrTxDone. */
  class Tx {
    const db: Database
    const id: nat
    var done: bool

    constructor (db: Database, id: nat)
      ensures this.db == db && this.id == id && !done
    {
      this.db := db;
      this.id := id;
      done := false;
    }

    method Commit() returns (err: Option<Error>)
      modifies this, db
      ensures done
      ensures old(done) ==> err == Some(TxDone) && db.log == old(db.log)
      ensures !old(done) ==> err == db.driver.commitErr && db.log == old(db.log) + [TxOp.Commit(id)]
    {
      if done {
        return Some(TxDone);
      }
      done := true;
      db.log := db.log + [TxOp.Commit(id)];
      err := db.driver.commitErr;
    }

    method Rollback() returns (err: Option<Error>)
      modifies this, db
      ensures done
      ensures old(done) ==> err == Some(TxDone) && db.log == old(db.log)
      ensures !old(done) ==> err == db.driver.rollbackErr && db.log == old(db.log) + [TxOp.Rollback(id)]
    {
      if done {
        return Some(TxDone);
      }
      done := true;
      db.log := db.log + [TxOp.Rollback(id)];
      err := db.driver.rollbackErr;
    }
  }

  /** The TxBeginner: runs callbacks in transactions of its database. */
  class TxBeginner {
    const db: Database

    constructor (db: Database)
      ensures this.db == db
    {
      this.db := db;
    }

    /** WithTransactionWithValue, with its deferred closure written out after the body. */
    method WithTransactionWithValue<V>(ctx: Context, txFunc: Context -> Result<V>) returns (val: Option<V>, err: Option<Error>)
      modifies db
      ensures val == RunWithValue(db.driver, ctx, txFunc).val
      ensures err == RunWithValue(db.driver, ctx, txFunc).err
      ensures db.log == old(db.log) + RunWithValue(db.driver, ctx, txFunc).ops
    {
      var tx, beginErr := db.BeginTx();
      if beginErr.Some? {
        return None, beginErr;
      }
      // the body
      var result := txFunc(InjectTx(ctx, tx.id));
      if result.Err? {
        val, err := None, Some(result.error);
      } else {
        val := Some(result.value);
        err := tx.Commit();
      }
      // the deferred closure
      if err.Some? {
        var rollbackErr := tx.Rollback();
        err := Join2(err, rollbackErr);
      }
    }

    /** WithTransaction: the same protocol for a callback that returns only an error. */
    method WithTransaction(ctx: Context, txFunc: Context -> Option<Error>) returns (err: Option<Error>)
      modifies db
      ensures err == RunWithValue(db.driver, ctx, Valued(txFunc)).err
      ensures db.log == old(db.log) + RunWithValue(db.driver, ctx, Valued(txFunc)).ops
    {
      var tx, beginErr := db.BeginTx();
      if beginErr.Some? {
        return beginErr;
      }
      err := txFunc(InjectTx(ctx, tx.id));
      if err.None? {
        err := tx.Commit();
      }
      if err.Some? {
        var rollbackErr := tx.Rollback();
        err := Join2(err, rollbackErr);
      }
    }
  }
}
