/**
 What concurrent transactions commit: however they interleave, each decides as if it were
 alone on the table it writes, and none is refused that would be served alone.
 */
module DelegationCommits {
  import opened Wrappers
  import opened DelegationRows
  import opened DelegationBudget
  import opened DelegationLimits
  import opened DelegationProtocol

  /** The table with one more Run: a delegation one level below its delegator, which lists it. */
  ghost predicate Stores(rows: seq<Run>, run: Run, after: seq<Run>) {
    && |after| == |rows| + 1
    && match run.delegationParent
       case None => after == rows + [run]
       case Some(p) =>
         && p < |rows|
         && after[|rows|] == run.(delegationRoot := Some(Top(rows, p)), depth := rows[p].depth + 1)
         && after[p] == rows[p].(children := rows[p].children + [|rows|], version := rows[p].version + 1)
         && forall i | 0 <= i < |rows| && i != p :: after[i] == rows[i]
  }

  /** The transaction has read the usage and leaves nothing of itself but what it wrote. */
  predicate Finishing(db: Database, after: Database, tx: TxId) {
    tx in db.txs && db.txs[tx].read.Some? && after.txs == db.txs - {tx}
  }

  lemma AcceptCommitsIff(db: Database, after: Database, tx: TxId)
    requires Inv(db) && tx in db.txs && db.txs[tx].intent.AcceptRun? && db.txs[tx].read.Some?
    ensures var run, live := db.txs[tx].intent.run, db.txs[tx].intent.live;
            Commit(db, after, tx) <==> Finishing(db, after, tx) && Startworthy(db.rows, run, live) && Stores(db.rows, run, after.rows)
  {
    hide Startworthy, Accept, Budgeted, RowOk;
    var run, live := db.txs[tx].intent.run, db.txs[tx].intent.live;
    assert TxOk(db.rows, db.txs[tx]);
    assert ReadUsage(db.rows, db.txs[tx].intent) == SpentBefore(db.rows, run);
    AcceptIff(db.rows, run, live);
    if Startworthy(db.rows, run, live) {
      DelegatorExists(db.rows, run, live);
      AcceptRecords(db.rows, run, live);
      var written := Accept(db.rows, run, SpentBefore(db.rows, run), live).value;
      if Stores(db.rows, run, after.rows) { StoredOnce(db.rows, run, written, after.rows); }
    }
  }

  lemma DelegatorExists(rows: seq<Run>, run: Run, live: bool)
    requires Forest(rows) && Startworthy(rows, run, live)
    ensures run.delegationParent.Some? ==> run.delegationParent.value < |rows|
  {
    hide Forest, BotAbsent, WithinLimits;
  }

  lemma StoredOnce(rows: seq<Run>, run: Run, a: seq<Run>, b: seq<Run>)
    requires Stores(rows, run, a) && Stores(rows, run, b)
    ensures a == b
  {
    assert forall i | 0 <= i < |rows| :: a[i] == b[i];
  }

  /** A transaction that reserves writes exactly what a reservation alone on the table would. */
  lemma ReserveCommitsIff(db: Database, after: Database, tx: TxId)
    requires Inv(db) && tx in db.txs && db.txs[tx].read.Some?
    ensures match db.txs[tx].intent
            case TakeOutput(i, tokens, first) =>
              var paid := db.rows[i].delegationParent.Some? && !(first && db.rows[i].modelCalls == 0);
              Commit(db, after, tx) <==>
                && Finishing(db, after, tx) && Reservable(db.rows, i, tokens, first)
                && after.rows == db.rows[i := db.rows[i].(modelCalls := db.rows[i].modelCalls + (if first then 1 else 0),
                                                          outputTokens := db.rows[i].outputTokens + if paid then tokens else 0)]
            case TakeInput(i, bytes) =>
              Commit(db, after, tx) <==>
                && Finishing(db, after, tx) && Addable(db.rows, i, bytes)
                && after.rows == db.rows[i := db.rows[i].(inputBytes := db.rows[i].inputBytes
                                                                        + if db.rows[i].delegationParent.Some? then bytes else 0)]
            case _ => true
  {
    hide Reservable, Addable, ReserveOutput, ReserveInput, Budgeted, RowOk, Forest;
    TxOkMeans(db.rows, db.txs[tx]);
    match db.txs[tx].intent
    case TakeOutput(i, tokens, first) =>
      ReserveOutputIff(db.rows, i, tokens, first);
    case TakeInput(i, bytes) =>
      ReserveInputIff(db.rows, i, bytes);
    case _ =>
  }

  /** Whoever finds its barrier free is served at once, if and only if the Run is worthy of a start. */
  lemma AloneIsServed(db: Database, tx: TxId, run: Run, live: bool, chain: seq<(RunId, Run)>)
    requires Inv(db) && tx !in db.txs && Candidate(run) && Climbs(db.rows, AcceptRun(run, live), chain) && 0 < |chain|
    requires forall t <- db.txs :: db.txs[t].key != chain[|chain| - 1].0
    ensures Startworthy(db.rows, run, live) <==>
              exists begun, reading, done ::
                Begin(db, begun, tx, AcceptRun(run, live), chain) && Read(begun, reading, tx) && Commit(reading, done, tx)
  {
    hide Startworthy, Climbs, Write, Budgeted, Forest, RowOk;
    var intent := AcceptRun(run, live);
    var key := chain[|chain| - 1].0;
    var begun := db.(txs := db.txs[tx := Tx(intent, key, None)]);
    var reading := begun.(txs := begun.txs[tx := begun.txs[tx].(read := Some(ReadUsage(begun.rows, intent)))]);
    assert Begin(db, begun, tx, intent, chain);
    BeginKeepsInv(db, begun, tx, intent, chain);
    assert Read(begun, reading, tx);
    assert Next(begun, reading);
    NextKeepsInv(begun, reading);
    if Startworthy(db.rows, run, live) {
      AcceptRecords(db.rows, run, live);
      var done := Database(Accept(db.rows, run, SpentBefore(db.rows, run), live).value, reading.txs - {tx});
      AcceptCommitsIff(reading, done, tx);
      assert Commit(reading, done, tx);
    }
    if b, r, d :| Begin(db, b, tx, intent, chain) && Read(b, r, tx) && Commit(r, d, tx) {
      assert b == begun && r == reading;
      AcceptCommitsIff(reading, d, tx);
    }
  }
}
