/**
 Concurrent acceptances and reservations. Each transaction takes one barrier,
 reads the usage of its budget, and writes on the strength of what it read,
 however the transactions interleave.
 */
module DelegationProtocol {
  import opened Wrappers
  import opened DelegationRows
  import opened DelegationBudget

  type TxId = nat

  datatype Intent =
    | AcceptRun(run: Run, live: bool)
    | TakeOutput(id: RunId, tokens: int, first: bool)
    | TakeInput(id: RunId, bytes: int)
    | Rewrite(id: RunId, row: Run)

  datatype Tx = Tx(intent: Intent, key: RunId, read: Option<Usage>)

  datatype Database = Database(rows: seq<Run>, txs: map<TxId, Tx>)

  /** What a transaction may set out to do: only a reservation changes what a stored Run has spent. */
  predicate Posed(rows: seq<Run>, intent: Intent) {
    match intent
    case AcceptRun(run, _) => Candidate(run) && (Up(run).Some? ==> Up(run).value < |rows|)
    case TakeOutput(id, _, _) => id < |rows|
    case TakeInput(id, _) => id < |rows|
    case Rewrite(id, row) => id < |rows|
  }

  function Key(rows: seq<Run>, intent: Intent): RunId
    requires Forest(rows) && Posed(rows, intent)
  {
    match intent
    case AcceptRun(run, _) => CandidateBarrier(rows, run)
    case TakeOutput(id, _, _) => Barrier(rows, id)
    case TakeInput(id, _) => Barrier(rows, id)
    case Rewrite(id, _) => Barrier(rows, id)
  }

  function Root(rows: seq<Run>, intent: Intent): Option<RunId> {
    match intent
    case AcceptRun(run, _) => SpendsFrom(rows, run)
    case TakeOutput(id, _, _) => if id < |rows| then rows[id].delegationRoot else None
    case TakeInput(id, _) => if id < |rows| then rows[id].delegationRoot else None
    case Rewrite(_, _) => None
  }

  function ReadUsage(rows: seq<Run>, intent: Intent): Usage {
    if Root(rows, intent).Some? then UsageOf(rows, Root(rows, intent).value) else Usage(0, 0, 0)
  }

  function Write(rows: seq<Run>, intent: Intent, u: Usage): Result<seq<Run>> {
    match intent
    case AcceptRun(run, live) => Accept(rows, run, u, live)
    case TakeOutput(id, tokens, first) => ReserveOutput(rows, id, u, tokens, first)
    case TakeInput(id, bytes) => ReserveInput(rows, id, u, bytes)
    case Rewrite(id, row) => if id < |rows| && SpendsNothing(rows[id], row) then Ok(rows[id := row]) else Refused
  }

  // The steps.

  /** The Run whose ancestors are climbed: a stored one, or the candidate under its new identity. */
  ghost predicate Climbs(rows: seq<Run>, intent: Intent, chain: seq<(RunId, Run)>) {
    match intent
    case AcceptRun(run, _) => exists self: RunId :: |rows| <= self && AncestorChain(rows, self, run, chain)
    case TakeOutput(id, _, _) => id < |rows| && AncestorChain(rows, id, rows[id], chain)
    case TakeInput(id, _) => id < |rows| && AncestorChain(rows, id, rows[id], chain)
    case Rewrite(id, _) => id < |rows| && AncestorChain(rows, id, rows[id], chain)
  }

  /** A transaction starts by locking the end of its ancestor chain, and waits while that lock is held. */
  ghost predicate Begin(db: Database, after: Database, tx: TxId, intent: Intent, chain: seq<(RunId, Run)>) {
    && tx !in db.txs
    && (intent.AcceptRun? ==> Candidate(intent.run))
    && Climbs(db.rows, intent, chain)
    && 0 < |chain|
    && var key := chain[|chain| - 1].0;
    && (forall t <- db.txs :: db.txs[t].key != key)
    && after == db.(txs := db.txs[tx := Tx(intent, key, None)])
  }

  ghost predicate Read(db: Database, after: Database, tx: TxId) {
    && tx in db.txs
    && after == db.(txs := db.txs[tx := db.txs[tx].(read := Some(ReadUsage(db.rows, db.txs[tx].intent)))])
  }

  ghost predicate Commit(db: Database, after: Database, tx: TxId) {
    && tx in db.txs && db.txs[tx].read.Some?
    && var written := Write(db.rows, db.txs[tx].intent, db.txs[tx].read.value);
    && written.Ok?
    && after == Database(written.value, db.txs - {tx})
  }

  ghost predicate Abort(db: Database, after: Database, tx: TxId) {
    tx in db.txs && after == db.(txs := db.txs - {tx})
  }

  ghost predicate Next(db: Database, after: Database) {
    || (exists tx, intent, chain :: Begin(db, after, tx, intent, chain))
    || (exists tx :: Read(db, after, tx))
    || (exists tx :: Commit(db, after, tx))
    || (exists tx :: Abort(db, after, tx))
  }

  // The invariant: what a transaction read is still true when it writes.

  ghost predicate TxOk(rows: seq<Run>, t: Tx)
    requires Forest(rows)
  {
    && Posed(rows, t.intent)
    && (Up0(t.intent) ==> t.key == Key(rows, t.intent))
    && (t.read.Some? ==> t.read.value == ReadUsage(rows, t.intent))
  }

  /** The intent concerns a stored group of Runs; a fresh Run is joined to nothing yet. */
  predicate Up0(intent: Intent) { intent.AcceptRun? ==> Up(intent.run).Some? }

  ghost predicate Inv(db: Database) {
    && Forest(db.rows) && Budgeted(db.rows)
    && (forall t <- db.txs :: TxOk(db.rows, db.txs[t]))
    && (forall t, u | t in db.txs && u in db.txs && t != u :: db.txs[t].key != db.txs[u].key)
  }

  lemma RootUnderKey(rows: seq<Run>, intent: Intent)
    requires Forest(rows) && Posed(rows, intent) && Root(rows, intent).Some?
    ensures Up0(intent) && Root(rows, intent).value < |rows|
    ensures Barrier(rows, Root(rows, intent).value) == Key(rows, intent)
  {
    match intent
    case AcceptRun(run, _) => BudgetRootSharesBarrier(rows, run.delegationParent.value);
    case TakeOutput(id, _, _) => BudgetRootSharesBarrier(rows, id);
    case TakeInput(id, _) => BudgetRootSharesBarrier(rows, id);
    case Rewrite(_, _) => assert false;
  }

  lemma AcceptKeepsTable(rows: seq<Run>, run: Run, live: bool)
    requires Forest(rows) && Budgeted(rows) && Posed(rows, AcceptRun(run, live))
    requires Accept(rows, run, ReadUsage(rows, AcceptRun(run, live)), live).Ok?
    ensures var after := Accept(rows, run, ReadUsage(rows, AcceptRun(run, live)), live).value;
            && SameShapes(rows, after) && Forest(after) && Budgeted(after)
            && forall g: RunId | SpendsFrom(rows, run) != Some(g) :: UsageOf(after, g) == UsageOf(rows, g)
  {
    hide RowOk, Accept, ChainBots, SpendsFrom, WithinBudget;
    var u := ReadUsage(rows, AcceptRun(run, live));
    AcceptKeepsForest(rows, run, u, live);
    AcceptKeepsBudget(rows, run, live);
    forall g: RunId | SpendsFrom(rows, run) != Some(g)
      ensures UsageOf(Accept(rows, run, u, live).value, g) == UsageOf(rows, g)
    {
      AcceptUsage(rows, run, u, live, g);
    }
  }

  /** A write keeps the table's shape and budgets, and moves no usage but that of its own root. */
  lemma WriteKeepsTable(rows: seq<Run>, intent: Intent)
    requires Forest(rows) && Budgeted(rows) && Posed(rows, intent)
    requires Write(rows, intent, ReadUsage(rows, intent)).Ok?
    ensures var after := Write(rows, intent, ReadUsage(rows, intent)).value;
            && SameShapes(rows, after) && Forest(after) && Budgeted(after)
            && forall g: RunId | Root(rows, intent) != Some(g) :: UsageOf(after, g) == UsageOf(rows, g)
  {
    hide RowOk, Accept, ChainBots, SpendsFrom;
    var root := Root(rows, intent);
    assert root.Some? ==> WithinBudget(UsageOf(rows, root.value));
    match intent
    case AcceptRun(run, live) => AcceptKeepsTable(rows, run, live);
    case _ => RowWriteKeepsTable(rows, intent.id, Write(rows, intent, ReadUsage(rows, intent)).value[intent.id]);
  }

  /** Another transaction's reading survives the write, because it holds another barrier. */
  lemma OtherReadSurvives(rows: seq<Run>, mine: Intent, other: Tx, key: RunId)
    requires Forest(rows) && Budgeted(rows) && Posed(rows, mine) && TxOk(rows, other)
    requires Up0(mine) ==> key == Key(rows, mine)
    requires other.key != key
    requires Write(rows, mine, ReadUsage(rows, mine)).Ok?
    ensures var after := Write(rows, mine, ReadUsage(rows, mine)).value;
            Forest(after) && TxOk(after, other)
  {
    hide RowOk, Write, Budgeted;
    var after := Write(rows, mine, ReadUsage(rows, mine)).value;
    WriteKeepsTable(rows, mine);
    if Root(rows, other.intent).Some? {
      RootUnderKey(rows, other.intent);
      if Root(rows, mine).Some? { RootUnderKey(rows, mine); }
    }
    match other.intent
    case AcceptRun(run, _) =>
      if Up(run).Some? { ShapeKeepsBarrier(rows, after, Up(run).value); }
    case TakeOutput(id, _, _) => ShapeKeepsBarrier(rows, after, id);
    case TakeInput(id, _) => ShapeKeepsBarrier(rows, after, id);
    case Rewrite(id, _) => ShapeKeepsBarrier(rows, after, id);
  }

  lemma BeginKeepsInv(db: Database, after: Database, tx: TxId, intent: Intent, chain: seq<(RunId, Run)>)
    requires Inv(db) && Begin(db, after, tx, intent, chain)
    ensures Inv(after)
  {
    hide Budgeted, RowOk, SameWork, Write;
    match intent {
      case AcceptRun(run, _) =>
        var self: RunId :| |db.rows| <= self && AncestorChain(db.rows, self, run, chain);
        if Up(run).Some? { CandidateChainEndsAtBarrier(db.rows, self, run, chain); }
      case _ =>
        ChainEndsAtBarrier(db.rows, intent.id, chain);
    }
    assert TxOk(after.rows, after.txs[tx]);
  }

  lemma CommitKeepsInv(db: Database, after: Database, tx: TxId)
    requires Inv(db) && Commit(db, after, tx)
    ensures Inv(after) && SameShapes(db.rows, after.rows)
  {
    hide Budgeted, RowOk, SameWork, Write, TxOk;
    var mine := db.txs[tx];
    assert TxOk(db.rows, mine);
    TxOkMeans(db.rows, mine);
    WriteKeepsTable(db.rows, mine.intent);
    forall t <- after.txs
      ensures TxOk(after.rows, after.txs[t])
    {
      OtherReadSurvives(db.rows, mine.intent, db.txs[t], mine.key);
    }
  }

  lemma TxOkMeans(rows: seq<Run>, t: Tx)
    requires Forest(rows) && TxOk(rows, t)
    ensures Posed(rows, t.intent) && (Up0(t.intent) ==> t.key == Key(rows, t.intent))
    ensures t.read.Some? ==> t.read.value == ReadUsage(rows, t.intent)
  {
  }

  lemma NextKeepsInv(db: Database, after: Database)
    requires Inv(db) && Next(db, after)
    ensures Inv(after) && SameShapes(db.rows, after.rows)
  {
    hide Forest, Budgeted, Write;
    if tx, intent, chain :| Begin(db, after, tx, intent, chain) {
      BeginKeepsInv(db, after, tx, intent, chain);
    } else if tx :| Commit(db, after, tx) {
      CommitKeepsInv(db, after, tx);
    }
  }

  ghost predicate Behaviour(trace: seq<Database>) {
    && 0 < |trace| && trace[0] == Database([], map[])
    && forall i | 0 <= i < |trace| - 1 :: Next(trace[i], trace[i + 1])
  }

  lemma {:induction false} BehavioursKeepInv(trace: seq<Database>)
    requires Behaviour(trace)
    ensures forall i | 0 <= i < |trace| :: Inv(trace[i])
  {
    if |trace| == 1 {
      forall g: RunId
        ensures WithinBudget(UsageOf([], g))
      {
      }
    } else {
      var shorter := trace[..|trace| - 1];
      forall i | 0 <= i < |shorter| - 1
        ensures Next(shorter[i], shorter[i + 1])
      {
        assert Next(trace[i], trace[i + 1]);
      }
      BehavioursKeepInv(shorter);
      assert shorter[|trace| - 2] == trace[|trace| - 2];
      NextKeepsInv(trace[|trace| - 2], trace[|trace| - 1]);
    }
  }

  /** In every reachable state every delegation root keeps within its limits and no chain repeats a Bot. */
  lemma BudgetsHold(trace: seq<Database>, k: nat, g: RunId)
    requires Behaviour(trace) && k < |trace|
    requires g < |trace[k].rows| && trace[k].rows[g].delegationRoot.None?
    ensures |Descendants(trace[k].rows, g)| <= 8
    ensures UsageOf(trace[k].rows, g).bytes <= 262144 && UsageOf(trace[k].rows, g).tokens <= 16384
    ensures forall i <- Descendants(trace[k].rows, g) ::
              1 <= trace[k].rows[i].depth <= 3 && trace[k].rows[i].bot != trace[k].rows[g].bot
  {
    BehavioursKeepInv(trace);
    assert Inv(trace[k]);
    BudgetedTable(trace[k].rows, g);
  }

  /** In every reachable state the walk ends at one barrier per connected group, the same ever after. */
  lemma BarriersHold(trace: seq<Database>, k: nat, a: RunId, b: RunId)
    requires Behaviour(trace) && k < |trace| && a < |trace[k].rows| && b < |trace[k].rows|
    ensures Forest(trace[k].rows)
    ensures AncestorChain(trace[k].rows, a, trace[k].rows[a], BarrierChain(trace[k].rows, a))
    ensures Connected(trace[k].rows, a, b) <==> Barrier(trace[k].rows, a) == Barrier(trace[k].rows, b)
    ensures k + 1 < |trace| ==>
              && a < |trace[k + 1].rows| && Forest(trace[k + 1].rows)
              && Barrier(trace[k + 1].rows, a) == Barrier(trace[k].rows, a)
  {
    BehavioursKeepInv(trace);
    assert Inv(trace[k]);
    BarrierChainClimbs(trace[k].rows, a);
    BarrierIsConnectivity(trace[k].rows, a, b);
    if k + 1 < |trace| {
      assert Inv(trace[k + 1]);
      NextKeepsInv(trace[k], trace[k + 1]);
      ShapeKeepsBarrier(trace[k].rows, trace[k + 1].rows, a);
    }
  }
}
