/** The web server's Postgres plugin: the reconnecting query runner, the
    contract loader, and the transaction history with running balances.
    Query results arrive as row values; the pool's answers are a parameter,
    one per attempt. */
module PostgresPlugin {
  import opened Wrappers

  const MAX_ATTEMPTS: nat := 10

  /** What one attempt of the pool's `runQuery` does. */
  datatype Answer<R> = Returned(value: R) | OperationalError | OtherException(name: string)

  /** The exceptions that leave the plugin. */
  datatype DbException = PostgresException(message: string) | Raised(name: string)

  /** The number of leading attempts, out of the ten allowed, whose answer
      is an OperationalError; `from` is the first attempt still to count. */
  function LeadingFailures<R>(answer: nat -> Answer<R>, from: nat): (k: nat)
    requires from <= MAX_ATTEMPTS
    ensures from <= k <= MAX_ATTEMPTS
    ensures forall j :: from <= j < k ==> answer(j).OperationalError?
    ensures k < MAX_ATTEMPTS ==> !answer(k).OperationalError?
    decreases MAX_ATTEMPTS - from
  {
    if from == MAX_ATTEMPTS then MAX_ATTEMPTS
    else if answer(from).OperationalError? then LeadingFailures(answer, from + 1)
    else from
  }

  /** `MyConnectionPool`: a pool that is replaced by a fresh one after each
      OperationalError.  `pools` counts the pools made so far. */
  class ConnectionPool {
    var pools: nat

    constructor ()
      ensures pools == 1
    {
      pools := 1;
    }

    /** `runQuery`: try up to ten times.  Each OperationalError makes a new
        pool and tries again; any other exception is raised at once; after
        ten OperationalErrors the query fails with the database error. */
    method RunQuery<R>(answer: nat -> Answer<R>) returns (r: Result<R, DbException>)
      modifies this
      ensures var k := LeadingFailures(answer, 0);
              && pools == old(pools) + k
              && (k < MAX_ATTEMPTS && answer(k).Returned? ==> r == Ok(answer(k).value))
              && (k < MAX_ATTEMPTS && answer(k).OtherException? ==> r == Err(Raised(answer(k).name)))
              && (k == MAX_ATTEMPTS ==> r == Err(PostgresException("exceptions/webserver/database-error")))
    {
      var count := 0;
      while count < MAX_ATTEMPTS
        invariant 0 <= count <= LeadingFailures(answer, 0)
        invariant pools == old(pools) + count
      {
        match answer(count)
        case Returned(v) =>
          return Ok(v);
        case OtherException(e) =>
          return Err(Raised(e));
        case OperationalError =>
          pools := pools + 1;
          count := count + 1;
      }
      r := Err(PostgresException("exceptions/webserver/database-error"));
    }
  }

  /** A row of the `contracts` query. */
  datatype ContractRow = ContractRow(ticker: string, description: string, denominator: int,
                                     contractType: string, fullDescription: string,
                                     tickSize: int, lotSize: int, marginHigh: int, marginLow: int,
                                     denominatedTicker: string, payoutTicker: string, expiration: int)

  /** The contract record `load_contract` returns; the margins and the
      expiration are present only for the contract types that have them. */
  datatype Contract = Contract(contract: string, description: string, denominator: int,
                               contractType: string, fullDescription: string,
                               tickSize: int, lotSize: int,
                               denominatedTicker: string, payoutTicker: string,
                               marginHigh: Option<int>, marginLow: Option<int>, expiration: Option<int>)

  /** `load_contract` on the rows the query returned for `ticker`. */
  function LoadContract(ticker: string, res: seq<ContractRow>): (r: Result<Contract, DbException>)
    ensures |res| == 0 ==> r == Err(PostgresException("No such contract: " + ticker))
    ensures |res| > 1 ==> r == Err(PostgresException("Contract " + ticker + " not unique"))
    ensures r.Ok? <==> |res| == 1
    ensures r.Ok? ==> var row := res[0];
              && r.value.contract == row.ticker && r.value.contractType == row.contractType
              && r.value.denominator == row.denominator && r.value.tickSize == row.tickSize
              && r.value.lotSize == row.lotSize && r.value.fullDescription == row.fullDescription
              && r.value.description == row.description
              && r.value.denominatedTicker == row.denominatedTicker && r.value.payoutTicker == row.payoutTicker
              && (r.value.marginHigh.Some? <==> row.contractType == "futures")
              && (r.value.marginLow.Some? <==> row.contractType == "futures")
              && (r.value.expiration.Some? <==> row.contractType == "futures" || row.contractType == "prediction")
              && (r.value.marginHigh.Some? ==> r.value.marginHigh.value == row.marginHigh && r.value.marginLow.value == row.marginLow)
              && (r.value.expiration.Some? ==> r.value.expiration.value == row.expiration)
  {
    if |res| < 1 then Err(PostgresException("No such contract: " + ticker))
    else if |res| > 1 then Err(PostgresException("Contract " + ticker + " not unique"))
    else
      var row := res[0];
      var futures := row.contractType == "futures";
      var dated := row.contractType == "futures" || row.contractType == "prediction";
      Ok(Contract(row.ticker, row.description, row.denominator, row.contractType, row.fullDescription,
                  row.tickSize, row.lotSize, row.denominatedTicker, row.payoutTicker,
                  if futures then Some(row.marginHigh) else None,
                  if futures then Some(row.marginLow) else None,
                  if dated then Some(row.expiration) else None))
  }

  /** A row of the opening-balance query: a contract and the sum of the
      user's postings in it before the window. */
  datatype BalanceRow = BalanceRow(ticker: string, sum: int)

  /** A row of the posting query, in journal timestamp order. */
  datatype PostingRow = PostingRow(ticker: string, timestamp: int, quantity: int, kind: string, note: string)

  datatype Transaction = Transaction(contract: string, timestamp: int, quantity: nat, kind: string,
                                     direction: string, balance: int, note: string)

  function Abs(x: int): nat { if x < 0 then -x else x }

  /** The opening balance of `ticker`: the last row for it, 0 without one. */
  function Opening(rows: seq<BalanceRow>, ticker: string): int
  {
    if rows == [] then 0
    else if rows[|rows| - 1].ticker == ticker then rows[|rows| - 1].sum
    else Opening(rows[..|rows| - 1], ticker)
  }

  /** The total quantity the rows move in `ticker`. */
  function Moved(rows: seq<PostingRow>, ticker: string): int
  {
    if rows == [] then 0
    else Moved(rows[..|rows| - 1], ticker) + (if rows[|rows| - 1].ticker == ticker then rows[|rows| - 1].quantity else 0)
  }

  /** The entry for row `i` of the posting rows, given the opening rows. */
  function Entry(opening: seq<BalanceRow>, rows: seq<PostingRow>, i: nat): Transaction
    requires i < |rows|
  {
    var row := rows[i];
    Transaction(row.ticker, row.timestamp, Abs(row.quantity), row.kind,
                if row.quantity < 0 then "debit" else "credit",
                Opening(opening, row.ticker) + Moved(rows[..i + 1], row.ticker), row.note)
  }

  function Balance(balances: map<string, int>, ticker: string): int
  {
    if ticker in balances then balances[ticker] else 0
  }

  /** The opening balances of `get_transaction_history`: one entry per
      contract row, a later row of a contract replacing an earlier one. */
  method OpeningBalances(opening: seq<BalanceRow>) returns (balances: map<string, int>)
    ensures forall t :: Balance(balances, t) == Opening(opening, t)
  {
    balances := map[];
    var j := 0;
    while j < |opening|
      invariant 0 <= j <= |opening|
      invariant forall t :: Balance(balances, t) == Opening(opening[..j], t)
    {
      assert opening[..j + 1][..j] == opening[..j];
      balances := balances[opening[j].ticker := opening[j].sum];
      j := j + 1;
    }
    assert opening[..j] == opening;
  }

  /** `balances` holds every contract's opening balance plus what the first
      `i` rows moved in it. */
  ghost predicate Tracks(balances: map<string, int>, opening: seq<BalanceRow>, rows: seq<PostingRow>, i: nat)
    requires i <= |rows|
  {
    forall t :: Balance(balances, t) == Opening(opening, t) + Moved(rows[..i], t)
  }

  /** Adding row `i` to its contract's balance keeps the balances in step
      with the rows, and gives the balance of entry `i`. */
  lemma TracksStep(balances: map<string, int>, opening: seq<BalanceRow>, rows: seq<PostingRow>, i: nat)
    requires i < |rows| && Tracks(balances, opening, rows, i)
    ensures var row := rows[i];
            var next := balances[row.ticker := Balance(balances, row.ticker) + row.quantity];
            Tracks(next, opening, rows, i + 1) && next[row.ticker] == Entry(opening, rows, i).balance
  {
    MovedStep(rows, i);
  }

  /** `get_transaction_history`: one entry per posting row, in row order,
      with the unsigned quantity, debit for a negative quantity and credit
      otherwise, and the contract's running balance after the row. */
  method TransactionHistory(opening: seq<BalanceRow>, rows: seq<PostingRow>) returns (transactions: seq<Transaction>)
    ensures |transactions| == |rows|
    ensures forall i :: 0 <= i < |rows| ==> transactions[i] == Entry(opening, rows, i)
  {
    var balances := OpeningBalances(opening);
    assert rows[..0] == [];
    transactions := [];
    var i := 0;
    while i < |rows|
      invariant 0 <= i <= |rows| && |transactions| == i
      invariant Tracks(balances, opening, rows, i)
      invariant forall k :: 0 <= k < i ==> transactions[k] == Entry(opening, rows, k)
    {
      var row := rows[i];
      TracksStep(balances, opening, rows, i);
      balances := balances[row.ticker := Balance(balances, row.ticker) + row.quantity];
      var quantity := Abs(row.quantity);
      var direction := if row.quantity < 0 then "debit" else "credit";
      var entry := Transaction(row.ticker, row.timestamp, quantity, row.kind,
                               direction, balances[row.ticker], row.note);
      assert entry == Entry(opening, rows, i);
      transactions := transactions + [entry];
      i := i + 1;
    }
  }

  /** Row `i` adds its quantity to its own contract's moved total only. */
  lemma MovedStep(rows: seq<PostingRow>, i: nat)
    requires i < |rows|
    ensures forall t :: Moved(rows[..i + 1], t) == Moved(rows[..i], t) + (if rows[i].ticker == t then rows[i].quantity else 0)
  {
    assert rows[..i + 1][..i] == rows[..i];
  }

  /** Consecutive entries of one contract differ by the signed quantity of
      the later one: a credit raises the balance by its quantity, a debit
      lowers it. */
  lemma {:induction false} BalanceSteps(opening: seq<BalanceRow>, rows: seq<PostingRow>, i: nat, j: nat)
    requires i < j < |rows| && rows[i].ticker == rows[j].ticker
    requires forall k :: i < k < j ==> rows[k].ticker != rows[j].ticker
    ensures var e := Entry(opening, rows, j);
            e.balance == Entry(opening, rows, i).balance + (if e.direction == "debit" then -(e.quantity as int) else e.quantity as int)
  {
    MovedSkips(rows, i + 1, j, rows[j].ticker);
    assert rows[..j + 1][..j] == rows[..j];
  }

  /** Rows of other contracts leave a contract's moved total unchanged. */
  lemma {:induction false} MovedSkips(rows: seq<PostingRow>, a: nat, b: nat, ticker: string)
    requires a <= b <= |rows|
    requires forall k :: a <= k < b ==> rows[k].ticker != ticker
    ensures Moved(rows[..b], ticker) == Moved(rows[..a], ticker)
    decreases b - a
  {
    if a < b {
      MovedSkips(rows, a, b - 1, ticker);
      assert rows[..b][..b - 1] == rows[..b - 1];
    }
  }
}
