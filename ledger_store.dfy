/** The persistence collaborator of the ledger, reduced to an
    "apply or fail" unit of work: lookups of users and contracts, staging of
    a journal, and commit or rollback.  `online` says whether the database
    accepts commits; every failure it reports belongs to the SQLAlchemy error
    family, which the ledger reports as DATABASE_ERROR. */
module Store {
  import opened Wrappers
  import opened LedgerErrors
  import opened Postings
  import opened Checks

  /** A posting row as the ledger writes it. */
  datatype DbPosting = DbPosting(username: string, contract: string, quantity: int,
                                 direction: string, note: string)

  /** The durable record of one committed transaction. */
  datatype Journal = Journal(kind: string, postings: seq<DbPosting>)

  /** The database failures the model distinguishes, all of the SQLAlchemy
      family: a `.one()` lookup that finds no row, and a failing commit. */
  datatype DbFailure = NoSuchUser(username: string) | NoSuchContract(ticker: string) | CommitFailed

  /** What can be raised inside the commit: an exception of the ledger's own
      or of Python's, or a database failure. */
  datatype Raised = Raise(error: Error) | SqlAlchemyError(failure: DbFailure)

  /** The except clause of `atomic_commit`: database failures become
      DATABASE_ERROR, everything else is re-raised as it is. */
  function Classify(x: Raised): Error
  {
    match x
    case Raise(e) => e
    case SqlAlchemyError(_) => DATABASE_ERROR
  }

  class Session {
    const users: set<string>
    const tickers: set<string>
    const online: bool
    var journals: seq<Journal>
    var staged: seq<Journal>

    constructor (users: set<string>, tickers: set<string>, online: bool)
      ensures this.users == users && this.tickers == tickers && this.online == online
      ensures journals == [] && staged == []
    {
      this.users := users;
      this.tickers := tickers;
      this.online := online;
      journals := [];
      staged := [];
    }

    /** `add_all` of the postings and `add` of their journal. */
    method Stage(j: Journal)
      modifies this
      ensures staged == old(staged) + [j] && journals == old(journals)
    {
      staged := staged + [j];
    }

    method Commit() returns (failure: Option<DbFailure>)
      modifies this
      ensures failure.None? <==> online
      ensures online ==> journals == old(journals) + old(staged) && staged == []
      ensures !online ==> journals == old(journals) && staged == old(staged) && failure == Some(CommitFailed)
    {
      if online {
        journals := journals + staged;
        staged := [];
        failure := None;
      } else {
        failure := Some(CommitFailed);
      }
    }

    /** Discards what is staged; after a commit there is nothing to discard. */
    method Rollback()
      modifies this
      ensures staged == [] && journals == old(journals)
    {
      staged := [];
    }
  }

  /** One posting of the commit loop: the user lookup, then the contract
      lookup, then the "note" key. */
  function ResolveOne(p: Posting, users: set<string>, tickers: set<string>): (r: Result<DbPosting, Raised>)
    ensures r.Ok? <==> p.username in users && p.contract in tickers && p.note.Some?
    ensures r.Ok? ==> r.value == DbPosting(p.username, p.contract, p.quantity, p.direction, p.note.value)
    ensures p.username !in users ==> r == Err(SqlAlchemyError(NoSuchUser(p.username)))
    ensures p.username in users && p.contract !in tickers ==> r == Err(SqlAlchemyError(NoSuchContract(p.contract)))
    ensures p.username in users && p.contract in tickers && p.note.None? ==> r == Err(Raise(KeyError("note")))
  {
    if p.username !in users then Err(SqlAlchemyError(NoSuchUser(p.username)))
    else if p.contract !in tickers then Err(SqlAlchemyError(NoSuchContract(p.contract)))
    else if p.note.None? then Err(Raise(KeyError("note")))
    else Ok(DbPosting(p.username, p.contract, p.quantity, p.direction, p.note.value))
  }

  /** The commit loop over all postings, stopping at the first one that fails. */
  function ResolveAll(ps: seq<Posting>, users: set<string>, tickers: set<string>): (r: Result<seq<DbPosting>, Raised>)
    ensures r.Ok? <==> forall i :: 0 <= i < |ps| ==> ResolveOne(ps[i], users, tickers).Ok?
    ensures r.Ok? ==> |r.value| == |ps| &&
                      forall i :: 0 <= i < |ps| ==> r.value[i] == ResolveOne(ps[i], users, tickers).value
    ensures r.Err? ==> exists i :: 0 <= i < |ps| && ResolveOne(ps[i], users, tickers) == Err(r.error) &&
                                   forall j :: 0 <= j < i ==> ResolveOne(ps[j], users, tickers).Ok?
    decreases |ps|
  {
    if ps == [] then Ok([])
    else
      var init := ps[..|ps| - 1];
      assert forall i :: 0 <= i < |init| ==> init[i] == ps[i];
      match ResolveAll(init, users, tickers)
      case Err(x) => Err(x)
      case Ok(ds) =>
        match ResolveOne(ps[|ps| - 1], users, tickers)
        case Err(x) => Err(x)
        case Ok(d) => Ok(ds + [d])
  }

  /** The outcome of `atomic_commit` on a posting list: the screen, then the
      commit loop, then the database commit. */
  function CommitResult(ps: seq<Posting>, users: set<string>, tickers: set<string>, online: bool): (r: Result<Journal, Error>)
    ensures Screen(ps).Some? ==> r == Err(Screen(ps).value)
    ensures r.Ok? <==> Screen(ps).None? && online &&
                       forall i :: 0 <= i < |ps| ==> ResolveOne(ps[i], users, tickers).Ok?
    ensures r.Ok? ==> |ps| > 0 && r.value.kind == ps[0].kind && |r.value.postings| == |ps|
    ensures r.Ok? ==> forall i :: 0 <= i < |ps| ==>
              r.value.postings[i] == DbPosting(ps[i].username, ps[i].contract, ps[i].quantity,
                                               ps[i].direction, ps[i].note.value)
    ensures Screen(ps).None? && r.Err? ==> r.error == DATABASE_ERROR || r.error == KeyError("note")
    ensures Screen(ps).None? && r.Err? && (forall i :: 0 <= i < |ps| ==> ps[i].note.Some?) ==> r.error == DATABASE_ERROR
    ensures Screen(ps).None? && !online ==> r.Err?
  {
    match Screen(ps)
    case Some(e) => Err(e)
    case None =>
      match ResolveAll(ps, users, tickers)
      case Err(x) => Err(Classify(x))
      case Ok(ds) => if online then Ok(Journal(ps[0].kind, ds)) else Err(DATABASE_ERROR)
  }

  function JournalSum(ds: seq<DbPosting>, direction: string): int
  {
    if ds == [] then 0
    else (if ds[0].direction == direction then ds[0].quantity else 0) + JournalSum(ds[1..], direction)
  }

  /** The conservation invariant of the ledger: the quantities a journal
      credits add up to the quantities it debits. */
  predicate Balanced(j: Journal)
  {
    JournalSum(j.postings, "credit") == JournalSum(j.postings, "debit")
  }

  lemma {:induction false} JournalSumMatches(ps: seq<Posting>, ds: seq<DbPosting>, direction: string)
    requires |ds| == |ps|
    requires forall i :: 0 <= i < |ps| ==> ds[i].quantity == ps[i].quantity && ds[i].direction == ps[i].direction
    ensures JournalSum(ds, direction) == SumWhere(ps, direction)
  {
    if ps != [] {
      JournalSumMatches(ps[1..], ds[1..], direction);
    }
  }

  /** Every journal the ledger commits is balanced and non-empty. */
  lemma CommittedJournalBalanced(ps: seq<Posting>, users: set<string>, tickers: set<string>, online: bool)
    requires CommitResult(ps, users, tickers, online).Ok?
    ensures Balanced(CommitResult(ps, users, tickers, online).value)
    ensures |CommitResult(ps, users, tickers, online).value.postings| > 0
  {
    var j := CommitResult(ps, users, tickers, online).value;
    JournalSumMatches(ps, j.postings, "credit");
    JournalSumMatches(ps, j.postings, "debit");
  }

  /** The sum over a two-posting group. */
  lemma SumWherePair(p: Posting, q: Posting, direction: string)
    ensures SumWhere([p, q], direction) == Share(p, direction) + Share(q, direction)
  {
    assert [q][1..] == [];
    assert SumWhere([q], direction) == Share(q, direction);
    assert [p, q][1..] == [q];
  }

  /** The example trade: Alice's debit of 100 BTC and Bob's credit
      of 100 BTC commit as one "trade" journal; with Bob's credit at 99 the
      pair fails with QUANTITY_MISMATCH. */
  lemma TradeExample(users: set<string>, tickers: set<string>)
    requires "alice" in users && "bob" in users && "BTC" in tickers
    ensures var a := Posting("tx1", 2, "trade", "alice", "BTC", 100, "debit", Some(""), None);
            var b := Posting("tx1", 2, "trade", "bob", "BTC", 100, "credit", Some(""), None);
            var b99 := Posting("tx1", 2, "trade", "bob", "BTC", 99, "credit", Some(""), None);
            && CommitResult([a, b], users, tickers, true)
               == Ok(Journal("trade", [DbPosting("alice", "BTC", 100, "debit", ""),
                                       DbPosting("bob", "BTC", 100, "credit", "")]))
            && CommitResult([a, b99], users, tickers, true) == Err(QUANTITY_MISMATCH)
  {
    var a := Posting("tx1", 2, "trade", "alice", "BTC", 100, "debit", Some(""), None);
    var b := Posting("tx1", 2, "trade", "bob", "BTC", 100, "credit", Some(""), None);
    var b99 := Posting("tx1", 2, "trade", "bob", "BTC", 99, "credit", Some(""), None);
    assert "credit"[0] != "debit"[0];
    SumWherePair(a, b, "credit");
    SumWherePair(a, b, "debit");
    SumWherePair(a, b99, "credit");
    SumWherePair(a, b99, "debit");
    assert CreditSum([a, b]) == 100 && DebitSum([a, b]) == 100;
    assert CreditSum([a, b99]) == 99 && DebitSum([a, b99]) == 100;
    assert forall i :: 0 <= i < 2 ==> ResolveOne([a, b][i], users, tickers).Ok?;
    assert SameKind([a, b]) && SameCount([a, b]);
    var r := CommitResult([a, b], users, tickers, true);
    assert r.Ok?;
    assert r.value.postings == [DbPosting("alice", "BTC", 100, "debit", ""), DbPosting("bob", "BTC", 100, "credit", "")];
    assert SameKind([a, b99]) && SameCount([a, b99]);
  }
}
