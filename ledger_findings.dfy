/** The lifetime of a group whose timeout fires before the group is complete.

    As written, the timeout fails every handle of the group with
    GROUP_TIMEOUT but leaves the group in the pending table.  A late posting
    of the same uid then completes the group: the journal is committed
    although every earlier caller was told the transaction timed out, and
    the success delivery raises `AlreadyCalledError` into the late caller.
    With a timeout that also discards the group, the late posting starts a
    new group that waits, and nothing is committed. */
module StaleGroups {
  import opened Wrappers
  import opened LedgerErrors
  import opened Postings
  import opened Checks
  import opened PostingGroups
  import opened Store
  import opened LedgerEngine

  /** Alice's half of a two-posting trade, and Bob's half of the same trade. */
  const ALICE_DEBIT := Posting("tx1", 2, "trade", "alice", "BTC", 100, "debit", Some(""), None)
  const BOB_CREDIT := Posting("tx1", 2, "trade", "bob", "BTC", 100, "credit", Some(""), None)

  /** The common opening: a fresh ledger with a timeout, and Alice's posting
      waiting in the group of "tx1" for its partner. */
  method AliceWaits() returns (session: Session, ledger: Ledger, g: PostingGroup, first: Handle)
    ensures fresh(session) && fresh(ledger) && fresh(g) && fresh(first)
    ensures ledger.Valid() && ledger.session == session && session.journals == []
    ensures session.users == {"alice", "bob"} && session.tickers == {"BTC"} && session.online
    ensures ledger.pending == map["tx1" := g] && g.armed
    ensures g.postings == [ALICE_DEBIT] && g.deferreds == [first] && first.slot == Waiting
  {
    session := new Session({"alice", "bob"}, {"BTC"}, true);
    ledger := new Ledger(session, Some(30));
    assert !IsReady([ALICE_DEBIT]);
    var r := ledger.PostOne(ALICE_DEBIT);
    first := r.value;
    g := ledger.pending["tx1"];
    assert (ledger.pending - {"tx1"}).Keys == {};
    assert ledger.pending.Keys == {"tx1"};
  }

  /** The timeout of the ledger as written fires while Alice's posting waits:
      Alice is told GROUP_TIMEOUT, and the group stays in the table. */
  method AliceTimedOut() returns (session: Session, ledger: Ledger, g: PostingGroup, first: Handle)
    ensures fresh(session) && fresh(ledger) && fresh(g) && fresh(first)
    ensures ledger.Valid() && ledger.session == session && session.journals == []
    ensures session.users == {"alice", "bob"} && session.tickers == {"BTC"} && session.online
    ensures ledger.pending == map["tx1" := g] && !g.armed
    ensures g.postings == [ALICE_DEBIT] && g.deferreds == [first] && first.slot == Fired(Failed(GROUP_TIMEOUT))
  {
    session, ledger, g, first := AliceWaits();
    var logged := ledger.Timeout("tx1");
    assert FirstFired([Waiting]) == 1;
    assert first.slot == g.Slots()[0];
  }

  /** The ledger as written: Alice posts, the group times out, Bob posts.
      Alice was told GROUP_TIMEOUT, yet the trade is booked, Bob's call
      raises, and the group is never removed. */
  method StaleGroupCommits() returns (timedOut: Slot, late: Result<Handle, Error>,
                                      journals: seq<Journal>, stillPending: bool)
    ensures timedOut == Fired(Failed(GROUP_TIMEOUT))
    ensures late == Err(AlreadyCalledError)
    ensures journals == [Journal("trade", [DbPosting("alice", "BTC", 100, "debit", ""),
                                           DbPosting("bob", "BTC", 100, "credit", "")])]
    ensures stillPending
  {
    var session, ledger, g, first := AliceTimedOut();
    timedOut := first.slot;
    assert ledger.SlotsOf("tx1")[0] == first.slot;
    assert ledger.Collected("tx1", BOB_CREDIT) == [ALICE_DEBIT, BOB_CREDIT];
    assert IsReady([ALICE_DEBIT, BOB_CREDIT]);
    late := ledger.PostOne(BOB_CREDIT);
    TradeExample(session.users, session.tickers);
    journals := session.journals;
    stillPending := "tx1" in ledger.pending;
  }

  /** The same postings with the discarding timeout: Alice is told
      GROUP_TIMEOUT, Bob's posting opens a new group that waits for its
      partner, and no journal is committed. */
  method DiscardedGroupWaits() returns (timedOut: Slot, lateSlot: Slot, journals: seq<Journal>)
    ensures timedOut == Fired(Failed(GROUP_TIMEOUT))
    ensures lateSlot == Waiting
    ensures journals == []
  {
    var session, ledger, g, first := AliceWaits();
    var logged := ledger.TimeoutDiscarding("tx1");
    assert FirstFired([Waiting]) == 1;
    timedOut := first.slot;
    assert timedOut == g.Slots()[0];
    assert !IsReady([BOB_CREDIT]);
    var late := ledger.PostOne(BOB_CREDIT);
    lateSlot := late.value.slot;
    journals := session.journals;
  }
}
