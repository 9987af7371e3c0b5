/** `Ledger`: the table of pending posting groups keyed by uid, the atomic
    commit against the store, and the entry points `post_one` and `post`. */
module LedgerEngine {
  import opened Wrappers
  import opened LedgerErrors
  import opened Postings
  import opened Checks
  import opened PostingGroups
  import opened Store

  /** The outcome every handle of a group receives for a commit result. */
  function OutcomeOf(c: Result<Journal, Error>): Outcome
  {
    if c.Ok? then Succeeded else Failed(c.error)
  }

  lemma AllWaitingAppend(s: seq<Slot>)
    ensures AllWaiting(s + [Waiting]) <==> AllWaiting(s)
  {
    if AllWaiting(s) {
      assert forall i :: 0 <= i < |s| + 1 ==> (s + [Waiting])[i] == Waiting;
    } else {
      var k :| 0 <= k < |s| && s[k] != Waiting;
      assert (s + [Waiting])[k] == s[k];
    }
  }

  /** The fan-out raises exactly when some handle of the group had already
      fired before; otherwise every handle receives the outcome. */
  lemma FanOutAppended(s: seq<Slot>, o: Outcome)
    ensures FanOutError(s + [Waiting]) == None <==> AllWaiting(s)
    ensures AllWaiting(s) ==> forall i :: 0 <= i < |s| + 1 ==> FanOut(s + [Waiting], o)[i] == Fired(o)
  {
    AllWaitingAppend(s);
    if AllWaiting(s) {
      FanOutDelivers(s + [Waiting], o);
    } else {
      var k :| 0 <= k < |s| && s[k] != Waiting;
      assert (s + [Waiting])[k] == s[k];
      FanOutStale(s + [Waiting], o, k);
    }
  }

  lemma UidsAppend(ps: seq<Posting>, p: Posting, u: string)
    requires p.uid == u && forall i :: 0 <= i < |ps| ==> ps[i].uid == u
    ensures forall i :: 0 <= i < |ps + [p]| ==> (ps + [p])[i].uid == u
  {
  }

  lemma HandlesAppend(hs: seq<Handle>, h: Handle, r: set<object>)
    requires h in r && forall i :: 0 <= i < |hs| ==> hs[i] in r
    ensures forall i :: 0 <= i < |hs + [h]| ==> (hs + [h])[i] in r
  {
  }

  /** Adding a key and then possibly removing it again leaves every other key
      of the map as it was. */
  lemma OthersKept<K, V>(m0: map<K, V>, m1: map<K, V>, m2: map<K, V>, k: K, v: V)
    requires m1 == m0[k := v] && (m2 == m1 || m2 == m1 - {k})
    ensures m2 - {k} == m0 - {k}
  {
  }

  class Ledger {
    const timeout: Option<nat>
    const session: Session
    var pending: map<string, PostingGroup>
    ghost var Repr: set<object>  // every group and handle the ledger has made

    /** A pending group of `u` is well formed: one handle per posting, at
        least one posting, and every posting carries `u`. */
    ghost predicate GroupValid(u: string, g: PostingGroup)
      reads g, g.deferreds
    {
      && g.Valid()
      && |g.postings| > 0
      && g.uid == Some(u)
      && forall i :: 0 <= i < |g.postings| ==> g.postings[i].uid == u
    }

    /** The table of pending groups: every group and handle was made by the
        ledger, every group is well formed, and two uids never share a group
        (so, as every handle belongs to the group that handed it out, they
        never share a handle either). */
    ghost predicate TableValid()
      reads this, pending.Values, Repr
    {
      && (forall u :: u in pending ==> pending[u] in Repr && forall i :: 0 <= i < |pending[u].deferreds| ==> pending[u].deferreds[i] in Repr)
      && (forall u :: u in pending ==> GroupValid(u, pending[u]))
      && (forall u, v :: u in pending && v in pending && u != v ==> pending[u] != pending[v])
    }

    /** The session is clean between commits and every committed journal
        balances. */
    ghost predicate SessionValid()
      reads session
    {
      && session.staged == []
      && forall j :: j in session.journals ==> Balanced(j)
    }

    /** The ledger's invariant. */
    ghost predicate Valid()
      reads this, session, pending.Values, Repr
    {
      SessionValid() && TableValid()
    }

    /** Every uid other than `u` still has its group, with the group's
        handles and timeout as they were. */
    twostate predicate OthersUnchanged(u: string)
      requires Valid()
      reads this, session, pending.Values, Repr
    {
      forall v :: v in old(pending) && v != u ==>
        && v in pending && pending[v] == old(pending[v]) && unchanged(pending[v])
        && forall i :: 0 <= i < |pending[v].deferreds| ==> unchanged(pending[v].deferreds[i])
    }

    /** A step that changed only the group of `u` and its handles, and left
        the group's postings, handles and invariant in place, keeps the
        ledger's invariant and leaves every other group as it was: no other
        group shares an object with it. */
    twostate lemma GroupStep(u: string)
      requires old(Valid()) && u in old(pending) && unchanged(this) && unchanged(session)
      requires var g := old(pending[u]);
               && g.uid == old(g.uid) && g.postings == old(g.postings) && g.deferreds == old(g.deferreds) && g.Valid()
               && forall o: object :: o in old(Repr) && o != g && o !in old(g.deferreds) ==> unchanged(o)
      ensures Valid() && OthersUnchanged(u)
    {
    }

    /** Entering a fresh, well-formed group under a uid that had none keeps
        the ledger's invariant and leaves every other group as it was. */
    twostate lemma Opened(u: string, new g: PostingGroup, new h: Handle)
      requires old(Valid()) && u !in old(pending) && unchanged(session)
      requires fresh(g) && fresh(h) && g.deferreds == [h] && GroupValid(u, g)
      requires pending == old(pending)[u := g] && Repr == old(Repr) + {g, h}
      requires forall o: object :: o in old(Repr) && o != this ==> unchanged(o)
      ensures Valid() && OthersUnchanged(u)
    {
    }

    /** The group of `u`, or nothing when `u` has no group. */
    ghost function GroupOf(u: string): set<PostingGroup>
      reads this
    {
      if u in pending then {pending[u]} else {}
    }

    /** The postings the group of `u` holds once `p` is added to it. */
    ghost function Collected(u: string, p: Posting): seq<Posting>
      reads this, pending.Values
    {
      (if u in pending then pending[u].postings else []) + [p]
    }

    ghost function HandlesOf(u: string): seq<Handle>
      reads this, pending.Values
    {
      if u in pending then pending[u].deferreds else []
    }

    ghost function SlotsOf(u: string): seq<Slot>
      reads this, pending.Values, HandlesOf(u)
    {
      if u in pending then pending[u].Slots() else []
    }

    constructor (session: Session, timeout: Option<nat>)
      requires session.staged == []
      requires forall j :: j in session.journals ==> Balanced(j)
      ensures Valid() && this.session == session && this.timeout == timeout && pending == map[] && Repr == {}
    {
      this.session := session;
      this.timeout := timeout;
      pending := map[];
      Repr := {};
    }

    /** `atomic_commit`: screen the postings, build one database posting per
        posting, stage them with their journal and commit; whatever happens,
        roll the session back at the end. */
    method AtomicCommit(ps: seq<Posting>) returns (r: Result<bool, Error>)
      requires SessionValid()
      modifies session
      ensures SessionValid()
      ensures var c := CommitResult(ps, session.users, session.tickers, session.online);
              && r == (if c.Ok? then Ok(true) else Err(c.error))
              && session.journals == old(session.journals) + (if c.Ok? then [c.value] else [])
    {
      var raised: Option<Raised> := None;
      var screen := Screen(ps);
      if screen.Some? {
        raised := Some(Raise(screen.value));
      } else {
        var resolved := ResolveLoop(ps, session.users, session.tickers);
        if resolved.Err? {
          raised := Some(resolved.error);
        } else {
          session.Stage(Journal(ps[0].kind, resolved.value));
          var failure := session.Commit();
          if failure.Some? {
            raised := Some(SqlAlchemyError(failure.value));
          }
        }
      }
      session.Rollback();
      r := if raised.Some? then Err(Classify(raised.value)) else Ok(true);
      if raised.None? {
        CommittedJournalBalanced(ps, session.users, session.tickers, session.online);
      }
    }

    /** `post_one`: add the posting to the group of its uid (a new group when
        the uid has none); when the group is ready, commit it, deliver the
        outcome to every handle of the group and drop the group. */
    method PostOne(p: Posting) returns (r: Result<Handle, Error>)
      requires Valid()
      modifies this, session, GroupOf(p.uid), HandlesOf(p.uid)
      ensures Valid()
      ensures Repr >= old(Repr) && fresh(Repr - old(Repr))
      ensures pending - {p.uid} == old(pending) - {p.uid}
      ensures OthersUnchanged(p.uid)
      ensures r.Ok? ==> fresh(r.value)
      ensures r.Err? ==> r.error == AlreadyCalledError
      ensures !IsReady(old(Collected(p.uid, p))) ==>
                && r.Ok? && r.value.slot == Waiting && session.journals == old(session.journals)
                && p.uid in pending && pending[p.uid].postings == old(Collected(p.uid, p))
                && pending[p.uid].deferreds == old(HandlesOf(p.uid)) + [r.value]
                && pending[p.uid].armed == (if p.uid in old(pending) then old(pending[p.uid].armed) else timeout.Some?)
      ensures IsReady(old(Collected(p.uid, p))) ==>
                var c := CommitResult(old(Collected(p.uid, p)), session.users, session.tickers, session.online);
                session.journals == old(session.journals) + (if c.Ok? then [c.value] else [])
      ensures IsReady(old(Collected(p.uid, p))) && AllWaiting(old(SlotsOf(p.uid))) ==>
                var o := OutcomeOf(CommitResult(old(Collected(p.uid, p)), session.users, session.tickers, session.online));
                && r.Ok? && r.value.slot == Fired(o)
                && (forall i :: 0 <= i < |old(HandlesOf(p.uid))| ==> old(HandlesOf(p.uid))[i].slot == Fired(o))
                && p.uid !in pending
      ensures IsReady(old(Collected(p.uid, p))) && !AllWaiting(old(SlotsOf(p.uid))) ==>
                var o := OutcomeOf(CommitResult(old(Collected(p.uid, p)), session.users, session.tickers, session.online));
                && r == Err(AlreadyCalledError) && p.uid in pending && pending[p.uid] == old(pending[p.uid])
                && pending[p.uid].postings == old(Collected(p.uid, p))
                && pending[p.uid].Slots() == FanOut(old(SlotsOf(p.uid)) + [Waiting], o)
                && !pending[p.uid].armed
    {
      ghost var collected := Collected(p.uid, p);
      ghost var slots := SlotsOf(p.uid);
      ghost var handles := HandlesOf(p.uid);
      ghost var before := pending;
      var group, h := Join(p);
      ghost var joined := pending;
      r := Conclude(p.uid, group, h, collected, slots, handles);
      OthersKept(before, joined, pending, p.uid, group);
      if IsReady(collected) && !AllWaiting(slots) {
        assert p.uid in old(pending) && pending == old(pending)[p.uid := group];
      } else if !IsReady(collected) {
        assert pending == old(pending)[p.uid := group];
      }
    }

    /** The second half of `post_one`, after the posting has joined `group`
        (`collected`, `slots` and `handles` are the group as it was before
        this posting's handle was added): commit the group once it is
        ready. */
    method Conclude(uid: string, group: PostingGroup, h: Handle,
                    ghost collected: seq<Posting>, ghost slots: seq<Slot>, ghost handles: seq<Handle>)
        returns (r: Result<Handle, Error>)
      requires Valid() && uid in pending && pending[uid] == group
      requires group.postings == collected && group.deferreds == handles + [h] && group.Slots() == slots + [Waiting]
      modifies this, session, group, group.deferreds
      ensures Valid() && Repr == old(Repr) && OthersUnchanged(uid)
      ensures group.postings == old(group.postings) && group.deferreds == old(group.deferreds) && group.uid == old(group.uid)
      ensures pending == old(pending) || pending == old(pending) - {uid}
      ensures !IsReady(collected) ==>
                && r == Ok(h) && h.slot == Waiting && pending == old(pending)
                && session.journals == old(session.journals) && group.armed == old(group.armed)
      ensures IsReady(collected) ==>
                var c := CommitResult(collected, session.users, session.tickers, session.online);
                && session.journals == old(session.journals) + (if c.Ok? then [c.value] else [])
                && group.Slots() == FanOut(slots + [Waiting], OutcomeOf(c))
                && !group.armed
      ensures IsReady(collected) && AllWaiting(slots) ==>
                var o := OutcomeOf(CommitResult(collected, session.users, session.tickers, session.online));
                && r == Ok(h) && h.slot == Fired(o)
                && (forall i :: 0 <= i < |handles| ==> handles[i].slot == Fired(o))
                && pending == old(pending) - {uid}
      ensures IsReady(collected) && !AllWaiting(slots) ==> r == Err(AlreadyCalledError) && pending == old(pending)
    {
      if group.Ready() {
        r := CommitGroup(uid, group, h, slots);
        assert forall i :: 0 <= i < |handles| ==> handles[i] == group.deferreds[i];
        assert h == group.deferreds[|handles|];
      } else {
        assert h.slot == (slots + [Waiting])[|handles|];
        r := Ok(h);
      }
    }

    /** The first half of `post_one`: the group of the posting's uid (made
        when the uid has none) registers the posting and hands out its
        handle. */
    method Join(p: Posting) returns (group: PostingGroup, h: Handle)
      requires Valid()
      modifies this, GroupOf(p.uid)
      ensures Valid() && pending == old(pending)[p.uid := group] && OthersUnchanged(p.uid)
      ensures Repr == old(Repr) + {group, h} && fresh(Repr - old(Repr))
      ensures fresh(h) && h.slot == Waiting
      ensures group.postings == old(Collected(p.uid, p)) && group.deferreds == old(HandlesOf(p.uid)) + [h]
      ensures group.Slots() == old(SlotsOf(p.uid)) + [Waiting]
      ensures p.uid in old(pending) ==> group == old(pending[p.uid]) && group.armed == old(pending[p.uid].armed)
      ensures p.uid !in old(pending) ==> fresh(group) && group.armed == timeout.Some?
    {
      if p.uid in pending {
        group, h := Extend(p);
      } else {
        group, h := Open(p);
      }
    }

    /** `Join` when the uid already has a group: the group takes the posting. */
    method Extend(p: Posting) returns (group: PostingGroup, h: Handle)
      requires Valid() && p.uid in pending
      modifies this, pending[p.uid]
      ensures Valid() && pending == old(pending) && group == pending[p.uid] && OthersUnchanged(p.uid)
      ensures Repr == old(Repr) + {h} && fresh(h) && h.slot == Waiting
      ensures group.postings == old(group.postings) + [p] && group.deferreds == old(group.deferreds) + [h]
      ensures group.Slots() == old(group.Slots()) + [Waiting] && group.armed == old(group.armed)
    {
      group := pending[p.uid];
      ghost var postings, handles := group.postings, group.deferreds;
      h := group.Add(p);
      Repr := Repr + {h};
      UidsAppend(postings, p, p.uid);
      HandlesAppend(handles, h, Repr);
    }

    /** `Join` when the uid has no group: a fresh group (its timeout armed
        when the ledger has one) takes the posting and enters the
        table. */
    method Open(p: Posting) returns (group: PostingGroup, h: Handle)
      requires Valid() && p.uid !in pending
      modifies this
      ensures Valid() && pending == old(pending)[p.uid := group] && OthersUnchanged(p.uid)
      ensures Repr == old(Repr) + {group, h}
      ensures fresh(group) && fresh(h) && h.slot == Waiting
      ensures group.postings == [p] && group.deferreds == [h] && group.Slots() == [Waiting]
      ensures group.armed == timeout.Some?
    {
      group := new PostingGroup(timeout);
      h := group.Add(p);
      pending := pending[p.uid := group];
      Repr := Repr + {group, h};
      UidsAppend([], p, p.uid);
      Opened(p.uid, group, h);
    }

    /** The second half of `post_one`, once the group is ready: commit it,
        deliver the outcome to every handle, and drop the group.  A handle
        that had already fired makes the delivery raise before the group is
        dropped. */
    method CommitGroup(uid: string, group: PostingGroup, h: Handle, ghost slots: seq<Slot>) returns (r: Result<Handle, Error>)
      requires Valid() && uid in pending && pending[uid] == group
      requires |group.deferreds| > 0 && group.deferreds[|group.deferreds| - 1] == h
      requires group.Slots() == slots + [Waiting]
      modifies this, session, group, group.deferreds
      ensures Valid() && Repr == old(Repr) && OthersUnchanged(uid)
      ensures group.postings == old(group.postings) && group.deferreds == old(group.deferreds) && group.uid == old(group.uid)
      ensures var c := CommitResult(group.postings, session.users, session.tickers, session.online);
              var o := OutcomeOf(c);
              && session.journals == old(session.journals) + (if c.Ok? then [c.value] else [])
              && group.Slots() == FanOut(slots + [Waiting], o)
              && !group.armed
              && (AllWaiting(slots) ==> forall i :: 0 <= i < |group.deferreds| ==> group.deferreds[i].slot == Fired(o))
      ensures AllWaiting(slots) ==> r == Ok(h) && pending == old(pending) - {uid}
      ensures !AllWaiting(slots) ==> r == Err(AlreadyCalledError) && pending == old(pending)
    {
      var committed := AtomicCommit(group.postings);
      r := Settle(uid, group, h, committed, slots);
    }

    /** The delivery of a commit result to the handles of the group of `uid`,
        and the group's removal when no handle raised. */
    method Settle(uid: string, group: PostingGroup, h: Handle, committed: Result<bool, Error>, ghost slots: seq<Slot>)
        returns (r: Result<Handle, Error>)
      requires Valid() && uid in pending && pending[uid] == group
      requires |group.deferreds| > 0 && group.deferreds[|group.deferreds| - 1] == h
      requires group.Slots() == slots + [Waiting]
      modifies this, group, group.deferreds
      ensures Valid() && Repr == old(Repr) && OthersUnchanged(uid)
      ensures group.postings == old(group.postings) && group.deferreds == old(group.deferreds) && group.uid == old(group.uid)
      ensures var o := if committed.Ok? then Succeeded else Failed(committed.error);
              && group.Slots() == FanOut(slots + [Waiting], o)
              && !group.armed
              && (AllWaiting(slots) ==> forall i :: 0 <= i < |group.deferreds| ==> group.deferreds[i].slot == Fired(o))
      ensures AllWaiting(slots) ==> r == Ok(h) && pending == old(pending) - {uid}
      ensures !AllWaiting(slots) ==> r == Err(AlreadyCalledError) && pending == old(pending)
    {
      FanOutAppended(slots, if committed.Ok? then Succeeded else Failed(committed.error));
      var err := group.Deliver(committed);
      GroupStep(uid);
      if err.Some? {
        r := Err(err.value);
      } else {
        Drop(uid);
        r := Ok(h);
      }
    }

    /** The `del self.pending[uid]` of `post_one`. */
    method Drop(uid: string)
      requires Valid() && uid in pending
      modifies this
      ensures Valid() && Repr == old(Repr) && pending == old(pending) - {uid} && OthersUnchanged(uid)
    {
      pending := pending - {uid};
    }

    /** The timeout event of the group of `u`: when its timeout is armed,
        every handle fails with GROUP_TIMEOUT.  The group stays in `pending`. */
    method Timeout(u: string) returns (logged: seq<Posting>)
      requires Valid()
      modifies GroupOf(u), HandlesOf(u)
      ensures Valid() && pending == old(pending)
      ensures u in pending ==> pending[u].postings == old(pending[u].postings) && pending[u].deferreds == old(pending[u].deferreds)
      ensures OthersUnchanged(u)
      ensures u in pending && old(pending[u].armed) ==>
                && SlotsOf(u) == FanOut(old(SlotsOf(u)), Failed(GROUP_TIMEOUT))
                && (forall i :: 0 <= i < |old(HandlesOf(u))| ==> old(HandlesOf(u))[i].slot == Fired(Failed(GROUP_TIMEOUT)))
                && !pending[u].armed && logged == pending[u].postings
                && pending[u].postings == old(pending[u].postings)
      ensures !(u in pending && old(pending[u].armed)) ==> SlotsOf(u) == old(SlotsOf(u)) && logged == []
    {
      logged := [];
      if u in pending && pending[u].armed {
        var err;
        err, logged := pending[u].TimeoutConnection();
        GroupStep(u);
      }
    }

    /** The timeout event as it evidently should be: when the timeout of the
        group of `u` is armed, every handle fails with GROUP_TIMEOUT and the
        group is discarded, so that no later posting can commit it. */
    method TimeoutDiscarding(u: string) returns (logged: seq<Posting>)
      requires Valid()
      modifies this, GroupOf(u), HandlesOf(u)
      ensures Valid() && Repr == old(Repr)
      ensures OthersUnchanged(u)
      ensures u in old(pending) && old(pending[u].armed) ==>
                && pending == old(pending) - {u}
                && old(pending[u]).Slots() == FanOut(old(SlotsOf(u)), Failed(GROUP_TIMEOUT))
                && (forall i :: 0 <= i < |old(HandlesOf(u))| ==> old(HandlesOf(u))[i].slot == Fired(Failed(GROUP_TIMEOUT)))
                && logged == old(pending[u].postings)
      ensures !(u in old(pending) && old(pending[u].armed)) ==>
                pending == old(pending) && SlotsOf(u) == old(SlotsOf(u)) && logged == []
    {
      logged := [];
      if u in pending && pending[u].armed {
        var err;
        err, logged := pending[u].TimeoutConnection();
        GroupStep(u);
        Drop(u);
      }
    }

    /** `post`: refuse a malformed batch before touching any group, then feed
        the postings one by one to `PostOne` and answer with the handle of
        the first. */
    method Post(batch: seq<RawPosting>) returns (r: Result<Handle, Error>)
      requires Valid()
      modifies this, session, Repr
      ensures Valid()
      ensures ValidateBatch(batch).Err? ==>
                r == Err(ValidateBatch(batch).error) && pending == old(pending) &&
                session.journals == old(session.journals) && Repr == old(Repr) && unchanged(Repr)
      ensures ValidateBatch(batch).Ok? ==>
                var u := ValidateBatch(batch).value[0].uid;
                && pending - {u} == old(pending) - {u} && OthersUnchanged(u)
                && old(session.journals) <= session.journals
      ensures r.Ok? ==> ValidateBatch(batch).Ok? && fresh(r.value)
      ensures r.Err? ==> r.error == ARGUMENT_ERROR || r.error == UID_MISMATCH || r.error == AlreadyCalledError
    {
      var validated := ValidateBatch(batch);
      if validated.Err? {
        r := Err(validated.error);
        return;
      }
      var ps := validated.value;
      var first: Handle? := null;
      var i := 0;
      while i < |ps|
        invariant 0 <= i <= |ps|
        invariant Valid()
        invariant Repr >= old(Repr) && fresh(Repr - old(Repr))
        invariant i > 0 ==> first != null && fresh(first)
        invariant pending - {ps[0].uid} == old(pending) - {ps[0].uid} && OthersUnchanged(ps[0].uid)
        invariant old(session.journals) <= session.journals
      {
        var one := PostOne(ps[i]);
        if one.Err? {
          r := Err(one.error);
          return;
        }
        if i == 0 {
          first := one.value;
        }
        i := i + 1;
      }
      r := Ok(first);
    }
  }

  /** The commit loop of `atomic_commit`: one database row per posting, in
      order, stopping at the first posting whose user, contract or note is
      missing. */
  method ResolveLoop(ps: seq<Posting>, users: set<string>, tickers: set<string>) returns (r: Result<seq<DbPosting>, Raised>)
    ensures r == ResolveAll(ps, users, tickers)
  {
    var dbPostings: seq<DbPosting> := [];
    var i := 0;
    while i < |ps|
      invariant 0 <= i <= |ps|
      invariant ResolveAll(ps[..i], users, tickers) == Ok(dbPostings)
    {
      var p := ps[i];
      assert ps[..i + 1][..i] == ps[..i];
      var one := ResolveOne(p, users, tickers);
      if one.Err? {
        ResolveAllStops(ps, i, users, tickers);
        return Err(one.error);
      }
      dbPostings := dbPostings + [one.value];
      i := i + 1;
    }
    assert ps[..|ps|] == ps;
    r := Ok(dbPostings);
  }

  /** Once the commit loop fails at posting `i`, the rest of the postings
      cannot change its outcome. */
  lemma {:induction false} ResolveAllStops(ps: seq<Posting>, i: nat, users: set<string>, tickers: set<string>)
    requires i < |ps| && ResolveAll(ps[..i], users, tickers).Ok? && ResolveOne(ps[i], users, tickers).Err?
    ensures ResolveAll(ps, users, tickers) == Err(ResolveOne(ps[i], users, tickers).error)
  {
    ResolveAllNoRecovery(ps, i + 1, users, tickers);
    assert ps[..i + 1][..i] == ps[..i];
  }

  lemma {:induction false} ResolveAllNoRecovery(ps: seq<Posting>, n: nat, users: set<string>, tickers: set<string>)
    requires 0 < n <= |ps|
    ensures ResolveAll(ps[..n], users, tickers).Err? ==> ResolveAll(ps, users, tickers) == ResolveAll(ps[..n], users, tickers)
    decreases |ps| - n
  {
    if n == |ps| {
      assert ps[..n] == ps;
    } else {
      var longer := ps[..n + 1];
      assert longer[..|longer| - 1] == ps[..n];
      ResolveAllNoRecovery(ps, n + 1, users, tickers);
    }
  }

  /** `AccountantExport.post`: the remote entry point, which hands its
      postings to the ledger as one batch. */
  class AccountantExport {
    const ledger: Ledger

    constructor (ledger: Ledger)
      ensures this.ledger == ledger
    {
      this.ledger := ledger;
    }

    method Post(postings: seq<RawPosting>) returns (r: Result<Handle, Error>)
      requires ledger.Valid()
      modifies ledger, ledger.session, ledger.Repr
      ensures ledger.Valid()
      ensures ValidateBatch(postings).Err? ==>
                r == Err(ValidateBatch(postings).error) && ledger.pending == old(ledger.pending) &&
                ledger.session.journals == old(ledger.session.journals) &&
                ledger.Repr == old(ledger.Repr) && unchanged(ledger.Repr)
      ensures ValidateBatch(postings).Ok? ==>
                var u := ValidateBatch(postings).value[0].uid;
                && ledger.pending - {u} == old(ledger.pending) - {u} && ledger.OthersUnchanged(u)
                && old(ledger.session.journals) <= ledger.session.journals
      ensures r.Ok? ==> ValidateBatch(postings).Ok? && fresh(r.value)
      ensures r.Err? ==> r.error == ARGUMENT_ERROR || r.error == UID_MISMATCH || r.error == AlreadyCalledError
    {
      r := ledger.Post(postings);
    }
  }
}
