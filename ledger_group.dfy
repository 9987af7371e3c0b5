/** `PostingGroup`: the postings collected so far for one uid, one result
    handle per posting, and the group's timeout.

    A handle is a one-shot result slot: it is fired once with the group's
    outcome, and firing it again raises `AlreadyCalledError` and leaves it as
    it was.  The group's timeout (the state `TimeoutMixin` keeps in the group
    itself) is modelled by whether it is armed: it starts armed when the
    ledger was given a timeout, `succeed` and `fail` disarm it, `add`
    restarts it only while it is armed, and it fires as an explicit event. */
module PostingGroups {
  import opened Wrappers
  import opened LedgerErrors
  import opened Postings
  import opened Checks

  datatype Outcome = Succeeded | Failed(error: Error)

  datatype Slot = Waiting | Fired(outcome: Outcome)

  class Handle {
    var slot: Slot
    ghost const group: PostingGroup  // the group that handed the handle out

    constructor (ghost group: PostingGroup)
      ensures slot == Waiting && this.group == group
    {
      slot := Waiting;
      this.group := group;
    }

    method Fire(o: Outcome) returns (err: Option<Error>)
      modifies this
      ensures old(slot) == Waiting ==> slot == Fired(o) && err == None
      ensures old(slot).Fired? ==> slot == old(slot) && err == Some(AlreadyCalledError)
    {
      if slot.Fired? {
        err := Some(AlreadyCalledError);
      } else {
        slot := Fired(o);
        err := None;
      }
    }
  }

  /** The index of the first handle that has already fired, or the number of
      handles when none has. */
  function FirstFired(slots: seq<Slot>): (k: nat)
    ensures k <= |slots|
    ensures forall i :: 0 <= i < k ==> slots[i] == Waiting
    ensures k < |slots| ==> slots[k].Fired?
  {
    if slots == [] then 0
    else if slots[0].Fired? then 0
    else
      var k := FirstFired(slots[1..]);
      assert forall i :: 1 <= i < |slots| ==> slots[i] == slots[1..][i - 1];
      1 + k
  }

  /** What firing every handle in order does: each handle up to the first one
      that had already fired receives `o`; that one raises, and it and the
      handles after it are left as they were. */
  function FanOut(slots: seq<Slot>, o: Outcome): (r: seq<Slot>)
    ensures |r| == |slots|
  {
    var k := FirstFired(slots);
    seq(|slots|, i requires 0 <= i < |slots| => if i < k then Fired(o) else slots[i])
  }

  /** The error the fan-out raises, if any. */
  function FanOutError(slots: seq<Slot>): (e: Option<Error>)
  {
    if FirstFired(slots) < |slots| then Some(AlreadyCalledError) else None
  }

  predicate AllWaiting(slots: seq<Slot>) { forall i :: 0 <= i < |slots| ==> slots[i] == Waiting }

  /** Exactly-once delivery: when no handle has fired yet, every handle gets
      the one outcome and nothing is raised. */
  lemma FanOutDelivers(slots: seq<Slot>, o: Outcome)
    requires AllWaiting(slots)
    ensures FanOutError(slots) == None
    ensures forall i :: 0 <= i < |slots| ==> FanOut(slots, o)[i] == Fired(o)
  {
  }

  /** A second fan-out over the same handles changes nothing and raises:
      no handle of a non-empty group is ever answered twice. */
  lemma FanOutOnce(slots: seq<Slot>, o: Outcome, o2: Outcome)
    requires |slots| > 0
    ensures FanOutError(FanOut(slots, o)) == Some(AlreadyCalledError)
    ensures FanOut(FanOut(slots, o), o2) == FanOut(slots, o)
  {
    var once := FanOut(slots, o);
    var k := FirstFired(slots);
    assert once[0].Fired?;
    assert FirstFired(once) == 0;
  }

  /** When some handle had already fired, the fan-out raises and every handle
      after the first fired one is left untouched. */
  lemma FanOutStale(slots: seq<Slot>, o: Outcome, k: nat)
    requires k < |slots| && slots[k].Fired?
    ensures FanOutError(slots) == Some(AlreadyCalledError)
    ensures forall i :: k <= i < |slots| ==> FanOut(slots, o)[i] == slots[i]
  {
  }

  class PostingGroup {
    var uid: Option<string>
    var postings: seq<Posting>
    var deferreds: seq<Handle>
    var armed: bool  // a timeout call is pending

    /** One handle per posting, every handle handed out by this group and
        none twice, and no handle fired while the timeout is still pending
        (every delivery disarms the timeout first). */
    ghost predicate Valid()
      reads this, deferreds
    {
      && |postings| == |deferreds|
      && (forall i :: 0 <= i < |deferreds| ==> deferreds[i].group == this)
      && (forall i, j :: 0 <= i < j < |deferreds| ==> deferreds[i] != deferreds[j])
      && (armed ==> forall i :: 0 <= i < |deferreds| ==> deferreds[i].slot == Waiting)
    }

    /** The states of the group's handles, in posting order. */
    ghost function Slots(): (s: seq<Slot>)
      reads this, deferreds
      ensures |s| == |deferreds|
    {
      seq(|deferreds|, i reads this, deferreds requires 0 <= i < |deferreds| => deferreds[i].slot)
    }

    constructor (timeout: Option<nat>)
      ensures Valid()
      ensures uid == None && postings == [] && deferreds == [] && armed == timeout.Some?
    {
      uid := None;
      postings := [];
      deferreds := [];
      armed := timeout.Some?;
    }

    method Add(p: Posting) returns (h: Handle)
      requires Valid()
      modifies this
      ensures Valid() && fresh(h) && h.slot == Waiting
      ensures uid == Some(p.uid) && armed == old(armed)
      ensures postings == old(postings) + [p] && deferreds == old(deferreds) + [h]
      ensures Slots() == old(Slots()) + [Waiting]
    {
      uid := Some(p.uid);
      h := new Handle(this);
      postings := postings + [p];
      deferreds := deferreds + [h];
    }

    predicate Ready()
      reads this
      requires |postings| > 0
      ensures Ready() <==> forall i :: 0 <= i < |postings| ==> postings[i].count <= |postings|
    {
      ReadyIff(postings);
      IsReady(postings)
    }

    /** Fires every handle with `o`, stopping at the first handle that had
        already fired; the timeout is disarmed first. */
    method FireAll(o: Outcome) returns (err: Option<Error>)
      requires Valid()
      modifies this, deferreds
      ensures Valid() && !armed && uid == old(uid) && postings == old(postings) && deferreds == old(deferreds)
      ensures Slots() == FanOut(old(Slots()), o) && err == FanOutError(old(Slots()))
    {
      ghost var before := Slots();
      armed := false;  // setTimeout(None)
      var k := FirstFired(before);
      var i := 0;
      err := None;
      while i < |deferreds|
        invariant !armed && uid == old(uid) && postings == old(postings) && deferreds == old(deferreds)
        invariant 0 <= i <= |deferreds| && i <= k
        invariant forall j :: 0 <= j < i ==> deferreds[j].slot == Fired(o)
        invariant forall j :: i <= j < |deferreds| ==> deferreds[j].slot == before[j]
        invariant err == None
      {
        err := deferreds[i].Fire(o);
        if err.Some? {
          assert i == k;
          break;
        }
        i := i + 1;
      }
      assert Slots() == FanOut(before, o);
    }

    method Succeed() returns (err: Option<Error>)
      requires Valid()
      modifies this, deferreds
      ensures Valid() && !armed && uid == old(uid) && postings == old(postings) && deferreds == old(deferreds)
      ensures Slots() == FanOut(old(Slots()), Succeeded) && err == FanOutError(old(Slots()))
    {
      err := FireAll(Succeeded);
    }

    method Fail(e: Error) returns (err: Option<Error>)
      requires Valid()
      modifies this, deferreds
      ensures Valid() && !armed && uid == old(uid) && postings == old(postings) && deferreds == old(deferreds)
      ensures Slots() == FanOut(old(Slots()), Failed(e)) && err == FanOutError(old(Slots()))
    {
      err := FireAll(Failed(e));
    }

    /** The try/except of `post_one` around a commit: success on every handle
        when the commit succeeded, otherwise failure with the commit's error;
        when the success delivery itself raises, failure with that error. */
    method Deliver(committed: Result<bool, Error>) returns (err: Option<Error>)
      requires Valid()
      modifies this, deferreds
      ensures Valid() && !armed && uid == old(uid) && postings == old(postings) && deferreds == old(deferreds)
      ensures Slots() == FanOut(old(Slots()), if committed.Ok? then Succeeded else Failed(committed.error))
      ensures err == FanOutError(old(Slots()))
      ensures AllWaiting(old(Slots())) ==> forall i :: 0 <= i < |deferreds| ==>
                deferreds[i].slot == Fired(if committed.Ok? then Succeeded else Failed(committed.error))
    {
      ghost var before := Slots();
      if AllWaiting(before) {
        FanOutDelivers(before, if committed.Ok? then Succeeded else Failed(committed.error));
      }
      if committed.Ok? {
        err := Succeed();
        if err.Some? {
          err := Fail(err.value);
          FanOutOnce(before, Succeeded, Failed(AlreadyCalledError));
        }
      } else {
        err := Fail(committed.error);
      }
      assert forall i :: 0 <= i < |deferreds| ==> deferreds[i].slot == Slots()[i];
    }

    /** The timeout's expiry: the postings are logged and every handle fails
        with GROUP_TIMEOUT; while the timeout was pending no handle had
        fired, so none raises. */
    method TimeoutConnection() returns (err: Option<Error>, logged: seq<Posting>)
      requires Valid()
      modifies this, deferreds
      ensures Valid() && !armed && uid == old(uid) && postings == old(postings) && deferreds == old(deferreds)
      ensures logged == postings
      ensures Slots() == FanOut(old(Slots()), Failed(GROUP_TIMEOUT)) && err == FanOutError(old(Slots()))
      ensures old(armed) ==> err == None && forall i :: 0 <= i < |deferreds| ==> deferreds[i].slot == Fired(Failed(GROUP_TIMEOUT))
    {
      logged := postings;
      ghost var before := Slots();
      if armed {
        assert AllWaiting(before);
        FanOutDelivers(before, Failed(GROUP_TIMEOUT));
      }
      err := Fail(GROUP_TIMEOUT);
      assert forall i :: 0 <= i < |deferreds| ==> deferreds[i].slot == Slots()[i];
    }
  }
}
