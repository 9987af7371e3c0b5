/** Postings as they arrive on the wire, the schema the ledger checks them
    against, and the batch validation of `Ledger.post`.

    A posting arrives as a JSON object, modelled as a map from key to JSON
    value.  JSON numbers are modelled as integers. */
module Postings {
  import opened Wrappers
  import opened LedgerErrors

  datatype Value = Str(s: string) | Num(n: int) | Null | OtherJson

  type RawPosting = map<string, Value>

  /** One leg of a transaction, after schema validation. */
  datatype Posting = Posting(
    uid: string,
    count: int,
    kind: string,        // the "type" field
    username: string,
    contract: string,
    quantity: int,
    direction: string,
    note: Option<string>,
    timestamp: Option<int>)

  predicate IsStr(raw: RawPosting, key: string) { key in raw && raw[key].Str? }
  predicate IsNum(raw: RawPosting, key: string) { key in raw && raw[key].Num? }

  /** The posting schema: seven required fields, two optional ones, and any
      further keys ignored. */
  predicate Conforms(raw: RawPosting) {
    && IsStr(raw, "uid") && IsNum(raw, "count") && IsStr(raw, "type")
    && IsStr(raw, "username") && IsStr(raw, "contract") && IsNum(raw, "quantity")
    && IsStr(raw, "direction")
    && ("note" in raw ==> raw["note"].Str?)
    && ("timestamp" in raw ==> raw["timestamp"].Num?)
  }

  function Decode(raw: RawPosting): (p: Posting)
    requires Conforms(raw)
    ensures p.uid == raw["uid"].s && p.count == raw["count"].n && p.quantity == raw["quantity"].n
    ensures p.note.Some? <==> "note" in raw
    ensures p.timestamp.Some? <==> "timestamp" in raw
  {
    Posting(raw["uid"].s, raw["count"].n, raw["type"].s, raw["username"].s,
            raw["contract"].s, raw["quantity"].n, raw["direction"].s,
            if "note" in raw then Some(raw["note"].s) else None,
            if "timestamp" in raw then Some(raw["timestamp"].n) else None)
  }

  /** The JSON object a posting is sent as; absent optional fields are left out. */
  function Encode(p: Posting): (raw: RawPosting)
    ensures Conforms(raw) && Decode(raw) == p
  {
    var base := map["uid" := Str(p.uid), "count" := Num(p.count), "type" := Str(p.kind),
                    "username" := Str(p.username), "contract" := Str(p.contract),
                    "quantity" := Num(p.quantity), "direction" := Str(p.direction)];
    var withNote := if p.note.Some? then base["note" := Str(p.note.value)] else base;
    if p.timestamp.Some? then withNote["timestamp" := Num(p.timestamp.value)] else withNote
  }

  /** `create_posting`: the timestamp defaults to `now`, the caller's clock
      reading, and the note is stored even when it is None. */
  function CreatePosting(kind: string, username: string, contract: string, quantity: int,
                         direction: string, note: Option<string>, timestamp: Option<int>,
                         now: int): (raw: RawPosting)
    ensures "uid" !in raw && "count" !in raw && !Conforms(raw)
    ensures "timestamp" in raw && "note" in raw
    ensures raw["timestamp"] == Num(if timestamp.Some? then timestamp.value else now)
    ensures raw["note"] == (if note.Some? then Str(note.value) else Null)
  {
    map["username" := Str(username), "contract" := Str(contract), "quantity" := Num(quantity),
        "direction" := Str(direction),
        "note" := (if note.Some? then Str(note.value) else Null),
        "type" := Str(kind),
        "timestamp" := Num(if timestamp.Some? then timestamp.value else now)]
  }

  /** A posting made by `create_posting` and completed with a uid and a count
      passes the schema exactly when its note was given: a None note is sent
      as JSON null, which the schema's "note" string type refuses. */
  lemma CreatedPostingConforms(kind: string, username: string, contract: string, quantity: int,
                               direction: string, note: Option<string>, timestamp: Option<int>,
                               now: int, uid: string, count: int)
    ensures var raw := CreatePosting(kind, username, contract, quantity, direction, note, timestamp, now)
                         ["uid" := Str(uid)]["count" := Num(count)];
            && (Conforms(raw) <==> note.Some?)
            && (note.Some? ==> Decode(raw) == Posting(uid, count, kind, username, contract, quantity,
                                                      direction, note, Some(raw["timestamp"].n)))
  {
  }

  predicate AllConform(batch: seq<RawPosting>) {
    forall i :: 0 <= i < |batch| ==> Conforms(batch[i])
  }

  /** The checks `Ledger.post` makes before any posting reaches a group, in
      the order it makes them. */
  function ValidateBatch(batch: seq<RawPosting>): (r: Result<seq<Posting>, Error>)
    ensures |batch| == 0 ==> r == Err(ARGUMENT_ERROR)
    ensures (exists i :: 0 <= i < |batch| && !Conforms(batch[i])) ==> r == Err(ARGUMENT_ERROR)
    ensures (AllConform(batch) &&
             exists i, j :: 0 <= i < |batch| && 0 <= j < |batch| && batch[i]["uid"].s != batch[j]["uid"].s)
            ==> r == Err(UID_MISMATCH)
    ensures r.Ok? ==> |batch| > 0 && AllConform(batch)
    ensures r.Ok? ==> |r.value| == |batch|
    ensures r.Ok? ==> forall i :: 0 <= i < |batch| ==> r.value[i] == Decode(batch[i]) && r.value[i].uid == r.value[0].uid
    ensures r.Err? ==> r.error == ARGUMENT_ERROR || r.error == UID_MISMATCH
  {
    if |batch| == 0 then Err(ARGUMENT_ERROR)
    else if !AllConform(batch) then Err(ARGUMENT_ERROR)
    else if forall i :: 0 <= i < |batch| ==> batch[i]["uid"] == batch[0]["uid"] then
      Ok(seq(|batch|, i requires 0 <= i < |batch| => Decode(batch[i])))
    else Err(UID_MISMATCH)
  }
}
