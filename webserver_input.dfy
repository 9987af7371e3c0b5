/** The web server's input sanitisers and its chat log: the markup test,
    HTML escaping of chat text, the trade-history clamps, and the capped
    chat list with its history query. */
module WebInput {
  import opened Wrappers
  import opened Postings

  const MAX_TICKER_LENGTH: nat := 100
  const MAX_TIME_SPAN: nat := 365 * 24 * 3600
  const MAX_MESSAGE_LENGTH: nat := 128
  const MAX_CHATS: nat := 50
  const CHAT_HISTORY_LENGTH: nat := 30

  /** The characters that make a string look like markup. */
  predicate IsMarkup(c: char) { c == '<' || c == '>' || c == '&' }

  /** `malicious_looking`: any of `<`, `>`, `&` occurs in `w`. */
  function MaliciousLooking(w: string): (b: bool)
    ensures b <==> exists i :: 0 <= i < |w| && IsMarkup(w[i])
  {
    if w == [] then false
    else
      var rest := MaliciousLooking(w[1..]);
      assert forall i :: 1 <= i < |w| ==> w[i] == w[1..][i - 1];
      IsMarkup(w[0]) || rest
  }

  /** `cgi.escape` with its default `quote=False`: `&`, `<` and `>` become
      their character entities, every other character is kept. */
  function Escape(w: string): (r: string)
    ensures |r| >= |w|
    ensures forall i :: 0 <= i < |r| ==> r[i] != '<' && r[i] != '>'
  {
    if w == [] then []
    else
      (if w[0] == '&' then "&amp;"
       else if w[0] == '<' then "&lt;"
       else if w[0] == '>' then "&gt;"
       else [w[0]]) + Escape(w[1..])
  }

  /** Escaping changes a string exactly when the string looks malicious. */
  lemma {:induction false} EscapeChangesMarkup(w: string)
    ensures Escape(w) == w <==> !MaliciousLooking(w)
  {
    if w != [] {
      EscapeChangesMarkup(w[1..]);
      if !IsMarkup(w[0]) {
        assert Escape(w) == [w[0]] + Escape(w[1..]);
        if Escape(w[1..]) != w[1..] {
          assert Escape(w)[1..] == Escape(w[1..]);
        }
      }
    }
  }

  /** The `time_span` clamp of `get_trade_history`: into [0, one year in
      seconds]. */
  function ClampTimeSpan(t: int): (r: int)
    ensures 0 <= r <= MAX_TIME_SPAN
    ensures 0 <= t <= MAX_TIME_SPAN ==> r == t
    ensures t < 0 ==> r == 0
    ensures t > MAX_TIME_SPAN ==> r == MAX_TIME_SPAN
  {
    if t < 0 then 0 else if t > MAX_TIME_SPAN then MAX_TIME_SPAN else t
  }

  /** `ticker[:MAX_TICKER_LENGTH]`. */
  function TruncateTicker(t: string): (r: string)
    ensures |r| == if |t| <= MAX_TICKER_LENGTH then |t| else MAX_TICKER_LENGTH
    ensures r <= t
  {
    if |t| <= MAX_TICKER_LENGTH then t else t[..MAX_TICKER_LENGTH]
  }

  /** A message longer than 128 characters keeps its first 128 followed by
      a bracketed ellipsis. */
  function TruncateMessage(m: string): (r: string)
    ensures |m| <= MAX_MESSAGE_LENGTH ==> r == m
    ensures |m| > MAX_MESSAGE_LENGTH ==> |r| == MAX_MESSAGE_LENGTH + 3 && r[..MAX_MESSAGE_LENGTH] == m[..MAX_MESSAGE_LENGTH]
                                         && r[MAX_MESSAGE_LENGTH..] == "[…]"
  {
    if |m| > MAX_MESSAGE_LENGTH then m[..MAX_MESSAGE_LENGTH] + "[…]" else m
  }

  /** The last `n` elements of `s`, or all of them when there are fewer. */
  function Last<T>(s: seq<T>, n: nat): (r: seq<T>)
    ensures |r| == if |s| <= n then |s| else n
    ensures forall i :: 0 <= i < |r| ==> r[i] == s[|s| - |r| + i]
  {
    if |s| <= n then s else s[|s| - n..]
  }

  /** One chat line: the sender's escaped nickname and the message. */
  datatype Chat = Chat(nickname: string, message: string)

  /** The server's chat list, shared by every connection. */
  class ChatLog {
    var chats: seq<Chat>

    ghost predicate Valid()
      reads this
    {
      |chats| <= MAX_CHATS
    }

    /** Opening the public interface starts an empty chat list. */
    constructor ()
      ensures Valid() && chats == []
    {
      chats := [];
    }

    /** `publish` to the chat topic by a connection logged in as `username`
        (empty when not logged in) under `nickname`.  Nothing is
        published when the sender is not logged in, the event is not a
        string, or the string is empty; otherwise the escaped and truncated
        message is appended and the list cut back to its 50 most recent
        lines. */
    method Publish(username: string, nickname: string, event: Value) returns (r: Option<Chat>)
      modifies this
      ensures username == "" || !event.Str? || event.s == [] ==> r == None && chats == old(chats)
      ensures username != "" && event.Str? && event.s != [] ==>
                && r == Some(Chat(Escape(nickname), TruncateMessage(Escape(event.s))))
                && chats == Last(old(chats) + [r.value], MAX_CHATS)
      ensures r.Some? ==> Valid() && chats[|chats| - 1] == r.value
      ensures old(Valid()) ==> Valid()
    {
      if username == "" {
        return None;
      }
      if !event.Str? {
        return None;
      }
      if |event.s| > 0 {
        var message := TruncateMessage(Escape(event.s));
        var msg := Chat(Escape(nickname), message);
        chats := chats + [msg];
        if |chats| > MAX_CHATS {
          chats := chats[|chats| - MAX_CHATS..];
        }
        r := Some(msg);
      } else {
        r := None;
      }
    }

    /** `get_chat_history`: the 30 most recent lines, oldest first. */
    method History() returns (h: seq<Chat>)
      ensures |h| == if |chats| <= CHAT_HISTORY_LENGTH then |chats| else CHAT_HISTORY_LENGTH
      ensures forall i :: 0 <= i < |h| ==> h[i] == chats[|chats| - |h| + i]
    {
      h := Last(chats, CHAT_HISTORY_LENGTH);
    }
  }
}
