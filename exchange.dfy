/** What the two widgets exchange with the page and with the webhook:
    the messages they show and the requests they send. */
module Exchange {
  import opened JsValues

  datatype Sender = User | Bot

  /** One entry of the message list: the element `appendMessage` adds,
      with the sender's CSS class and the value given as its text. */
  datatype Message = Message(sender: Sender, content: Value)

  /** How one webhook call ended: `fetch` or `response.json()` rejected,
      or the body parsed to a value. Neither widget looks at the HTTP
      status. */
  datatype Outcome = Failed | Parsed(body: Value)

  /** One call to `fetch`: the URL argument and the object handed to
      `JSON.stringify` as the body. Both widgets always POST with
      `Content-Type: application/json`. */
  datatype Request = Request(url: Value, body: Value)

  /** The number of messages in `log` from `who`. */
  function Count(log: seq<Message>, who: Sender): (n: nat)
    ensures n <= |log|
  {
    if log == [] then 0
    else Count(log[..|log| - 1], who) + (if log[|log| - 1].sender == who then 1 else 0)
  }

  lemma {:induction false} CountAppend(log: seq<Message>, more: seq<Message>, who: Sender)
    ensures Count(log + more, who) == Count(log, who) + Count(more, who)
  {
    if more != [] {
      var n := |more| - 1;
      assert (log + more)[..|log + more| - 1] == log + more[..n];
      CountAppend(log, more[..n], who);
    } else {
      assert log + more == log;
    }
  }
}
