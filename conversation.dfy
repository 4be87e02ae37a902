/** The conversation history window: both the page and the service keep
    only the most recent turns, with JavaScript's `list.slice(-6)`. */
module Conversation {
  import opened Types

  /** How many turns of history are kept and sent. */
  const MaxTurns: nat := 6

  function Min(a: int, b: int): int { if a <= b then a else b }

  /** `h.slice(-6)`: the last `MaxTurns` entries in their original order,
      or all of `h` when it is shorter. */
  function TrimHistory(h: seq<ChatMessage>): (r: seq<ChatMessage>)
    ensures |r| <= MaxTurns
    ensures |r| == Min(MaxTurns, |h|)
    ensures forall i | 0 <= i < |r| :: r[i] == h[|h| - |r| + i]
  {
    if |h| <= MaxTurns then h else h[|h| - MaxTurns..]
  }

  /** Trimming an already trimmed history changes nothing. */
  lemma TrimHistoryIdempotent(h: seq<ChatMessage>)
    ensures TrimHistory(TrimHistory(h)) == TrimHistory(h)
  {
  }

  /** Appending a turn and trimming keeps the turn as the newest entry, and
      before it the newest turns of the old history, in order. */
  lemma AppendThenTrim(h: seq<ChatMessage>, m: ChatMessage)
    ensures |TrimHistory(h + [m])| == Min(MaxTurns, |h| + 1)
    ensures TrimHistory(h + [m]) == TrimHistory(h)[|TrimHistory(h)| - (|TrimHistory(h + [m])| - 1)..] + [m]
  {
    var w := TrimHistory(h + [m]);
    var t := TrimHistory(h);
    var k := |w| - 1;
    assert w[k] == m;
    assert w[..k] == t[|t| - k..];
    assert w == w[..k] + [m];
  }
}
