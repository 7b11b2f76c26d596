/** The chat history end to end: the window the page sends, the backend's
    conversion to pairs, and the retrieval service's conversion to LangChain
    messages. The page only ever sends the roles "user" and "assistant", each
    entry as a two-element list, so nothing is dropped and nothing raises. */
module HistoryPipeline {
  import opened ChatModel
  import opened Rag
  import opened Api

  /** The LangChain message a transcript message should become. */
  function Expected(m: Message): (lc: LcMessage)
    ensures m.role == User ==> lc == HumanMessage(m.content)
    ensures m.role == Assistant ==> lc == AIMessage(m.content)
  {
    match m.role
    case User => HumanMessage(m.content)
    case Assistant => AIMessage(m.content)
  }

  /** The pair the backend makes of the wire entry of `m`. */
  function WirePair(m: Message): (string, string) {
    (RoleName(m.role), m.content)
  }

  /** The window the page sends passes the backend's `(msg[0], msg[1])`
      conversion: every entry has two elements, so nothing raises, and the
      i-th pair is the role and content of the i-th message of the window. */
  lemma {:induction false} WindowFormats(messages: seq<Message>)
    ensures var wire := HistoryWindow(messages);
      && FormatHistory(wire).Value?
      && |FormatHistory(wire).value| == |wire|
      && forall i | 0 <= i < |wire| ::
           FormatHistory(wire).value[i] == WirePair(messages[|messages| - |wire| + i])
  {
    var wire := HistoryWindow(messages);
    forall i | 0 <= i < |wire| ensures |wire[i]| >= 2 {
      assert wire[i] == WireEntry(messages[|messages| - |wire| + i]);
    }
  }

  /** Pairs with the roles the page sends convert one message each, the
      i-th pair to the message `Expected` names for its message. */
  lemma {:induction false} PairsConvert(ms: seq<Message>)
    ensures |LcHistory(Pairs(ms))| == |ms|
    ensures forall i | 0 <= i < |ms| :: LcHistory(Pairs(ms))[i] == Expected(ms[i])
  {
    var pairs := Pairs(ms);
    forall i | 0 <= i < |pairs|
      ensures pairs[i].0 == "user" || pairs[i].0 == "assistant"
    {
      assert pairs[i] == WirePair(ms[i]);
    }
    LcHistoryKnownRoles(pairs);
    forall i | 0 <= i < |ms| ensures LcHistory(pairs)[i] == Expected(ms[i]) {
      assert pairs[i] == WirePair(ms[i]);
    }
  }

  /** The pairs of a run of messages. */
  function Pairs(ms: seq<Message>): (pairs: seq<(string, string)>)
    ensures |pairs| == |ms|
    ensures forall i | 0 <= i < |ms| :: pairs[i] == WirePair(ms[i])
  {
    seq(|ms|, i requires 0 <= i < |ms| => WirePair(ms[i]))
  }

  /** The history the page sends for `messages` converts without error into
      pairs of the same length and order, and then into one LangChain message
      per entry, the i-th coming from the i-th message of the window. */
  lemma {:induction false} SentHistoryReachesTheChain(messages: seq<Message>)
    ensures var wire := HistoryWindow(messages);
      && FormatHistory(wire).Value?
      && |FormatHistory(wire).value| == |wire|
      && |LcHistory(FormatHistory(wire).value)| == |wire|
      && forall i | 0 <= i < |wire| ::
           LcHistory(FormatHistory(wire).value)[i] == Expected(messages[|messages| - |wire| + i])
  {
    var wire := HistoryWindow(messages);
    var window := messages[|messages| - |wire|..];
    WindowFormats(messages);
    assert FormatHistory(wire).value == Pairs(window);
    PairsConvert(window);
  }
}
