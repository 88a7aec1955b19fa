/** The support chat of the dashboard: the keyword-driven extraction of a short answer from the
    retrieved text, and the chat session that records the user's messages and the bot's replies. */
module Chatbot {
  import opened Wrappers
  import opened Text
  import opened CapturePattern

  // ---------------------------------------------------------------------------------------------
  // Choosing the label

  /** The query keywords and the response labels they select, in the order they are tried. */
  const KeywordTable: seq<(string, string)> := [
    ("offer", "offer:"),
    ("charges", "monthly charges:"),
    ("tenure", "tenure:"),
    ("contract", "contract:"),
    ("payment method", "payment method:")]

  /** The index of the first entry at or after `from` whose keyword occurs in `q`, or `|table|`
      when there is none. */
  function FirstKeyword(q: string, table: seq<(string, string)>, from: nat): (k: nat)
    requires from <= |table|
    decreases |table| - from
    ensures from <= k <= |table|
    ensures forall j :: from <= j < k ==> !Contains(q, table[j].0)
    ensures k < |table| ==> Contains(q, table[k].0)
  {
    if from == |table| then from
    else if Contains(q, table[from].0) then from
    else FirstKeyword(q, table, from + 1)
  }

  /** The label chosen for a query: from the first keyword of the table that occurs in the
      lower-cased query, or none when no keyword occurs in it. */
  function SelectLabel(query: string): Option<string>
  {
    var k := FirstKeyword(Lower(query), KeywordTable, 0);
    if k == |KeywordTable| then None else Some(KeywordTable[k].1)
  }

  /** No label exactly when no keyword occurs in the lower-cased query; otherwise the label of a
      keyword that occurs in it after keywords of the table that do not. */
  lemma SelectLabelIsFirstKeyword(query: string)
    ensures SelectLabel(query).None?
        <==> forall j :: 0 <= j < |KeywordTable| ==> !Contains(Lower(query), KeywordTable[j].0)
    ensures SelectLabel(query).Some? ==> exists k :: (0 <= k < |KeywordTable|
      && Contains(Lower(query), KeywordTable[k].0) && SelectLabel(query).value == KeywordTable[k].1
      && forall j :: 0 <= j < k ==> !Contains(Lower(query), KeywordTable[j].0))
  {
    var k := FirstKeyword(Lower(query), KeywordTable, 0);
    if k < |KeywordTable| {
      assert SelectLabel(query).value == KeywordTable[k].1;
    }
  }

  /** A query that mentions charges, and no offer, is answered from the `monthly charges:` label;
      a query that mentions an offer is answered from `offer:` whatever else it mentions. */
  lemma ChargesSelectMonthlyCharges(query: string)
    ensures Contains(Lower(query), "offer") ==> SelectLabel(query) == Some("offer:")
    ensures !Contains(Lower(query), "offer") && Contains(Lower(query), "charges")
      ==> SelectLabel(query) == Some("monthly charges:")
  {
  }

  const NoInformation := "No relevant information found."

  /** The notice ends with a full stop, so no capture can be mistaken for it. */
  lemma NoticeIsNoCapture(r: string)
    requires forall i :: 0 <= i < |r| ==> InRun(r[i])
    ensures r != NoInformation
  {
    assert !InRun(NoInformation[29]);
  }

  /** The regular-expression step for a chosen label, on the lower-cased response. */
  function Capture(response: string, marker: string): string
  {
    match CaptureIn(Lower(response), marker)
    case NoMatch => NoInformation
    case Group(r) => r
  }

  /** The group of a match in lower-case text is trimmed lower-case text of it with no comma and no
      full stop, and so never the notice. */
  lemma GroupShape(s: string, marker: string)
    requires IsLower(s) && FindMatch(s, marker, 0) < |s|
    ensures CaptureIn(s, marker).Group?
    ensures var r := CaptureIn(s, marker).text;
      r != NoInformation && Contains(s, r) && IsLower(r) && (forall i :: 0 <= i < |r| ==> InRun(r[i]))
      && (r == [] || (r[0] !in JsWhitespace && r[|r| - 1] !in JsWhitespace))
  {
    CaptureAtMatch(s, marker);
    var start := FindMatch(s, marker, 0) + |marker|;
    var r := GroupAt(s, start);
    GroupAtShape(s, start);
    NoticeIsNoCapture(r);
    InfixOfLower(s, r);
  }

  /** The answer is the fixed notice exactly when the pattern matches nowhere in the lower-cased
      response; otherwise it is trimmed lower-case text of the lower-cased response with no comma
      and no full stop. */
  lemma CaptureShape(response: string, marker: string)
    ensures var r := Capture(response, marker);
      (r == NoInformation <==> forall p: nat :: p <= |response| ==> !MatchAt(Lower(response), marker, p))
      && (r != NoInformation ==>
            Contains(Lower(response), r) && IsLower(r) && (forall i :: 0 <= i < |r| ==> InRun(r[i]))
            && (r == [] || (r[0] !in JsWhitespace && r[|r| - 1] !in JsWhitespace)))
  {
    var s := Lower(response);
    CaptureInNone(s, marker);
    if FindMatch(s, marker, 0) < |s| {
      GroupShape(s, marker);
    }
  }

  /** `extractRelevantInfo`: the response unchanged when no keyword occurs in the query, otherwise
      the capture for the chosen label. */
  function Extract(query: string, response: string): string
  {
    match SelectLabel(query)
    case None => response
    case Some(marker) => Capture(response, marker)
  }

  /** Without a keyword in the query the response comes back unchanged; with one, the answer is
      the notice or a comma-free, stop-free, lower-case infix of the lower-cased response. */
  lemma ExtractShape(query: string, response: string)
    ensures SelectLabel(query).None? ==> Extract(query, response) == response
    ensures SelectLabel(query).Some? ==>
      var r := Extract(query, response);
      r == NoInformation || (Contains(Lower(response), r) && IsLower(r)
                             && forall i :: 0 <= i < |r| ==> InRun(r[i]))
  {
    if SelectLabel(query).Some? {
      CaptureShape(response, SelectLabel(query).value);
    }
  }

  /** The full stop ends the capture, so the cents of an amount are cut off. */
  lemma DecimalAmountIsTruncated()
    ensures Capture("Monthly Charges: 70.35", "monthly charges:") == "70"
  {
    var s := "monthly charges: 70.35";
    LowerOfExample();
    assert MatchAt(s, "monthly charges:", 0);
    assert FindMatch(s, "monthly charges:", 0) == 0;
    GroupOfExample(s);
  }

  lemma LowerOfExample()
    ensures Lower("Monthly Charges: 70.35") == "monthly charges: 70.35"
  {
  }

  lemma GroupOfExample(s: string)
    requires s == "monthly charges: 70.35"
    ensures GroupAt(s, 16) == "70"
  {
    assert RunEnd(s, 19) == 19;
    assert RunEnd(s, 16) == 19;
    var run := s[16..19];
    assert run == " 70";
    assert SkipLeading(run, JsWhitespace, 0) == 1;
    assert SkipTrailing(run, JsWhitespace, 1, 3) == 3;
  }

  // ---------------------------------------------------------------------------------------------
  // The chat session

  datatype Sender = User | Bot

  datatype Message = Message(sender: Sender, text: string)

  /** How the request for a reply ended. */
  datatype FetchOutcome =
    | RequestThrew                    // `fetch` itself threw
    | NotOk                           // a response whose status is not ok
    | BodyUnreadable                  // `response.json()` threw
    | Body(response: Option<string>)  // the parsed body's `response` field, when it is a string

  const ConnectionError := "Connection error, please retry."
  const ServerFailure := "Failed to get response from server."
  const ProcessingError := "Error processing response."
  const NotUnderstood := "I didn't understand that question."

  /** The bot's reply to the trimmed message `query`, given how the request ended. */
  function BotReply(query: string, outcome: FetchOutcome): string
  {
    match outcome
    case RequestThrew => ConnectionError
    case NotOk => ServerFailure
    case BodyUnreadable => ProcessingError
    case Body(response) =>
      if response.GetOr("") == "" then NotUnderstood else Extract(query, response.value)
  }

  /** A history made of whole exchanges: a non-blank user message followed by one bot reply. */
  predicate IsExchangeLog(h: seq<Message>)
  {
    |h| % 2 == 0
    && forall i :: 0 <= i < |h| ==>
         h[i].sender == (if i % 2 == 0 then User else Bot) && (i % 2 == 0 ==> h[i].text != [])
  }

  lemma ExchangeLogAppend(h: seq<Message>, text: string, reply: string)
    requires IsExchangeLog(h) && text != []
    ensures IsExchangeLog(h + [Message(User, text), Message(Bot, reply)])
  {
    var h' := h + [Message(User, text), Message(Bot, reply)];
    forall i | 0 <= i < |h'|
      ensures h'[i].sender == (if i % 2 == 0 then User else Bot) && (i % 2 == 0 ==> h'[i].text != [])
    {
      if i < |h| {
        assert h'[i] == h[i];
      }
    }
  }

  class ChatSession {
    var message: string
    var chatHistory: seq<Message>
    var isLoading: bool

    /** The session is a sequence of exchanges: user messages at even positions, bot replies at odd
        ones, and a user message that is not blank. */
    ghost predicate Valid()
      reads this
    {
      IsExchangeLog(chatHistory)
    }

    constructor ()
      ensures message == [] && chatHistory == [] && !isLoading
      ensures Valid()
    {
      message := [];
      chatHistory := [];
      isLoading := false;
    }

    /** The input's `onChange`. */
    method Type(text: string)
      modifies this`message
      ensures message == text
    {
      message := text;
    }

    /** The synchronous part of `handleSendMessage`: nothing happens for a blank message or while a
        reply is awaited; otherwise the trimmed message is recorded, the input cleared and the
        session marked as waiting. */
    method BeginSend() returns (sent: Option<string>)
      modifies this`message, this`chatHistory, this`isLoading
      ensures TrimJs(old(message)) == [] || old(isLoading) ==>
        sent == None && message == old(message) && chatHistory == old(chatHistory)
        && isLoading == old(isLoading)
      ensures TrimJs(old(message)) != [] && !old(isLoading) ==>
        sent == Some(TrimJs(old(message))) && message == []
        && chatHistory == old(chatHistory) + [Message(User, TrimJs(old(message)))] && isLoading
    {
      var trimmed := TrimJs(message);
      if trimmed == [] || isLoading {
        return None;
      }
      chatHistory := chatHistory + [Message(User, trimmed)];
      message := [];
      isLoading := true;
      sent := Some(trimmed);
    }

    /** The part of `handleSendMessage` after the request: the reply is recorded and the waiting
        ends; `toasted` says whether the connection-error toast is shown. */
    method FinishSend(query: string, outcome: FetchOutcome) returns (toasted: bool)
      modifies this`chatHistory, this`isLoading
      ensures chatHistory == old(chatHistory) + [Message(Bot, BotReply(query, outcome))]
      ensures !isLoading
      ensures toasted <==> outcome == RequestThrew
    {
      chatHistory := chatHistory + [Message(Bot, BotReply(query, outcome))];
      toasted := outcome == RequestThrew;
      isLoading := false;
    }

    /** A whole `handleSendMessage` when no other send interleaves: a blank message or a send while
        waiting changes nothing; otherwise the history grows by the trimmed message and one reply,
        and the exchange structure of the history is kept. */
    method SendMessage(outcome: FetchOutcome) returns (toasted: bool)
      requires Valid()
      modifies this`message, this`chatHistory, this`isLoading
      ensures Valid()
      ensures TrimJs(old(message)) == [] || old(isLoading) ==>
        !toasted && message == old(message) && chatHistory == old(chatHistory)
        && isLoading == old(isLoading)
      ensures TrimJs(old(message)) != [] && !old(isLoading) ==>
        message == [] && !isLoading && (toasted <==> outcome == RequestThrew)
        && chatHistory == old(chatHistory) + [Message(User, TrimJs(old(message))),
                                              Message(Bot, BotReply(TrimJs(old(message)), outcome))]
    {
      ghost var h := chatHistory;
      var sent := BeginSend();
      toasted := false;
      if sent.Some? {
        toasted := FinishSend(sent.value, outcome);
        ghost var reply := BotReply(sent.value, outcome);
        assert chatHistory == h + [Message(User, sent.value), Message(Bot, reply)];
        ExchangeLogAppend(h, sent.value, reply);
      }
    }
  }
}
