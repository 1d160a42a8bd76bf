/**
  The chat panel of the front end (`StockChat`): a transcript that only grows,
  an input box, a `loading` flag and the last error text.

  A submission is split at its `await`: `Submit` is what happens before the
  request is sent, and `Settle` is what happens once the request has
  completed. The request itself is the abstract `Outcome` passed to `Settle`.
*/
module StockChat {
  import opened Wrappers
  import opened JsText

  datatype Sender = User | Bot

  /** One entry of the transcript; `isError` is only ever set on bot replies to failed requests. */
  datatype Message = Message(sender: Sender, content: string, isError: bool)

  /**
    How the request to the agent ended. `Success(response)` is a 2xx reply, and
    `response` is its `response` field when that is a string. `HttpError(status)`
    is a reply with an error status. `NoResponse` means the request went out and
    nothing came back. `OtherError` is any other exception.
  */
  datatype Outcome = Success(response: Option<string>) | HttpError(status: int) | NoResponse | OtherError

  const GreetingText: string :=
    "Hello! I can help you with stock information. " + "Try asking about a stock price or analysis."
  const GenericText: string := "Sorry, I encountered an error " + "processing your request."
  const RateLimitText: string := "Rate limit exceeded. " + "Please try again in a few moments."
  const ServerText: string := "Server error. " + "Our AI service is currently experiencing issues."
  const ConnectText: string :=
    "Could not connect to AI service. " + "Please check your internet connection or try again later."

  /** The single message the transcript starts with. */
  const Greeting: Message := Message(Bot, GreetingText, false)

  /** The reply carries text the panel shows as the bot's answer: a non-empty `response` string. */
  predicate Answered(o: Outcome) {
    o.Success? && o.response.Some? && o.response.value != ""
  }

  /**
    The error text for a request that was not answered. A success without a
    usable `response` field throws inside the `try`, and that exception has
    neither a response nor a request, so it gets the generic text.
  */
  function FailureText(o: Outcome): string {
    match o
    case HttpError(status) =>
      if status == 429 then RateLimitText else if status == 500 then ServerText else GenericText
    case NoResponse => ConnectText
    case _ => GenericText
  }

  /** The bot message appended once the request has completed. */
  function BotReply(o: Outcome): (m: Message)
    ensures m.sender == Bot
    ensures m.isError <==> !Answered(o)
    ensures Answered(o) ==> m.content == o.response.value
    ensures !Answered(o) ==> m.content == FailureText(o)
  {
    if Answered(o) then Message(Bot, o.response.value, false) else Message(Bot, FailureText(o), true)
  }

  /** Each error text belongs to exactly one kind of failure. */
  lemma FailureTextCases(o: Outcome)
    ensures FailureText(o) == RateLimitText <==> o == HttpError(429)
    ensures FailureText(o) == ServerText <==> o == HttpError(500)
    ensures FailureText(o) == ConnectText <==> o == NoResponse
    ensures FailureText(o) == GenericText <==>
      o.Success? || o.OtherError? || (o.HttpError? && o.status != 429 && o.status != 500)
  {
    assert |GenericText| == 54 && |RateLimitText| == 55 && |ServerText| == 62 && |ConnectText| == 90;
  }

  /** A 503, like every status other than 429 and 500, gets the generic text, not the server-error text. */
  lemma ServiceUnavailableIsGeneric()
    ensures BotReply(HttpError(503)) == Message(Bot, GenericText, true)
  {
  }

  /** A success whose `response` field is missing or empty is reported as a generic failure. */
  lemma EmptyAnswerIsFailure(body: Option<string>)
    requires body.None? || body == Some("")
    ensures BotReply(Success(body)) == Message(Bot, GenericText, true)
  {
  }

  /** The error the panel shows after a completed request. */
  function ErrorAfter(o: Outcome): (e: Option<string>)
    ensures e.Some? <==> !Answered(o)
    ensures e.Some? ==> e.value == BotReply(o).content
  {
    if Answered(o) then None else Some(FailureText(o))
  }

  /**
    The invariant of the panel's state. The transcript starts with the
    greeting, and after it user and bot messages alternate. A request is in
    flight exactly when the last message is the user's. User messages are
    trimmed and never empty. While a request is in flight there is no error.
    Otherwise there is an error exactly when the last reply is an error reply,
    and the error is that reply's text.
  */
  ghost predicate Consistent(ms: seq<Message>, loading: bool, error: Option<string>) {
    && |ms| >= 1
    && ms[0] == Greeting
    && (forall k :: 1 <= k < |ms| ==> (ms[k].sender == User <==> k % 2 == 1))
    && (forall k :: 0 <= k < |ms| && ms[k].sender == User ==> IsTrimmed(ms[k].content))
    && (loading <==> |ms| % 2 == 0)
    && (loading ==> error.None?)
    && (!loading ==> (error.Some? <==> ms[|ms| - 1].isError))
    && (!loading && error.Some? ==> error.value == ms[|ms| - 1].content)
  }

  /** Sending a trimmed, non-blank query from an idle panel keeps the invariant. */
  lemma SendKeepsConsistent(ms: seq<Message>, error: Option<string>, text: string)
    requires Consistent(ms, false, error)
    requires IsTrimmed(text)
    ensures Consistent(ms + [Message(User, text, false)], true, None)
  {
  }

  /** Completing the request in flight keeps the invariant. */
  lemma ReplyKeepsConsistent(ms: seq<Message>, o: Outcome)
    requires Consistent(ms, true, None)
    ensures Consistent(ms + [BotReply(o)], false, ErrorAfter(o))
  {
  }

  class ChatView {
    var messages: seq<Message>
    var input: string
    var loading: bool
    var error: Option<string>

    ghost predicate Valid()
      reads this
    {
      Consistent(messages, loading, error)
    }

    constructor()
      ensures Valid()
      ensures messages == [Greeting] && input == "" && !loading && error.None?
    {
      messages := [Greeting];
      input := "";
      loading := false;
      error := None;
    }

    /** Typing into the box; the box is disabled while a request is in flight. */
    method SetInput(s: string)
      modifies this
      requires Valid() && !loading
      ensures Valid()
      ensures input == s && messages == old(messages) && loading == old(loading) && error == old(error)
    {
      input := s;
    }

    /** The send button is enabled: no request in flight and the box is not blank. */
    predicate CanSubmit()
      reads this
    {
      !loading && !IsBlank(input)
    }

    /**
      `handleSubmit` up to the request. Blank input changes nothing and sends
      nothing. Otherwise the trimmed text is appended as a user message and
      returned as the query to send, the box is cleared, `loading` is set and
      the error cleared.
    */
    method Submit() returns (query: Option<string>)
      modifies this
      requires Valid() && !loading
      ensures Valid()
      ensures query.Some? <==> old(CanSubmit())
      ensures !old(CanSubmit()) ==>
        messages == old(messages) && input == old(input) && loading == old(loading) && error == old(error)
      ensures old(CanSubmit()) ==>
        && query == Some(Trim(old(input)))
        && messages == old(messages) + [Message(User, Trim(old(input)), false)]
        && input == "" && loading && error.None?
    {
      if IsBlank(input) {
        return None;
      }
      var userQuery := Trim(input);
      TrimYieldsTrimmed(input);
      SendKeepsConsistent(messages, error, userQuery);
      input := "";
      messages := messages + [Message(User, userQuery, false)];
      loading := true;
      error := None;
      query := Some(userQuery);
    }

    /**
      `handleSubmit` after the request: the bot reply for the outcome is
      appended, an unanswered request leaves its text in `error`, and `loading`
      is cleared.
    */
    method Settle(o: Outcome)
      modifies this
      requires Valid() && loading
      ensures Valid()
      ensures messages == old(messages) + [BotReply(o)]
      ensures !loading && input == old(input)
      ensures error == ErrorAfter(o)
    {
      var reply: Message;
      if o.Success? && o.response.Some? && o.response.value != "" {
        reply := Message(Bot, o.response.value, false);
      } else {
        var errorMessage := GenericText;
        if o.HttpError? {
          if o.status == 429 {
            errorMessage := RateLimitText;
          } else if o.status == 500 {
            errorMessage := ServerText;
          }
        } else if o.NoResponse? {
          errorMessage := ConnectText;
        }
        error := Some(errorMessage);
        reply := Message(Bot, errorMessage, true);
      }
      ReplyKeepsConsistent(messages, o);
      messages := messages + [reply];
      loading := false;
    }

    /**
      A whole accepted submission: exactly two messages are appended, the
      user's trimmed text and then the bot reply, and the earlier transcript
      is kept.
    */
    method Exchange(o: Outcome) returns (query: string)
      modifies this
      requires Valid() && CanSubmit()
      ensures Valid()
      ensures query == Trim(old(input))
      ensures messages == old(messages) + [Message(User, query, false)] + [BotReply(o)]
      ensures !loading && input == ""
      ensures error == ErrorAfter(o)
    {
      ghost var before := messages;
      var sent := Submit();
      query := sent.value;
      ghost var sentMessages := messages;
      assert sentMessages == before + [Message(User, query, false)];
      Settle(o);
      assert messages == sentMessages + [BotReply(o)];
    }
  }
}
