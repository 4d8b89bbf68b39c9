/** The chat turn of llmchat.py: the session state (the message log and the
    rate window) as the fields of one object, and one submitted prompt as a
    transaction on them. The network reply, the JSON parser and the outcome
    of saving the history are inputs. */
module ChatApp {
  import opened Wrappers
  import opened Json
  import opened RateLimit
  import opened Request
  import opened Stream
  import opened HttpError

  /** What the provider did: no connection at all, or a reply with its
      status code, its body parsed as JSON for the error path (None when it
      is not JSON), the lines of its body for the streaming path, and whether
      reading the body broke off after those lines. */
  datatype Response =
    | ConnectionFailed
    | Reply(status: nat, errorBody: Option<Value>, lines: seq<string>, broken: bool)

  /** The statuses for which `raise_for_status` raises: a client error
      (400-499) or a server error (500-599). */
  predicate IsHttpError(status: nat): (b: bool)
    ensures b <==> status / 100 in {4, 5}
  {
    (400 <= status < 500) || (500 <= status < 600)
  }

  datatype Outcome =
    | NoPrompt                  // nothing was submitted
    | RateLimited               // "Rate limit exceeded", script stopped
    | MissingApiKey             // "API key is required!", script stopped
    | Answered(text: string)    // the reply was appended and saved
    | ApiError(message: string) // an HTTP error status
    | TransportFailed           // the request or the body's transfer failed
    | StreamFailed(fault: Fault) // decoding a line raised
    | SaveFailed                // writing the history raised

  /** What the streaming path ends in, given the decoded lines. */
  function StreamOutcome(decoded: Result<Accumulator, Fault>, broken: bool, saved: bool): (o: Outcome)
    ensures o.Answered? <==> decoded.Ok? && !broken && saved
    ensures o.Answered? ==> o.text == decoded.value.text
    ensures o.TransportFailed? <==> decoded.Ok? && broken
    ensures o.SaveFailed? <==> decoded.Ok? && !broken && !saved
    ensures o.StreamFailed? <==> decoded.Err?
    ensures decoded.Err? ==> o == StreamFailed(decoded.error)
  {
    match decoded
    case Err(f) => StreamFailed(f)
    case Ok(acc) =>
      if broken then TransportFailed
      else if !saved then SaveFailed
      else Answered(acc.text)
  }

  /** What a sent request ends in, given the provider's response. */
  function ReplyOutcome(provider: string, response: Response, saved: bool,
                        parse: string -> Option<Value>, render: Value -> string): (o: Outcome)
    // A sent request never ends at one of the gates.
    ensures !o.NoPrompt? && !o.RateLimited? && !o.MissingApiKey?
    ensures o.ApiError? <==> response.Reply? && IsHttpError(response.status)
    ensures o.ApiError? ==> o.message == ApiErrorMessage(provider, response.status, response.errorBody, render)
    ensures o.TransportFailed? <==>
      || response.ConnectionFailed?
      || (&& response.Reply? && !IsHttpError(response.status)
          && Decode(response.lines, provider == OpenRouterName, parse).Ok? && response.broken)
    ensures o.StreamFailed? <==>
      && response.Reply? && !IsHttpError(response.status)
      && Decode(response.lines, provider == OpenRouterName, parse).Err?
    ensures o.StreamFailed? ==> o.fault == Decode(response.lines, provider == OpenRouterName, parse).error
    ensures o.SaveFailed? <==>
      && response.Reply? && !IsHttpError(response.status)
      && Decode(response.lines, provider == OpenRouterName, parse).Ok? && !response.broken && !saved
    ensures o.Answered? <==>
      && response.Reply? && !IsHttpError(response.status)
      && Decode(response.lines, provider == OpenRouterName, parse).Ok? && !response.broken && saved
    ensures o.Answered? ==> o.text == Decode(response.lines, provider == OpenRouterName, parse).value.text
  {
    match response
    case ConnectionFailed => TransportFailed
    case Reply(status, errorBody, lines, broken) =>
      if IsHttpError(status) then ApiError(ApiErrorMessage(provider, status, errorBody, render))
      else StreamOutcome(Decode(lines, provider == OpenRouterName, parse), broken, saved)
  }

  /** A log of complete turns: user and assistant messages alternate, starting with the user. */
  ghost predicate Paired(log: seq<Message>) {
    && |log| % 2 == 0
    && forall i :: 0 <= i < |log| ==> log[i].role == (if i % 2 == 0 then User else Assistant)
  }

  lemma PairedAppendTurn(log: seq<Message>, question: string, answer: string)
    requires Paired(log)
    ensures Paired(log + [Message(User, question), Message(Assistant, answer)])
  {
  }

  class ChatApp {
    /** `st.session_state.messages`: the conversation log. */
    var messages: seq<Message>
    /** `st.session_state.api_calls`: the timestamps of the admitted calls. */
    var apiCalls: seq<int>

    ghost predicate Valid()
      reads this
    {
      |apiCalls| <= MaxCalls
    }

    constructor ()
      ensures Valid() && messages == [] && apiCalls == []
    {
      messages := [];
      apiCalls := [];
    }

    /** `check_rate_limit`: prune the window at `now`, refuse when ten or more
        calls remain, otherwise record `now`. */
    method CheckRateLimit(now: int) returns (ok: bool)
      requires Valid()
      modifies this
      ensures Valid()
      ensures ok == Admits(old(apiCalls), now)
      ensures apiCalls == AfterCall(old(apiCalls), now)
      ensures ok ==> apiCalls == Pruned(old(apiCalls), now) + [now]
      ensures !ok ==> apiCalls == Pruned(old(apiCalls), now) && |apiCalls| >= MaxCalls
      ensures messages == old(messages)
    {
      apiCalls := Pruned(apiCalls, now);
      if |apiCalls| >= MaxCalls {
        return false;
      }
      apiCalls := apiCalls + [now];
      return true;
    }

    /** `messages.pop()` */
    method PopMessage()
      requires |messages| > 0
      modifies this
      ensures messages == old(messages)[..|old(messages)| - 1]
      ensures apiCalls == old(apiCalls)
    {
      messages := messages[..|messages| - 1];
    }

    /** The part of the turn after the user message was appended: read the
        reply, append the assistant message, save, and pop on any exception. */
    method AwaitReply(provider: string, response: Response, saveSucceeds: bool,
                      parse: string -> Option<Value>, render: Value -> string)
      returns (outcome: Outcome)
      requires |messages| > 0
      modifies this
      ensures apiCalls == old(apiCalls)
      ensures outcome == ReplyOutcome(provider, response, saveSucceeds, parse, render)
      ensures outcome.Answered? ==> messages == old(messages) + [Message(Assistant, outcome.text)]
      ensures outcome.SaveFailed? ==> messages == old(messages)
      ensures !outcome.Answered? && !outcome.SaveFailed? ==> messages == old(messages)[..|old(messages)| - 1]
    {
      match response {
        case ConnectionFailed =>
          PopMessage();
          outcome := TransportFailed;
        case Reply(status, errorBody, lines, broken) =>
          if IsHttpError(status) {
            outcome := ApiError(ApiErrorMessage(provider, status, errorBody, render));
            PopMessage();
          } else {
            var decoded := Accumulate(lines, provider == OpenRouterName, parse);
            if decoded.Err? {
              PopMessage();
              outcome := StreamFailed(decoded.error);
            } else if broken {
              PopMessage();
              outcome := TransportFailed;
            } else {
              messages := messages + [Message(Assistant, decoded.value)];
              if !saveSucceeds {
                PopMessage();
                assert messages == old(messages);
                outcome := SaveFailed;
              } else {
                outcome := Answered(decoded.value);
              }
            }
          }
      }
    }

    /** One submitted prompt: gate on the rate limit and then the API key,
        append the user turn, send the request, decode the reply and append
        the assistant turn, removing the last message on any exception. */
    method Submit(prompt: string, fileContent: string, apiKey: string, provider: string,
                  preamble: string, temperature: real, repPenalty: real, now: int,
                  response: Response, saveSucceeds: bool,
                  parse: string -> Option<Value>, render: Value -> string)
      returns (outcome: Outcome, sent: Option<ChatRequest>)
      requires Valid() && provider in Providers
      modifies this
      ensures Valid()
      // The gates, in their order.
      ensures outcome == NoPrompt <==> prompt == ""
      ensures apiCalls == if prompt == "" then old(apiCalls) else AfterCall(old(apiCalls), now)
      ensures outcome == RateLimited <==> prompt != "" && !Admits(old(apiCalls), now)
      ensures outcome == MissingApiKey <==> prompt != "" && Admits(old(apiCalls), now) && apiKey == ""
      ensures sent.Some? <==> prompt != "" && Admits(old(apiCalls), now) && apiKey != ""
      // The request carries the log with the new user turn; the reply decides the rest.
      ensures sent.Some? ==> sent.value == BuildRequest(provider, apiKey, preamble,
        old(messages) + [Message(User, FullPrompt(fileContent, prompt))], temperature, repPenalty)
      ensures sent.Some? ==> outcome == ReplyOutcome(provider, response, saveSucceeds, parse, render)
      // The log: both turns on success, the user turn alone when saving
      // fails, and otherwise exactly the old log.
      ensures outcome.Answered? ==>
        messages == old(messages) + [Message(User, FullPrompt(fileContent, prompt)), Message(Assistant, outcome.text)]
      ensures outcome.SaveFailed? ==> messages == old(messages) + [Message(User, FullPrompt(fileContent, prompt))]
      ensures !outcome.Answered? && !outcome.SaveFailed? ==> messages == old(messages)
      ensures Paired(old(messages)) && !outcome.SaveFailed? ==> Paired(messages)
    {
      sent := None;
      if prompt == "" {
        return NoPrompt, sent;
      }
      var admitted := CheckRateLimit(now);
      if !admitted {
        return RateLimited, sent;
      }
      if apiKey == "" {
        return MissingApiKey, sent;
      }
      var question := FullPrompt(fileContent, prompt);
      messages := messages + [Message(User, question)];
      sent := Some(BuildRequest(provider, apiKey, preamble, messages, temperature, repPenalty));
      outcome := AwaitReply(provider, response, saveSucceeds, parse, render);
      assert (old(messages) + [Message(User, question)])[..|old(messages)|] == old(messages);
      if outcome.Answered? {
        if Paired(old(messages)) {
          PairedAppendTurn(old(messages), question, outcome.text);
        }
        assert messages == old(messages) + [Message(User, question), Message(Assistant, outcome.text)];
      }
    }
  }
}
