/**
 The session object of the chatbot: it keeps the conversation log, forwards
 each user message to the remote generative model and records the reply.

 The remote model is not part of this model. Every call the session makes to
 it (`generate_content`, `start_chat`, `send_message`) is a `Call`, and the
 remote side is a function from calls to what they do: a call either raises
 or returns a response, and reading that response's `text` either gives a
 string or raises in its turn.
 */
module Chatbot {
  import opened Conversation

  datatype Call =
    | GenerateContent(prompt: string)
    | StartChat
    | SendMessage(text: string)

  /** A text, or the message of the exception raised instead of it. */
  datatype Outcome = Success(text: string) | Failure(msg: string)

  /** What a remote call does: it raises, or it returns a response whose
      `text` is `text`. For `start_chat` only whether it raised matters. */
  datatype CallResult = Returned(text: Outcome) | Raised(msg: string)

  /** The remote side, as seen by one request. */
  type Remote = Call -> CallResult

  const ErrorPrefix: string := "Error getting response: "

  /** The session's state: the log and whether a remote chat handle is held. */
  datatype Session = Session(history: seq<Msg>, hasChat: bool)

  function UserTurn(input: string): Msg { Msg(UserRole, input) }

  /** The prompt of the first request made without a chat handle; `history`
      already ends with the user's turn. */
  function Prompt(history: seq<Msg>, input: string): string
  {
    FormatHistory(history) + "\n\nUser: " + input
  }

  /** The remote calls made for one request: whether a chat was started, and
      the reply text or the message of the first exception raised. With a
      chat handle only `send_message(input)` is called. Without one, the
      prompt is generated and a chat is then started; only after both have
      returned is the generated response's text read. */
  function Exchange(s: Session, input: string, remote: Remote): (bool, Outcome)
  {
    if s.hasChat then
      match remote(SendMessage(input))
      case Raised(e) => (false, Failure(e))
      case Returned(t) => (false, t)
    else
      match remote(GenerateContent(Prompt(s.history + [UserTurn(input)], input)))
      case Raised(e) => (false, Failure(e))
      case Returned(t) =>
        match remote(StartChat)
        case Raised(e) => (false, Failure(e))
        case Returned(_) => (true, t)
  }

  /** The bookkeeping of one request, given whether it started a chat and the
      outcome of its remote calls: the new session and the text returned to
      the caller. The user turn is logged before any remote call, so it stays
      in the log on failure; the model turn is logged only on success. A chat
      once started is kept even when the reply text cannot be read. */
  function Record(s: Session, input: string, started: bool, outcome: Outcome): (r: (Session, string))
    ensures s.history <= r.0.history
    ensures |r.0.history| == |s.history| + (if outcome.Success? then 2 else 1)
    ensures r.0.history[|s.history|] == UserTurn(input)
    ensures r.0.hasChat <==> s.hasChat || started
    ensures outcome.Success? ==>
              && r.1 == outcome.text
              && r.0.history[|s.history| + 1] == Msg(ModelRole, r.1)
    ensures outcome.Failure? ==> r.1 == ErrorPrefix + outcome.msg
  {
    var logged := s.history + [UserTurn(input)];
    var chat := s.hasChat || started;
    match outcome
    case Success(t) => (Session(logged + [Msg(ModelRole, t)], chat), t)
    case Failure(e) => (Session(logged, chat), ErrorPrefix + e)
  }

  /** One call of `get_response`. */
  function Submit(s: Session, input: string, remote: Remote): (Session, string)
  {
    var (started, outcome) := Exchange(s, input, remote);
    Record(s, input, started, outcome)
  }

  /** The paths of a request made with a chat handle: the log is not
      rendered, the handle is kept, and an exception raised by
      `send_message` or by reading its text is reported as the reply. */
  lemma WithChatPaths(s: Session, input: string, remote: Remote)
    requires s.hasChat
    ensures var (t, reply) := Submit(s, input, remote);
      && t.hasChat
      && match remote(SendMessage(input))
         case Raised(e) => t.history == s.history + [UserTurn(input)] && reply == ErrorPrefix + e
         case Returned(Failure(e)) => t.history == s.history + [UserTurn(input)] && reply == ErrorPrefix + e
         case Returned(Success(x)) => t.history == s.history + [UserTurn(input), Msg(ModelRole, x)] && reply == x
  {
  }

  /** The paths of a request made without a chat handle. An exception from
      `generate_content` or `start_chat` leaves no handle; once both have
      returned the handle is held, even when reading the generated text then
      raises. */
  lemma FirstRequestPaths(s: Session, input: string, remote: Remote)
    requires !s.hasChat
    ensures var (t, reply) := Submit(s, input, remote);
      var logged := s.history + [UserTurn(input)];
      match remote(GenerateContent(Prompt(logged, input)))
      case Raised(e) => t == Session(logged, false) && reply == ErrorPrefix + e
      case Returned(text) =>
        match remote(StartChat)
        case Raised(e) => t == Session(logged, false) && reply == ErrorPrefix + e
        case Returned(_) =>
          match text
          case Failure(e) => t == Session(logged, true) && reply == ErrorPrefix + e
          case Success(x) => t == Session(logged + [Msg(ModelRole, x)], true) && reply == x
  {
  }

  /** A reply is only ever read from a response once a chat handle exists,
      so an answered request always leaves the session holding one. */
  lemma AnsweredHoldsHandle(s: Session, input: string, remote: Remote)
    ensures Exchange(s, input, remote).1.Success? ==> Submit(s, input, remote).0.hasChat
  {
  }

  /** A model turn always answers the user turn right before it. */
  predicate AnswersUser(history: seq<Msg>, i: int)
    requires 0 <= i < |history|
  {
    history[i].role == ModelRole ==> 0 < i && history[i - 1].role == UserRole
  }

  /** What every reachable session satisfies: only the two roles occur, each
      model turn answers a user turn, and a chat handle exists only once a
      request has been logged. */
  predicate WellFormed(s: Session)
  {
    && (forall i :: 0 <= i < |s.history| ==> s.history[i].role in {UserRole, ModelRole})
    && (forall i :: 0 <= i < |s.history| ==> AnswersUser(s.history, i))
    && (s.hasChat ==> 1 <= |s.history|)
  }

  lemma RecordKeepsWellFormed(s: Session, input: string, started: bool, outcome: Outcome)
    requires WellFormed(s)
    ensures WellFormed(Record(s, input, started, outcome).0)
  {
    var t := Record(s, input, started, outcome).0;
    var n := |s.history|;
    forall i | 0 <= i < |t.history|
      ensures t.history[i].role in {UserRole, ModelRole}
      ensures AnswersUser(t.history, i)
    {
      if i < n {
        assert t.history[i] == s.history[i];
        assert AnswersUser(s.history, i);
        if 0 < i {
          assert t.history[i - 1] == s.history[i - 1];
        }
      } else if i == n {
        assert t.history[i].role == UserRole;
      } else {
        assert t.history[i].role == ModelRole && t.history[i - 1].role == UserRole;
      }
    }
  }

  /** A request as the log sees it: what the user typed, whether it started
      a chat and the outcome of the remote calls made for it, whichever calls
      those were. */
  datatype RequestResult = RequestResult(input: string, started: bool, outcome: Outcome)

  /** The session and the replies after a sequence of requests, in order. */
  function Run(s: Session, requests: seq<RequestResult>): (r: (Session, seq<string>))
    ensures |r.1| == |requests|
    ensures s.history <= r.0.history
    decreases |requests|
  {
    if requests == [] then (s, [])
    else
      var (next, reply) := Record(s, requests[0].input, requests[0].started, requests[0].outcome);
      var (last, replies) := Run(next, requests[1..]);
      (last, [reply] + replies)
  }

  /** How many requests of a sequence are answered. */
  function Answers(requests: seq<RequestResult>): (n: nat)
    ensures n <= |requests|
    decreases |requests|
  {
    if requests == [] then 0
    else (if requests[0].outcome.Success? then 1 else 0) + Answers(requests[1..])
  }

  /** Every request adds its user turn, and an answered one adds a model turn
      as well. */
  lemma {:induction false} RunGrowth(s: Session, requests: seq<RequestResult>)
    ensures |Run(s, requests).0.history| == |s.history| + |requests| + Answers(requests)
    decreases |requests|
  {
    if requests != [] {
      RunGrowth(Record(s, requests[0].input, requests[0].started, requests[0].outcome).0, requests[1..]);
    }
  }

  /** When every request is answered, the log grows by the pairs (request,
      reply), in the order of the requests. */
  lemma {:induction false} RunAllAnswered(s: Session, requests: seq<RequestResult>)
    requires Answers(requests) == |requests|
    ensures |Run(s, requests).0.history| == |s.history| + 2 * |requests|
    ensures forall i :: 0 <= i < |requests| ==>
              && Run(s, requests).0.history[|s.history| + 2 * i] == UserTurn(requests[i].input)
              && Run(s, requests).0.history[|s.history| + 2 * i + 1] == Msg(ModelRole, Run(s, requests).1[i])
    decreases |requests|
  {
    RunGrowth(s, requests);
    if requests != [] {
      var first, rest := requests[0], requests[1..];
      var (next, reply) := Record(s, first.input, first.started, first.outcome);
      assert first.outcome.Success?;
      RunAllAnswered(next, rest);
      var (last, replies) := Run(s, requests);
      assert last == Run(next, rest).0 && replies == [reply] + Run(next, rest).1;
      forall i | 0 <= i < |requests|
        ensures last.history[|s.history| + 2 * i] == UserTurn(requests[i].input)
        ensures last.history[|s.history| + 2 * i + 1] == Msg(ModelRole, replies[i])
      {
        if i == 0 {
          assert next.history <= last.history;
          assert last.history[|s.history| + 1] == next.history[|s.history| + 1];
        } else {
          var j := i - 1;
          assert requests[i] == rest[j] && replies[i] == Run(next, rest).1[j];
          assert |s.history| + 2 * i == |next.history| + 2 * j;
        }
      }
    }
  }

  /** From an empty log (a fresh or cleared session), a sequence of N
      answered requests leaves a log of 2N turns that alternate user, model,
      user, ... */
  lemma EmptyRunAlternates(s: Session, requests: seq<RequestResult>)
    requires s.history == []
    requires Answers(requests) == |requests|
    ensures |Run(s, requests).0.history| == 2 * |requests|
    ensures forall i :: 0 <= i < 2 * |requests| ==>
              Run(s, requests).0.history[i].role == if i % 2 == 0 then UserRole else ModelRole
  {
    var h := Run(s, requests).0.history;
    RunAllAnswered(s, requests);
    forall i | 0 <= i < 2 * |requests|
      ensures h[i].role == if i % 2 == 0 then UserRole else ModelRole
    {
      var k := i / 2;
      assert k < |requests|;
      if i % 2 == 0 {
        assert h[|s.history| + 2 * k] == UserTurn(requests[k].input);
      } else {
        assert h[|s.history| + 2 * k + 1] == Msg(ModelRole, Run(s, requests).1[k]);
      }
    }
  }

  /** Every request keeps a session well formed. */
  lemma {:induction false} RunKeepsWellFormed(s: Session, requests: seq<RequestResult>)
    requires WellFormed(s)
    ensures WellFormed(Run(s, requests).0)
    decreases |requests|
  {
    if requests != [] {
      RecordKeepsWellFormed(s, requests[0].input, requests[0].started, requests[0].outcome);
      RunKeepsWellFormed(Record(s, requests[0].input, requests[0].started, requests[0].outcome).0, requests[1..]);
    }
  }

  /** Once a chat handle is held, no request drops it. */
  lemma {:induction false} ChatHandleKept(s: Session, requests: seq<RequestResult>)
    requires s.hasChat
    ensures Run(s, requests).0.hasChat
    decreases |requests|
  {
    if requests != [] {
      ChatHandleKept(Record(s, requests[0].input, requests[0].started, requests[0].outcome).0, requests[1..]);
    }
  }

  /** With a chat handle, the log is not consulted: the reply and the turns
      added depend on what `send_message(input)` returns alone. */
  lemma WithChatLogIgnored(h1: seq<Msg>, h2: seq<Msg>, input: string, r1: Remote, r2: Remote)
    requires r1(SendMessage(input)) == r2(SendMessage(input))
    ensures Submit(Session(h1, true), input, r1).1 == Submit(Session(h2, true), input, r2).1
    ensures Submit(Session(h1, true), input, r1).0.history[|h1|..]
         == Submit(Session(h2, true), input, r2).0.history[|h2|..]
  {
    var o := Exchange(Session(h1, true), input, r1);
    assert o == Exchange(Session(h2, true), input, r2);
    var t1 := Submit(Session(h1, true), input, r1).0.history;
    var t2 := Submit(Session(h2, true), input, r2).0.history;
    if o.1.Success? {
      assert t1[|h1|..] == [t1[|h1|], t1[|h1| + 1]];
      assert t2[|h2|..] == [t2[|h2|], t2[|h2| + 1]];
    } else {
      assert t1[|h1|..] == [t1[|h1|]];
      assert t2[|h2|..] == [t2[|h2|]];
    }
  }

  /** Without a chat handle, the prompt renders the log including the new
      user turn: at most five earlier turns, most recent last, then the input
      as the window's last line, then the input once more. */
  lemma FirstPromptShape(history: seq<Msg>, input: string)
    ensures Prompt(history + [UserTurn(input)], input)
         == Header + RenderLines(history[|history| - Min(ContextWindow - 1, |history|)..])
            + "User: " + input + "\n" + "\n\nUser: " + input
  {
    FormatHistoryEndsWith(history, UserTurn(input));
    assert Line(UserTurn(input)) == "User: " + input + "\n";
  }

  /** The first request after a clear sends the input alone as context. */
  lemma PromptAfterClear(input: string)
    ensures Prompt([UserTurn(input)], input) == Header + "User: " + input + "\n\n\nUser: " + input
  {
    var u := UserTurn(input);
    assert FormatHistory([u]) == Header + Line(u) by {
      assert Window([u]) == [u];
      assert RenderLines([u]) == Line(u) by {
        assert [u][..0] == [];
      }
    }
  }

  /** The chatbot object: the conversation log and the chat handle. */
  class ChatbotWithMemory {
    var conversationHistory: seq<Msg>
    var hasChat: bool

    function State(): Session
      reads this
    {
      Session(conversationHistory, hasChat)
    }

    ghost predicate Valid()
      reads this
    {
      WellFormed(State())
    }

    constructor ()
      ensures Valid()
      ensures conversationHistory == [] && !hasChat
    {
      conversationHistory := [];
      hasChat := false;
    }

    /** Handles one user message; never fails, an exception raised by the
        remote side is returned as an error text. */
    method GetResponse(userInput: string, remote: Remote) returns (reply: string)
      requires Valid()
      modifies this
      ensures Valid()
      ensures (State(), reply) == Submit(old(State()), userInput, remote)
    {
      ghost var before := State();
      ghost var (started, outcome) := Exchange(before, userInput, remote);
      RecordKeepsWellFormed(before, userInput, started, outcome);
      conversationHistory := conversationHistory + [UserTurn(userInput)];
      var response: CallResult;
      if hasChat {
        response := remote(SendMessage(userInput));
        if response.Raised? {
          return ErrorPrefix + response.msg;
        }
      } else {
        var historyContext := FormatConversationHistory();
        var prompt := historyContext + "\n\nUser: " + userInput;
        response := remote(GenerateContent(prompt));
        if response.Raised? {
          return ErrorPrefix + response.msg;
        }
        var chat := remote(StartChat);
        if chat.Raised? {
          return ErrorPrefix + chat.msg;
        }
        hasChat := true;
      }
      match response.text
      case Failure(e) =>
        reply := ErrorPrefix + e;
      case Success(text) =>
        conversationHistory := conversationHistory + [Msg(ModelRole, text)];
        reply := text;
    }

    /** The context text for the current log. */
    method FormatConversationHistory() returns (text: string)
      ensures text == FormatHistory(conversationHistory)
    {
      if conversationHistory == [] {
        return StartOfConversation;
      }
      text := Header;
      var window := SliceFrom(conversationHistory, -(ContextWindow as int));
      for i := 0 to |window|
        invariant text == Header + RenderLines(window[..i])
      {
        var msg := window[i];
        var role := Label(msg.role);
        var line := role + ": " + msg.text + "\n";
        assert RenderLines(window[..i + 1]) == RenderLines(window[..i]) + line by {
          assert window[..i + 1][..i] == window[..i];
        }
        text := text + line;
      }
      assert window[..|window|] == window;
      assert window == Window(conversationHistory);
    }

    /** Forgets the conversation and the chat handle. */
    method ClearMemory()
      modifies this
      ensures Valid()
      ensures conversationHistory == [] && !hasChat
    {
      conversationHistory := [];
      hasChat := false;
    }
  }
}
