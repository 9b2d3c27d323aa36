/**
 * The per-session message log (`st.session_state.messages`) and the chat turn
 * that updates it (app.py lines 22-24 and 192-244).
 */
module Session {
  import opened Wrappers
  import opened Messages
  import Client

  /** The text put in front of an exception's message (app.py line 241). */
  const ErrorPrefix: string := "Ocorreu um erro: "

  /** What the completion service did with the payload, when a client exists. */
  datatype Response = Completed(text: string) | Raised(error: string)

  /** How the turn's call went: a reply, an exception's text, or no client at all. */
  datatype Outcome = Success(reply: string) | Failure(error: string) | NoClient

  /** One submission to the page: the chat input and how its call went. */
  datatype Submission = Submission(input: Option<string>, outcome: Outcome)

  /** The `if client:` test of app.py line 218: only a present client is called. */
  function Attempt(client: Option<Client.Handle>, response: Response): (o: Outcome)
    ensures o.NoClient? <==> client.None?
    ensures o.Success? <==> client.Some? && response.Completed?
    ensures o.Success? ==> o.reply == response.text
    ensures o.Failure? ==> o.error == response.error
  {
    if client.None? then NoClient
    else match response
      case Completed(text) => Success(text)
      case Raised(error) => Failure(error)
  }

  /** The walrus test of app.py line 193: the chat input is a non-empty string. */
  predicate Submitted(input: Option<string>)
  {
    input.Some? && input.value != []
  }

  /**
   * The log as the turn leaves it: the user entry first, then the reply or the
   * error text as an assistant entry; no assistant entry without a client.
   */
  function Step(log: seq<Message>, input: Option<string>, outcome: Outcome): seq<Message>
  {
    if !Submitted(input) then log
    else
      var asked := log + [UserEntry(input.value)];
      match outcome
      case Success(reply) => asked + [Message(Assistant, reply)]
      case Failure(error) => asked + [Message(Assistant, ErrorPrefix + error)]
      case NoClient => asked
  }

  /** What the page appends keeps: no system entry, and no user entry without text. */
  predicate WellFormed(log: seq<Message>)
  {
    forall i :: 0 <= i < |log| ==> log[i].role != System && (log[i].role == User ==> log[i].content != [])
  }

  /** The log after a run of submissions, one script run each. */
  function Replay(log: seq<Message>, submissions: seq<Submission>): seq<Message>
    decreases |submissions|
  {
    if submissions == [] then log
    else Replay(Step(log, submissions[0].input, submissions[0].outcome), submissions[1..])
  }

  /** The number of submissions that start a turn. */
  function TurnCount(submissions: seq<Submission>): nat
  {
    if submissions == [] then 0
    else (if Submitted(submissions[0].input) then 1 else 0) + TurnCount(submissions[1..])
  }

  class ChatSession {
    /** The persona text (app.py lines 127-190); fixed for the life of the session. */
    const persona: string
    /** `st.session_state.messages` */
    var messages: seq<Message>

    /** A new session starts with an empty log (app.py lines 23-24). */
    constructor (persona: string)
      ensures this.persona == persona && messages == []
      ensures WellFormed(messages)
    {
      this.persona := persona;
      messages := [];
    }

    /**
     * One run of app.py lines 193-244. Returns the payload assembled for the
     * service, or None when no turn starts.
     */
    method Turn(input: Option<string>, outcome: Outcome) returns (payload: Option<seq<Message>>)
      requires WellFormed(messages)
      modifies this
      ensures WellFormed(messages)
      ensures messages == Step(old(messages), input, outcome)
      ensures payload.Some? <==> Submitted(input)
      ensures payload.Some? ==>
        payload.value == Payload(persona, old(messages) + [UserEntry(input.value)], input.value)
    {
      payload := None;
      if input.Some? && input.value != [] {
        var prompt := input.value;
        messages := messages + [UserEntry(prompt)];
        var assembled := AssemblePayload(persona, messages, prompt);
        payload := Some(assembled);
        match outcome {
          case Success(reply) =>
            messages := messages + [Message(Assistant, reply)];
          case Failure(error) =>
            messages := messages + [Message(Assistant, ErrorPrefix + error)];
          case NoClient =>
        }
      }
    }
  }

  // ---------------------------------------------------------------------------
  // The log across one turn and across a session
  // ---------------------------------------------------------------------------

  /**
   * A turn only appends: nothing for an empty input, otherwise the user entry
   * and then one assistant entry, the reply or the error text, or none at all
   * without a client.
   */
  lemma StepAppends(log: seq<Message>, input: Option<string>, outcome: Outcome)
    ensures var next := Step(log, input, outcome);
      && |log| <= |next|
      && next[..|log|] == log
      && (!Submitted(input) ==> next == log)
      && (Submitted(input) ==>
            && |next| == |log| + (if outcome.NoClient? then 1 else 2)
            && next[|log|] == UserEntry(input.value))
      && (Submitted(input) && outcome.Success? ==> next[|log| + 1] == Message(Assistant, outcome.reply))
      && (Submitted(input) && outcome.Failure? ==> next[|log| + 1] == Message(Assistant, ErrorPrefix + outcome.error))
  {
  }

  /** A turn keeps the log free of system entries and of empty user entries. */
  lemma StepWellFormed(log: seq<Message>, input: Option<string>, outcome: Outcome)
    requires WellFormed(log)
    ensures WellFormed(Step(log, input, outcome))
  {
  }

  /**
   * Over a whole session the log only grows at its end, by at most two entries
   * per turn, and stays well formed.
   */
  lemma {:induction false} ReplayAppends(log: seq<Message>, submissions: seq<Submission>)
    requires WellFormed(log)
    ensures var final := Replay(log, submissions);
      && |log| + TurnCount(submissions) <= |final| <= |log| + 2 * TurnCount(submissions)
      && final[..|log|] == log
      && WellFormed(final)
    decreases |submissions|
  {
    if submissions != [] {
      var s := submissions[0];
      var next := Step(log, s.input, s.outcome);
      StepAppends(log, s.input, s.outcome);
      StepWellFormed(log, s.input, s.outcome);
      ReplayAppends(next, submissions[1..]);
      var final := Replay(next, submissions[1..]);
      assert final[..|log|] == final[..|next|][..|log|];
    }
  }

  /**
   * When every call reaches a client, each started turn adds exactly two
   * entries, whether the call returned a reply or raised.
   */
  lemma {:induction false} ReplayWithClient(log: seq<Message>, submissions: seq<Submission>)
    requires forall k :: 0 <= k < |submissions| ==> !submissions[k].outcome.NoClient?
    ensures |Replay(log, submissions)| == |log| + 2 * TurnCount(submissions)
    decreases |submissions|
  {
    if submissions != [] {
      var s := submissions[0];
      StepAppends(log, s.input, s.outcome);
      ReplayWithClient(Step(log, s.input, s.outcome), submissions[1..]);
    }
  }

  /**
   * Without a client a session gains one user entry per turn and no assistant
   * entry at all.
   */
  lemma {:induction false} ReplayWithoutClient(log: seq<Message>, submissions: seq<Submission>)
    requires forall k :: 0 <= k < |submissions| ==> submissions[k].outcome.NoClient?
    ensures var final := Replay(log, submissions);
      && |final| == |log| + TurnCount(submissions)
      && final[..|log|] == log
      && forall i :: |log| <= i < |final| ==> final[i].role == User
    decreases |submissions|
  {
    if submissions != [] {
      var s := submissions[0];
      var next := Step(log, s.input, s.outcome);
      ReplayWithoutClient(next, submissions[1..]);
      var final := Replay(next, submissions[1..]);
      assert final[..|log|] == final[..|next|][..|log|];
    }
  }

  /**
   * Two turns with a client and different prompts: the second payload carries
   * the first exchange once each, in order, between the persona and the new
   * prompt.
   */
  lemma SecondTurnPayload(persona: string, first: string, reply: string, second: string)
    requires first != [] && first != second
    ensures var log := Step([], Some(first), Success(reply));
      Payload(persona, log + [UserEntry(second)], second)
      == [SystemEntry(persona), UserEntry(first), Message(Assistant, reply), UserEntry(second)]
  {
    var log := Step([], Some(first), Success(reply));
    assert log == [UserEntry(first), Message(Assistant, reply)];
    PayloadIsFullHistoryIff(persona, log, second);
  }

  /**
   * The same prompt asked again drops the first question from the payload but
   * keeps the reply to it.
   */
  lemma RepeatedPromptPayload(persona: string, prompt: string, reply: string)
    requires prompt != []
    ensures var log := Step([], Some(prompt), Success(reply));
      Payload(persona, log + [UserEntry(prompt)], prompt)
      == [SystemEntry(persona), Message(Assistant, reply), UserEntry(prompt)]
  {
    var log := Step([], Some(prompt), Success(reply));
    var history := log + [UserEntry(prompt)];
    assert history == [UserEntry(prompt)] + [Message(Assistant, reply)] + [UserEntry(prompt)];
    FilterAppend([UserEntry(prompt)] + [Message(Assistant, reply)], [UserEntry(prompt)], prompt);
    FilterAppend([UserEntry(prompt)], [Message(Assistant, reply)], prompt);
    assert Filter([UserEntry(prompt)], prompt) == [];
    assert Filter([Message(Assistant, reply)], prompt) == [Message(Assistant, reply)];
  }
}
