/**
 * The chat messages of one session and the request payload that a turn sends
 * to the completion service (app.py, lines 205-215).
 */
module Messages {

  /** The `role` key of a message dictionary. */
  datatype Role = System | User | Assistant

  /** A message dictionary `{"role": ..., "content": ...}`. */
  datatype Message = Message(role: Role, content: string)

  /** The entry a turn appends for the user's prompt (app.py line 195, 215). */
  function UserEntry(prompt: string): Message
  {
    Message(User, prompt)
  }

  /** The persona entry that opens every payload (app.py lines 205-207). */
  function SystemEntry(persona: string): Message
  {
    Message(System, persona)
  }

  /** The test of app.py line 211 fails: the history entry is left out of the payload. */
  predicate IsPrompt(m: Message, prompt: string)
  {
    m.role == User && m.content == prompt
  }

  /**
   * The stored history as the loop of app.py lines 210-212 copies it: every
   * entry except those that are a user entry with the prompt's text, wherever
   * they stand, in their original order.
   */
  function Filter(history: seq<Message>, prompt: string): (kept: seq<Message>)
    ensures |kept| <= |history|
    ensures forall m :: m in kept ==> m in history && !IsPrompt(m, prompt)
  {
    if history == [] then []
    else
      var rest := Filter(history[..|history| - 1], prompt);
      var last := history[|history| - 1];
      if IsPrompt(last, prompt) then rest else rest + [last]
  }

  /** The list `messages_for_api` that app.py lines 205-215 build. */
  function Payload(persona: string, history: seq<Message>, prompt: string): seq<Message>
  {
    [SystemEntry(persona)] + Filter(history, prompt) + [UserEntry(prompt)]
  }

  /** Builds `messages_for_api` with the loop of app.py lines 205-215. */
  method AssemblePayload(persona: string, history: seq<Message>, prompt: string)
    returns (payload: seq<Message>)
    ensures payload == Payload(persona, history, prompt)
  {
    payload := [SystemEntry(persona)];
    for i := 0 to |history|
      invariant payload == [SystemEntry(persona)] + Filter(history[..i], prompt)
    {
      var msg := history[i];
      assert history[..i + 1][..i] == history[..i];
      if msg.role != User || msg.content != prompt {
        payload := payload + [Message(msg.role, msg.content)];
      }
    }
    assert history[..|history|] == history;
    payload := payload + [UserEntry(prompt)];
  }

  // ---------------------------------------------------------------------------
  // What the filter keeps
  // ---------------------------------------------------------------------------

  /** The filter works entry by entry: it keeps the relative order of what it keeps. */
  lemma {:induction false} FilterAppend(a: seq<Message>, b: seq<Message>, prompt: string)
    ensures Filter(a + b, prompt) == Filter(a, prompt) + Filter(b, prompt)
  {
    if b == [] {
      assert a + b == a;
    } else {
      var b' := b[..|b| - 1];
      assert (a + b)[..|a + b| - 1] == a + b';
      FilterAppend(a, b', prompt);
    }
  }

  /**
   * Every entry of the history keeps its number of occurrences, except the user
   * entry holding the prompt, which is dropped every time it occurs.
   */
  lemma {:induction false} FilterCount(history: seq<Message>, prompt: string, m: Message)
    ensures multiset(Filter(history, prompt))[m]
            == if IsPrompt(m, prompt) then 0 else multiset(history)[m]
  {
    if history != [] {
      var init := history[..|history| - 1];
      assert history == init + [history[|history| - 1]];
      FilterCount(init, prompt, m);
    }
  }

  /** The filter drops exactly the k stored user entries equal to the prompt. */
  lemma {:induction false} FilterLength(history: seq<Message>, prompt: string)
    ensures |Filter(history, prompt)| == |history| - multiset(history)[UserEntry(prompt)]
  {
    if history != [] {
      var init := history[..|history| - 1];
      assert history == init + [history[|history| - 1]];
      FilterLength(init, prompt);
    }
  }

  /** The filter changes the history if and only if the history holds the prompt as a user entry. */
  lemma {:induction false} FilterIdentity(history: seq<Message>, prompt: string)
    ensures Filter(history, prompt) == history <==> UserEntry(prompt) !in history
  {
    FilterLength(history, prompt);
    if UserEntry(prompt) in history {
      assert multiset(history)[UserEntry(prompt)] > 0;
    } else {
      assert multiset(history)[UserEntry(prompt)] == 0;
      KeepsAllWithoutPrompt(history, prompt);
    }
  }

  lemma {:induction false} KeepsAllWithoutPrompt(history: seq<Message>, prompt: string)
    requires UserEntry(prompt) !in history
    ensures Filter(history, prompt) == history
  {
    if history != [] {
      var init := history[..|history| - 1];
      assert history == init + [history[|history| - 1]];
      KeepsAllWithoutPrompt(init, prompt);
    }
  }

  // ---------------------------------------------------------------------------
  // What the payload holds
  // ---------------------------------------------------------------------------

  /**
   * The payload opens with the persona, closes with the prompt, and in between
   * holds the filtered history.
   */
  lemma PayloadShape(persona: string, history: seq<Message>, prompt: string)
    ensures var r := Payload(persona, history, prompt);
      && |r| >= 2
      && r[0] == SystemEntry(persona)
      && r[|r| - 1] == UserEntry(prompt)
      && r[1..|r| - 1] == Filter(history, prompt)
  {
  }

  /** The prompt's user entry occurs exactly once in the payload. */
  lemma PromptOnce(persona: string, history: seq<Message>, prompt: string)
    ensures multiset(Payload(persona, history, prompt))[UserEntry(prompt)] == 1
  {
    FilterCount(history, prompt, UserEntry(prompt));
  }

  /**
   * Every other entry occurs in the payload as often as in the history, the
   * persona entry once more; in particular an assistant reply whose text equals
   * the prompt is kept.
   */
  lemma OthersKept(persona: string, history: seq<Message>, prompt: string, m: Message)
    requires m != UserEntry(prompt)
    ensures multiset(Payload(persona, history, prompt))[m]
            == multiset(history)[m] + (if m == SystemEntry(persona) then 1 else 0)
  {
    FilterCount(history, prompt, m);
  }

  /** With no system entry stored, the persona is the payload's only system entry. */
  lemma SystemOnlyFirst(persona: string, history: seq<Message>, prompt: string)
    requires forall i :: 0 <= i < |history| ==> history[i].role != System
    ensures var r := Payload(persona, history, prompt);
      forall i :: 0 <= i < |r| ==> (r[i].role == System <==> i == 0)
  {
    var r := Payload(persona, history, prompt);
    var kept := Filter(history, prompt);
    forall i | 0 < i < |r| - 1
      ensures r[i].role != System
    {
      assert r[i] == kept[i - 1] && r[i] in kept;
    }
  }

  /** The payload has 2 + |history| - k entries, k the stored copies of the prompt's user entry. */
  lemma PayloadLength(persona: string, history: seq<Message>, prompt: string)
    ensures |Payload(persona, history, prompt)|
            == 2 + |history| - multiset(history)[UserEntry(prompt)]
  {
    FilterLength(history, prompt);
  }

  /**
   * In a turn the prompt has just been appended to the history, so the filter
   * drops at least that entry and the payload is at most one entry longer than
   * the history.
   */
  lemma TurnPayloadLength(persona: string, earlier: seq<Message>, prompt: string)
    ensures var history := earlier + [UserEntry(prompt)];
      |Payload(persona, history, prompt)| <= |history| + 1
  {
    var history := earlier + [UserEntry(prompt)];
    PayloadLength(persona, history, prompt);
    assert multiset(history)[UserEntry(prompt)] >= 1;
  }

  /**
   * The payload of a turn is the whole earlier conversation between the persona
   * and the prompt if and only if the prompt was never asked before; a repeated
   * prompt also removes the earlier user entries that hold it.
   */
  lemma PayloadIsFullHistoryIff(persona: string, earlier: seq<Message>, prompt: string)
    ensures Payload(persona, earlier + [UserEntry(prompt)], prompt)
            == [SystemEntry(persona)] + earlier + [UserEntry(prompt)]
            <==> UserEntry(prompt) !in earlier
  {
    var current := [UserEntry(prompt)];
    FilterAppend(earlier, current, prompt);
    assert current == [] + current;
    assert Filter(current, prompt) == [];
    FilterIdentity(earlier, prompt);
    var p := Payload(persona, earlier + current, prompt);
    var full := [SystemEntry(persona)] + earlier + current;
    if p == full {
      assert p[1..|p| - 1] == Filter(earlier, prompt);
      assert full[1..|full| - 1] == earlier;
    }
  }
}
