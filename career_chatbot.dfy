/**
 * The follow-up chat panel (src/components/CareerChatbot.tsx), a component
 * written for the results page that no page of the repository renders.
 * `sendMessage` is split at its `await`: `Send` is the part before the call
 * to the `career-chat` function and `Receive` the part after it, so that the
 * `loading` guard between the two is visible.
 */
module CareerChatbot {
  import opened Wrappers
  import opened JsStrings
  import opened QuizData
  import opened Gateway

  /** The four canned questions offered while the conversation is empty. */
  const SuggestedQuestions: seq<string> := [
    "How do I prepare for interviews" + " in my top career?",
    "What certifications should I get first?",
    "Compare my top 2 career options",
    "What's the day-to-day like in this role?"
  ]

  const FallbackReply := "Sorry, I couldn't process that. Please try again!"

  /** What `supabase.functions.invoke("career-chat", ...)` yields. */
  datatype InvokeOutcome =
    | InvokeError                    // `error` is set (transport failure or non-2xx status)
    | ErrorPayload(message: string)  // `data.error` is set
    | Replied(reply: string)         // `data.reply`

  /** The assistant turn appended for an outcome: the reply, or the fixed apology for any failure. */
  function ReplyText(outcome: InvokeOutcome): (r: string)
    ensures outcome.Replied? ==> r == outcome.reply
    ensures !outcome.Replied? ==> r == FallbackReply
  {
    match outcome
    case Replied(reply) => reply
    case _ => FallbackReply
  }

  /** Turns alternate, the student speaking first. */
  predicate Alternating(ms: seq<Message>) {
    forall k :: 0 <= k < |ms| ==> ms[k].role == if k % 2 == 0 then User else Assistant
  }

  /** An alternating conversation, as the widget posts it to `career-chat`, holds no system turn. */
  lemma AlternatingHasNoSystem(ms: seq<Message>)
    requires Alternating(ms)
    ensures forall k :: 0 <= k < |ms| ==> ms[k].role != System
  {
  }

  /** A student turn as `sendMessage` stores it: non-empty and trimmed at both ends. */
  predicate TrimmedText(s: string) {
    s != [] && !IsWhitespace(s[0]) && !IsWhitespace(s[|s| - 1])
  }

  /** The send button is disabled while the input is blank (`!input.trim()`) or a reply is awaited. */
  predicate SubmitDisabled(input: string, loading: bool) {
    Trim(input) == [] || loading
  }

  /** Trimming a text that is not blank gives trimmed text. */
  lemma TrimOfTextIsTrimmed(s: string)
    requires !IsBlank(s)
    ensures TrimmedText(Trim(s))
  {
    TrimEmptyIffBlank(s);
    TrimShape(s);
  }

  /** The disabled condition in terms of the text: blank means only white space. */
  lemma SubmitDisabledIffBlank(input: string, loading: bool)
    ensures SubmitDisabled(input, loading) <==> IsBlank(input) || loading
  {
    TrimEmptyIffBlank(input);
  }

  /** Every suggested question is accepted whenever no reply is awaited. */
  lemma SuggestionsAreNotBlank()
    ensures forall k :: 0 <= k < |SuggestedQuestions| ==> !IsBlank(SuggestedQuestions[k])
  {
    var q0, q1, q2, q3 := SuggestedQuestions[0], SuggestedQuestions[1], SuggestedQuestions[2], SuggestedQuestions[3];
    assert q0 == "How do I prepare for interviews" + " in my top career?" && q0[0] == 'H';
    assert q1 == "What certifications should I get first?" && q1[0] == 'W';
    assert q2 == "Compare my top 2 career options" && q2[0] == 'C';
    assert q3 == "What's the day-to-day like in this role?" && q3[0] == 'W';
    assert SuggestedQuestions == [q0, q1, q2, q3];
  }

  /** A full exchange keeps the conversation alternating. */
  lemma {:induction false} ExchangeKeepsAlternating(ms: seq<Message>, question: string, answer: string)
    requires Alternating(ms) && |ms| % 2 == 0
    ensures Alternating(ms + [Message(User, question), Message(Assistant, answer)])
  {
    var ext := ms + [Message(User, question), Message(Assistant, answer)];
    forall k | 0 <= k < |ext| ensures ext[k].role == if k % 2 == 0 then User else Assistant {
      if k < |ms| {
        assert ext[k] == ms[k];
      }
    }
  }

  /**
   * The conversation alternates, every student turn is trimmed text, and a
   * reply is awaited exactly when the last turn is the student's.
   */
  predicate WellFormed(ms: seq<Message>, loading: bool) {
    && Alternating(ms)
    && (forall k :: 0 <= k < |ms| && ms[k].role == User ==> TrimmedText(ms[k].content))
    && (loading <==> |ms| % 2 == 1)
  }

  /** Appending a trimmed student turn while no reply is awaited starts the wait. */
  lemma {:induction false} AskKeepsWellFormed(ms: seq<Message>, text: string)
    requires WellFormed(ms, false) && TrimmedText(text)
    ensures WellFormed(ms + [Message(User, text)], true)
  {
    var ext := ms + [Message(User, text)];
    forall k | 0 <= k < |ext| ensures ext[k].role == if k % 2 == 0 then User else Assistant {
      if k < |ms| {
        assert ext[k] == ms[k];
      }
    }
    forall k | 0 <= k < |ext| && ext[k].role == User ensures TrimmedText(ext[k].content) {
      if k < |ms| {
        assert ext[k] == ms[k];
      }
    }
  }

  /** Appending the assistant's turn ends the wait. */
  lemma {:induction false} AnswerKeepsWellFormed(ms: seq<Message>, reply: string)
    requires WellFormed(ms, true)
    ensures WellFormed(ms + [Message(Assistant, reply)], false)
  {
    var ext := ms + [Message(Assistant, reply)];
    forall k | 0 <= k < |ext| ensures ext[k].role == if k % 2 == 0 then User else Assistant {
      if k < |ms| {
        assert ext[k] == ms[k];
      }
    }
    forall k | 0 <= k < |ext| && ext[k].role == User ensures TrimmedText(ext[k].content) {
      assert k < |ms| && ext[k] == ms[k];
    }
  }

  class Chatbot {
    const results: AnalysisResult
    var open: bool
    var messages: seq<Message>
    var input: string
    var loading: bool

    /** The state is a well-formed conversation. */
    ghost predicate Valid()
      reads this
    {
      WellFormed(messages, loading)
    }

    /** The panel starts closed with an empty conversation. */
    constructor (results: AnalysisResult)
      ensures Valid()
      ensures this.results == results && !open && messages == [] && input == "" && !loading
    {
      this.results := results;
      open := false;
      messages := [];
      input := "";
      loading := false;
    }

    /** The suggested questions are shown while the conversation is empty. */
    predicate ShowsSuggestions()
      reads this
    {
      messages == []
    }

    method SetOpen(value: bool)
      modifies this
      ensures open == value
      ensures messages == old(messages) && input == old(input) && loading == old(loading)
    {
      open := value;
    }

    /** Typing into the input box, which is disabled while a reply is awaited. */
    method Type(text: string)
      requires !loading
      modifies this
      ensures input == text
      ensures open == old(open) && messages == old(messages) && loading == old(loading)
    {
      input := text;
    }

    /**
     * The first half of `sendMessage`: a blank text or an awaited reply
     * ignores the call; otherwise the trimmed text is appended as the
     * student's turn, the input is cleared, `loading` is set, and the whole
     * conversation is returned as the body sent to the chat function.
     */
    method Send(text: string) returns (request: Option<seq<Message>>)
      requires Valid()
      modifies this
      ensures Valid() && open == old(open)
      ensures IsBlank(text) || old(loading) ==>
        request == None && messages == old(messages) && input == old(input) && loading == old(loading)
      ensures !IsBlank(text) && !old(loading) ==>
        && messages == old(messages) + [Message(User, Trim(text))]
        && input == "" && loading
        && request == Some(messages)
    {
      if IsBlank(text) || loading {
        request := None;
      } else {
        TrimOfTextIsTrimmed(text);
        request := Ask(Trim(text));
      }
    }

    /** Appends an accepted student turn, clears the input and starts waiting for the reply. */
    method Ask(turn: string) returns (request: Option<seq<Message>>)
      requires Valid() && !loading && TrimmedText(turn)
      modifies this
      ensures Valid() && open == old(open)
      ensures messages == old(messages) + [Message(User, turn)] && input == "" && loading
      ensures request == Some(messages)
    {
      AskKeepsWellFormed(messages, turn);
      messages := messages + [Message(User, turn)];
      input := "";
      loading := true;
      request := Some(messages);
    }

    /** Submitting the form sends the input box's text. */
    method Submit() returns (request: Option<seq<Message>>)
      requires Valid()
      modifies this
      ensures Valid() && open == old(open)
      ensures old(SubmitDisabled(input, loading)) ==>
        request == None && messages == old(messages) && input == old(input) && loading == old(loading)
      ensures !old(SubmitDisabled(input, loading)) ==>
        && messages == old(messages) + [Message(User, Trim(old(input)))]
        && input == "" && loading
        && request == Some(messages)
    {
      SubmitDisabledIffBlank(input, loading);
      request := Send(input);
    }

    /**
     * Clicking suggested question `k`, shown only on an empty conversation,
     * sends its text; it is always accepted.
     */
    method Suggest(k: nat) returns (request: Option<seq<Message>>)
      requires Valid() && ShowsSuggestions() && k < |SuggestedQuestions|
      modifies this
      ensures Valid() && open == old(open)
      ensures messages == [Message(User, Trim(SuggestedQuestions[k]))] && loading && request == Some(messages)
    {
      SuggestionsAreNotBlank();
      request := Send(SuggestedQuestions[k]);
    }

    /**
     * The second half of `sendMessage`: the reply, or the fixed apology on
     * any failure, is appended as the assistant's turn and `loading` is
     * cleared (`finally`).
     */
    method Receive(outcome: InvokeOutcome)
      requires Valid() && loading
      modifies this
      ensures Valid() && !loading
      ensures messages == old(messages) + [Message(Assistant, ReplyText(outcome))]
      ensures open == old(open) && input == old(input)
    {
      AnswerKeepsWellFormed(messages, ReplyText(outcome));
      messages := messages + [Message(Assistant, ReplyText(outcome))];
      loading := false;
    }

    /** An accepted send followed by its reply adds exactly one exchange. */
    method Exchange(text: string, outcome: InvokeOutcome) returns (request: Option<seq<Message>>)
      requires Valid() && !loading && !IsBlank(text)
      modifies this
      ensures Valid() && !loading
      ensures messages == old(messages) + [Message(User, Trim(text)), Message(Assistant, ReplyText(outcome))]
      ensures request == Some(old(messages) + [Message(User, Trim(text))])
    {
      request := Send(text);
      Receive(outcome);
    }
  }
}
