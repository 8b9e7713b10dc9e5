/**
 * The chat screen (features/Chatbot.tsx): a transcript that opens with a
 * greeting naming the profile's conditions and grows by one user message and
 * one answer per accepted send.
 */
module Chatbot {
  import opened Wrappers
  import opened Text
  import opened Types
  import GeminiService

  const GreetingStart := "Hi! I'm here to help with your "
  const GreetingEnd := ". Ask me anything about food, nutrition, or healthy habits \U{1F60A}"
  const ApologyText := "Sorry, I am having trouble connecting. Please try again."

  /**
   * The opening message: the conditions with `_` shown as spaces, joined by
   * `, `; without a profile the template shows `undefined`.
   */
  function Greeting(profile: Option<UserProfile>): string {
    GreetingStart
    + (if profile.Some? then GeminiService.ConditionList(profile.value.conditions) else "undefined")
    + GreetingEnd
  }

  /** The greeting names every condition of the profile. */
  lemma GreetingNamesConditions(p: UserProfile, k: int)
    requires 0 <= k < |p.conditions|
    ensures Contains(Greeting(Some(p)), GeminiService.ConditionText(p.conditions[k]))
  {
    var cs := p.conditions;
    var texts := seq(|cs|, i requires 0 <= i < |cs| => GeminiService.ConditionText(cs[i]));
    var list := GeminiService.ConditionList(cs);
    assert list == Join(texts, ", ");
    var part := texts[k];
    JoinContainsParts(texts, ", ", k);
    ContainsAppend(GreetingStart, list, part);
    ContainsAppend(GreetingStart + list, GreetingEnd, part);
  }

  /** A moment as the browser reports it: `Date.now()` and the ISO-8601 text of the same instant. */
  datatype Instant = Instant(millis: int, iso: string)

  /** The transcript is an opening answer followed by pairs of a user message and an answer. */
  predicate Alternating(messages: seq<ChatMessage>)
    decreases |messages|
  {
    if |messages| <= 1 then |messages| == 1 && messages[0].sender == Ai
    else |messages| >= 3 && messages[|messages| - 2].sender == User && messages[|messages| - 1].sender == Ai
         && Alternating(messages[..|messages| - 2])
  }

  /** In such a transcript the user wrote exactly the messages at odd positions. */
  lemma {:induction false} AlternatingSenders(messages: seq<ChatMessage>, i: int)
    requires Alternating(messages) && 0 <= i < |messages|
    ensures messages[i].sender == User <==> i % 2 == 1
    ensures |messages| % 2 == 1
    decreases |messages|
  {
    if |messages| > 1 {
      var init := messages[..|messages| - 2];
      if i < |init| {
        AlternatingSenders(init, i);
        assert messages[i] == init[i];
      } else {
        AlternatingSenders(init, 0);
      }
    }
  }

  /** A user message followed by an answer extends a transcript past the greeting. */
  lemma AlternatingExtend(history: seq<ChatMessage>, question: ChatMessage, answer: ChatMessage)
    requires Alternating(history)
    requires question.sender == User && answer.sender == Ai
    ensures Alternating(history + [question, answer])
    ensures |history + [question, answer]| >= 3
  {
    var m := history + [question, answer];
    assert m[..|m| - 2] == history;
  }

  /** The suggested questions show only while the transcript is short. */
  predicate ShowSuggestions(messages: seq<ChatMessage>) {
    |messages| < 3
  }

  /**
   * The transcript while an answer is pending: a settled transcript followed
   * by the user's message.
   */
  predicate Pending(messages: seq<ChatMessage>) {
    |messages| >= 2 && messages[|messages| - 1].sender == User && Alternating(messages[..|messages| - 1])
  }

  /** Posting a question to a settled transcript leaves it pending. */
  lemma PendingAfterQuestion(history: seq<ChatMessage>, question: ChatMessage)
    requires Alternating(history) && question.sender == User
    ensures Pending(history + [question])
  {
    assert (history + [question])[..|history|] == history;
  }

  /**
   * The suggestions are offered, settled or pending, exactly as long as no
   * answer beyond the greeting has arrived: every later message is the user's.
   */
  lemma SuggestionsBeforeFirstSend(messages: seq<ChatMessage>)
    requires Alternating(messages) || Pending(messages)
    ensures ShowSuggestions(messages) <==> forall i :: 1 <= i < |messages| ==> messages[i].sender == User
  {
    var settled := if Alternating(messages) then messages else messages[..|messages| - 1];
    assert Alternating(settled);
    AlternatingSenders(settled, 0);
    if |settled| >= 3 {
      AlternatingSenders(settled, 2);
      assert messages[2] == settled[2];
    } else if Pending(messages) && !Alternating(messages) {
      assert |messages| == 2 && messages[1].sender == User;
    }
  }

  /** The send button is disabled while the trimmed input is empty: the input is all whitespace. */
  function SendDisabled(input: string): (disabled: bool)
    ensures disabled <==> Blank(input)
  {
    Trim(input) == ""
  }

  /** The answer's text: the model's reply, or the apology when the call failed. */
  function AnswerText(reply: GeminiService.Reply): string {
    match reply
    case Answer(text) => text
    case Failed(_) => ApologyText
  }

  class Chat {
    var messages: seq<ChatMessage>
    var input: string
    var isTyping: bool

    ghost predicate Valid()
      reads this
    {
      Alternating(messages)
    }

    /** The transcript's initial value: only the greeting, with id `1`. */
    constructor (profile: Option<UserProfile>, now: string)
      ensures messages == [ChatMessage("1", Ai, Greeting(profile), now)]
      ensures input == "" && !isTyping
      ensures Valid()
    {
      messages := [ChatMessage("1", Ai, Greeting(profile), now)];
      input := "";
      isTyping := false;
    }

    /** The input field's `onChange`. */
    method SetInput(text: string)
      modifies this
      ensures input == text && messages == old(messages) && isTyping == old(isTyping)
    {
      input := text;
    }

    /**
     * `handleSend`: with a non-blank message and a profile, append the user's
     * message, clear the input, ask the model with the transcript as it was
     * before, and append the answer (or the apology).  `sent` and `replied`
     * are the clock readings before and after the call.
     */
    method HandleSend(messageText: string, profile: Option<UserProfile>,
                      ask: GeminiService.Request -> GeminiService.Reply, fmt: real -> string,
                      sent: Instant, replied: Instant)
      requires Valid()
      modifies this
      ensures Valid()
      ensures Blank(messageText) || profile.None? ==>
        messages == old(messages) && input == old(input) && isTyping == old(isTyping)
      ensures !Blank(messageText) && profile.Some? ==>
        var reply := ask(GeminiService.ChatRequest(GeminiService.UserContext(profile.value, fmt),
                                                   GeminiService.History(old(messages)), messageText));
        messages == old(messages) + [ChatMessage(IntToString(sent.millis), User, messageText, sent.iso),
                                     ChatMessage(IntToString(replied.millis + 1), Ai, AnswerText(reply), replied.iso)]
        && input == "" && !isTyping && !ShowSuggestions(messages)
    {
      if Trim(messageText) == "" || profile.None? {
        return;
      }
      Exchange(messageText, profile.value, ask, fmt, sent, replied);
    }

    /** The rest of `handleSend` once the message and the profile are there. */
    method Exchange(messageText: string, profile: UserProfile,
                    ask: GeminiService.Request -> GeminiService.Reply, fmt: real -> string,
                    sent: Instant, replied: Instant)
      requires Valid()
      modifies this
      ensures Valid()
      ensures
        var reply := ask(GeminiService.ChatRequest(GeminiService.UserContext(profile, fmt),
                                                   GeminiService.History(old(messages)), messageText));
        messages == old(messages) + [ChatMessage(IntToString(sent.millis), User, messageText, sent.iso),
                                     ChatMessage(IntToString(replied.millis + 1), Ai, AnswerText(reply), replied.iso)]
        && input == "" && !isTyping && !ShowSuggestions(messages)
    {
      var history := messages;
      ghost var reply := ask(GeminiService.ChatRequest(GeminiService.UserContext(profile, fmt),
                                                       GeminiService.History(history), messageText));
      var question := ChatMessage(IntToString(sent.millis), User, messageText, sent.iso);
      PostQuestion(question);
      var response := GeminiService.ChatResponse(messageText, profile, history, ask, fmt);
      var text;
      match response {
        case Success(t) => text := t;
        case Failure(_) => text := ApologyText;
      }
      assert text == AnswerText(reply);
      var answer := ChatMessage(IntToString(replied.millis + 1), Ai, text, replied.iso);
      PostAnswer(answer);
      assert messages == history + [question, answer];
      AlternatingExtend(history, question, answer);
    }

    /** Before the call: show the user's message, clear the input and start the typing indicator. */
    method PostQuestion(question: ChatMessage)
      modifies this
      ensures messages == old(messages) + [question] && input == "" && isTyping
      ensures Alternating(old(messages)) && question.sender == User ==> Pending(messages)
    {
      if Alternating(messages) && question.sender == User {
        PendingAfterQuestion(messages, question);
      }
      messages := messages + [question];
      input := "";
      isTyping := true;
    }

    /** After the call: show the answer and stop the typing indicator. */
    method PostAnswer(answer: ChatMessage)
      modifies this
      ensures messages == old(messages) + [answer] && input == old(input) && !isTyping
    {
      messages := messages + [answer];
      isTyping := false;
    }
  }
}
