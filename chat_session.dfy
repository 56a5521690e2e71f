/** The support widget's conversation logic: opening the widget (resuming the
    saved conversation or starting a fresh one), sending a message and taking
    the service's reply or error, appending a product recommendation, clearing
    the conversation, and the quick replies. The component's state is the
    value `Session`; `ChatSession` holds the same fields and updates them step
    by step as the component does, and each of its methods is tied to the
    function on `Session` that states its effect. The quick reply is there
    twice: `HandleQuickReply` as the component runs it, which sends the
    input from before the click, and `HandleQuickReplyIntended`, which sends
    the reply.

    The remote reply, the health probe's outcome and the local storage are
    given as values. The response's conversation id is `""` when the service
    sent none: JavaScript treats both alike. */
module Chatbot {
  import opened Wrappers
  import opened Text
  import opened ChatApi
  import opened ConversationStorage
  import opened ProductSummary

  /** The greeting of a fresh conversation, closed by the shopping-bags emoji
      and its variation selector. */
  const WelcomeText := "Hello! I'm your shopping assistant. " + "How can I help you today? \U{1F6CD}\U{FE0F}"
  const Welcome := Message(Bot, WelcomeText)

  /** The id the greeting of a fresh conversation is saved under. */
  const TempId := "temp"

  /** The component's state, with the store it reads and writes. */
  datatype Session = Session(
    open: bool,
    messages: seq<Message>,
    input: string,
    isTyping: bool,
    suggestions: seq<string>,
    conversationId: Option<string>,
    status: ApiStatus,
    store: Store)

  /** A `string | null` id that JavaScript treats as true. */
  predicate Held(id: Option<string>) {
    id.Some? && id.value != ""
  }

  /** The state when the component mounts. */
  function Mount(store: Store): Session {
    Session(false, [], "", false, [], None, Checking, store)
  }

  /** Neither the held id nor the saved current id is ever the empty string. */
  predicate Valid(s: Session) {
    (s.conversationId.Some? ==> s.conversationId.value != "") &&
    (s.store.currentId.Some? ==> s.store.currentId.value != "")
  }

  /** `checkHealth`: the indicator shows the probe's verdict. */
  function HealthChecked(s: Session, health: FetchOutcome<HealthPayload>): Session {
    s.(status := if CheckApiHealth(health) then Online else Offline)
  }

  /** The saved-conversation branch of the opening effect: the transcript under
      the saved current id when there is one, otherwise the greeting, which is
      saved under `temp` without any current id being set. */
  function Restored(s: Session): Session {
    var saved := s.store.CurrentId();
    var savedMessages := if Held(saved) then s.store.Read(saved.value) else [];
    if |savedMessages| > 0 then s.(messages := savedMessages, conversationId := saved)
    else s.(messages := [Welcome], store := s.store.Save(TempId, [Welcome]))
  }

  /** `initializeConversation`, run whenever `open` changes: nothing while the
      widget is closed. */
  function Initialized(s: Session, health: FetchOutcome<HealthPayload>): Session {
    if !s.open then s else HealthChecked(Restored(s), health)
  }

  /** The toggle button flips `open`, and the opening effect runs. */
  function Toggled(s: Session, health: FetchOutcome<HealthPayload>): Session {
    Initialized(s.(open := !s.open), health)
  }

  /** `handleProductRecommendations` for a non-empty list: the summary message
      is appended to the transcript shown, while the transcript saved is the
      one the turn started from (`closureMessages`) plus the summary, under the
      id held when the turn started (`closureId`). The product questions come
      first among the suggestions, then at most two of the previous ones. */
  function Recommended(s: Session, products: seq<Product>, closureMessages: seq<Message>, closureId: Option<string>): Session {
    if |products| == 0 then s
    else
      var summary := Message(Bot, SummaryText(products));
      s.(messages := s.messages + [summary],
         store := if Held(closureId) then s.store.Save(closureId.value, closureMessages + [summary]) else s.store,
         suggestions := ProductQuestions + s.suggestions[..Min(2, |s.suggestions|)])
  }

  /** The suggestions after a reply: the service's own, or the quick replies
      for the reply's intent when it sent none. */
  function ReplySuggestions(r: ChatResponse): seq<string> {
    if |r.suggestedQuestions| > 0 then r.suggestedQuestions else QuickReplies(Some(r.intent))
  }

  /** The reply branch of `handleSend`, from the state `t` after the user's
      message was appended. `pre` and `preId` are the transcript and the id
      the turn started from. */
  function Answered(t: Session, r: ChatResponse, pre: seq<Message>, preId: Option<string>): Session {
    var adopted :=
      if !Held(preId) && r.conversationId != "" then
        t.(conversationId := Some(r.conversationId), store := t.store.SetCurrentId(r.conversationId))
      else t;
    var finalMessages := t.messages + [Message(Bot, r.response)];
    var saved := adopted.(
      messages := finalMessages,
      store := if r.conversationId != "" then adopted.store.Save(r.conversationId, finalMessages) else adopted.store,
      suggestions := ReplySuggestions(r));
    if |r.relevantProducts| > 0 then Recommended(saved, r.relevantProducts, pre, preId) else saved
  }

  /** The error branch of `handleSend`: one bot message worded by
      `handleApiError`, saved with the turn only when an id was held. */
  function Failed(t: Session, e: ErrorValue, user: Message, pre: seq<Message>, preId: Option<string>): Session {
    var errorMessage := Message(Bot, HandleApiError(e));
    t.(messages := t.messages + [errorMessage],
       store := if Held(preId) then t.store.Save(preId.value, pre + [user, errorMessage]) else t.store)
  }

  /** `handleSend` sending `text`, with the service's answer `outcome`. */
  function Sent(s: Session, text: string, outcome: Result<ChatResponse, ErrorValue>): Session {
    if IsBlank(text) then s
    else
      var user := Message(User, text);
      var t := s.(messages := s.messages + [user], input := "", isTyping := true, suggestions := []);
      var done := match outcome
        case Success(r) => Answered(t, r, s.messages, s.conversationId)
        case Failure(e) => Failed(t, e, user, s.messages, s.conversationId);
      done.(isTyping := false)
  }

  /** The send button and the Enter key: `handleSend` sends the input. */
  function InputSent(s: Session, outcome: Result<ChatResponse, ErrorValue>): Session {
    Sent(s, s.input, outcome)
  }

  /** `handleQuickReply` as written: the input is set to the reply, but the
      timer's callback is the `handleSend` of the render in which the reply
      was clicked, so what it sends is the input from before the click. */
  function QuickReplyAsWritten(s: Session, reply: string, outcome: Result<ChatResponse, ErrorValue>): Session {
    Sent(s.(input := reply), s.input, outcome)
  }

  /** `handleQuickReply` as intended: the reply is put in the input and sent. */
  function QuickReplied(s: Session, reply: string, outcome: Result<ChatResponse, ErrorValue>): Session {
    Sent(s.(input := reply), reply, outcome)
  }

  /** `clearConversation`: the store forgets the held conversation, and the
      widget shows the greeting alone with no id and no suggestions. */
  function Cleared(s: Session): Session {
    s.(store := if Held(s.conversationId) then s.store.Clear(s.conversationId.value) else s.store,
       messages := [Welcome],
       conversationId := None,
       suggestions := [])
  }

  /** The quick replies the widget lists: the suggestions, or the four
      defaults when there are none. */
  function DisplayedQuickReplies(s: Session): seq<string> {
    if |s.suggestions| > 0 then s.suggestions else DefaultReplies
  }

  /** The quick-reply strip is shown only while the service is online. */
  predicate QuickRepliesShown(s: Session) {
    |s.messages| > 0 && s.status == Online
  }

  predicate InputDisabled(s: Session) {
    s.isTyping || s.status != Online
  }

  predicate SendDisabled(s: Session) {
    IsBlank(s.input) || s.isTyping || s.status != Online
  }

  /** The clear button is offered once the transcript holds more than the greeting. */
  predicate ClearShown(s: Session) {
    |s.messages| > 1
  }

  // ---------------------------------------------------------------------
  // Opening the widget

  /** With a saved current id whose transcript is non-empty, opening resumes that
      transcript and id and writes nothing. */
  lemma RestoredResumes(s: Session)
    requires Held(s.store.CurrentId()) && s.store.Read(s.store.CurrentId().value) != []
    ensures var r := Restored(s);
      r.conversationId == s.store.CurrentId() && r.messages == s.store.Read(r.conversationId.value) &&
      r.store == s.store
  {
  }

  /** Otherwise opening shows the greeting alone and saves it under `temp`; it
      sets no current id, touches no other transcript, and keeps the id held. */
  lemma RestoredFresh(s: Session, other: string)
    requires !(Held(s.store.CurrentId()) && s.store.Read(s.store.CurrentId().value) != [])
    requires other != TempId
    ensures var r := Restored(s);
      r.messages == [Welcome] && r.conversationId == s.conversationId &&
      r.store.CurrentId() == s.store.CurrentId() &&
      r.store.Read(other) == s.store.Read(other) &&
      (s.store.inBrowser ==> r.store.Read(TempId) == [Welcome])
  {
    SaveIsolation(s.store, TempId, [Welcome], other);
  }

  /** Opening a closed widget leaves it open with a non-empty transcript and
      the probe's verdict on the indicator; closing changes nothing else. */
  lemma ToggleEffect(s: Session, health: FetchOutcome<HealthPayload>)
    ensures var r := Toggled(s, health);
      r.open == !s.open &&
      (!s.open ==> |r.messages| > 0 && (r.status == Online <==> CheckApiHealth(health))) &&
      (s.open ==> r == s.(open := false))
  {
    if !s.open {
      var t := s.(open := true);
      if Held(t.store.CurrentId()) && t.store.Read(t.store.CurrentId().value) != [] {
        RestoredResumes(t);
      }
    }
  }

  // ---------------------------------------------------------------------
  // Sending

  /** A blank message sends nothing and changes nothing. */
  lemma BlankSendIsNoOp(s: Session, text: string, outcome: Result<ChatResponse, ErrorValue>)
    requires IsBlank(text)
    ensures Sent(s, text, outcome) == s
  {
  }

  /** Whatever the outcome, a sent message ends the turn with the user's
      message right after the previous transcript, only bot messages after
      it, the input emptied and the typing indicator off. */
  lemma SendShape(s: Session, text: string, outcome: Result<ChatResponse, ErrorValue>)
    requires !IsBlank(text)
    ensures var r := Sent(s, text, outcome);
      var n := |s.messages|;
      n + 2 <= |r.messages| <= n + 3 &&
      r.messages[..n + 1] == s.messages + [Message(User, text)] &&
      (forall k :: n < k < |r.messages| ==> r.messages[k].sender == Bot) &&
      r.input == "" && !r.isTyping && r.open == s.open && r.status == s.status
  {
    var n := |s.messages|;
    var r := Sent(s, text, outcome);
    assert r.messages[..n + 1] == s.messages + [Message(User, text)] by {
      assert r.messages[..n] == s.messages;
    }
  }

  /** After a turn the clear button is offered and the send button is off
      until something is typed; the input and the quick-reply strip are
      available exactly when the service is online. */
  lemma ControlsAfterSend(s: Session, text: string, outcome: Result<ChatResponse, ErrorValue>)
    requires !IsBlank(text)
    ensures var t := Sent(s, text, outcome);
      ClearShown(t) && SendDisabled(t) &&
      (s.status == Online ==> !InputDisabled(t) && QuickRepliesShown(t)) &&
      (s.status != Online ==> InputDisabled(t) && !QuickRepliesShown(t))
  {
    SendShape(s, text, outcome);
  }

  /** The reply's text follows the user's message, and the product summary
      follows the reply exactly when products were recommended. */
  lemma SendReplyMessages(s: Session, text: string, r: ChatResponse)
    requires !IsBlank(text)
    ensures Sent(s, text, Success(r)).messages ==
      s.messages + [Message(User, text), Message(Bot, r.response)] +
      (if |r.relevantProducts| > 0 then [Message(Bot, SummaryText(r.relevantProducts))] else [])
  {
  }

  /** The service's id is adopted, and saved as the current id, exactly when
      no id was held and the service sent one; otherwise the held id and the
      saved current id stay as they were. */
  lemma SendAdoptsId(s: Session, text: string, r: ChatResponse)
    requires !IsBlank(text) && s.store.inBrowser
    ensures var a := Sent(s, text, Success(r));
      var adopt := !Held(s.conversationId) && r.conversationId != "";
      (a.conversationId != s.conversationId || a.store.CurrentId() != s.store.CurrentId() ==> adopt) &&
      (adopt ==> a.conversationId == Some(r.conversationId) && a.store.CurrentId() == Some(r.conversationId))
  {
  }

  /** The suggestions after a reply: the service's, or the quick replies for
      its intent; with products, the four product questions followed by the
      first two of those. */
  lemma SendSuggestions(s: Session, text: string, r: ChatResponse)
    requires !IsBlank(text)
    ensures var a := Sent(s, text, Success(r));
      var replies := if |r.suggestedQuestions| > 0 then r.suggestedQuestions else QuickReplies(Some(r.intent));
      |replies| > 0 &&
      a.suggestions == (if |r.relevantProducts| > 0 then ProductQuestions + replies[..Min(2, |replies|)] else replies)
  {
  }

  /** What the store holds after a reply. Without products, the whole turn is
      saved under the service's id. */
  lemma SendReplySaved(s: Session, text: string, r: ChatResponse, other: string)
    requires !IsBlank(text) && s.store.inBrowser && r.conversationId != ""
    requires |r.relevantProducts| == 0
    requires other != r.conversationId
    ensures var a := Sent(s, text, Success(r));
      a.store.Read(r.conversationId) == s.messages + [Message(User, text), Message(Bot, r.response)] &&
      a.store.Read(other) == s.store.Read(other)
  {
    var t := s.(messages := s.messages + [Message(User, text)], input := "", isTyping := true, suggestions := []);
    var st := if !Held(s.conversationId) then t.store.SetCurrentId(r.conversationId) else t.store;
    SaveIsolation(st, r.conversationId, s.messages + [Message(User, text), Message(Bot, r.response)], other);
  }

  /** A reply without an id, on a turn that held none, saves nothing,
      whether or not products were recommended. */
  lemma SendReplyUnsavedWithoutId(s: Session, text: string, r: ChatResponse)
    requires !IsBlank(text) && !Held(s.conversationId) && r.conversationId == ""
    ensures Sent(s, text, Success(r)).store == s.store
  {
  }

  /** A product turn whose reply names another id than the one held: the
      whole turn is saved under the reply's id, and then the starting
      transcript plus the summary under the held id. */
  lemma SendProductsSavedTwice(s: Session, text: string, r: ChatResponse)
    requires !IsBlank(text) && s.store.inBrowser && Held(s.conversationId)
    requires r.conversationId != "" && r.conversationId != s.conversationId.value
    requires |r.relevantProducts| > 0
    ensures var a := Sent(s, text, Success(r));
      a.store.Read(r.conversationId) == s.messages + [Message(User, text), Message(Bot, r.response)] &&
      a.store.Read(s.conversationId.value) == s.messages + [Message(Bot, SummaryText(r.relevantProducts))]
  {
    var turn := s.messages + [Message(User, text), Message(Bot, r.response)];
    var saved := s.store.Save(r.conversationId, turn);
    SaveIsolation(saved, s.conversationId.value, s.messages + [Message(Bot, SummaryText(r.relevantProducts))], r.conversationId);
  }

  /** A failed turn shows the user's message and one error message worded by
      `handleApiError`, keeps the id and the suggestions empty, and saves the
      turn under the held id (and nothing when there is none). */
  lemma SendFailureEffect(s: Session, text: string, e: ErrorValue, other: string)
    requires !IsBlank(text) && s.store.inBrowser
    ensures var a := Sent(s, text, Failure(e));
      var turn := s.messages + [Message(User, text), Message(Bot, HandleApiError(e))];
      a.messages == turn && a.conversationId == s.conversationId && a.suggestions == [] &&
      a.store.CurrentId() == s.store.CurrentId() &&
      (Held(s.conversationId) ==> a.store.Read(s.conversationId.value) == turn) &&
      (!Held(s.conversationId) ==> a.store == s.store) &&
      (Held(s.conversationId) && other != s.conversationId.value ==> a.store.Read(other) == s.store.Read(other))
  {
    if Held(s.conversationId) && other != s.conversationId.value {
      var turn := s.messages + [Message(User, text), Message(Bot, HandleApiError(e))];
      SaveIsolation(s.store, s.conversationId.value, turn, other);
    }
  }

  /** When products are recommended in a conversation already under the
      service's id, the saved transcript is the one from before the turn plus
      the summary: the user's message and the reply are shown but lost from
      the store, so the saved transcript is shorter than the one shown. */
  lemma ProductSaveDropsTurn(s: Session, text: string, r: ChatResponse)
    requires !IsBlank(text) && s.store.inBrowser
    requires Held(s.conversationId) && r.conversationId == s.conversationId.value
    requires |r.relevantProducts| > 0
    ensures var a := Sent(s, text, Success(r));
      var summary := Message(Bot, SummaryText(r.relevantProducts));
      a.store.Read(r.conversationId) == s.messages + [summary] &&
      a.messages == s.messages + [Message(User, text), Message(Bot, r.response), summary] &&
      |a.store.Read(r.conversationId)| + 2 == |a.messages|
  {
  }

  /** On the turn that first receives the service's id, the recommended
      products are shown but the saved transcript ends with the reply. */
  lemma FirstTurnSummaryNotSaved(s: Session, text: string, r: ChatResponse)
    requires !IsBlank(text) && s.store.inBrowser
    requires !Held(s.conversationId) && r.conversationId != ""
    requires |r.relevantProducts| > 0
    ensures var a := Sent(s, text, Success(r));
      a.store.Read(r.conversationId) == a.messages[..|a.messages| - 1] &&
      a.messages[|a.messages| - 1] == Message(Bot, SummaryText(r.relevantProducts))
  {
    SendReplyMessages(s, text, r);
    var a := Sent(s, text, Success(r));
    var turn := s.messages + [Message(User, text), Message(Bot, r.response)];
    assert a.messages[..|a.messages| - 1] == turn;
  }

  /** A recommendation appends exactly one message, and offers at most six
      suggestions: the four product questions, then a prefix of the previous
      suggestions. An empty list changes nothing. */
  lemma RecommendedSuggestions(s: Session, products: seq<Product>, closureMessages: seq<Message>, closureId: Option<string>)
    ensures var a := Recommended(s, products, closureMessages, closureId);
      (|products| == 0 ==> a == s) &&
      (|products| > 0 ==>
        a.messages == s.messages + [Message(Bot, SummaryText(products))] &&
        |a.suggestions| <= 6 && a.suggestions[..4] == ProductQuestions &&
        a.suggestions[4..] <= s.suggestions)
  {
    if |products| > 0 {
      var a := Recommended(s, products, closureMessages, closureId);
      assert a.suggestions[4..] == s.suggestions[..Min(2, |s.suggestions|)];
    }
  }

  /** Where `handleProductRecommendations` saves: with an id held when the
      turn started, that id's transcript becomes the turn's starting
      transcript plus the summary, and nothing else in the store changes;
      without one, nothing is saved. */
  lemma RecommendedStore(s: Session, products: seq<Product>, closureMessages: seq<Message>, closureId: Option<string>, other: string)
    requires s.store.inBrowser && |products| > 0
    ensures var a := Recommended(s, products, closureMessages, closureId);
      (Held(closureId) ==>
        a.store.Read(closureId.value) == closureMessages + [Message(Bot, SummaryText(products))] &&
        a.store.CurrentId() == s.store.CurrentId() &&
        (other != closureId.value ==> a.store.Read(other) == s.store.Read(other))) &&
      (!Held(closureId) ==> a.store == s.store)
  {
    if Held(closureId) && other != closureId.value {
      SaveIsolation(s.store, closureId.value, closureMessages + [Message(Bot, SummaryText(products))], other);
    }
  }

  // ---------------------------------------------------------------------
  // Clearing and the quick replies

  /** Clearing leaves the greeting alone with no id and the four default
      quick replies; the held conversation's transcript is gone from the
      store, and the current id with it when it named that conversation. */
  lemma ClearedEffect(s: Session, other: string)
    requires s.store.inBrowser
    ensures var c := Cleared(s);
      c.messages == [Welcome] && c.conversationId == None && !ClearShown(c) &&
      DisplayedQuickReplies(c) == DefaultReplies &&
      (Held(s.conversationId) ==>
        c.store.Read(s.conversationId.value) == [] &&
        c.store.CurrentId() == (if s.store.CurrentId() == s.conversationId then None else s.store.CurrentId()) &&
        (other != s.conversationId.value ==> c.store.Read(other) == s.store.Read(other))) &&
      (!Held(s.conversationId) ==> c.store == s.store)
  {
    if Held(s.conversationId) {
      ClearEffect(s.store, s.conversationId.value, other);
    }
  }

  /** The quick replies listed are never empty. */
  lemma QuickRepliesNeverEmpty(s: Session)
    ensures |DisplayedQuickReplies(s)| > 0
  {
  }

  // ---------------------------------------------------------------------
  // The invariant

  /** Every operation keeps the held id and the saved current id non-empty, so
      that holding an id and having one agree. */
  lemma {:induction false} ValidPreserved(s: Session, text: string, reply: string,
      outcome: Result<ChatResponse, ErrorValue>, health: FetchOutcome<HealthPayload>)
    requires Valid(s)
    ensures Held(s.conversationId) <==> s.conversationId.Some?
    ensures Valid(Toggled(s, health)) && Valid(Cleared(s)) && Valid(s.(input := text))
    ensures Valid(Sent(s, text, outcome)) && Valid(InputSent(s, outcome))
    ensures Valid(QuickReplied(s, reply, outcome)) && Valid(QuickReplyAsWritten(s, reply, outcome))
  {
    SentValid(s, text, outcome);
    SentValid(s, s.input, outcome);
    SentValid(s.(input := reply), reply, outcome);
    SentValid(s.(input := reply), s.input, outcome);
    ToggledValid(s, health);
    ClearedValid(s);
  }

  lemma ToggledValid(s: Session, health: FetchOutcome<HealthPayload>)
    requires Valid(s)
    ensures Valid(Toggled(s, health))
  {
  }

  lemma ClearedValid(s: Session)
    requires Valid(s)
    ensures Valid(Cleared(s))
  {
  }

  lemma SentValid(s: Session, text: string, outcome: Result<ChatResponse, ErrorValue>)
    requires Valid(s)
    ensures Valid(Sent(s, text, outcome))
  {
  }

  // ---------------------------------------------------------------------
  // Scenarios

  /** A health probe that the service passes. */
  const Healthy: FetchOutcome<HealthPayload> :=
    Responded(HttpResponse(200, "{}", Some(HealthPayload("ok", "healthy"))))

  /** Opening the widget on an empty store, then sending "Hi!" and getting a
      greeting reply under id "c1" with no suggestions: the transcript is the
      greeting and the turn, it is saved under "c1" and the current id names it,
      and the greeting intent offers the four default replies. Closing and
      reopening the widget then resumes that conversation. */
  lemma GreetingThenResume()
    ensures var widget := Toggled(Mount(EmptyStore(true)), Healthy);
      var reply := ChatResponse("Hello there!", "c1", [], [], "greeting", 0.9);
      var turn := InputSent(widget.(input := "Hi!"), Success(reply));
      var history := [Welcome, Message(User, "Hi!"), Message(Bot, "Hello there!")];
      widget.messages == [Welcome] && widget.status == Online &&
      turn.messages == history && turn.conversationId == Some("c1") &&
      turn.store.Read("c1") == history && turn.store.CurrentId() == Some("c1") &&
      DisplayedQuickReplies(turn) == DefaultReplies &&
      Toggled(Toggled(turn, Healthy), Healthy).messages == history
  {
    assert !IsBlank("Hi!") by {
      assert Trim("Hi!") == "Hi!" by { TrimUnchanged("Hi!"); }
    }
    assert "greeting" !in ReplyIntents;
  }

  /** A request that times out shows the user's message and the timeout
      sentence, and there is nothing to save it under yet. */
  lemma TimeoutTurn(s: Session)
    requires s.conversationId == None && s.input == "Hi!"
    ensures InputSent(s, Failure(ApiError(TimeoutStatus, "Request timeout"))).messages ==
      s.messages + [Message(User, "Hi!"), Message(Bot, TimeoutText)]
    ensures InputSent(s, Failure(ApiError(TimeoutStatus, "Request timeout"))).store == s.store
  {
    assert !IsBlank("Hi!") by {
      assert Trim("Hi!") == "Hi!" by { TrimUnchanged("Hi!"); }
    }
  }

  // ---------------------------------------------------------------------
  // The quick reply

  /** As written, clicking a quick reply while the input is empty sends
      nothing: the reply only lands in the input box. */
  lemma QuickReplyAsWrittenSendsNothing(s: Session, reply: string, outcome: Result<ChatResponse, ErrorValue>)
    requires s.input == ""
    ensures QuickReplyAsWritten(s, reply, outcome) == s.(input := reply)
  {
    assert IsBlank("");
  }

  /** As written, clicking a quick reply while the input holds a draft sends
      the draft instead of the reply. */
  lemma QuickReplyAsWrittenSendsDraft(s: Session, reply: string, outcome: Result<ChatResponse, ErrorValue>)
    requires !IsBlank(s.input)
    ensures var a := QuickReplyAsWritten(s, reply, outcome);
      a.messages[|s.messages|] == Message(User, s.input) && a.input == ""
  {
    SendShape(s.(input := reply), s.input, outcome);
  }

  /** As intended, a non-blank quick reply is sent as the user's message. */
  lemma QuickRepliedSends(s: Session, reply: string, outcome: Result<ChatResponse, ErrorValue>)
    requires !IsBlank(reply)
    ensures var a := QuickReplied(s, reply, outcome);
      |a.messages| > |s.messages| && a.messages[|s.messages|] == Message(User, reply) && a.input == ""
  {
    SendShape(s.(input := reply), reply, outcome);
  }

  /** The smallest input that shows the difference: on the opened widget with
      an empty input, clicking "Best sellers" leaves the transcript as it was
      as written, and sends it as intended. */
  lemma QuickReplyDiffers(outcome: Result<ChatResponse, ErrorValue>)
    ensures var s := Toggled(Mount(EmptyStore(true)), Healthy);
      QuickReplyAsWritten(s, "Best sellers", outcome).messages == [Welcome] &&
      QuickReplied(s, "Best sellers", outcome).messages[..2] == [Welcome, Message(User, "Best sellers")]
  {
    var s := Toggled(Mount(EmptyStore(true)), Healthy);
    assert s.messages == [Welcome] && s.input == "";
    QuickReplyAsWrittenSendsNothing(s, "Best sellers", outcome);
    assert !IsBlank("Best sellers") by {
      assert Trim("Best sellers") == "Best sellers" by { TrimUnchanged("Best sellers"); }
    }
    SendShape(s.(input := "Best sellers"), "Best sellers", outcome);
  }

  // ---------------------------------------------------------------------
  // The component

  /** The widget's component: its state fields, updated step by step, and the
      browser storage it shares with the rest of the page. */
  class ChatSession {
    var open: bool
    var messages: seq<Message>
    var input: string
    var isTyping: bool
    var suggestions: seq<string>
    var conversationId: Option<string>
    var status: ApiStatus
    const store: LocalConversationStore

    function Snapshot(): Session
      reads this, store
    {
      Session(open, messages, input, isTyping, suggestions, conversationId, status, store.State())
    }

    constructor (store: LocalConversationStore)
      ensures this.store == store && Snapshot() == Mount(store.State())
    {
      open := false;
      messages := [];
      input := "";
      isTyping := false;
      suggestions := [];
      conversationId := None;
      status := Checking;
      this.store := store;
    }

    /** The input box's `onChange`. */
    method SetInput(text: string)
      modifies this
      ensures Snapshot() == old(Snapshot()).(input := text)
    {
      input := text;
    }

    method CheckHealth(health: FetchOutcome<HealthPayload>)
      modifies this
      ensures Snapshot() == HealthChecked(old(Snapshot()), health)
    {
      status := Checking;
      var healthy := CheckApiHealth(health);
      status := if healthy then Online else Offline;
    }

    method InitializeConversation(health: FetchOutcome<HealthPayload>)
      modifies this, store
      ensures Snapshot() == Initialized(old(Snapshot()), health)
    {
      if !open {
        return;
      }
      var savedId := store.GetCurrentConversationId();
      var savedMessages := [];
      if Held(savedId) {
        savedMessages := store.GetConversation(savedId.value);
      }
      if |savedMessages| > 0 {
        messages := savedMessages;
        conversationId := savedId;
      } else {
        messages := [Welcome];
        store.SaveConversation(TempId, [Welcome]);
      }
      CheckHealth(health);
    }

    /** The toggle button, and the opening effect it triggers. */
    method Toggle(health: FetchOutcome<HealthPayload>)
      modifies this, store
      ensures Snapshot() == Toggled(old(Snapshot()), health)
    {
      open := !open;
      InitializeConversation(health);
    }

    /** The body of `handleSend`, where `text` is the input of the render the
        handler belongs to. `closureMessages` and `closureId` are that render's
        transcript and id, which the awaited steps keep seeing. */
    method Submit(text: string, outcome: Result<ChatResponse, ErrorValue>)
      modifies this, store
      ensures Snapshot() == Sent(old(Snapshot()), text, outcome)
    {
      if IsBlank(text) {
        return;
      }
      var closureMessages := messages;
      var closureId := conversationId;
      var userMessage := Message(User, text);
      messages := messages + [userMessage];
      input := "";
      isTyping := true;
      suggestions := [];
      match outcome {
        case Success(r) =>
          Answer(r, closureMessages, closureId);
        case Failure(e) =>
          FailWith(e, userMessage, closureMessages, closureId);
      }
      isTyping := false;
    }

    /** The reply branch of `handleSend`: adopt the reply's id when none was
        held, show and save the reply, take its suggestions, and summarise
        the products it recommends. */
    method Answer(r: ChatResponse, closureMessages: seq<Message>, closureId: Option<string>)
      modifies this, store
      ensures Snapshot() == Answered(old(Snapshot()), r, closureMessages, closureId)
    {
      if !Held(closureId) && r.conversationId != "" {
        conversationId := Some(r.conversationId);
        store.SetCurrentConversationId(r.conversationId);
      }
      var finalMessages := messages + [Message(Bot, r.response)];
      messages := finalMessages;
      if r.conversationId != "" {
        store.SaveConversation(r.conversationId, finalMessages);
      }
      if |r.suggestedQuestions| > 0 {
        suggestions := r.suggestedQuestions;
      } else {
        suggestions := QuickReplies(Some(r.intent));
      }
      if |r.relevantProducts| > 0 {
        HandleProductRecommendations(r.relevantProducts, closureMessages, closureId);
      }
    }

    /** The error branch of `handleSend`: show the worded error, and save the
        turn when an id was held. */
    method FailWith(e: ErrorValue, userMessage: Message, closureMessages: seq<Message>, closureId: Option<string>)
      modifies this, store
      ensures Snapshot() == Failed(old(Snapshot()), e, userMessage, closureMessages, closureId)
    {
      var errorMessage := Message(Bot, HandleApiError(e));
      messages := messages + [errorMessage];
      if Held(closureId) {
        store.SaveConversation(closureId.value, closureMessages + [userMessage, errorMessage]);
      }
    }

    /** The send button and the Enter key. */
    method HandleSend(outcome: Result<ChatResponse, ErrorValue>)
      modifies this, store
      ensures Snapshot() == InputSent(old(Snapshot()), outcome)
    {
      Submit(input, outcome);
    }

    /** `handleProductRecommendations`, given the transcript and the id of the
        render that called it. */
    method HandleProductRecommendations(products: seq<Product>, closureMessages: seq<Message>, closureId: Option<string>)
      modifies this, store
      ensures Snapshot() == Recommended(old(Snapshot()), products, closureMessages, closureId)
    {
      if |products| == 0 {
        return;
      }
      var productMessage := Message(Bot, SummaryText(products));
      messages := messages + [productMessage];
      if Held(closureId) {
        store.SaveConversation(closureId.value, closureMessages + [productMessage]);
      }
      suggestions := ProductQuestions + suggestions[..Min(2, |suggestions|)];
    }

    /** `handleQuickReply` as the component runs it: the reply is put in the
        input, and the timer then runs the `handleSend` of the render the
        click belongs to, which sends that render's input, the one from
        before the click. */
    method HandleQuickReply(reply: string, outcome: Result<ChatResponse, ErrorValue>)
      modifies this, store
      ensures Snapshot() == QuickReplyAsWritten(old(Snapshot()), reply, outcome)
    {
      var draft := input;
      input := reply;
      Submit(draft, outcome);
    }

    /** The quick reply as intended: the reply is put in the input and sent. */
    method HandleQuickReplyIntended(reply: string, outcome: Result<ChatResponse, ErrorValue>)
      modifies this, store
      ensures Snapshot() == QuickReplied(old(Snapshot()), reply, outcome)
    {
      input := reply;
      Submit(reply, outcome);
    }

    method ClearConversation()
      modifies this, store
      ensures Snapshot() == Cleared(old(Snapshot()))
    {
      if Held(conversationId) {
        store.ClearConversation(conversationId.value);
      }
      messages := [Welcome];
      conversationId := None;
      suggestions := [];
    }
  }
}
