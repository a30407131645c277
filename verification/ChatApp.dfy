/**
 * The state of the chat page and the handlers that update it. Each handler
 * applies its state updates in the order the component issues them; reads
 * of state inside a handler see the values from before the handler ran.
 * The two network requests are split at their `await`: the part before it
 * is one method, the part after it another that takes how the request
 * ended as a parameter.
 */
module ChatApp {
  import opened Wrappers
  import opened Decimal
  import opened ChatHistory
  import opened PredictionForm
  import TextBlocks
  import Recommendations

  const Greeting: string := "Merhaba! İhracat yapmak istediğiniz ürün veya sektör adını (ör: \"Zeytinyağı\", \"Mobilya\", \"Tekstil\") girerek size en uygun ülkeleri önerebilirim."

  /** The message every chat opens with. */
  const InitialBotMessage: Message := Message("bot-initial", Bot, Text(Greeting))

  const NewChatTitle: string := "Yeni Sohbet"
  const TitleSuffix: string := " Analizi"

  const ChatFailurePrefix: string := "Üzgünüm, bir hata oluştu: "
  const ChatFailureSuffix: string := ". Lütfen backend sunucunun çalıştığından emin ol."
  const PredictFailurePrefix: string := "Üzgünüm, fiyat tahmini yapılamadı. Hata: "

  /** How a request ended: with a value, with a non-2xx status, or with an exception. */
  datatype Outcome<T> =
    | Done(value: T)
    | HttpError(status: nat, statusText: string)
    | Thrown(message: string)

  /** The `predicted_price` and `recommendation_data` fields of a prediction reply. */
  datatype PredictResponse = PredictResponse(predictedPrice: real, recommendationData: Recommendations.Recommendation)

  const ApiErrorPrefix: string := "API hatası: "

  /**
   * `error.message` of a failed request: the message of what was thrown,
   * or, for a non-2xx status, the prefix, the status code, one space and
   * the status text.
   */
  function FailureMessage<T>(outcome: Outcome<T>): (r: string)
    requires !outcome.Done?
    ensures outcome.Thrown? ==> r == outcome.message
    ensures outcome.HttpError? ==>
      && |r| > |ApiErrorPrefix| + |outcome.statusText|
      && r[..|ApiErrorPrefix|] == ApiErrorPrefix
      && r[|r| - |outcome.statusText| - 1..] == " " + outcome.statusText
      && r[|ApiErrorPrefix|..|r| - |outcome.statusText| - 1] == NatToString(outcome.status)
  {
    match outcome
    case HttpError(status, statusText) =>
      var r := ApiErrorPrefix + NatToString(status) + " " + statusText;
      assert r[|r| - |statusText| - 1..] == " " + statusText;
      assert r[|ApiErrorPrefix|..|r| - |statusText| - 1] == NatToString(status);
      r
    case Thrown(message) => message
  }

  const UserPrefix: string := "user-"
  const ReplyPrefix: string := "bot-"
  const ErrorPrefix: string := "bot-error-"
  const PredictionPrefix: string := "bot-prediction-"
  const PredictionErrorPrefix: string := "bot-error-pred-"

  /** Whether `id` starts with `prefix` and continues with at least one character. */
  predicate HasPrefix(id: string, prefix: string) {
    |id| > |prefix| && id[..|prefix|] == prefix
  }

  /** The user's question, keyed by the clock reading. */
  function UserMessage(text: string, now: nat): (m: Message)
    ensures m.sender == User && m.body == Text(text)
    ensures m.id == UserPrefix + NatToString(now) && HasPrefix(m.id, UserPrefix)
  {
    Message(UserPrefix + NatToString(now), User, Text(text))
  }

  /**
   * The bot message that ends a chat request: the reply text, or an
   * apology that quotes the error message.
   */
  function ChatReply(outcome: Outcome<string>, now: nat): (m: Message)
    ensures m.sender == Bot && m.body.Text?
    ensures outcome.Done? ==>
      && m.body.text == outcome.value
      && m.id == ReplyPrefix + NatToString(now) && HasPrefix(m.id, ReplyPrefix)
    ensures !outcome.Done? ==>
      && m.id == ErrorPrefix + NatToString(now) && HasPrefix(m.id, ErrorPrefix)
      && |m.body.text| >= |ChatFailurePrefix| + |ChatFailureSuffix|
      && m.body.text[..|ChatFailurePrefix|] == ChatFailurePrefix
      && m.body.text[|ChatFailurePrefix|..|m.body.text| - |ChatFailureSuffix|] == FailureMessage(outcome)
      && m.body.text[|m.body.text| - |ChatFailureSuffix|..] == ChatFailureSuffix
  {
    match outcome
    case Done(response) => Message(ReplyPrefix + NatToString(now), Bot, Text(response))
    case _ =>
      var text := ChatFailurePrefix + FailureMessage(outcome) + ChatFailureSuffix;
      assert text[|ChatFailurePrefix|..|text| - |ChatFailureSuffix|] == FailureMessage(outcome);
      Message(ErrorPrefix + NatToString(now), Bot, Text(text))
  }

  /**
   * The bot message that ends a prediction request: the price with its
   * recommendation, or an apology that quotes the error message.
   */
  function PredictionReply(outcome: Outcome<PredictResponse>, now: nat): (m: Message)
    ensures m.sender == Bot
    ensures outcome.Done? ==>
      && m.body == Body.Prediction(outcome.value.predictedPrice, outcome.value.recommendationData)
      && m.id == PredictionPrefix + NatToString(now) && HasPrefix(m.id, PredictionPrefix)
    ensures !outcome.Done? ==>
      && m.id == PredictionErrorPrefix + NatToString(now) && HasPrefix(m.id, PredictionErrorPrefix)
      && m.body.Text?
      && |m.body.text| >= |PredictFailurePrefix|
      && m.body.text[..|PredictFailurePrefix|] == PredictFailurePrefix
      && m.body.text[|PredictFailurePrefix|..] == FailureMessage(outcome)
  {
    match outcome
    case Done(p) => Message(PredictionPrefix + NatToString(now), Bot, Body.Prediction(p.predictedPrice, p.recommendationData))
    case _ => Message(PredictionErrorPrefix + NatToString(now), Bot,
      Text(PredictFailurePrefix + FailureMessage(outcome)))
  }

  /** The same prefix followed by two different clock readings gives two different ids. */
  lemma ClockIdsDiffer(prefix: string, t1: nat, t2: nat)
    requires t1 != t2
    ensures prefix + NatToString(t1) != prefix + NatToString(t2)
  {
    var a, b := prefix + NatToString(t1), prefix + NatToString(t2);
    if a == b {
      assert a[|prefix|..] == NatToString(t1);
      assert b[|prefix|..] == NatToString(t2);
      NatToStringInjective(t1, t2);
    }
  }

  /** Two questions asked at different clock readings get different list keys, whatever their text. */
  lemma UserIdsDiffer(text1: string, t1: nat, text2: string, t2: nat)
    requires t1 != t2
    ensures UserMessage(text1, t1).id != UserMessage(text2, t2).id
  {
    ClockIdsDiffer(UserPrefix, t1, t2);
  }

  /** Two prefixes that differ at position `i` give different ids whatever follows. */
  lemma DifferAt(a: string, b: string, x: string, y: string, i: nat)
    requires i < |a| && i < |b| && a[i] != b[i]
    ensures a + x != b + y
  {
    assert (a + x)[i] == a[i] && (b + y)[i] == b[i];
  }

  /** A number printed right after `a` never matches a longer prefix that continues with a letter. */
  lemma NumberEndsPrefix(a: string, b: string, n: nat, y: string)
    requires |a| < |b| && !IsDigit(b[|a|])
    ensures a + NatToString(n) != b + y
  {
    var x := NatToString(n);
    assert (a + x)[|a|] == x[0] && (b + y)[|a|] == b[|a|];
  }

  /**
   * The three kinds of message id never collide, even when the clock reads
   * the same for all of them: the user's question, the chat reply and the
   * prediction reply keep distinct list keys.
   */
  lemma MessageKindsDistinct(text: string, t1: nat, chat: Outcome<string>, t2: nat,
                             prediction: Outcome<PredictResponse>, t3: nat)
    ensures UserMessage(text, t1).id != ChatReply(chat, t2).id
    ensures UserMessage(text, t1).id != PredictionReply(prediction, t3).id
    ensures ChatReply(chat, t2).id != PredictionReply(prediction, t3).id
  {
    var d1, d2, d3 := NatToString(t1), NatToString(t2), NatToString(t3);
    var c := if chat.Done? then ReplyPrefix else ErrorPrefix;
    var p := if prediction.Done? then PredictionPrefix else PredictionErrorPrefix;
    DifferAt(UserPrefix, c, d1, d2, 0);
    DifferAt(UserPrefix, p, d1, d3, 0);
    if c == ReplyPrefix {
      NumberEndsPrefix(c, p, t2, d3);
    } else if p == PredictionPrefix {
      DifferAt(c, p, d2, d3, 4);
    } else {
      NumberEndsPrefix(c, p, t2, d3);
    }
  }

  class App {
    var messages: seq<Message>
    var input: string
    var isLoading: bool
    var chatHistory: seq<Chat>
    var activeChatId: string
    var chatIdCounter: nat
    var currentChatTitle: string
    var predictionForm: Form
    var isLoadingPrediction: bool

    /**
     * The open chat always shows at least the greeting; saved chats have
     * unique ids, hold more than the greeting, and, like the open chat,
     * carry ids the counter has already handed out.
     */
    ghost predicate Valid()
      reads this
    {
      && |messages| >= 1
      && Kept(chatHistory, chatIdCounter)
      && Issued(activeChatId, chatIdCounter)
    }

    constructor()
      ensures Valid()
      ensures messages == [InitialBotMessage] && input == "" && !isLoading
      ensures chatHistory == [] && activeChatId == "chat-1" && chatIdCounter == 2
      ensures currentChatTitle == NewChatTitle
      ensures predictionForm == EmptyForm() && !isLoadingPrediction
    {
      messages := [InitialBotMessage];
      input := "";
      isLoading := false;
      chatHistory := [];
      activeChatId := "chat-1";
      chatIdCounter := 2;
      currentChatTitle := NewChatTitle;
      predictionForm := EmptyForm();
      isLoadingPrediction := false;
      assert ChatId(1) == "chat-1";
    }

    /**
     * The step handleNewChat and handleLoadChat both begin with: save the
     * open chat into the history when it holds more than the greeting.
     */
    method SaveOpenChat()
      requires Valid()
      modifies this
      ensures Valid()
      ensures chatHistory == Stash(old(chatHistory), old(activeChatId), old(currentChatTitle), old(messages))
      ensures messages == old(messages) && currentChatTitle == old(currentChatTitle)
      ensures activeChatId == old(activeChatId) && chatIdCounter == old(chatIdCounter)
      ensures input == old(input) && isLoading == old(isLoading)
      ensures predictionForm == old(predictionForm) && isLoadingPrediction == old(isLoadingPrediction)
    {
      StashKept(chatHistory, activeChatId, currentChatTitle, messages, chatIdCounter);
      chatHistory := Stash(chatHistory, activeChatId, currentChatTitle, messages);
    }

    /** handleNewChat: stash the open chat, then open a fresh one. */
    method NewChat()
      requires Valid()
      modifies this
      ensures Valid()
      ensures chatHistory == Stash(old(chatHistory), old(activeChatId), old(currentChatTitle), old(messages))
      ensures messages == [InitialBotMessage] && currentChatTitle == NewChatTitle
      ensures activeChatId == ChatId(old(chatIdCounter)) && chatIdCounter == old(chatIdCounter) + 1
      ensures activeChatId !in Ids(chatHistory)
      ensures input == old(input) && isLoading == old(isLoading)
      ensures predictionForm == old(predictionForm) && isLoadingPrediction == old(isLoadingPrediction)
    {
      StashKept(chatHistory, activeChatId, currentChatTitle, messages, chatIdCounter);
      SaveOpenChat();
      messages := [InitialBotMessage];
      activeChatId := ChatId(chatIdCounter);
      currentChatTitle := NewChatTitle;
      chatIdCounter := chatIdCounter + 1;
      assert 1 <= chatIdCounter - 1 < chatIdCounter && activeChatId == ChatId(chatIdCounter - 1);
    }

    /** The chat input's onChange: the input box holds what was typed. */
    method SetInput(text: string)
      requires Valid()
      modifies this
      ensures Valid()
      ensures input == text
      ensures messages == old(messages) && isLoading == old(isLoading)
      ensures chatHistory == old(chatHistory) && activeChatId == old(activeChatId)
      ensures chatIdCounter == old(chatIdCounter) && currentChatTitle == old(currentChatTitle)
      ensures predictionForm == old(predictionForm) && isLoadingPrediction == old(isLoadingPrediction)
    {
      input := text;
    }

    /** handleTitleEdit: the open chat's title follows the title input. */
    method EditTitle(title: string)
      requires Valid()
      modifies this
      ensures Valid()
      ensures currentChatTitle == title
      ensures messages == old(messages) && chatHistory == old(chatHistory)
      ensures activeChatId == old(activeChatId) && chatIdCounter == old(chatIdCounter)
      ensures input == old(input) && isLoading == old(isLoading)
      ensures predictionForm == old(predictionForm) && isLoadingPrediction == old(isLoadingPrediction)
    {
      currentChatTitle := title;
    }

    /**
     * handleLoadChat: stash the open chat, then, if `chatId` named a chat in
     * the history as it was before the stash, open that chat and move it to
     * the front.
     */
    method LoadChat(chatId: string)
      requires Valid()
      modifies this
      ensures Valid()
      ensures Find(old(chatHistory), chatId).None? ==>
        && chatHistory == Stash(old(chatHistory), old(activeChatId), old(currentChatTitle), old(messages))
        && messages == old(messages) && activeChatId == old(activeChatId)
        && currentChatTitle == old(currentChatTitle)
      ensures Find(old(chatHistory), chatId).Some? ==>
        var c := Find(old(chatHistory), chatId).value;
        && chatHistory == MoveToFront(Stash(old(chatHistory), old(activeChatId), old(currentChatTitle), old(messages)), c)
        && messages == c.messages && activeChatId == chatId && currentChatTitle == c.title
        && chatHistory[0].id == chatId
        && (forall i :: 0 < i < |chatHistory| ==> chatHistory[i].id != chatId)
      ensures chatIdCounter == old(chatIdCounter)
      ensures input == old(input) && isLoading == old(isLoading)
      ensures predictionForm == old(predictionForm) && isLoadingPrediction == old(isLoadingPrediction)
    {
      var before := chatHistory;
      SaveOpenChat();
      var chatToLoad := Find(before, chatId);
      if chatToLoad.Some? {
        OpenSaved(chatToLoad.value);
      }
    }

    /** The second half of handleLoadChat: show the chat `c` and move it to the front. */
    method OpenSaved(c: Chat)
      requires Valid() && |c.messages| > 1 && Issued(c.id, chatIdCounter)
      modifies this
      ensures Valid()
      ensures chatHistory == MoveToFront(old(chatHistory), c)
      ensures messages == c.messages && activeChatId == c.id && currentChatTitle == c.title
      ensures chatIdCounter == old(chatIdCounter)
      ensures input == old(input) && isLoading == old(isLoading)
      ensures predictionForm == old(predictionForm) && isLoadingPrediction == old(isLoadingPrediction)
    {
      MoveToFrontKept(chatHistory, c, chatIdCounter);
      messages := c.messages;
      activeChatId := c.id;
      currentChatTitle := c.title;
      chatHistory := MoveToFront(chatHistory, c);
    }

    /** handleLeftPanelTitleEdit: rename the saved chat, and the open one if it is that chat. */
    method RenameChat(chatId: string, newTitle: string)
      requires Valid()
      modifies this
      ensures Valid()
      ensures chatHistory == Rename(old(chatHistory), chatId, newTitle)
      ensures currentChatTitle == if old(activeChatId) == chatId then newTitle else old(currentChatTitle)
      ensures messages == old(messages) && activeChatId == old(activeChatId)
      ensures chatIdCounter == old(chatIdCounter)
      ensures input == old(input) && isLoading == old(isLoading)
      ensures predictionForm == old(predictionForm) && isLoadingPrediction == old(isLoadingPrediction)
    {
      RenameKept(chatHistory, chatId, newTitle, chatIdCounter);
      chatHistory := Rename(chatHistory, chatId, newTitle);
      if activeChatId == chatId {
        currentChatTitle := newTitle;
      }
    }

    /**
     * handleDeleteChat: drop the chat from the history; if it is the open
     * chat, continue as handleNewChat does, whose stash runs after the drop.
     */
    method DeleteChat(chatId: string)
      requires Valid()
      modifies this
      ensures Valid()
      ensures old(activeChatId) != chatId ==>
        && chatHistory == Remove(old(chatHistory), chatId)
        && messages == old(messages) && activeChatId == old(activeChatId)
        && currentChatTitle == old(currentChatTitle) && chatIdCounter == old(chatIdCounter)
      ensures old(activeChatId) == chatId ==>
        && chatHistory == Stash(Remove(old(chatHistory), chatId), chatId, old(currentChatTitle), old(messages))
        && messages == [InitialBotMessage] && currentChatTitle == NewChatTitle
        && activeChatId == ChatId(old(chatIdCounter)) && chatIdCounter == old(chatIdCounter) + 1
      ensures old(activeChatId) == chatId && |old(messages)| > 1 ==>
        chatHistory[0] == Chat(chatId, old(currentChatTitle), old(messages))
      ensures input == old(input) && isLoading == old(isLoading)
      ensures predictionForm == old(predictionForm) && isLoadingPrediction == old(isLoadingPrediction)
    {
      RemoveKept(chatHistory, chatId, chatIdCounter);
      chatHistory := Remove(chatHistory, chatId);
      if activeChatId == chatId {
        NewChat();
        if |old(messages)| > 1 {
          DeletedOpenChatReturns(old(chatHistory), chatId, old(currentChatTitle), old(messages));
        }
      }
    }

    /**
     * handleSendMessage up to its request: ignore input that trims to
     * nothing or a send while a reply is pending; otherwise append the
     * user's message, clear the input, mark the chat as waiting, and name a
     * chat that held only the greeting after its first question. Returns
     * the text posted to the chat endpoint, if any.
     */
    method Submit(now: nat) returns (request: Option<string>)
      requires Valid()
      modifies this
      ensures Valid()
      ensures request.Some? <==> !TextBlocks.AllSpace(old(input)) && !old(isLoading)
      ensures request.None? ==>
        && messages == old(messages) && input == old(input) && isLoading == old(isLoading)
        && currentChatTitle == old(currentChatTitle)
      ensures request.Some? ==>
        && request.value == old(input)
        && messages == old(messages) + [UserMessage(old(input), now)]
        && input == "" && isLoading
        && currentChatTitle == if |old(messages)| == 1 then old(input) + TitleSuffix else old(currentChatTitle)
      ensures chatHistory == old(chatHistory) && activeChatId == old(activeChatId)
      ensures chatIdCounter == old(chatIdCounter)
      ensures predictionForm == old(predictionForm) && isLoadingPrediction == old(isLoadingPrediction)
    {
      if TextBlocks.Trim(input) == "" || isLoading {
        return None;
      }
      var userMessage := UserMessage(input, now);
      var prior := messages;
      messages := prior + [userMessage];
      var currentInput := input;
      input := "";
      isLoading := true;
      if |prior| == 1 {
        currentChatTitle := userMessage.body.text + TitleSuffix;
      }
      request := Some(currentInput);
    }

    /** handleSendMessage after its request: append the reply or the error, stop waiting. */
    method Complete(outcome: Outcome<string>, now: nat)
      requires Valid()
      modifies this
      ensures Valid()
      ensures messages == old(messages) + [ChatReply(outcome, now)] && !isLoading
      ensures messages[|messages| - 1].sender == Bot
      ensures outcome.Done? ==> messages[|messages| - 1].body == Text(outcome.value)
      ensures input == old(input) && currentChatTitle == old(currentChatTitle)
      ensures chatHistory == old(chatHistory) && activeChatId == old(activeChatId)
      ensures chatIdCounter == old(chatIdCounter)
      ensures predictionForm == old(predictionForm) && isLoadingPrediction == old(isLoadingPrediction)
    {
      messages := messages + [ChatReply(outcome, now)];
      isLoading := false;
    }

    /**
     * handleSendMessage when nothing else happens while the request is out:
     * a rejected send changes nothing, an accepted one adds exactly the
     * user's message and then exactly one bot message.
     */
    method SendMessage(outcome: Outcome<string>, sentAt: nat, repliedAt: nat) returns (request: Option<string>)
      requires Valid()
      modifies this
      ensures Valid()
      ensures request.Some? <==> !TextBlocks.AllSpace(old(input)) && !old(isLoading)
      ensures request.None? ==>
        && messages == old(messages) && input == old(input) && isLoading == old(isLoading)
        && currentChatTitle == old(currentChatTitle)
      ensures request.Some? ==>
        && messages == old(messages) + [UserMessage(old(input), sentAt), ChatReply(outcome, repliedAt)]
        && input == "" && !isLoading
        && currentChatTitle == if |old(messages)| == 1 then old(input) + TitleSuffix else old(currentChatTitle)
      ensures chatHistory == old(chatHistory) && activeChatId == old(activeChatId)
      ensures chatIdCounter == old(chatIdCounter)
      ensures predictionForm == old(predictionForm) && isLoadingPrediction == old(isLoadingPrediction)
    {
      request := Submit(sentAt);
      if request.Some? {
        Complete(outcome, repliedAt);
      }
    }

    /** handlePredictionInputChange: one form field takes the input's value. */
    method ChangePredictionInput(field: Field, value: string)
      requires Valid()
      modifies this
      ensures Valid()
      ensures predictionForm == Set(old(predictionForm), field, value)
      ensures messages == old(messages) && input == old(input) && isLoading == old(isLoading)
      ensures chatHistory == old(chatHistory) && activeChatId == old(activeChatId)
      ensures chatIdCounter == old(chatIdCounter) && currentChatTitle == old(currentChatTitle)
      ensures isLoadingPrediction == old(isLoadingPrediction)
    {
      predictionForm := Set(predictionForm, field, value);
    }

    /** handlePredictSubmit up to its request: mark waiting and build the body to post. */
    method BeginPredict(parsedShipping: Option<real>, monthIndex: nat) returns (payload: Payload)
      requires Valid()
      requires monthIndex < 12
      modifies this
      ensures Valid()
      ensures payload == BuildPayload(old(predictionForm), parsedShipping, monthIndex)
      ensures isLoadingPrediction
      ensures messages == old(messages) && input == old(input) && isLoading == old(isLoading)
      ensures chatHistory == old(chatHistory) && activeChatId == old(activeChatId)
      ensures chatIdCounter == old(chatIdCounter) && currentChatTitle == old(currentChatTitle)
      ensures predictionForm == old(predictionForm)
    {
      isLoadingPrediction := true;
      payload := BuildPayload(predictionForm, parsedShipping, monthIndex);
    }

    /**
     * handlePredictSubmit after its request: append the prediction and clear
     * the form, or append the error and keep the form; stop waiting.
     */
    method CompletePredict(outcome: Outcome<PredictResponse>, now: nat)
      requires Valid()
      modifies this
      ensures Valid()
      ensures messages == old(messages) + [PredictionReply(outcome, now)] && !isLoadingPrediction
      ensures predictionForm == if outcome.Done? then EmptyForm() else old(predictionForm)
      ensures input == old(input) && isLoading == old(isLoading)
      ensures chatHistory == old(chatHistory) && activeChatId == old(activeChatId)
      ensures chatIdCounter == old(chatIdCounter) && currentChatTitle == old(currentChatTitle)
    {
      messages := messages + [PredictionReply(outcome, now)];
      if outcome.Done? {
        predictionForm := EmptyForm();
      }
      isLoadingPrediction := false;
    }

    /** handlePredictSubmit when nothing else happens while the request is out. */
    method Predict(parsedShipping: Option<real>, monthIndex: nat, outcome: Outcome<PredictResponse>, now: nat)
      returns (payload: Payload)
      requires Valid()
      requires monthIndex < 12
      modifies this
      ensures Valid()
      ensures payload == BuildPayload(old(predictionForm), parsedShipping, monthIndex)
      ensures messages == old(messages) + [PredictionReply(outcome, now)] && !isLoadingPrediction
      ensures predictionForm == if outcome.Done? then EmptyForm() else old(predictionForm)
      ensures input == old(input) && isLoading == old(isLoading)
      ensures chatHistory == old(chatHistory) && activeChatId == old(activeChatId)
      ensures chatIdCounter == old(chatIdCounter) && currentChatTitle == old(currentChatTitle)
    {
      payload := BeginPredict(parsedShipping, monthIndex);
      CompletePredict(outcome, now);
    }
  }
}
