/**
 * The visitor-side chat widget of assets/js/chatbot-scripts.js: a
 * controller over the conversation (`content`), the lead-capture flag and
 * the in-flight flag, driven by form submissions, button clicks and the
 * answers to its three requests.
 *
 * The page is reduced to the state the controller reads and writes: the
 * input values, the submit button, the visible screen, the status line,
 * the startup buttons and a log of the alerts shown. Each asynchronous
 * function is cut at its `await`: the method that issues the request
 * records it and sets the pending flag, and an On... method takes the
 * answer as input and runs the rest.
 */
module Widget {
  import opened Wrappers
  import JsText
  import HtmlEscape
  import Strings
  import ChatbotApi
  import Php

  /** The two roles of a conversation turn, sent as 'user' and 'model'. */
  datatype Role = User | Model

  function RoleName(r: Role): (name: string)
    ensures name == "user" || name == "model"
    ensures name == "user" <==> r == User
  {
    match r
    case User => "user"
    case Model => "model"
  }

  /** A conversation turn: `{ role, parts: { text } }`. */
  datatype Turn = Turn(role: Role, text: string)

  /** The body posted to the chat route. */
  datatype ChatRequest = ChatRequest(lastPrompt: Option<string>, history: seq<Turn>, leadId: string)

  /** The body posted to the lead-saving action. */
  datatype LeadRequest = LeadRequest(name: string, email: string, phone: string, query: string,
                                     currentPageUrl: string, leadId: string)

  /** A lead request the form let through: none of its four typed fields is empty. */
  type AcceptedLead = r: LeadRequest | r.name != "" && r.email != "" && r.phone != "" && r.query != ""
    witness LeadRequest("-", "-", "-", "-", "", "")

  /**
   * The request built from the conversation: the text of its last turn as
   * `last_prompt`, the turns before it as `conversation_history`.
   */
  function RequestFor(content: seq<Turn>, leadId: string): (r: ChatRequest)
    ensures content == [] ==> r.lastPrompt.None? && r.history == []
    ensures content != [] ==> r.lastPrompt == Some(content[|content| - 1].text)
    ensures content != [] ==> r.history + [content[|content| - 1]] == content
    ensures r.leadId == leadId
  {
    if content == [] then ChatRequest(None, [], leadId)
    else ChatRequest(Some(content[|content| - 1].text), content[..|content| - 1], leadId)
  }

  // ---------------------------------------------------------------------
  // Answers and their fallback texts
  // ---------------------------------------------------------------------

  /** The fields of a JSON error body the widget reads (None: absent). */
  datatype ErrorRecord = ErrorRecord(result: Option<string>, message: Option<string>)

  /** How the chat request ended. */
  datatype ChatReply =
    | Thrown                                                         // fetch rejected, or the 2xx body was not JSON
    | NotOk(status: int, body: Option<ErrorRecord>)                  // non-2xx; None when its body was not JSON
    | Ok(success: bool, result: Option<string>, message: Option<string>)

  const NetworkErrorText := "Sorry, I couldn't connect to the server. Please check your internet connection."
  const ServerCommunicationText := "Sorry, there was a server communication error."
  const UnknownApiErrorText := "An unknown API error occurred."
  const NoResponseText := "Sorry, I couldn't generate a response."

  /** JavaScript's `a || b` for an optional string: `a` when it is a non-empty string. */
  function OrElse(a: Option<string>, b: string): (r: string)
    ensures a.Some? && a.value != "" ==> r == a.value
    ensures a.None? || a.value == "" ==> r == b
  {
    if a.Some? && a.value != "" then a.value else b
  }

  /** The text of the model turn appended for an answer. */
  function ReplyText(reply: ChatReply): (text: string)
    ensures text != ""
    ensures reply.Thrown? ==> text == NetworkErrorText
    ensures reply.NotOk? && reply.body.None? ==> text == ServerCommunicationText
    ensures reply.NotOk? && reply.body.Some? ==>
      text == OrElse(reply.body.value.result, OrElse(reply.body.value.message, UnknownApiErrorText))
    ensures reply.Ok? ==> text == OrElse(reply.result, OrElse(reply.message, NoResponseText))
  {
    match reply
    case Thrown => NetworkErrorText
    case NotOk(_, body) =>
      var data := if body.Some? then body.value else ErrorRecord(Some(ServerCommunicationText), None);
      OrElse(data.result, OrElse(data.message, UnknownApiErrorText))
    case Ok(success, result, message) =>
      if success && result.Some? && result.value != "" then result.value
      else OrElse(result, OrElse(message, NoResponseText))
  }

  /** A successful answer with text shows exactly that text, whatever `success` says of the others. */
  lemma ReplyTextOfSuccess(text: string, message: Option<string>)
    requires text != ""
    ensures ReplyText(Ok(true, Some(text), message)) == text
    ensures ReplyText(Ok(false, Some(text), message)) == text
  {
  }

  // ---------------------------------------------------------------------
  // Lead validation
  // ---------------------------------------------------------------------

  const FillAllText := "Please fill in all required fields (Name, Email, Phone, Message)."
  const InvalidEmailText := "Please enter a valid email address."
  const InvalidPhoneText := "Please enter a valid phone number."

  /** The alert the lead form shows for these trimmed values, or None when they are accepted. */
  function LeadProblem(name: string, email: string, phone: string, query: string): (alert: Option<string>)
    ensures alert.None? <==>
      name != "" && email != "" && phone != "" && query != "" && JsText.EmailMatches(email) && JsText.PhoneMatches(phone)
    ensures alert.Some? && (name == "" || email == "" || phone == "" || query == "") ==>
      alert.value == FillAllText
  {
    if name == "" || email == "" || phone == "" || query == "" then
      Some(FillAllText)
    else if !JsText.EmailMatches(email) then Some(InvalidEmailText)
    else if !JsText.PhoneMatches(phone) then Some(InvalidPhoneText)
    else None
  }

  /** An accepted lead satisfies the lead-saving action's own required-field and email checks' shape. */
  lemma AcceptedLeadShape(name: string, email: string, phone: string, query: string)
    requires LeadProblem(name, email, phone, query).None?
    ensures JsText.EmailLanguage(email) && JsText.PhoneLanguage(phone)
  {
    JsText.EmailMatchesIsLanguage(email);
    JsText.PhoneMatchesIsLanguage(phone);
  }

  /** The three localStorage entries the widget uses. */
  datatype StorageKey = LeadName | LeadEmail | LeadPhone

  function KeyName(k: StorageKey): string {
    match k
    case LeadName => "lead_name"
    case LeadEmail => "lead_email"
    case LeadPhone => "lead_phone"
  }

  /** localStorage.getItem, with null as "". */
  function Stored(storage: map<StorageKey, string>, key: StorageKey): string {
    if key in storage then storage[key] else ""
  }

  /** The lead counts as captured when all three stored values are truthy. */
  predicate StoredLead(storage: map<StorageKey, string>) {
    Stored(storage, LeadName) != "" && Stored(storage, LeadEmail) != "" && Stored(storage, LeadPhone) != ""
  }

  // ---------------------------------------------------------------------
  // Window toggling
  // ---------------------------------------------------------------------

  /** The launcher icon's and the chat window's visibility, and the window's z-index. */
  datatype Display = Display(launcherShown: bool, windowShown: bool, zIndex: Option<int>)

  /** lwhOpenCbotToggleChat's effect. */
  function Toggled(d: Display): (r: Display)
    ensures r.windowShown == !d.windowShown && r.launcherShown == d.windowShown
    ensures r.zIndex == Some(if r.windowShown then 9999 else 9998)
  {
    if d.windowShown then Display(true, false, Some(9998)) else Display(false, true, Some(9999))
  }

  /** A display the toggle itself produces: exactly one of launcher and window visible, z-index to match. */
  predicate Settled(d: Display) {
    d.launcherShown == !d.windowShown && d.zIndex == Some(if d.windowShown then 9999 else 9998)
  }

  /** Toggling twice restores the window's visibility, and the whole display exactly when it was settled. */
  lemma ToggleTwice(d: Display)
    ensures Toggled(Toggled(d)).windowShown == d.windowShown
    ensures Toggled(Toggled(d)) == d <==> Settled(d)
  {
  }

  // ---------------------------------------------------------------------
  // Configuration as the widget applies it
  // ---------------------------------------------------------------------

  /** The font size applied: parseInt of a truthy value, kept only when strictly between 8 and 30. */
  function FontSize(s: string): (r: Option<int>)
    ensures r.Some? ==> 8 < r.value < 30 && JsText.ParseInt(s) == r
    ensures r.None? ==> s == "" || JsText.ParseInt(s).None? || JsText.ParseInt(s).value <= 8 || JsText.ParseInt(s).value >= 30
  {
    if s == "" then None
    else match JsText.ParseInt(s)
      case None => None
      case Some(n) => if 8 < n < 30 then Some(n) else None
  }

  /** The server's fixed font size "16" is applied as 16px. */
  lemma DefaultFontSizeApplied()
    ensures FontSize("16") == Some(16)
  {
    assert Strings.Decimal(16) == "16" by {
      assert Strings.Decimal(1) == "1";
    }
    JsText.ParseIntDecimal(16);
  }

  /** A startup button as rendered: its prompt in `data-prompt` and its label, both escaped. */
  datatype RenderedButton = RenderedButton(promptAttr: string, caption: string)

  function Rendered(buttons: seq<ChatbotApi.Button>): (r: seq<RenderedButton>)
    ensures |r| == |buttons|
    ensures forall k :: 0 <= k < |r| ==>
      r[k].promptAttr == HtmlEscape.EscapeHtml(Some(buttons[k].buttonPrompt))
      && r[k].caption == HtmlEscape.EscapeHtml(Some(buttons[k].buttonText))
  {
    if buttons == [] then []
    else
      [RenderedButton(HtmlEscape.EscapeHtml(Some(buttons[0].buttonPrompt)), HtmlEscape.EscapeHtml(Some(buttons[0].buttonText)))]
      + Rendered(buttons[1..])
  }

  /** Reading `data-prompt` back (the browser decodes the entities) yields the configured prompt. */
  lemma RenderedPromptRoundTrip(buttons: seq<ChatbotApi.Button>, k: nat)
    requires k < |buttons|
    ensures HtmlEscape.Unescape(Rendered(buttons)[k].promptAttr) == buttons[k].buttonPrompt
  {
    HtmlEscape.UnescapeEscape(buttons[k].buttonPrompt);
  }

  /** generateLeadId: the clock's milliseconds followed by a random number below 10000, in decimal. */
  function GenerateLeadId(now: nat, random: nat): (id: string)
    ensures Strings.AllDigits(id)
  {
    Strings.Decimal(now) + Strings.Decimal(random)
  }

  /** Once the clock reaches 10^10 milliseconds, every generated id passes the chat route's `lead_id` check. */
  lemma GeneratedLeadIdAccepted(now: nat, random: nat)
    requires now >= Strings.Pow10(10)
    ensures ChatbotApi.LeadIdValid(Php.Str(GenerateLeadId(now, random)))
  {
    Strings.DecimalLength(now, 10);
  }

  // ---------------------------------------------------------------------
  // The controller
  // ---------------------------------------------------------------------

  /** Which part of the chat window is showing. */
  datatype Screen = Welcome | LeadForm | Conversation

  /** The status line. */
  datatype Status = Offline | Online | ConfigError

  datatype ConfigOutcome = ConfigFailed | ConfigLoaded(config: ChatbotApi.BotConfig)

  /** How the lead-saving request ended: it threw, or answered `{ success, data: { message } }`. */
  datatype LeadOutcome = LeadThrown | LeadAnswered(success: bool, message: Option<string>)

  /** The widget state a form submission changes or consults. */
  datatype FormState = FormState(isFetching: bool, submitDisabled: bool, submitLabel: Option<string>, alerts: seq<string>,
                                 pendingLeads: seq<AcceptedLead>, messageInput: string, content: seq<Turn>,
                                 chatRequests: seq<ChatRequest>, typingShown: bool)

  const SendingText := "Sending..."
  const BotOfflineText := "Bot Offline"
  const SaveRejectedText := "Could not save your information. Please try again."
  const ErrorPrefix := "Error: "
  const LeadSaveFailedText := "An error occurred while saving your details. Please check your connection and try again."
  const ConfigFailedText := "Oops! Could not load chatbot configuration."

  class ChatWidget {
    var content: seq<Turn>
    var botConfig: Option<ChatbotApi.BotConfig>
    var leadCaptured: bool
    var isFetching: bool
    const leadId: string
    const pageUrl: string
    var storage: map<StorageKey, string>

    var nameInput: string
    var emailInput: string
    var phoneInput: string
    var messageInput: string
    var messageDisabled: bool
    var submitDisabled: bool
    var submitLabel: Option<string>      // the button's text span; None while the send icon shows

    var display: Display
    var screen: Screen
    var status: Status
    var headerTitle: Option<string>      // None: the title the page was rendered with
    var fontSizePx: Option<int>
    var loadingShown: bool
    var typingShown: bool
    var startupButtons: seq<RenderedButton>
    var startupShown: bool
    var alerts: seq<string>

    var configPending: bool
    var chatRequests: seq<ChatRequest>
    var pendingLeads: seq<AcceptedLead>
    ghost var replies: nat

    /**
     * The controller's invariant: the capture flag mirrors storage, a chat
     * request is only ever in flight after capture and at most one at a
     * time (every request but the last has been answered), the typing
     * indicator only shows while one is. (That the leads in flight passed
     * validation is their type, AcceptedLead.)
     */
    ghost predicate Valid()
      reads this
    {
      && (leadCaptured <==> StoredLead(storage))
      && (isFetching ==> leadCaptured)
      && |chatRequests| == replies + (if isFetching then 1 else 0)
      && (typingShown ==> isFetching)
    }

    /** The page-load sequence: initializeUIState, the configuration request, autofillLeadData. */
    constructor (storage0: map<StorageKey, string>, leadId0: string, pageUrl0: string)
      ensures Valid()
      ensures storage == storage0 && leadId == leadId0 && pageUrl == pageUrl0
      ensures leadCaptured == StoredLead(storage0)
      ensures screen == (if leadCaptured then Conversation else Welcome)
      ensures content == [] && botConfig.None? && !isFetching && configPending && loadingShown
      ensures nameInput == Stored(storage0, LeadName) && emailInput == Stored(storage0, LeadEmail)
        && phoneInput == Stored(storage0, LeadPhone)
      ensures display == Display(true, false, None) && status == Offline
      ensures chatRequests == [] && pendingLeads == [] && alerts == []
      ensures !submitDisabled && !messageDisabled && !startupShown
    {
      content := [];
      botConfig := None;
      leadCaptured := false;
      isFetching := false;
      leadId := leadId0;
      pageUrl := pageUrl0;
      storage := storage0;
      nameInput, emailInput, phoneInput, messageInput := "", "", "", "";
      messageDisabled, submitDisabled, submitLabel := false, false, None;
      display := Display(true, false, None);
      screen := Welcome;
      status := Offline;
      headerTitle, fontSizePx := None, None;
      loadingShown, typingShown := false, false;
      startupButtons, startupShown := [], false;
      alerts := [];
      configPending := false;
      chatRequests, pendingLeads := [], [];
      replies := 0;
      new;
      Initialize();
    }

    /** The script's start-up calls: initializeUIState, the configuration request, autofillLeadData. */
    method Initialize()
      modifies this`leadCaptured, this`screen, this`loadingShown, this`content, this`configPending
      modifies this`nameInput, this`emailInput, this`phoneInput
      ensures leadCaptured == StoredLead(storage)
      ensures screen == (if leadCaptured then Conversation else Welcome)
      ensures loadingShown && content == [] && configPending
      ensures nameInput == (if Stored(storage, LeadName) != "" then storage[LeadName] else old(nameInput))
      ensures emailInput == (if Stored(storage, LeadEmail) != "" then storage[LeadEmail] else old(emailInput))
      ensures phoneInput == (if Stored(storage, LeadPhone) != "" then storage[LeadPhone] else old(phoneInput))
    {
      InitializeUIState();
      FetchBotConfiguration();
      AutofillLeadData();
    }

    /** initializeUIState. */
    method InitializeUIState()
      modifies this`leadCaptured, this`screen
      ensures leadCaptured == StoredLead(storage)
      ensures screen == (if leadCaptured then Conversation else Welcome)
    {
      if StoredLead(storage) {
        leadCaptured := true;
        screen := Conversation;
      } else {
        leadCaptured := false;
        screen := Welcome;
      }
    }

    /** autofillLeadData: each truthy stored value fills its input. */
    method AutofillLeadData()
      modifies this`nameInput, this`emailInput, this`phoneInput
      ensures nameInput == (if Stored(storage, LeadName) != "" then storage[LeadName] else old(nameInput))
      ensures emailInput == (if Stored(storage, LeadEmail) != "" then storage[LeadEmail] else old(emailInput))
      ensures phoneInput == (if Stored(storage, LeadPhone) != "" then storage[LeadPhone] else old(phoneInput))
    {
      if Stored(storage, LeadName) != "" {
        nameInput := storage[LeadName];
      }
      if Stored(storage, LeadEmail) != "" {
        emailInput := storage[LeadEmail];
      }
      if Stored(storage, LeadPhone) != "" {
        phoneInput := storage[LeadPhone];
      }
    }

    /** lwhOpenCbotToggleChat: nothing but the display changes. */
    method ToggleChat()
      modifies this`display
      ensures display == Toggled(old(display))
    {
      if display.windowShown {
        display := Display(true, false, Some(9998));
      } else {
        display := Display(false, true, Some(9999));
      }
    }

    /** displayLeadForm. */
    method DisplayLeadForm()
      modifies this`screen
      ensures screen == LeadForm
    {
      screen := LeadForm;
    }

    /** closeLeadForm. */
    method CloseLeadForm()
      modifies this`screen
      ensures screen == Welcome
    {
      screen := Welcome;
    }

  /** setSubmitButtonState: disabling shows `text`, or 'Sending...' when it is empty. */
    method SetSubmitButtonState(disabled: bool, text: string)
      modifies this`submitDisabled, this`submitLabel
      ensures submitDisabled == disabled
      ensures submitLabel == if disabled then Some(if text == "" then SendingText else text) else None
    {
      submitDisabled := disabled;
      if disabled {
        submitLabel := Some(if text == "" then SendingText else text);
      } else {
        submitLabel := None;
      }
    }

    /** The part of the state a form submission may change, and what it reads before deciding. */
    function Form(): FormState
      reads this
    {
      FormState(isFetching, submitDisabled, submitLabel, alerts, pendingLeads, messageInput, content, chatRequests, typingShown)
    }

    /** The conversation, the request log, the in-flight flag, the typing indicator and the message input are as in `b`. */
    predicate ConversationAsIn(b: FormState)
      reads this
    {
      && content == b.content && chatRequests == b.chatRequests && isFetching == b.isFetching
      && typingShown == b.typingShown && messageInput == b.messageInput
    }

    /**
     * What lwhOpenCbotonFormSubmit did from the state `b`: nothing while a
     * request is in flight or the button is disabled; before capture, the
     * lead submission; after capture, the trimmed message (the prompt if
     * there is one) sent with the input cleared, or nothing when it is empty.
     */
    predicate Submitted(userMessage: Option<string>, b: FormState)
      reads this
    {
      var message := MessageOf(userMessage, b.messageInput);
      if b.isFetching || b.submitDisabled then Form() == b
      else if !leadCaptured then
        ConversationAsIn(b) && LeadSubmitted(b.alerts, b.pendingLeads, b.submitDisabled, b.submitLabel)
      else
        && alerts == b.alerts && pendingLeads == b.pendingLeads
        && (message == "" ==> Form() == b)
        && (message != "" ==> messageInput == "" && Sent(message, b.content, b.chatRequests))
    }

    /**
     * What the lead-mode submission did with the trimmed input values,
     * given the alerts, lead requests and button before it: an alert for
     * the first problem found, or the lead request with the button showing
     * 'Sending...'.
     */
    predicate LeadSubmitted(alertsBefore: seq<string>, leadsBefore: seq<LeadRequest>, disabledBefore: bool, labelBefore: Option<string>)
      reads this
    {
      var name := JsText.Trim(nameInput);
      var email := JsText.Trim(emailInput);
      var phone := JsText.Trim(phoneInput);
      var query := JsText.Trim(messageInput);
      var problem := LeadProblem(name, email, phone, query);
      && (problem.Some? ==>
            alerts == alertsBefore + [problem.value] && pendingLeads == leadsBefore
            && submitDisabled == disabledBefore && submitLabel == labelBefore)
      && (problem.None? ==>
            alerts == alertsBefore && submitDisabled && submitLabel == Some(SendingText)
            && pendingLeads == leadsBefore + [LeadRequest(name, email, phone, query, pageUrl, leadId)])
    }

    /**
     * What submitMessageToAI did for a message it accepted, given the
     * conversation and the request log before it.
     */
    predicate Sent(message: string, before: seq<Turn>, requestsBefore: seq<ChatRequest>)
      reads this
    {
      && content == before + [Turn(User, message)]
      && isFetching && typingShown == botConfig.Some?
      && chatRequests == requestsBefore + [RequestFor(content, leadId)]
      && chatRequests[|chatRequests| - 1].lastPrompt == Some(message)
      && chatRequests[|chatRequests| - 1].history == before
      && submitDisabled && submitLabel == Some(SendingText)
    }

    /** The message a chat-mode submission sends: the button's prompt, else the input's value, trimmed. */
    static function MessageOf(userMessage: Option<string>, input: string): string {
      JsText.Trim(if userMessage.Some? then userMessage.value else input)
    }

    /**
     * lwhOpenCbotonFormSubmit; `userMessage` is the startup-button prompt,
     * when there is one. Nothing happens while a request is in flight or the
     * button is disabled. Before capture the lead form is validated and sent
     * (the prompt is ignored); after capture the trimmed message, if any, is
     * sent to the chat route.
     */
    method OnFormSubmit(userMessage: Option<string>)
      requires Valid()
      modifies this`alerts, this`submitDisabled, this`submitLabel, this`pendingLeads, this`messageInput,
               this`content, this`typingShown, this`isFetching, this`chatRequests, this`replies
      ensures Valid()
      ensures Submitted(userMessage, old(Form()))
    {
      if isFetching || submitDisabled {
        return;
      }
      if !leadCaptured {
        SubmitLead();
      } else {
        SubmitChat(userMessage);
      }
    }

    /** The lead-mode branch of lwhOpenCbotonFormSubmit. */
    method SubmitLead()
      requires Valid() && !leadCaptured
      modifies this`alerts, this`submitDisabled, this`submitLabel, this`pendingLeads
      ensures Valid()
      ensures LeadSubmitted(old(alerts), old(pendingLeads), old(submitDisabled), old(submitLabel))
    {
      var name := JsText.Trim(nameInput);
      var email := JsText.Trim(emailInput);
      var phone := JsText.Trim(phoneInput);
      var query := JsText.Trim(messageInput);
      var problem := LeadProblem(name, email, phone, query);
      if problem.Some? {
        alerts := alerts + [problem.value];
        return;
      }
      SetSubmitButtonState(true, SendingText);
      pendingLeads := pendingLeads + [LeadRequest(name, email, phone, query, pageUrl, leadId)];
    }

    /** The chat-mode branch of lwhOpenCbotonFormSubmit. */
    method SubmitChat(userMessage: Option<string>)
      requires Valid() && leadCaptured && !isFetching
      modifies this`submitDisabled, this`submitLabel, this`messageInput,
               this`content, this`typingShown, this`isFetching, this`chatRequests, this`replies
      ensures Valid()
      ensures MessageOf(userMessage, old(messageInput)) == "" ==> Form() == old(Form())
      ensures MessageOf(userMessage, old(messageInput)) != "" ==>
        messageInput == "" && Sent(MessageOf(userMessage, old(messageInput)), old(content), old(chatRequests))
    {
      var message := MessageOf(userMessage, messageInput);
      if message != "" {
        messageInput := "";
        SubmitMessageToAI(message);
      }
    }

    /** submitMessageToAI: one user turn, the typing indicator, then the chat request. */
    method SubmitMessageToAI(message: string)
      requires Valid() && leadCaptured
      modifies this`content, this`typingShown, this`isFetching, this`submitDisabled, this`submitLabel,
               this`chatRequests, this`replies
      ensures Valid()
      ensures old(isFetching) || message == "" ==>
        content == old(content) && chatRequests == old(chatRequests) && isFetching == old(isFetching)
        && typingShown == old(typingShown) && submitDisabled == old(submitDisabled) && submitLabel == old(submitLabel)
      ensures !old(isFetching) && message != "" ==> Sent(message, old(content), old(chatRequests))
    {
      if isFetching || message == "" {
        return;
      }
      content := content + [Turn(User, message)];
      FetchData();
      typingShown := botConfig.Some?;
    }

    /** lwhOpenCbotfetchData up to its `await`: the button disabled, the flag set, the request sent. */
    method FetchData()
      requires Valid() && !isFetching && leadCaptured
      modifies this`isFetching, this`submitDisabled, this`submitLabel, this`chatRequests, this`replies
      ensures Valid()
      ensures isFetching && chatRequests == old(chatRequests) + [RequestFor(content, leadId)]
      ensures submitDisabled && submitLabel == Some(SendingText)
    {
      SetSubmitButtonState(true, "");
      isFetching := true;
      chatRequests := chatRequests + [RequestFor(content, leadId)];
    }

    /**
     * The rest of lwhOpenCbotfetchData: every answer appends exactly one
     * model turn, then clears the flag and the typing indicator and
     * re-enables the button.
     */
    method OnChatReply(reply: ChatReply)
      requires Valid() && isFetching
      modifies this`content, this`typingShown, this`isFetching, this`submitDisabled, this`submitLabel, this`replies
      ensures Valid()
      ensures content == old(content) + [Turn(Model, ReplyText(reply))]
      ensures !isFetching && !typingShown && !submitDisabled && submitLabel.None?
      ensures |chatRequests| == replies
    {
      typingShown := false;
      content := content + [Turn(Model, ReplyText(reply))];
      isFetching := false;
      replies := replies + 1;
      SetSubmitButtonState(false, "");
    }

    /** switchToChatMode: the conversation screen, with rendered startup buttons shown again. */
    method SwitchToChatMode()
      modifies this`screen, this`startupShown
      ensures screen == Conversation
      ensures startupShown == (old(startupShown) || startupButtons != [])
    {
      screen := Conversation;
      if startupButtons != [] && !startupShown {
        startupShown := true;
      }
    }

    /**
     * The continuation of the lead submission whose request is pendingLeads[k].
     * Success captures the lead, stores it, switches to the conversation and
     * sends the query as the first message; a failure alerts and re-enables
     * the button, leaving the lead uncaptured.
     */
    method OnLeadSaved(k: nat, outcome: LeadOutcome)
      requires Valid() && k < |pendingLeads|
      modifies this`pendingLeads, this`leadCaptured, this`storage, this`screen, this`startupShown, this`messageInput,
               this`content, this`typingShown, this`isFetching, this`submitDisabled, this`submitLabel,
               this`chatRequests, this`replies, this`alerts
      ensures Valid()
      ensures pendingLeads == old(pendingLeads[..k] + pendingLeads[k + 1..])
      ensures outcome.LeadAnswered? && outcome.success ==>
        alerts == old(alerts)
        && Captured(old(pendingLeads[k]), old(storage), old(startupShown), old(isFetching), old(content), old(chatRequests))
      ensures !(outcome.LeadAnswered? && outcome.success) ==>
        && leadCaptured == old(leadCaptured) && storage == old(storage) && content == old(content)
        && chatRequests == old(chatRequests) && !submitDisabled && submitLabel.None?
        && alerts == old(alerts) + [if outcome.LeadThrown? then LeadSaveFailedText
                                     else ErrorPrefix + OrElse(outcome.message, SaveRejectedText)]
    {
      var lead := pendingLeads[k];
      pendingLeads := pendingLeads[..k] + pendingLeads[k + 1..];
      match outcome {
        case LeadThrown =>
          LeadNotSaved(LeadSaveFailedText);
        case LeadAnswered(success, message) =>
          if success {
            LeadSaved(lead);
          } else {
            LeadNotSaved(ErrorPrefix + OrElse(message, SaveRejectedText));
          }
      }
    }

    /** A failed save: the alert, and the button enabled again. */
    method LeadNotSaved(alert: string)
      modifies this`alerts, this`submitDisabled, this`submitLabel
      ensures alerts == old(alerts) + [alert] && !submitDisabled && submitLabel.None?
    {
      alerts := alerts + [alert];
      SetSubmitButtonState(false, "");
    }

    /**
     * What a successful save did, given the storage, the startup buttons'
     * visibility, the in-flight flag, the conversation and the request log
     * before it: the lead captured and its three values stored, the
     * conversation screen with the rendered startup buttons shown again,
     * the input cleared, and the lead's query sent as the first message
     * (dropped when a request is already in flight).
     */
    predicate Captured(lead: AcceptedLead, storageBefore: map<StorageKey, string>, shownBefore: bool,
                       fetchingBefore: bool, contentBefore: seq<Turn>, requestsBefore: seq<ChatRequest>)
      reads this
    {
      && leadCaptured
      && storage == storageBefore[LeadName := lead.name][LeadEmail := lead.email][LeadPhone := lead.phone]
      && screen == Conversation && startupShown == (shownBefore || startupButtons != [])
      && messageInput == ""
      && (!fetchingBefore ==> Sent(lead.query, contentBefore, requestsBefore))
      && (fetchingBefore ==> content == contentBefore && chatRequests == requestsBefore)
    }

    /** The success branch of the lead-saving continuation. */
    method LeadSaved(lead: AcceptedLead)
      requires Valid()
      modifies this`leadCaptured, this`storage, this`screen, this`startupShown, this`messageInput,
               this`content, this`typingShown, this`isFetching, this`submitDisabled, this`submitLabel,
               this`chatRequests, this`replies
      ensures Valid()
      ensures Captured(lead, old(storage), old(startupShown), old(isFetching), old(content), old(chatRequests))
    {
      // The input is cleared together with the capture rather than after
      // switchToChatMode, which neither reads nor writes it.
      leadCaptured, storage, messageInput :=
        true, storage[LeadName := lead.name][LeadEmail := lead.email][LeadPhone := lead.phone], "";
      SwitchToChatMode();
      SubmitMessageToAI(lead.query);
    }

    /** lwhOpenCbotfetchBotConfiguration up to its `await`: loading shown, conversation emptied. */
    method FetchBotConfiguration()
      modifies this`loadingShown, this`content, this`configPending
      ensures loadingShown && content == [] && configPending
    {
      loadingShown := true;
      content := [];
      configPending := true;
    }

    /** updateChatbotUI. */
    method UpdateChatbotUI(config: ChatbotApi.BotConfig)
      modifies this`headerTitle, this`fontSizePx, this`status, this`submitDisabled, this`submitLabel, this`messageDisabled
      ensures headerTitle == if config.headerTitle != "" then Some(config.headerTitle) else old(headerTitle)
      ensures fontSizePx == if FontSize(config.fontSize).Some? then FontSize(config.fontSize) else old(fontSizePx)
      ensures status == (if config.botStatus == 1 then Online else Offline)
      ensures submitDisabled == messageDisabled == (config.botStatus != 1)
      ensures submitLabel == if config.botStatus == 1 then None else Some(BotOfflineText)
    {
      if config.headerTitle != "" {
        headerTitle := Some(config.headerTitle);
      }
      var size := FontSize(config.fontSize);
      if size.Some? {
        fontSizePx := size;
      }
      if config.botStatus == 1 {
        status := Online;
        SetSubmitButtonState(false, "");
        messageDisabled := false;
      } else {
        status := Offline;
        SetSubmitButtonState(true, BotOfflineText);
        messageDisabled := true;
      }
    }

    /** renderStartupButtons: rendered and shown while the lead is not captured; cleared and hidden when there are none. */
    method RenderStartupButtons(buttons: seq<ChatbotApi.Button>)
      modifies this`startupButtons, this`startupShown
      ensures startupButtons == Rendered(buttons)
      ensures startupShown == (buttons != [] && !leadCaptured)
    {
      if |buttons| > 0 {
        startupButtons := Rendered(buttons);
        startupShown := !leadCaptured;
      } else {
        startupButtons := [];
        startupShown := false;
      }
    }

    /**
     * The rest of lwhOpenCbotfetchBotConfiguration. Loading the
     * configuration applies it, adds the startup message as one model turn
     * when there is one, and renders the startup buttons before capture;
     * failing alerts and disables the input. The loading indicator goes
     * either way.
     */
    method OnBotConfiguration(outcome: ConfigOutcome)
      requires Valid() && configPending
      modifies this`botConfig, this`headerTitle, this`fontSizePx, this`status, this`submitDisabled, this`submitLabel,
               this`messageDisabled, this`content, this`startupButtons, this`startupShown, this`loadingShown,
               this`alerts, this`configPending
      ensures Valid()
      ensures !loadingShown && !configPending
      ensures outcome.ConfigFailed? ==>
        && alerts == old(alerts) + [ConfigFailedText] && status == ConfigError
        && submitDisabled && submitLabel == Some(SendingText) && messageDisabled
        && content == old(content) && botConfig == old(botConfig) && startupButtons == old(startupButtons)
      ensures outcome.ConfigLoaded? ==>
        alerts == old(alerts)
        && ConfigApplied(outcome.config, old(headerTitle), old(fontSizePx), old(content), old(startupButtons), old(startupShown))
    {
      match outcome {
        case ConfigFailed =>
          OnConfigurationFailed();
        case ConfigLoaded(config) =>
          OnConfigurationLoaded(config);
      }
    }

    /** The request failed: the `catch`, then the `finally`. */
    method OnConfigurationFailed()
      requires Valid()
      modifies this`status, this`submitDisabled, this`submitLabel, this`messageDisabled, this`loadingShown,
               this`alerts, this`configPending
      ensures Valid()
      ensures !loadingShown && !configPending
      ensures alerts == old(alerts) + [ConfigFailedText] && status == ConfigError
      ensures submitDisabled && submitLabel == Some(SendingText) && messageDisabled
    {
      // The `finally` clause touches only the loading indicator and the
      // pending flag, which the `catch` neither reads nor writes, so it is run first.
      FinishConfigurationRequest();
      ConfigurationFailed();
    }

    /** The request was answered: the body of the `try`, then the `finally`. */
    method OnConfigurationLoaded(config: ChatbotApi.BotConfig)
      requires Valid()
      modifies this`botConfig, this`headerTitle, this`fontSizePx, this`status, this`submitDisabled, this`submitLabel,
               this`messageDisabled, this`content, this`startupButtons, this`startupShown, this`loadingShown,
               this`configPending
      ensures Valid()
      ensures !loadingShown && !configPending
      ensures ConfigApplied(config, old(headerTitle), old(fontSizePx), old(content), old(startupButtons), old(startupShown))
    {
      // As above, the `finally` clause commutes with the body and is run first.
      FinishConfigurationRequest();
      ApplyConfiguration(config);
    }

    /**
     * What applying `config` did, given the title, font size, conversation
     * and startup buttons before: the configuration kept, the status line,
     * input and button set by the bot status, title and font size replaced
     * when the configuration has usable ones, the startup message appended
     * as one model turn when there is one, and the startup buttons rendered
     * when the lead is not yet captured.
     */
    predicate ConfigApplied(config: ChatbotApi.BotConfig, titleBefore: Option<string>, sizeBefore: Option<int>,
                            contentBefore: seq<Turn>, buttonsBefore: seq<RenderedButton>, shownBefore: bool)
      reads this
    {
      && botConfig == Some(config)
      && status == (if config.botStatus == 1 then Online else Offline)
      && submitDisabled == messageDisabled == (config.botStatus != 1)
      && submitLabel == (if config.botStatus == 1 then None else Some(BotOfflineText))
      && headerTitle == (if config.headerTitle != "" then Some(config.headerTitle) else titleBefore)
      && fontSizePx == (if FontSize(config.fontSize).Some? then FontSize(config.fontSize) else sizeBefore)
      && content == contentBefore + (if config.startUpMessage != "" then [Turn(Model, config.startUpMessage)] else [])
      && (!leadCaptured ==> startupButtons == Rendered(config.commonButtons) && startupShown == (config.commonButtons != []))
      && (leadCaptured ==> startupButtons == buttonsBefore && startupShown == shownBefore)
    }

    /** The `finally` of lwhOpenCbotfetchBotConfiguration: the loading indicator hides, the request is over. */
    method FinishConfigurationRequest()
      modifies this`loadingShown, this`configPending
      ensures !loadingShown && !configPending
    {
      loadingShown := false;
      configPending := false;
    }

    /** The `catch` of lwhOpenCbotfetchBotConfiguration. */
    method ConfigurationFailed()
      modifies this`alerts, this`status, this`submitDisabled, this`submitLabel, this`messageDisabled
      ensures alerts == old(alerts) + [ConfigFailedText] && status == ConfigError
      ensures submitDisabled && submitLabel == Some(SendingText) && messageDisabled
    {
      alerts := alerts + [ConfigFailedText];
      status := ConfigError;
      SetSubmitButtonState(true, "");
      messageDisabled := true;
    }

    /** The body of lwhOpenCbotfetchBotConfiguration after an answered request. */
    method ApplyConfiguration(config: ChatbotApi.BotConfig)
      modifies this`botConfig, this`headerTitle, this`fontSizePx, this`status, this`submitDisabled, this`submitLabel,
               this`messageDisabled, this`content, this`startupButtons, this`startupShown
      ensures ConfigApplied(config, old(headerTitle), old(fontSizePx), old(content), old(startupButtons), old(startupShown))
    {
      botConfig := Some(config);
      UpdateChatbotUI(config);
      if config.startUpMessage != "" {
        content := content + [Turn(Model, config.startUpMessage)];
      }
      if !leadCaptured {
        RenderStartupButtons(config.commonButtons);
      }
    }

    /**
     * handleStartupButtonClick on the k-th button: its decoded prompt goes
     * through the form submission, and the buttons hide.
     */
    method OnStartupButtonClick(k: nat)
      requires Valid() && k < |startupButtons| && startupShown
      modifies this`alerts, this`submitDisabled, this`submitLabel, this`pendingLeads, this`messageInput,
               this`content, this`typingShown, this`isFetching, this`chatRequests, this`replies, this`startupShown
      ensures Valid()
      ensures HtmlEscape.Unescape(startupButtons[k].promptAttr) == "" ==> Form() == old(Form()) && startupShown
      ensures HtmlEscape.Unescape(startupButtons[k].promptAttr) != "" ==>
        Submitted(Some(HtmlEscape.Unescape(startupButtons[k].promptAttr)), old(Form())) && !startupShown
    {
      var prompt := HtmlEscape.Unescape(startupButtons[k].promptAttr);
      if prompt != "" {
        // Hiding the buttons first changes nothing: the submission neither reads nor writes their visibility.
        startupShown := false;
        OnFormSubmit(Some(prompt));
      }
    }
  }

  /**
   * Right after the page loads, an answered configuration leaves the
   * conversation holding only the startup message.
   */
  method ConfigurationOnLoad(storage: map<StorageKey, string>, leadId: string, pageUrl: string, config: ChatbotApi.BotConfig)
    returns (w: ChatWidget)
    ensures w.content == (if config.startUpMessage != "" then [Turn(Model, config.startUpMessage)] else [])
    ensures w.status == (if config.botStatus == 1 then Online else Offline)
  {
    w := new ChatWidget(storage, leadId, pageUrl);
    w.OnBotConfiguration(ConfigLoaded(config));
  }
}
