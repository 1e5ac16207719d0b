/**
 * The two REST routes of includes/class-chatbot-api.php: `myapi/v1/chat-bot`
 * (argument validation, then the relay) and `myapi/v1/chat-bot-config`
 * (the widget's configuration read from the options table).
 */
module ChatbotApi {
  import opened Wrappers
  import opened Php
  import ChatRelay

  // ---------------------------------------------------------------------
  // POST chat-bot
  // ---------------------------------------------------------------------

  /** The validate_callback of `last_prompt`: a string that is not empty() once trimmed. */
  predicate LastPromptValid(v: Value) {
    v.Str? && !EmptyString(Trim(v.s))
  }

  /** The validate_callback of `conversation_history`: null or an array. */
  predicate HistoryValid(v: Value) {
    v.Null? || v.Arr?
  }

  /** The validate_callback of `lead_id`: a string of more than ten ASCII digits. */
  predicate LeadIdValid(v: Value) {
    v.Str? && CtypeDigit(v.s) && |v.s| > 10
  }

  /** The route's parameters as the request carries them (None: absent). */
  datatype ChatParams = ChatParams(lastPrompt: Option<Value>, history: Option<Value>, leadId: Option<Value>)

  /** WordPress counts a required argument as missing when it is absent or null. */
  predicate Missing(v: Option<Value>) {
    v.None? || v.value.Null?
  }

  /** A present, non-null argument that its validate_callback refuses (null is never validated). */
  predicate Refused(v: Option<Value>, valid: Value -> bool) {
    !Missing(v) && !valid(v.value)
  }

  /** The required arguments that are missing, in the order the route declares them. */
  function MissingParams(p: ChatParams): (r: seq<string>)
    ensures "last_prompt" in r <==> Missing(p.lastPrompt)
    ensures "lead_id" in r <==> Missing(p.leadId)
    ensures forall k :: 0 <= k < |r| ==> r[k] == "last_prompt" || r[k] == "lead_id"
  {
    (if Missing(p.lastPrompt) then ["last_prompt"] else []) + (if Missing(p.leadId) then ["lead_id"] else [])
  }

  /** The arguments whose validate_callback refuses them, in the order the route declares them. */
  function InvalidParams(p: ChatParams): (r: seq<string>)
    ensures "last_prompt" in r <==> Refused(p.lastPrompt, LastPromptValid)
    ensures "conversation_history" in r <==> Refused(p.history, HistoryValid)
    ensures "lead_id" in r <==> Refused(p.leadId, LeadIdValid)
  {
    (if Refused(p.lastPrompt, LastPromptValid) then ["last_prompt"] else [])
    + (if Refused(p.history, HistoryValid) then ["conversation_history"] else [])
    + (if Refused(p.leadId, LeadIdValid) then ["lead_id"] else [])
  }

  /** `implode(', ', $names)`. */
  function Join(names: seq<string>): string {
    if names == [] then ""
    else if |names| == 1 then names[0]
    else names[0] + ", " + Join(names[1..])
  }

  /** The WP_Error code and message of a refused request. */
  datatype ArgsRefusal = ArgsRefusal(code: string, message: string)

  /**
   * The framework's argument check (WP_REST_Request::has_valid_params):
   * the missing required arguments first, then every argument whose
   * validate_callback refuses it. Both errors name the arguments concerned.
   */
  function ArgsError(p: ChatParams): (r: Option<ArgsRefusal>)
    ensures r.None? <==>
      p.lastPrompt.Some? && LastPromptValid(p.lastPrompt.value) && p.leadId.Some? && LeadIdValid(p.leadId.value)
      && (p.history.None? || HistoryValid(p.history.value))
    ensures r.Some? && r.value.code == "rest_missing_callback_param" <==> Missing(p.lastPrompt) || Missing(p.leadId)
    ensures r.Some? && r.value.code == "rest_missing_callback_param" ==>
      r.value.message == "Missing parameter(s): " + Join(MissingParams(p))
    ensures r.Some? && r.value.code != "rest_missing_callback_param" ==>
      r.value == ArgsRefusal("rest_invalid_param", "Invalid parameter(s): " + Join(InvalidParams(p))) && InvalidParams(p) != []
  {
    var missing := MissingParams(p);
    var invalid := InvalidParams(p);
    if missing != [] then
      Some(ArgsRefusal("rest_missing_callback_param", "Missing parameter(s): " + Join(missing)))
    else if invalid != [] then
      Some(ArgsRefusal("rest_invalid_param", "Invalid parameter(s): " + Join(invalid)))
    else None
  }

  /** A prompt sent as an explicit JSON null is reported missing, not invalid. */
  lemma NullPromptMissing(history: Option<Value>, leadId: string)
    requires CtypeDigit(leadId) && |leadId| > 10
    ensures ArgsError(ChatParams(Some(Null), history, Some(Str(leadId))))
      == Some(ArgsRefusal("rest_missing_callback_param", "Missing parameter(s): last_prompt"))
  {
    assert MissingParams(ChatParams(Some(Null), history, Some(Str(leadId)))) == ["last_prompt"];
    assert Join(["last_prompt"]) == "last_prompt";
    assert "Missing parameter(s): " + "last_prompt" == "Missing parameter(s): last_prompt";
  }

  /** A prompt of blanks alone is refused, and so is "0", which PHP's empty() counts as empty. */
  lemma BlankPromptRefused(s: string)
    requires Strings.AllSatisfy(s, IsTrimSpace) || Trim(s) == "0"
    ensures !LastPromptValid(Str(s))
  {
    if Strings.AllSatisfy(s, IsTrimSpace) {
      Strings.TrimEmptyIffAllSpace(s, IsTrimSpace);
    }
  }

  /** The history handed to the relay: a non-array becomes [], an array its values in order. */
  function NormalizeHistory(v: Option<Value>): (r: seq<Value>)
    ensures v.Some? && v.value.Arr? ==> |r| == |v.value.entries|
    ensures v.None? || !v.value.Arr? ==> r == []
  {
    if v.Some? && v.value.Arr? then Values(v.value.entries) else []
  }

  /** A history the widget sent as a JSON list reaches the relay unchanged. */
  lemma NormalizeHistoryOfList(items: seq<Value>)
    ensures NormalizeHistory(Some(List(items))) == items
  {
    ValuesOfList(items);
  }

  /** What the route returns: a WP_REST_Response or a WP_Error with its data. */
  datatype RestReply =
    | RestResponse(status: int, body: ChatRelay.RelayResult)
    | RestError(code: string, message: string, status: int, result: string)

  /** The answer built from the relay's result. */
  function Respond(r: ChatRelay.RelayResult): (reply: RestReply)
    ensures reply.RestResponse? <==> r.success
    ensures reply.RestResponse? ==> reply.status == 200 && reply.body == r
    ensures reply.RestError? ==>
      reply.code == "chatbot_api_error" && reply.message == r.message && reply.result == r.result
      && reply.status == r.statusCode.GetOr(500)
  {
    if r.success then RestResponse(200, r)
    else RestError("chatbot_api_error", r.message, r.statusCode.GetOr(500), r.result)
  }

  /** The HTTP status a visitor sees for each upstream outcome. */
  lemma {:induction false} UpstreamStatus(reply: ChatRelay.UpstreamReply)
    ensures var answer := Respond(ChatRelay.Classify(reply));
      && (reply.TransportError? ==> answer.status == 500)
      && (reply.HttpReply? && reply.code != 200 ==> answer.status == reply.code)
      && (reply.HttpReply? && reply.code == 200 ==>
            answer.status == if reply.body.candidateText.Some? then 200
                             else if reply.body.blockReason.Some? then 400 else 500)
      && (answer.RestError? ==> answer.result != "")
  {
    var r := ChatRelay.Classify(reply);
    assert !r.success ==> r.statusCode.Some?;
  }

  /**
   * handle_chat_bot_request, with the framework's argument check in front.
   * A refused request never reaches the relay; an accepted one is answered
   * from the result of generate_chat_response as written, which also saves
   * the transcript.
   */
  method HandleChatBotRequest(store: ChatRelay.EntryStore, options: map<string, Value>, p: ChatParams,
                              reply: ChatRelay.UpstreamReply, encodable: bool, wp: ChatRelay.WpFunctions)
    returns (answer: RestReply)
    requires store.Valid()
    modifies store`posts
    ensures store.Valid()
    ensures ArgsError(p).Some? ==>
      answer == RestError(ArgsError(p).value.code, ArgsError(p).value.message, 400, "") && store.posts == old(store.posts)
    ensures ArgsError(p).None? && EmptyString(ChatRelay.ApiKey(options, wp)) ==>
      answer == Respond(ChatRelay.MissingKeyResult) && answer.status == 503 && store.posts == old(store.posts)
    ensures ArgsError(p).None? && !EmptyString(ChatRelay.ApiKey(options, wp)) ==>
      && answer == Respond(ChatRelay.Classify(reply))
      && store.posts == (if ChatRelay.Classify(reply).success then
                           ChatRelay.AfterSaveChats(old(store.posts), wp.sanitizeText(p.leadId.value.s),
                             ChatRelay.FullHistory(options, NormalizeHistory(p.history), wp), encodable, wp)
                         else old(store.posts))
  {
    var err := ArgsError(p);
    if err.Some? {
      return RestError(err.value.code, err.value.message, 400, "");
    }
    var lastPrompt := wp.sanitizeText(p.lastPrompt.value.s);
    var leadId := wp.sanitizeText(p.leadId.value.s);
    var history := NormalizeHistory(p.history);
    var result, _, _ := ChatRelay.GenerateChatResponse(store, options, lastPrompt, history, leadId, reply, encodable, wp);
    answer := Respond(result);
  }

  // ---------------------------------------------------------------------
  // GET chat-bot-config
  // ---------------------------------------------------------------------

  /** A startup button: its label escaped for HTML, its prompt as configured (trimmed). */
  datatype Button = Button(buttonText: string, buttonPrompt: string)

  /** The configuration object the widget receives. */
  datatype BotConfig = BotConfig(
    botStatus: int,
    startUpMessage: string,
    fontSize: string,
    userAvatarUrl: string,
    botImageUrl: string,
    commonButtons: seq<Button>,
    headerTitle: string)

  const ButtonOptions := ["wph_button_1_query", "wph_button_2_query", "wph_button_3_query",
                          "wph_button_4_query", "wph_button_5_query"]

  /** The bot status coerced to 0 or 1: only the integer 0 and the string "0" mean off. */
  function NormalizeBotStatus(v: Value): (r: int)
    ensures r == 0 || r == 1
    ensures r == 0 <==> v == Int(0) || v == Str("0")
  {
    if v != Int(0) && v != Str("0") then 1 else 0
  }

  /** The trimmed value of each named option ("" when unset). */
  function ButtonPrompts(options: map<string, Value>, names: seq<string>): (r: seq<string>)
    ensures |r| == |names|
    ensures forall k :: 0 <= k < |names| ==> r[k] == Trim(ToStr(GetOption(options, names[k], Str(""))))
  {
    seq(|names|, k requires 0 <= k < |names| => Trim(ToStr(GetOption(options, names[k], Str("")))))
  }

  /** The buttons of the given trimmed prompts, in order, skipping those PHP's empty() refuses. */
  function Buttons(prompts: seq<string>, escHtml: string -> string): (r: seq<Button>)
    ensures |r| <= |prompts|
    ensures forall b :: b in r ==> !EmptyString(b.buttonPrompt) && b.buttonText == escHtml(b.buttonPrompt)
  {
    if prompts == [] then []
    else
      var first := if EmptyString(prompts[0]) then [] else [Button(escHtml(prompts[0]), prompts[0])];
      first + Buttons(prompts[1..], escHtml)
  }

  lemma {:induction false} ButtonsAppend(prompts: seq<string>, prompt: string, escHtml: string -> string)
    ensures Buttons(prompts + [prompt], escHtml) ==
      Buttons(prompts, escHtml) + (if EmptyString(prompt) then [] else [Button(escHtml(prompt), prompt)])
  {
    var t := prompts + [prompt];
    if prompts == [] {
      assert t == [prompt] && t[1..] == [];
    } else {
      assert t[0] == prompts[0] && t[1..] == prompts[1..] + [prompt];
      ButtonsAppend(prompts[1..], prompt, escHtml);
    }
  }

  /** Every prompt that PHP's empty() accepts yields a button, labelled with its escaped text. */
  lemma {:induction false} ButtonsComplete(prompts: seq<string>, escHtml: string -> string, k: nat)
    requires k < |prompts| && !EmptyString(prompts[k])
    ensures Button(escHtml(prompts[k]), prompts[k]) in Buttons(prompts, escHtml)
  {
    if k > 0 {
      ButtonsComplete(prompts[1..], escHtml, k - 1);
    }
  }

  /** The prompt of a button is one of the given prompts. */
  lemma {:induction false} ButtonSource(prompts: seq<string>, escHtml: string -> string, b: Button) returns (k: nat)
    requires b in Buttons(prompts, escHtml)
    ensures k < |prompts| && b.buttonPrompt == prompts[k]
  {
    if !EmptyString(prompts[0]) && b == Button(escHtml(prompts[0]), prompts[0]) {
      k := 0;
    } else {
      var j := ButtonSource(prompts[1..], escHtml, b);
      k := j + 1;
    }
  }

  /** The configured prompts carry no surrounding blanks: trimming them again changes nothing. */
  lemma ButtonPromptTrimmed(options: map<string, Value>, escHtml: string -> string, b: Button)
    requires b in Buttons(ButtonPrompts(options, ButtonOptions), escHtml)
    ensures Trim(b.buttonPrompt) == b.buttonPrompt
  {
    var k := ButtonSource(ButtonPrompts(options, ButtonOptions), escHtml, b);
    Strings.TrimIdempotent(ToStr(GetOption(options, ButtonOptions[k], Str(""))), IsTrimSpace);
  }

  /** An image option, or the default when the option is missing or empty() (`?:`), then escaped. */
  function ImageUrl(options: map<string, Value>, name: string, default: string, escUrl: string -> string): (r: string)
    ensures name !in options || Empty(options[name]) ==> r == escUrl(default)
    ensures name in options && !Empty(options[name]) ==> r == escUrl(ToStr(options[name]))
  {
    var v := GetOption(options, name, Str(default));
    escUrl(if Empty(v) then default else ToStr(v))
  }

  /** The configuration the route answers with. */
  function Configuration(options: map<string, Value>, pluginUrl: string, wp: ChatRelay.WpFunctions): BotConfig {
    BotConfig(
      NormalizeBotStatus(GetOption(options, "wph_chatbot_enabled", Int(1))),
      wp.escTextarea(ToStr(GetOption(options, "wph_welcome_message", Str("Hi, How are you?")))),
      "16",
      ImageUrl(options, "wph_user_image", pluginUrl + "assets/images/user-avatar.png", wp.escUrl),
      ImageUrl(options, "wph_bot_image", pluginUrl + "assets/images/bot-logo.png", wp.escUrl),
      Buttons(ButtonPrompts(options, ButtonOptions), wp.escHtml),
      wp.escHtml(ToStr(GetOption(options, "wph_chatbot_header_title", Str("Shuriken AI Chatbot")))))
  }

  /** The foreach over the five button options: the startup buttons, in option order. */
  method CollectButtons(options: map<string, Value>, escHtml: string -> string) returns (buttons: seq<Button>)
    ensures buttons == Buttons(ButtonPrompts(options, ButtonOptions), escHtml)
  {
    ghost var prompts := ButtonPrompts(options, ButtonOptions);
    buttons := [];
    var i := 0;
    while i < |ButtonOptions|
      invariant 0 <= i <= |ButtonOptions|
      invariant buttons == Buttons(prompts[..i], escHtml)
    {
      var trimmed := Trim(ToStr(GetOption(options, ButtonOptions[i], Str(""))));
      ButtonsAppend(prompts[..i], trimmed, escHtml);
      assert prompts[..i + 1] == prompts[..i] + [trimmed];
      if !EmptyString(trimmed) {
        buttons := buttons + [Button(escHtml(trimmed), trimmed)];
      }
      i := i + 1;
    }
    assert prompts[..i] == prompts;
  }

  /** load_chat_bot_base_configuration. */
  method LoadConfiguration(options: map<string, Value>, pluginUrl: string, wp: ChatRelay.WpFunctions)
    returns (config: BotConfig)
    ensures config == Configuration(options, pluginUrl, wp)
    ensures config.botStatus == 0 <==>
      "wph_chatbot_enabled" in options && (options["wph_chatbot_enabled"] == Int(0) || options["wph_chatbot_enabled"] == Str("0"))
    ensures |config.commonButtons| <= 5 && config.fontSize == "16"
  {
    var botStatus := GetOption(options, "wph_chatbot_enabled", Int(1));
    var startupMessage := GetOption(options, "wph_welcome_message", Str("Hi, How are you?"));
    var headerTitle := GetOption(options, "wph_chatbot_header_title", Str("Shuriken AI Chatbot"));
    var status := if botStatus != Int(0) && botStatus != Str("0") then 1 else 0;
    var userAvatar := ImageUrl(options, "wph_user_image", pluginUrl + "assets/images/user-avatar.png", wp.escUrl);
    var botImage := ImageUrl(options, "wph_bot_image", pluginUrl + "assets/images/bot-logo.png", wp.escUrl);
    var buttons := CollectButtons(options, wp.escHtml);
    config := BotConfig(status, wp.escTextarea(ToStr(startupMessage)), "16", userAvatar, botImage, buttons,
                        wp.escHtml(ToStr(headerTitle)));
  }
}
