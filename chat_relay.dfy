/**
 * The server-side relay and lead store of includes/chatbot-functions.php:
 * forwarding a conversation to the Gemini endpoint and classifying its
 * answer, saving transcripts and leads as `wph_entries` posts, and picking
 * the visitor's IP address for the country lookup.
 */
module ChatRelay {
  import opened Wrappers
  import opened Php
  import Strings

  /**
   * The WordPress and PHP library functions these handlers call. Their
   * definitions are not part of this model, so each handler takes them as
   * parameters.
   */
  datatype WpFunctions = WpFunctions(
    escHtml: string -> string,
    escTextarea: string -> string,
    escUrl: string -> string,
    escAttr: string -> string,
    sanitizeText: string -> string,
    sanitizeEmail: string -> string,
    sanitizeTextarea: string -> string,
    escUrlRaw: string -> string,
    isEmail: string -> bool,
    validIp: string -> bool)

  // ---------------------------------------------------------------------
  // Turns and the fixed setup pair
  // ---------------------------------------------------------------------

  /** `["role" => role, "parts" => ["text" => text]]`. */
  function TurnValue(role: string, text: string): Value {
    Arr([(StrKey("role"), Str(role)), (StrKey("parts"), Arr([(StrKey("text"), Str(text))]))])
  }

  const DefaultOrganizationInfo := "No Company Information, " + "Continue with your own " + "knowledge"
  const DefaultFallback := "I'm sorry, I didn't catch " + "that. Could you rephrase? " + "Feel free to ask something " + "else."
  const Acknowledgement := "Okay Sure I will follow " + "all your requirements."

  /** A piece of the instruction template: literal text or one of the two settings spliced in. */
  datatype Piece = Text(s: string) | FallbackSlot | OrganizationSlot

  /** The system instruction's template: its opening, the fallback reply, its closing, the organisation info. */
  const InstructionTemplate: seq<Piece> :=
    InstructionOpening + [FallbackSlot] + InstructionClosing + [OrganizationSlot, Text("###, ")]

  const InstructionOpening: seq<Piece> := [
    Text("Hi! I want you to work "), Text("as an AI assistant for "),
    Text("my website. You will be "), Text("a friendly and smart assistant "),
    Text("for our company with good "), Text("understanding skills. "),
    Text("I want you to answer our "), Text("customers' questions and "),
    Text("queries just like a support "), Text("team member.\nI’ll provide "),
    Text("you with some important "), Text("rules and information "),
    Text("about our website and "), Text("company, and based on "),
    Text("these, you need to give "), Text("correct and helpful answers "),
    Text("to clients.\nHere are the "), Text("key rules to remember:\nOnly "),
    Text("answer questions related "), Text("to our business and website.\nIf "),
    Text("you are planning to provide "), Text("any html elements like "),
    Text("links in a tag which uses "), Text("Double Quote make sure "),
    Text("to use in that case use "), Text("single apostrophe (') "),
    Text("so that my final json "), Text("structure should be valid "),
    Text("and also my HTML element "), Text("get works. for example "),
    Text("<a href='links'></a>\nIf "), Text("the client’s question "),
    Text("is outside our scope, "), Text("or he is tired or not "),
    Text("happy with your answers, "), Text("politely apologize and "),
    Text("simply respond with:  ") ]

  const InstructionClosing: seq<Piece> := [
    Text(". Limit each message or "), Text("answer to a maximum of "),
    Text("10 words; avoid lengthy "), Text("responses. and for links "),
    Text("and other use HTML so "), Text("the link is clickble and "),
    Text("target blank so coustomers "), Text("can click on it.\nHere "),
    Text("are the basic information "), Text("about our website:, ###") ]

  /** The template with the fallback reply and the organisation info spliced in. */
  function Render(template: seq<Piece>, fallback: string, organization: string): string {
    if template == [] then ""
    else
      var head := match template[0]
        case Text(s) => s
        case FallbackSlot => fallback
        case OrganizationSlot => organization;
      head + Render(template[1..], fallback, organization)
  }

  function SystemInstruction(fallback: string, organization: string): string {
    Render(InstructionTemplate, fallback, organization)
  }

  /** The two setup turns placed before every forwarded conversation. */
  function SetupTurns(fallback: string, organization: string): (r: seq<Value>)
    ensures |r| == 2
    ensures r[0] == TurnValue("user", SystemInstruction(fallback, organization))
    ensures r[1] == TurnValue("model", Acknowledgement)
  {
    [TurnValue("user", SystemInstruction(fallback, organization)), TurnValue("model", Acknowledgement)]
  }

  // ---------------------------------------------------------------------
  // The upstream call and its classification
  // ---------------------------------------------------------------------

  /** What the decoded upstream body holds at the paths the relay looks at (None where isset() fails). */
  datatype UpstreamBody = UpstreamBody(
    errorMessage: Option<string>,   // error.message
    candidateText: Option<string>,  // candidates[0].content.parts[0].text
    blockReason: Option<string>)    // promptFeedback.blockReason

  /** The outcome of wp_remote_post: a transport error or an HTTP response. */
  datatype UpstreamReply = TransportError(error: string) | HttpReply(code: int, body: UpstreamBody)

  /** The array generate_chat_response returns. */
  datatype RelayResult = RelayResult(success: bool, message: string, result: string, statusCode: Option<int>)

  /** The request sent upstream: the URL carrying the key, and the `contents` of the JSON body. */
  datatype UpstreamRequest = UpstreamRequest(url: string, contents: seq<Value>)

  const Endpoint := "https://generativelanguage.googl" + "eapis.com/v1beta/models/gemini-2" + ".5-flash:generateContent?key="

  const MissingKeyResult := RelayResult(false, "API Key Missing",
    "Chatbot configuration " + "error. Please contact " + "the site administrator.", Some(503))

  /** The relay's verdict on an upstream reply, in the order the code tests it. */
  function Classify(reply: UpstreamReply): (r: RelayResult)
    ensures r.success <==> reply.HttpReply? && reply.code == 200 && reply.body.candidateText.Some?
    ensures r.success ==> r.result == reply.body.candidateText.value && r.statusCode.None?
    ensures !r.success ==> r.statusCode.Some? && r.result != ""
    ensures reply.TransportError? ==> r.statusCode == Some(500)
    ensures reply.HttpReply? && reply.code != 200 ==> r.statusCode == Some(reply.code)
    ensures reply.HttpReply? && reply.code == 200 && reply.body.candidateText.None?
      ==> r.statusCode == Some(if reply.body.blockReason.Some? then 400 else 500)
  {
    match reply
    case TransportError(e) =>
      RelayResult(false, "Failed to communicate with the API: " + e,
        "Sorry, there was a technical " + "issue connecting to the " + "AI service. Please try " + "again later.", Some(500))
    case HttpReply(code, body) =>
      if code != 200 then
        var detail := body.errorMessage.GetOr("Unknown API error");
        RelayResult(false, "API Error (" + Strings.IntString(code) + "): " + detail,
          "Sorry, the AI service " + "returned an error. Please " + "try again. (" + Strings.IntString(code) + ")", Some(code))
      else if body.candidateText.Some? then
        RelayResult(true, "Response generated successfully", body.candidateText.value, None)
      else if body.blockReason.Some? then
        RelayResult(false, "API request blocked: " + body.blockReason.value,
          "Sorry, your request could " + "not be processed due to " + "safety settings (" + body.blockReason.value
          + "). Please rephrase your query.", Some(400))
      else
        RelayResult(false, "Unexpected response format from API",
          "Sorry, the AI service " + "gave an unexpected response. " + "Please try again.", Some(500))
  }

  /** The relay's settings, read with their defaults and escaped. */
  function Fallback(options: map<string, Value>, wp: WpFunctions): string {
    wp.escTextarea(ToStr(GetOption(options, "wph_fallback_responses", Str(DefaultFallback))))
  }

  function Organization(options: map<string, Value>, wp: WpFunctions): string {
    wp.escTextarea(ToStr(GetOption(options, "wph_organization_info", Str(DefaultOrganizationInfo))))
  }

  function ApiKey(options: map<string, Value>, wp: WpFunctions): string {
    wp.escAttr(ToStr(GetOption(options, "wph_gemini_api_key", Str(""))))
  }

  /**
   * `$full_history` as the code builds it: the setup pair, then the incoming
   * history unchanged. The latest prompt is not part of it.
   */
  function FullHistory(options: map<string, Value>, history: seq<Value>, wp: WpFunctions): (r: seq<Value>)
    ensures |r| == |history| + 2 && r[2..] == history
    ensures r[..2] == SetupTurns(Fallback(options, wp), Organization(options, wp))
  {
    SetupTurns(Fallback(options, wp), Organization(options, wp)) + history
  }

  /** The conversation the relay was evidently meant to forward: the history, then the latest prompt as a user turn. */
  function IntendedHistory(options: map<string, Value>, history: seq<Value>, lastPrompt: string, wp: WpFunctions): (r: seq<Value>)
    ensures |r| == |history| + 3 && r[2..|r| - 1] == history
    ensures r[|r| - 1] == TurnValue("user", lastPrompt)
  {
    FullHistory(options, history, wp) + [TurnValue("user", lastPrompt)]
  }

  // ---------------------------------------------------------------------
  // The lead store: `wph_entries` posts with their meta
  // ---------------------------------------------------------------------

  const EntriesType := "wph_entries"

  /** A post: its id, type, status, title, author and meta fields (json-encoded meta kept decoded). */
  datatype Post = Post(id: nat, postType: string, status: string, title: string, author: nat, meta: map<string, Value>)

  predicate IsEntryFor(p: Post, leadId: string) {
    p.postType == EntriesType && p.status == "publish" && "_lead_id" in p.meta && p.meta["_lead_id"] == Str(leadId)
  }

  /** The index get_posts returns first for a published entry with this `_lead_id`, if any. */
  function FirstEntry(posts: seq<Post>, leadId: string): (r: Option<nat>)
    ensures r.Some? ==> r.value < |posts| && IsEntryFor(posts[r.value], leadId)
    ensures r.Some? ==> forall k :: 0 <= k < r.value ==> !IsEntryFor(posts[k], leadId)
    ensures r.None? ==> forall k :: 0 <= k < |posts| ==> !IsEntryFor(posts[k], leadId)
  {
    if posts == [] then None
    else if IsEntryFor(posts[0], leadId) then Some(0)
    else match FirstEntry(posts[1..], leadId)
      case None => None
      case Some(i) => Some(i + 1)
  }

  /** The posts after save_chat_history_to_db: `_chats` of the first match replaced, or nothing written. */
  function AfterSaveChats(posts: seq<Post>, leadId: string, history: seq<Value>, encodable: bool, wp: WpFunctions): seq<Post> {
    if EmptyString(leadId) || !encodable then posts
    else match FirstEntry(posts, wp.sanitizeText(leadId))
      case None => posts
      case Some(i) => posts[i := posts[i].(meta := posts[i].meta["_chats" := List(history)])]
  }

  /** save_chat_history_to_db writes at most one post, and in it only `_chats`. */
  lemma AfterSaveChatsTouchesOnlyChats(posts: seq<Post>, leadId: string, history: seq<Value>, encodable: bool, wp: WpFunctions)
    ensures var after := AfterSaveChats(posts, leadId, history, encodable, wp);
      && |after| == |posts|
      && (forall k :: 0 <= k < |posts| && after[k] != posts[k] ==>
            k == FirstEntry(posts, wp.sanitizeText(leadId)).value
            && after[k] == posts[k].(meta := posts[k].meta["_chats" := List(history)]))
      && (EmptyString(leadId) || !encodable || FirstEntry(posts, wp.sanitizeText(leadId)).None? ==> after == posts)
  {
  }

  datatype AjaxResponse = AjaxResponse(success: bool, status: int, message: string, postId: Option<nat>)

  /** What get_user_country's lookup request answered. */
  datatype LookupBody = Undecodable | Decoded(countryName: Option<string>)
  datatype LookupReply = LookupFailed | LookupHttp(code: int, body: LookupBody)

  /** The text before the first comma: `explode(',', $s)[0]`. */
  function FirstListItem(s: string): (r: string)
    ensures |r| <= |s| && r == s[..|r|]
    ensures forall k :: 0 <= k < |r| ==> r[k] != ','
    ensures |r| < |s| ==> s[|r|] == ','
  {
    if s == [] || s[0] == ',' then [] else [s[0]] + FirstListItem(s[1..])
  }

  function ServerVar(server: map<string, string>, name: string): string {
    if name in server then server[name] else ""
  }

  /** The client address by header priority: HTTP_CLIENT_IP, then the first X-Forwarded-For item, then REMOTE_ADDR. */
  function ClientIp(server: map<string, string>): (ip: string)
    ensures !EmptyString(ServerVar(server, "HTTP_CLIENT_IP")) ==> ip == server["HTTP_CLIENT_IP"]
    ensures EmptyString(ServerVar(server, "HTTP_CLIENT_IP")) && !EmptyString(ServerVar(server, "HTTP_X_FORWARDED_FOR"))
      ==> ip == Trim(FirstListItem(server["HTTP_X_FORWARDED_FOR"]))
    ensures EmptyString(ServerVar(server, "HTTP_CLIENT_IP")) && EmptyString(ServerVar(server, "HTTP_X_FORWARDED_FOR"))
      ==> ip == (if EmptyString(ServerVar(server, "REMOTE_ADDR")) then "" else server["REMOTE_ADDR"])
  {
    if !EmptyString(ServerVar(server, "HTTP_CLIENT_IP")) then server["HTTP_CLIENT_IP"]
    else if !EmptyString(ServerVar(server, "HTTP_X_FORWARDED_FOR")) then Trim(FirstListItem(server["HTTP_X_FORWARDED_FOR"]))
    else if !EmptyString(ServerVar(server, "REMOTE_ADDR")) then server["REMOTE_ADDR"]
    else ""
  }

  /** A forwarded-for list yields its first address, without surrounding blanks and without any comma. */
  lemma ForwardedForFirstItem(server: map<string, string>)
    requires EmptyString(ServerVar(server, "HTTP_CLIENT_IP")) && !EmptyString(ServerVar(server, "HTTP_X_FORWARDED_FOR"))
    ensures ',' !in ClientIp(server)
  {
    var item := FirstListItem(server["HTTP_X_FORWARDED_FOR"]);
    Strings.TrimChars(item, IsTrimSpace);
    assert ',' !in item;
  }

  /**
   * get_user_country: the country name, or one of its error strings; the
   * second component is the address looked up (None when no request is made).
   */
  function UserCountry(server: map<string, string>, lookup: LookupReply, wp: WpFunctions): (r: (string, Option<string>))
    ensures !wp.validIp(ClientIp(server)) <==> r.1.None?
    ensures !wp.validIp(ClientIp(server)) ==> r.0 == "Invalid IP"
    ensures r.1.Some? ==> r.1.value == ClientIp(server)
  {
    var ip := ClientIp(server);
    if !wp.validIp(ip) then ("Invalid IP", None)
    else
      var country := match lookup
        case LookupFailed => "Lookup Error"
        case LookupHttp(code, body) =>
          if code != 200 then "API Error (" + Strings.IntString(code) + ")"
          else match body
            case Undecodable => "Response Decode Error"
            case Decoded(name) =>
              if name.Some? && !EmptyString(name.value) then wp.sanitizeText(name.value) else "Unknown Country";
      (country, Some(ip))
  }

  /** The lead fields save_bot_entry reads from the decoded body ('' when absent), sanitised. */
  datatype LeadFields = LeadFields(name: string, email: string, phone: string, query: string, pageUrl: string, leadId: string)

  /** `isset($data[key]) ? clean($data[key]) : ''`: a present, non-null field is cleaned as a string. */
  function Field(body: map<string, Value>, key: string, clean: string -> string): (r: string)
    ensures key !in body || body[key] == Null ==> r == ""
    ensures key in body && body[key] != Null ==> r == clean(ToStr(body[key]))
  {
    if key in body && body[key] != Null then clean(ToStr(body[key])) else ""
  }

  function ReadLead(body: map<string, Value>, wp: WpFunctions): LeadFields {
    LeadFields(
      Field(body, "name", wp.sanitizeText),
      Field(body, "email", wp.sanitizeEmail),
      Field(body, "phone", wp.sanitizeText),
      Field(body, "query", wp.sanitizeTextarea),
      Field(body, "current_page_url", wp.escUrlRaw),
      Field(body, "lead_id", wp.sanitizeText))
  }

  /**
   * The 400 answers of save_bot_entry, before anything is inserted (None:
   * the entry may be inserted). `body` is the decoded JSON when it is an
   * array, None otherwise.
   */
  function LeadRejection(body: Option<map<string, Value>>, wp: WpFunctions): (r: Option<string>)
    ensures body.None? ==> r == Some("Invalid input data.")
    ensures body.Some? && r.None? ==>
      var f := ReadLead(body.value, wp);
      !EmptyString(f.name) && !EmptyString(f.email) && !EmptyString(f.phone) && !EmptyString(f.leadId) && wp.isEmail(f.email)
    ensures body.Some? && r.None? ==>
      forall key :: key in {"name", "email", "phone", "lead_id"} ==> key in body.value && body.value[key] != Null
  {
    if body.None? then Some("Invalid input data.")
    else
      var f := ReadLead(body.value, wp);
      if EmptyString(f.name) || EmptyString(f.email) || EmptyString(f.phone) || EmptyString(f.leadId) then
        Some("Missing required fields (name, email, phone, lead_id).")
      else if !wp.isEmail(f.email) then Some("Invalid email format.")
      else None
  }

  /** The query is not a required field: a lead whose query is missing is still accepted. */
  lemma QueryNotRequired(body: map<string, Value>, wp: WpFunctions)
    requires LeadRejection(Some(body), wp).None?
    ensures LeadRejection(Some(body - {"query"}), wp).None?
  {
    assert ReadLead(body - {"query"}, wp).(query := ReadLead(body, wp).query) == ReadLead(body, wp);
  }

  /** A numeric field passes `isset` and is sanitised as its decimal text: `"name": 123` is the name "123". */
  lemma NumericFieldRead(body: map<string, Value>, key: string, n: int, clean: string -> string)
    requires key in body && body[key] == Int(n)
    ensures Field(body, key, clean) == clean(Strings.IntString(n))
  {
  }

  /** The meta save_bot_entry stores on a new entry. */
  function LeadMeta(f: LeadFields, country: string): (m: map<string, Value>)
    ensures m.Keys == {"_lead_id", "_name", "_email", "_phone", "_query", "_chats", "_user_country", "_current_page_url"}
    ensures m["_chats"] == Str("") && m["_lead_id"] == Str(f.leadId)
  {
    map["_lead_id" := Str(f.leadId), "_name" := Str(f.name), "_email" := Str(f.email), "_phone" := Str(f.phone),
        "_query" := Str(f.query), "_chats" := Str(""), "_user_country" := Str(country),
        "_current_page_url" := Str(f.pageUrl)]
  }

  /** The wph_entries posts: newest first, the order get_posts returns them in. */
  class EntryStore {
    var posts: seq<Post>
    var nextId: nat

    ghost predicate Valid()
      reads this
    {
      forall k :: 0 <= k < |posts| ==> posts[k].id < nextId
    }

    constructor ()
      ensures Valid() && posts == [] && nextId == 1
    {
      posts := [];
      nextId := 1;
    }

    /** save_chat_history_to_db. */
    method SaveChatHistory(leadId: string, history: seq<Value>, encodable: bool, wp: WpFunctions)
      requires Valid()
      modifies this`posts
      ensures Valid()
      ensures posts == AfterSaveChats(old(posts), leadId, history, encodable, wp)
    {
      if EmptyString(leadId) {
        return;
      }
      if !encodable {
        return;
      }
      var found := FirstEntry(posts, wp.sanitizeText(leadId));
      if found.Some? {
        var i := found.value;
        posts := posts[i := posts[i].(meta := posts[i].meta["_chats" := List(history)])];
      }
    }

    /**
     * save_bot_entry: validate, then insert a published entry titled with the
     * name and store its meta. `insertError` is wp_insert_post's failure, if it fails.
     */
    method SaveBotEntry(body: Option<map<string, Value>>, server: map<string, string>, lookup: LookupReply,
                        insertError: Option<string>, wp: WpFunctions)
      returns (resp: AjaxResponse)
      requires Valid()
      modifies this
      ensures Valid()
      ensures LeadRejection(body, wp).Some? ==>
        resp == AjaxResponse(false, 400, LeadRejection(body, wp).value, None) && posts == old(posts) && nextId == old(nextId)
      ensures LeadRejection(body, wp).None? && insertError.Some? ==>
        resp == AjaxResponse(false, 500, "Failed to save entry. Error: " + insertError.value, None) && posts == old(posts)
      ensures LeadRejection(body, wp).None? && insertError.None? ==>
        var f := ReadLead(body.value, wp);
        && resp == AjaxResponse(true, 200, "Entry saved successfully.", Some(old(nextId)))
        && posts == [Post(old(nextId), EntriesType, "publish", f.name, 1, LeadMeta(f, UserCountry(server, lookup, wp).0))] + old(posts)
    {
      var country := UserCountry(server, lookup, wp).0;
      var rejection := LeadRejection(body, wp);
      if rejection.Some? {
        return AjaxResponse(false, 400, rejection.value, None);
      }
      var f := ReadLead(body.value, wp);
      if insertError.Some? {
        return AjaxResponse(false, 500, "Failed to save entry. Error: " + insertError.value, None);
      }
      var postId := nextId;
      nextId := nextId + 1;
      var meta: map<string, Value> := map[];
      meta := meta["_lead_id" := Str(f.leadId)];
      meta := meta["_name" := Str(f.name)];
      meta := meta["_email" := Str(f.email)];
      meta := meta["_phone" := Str(f.phone)];
      meta := meta["_query" := Str(f.query)];
      meta := meta["_chats" := Str("")];
      meta := meta["_user_country" := Str(country)];
      meta := meta["_current_page_url" := Str(f.pageUrl)];
      posts := [Post(postId, EntriesType, "publish", f.name, 1, meta)] + posts;
      resp := AjaxResponse(true, 200, "Entry saved successfully.", Some(postId));
    }
  }

  /**
   * generate_chat_response as written. `chatHistory` is the by-reference
   * array: the second result is its value afterwards. The third result is
   * the upstream request made, if any; `reply` is what that request returned.
   */
  method GenerateChatResponse(store: EntryStore, options: map<string, Value>, lastPrompt: string,
                              chatHistory: seq<Value>, leadId: string, reply: UpstreamReply, encodable: bool, wp: WpFunctions)
    returns (r: RelayResult, history: seq<Value>, request: Option<UpstreamRequest>)
    requires store.Valid()
    modifies store`posts
    ensures store.Valid()
    ensures EmptyString(ApiKey(options, wp)) ==>
      r == MissingKeyResult && history == chatHistory && request.None? && store.posts == old(store.posts)
    ensures !EmptyString(ApiKey(options, wp)) ==>
      && request == Some(UpstreamRequest(Endpoint + ApiKey(options, wp), FullHistory(options, chatHistory, wp)))
      && r == Classify(reply)
      && history == (if r.success then chatHistory + [TurnValue("model", r.result)] else chatHistory)
      && store.posts == (if r.success then AfterSaveChats(old(store.posts), leadId, FullHistory(options, chatHistory, wp), encodable, wp)
                         else old(store.posts))
  {
    var key := ApiKey(options, wp);
    if EmptyString(key) {
      return MissingKeyResult, chatHistory, None;
    }
    var full := FullHistory(options, chatHistory, wp);
    request := Some(UpstreamRequest(Endpoint + key, full));
    r := Classify(reply);
    history := chatHistory;
    if r.success {
      history := history + [TurnValue("model", r.result)];
      store.SaveChatHistory(leadId, full, encodable, wp);
    }
  }

  /**
   * generate_chat_response as evidently intended: the latest prompt is sent
   * as the last user turn, and the saved transcript holds the prompt and the reply.
   */
  method GenerateChatResponseIntended(store: EntryStore, options: map<string, Value>, lastPrompt: string,
                                      chatHistory: seq<Value>, leadId: string, reply: UpstreamReply, encodable: bool, wp: WpFunctions)
    returns (r: RelayResult, history: seq<Value>, request: Option<UpstreamRequest>)
    requires store.Valid()
    modifies store`posts
    ensures store.Valid()
    ensures EmptyString(ApiKey(options, wp)) ==>
      r == MissingKeyResult && history == chatHistory && request.None? && store.posts == old(store.posts)
    ensures !EmptyString(ApiKey(options, wp)) ==>
      && request == Some(UpstreamRequest(Endpoint + ApiKey(options, wp), IntendedHistory(options, chatHistory, lastPrompt, wp)))
      && r == Classify(reply)
      && history == (if r.success then chatHistory + [TurnValue("model", r.result)] else chatHistory)
      && store.posts == (if r.success then
                           AfterSaveChats(old(store.posts), leadId,
                             IntendedHistory(options, chatHistory, lastPrompt, wp) + [TurnValue("model", r.result)], encodable, wp)
                         else old(store.posts))
  {
    var key := ApiKey(options, wp);
    if EmptyString(key) {
      return MissingKeyResult, chatHistory, None;
    }
    var full := IntendedHistory(options, chatHistory, lastPrompt, wp);
    request := Some(UpstreamRequest(Endpoint + key, full));
    r := Classify(reply);
    history := chatHistory;
    if r.success {
      history := history + [TurnValue("model", r.result)];
      store.SaveChatHistory(leadId, full + [TurnValue("model", r.result)], encodable, wp);
    }
  }

  /**
   * As written, the forwarded contents never contain the latest prompt: for
   * a history of n turns they are the setup pair and those n turns, with no
   * turn carrying the prompt beyond what the history already held.
   */
  lemma LatestPromptNotForwarded(options: map<string, Value>, wp: WpFunctions)
    ensures var contents := FullHistory(options, [TurnValue("model", "Hi")], wp);
      && |contents| == 3
      && TurnValue("user", "What are your hours?") !in contents
  {
    var contents := FullHistory(options, [TurnValue("model", "Hi")], wp);
    var q := TurnValue("user", "What are your hours?");
    assert contents[0] == TurnValue("user", SystemInstruction(Fallback(options, wp), Organization(options, wp)));
    var instruction := SystemInstruction(Fallback(options, wp), Organization(options, wp));
    assert |instruction| > |"What are your hours?"| by {
      var t := InstructionTemplate;
      assert t[0] == InstructionOpening[0] == Text("Hi! I want you to work ");
      assert instruction == t[0].s + Render(t[1..], Fallback(options, wp), Organization(options, wp));
    }
    assert contents[1] != q && contents[2] != q;
  }

  /** Once fixed, the forwarded contents end with the latest prompt as a user turn. */
  lemma IntendedForwardsPrompt(options: map<string, Value>, history: seq<Value>, lastPrompt: string, wp: WpFunctions)
    ensures var contents := IntendedHistory(options, history, lastPrompt, wp);
      contents[|contents| - 1] == TurnValue("user", lastPrompt) && contents[..2] == FullHistory(options, history, wp)[..2]
  {
  }
}
