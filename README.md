# Shuriken AI Chatbot (wph-chatbot), modelled in Dafny

This project models the logic of a WordPress chat-widget plugin. A visitor
opens a chat window and leaves their name, email, phone and first question
(the "lead"). After that they chat with a Gemini model. The WordPress site
relays each message and keeps the leads, with their transcripts, as
`wph_entries` posts. Administrators browse those entries in the admin screens.

The model covers six parts of the plugin, one Dafny module each:

- **`Widget`** (`widget.dfy`): the visitor-side controller of
  `assets/js/chatbot-scripts.js`.
  - It is a class `ChatWidget` over the conversation `content`, the
    `leadCaptured` and `isFetching` flags, the three stored lead values and
    the state of the page the controller reads and writes.
  - Each asynchronous function is cut at its `await`. A method issues the
    request, and an `On...` method takes the answer as an input.
  - The class invariant `Valid` ties `leadCaptured` to storage and allows
    at most one chat request in flight, only after capture.
- **`ChatbotApi`** (`chatbot_api.dfy`): the two REST routes of
  `includes/class-chatbot-api.php`.
  - The chat route: argument validation, the history normalisation and the
    mapping of the relay's result to an HTTP answer.
  - The configuration route: status normalisation, avatar fallbacks and
    the quick-reply buttons, built by a loop.
- **`ChatRelay`** (`chat_relay.dfy`): `includes/chatbot-functions.php`.
  - It builds the upstream conversation behind the fixed two-turn setup
    pair and classifies the upstream outcome.
  - It appends to the by-reference history.
  - It also holds the `wph_entries` store, a class `EntryStore` with
    `save_chat_history_to_db` and `save_bot_entry`, and the IP selection
    of `get_user_country`.
- **`PluginAdmin`** (`plugin_admin.dfy`): `wph-chatbot.php`.
  - The enabled switch and the position-to-CSS mapping.
  - The entries list: its columns, their content, the sortable columns and
    the row actions.
  - The meta-box filter over the nested `$wp_meta_boxes` tables, as a class
    with three nested loops.
  - The "Add New" redirect.
- **`EntryDetails`** (`entry_details.dfy`): the "Entry Details" box of
  `templates/admin-entry-details.php`: the avatar fallbacks and the loop
  that renders the stored transcript.
- **`AdminSettings`** (`admin_settings.dfy`): `wph_sanitize_apostrophe` and
  the test that decides on which admin screens the assets load.

The supporting modules are:

- `Php`: PHP values, `empty()`, `trim()`, and ordered arrays with their
  assignment and `unset` semantics.
- `JsText`: JavaScript's `trim()`, the two lead-form regular expressions
  as decision procedures proved equal to their languages, and `parseInt`.
- `HtmlEscape`: the widget's `escapeHtml` and its inverse.
- `Strings`: generic trimming and decimal digits.
- `Wrappers`: `Option`.

WordPress, browser and PHP library functions that the plugin calls but does
not define are parameters of the members that use them. Examples are
`esc_html`, `sanitize_text_field`, `is_email`, `filter_var` and `nl2br`.
Network answers, the clock and the random number are inputs.

Two behaviours of the code are easy to miss, and the model keeps both:

- PHP's `empty()` treats the string `"0"` as empty. So a `last_prompt` of
  `"0"` is refused, a quick-reply option `"0"` gives no button, and an API
  key `"0"` counts as missing.
- `switchToChatMode` shows already-rendered startup buttons again after a
  lead is captured. Its comment at `assets/js/chatbot-scripts.js:339` says
  "not already clicked", but the once-per-session guard at lines 342-345
  is commented out.

The chat route's argument check is WordPress's own
(`WP_REST_Request::has_valid_params`), which is not part of the plugin. As
WordPress does, the model counts a required argument that is absent or
JSON `null` as missing, reports missing arguments before refused ones, and
names the arguments concerned in the message.

## Model

| member | source | states |
|---|---|---|
| AdminSettings.SanitizeApostropheAt | includes/chatbot-admin-settings.php:635-639 | the output has the input's length, every `"` becomes `'`, and every other character stays in its place |
| AdminSettings.NoDoubleQuote | includes/chatbot-admin-settings.php:638 | no `"` survives sanitising |
| AdminSettings.SanitizeApostropheIdempotent | includes/chatbot-admin-settings.php:638 | sanitising twice gives the same result as sanitising once |
| AdminSettings.EnqueueExactly | includes/chatbot-admin-settings.php:73-98 | admin assets load iff there is a screen whose id is one of the plugin pages or whose post type is `wph_entries`; without a screen they never load |
| HtmlEscape.EscapeChar | assets/js/chatbot-scripts.js:826-835 | the five special characters become an entity starting with `&`; every other character is copied alone; no replacement contains `<`, `>`, `"` or `'` |
| HtmlEscape.Escape | assets/js/chatbot-scripts.js:826-835 | the escaped text is at least as long as the input and contains no `<`, `>`, `"` or `'` |
| HtmlEscape.EscapeHtml | assets/js/chatbot-scripts.js:824-836 | a missing argument gives `''`; otherwise the result is the character-by-character escape |
| HtmlEscape.EscapeAppend | assets/js/chatbot-scripts.js:826-835 | escaping works character by character and in order: the escape of `a + b` is the escape of `a` followed by the escape of `b` |
| HtmlEscape.EscapePlain | assets/js/chatbot-scripts.js:826-835 | text without special characters is copied unchanged |
| HtmlEscape.UnescapeEscape | assets/js/chatbot-scripts.js:824-836 | escaping loses nothing: decoding the five entities gives back the original text |
| JsText.EmailMatchesIsLanguage | assets/js/chatbot-scripts.js:244 | the email check accepts exactly the strings of `^[^\s@]+@[^\s@]+\.[^\s@]+$` (both directions) |
| JsText.EmailMatchesInLanguage | assets/js/chatbot-scripts.js:244 | every string the check accepts splits into the three runs the expression describes |
| JsText.EmailLanguageMatches | assets/js/chatbot-scripts.js:244 | every string of the expression's language is accepted by the check |
| JsText.PhoneMatchesIsLanguage | assets/js/chatbot-scripts.js:249 | the phone check accepts exactly the strings of `^[+]?[\d\s-]{7,15}$` |
| JsText.LeadingDigits | assets/js/chatbot-scripts.js:650 | parseInt reads the longest prefix of decimal digits: it is all digits and is followed by no further digit |
| JsText.ParseIntDecimal | assets/js/chatbot-scripts.js:650 | `parseInt(s, 10)` reads back the decimal representation of any natural number |
| Strings.Decimal | assets/js/chatbot-scripts.js:744 | the decimal representation of n is a non-empty digit string without a leading zero whose value is n |
| Php.GetSet | wph-chatbot.php:233-238 | after `$a[k] = v`, key k maps to v and every other key maps to what it did before |
| Php.SetExtends | wph-chatbot.php:233-238 | `$a[k] = v` keeps every existing entry in its position and appends at most the one new key at the end |
| Php.GetUnset | wph-chatbot.php:315-318 | after `unset($a[k])`, key k is absent and every other key maps to what it did before |
| Php.GetSetAll | wph-chatbot.php:233-238 | after a run of assignments, each key holds the last value assigned to it, or what it held before when none was |
| Php.LastAssignedDistinct | wph-chatbot.php:233-238 | when no key is assigned twice, each key ends with the one value assigned to it |
| Php.NotAssigned | wph-chatbot.php:233-238 | a key that no assignment names keeps its old value |
| Php.SetAllExtends | wph-chatbot.php:233-238 | a run of assignments keeps every existing entry in its position and appends only assigned keys, at most one per assignment |
| Php.ValuesOfList | includes/class-chatbot-api.php:70-73 | the values of a JSON list, in order, are the list's items |
| Widget.RoleName | assets/js/chatbot-scripts.js:361 | a turn's role is sent as `'user'` exactly for user turns and as `'model'` otherwise |
| Widget.RequestFor | assets/js/chatbot-scripts.js:531-536 | the request sends the last turn's text as `last_prompt`; the history followed by that last turn is the whole conversation; an empty conversation sends no prompt and no history |
| Widget.OrElse | assets/js/chatbot-scripts.js:553 | JavaScript's `a \|\| b` on an optional string: `a` when it is a non-empty string, else `b` |
| Widget.ReplyText | assets/js/chatbot-scripts.js:543-577 | the model turn for each outcome is never empty: the network text when the fetch threw; the server-communication text for a non-2xx answer that is not JSON; `result \|\| message \|\| fixed text` otherwise |
| Widget.ReplyTextOfSuccess | assets/js/chatbot-scripts.js:561-566 | an answer carrying a non-empty result shows exactly that result, whatever its `success` flag says |
| Widget.LeadProblem | assets/js/chatbot-scripts.js:231-252 | the lead is accepted iff all four trimmed fields are non-empty, the email matches and the phone matches; an empty field always gives the fill-all alert |
| Widget.AcceptedLeadShape | assets/js/chatbot-scripts.js:244-252 | an accepted lead's email and phone are in the languages of the two regular expressions |
| Widget.Toggled | assets/js/chatbot-scripts.js:84-103 | toggling flips the window's visibility, shows the launcher exactly when the window was showing, and sets z-index 9999 when the window is open and 9998 when closed |
| Widget.ToggleTwice | assets/js/chatbot-scripts.js:84-103 | toggling twice restores the window's visibility, and restores the whole display iff it was already in a state the toggle produces |
| Widget.FontSize | assets/js/chatbot-scripts.js:648-654 | a size is applied only when parseInt gives a number strictly between 8 and 30, and it is that number |
| Widget.DefaultFontSizeApplied | assets/js/chatbot-scripts.js:648-654 | the server's fixed font size `'16'` is applied as 16 px |
| Widget.Rendered | assets/js/chatbot-scripts.js:692-696 | one rendered button per configured button, in order, with its prompt and label escaped |
| Widget.RenderedPromptRoundTrip | assets/js/chatbot-scripts.js:694 | the `data-prompt` of the k-th button, once the browser decodes it, is the k-th configured prompt |
| Widget.GenerateLeadId | assets/js/chatbot-scripts.js:742-745 | a generated lead id consists only of decimal digits |
| Widget.GeneratedLeadIdAccepted | assets/js/chatbot-scripts.js:742-745 | once the clock reads at least 10^10 ms, every generated id passes the chat route's `lead_id` check (digits only, more than ten) |
| Widget.ChatWidget.constructor | assets/js/chatbot-scripts.js:63-68 | after page load: `leadCaptured` iff all three stored values are non-empty; the matching screen; empty conversation, configuration request pending, inputs filled from storage; invariant established |
| Widget.ChatWidget.Initialize | assets/js/chatbot-scripts.js:63-68 | the three start-up calls: capture state from storage, content emptied with loading shown, inputs autofilled |
| Widget.ChatWidget.InitializeUIState | assets/js/chatbot-scripts.js:108-146 | `leadCaptured` iff all three stored lead values are non-empty; conversation screen when captured, welcome screen otherwise |
| Widget.ChatWidget.AutofillLeadData | assets/js/chatbot-scripts.js:185-198 | each input takes its stored value when that value is non-empty and is otherwise left as it was |
| Widget.ChatWidget.ToggleChat | assets/js/chatbot-scripts.js:84-103 | only the display changes, to its toggled state; capture and conversation are untouched |
| Widget.ChatWidget.DisplayLeadForm | assets/js/chatbot-scripts.js:152-164 | the lead form shows; nothing else changes |
| Widget.ChatWidget.CloseLeadForm | assets/js/chatbot-scripts.js:169-180 | back to the welcome screen; nothing else changes |
| Widget.ChatWidget.SetSubmitButtonState | assets/js/chatbot-scripts.js:800-817 | the button's disabled state is as asked; a disabled button shows the given text, or 'Sending...' when it is empty; an enabled one shows its icon |
| Widget.ChatWidget.OnFormSubmit | assets/js/chatbot-scripts.js:217-319 | no-op while a request is in flight or the button is disabled. Before capture, the lead is validated: an alert and no request, or one lead request with 'Sending...' (a quick-reply prompt is ignored). After capture, a non-empty trimmed message is sent with the input cleared. The invariant (at most one chat request in flight) is kept |
| Widget.ChatWidget.SubmitLead | assets/js/chatbot-scripts.js:223-265 | an invalid lead gives exactly one alert (the first problem) and no request; a valid one gives exactly one lead request with the trimmed values, page URL and lead id, and disables the button |
| Widget.ChatWidget.SubmitChat | assets/js/chatbot-scripts.js:308-318 | an empty trimmed message changes nothing; otherwise the input is cleared and the message is sent |
| Widget.ChatWidget.SubmitMessageToAI | assets/js/chatbot-scripts.js:357-370 | refused (nothing changes) while fetching or for an empty message; otherwise exactly one user turn is appended and one request is sent whose `last_prompt` is the message and whose history is the previous conversation |
| Widget.ChatWidget.FetchData | assets/js/chatbot-scripts.js:518-537 | the flag is set, the button disabled, and exactly one request for the current conversation is logged |
| Widget.ChatWidget.OnChatReply | assets/js/chatbot-scripts.js:539-584 | every outcome appends exactly one model turn with its reply text, then clears `isFetching` and the typing indicator and re-enables the button; every request is now answered |
| Widget.ChatWidget.SwitchToChatMode | assets/js/chatbot-scripts.js:324-350 | the conversation screen shows; rendered startup buttons are shown again |
| Widget.ChatWidget.OnLeadSaved | assets/js/chatbot-scripts.js:278-306 | the answered lead request leaves the pending list. On success the lead is captured, its three values stored and its query sent as the first message. On a failure payload or an exception the capture, storage and conversation are unchanged, one alert is shown and the button is re-enabled |
| Widget.ChatWidget.LeadNotSaved | assets/js/chatbot-scripts.js:297-306 | one alert appended and the button re-enabled |
| Widget.ChatWidget.LeadSaved | assets/js/chatbot-scripts.js:280-296 | the lead is captured and its values stored; the conversation screen shows; the input is cleared; the query is sent as one user turn with its request, unless a request is already in flight |
| Widget.ChatWidget.FetchBotConfiguration | assets/js/chatbot-scripts.js:589-597 | loading shows, the conversation is emptied and the request is pending |
| Widget.ChatWidget.UpdateChatbotUI | assets/js/chatbot-scripts.js:641-677 | a non-empty title replaces the header; a usable font size is applied; status 1 means Online with input enabled, anything else Offline with input disabled and 'Bot Offline' |
| Widget.ChatWidget.RenderStartupButtons | assets/js/chatbot-scripts.js:683-712 | the buttons are the rendered configured ones; they show iff there are some and the lead is not captured |
| Widget.ChatWidget.OnBotConfiguration | assets/js/chatbot-scripts.js:597-634 | loading hides either way. A failure alerts, shows Error and disables the button and input, leaving the conversation as it was. A success applies the configuration: status, title, font size, the startup message as one model turn, and the buttons before capture |
| Widget.ChatWidget.OnConfigurationFailed | assets/js/chatbot-scripts.js:621-634 | the failure path with its `finally`: one alert, Error status, button and input disabled, loading hidden |
| Widget.ChatWidget.OnConfigurationLoaded | assets/js/chatbot-scripts.js:603-634 | the success path with its `finally`: the configuration applied as in OnBotConfiguration, loading hidden |
| Widget.ChatWidget.FinishConfigurationRequest | assets/js/chatbot-scripts.js:632-634 | the loading indicator hides and the request is no longer pending |
| Widget.ChatWidget.ConfigurationFailed | assets/js/chatbot-scripts.js:621-631 | one alert appended, Error status, button disabled with 'Sending...', message input disabled |
| Widget.ChatWidget.ApplyConfiguration | assets/js/chatbot-scripts.js:603-618 | the configuration is kept and the UI updated from it; its startup message, if any, is appended as one model turn; the startup buttons are rendered only before capture |
| Widget.ChatWidget.OnStartupButtonClick | assets/js/chatbot-scripts.js:718-733 | a click on a button with a non-empty decoded prompt submits that prompt exactly as a form submission would, and hides the buttons; an empty prompt changes nothing |
| Widget.ConfigurationOnLoad | assets/js/chatbot-scripts.js:589-619 | right after page load, an answered configuration leaves the conversation holding only the startup message (if any), with the status the configuration gives |
| ChatbotApi.ArgsError | includes/class-chatbot-api.php:22-46 | a request is accepted iff `last_prompt` is a string that is non-empty after trimming, `lead_id` is a digit string longer than ten, and `conversation_history` is absent, null or an array; the error is `rest_missing_callback_param` exactly when a required argument is absent or null, with "Missing parameter(s): " and their names; otherwise `rest_invalid_param` with "Invalid parameter(s): " and the refused names |
| ChatbotApi.MissingParams | includes/class-chatbot-api.php:22-46 | `last_prompt` and `lead_id` are listed exactly when absent or null |
| ChatbotApi.InvalidParams | includes/class-chatbot-api.php:22-46 | each argument is listed exactly when it is present, not null, and refused by its validate_callback |
| ChatbotApi.NullPromptMissing | includes/class-chatbot-api.php:23-28 | a prompt sent as JSON null is reported as missing (`Missing parameter(s): last_prompt`), not as invalid |
| ChatbotApi.BlankPromptRefused | includes/class-chatbot-api.php:25-27 | a prompt of blanks only, or `"0"` after trimming, is refused |
| ChatbotApi.NormalizeHistory | includes/class-chatbot-api.php:70-73 | a non-array history becomes `[]`; an array keeps one value per entry |
| ChatbotApi.NormalizeHistoryOfList | includes/class-chatbot-api.php:70-73 | a history sent as a JSON list reaches the relay unchanged |
| ChatbotApi.Respond | includes/class-chatbot-api.php:78-90 | a success is a 200 response carrying the result; a failure is a `chatbot_api_error` with the relay's message and fallback result and its status code, or 500 without one |
| ChatbotApi.UpstreamStatus | includes/class-chatbot-api.php:78-90 | end to end: a transport error answers 500, a non-200 upstream answers that code, a 200 answers 200 / 400 / 500 for text / block / neither, and every error carries a non-empty fallback |
| ChatbotApi.HandleChatBotRequest | includes/class-chatbot-api.php:64-91 | a refused request answers 400 with the framework's code and message and never reaches the relay or the store; an empty API key answers 503 and changes no entry; otherwise the answer is the classification of the upstream reply, and on success the store is exactly what saving the setup pair plus the history (as generate_chat_response is written) leaves |
| ChatbotApi.NormalizeBotStatus | includes/class-chatbot-api.php:107-112 | the status is 0 or 1, and 0 exactly for the integer 0 and the string `"0"` |
| ChatbotApi.ButtonPrompts | includes/class-chatbot-api.php:137-140 | one trimmed option value per button option, in order, `''` when unset |
| ChatbotApi.Buttons | includes/class-chatbot-api.php:137-148 | at most one button per prompt; every button's prompt passes `empty()` and its label is the escaped prompt |
| ChatbotApi.ButtonsAppend | includes/class-chatbot-api.php:137-148 | one more option adds its button at the end, or nothing when its text is empty |
| ChatbotApi.ButtonsComplete | includes/class-chatbot-api.php:140-146 | every option that `empty()` does not refuse yields its button |
| ChatbotApi.ButtonSource | includes/class-chatbot-api.php:140-146 | every button's prompt is one of the option values |
| ChatbotApi.ButtonPromptTrimmed | includes/class-chatbot-api.php:140-146 | every button prompt is already trimmed |
| ChatbotApi.ImageUrl | includes/class-chatbot-api.php:119-124 | a missing or empty avatar option falls back to the default image; the URL is escaped either way |
| ChatbotApi.CollectButtons | includes/class-chatbot-api.php:128-148 | the foreach over the five options builds exactly the buttons of their trimmed values, in option order |
| ChatbotApi.LoadConfiguration | includes/class-chatbot-api.php:100-163 | the configuration: status 0 iff the stored switch is 0 or `"0"`, at most five buttons, font size always `'16'` |
| ChatRelay.SetupTurns | includes/chatbot-functions.php:35-46 | the setup is exactly two turns: the system instruction as user, then the fixed acknowledgement as model |
| ChatRelay.Classify | includes/chatbot-functions.php:65-103 | success iff the upstream answered 200 with candidate text, and then the result is that text; a transport error gives 500, a non-200 answer its own code, a blocked prompt 400, anything else 500; every failure has a status and a non-empty fallback |
| ChatRelay.FullHistory | includes/chatbot-functions.php:43-49 | the forwarded contents are the two setup turns followed by the incoming history unchanged |
| ChatRelay.IntendedHistory | includes/chatbot-functions.php:43-52 | the corrected contents: the setup pair, the history, then the latest prompt as the last user turn |
| ChatRelay.FirstEntry | includes/chatbot-functions.php:127-140 | the first published `wph_entries` post with this lead id, if there is one; no earlier post matches; none means no post matches |
| ChatRelay.AfterSaveChatsTouchesOnlyChats | includes/chatbot-functions.php:112-147 | saving a transcript changes at most the first matching entry, and in it only `_chats`; nothing changes for an empty lead id, an encoding failure or no match |
| ChatRelay.FirstListItem | includes/chatbot-functions.php:245-246 | `explode(',')[0]`: the longest comma-free prefix |
| ChatRelay.ClientIp | includes/chatbot-functions.php:240-249 | the address by priority: `HTTP_CLIENT_IP`, else the trimmed first item of `HTTP_X_FORWARDED_FOR`, else `REMOTE_ADDR`, else `''` |
| ChatRelay.ForwardedForFirstItem | includes/chatbot-functions.php:243-246 | an address taken from the forwarded-for list contains no comma |
| ChatRelay.UserCountry | includes/chatbot-functions.php:238-289 | an invalid address gives 'Invalid IP' with no lookup; otherwise the chosen address is looked up |
| ChatRelay.Field | includes/chatbot-functions.php:179-184 | an absent or null field reads as `''`; any other JSON value is cleaned as its PHP string (a number as its decimal text) |
| ChatRelay.NumericFieldRead | includes/chatbot-functions.php:179-184 | a field sent as a JSON number passes `isset` and is sanitised as its decimal text |
| ChatRelay.LeadRejection | includes/chatbot-functions.php:171-196 | an undecodable or non-array body is refused; an accepted body carries name, email, phone and lead id as non-null fields whose cleaned values are non-empty, with a valid email |
| ChatRelay.QueryNotRequired | includes/chatbot-functions.php:188-192 | the query is not a required field: removing it never turns an accepted lead into a refused one |
| ChatRelay.LeadMeta | includes/chatbot-functions.php:211-219 | a new entry stores exactly the eight meta keys, with `_chats` initialised to `''` and `_lead_id` set |
| ChatRelay.EntryStore.constructor | wph-chatbot.php:151-199 | the registered `wph_entries` post type starts with no posts, and post ids start at 1 |
| ChatRelay.EntryStore.SaveChatHistory | includes/chatbot-functions.php:112-147 | the posts become those described by AfterSaveChats (only `_chats` of the first match changes) |
| ChatRelay.EntryStore.SaveBotEntry | includes/chatbot-functions.php:169-226 | a refused body answers 400 and inserts nothing; an insert error answers 500 and inserts nothing; otherwise exactly one published entry titled with the name and holding the lead meta is added, and the answer carries its id |
| ChatRelay.GenerateChatResponse | includes/chatbot-functions.php:15-104 | as written. An empty key gives 503 with no upstream call. Otherwise one request with the key and the setup-plus-history contents. On success exactly one model turn is appended to the by-reference history and the transcript is saved without the reply |
| ChatRelay.GenerateChatResponseIntended | includes/chatbot-functions.php:15-104 | corrected: the prompt is forwarded as the last user turn, and the saved transcript holds the prompt and the reply |
| ChatRelay.LatestPromptNotForwarded | includes/chatbot-functions.php:43-52 | for a concrete history and prompt, the forwarded contents do not contain the prompt |
| ChatRelay.IntendedForwardsPrompt | includes/chatbot-functions.php:43-52 | the corrected contents end with the prompt and begin with the same setup pair |
| PluginAdmin.DisabledValues | wph-chatbot.php:44-55 | the chatbot is off iff the switch is `'0'`, `0`, `''` or null (the empty scalars other than false); an unset switch is on |
| PluginAdmin.EnabledAgreesWithStatus | wph-chatbot.php:44-55 | whenever the widget is shown, the configuration route reports status 1; the two disagree exactly for `''` and null |
| PluginAdmin.DynamicCss | wph-chatbot.php:64-113 | CSS is printed iff the position is bottom-left (93%/71%, mobile 75%/71%) or bottom-right (3%/3%, no mobile values), with the escaped theme colour |
| PluginAdmin.DefaultCss | wph-chatbot.php:66-69 | with neither option set, the widget sits bottom right in `#00665E` |
| PluginAdmin.ColumnLabelsDistinct | wph-chatbot.php:232-274 | neither filter assigns a column twice |
| PluginAdmin.CustomColumnsLabels | wph-chatbot.php:232-240 | each of the six columns carries its label afterwards |
| PluginAdmin.CustomColumnsKeepOthers | wph-chatbot.php:232-240 | every other column keeps its label, or stays absent |
| PluginAdmin.CustomColumnsPositions | wph-chatbot.php:232-240 | the existing columns keep their positions, and at most the six new keys follow them |
| PluginAdmin.SortableColumnsLabels | wph-chatbot.php:269-274 | name, email and phone sort by their own keys |
| PluginAdmin.SortableColumnsKeepOthers | wph-chatbot.php:269-274 | every other sortable entry is kept |
| PluginAdmin.SortableColumnsPositions | wph-chatbot.php:269-274 | the existing entries keep their positions, and at most the three new keys follow them |
| PluginAdmin.ColumnContent | wph-chatbot.php:244-265 | a column prints something iff it is one of the six, and then it prints its own meta field (`_` + column) escaped |
| PluginAdmin.ColumnsShowSavedLead | wph-chatbot.php:244-265 | the list shows, column by column, the values the lead-saving action stored |
| PluginAdmin.RowActions | wph-chatbot.php:312-330 | for entries, the actions before the last two are exactly the original actions without the four defaults, in their original order, followed by View (to the edit link) then Trash; other post types are untouched |
| PluginAdmin.AppendViewTrash | wph-chatbot.php:322-327 | once view and trash are removed, the two assignments append View then Trash at the end |
| PluginAdmin.RemoveDefaultActions | wph-chatbot.php:315-318 | the result is the original actions without the four defaults, in their original order; every other action keeps its value |
| PluginAdmin.UnsetAction | wph-chatbot.php:315-318 | one unset removes its key and leaves every other key's value |
| Php.UnsetDrop | wph-chatbot.php:315-318 | one more `unset` after a run of them keeps exactly the entries whose key is none of the unset keys, in order |
| Php.UnsetFour | wph-chatbot.php:315-318 | four unsets in a row leave the entries whose key is none of the four, in their original order |
| PluginAdmin.KeepAllowed | wph-chatbot.php:215-219 | a box table keeps only the plugin's own box, unchanged |
| PluginAdmin.PrunedKeepsOnlyAllowed | wph-chatbot.php:204-224 | afterwards every context and priority of the entry screen holds at most the plugin's own box, which keeps its registration; other post types are untouched and no context or priority disappears |
| PluginAdmin.PrunedIdempotent | wph-chatbot.php:204-224 | running the filter twice gives the same result as running it once |
| PluginAdmin.MetaBoxRegistry.constructor | wph-chatbot.php:205 | the registry holds the given tables |
| PluginAdmin.MetaBoxRegistry.RemoveAllExceptCustom | wph-chatbot.php:204-224 | the three nested loops leave the registry exactly as Pruned describes |
| PluginAdmin.MetaBoxRegistry.PruneContext | wph-chatbot.php:213-222 | the middle loop prunes every priority of one context |
| PluginAdmin.MetaBoxRegistry.PrunePriority | wph-chatbot.php:214-221 | the innermost loop unsets every box but the plugin's own in one priority |
| PluginAdmin.AddNewRedirect | wph-chatbot.php:277-284 | the redirect fires iff the page is `post-new.php` for post type `wph_entries`, and then goes to the entries list |
| EntryDetails.AvatarUrl | templates/admin-entry-details.php:29-36 | a missing or empty avatar option falls back to the default image |
| EntryDetails.AvatarMatchesWidget | templates/admin-entry-details.php:29-36 | the admin page shows the same avatar URL the configuration route sends to the widget |
| EntryDetails.Field | templates/admin-entry-details.php:145 | `isset` holds only for an array holding the key with a non-null value |
| EntryDetails.TurnValueBubble | templates/admin-entry-details.php:145-170 | a turn as the relay stores it renders as a user bubble for 'user', a bot bubble for 'model' and nothing for any other role |
| EntryDetails.Bubbles | templates/admin-entry-details.php:143-173 | a list of turns yields at most one bubble per turn |
| EntryDetails.BubblesConcat | templates/admin-entry-details.php:143-173 | rendering keeps order: the bubbles of two runs of turns are the bubbles of the first followed by those of the second |
| EntryDetails.IndexedBubbles | templates/admin-entry-details.php:142-144 | for a decoded JSON list, the loop shows exactly the bubbles of the turns after the first two |
| EntryDetails.ListBubbles | templates/admin-entry-details.php:142-144 | the same for any list of stored turns |
| EntryDetails.DecodedChats | templates/admin-entry-details.php:24-25 | the decoded chats are an array exactly when an array is stored |
| EntryDetails.RenderChatHistory | templates/admin-entry-details.php:127-177 | the placeholder iff the decoded chats are not a non-empty array; otherwise the avatars, the escaped initial query and, in order, one bubble per entry that is neither skipped nor malformed |
| EntryDetails.NewEntryShowsNoHistory | templates/admin-entry-details.php:127 | a freshly saved lead, whose `_chats` is `''`, shows the placeholder |
| EntryDetails.StoredTranscriptShowsHistory | includes/chatbot-functions.php:88-91 | as written: the page shows a saved transcript as the incoming history only, without the latest prompt or the reply |
| EntryDetails.IntendedTranscriptShowsExchange | includes/chatbot-functions.php:88-91 | corrected: the page shows the history followed by the prompt as a user bubble and the reply as a bot bubble |
| EntryDetails.ExchangeShown | templates/admin-entry-details.php:141-173 | any stored list whose turns after the first two are a history, a user prompt and a model reply shows exactly those, in order |
| EntryDetails.ExchangeBubbles | templates/admin-entry-details.php:149-170 | a prompt and its reply render as a user bubble followed by a bot bubble |

## Left out

- Markup and the DOM are not modelled. This covers the chat bubbles and the typing indicator's HTML, the links rewritten in messages, the copy buttons, scroll and focus, the floating labels, and the markup of the entry card. Where markup matters, the model keeps its state: the screen shown, the status line, the rendered startup buttons, the typing flag, a log of alerts, and bubbles as values.
- Timers, the alert popup's animation and the clipboard (`lwhOpenCbotcopyText`) are not modelled. `showCustomAlert` is an appended alert text.
- The guards for missing page elements are not modelled: every element the controller uses is assumed present. The undeclared `chatShowDiv` and `conversationTranscript`, and the block-scoped element constants that the top-level functions cannot see, are modelled as the evidently intended code. The transcript array `conversationTranscript` is omitted.
- Widget.ChatWidget.OnConfigurationFailed: the `finally` (hide loading, end the request) runs before the `catch` body. The two touch disjoint state, so the final state is the same.
- Widget.ChatWidget.OnConfigurationLoaded: the `finally` runs before the body of the `try`, for the same reason.
- Widget.ChatWidget.OnStartupButtonClick: the buttons are hidden before the submission rather than after. The submission neither reads nor writes their visibility.
- Widget.ChatWidget.LeadSaved: the message input is cleared together with the capture rather than after `switchToChatMode`, which does not touch it.
- localStorage is a map over the three lead keys only. `fetch`, `wp_remote_post`/`wp_remote_get`, `wp_insert_post`, `get_posts` and `update_post_meta` are modelled as abstract outcome inputs or as the `EntryStore` class.
- The WordPress and PHP library functions `esc_html`, `esc_attr`, `esc_url`, `esc_url_raw`, `esc_textarea`, `nl2br`, `sanitize_*`, `is_email`, `filter_var` and `admin_url` are uninterpreted parameters. `json_encode` is the identity on decoded values, and its failure is a boolean input.
- Widget.GenerateLeadId: the clock reading and the random number are inputs. The `Math.floor(Math.random() * 10000)` bound is not checked.
- ChatbotApi.Respond: the JSON envelope WordPress builds for a `WP_Error` is not modelled. So the model does not claim that the widget's `errorData.result` finds the server's fallback text. The widget reads an abstract error record.
- Widget.ReplyText: JSON bodies whose `result` or `message` are not strings are not modelled.
- ChatRelay.UserCountry: the country lookup's answer is an abstract input. Only the address selection and the error strings are modelled, and the address's validity is an uninterpreted predicate.
- `Php.Value` has no floats or objects. An array converts to `''` where the source would pass it to `trim()` or `esc_*()`. That includes `wph_sanitize_apostrophe` on array input, which `str_replace` would map element by element.
- ChatbotApi.NormalizeHistory: a `conversation_history` sent as a JSON object has string keys. The source passes them through `array_merge` into the upstream request and into the saved `_chats`. The model keeps only the values, in order, so the relay and the store always see a list.
- EntryDetails.DecodedChats: the relay's JSON is kept decoded. A stored array with string keys is rendered as if no such key were skipped. PHP compares a string key with 2 by its numeric prefix under PHP 7 and as text under PHP 8, so `Skipped` follows neither for such keys. The plugin declares `Requires PHP: 7.2`. Stored non-array JSON, such as a string or a number, is not modelled.
- ChatRelay.EntryStore.SaveBotEntry: a field sent as a JSON array reads as `''` before sanitising. WordPress's sanitisers are parameters, so what `sanitize_text_field` does with an array is not modelled.
- PluginAdmin.RowActions: the trash link is a parameter. `get_delete_post_link($post_id)` uses a variable that is undefined in the function.
- PluginAdmin.CustomColumns, PluginAdmin.SortableColumns and PluginAdmin.RowActions: these arrays arrive by value and are returned, so they are modelled as functions or out-parameters over ordered key/value sequences.
- PluginAdmin.MetaBoxRegistry.RemoveAllExceptCustom: meta-box tables are maps, so the loops visit keys in an arbitrary order. The result does not depend on that order.
- AdminSettings.EnqueueExactly: `in_array`'s loose comparison is string equality here, because none of the listed ids is numeric.
- `remove_add_new_button_for_wph_entries` and `remove_wph_add_new` are not modelled. They only remove a toolbar action or print CSS. The same goes for `add_inline_css_to_post_editor_wph`, the post-type registration, and the hook and route registration.

## Findings

| source | as written | input that shows it | evidently intended | confidence | as-written member | corrected member |
|---|---|---|---|---|---|---|
| includes/chatbot-functions.php:43-52 | the upstream `contents` are the setup pair plus the incoming history; `$last_prompt` is never sent, so the model never sees the visitor's latest message | history `[{role: model, text: "Hi"}]`, prompt "What are your hours?": the forwarded contents are three turns, none of them the prompt | the prompt appended as the last user turn | not executed | ChatRelay.LatestPromptNotForwarded | ChatRelay.IntendedForwardsPrompt |
| includes/chatbot-functions.php:88-91 | the reply is appended to `$chat_history`, but `$full_history` was built before, so the saved transcript has neither the prompt nor the reply | any successful exchange: the entry page shows only the earlier history | the saved transcript ends with the prompt and the reply | not executed | EntryDetails.StoredTranscriptShowsHistory | EntryDetails.IntendedTranscriptShowsExchange |
