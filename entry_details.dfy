/**
 * The "Entry Details" box of a `wph_entries` post: the avatar fallbacks and
 * the chat history, rendered from the `_chats` meta the relay stores.
 */
module EntryDetails {
  import opened Wrappers
  import opened Php
  import ChatbotApi
  import ChatRelay
  import PluginAdmin

  // ---------------------------------------------------------------------
  // Avatars
  // ---------------------------------------------------------------------

  /** get_option(name, default), replaced by the default again when the stored value is empty(). */
  function AvatarUrl(options: map<string, Value>, name: string, default: string): (r: string)
    ensures name !in options || Empty(options[name]) ==> r == default
    ensures name in options && !Empty(options[name]) ==> r == ToStr(options[name])
  {
    var v := GetOption(options, name, Str(default));
    if Empty(v) then default else ToStr(v)
  }

  /** The admin page shows the same avatar the configuration route sends to the widget. */
  lemma AvatarMatchesWidget(options: map<string, Value>, name: string, default: string, escUrl: string -> string)
    ensures escUrl(AvatarUrl(options, name, default)) == ChatbotApi.ImageUrl(options, name, default, escUrl)
  {
  }

  // ---------------------------------------------------------------------
  // One stored turn
  // ---------------------------------------------------------------------

  /** A chat bubble: its text, escaped and with line breaks turned into `<br />`. */
  datatype Bubble = UserBubble(html: string) | BotBubble(html: string)

  /** `isset($v[$key])`: v is an array holding key with a non-null value. */
  function Field(v: Value, key: string): (r: Option<Value>)
    ensures r.Some? ==> v.Arr? && r.value != Null
  {
    if !v.Arr? then None
    else match Get(v.entries, StrKey(key))
      case Some(x) => if x == Null then None else Some(x)
      case None => None
  }

  /**
   * The bubble one stored turn becomes: none when `role` or `parts.text` is
   * missing, a user bubble for 'user', a bot bubble for 'model', none for
   * any other role.
   */
  function TurnBubble(turn: Value, escHtml: string -> string, nl2br: string -> string): (r: Option<Bubble>)
  {
    var role := Field(turn, "role");
    var parts := Field(turn, "parts");
    var text := if parts.Some? then Field(parts.value, "text") else None;
    if role.None? || text.None? then None
    else
      var html := nl2br(escHtml(ToStr(text.value)));
      if role.value == Str("user") then Some(UserBubble(html))
      else if role.value == Str("model") then Some(BotBubble(html))
      else None
  }

  /** The page's renderer: TurnBubble with the host's escaping and line-break functions. */
  function Renderer(escHtml: string -> string, nl2br: string -> string): Value -> Option<Bubble> {
    turn => TurnBubble(turn, escHtml, nl2br)
  }

  function AsSeq(b: Option<Bubble>): (r: seq<Bubble>)
    ensures |r| <= 1
  {
    if b.Some? then [b.value] else []
  }

  /** A turn as the relay stores it renders as the bubble of its role. */
  lemma TurnValueBubble(role: string, text: string, escHtml: string -> string, nl2br: string -> string)
    ensures TurnBubble(ChatRelay.TurnValue(role, text), escHtml, nl2br)
      == if role == "user" then Some(UserBubble(nl2br(escHtml(text))))
         else if role == "model" then Some(BotBubble(nl2br(escHtml(text))))
         else None
  {
    var t := ChatRelay.TurnValue(role, text);
    assert Get(t.entries, StrKey("role")) == Some(Str(role));
    assert Get(t.entries, StrKey("parts")) == Some(Arr([(StrKey("text"), Str(text))]));
    assert Get([(StrKey("text"), Str(text))], StrKey("text")) == Some(Str(text));
  }

  // ---------------------------------------------------------------------
  // The transcript
  // ---------------------------------------------------------------------

  /** The bubbles of a list of turns, in order: the reference the page is compared with. */
  function Bubbles(turns: seq<Value>, render: Value -> Option<Bubble>): (r: seq<Bubble>)
    ensures |r| <= |turns|
  {
    if turns == [] then [] else AsSeq(render(turns[0])) + Bubbles(turns[1..], render)
  }

  /** Rendering keeps order: the bubbles of two runs of turns are the two runs of bubbles. */
  lemma {:induction false} BubblesConcat(a: seq<Value>, b: seq<Value>, render: Value -> Option<Bubble>)
    ensures Bubbles(a + b, render) == Bubbles(a, render) + Bubbles(b, render)
  {
    if a == [] {
      assert a + b == b;
    } else {
      assert (a + b)[0] == a[0] && (a + b)[1..] == a[1..] + b;
      BubblesConcat(a[1..], b, render);
    }
  }

  /** How many turns the page skips: the setup pair (instruction and acknowledgement). */
  const SkippedTurns := 2

  /**
   * `$index < $messages_to_skip` for an integer key. A string key is taken
   * as never skipped; PHP compares such a key with 2 by its numeric prefix
   * (PHP 7) or as text against "2" (PHP 8), which this model leaves out.
   */
  predicate Skipped(key: Key) {
    key.IntKey? && key.n < SkippedTurns
  }

  /** What the foreach prints for the decoded entries: skipped keys and malformed turns print nothing. */
  function EntryBubbles(entries: seq<(Key, Value)>, render: Value -> Option<Bubble>): (r: seq<Bubble>)
  {
    if entries == [] then []
    else
      var e := entries[|entries| - 1];
      EntryBubbles(entries[..|entries| - 1], render) + (if Skipped(e.0) then [] else AsSeq(render(e.1)))
  }

  lemma BubblesSnoc(a: seq<Value>, x: Value, render: Value -> Option<Bubble>)
    ensures Bubbles(a + [x], render) == Bubbles(a, render) + AsSeq(render(x))
  {
    BubblesConcat(a, [x], render);
    assert [x][1..] == [];
  }

  /** es holds the items under the keys 0, 1, ..., in order: what json_decode gives for a JSON list. */
  predicate Indexed(es: seq<(Key, Value)>, items: seq<Value>) {
    |es| == |items| && forall i :: 0 <= i < |es| ==> es[i] == (IntKey(i), items[i])
  }

  /** For a list, the page shows exactly the bubbles of the turns after the first two. */
  lemma {:induction false} IndexedBubbles(es: seq<(Key, Value)>, items: seq<Value>, render: Value -> Option<Bubble>)
    requires Indexed(es, items)
    ensures EntryBubbles(es, render)
      == if |items| <= SkippedTurns then [] else Bubbles(items[SkippedTurns..], render)
  {
    if items != [] {
      var n := |items| - 1;
      var init := items[..n];
      IndexedPrefix(es, items, n);
      IndexedBubbles(es[..n], init, render);
      var shown := if Skipped(es[n].0) then [] else AsSeq(render(items[n]));
      assert EntryBubbles(es, render) == EntryBubbles(es[..n], render) + shown;
      if n == SkippedTurns {
        assert items[SkippedTurns..] == [] + [items[n]];
        BubblesSnoc([], items[n], render);
      } else if n > SkippedTurns {
        assert items[SkippedTurns..] == init[SkippedTurns..] + [items[n]];
        BubblesSnoc(init[SkippedTurns..], items[n], render);
      }
    }
  }

  lemma IndexedPrefix(es: seq<(Key, Value)>, items: seq<Value>, n: nat)
    requires Indexed(es, items) && n < |es|
    ensures Indexed(es[..n], items[..n]) && es[n] == (IntKey(n), items[n])
  {
  }

  lemma ListBubbles(items: seq<Value>, render: Value -> Option<Bubble>)
    ensures EntryBubbles(List(items).entries, render)
      == if |items| <= SkippedTurns then [] else Bubbles(items[SkippedTurns..], render)
  {
    IndexedBubbles(List(items).entries, items, render);
  }

  /** The page's view of the chat history. */
  datatype ChatHistory =
    | NoHistory   // "No chat history available after the initial query."
    | History(userAvatar: string, botAvatar: string, initialQuery: string, turns: seq<Bubble>)

  /**
   * `json_decode(get_post_meta($id, '_chats', true), true)`. The relay's
   * JSON is kept decoded here, so a stored array is itself; the '' written
   * at creation, like a missing field, decodes to null.
   */
  function DecodedChats(meta: map<string, Value>): (r: Value)
    ensures r.Arr? <==> "_chats" in meta && meta["_chats"].Arr?
  {
    if "_chats" in meta && meta["_chats"].Arr? then meta["_chats"] else Null
  }

  /**
   * The chat-history card of wph_entries_meta_box_callback: the placeholder
   * unless the decoded chats are a non-empty array; otherwise the avatars,
   * the initial query and one bubble per entry the loop does not skip.
   */
  method RenderChatHistory(meta: map<string, Value>, options: map<string, Value>, pluginUrl: string,
                           escHtml: string -> string, escUrl: string -> string, nl2br: string -> string)
    returns (view: ChatHistory)
    ensures var chats := DecodedChats(meta);
      && (view.NoHistory? <==> !chats.Arr? || chats.entries == [])
      && (view.History? ==> view == History(
            escUrl(AvatarUrl(options, "wph_user_image", pluginUrl + "assets/images/user-avatar.png")),
            escUrl(AvatarUrl(options, "wph_bot_image", pluginUrl + "assets/images/bot-logo.png")),
            nl2br(escHtml(PluginAdmin.MetaString(meta, "_query"))),
            EntryBubbles(chats.entries, Renderer(escHtml, nl2br))))
  {
    var chats := DecodedChats(meta);
    if !chats.Arr? || chats.entries == [] {
      return NoHistory;
    }
    var entries := chats.entries;
    var turns: seq<Bubble> := [];
    var i := 0;
    while i < |entries|
      invariant 0 <= i <= |entries|
      invariant turns == EntryBubbles(entries[..i], Renderer(escHtml, nl2br))
    {
      var (index, chat) := entries[i];
      assert entries[..i + 1][..i] == entries[..i];
      if !Skipped(index) {
        var bubble := TurnBubble(chat, escHtml, nl2br);
        if bubble.Some? {
          turns := turns + [bubble.value];
        }
      }
      i := i + 1;
    }
    assert entries[..i] == entries;
    view := History(
      escUrl(AvatarUrl(options, "wph_user_image", pluginUrl + "assets/images/user-avatar.png")),
      escUrl(AvatarUrl(options, "wph_bot_image", pluginUrl + "assets/images/bot-logo.png")),
      nl2br(escHtml(PluginAdmin.MetaString(meta, "_query"))),
      turns);
  }

  // ---------------------------------------------------------------------
  // What the relay's transcripts look like on this page
  // ---------------------------------------------------------------------

  /** A new entry (save_bot_entry stores `_chats` as '') shows the placeholder. */
  lemma NewEntryShowsNoHistory(f: ChatRelay.LeadFields, country: string)
    ensures !DecodedChats(ChatRelay.LeadMeta(f, country)).Arr?
  {
  }

  /**
   * The transcript generate_chat_response stores is the setup pair and the
   * incoming history; the page drops exactly the setup pair, so it shows the
   * incoming history and neither the latest prompt nor the reply.
   */
  lemma StoredTranscriptShowsHistory(options: map<string, Value>, history: seq<Value>, wp: ChatRelay.WpFunctions,
                                     nl2br: string -> string)
    ensures EntryBubbles(List(ChatRelay.FullHistory(options, history, wp)).entries, Renderer(wp.escHtml, nl2br))
      == Bubbles(history, Renderer(wp.escHtml, nl2br))
  {
    var full := ChatRelay.FullHistory(options, history, wp);
    ListBubbles(full, Renderer(wp.escHtml, nl2br));
    if |full| == SkippedTurns {
      assert history == [];
    }
  }

  /**
   * The transcript the corrected relay stores (setup pair, history, prompt,
   * reply) shows the history followed by the prompt and the reply.
   */
  lemma IntendedTranscriptShowsExchange(options: map<string, Value>, history: seq<Value>, prompt: string, reply: string,
                                        wp: ChatRelay.WpFunctions, nl2br: string -> string)
    ensures EntryBubbles(List(ChatRelay.IntendedHistory(options, history, prompt, wp) + [ChatRelay.TurnValue("model", reply)]).entries,
                         Renderer(wp.escHtml, nl2br))
      == Bubbles(history, Renderer(wp.escHtml, nl2br)) + [UserBubble(nl2br(wp.escHtml(prompt))), BotBubble(nl2br(wp.escHtml(reply)))]
  {
    var intended := ChatRelay.IntendedHistory(options, history, prompt, wp);
    var stored := intended + [ChatRelay.TurnValue("model", reply)];
    assert stored[SkippedTurns..] == history + [ChatRelay.TurnValue("user", prompt), ChatRelay.TurnValue("model", reply)] by {
      assert intended[SkippedTurns..] == intended[SkippedTurns..|intended| - 1] + [intended[|intended| - 1]];
    }
    ExchangeShown(stored, history, prompt, reply, wp.escHtml, nl2br);
  }

  /** Any list whose turns after the first two are the history, a user prompt and a model reply. */
  lemma ExchangeShown(stored: seq<Value>, history: seq<Value>, prompt: string, reply: string,
                      escHtml: string -> string, nl2br: string -> string)
    requires |stored| > SkippedTurns
    requires stored[SkippedTurns..] == history + [ChatRelay.TurnValue("user", prompt), ChatRelay.TurnValue("model", reply)]
    ensures EntryBubbles(List(stored).entries, Renderer(escHtml, nl2br))
      == Bubbles(history, Renderer(escHtml, nl2br)) + [UserBubble(nl2br(escHtml(prompt))), BotBubble(nl2br(escHtml(reply)))]
  {
    var render := Renderer(escHtml, nl2br);
    var exchange := [ChatRelay.TurnValue("user", prompt), ChatRelay.TurnValue("model", reply)];
    ListBubbles(stored, render);
    BubblesConcat(history, exchange, render);
    ExchangeBubbles(prompt, reply, escHtml, nl2br);
  }

  /** A prompt and its reply, as the relay stores them, render as a user bubble then a bot bubble. */
  lemma ExchangeBubbles(prompt: string, reply: string, escHtml: string -> string, nl2br: string -> string)
    ensures Bubbles([ChatRelay.TurnValue("user", prompt), ChatRelay.TurnValue("model", reply)], Renderer(escHtml, nl2br))
      == [UserBubble(nl2br(escHtml(prompt))), BotBubble(nl2br(escHtml(reply)))]
  {
    var render := Renderer(escHtml, nl2br);
    var user, model := ChatRelay.TurnValue("user", prompt), ChatRelay.TurnValue("model", reply);
    BubblesSnoc([user], model, render);
    assert [user] + [model] == [user, model];
    TurnValueBubble("user", prompt, escHtml, nl2br);
    TurnValueBubble("model", reply, escHtml, nl2br);
  }
}
