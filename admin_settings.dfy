/**
 * Two helpers of the settings screens: the sanitiser registered for the
 * text settings and the test that decides on which admin screens the
 * plugin's styles and scripts are loaded.
 */
module AdminSettings {
  import opened Wrappers
  import ChatRelay

  // ---------------------------------------------------------------------
  // wph_sanitize_apostrophe
  // ---------------------------------------------------------------------

  /** `str_replace('"', "'", $input)`: every double quote becomes an apostrophe. */
  function SanitizeApostrophe(s: string): string {
    if s == [] then [] else [if s[0] == '"' then '\'' else s[0]] + SanitizeApostrophe(s[1..])
  }

  /** Character by character: a double quote becomes an apostrophe, everything else stays where it is. */
  lemma {:induction false} SanitizeApostropheAt(s: string)
    ensures |SanitizeApostrophe(s)| == |s|
    ensures forall i :: 0 <= i < |s| ==> SanitizeApostrophe(s)[i] == if s[i] == '"' then '\'' else s[i]
  {
    if s != [] {
      SanitizeApostropheAt(s[1..]);
      assert forall i :: 1 <= i < |s| ==> s[i] == s[1..][i - 1];
    }
  }

  /** No double quote survives. */
  lemma NoDoubleQuote(s: string)
    ensures '"' !in SanitizeApostrophe(s)
  {
    SanitizeApostropheAt(s);
  }

  /** Sanitising a sanitised value changes nothing. */
  lemma {:induction false} SanitizeApostropheIdempotent(s: string)
    ensures SanitizeApostrophe(SanitizeApostrophe(s)) == SanitizeApostrophe(s)
  {
    if s != [] {
      SanitizeApostropheIdempotent(s[1..]);
    }
  }

  // ---------------------------------------------------------------------
  // The screens wph_chatbot_admin_enqueue_assets loads its assets on
  // ---------------------------------------------------------------------

  /** What get_current_screen() reports: the screen id and its post type ('' when none). */
  datatype Screen = Screen(id: string, postType: string)

  /** `$plugin_pages`, in the order written (the dashboard page appears twice). */
  const PluginPages := [
    "toplevel_page_wph-chatbot",
    "shuriken-ai-chatbot_page_wph-chatbot-settings",
    "shuriken-ai-chatbot_page_wph-chatbot-train",
    "edit.php",
    "post.php",
    "toplevel_page_wph-chatbot",
    "wph-chatbot_page_wph-chatbot-settings",
    "wph-chatbot_page_wph-chatbot-train"]

  /**
   * `$is_plugin_page || $is_cpt_page`: the hook is the screen id, or '' when
   * there is no screen. None of the listed ids is numeric, so in_array's
   * loose comparison is plain string equality here.
   */
  predicate ShouldEnqueueAssets(screen: Option<Screen>) {
    var currentHook := if screen.Some? then screen.value.id else "";
    currentHook in PluginPages || (screen.Some? && screen.value.postType == ChatRelay.EntriesType)
  }

  /**
   * The assets load exactly on a listed screen or on a screen of the
   * entries post type; without a screen they never load.
   */
  lemma EnqueueExactly(screen: Option<Screen>)
    ensures ShouldEnqueueAssets(screen)
      <==> screen.Some? && (screen.value.id in PluginPages || screen.value.postType == ChatRelay.EntriesType)
    ensures screen.None? ==> !ShouldEnqueueAssets(screen)
  {
    assert forall k :: 0 <= k < |PluginPages| ==> |PluginPages[k]| > 0;
  }
}
