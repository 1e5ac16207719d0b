/**
 * The plugin's main file: the enabled switch, the position-dependent CSS
 * variables, the admin list of `wph_entries` (its columns, their content,
 * the sortable columns and the row actions), the meta-box filter of the
 * entry screen and the redirect away from "Add New".
 */
module PluginAdmin {
  import opened Wrappers
  import opened Php
  import ChatbotApi
  import ChatRelay

  // ---------------------------------------------------------------------
  // wph_is_chatbot_enabled
  // ---------------------------------------------------------------------

  /** The stored switch; a missing option reads as the integer 1. */
  function EnabledOption(options: map<string, Value>): Value {
    GetOption(options, "wph_chatbot_enabled", Int(1))
  }

  /** Strict comparisons: off for '0', 0, '' and null, on for every other value. */
  predicate IsChatbotEnabled(options: map<string, Value>) {
    var v := EnabledOption(options);
    !(v == Str("0") || v == Int(0) || v == Str("") || v == Null)
  }

  /**
   * The switch is off exactly for the empty() scalars other than false: the
   * boolean false and the empty array, both empty() in PHP, still leave the
   * widget on.
   */
  lemma DisabledValues(options: map<string, Value>)
    ensures !IsChatbotEnabled(options) <==> (var v := EnabledOption(options); Empty(v) && !v.Bool? && !v.Arr?)
    ensures "wph_chatbot_enabled" !in options ==> IsChatbotEnabled(options)
  {
  }

  /**
   * Whenever the footer shows the widget, the configuration route reports
   * the bot as on; the converse fails for '' and null, which hide the widget
   * while the route still reports status 1.
   */
  lemma EnabledAgreesWithStatus(options: map<string, Value>)
    ensures IsChatbotEnabled(options) ==> ChatbotApi.NormalizeBotStatus(EnabledOption(options)) == 1
    ensures !IsChatbotEnabled(options) && ChatbotApi.NormalizeBotStatus(EnabledOption(options)) == 1
      <==> EnabledOption(options) in {Str(""), Null}
  {
  }

  // ---------------------------------------------------------------------
  // wph_chatbot_dynamic_css
  // ---------------------------------------------------------------------

  /** The CSS custom properties the style block sets; `mobile` is the pair inside the 768px media query. */
  datatype CssVars = CssVars(imageRight: string, chatRight: string, themeColor: string, mobile: Option<(string, string)>)

  const DefaultPosition := "bottom-right"
  const DefaultThemeColor := "#00665E"

  function ThemeColor(options: map<string, Value>): string {
    ToStr(GetOption(options, "wph_chatbot_theme_color", Str(DefaultThemeColor)))
  }

  /** The variables printed into the page head; None when nothing is printed. */
  function DynamicCss(options: map<string, Value>, escAttr: string -> string): (r: Option<CssVars>)
    ensures var position := GetOption(options, "wph_chatbot_position", Str(DefaultPosition));
      && (r.Some? <==> position == Str("bottom-left") || position == Str("bottom-right"))
      && (position == Str("bottom-left") ==> r == Some(CssVars("93%", "71%", escAttr(ThemeColor(options)), Some(("75%", "71%")))))
      && (position == Str("bottom-right") ==> r == Some(CssVars("3%", "3%", escAttr(ThemeColor(options)), None)))
  {
    var position := GetOption(options, "wph_chatbot_position", Str(DefaultPosition));
    var color := escAttr(ThemeColor(options));
    if position == Str("bottom-left") then Some(CssVars("93%", "71%", color, Some(("75%", "71%"))))
    else if position == Str("bottom-right") then Some(CssVars("3%", "3%", color, None))
    else None
  }

  /** With neither option set, the widget sits bottom right in the teal theme colour. */
  lemma DefaultCss(options: map<string, Value>, escAttr: string -> string)
    requires "wph_chatbot_position" !in options && "wph_chatbot_theme_color" !in options
    ensures DynamicCss(options, escAttr) == Some(CssVars("3%", "3%", escAttr("#00665E"), None))
  {
  }

  // ---------------------------------------------------------------------
  // The entries list: columns, their content, sortable columns
  // ---------------------------------------------------------------------

  /** The custom columns and the sortable ones. */
  const ColumnKeys := {"name", "email", "phone", "query", "current_page_url", "user_country"}
  const SortableKeys := {"name", "email", "phone"}

  /** The six assignments of wph_entries_custom_columns, in the order written. */
  const ColumnLabels := [("name", "Name"), ("email", "Email"), ("phone", "Phone"), ("query", "Query"),
                         ("current_page_url", "Current Page URL"), ("user_country", "User Country")]

  /** The three assignments of wph_entries_sortable_columns. */
  const SortableLabels := [("name", "name"), ("email", "email"), ("phone", "phone")]

  /** wph_entries_custom_columns: `$columns` arrives by value and the six assignments are applied in order. */
  function CustomColumns(columns: seq<(string, string)>): seq<(string, string)> {
    SetAll(columns, ColumnLabels)
  }

  /** Each of the six columns carries its label afterwards, whether it was there before or not. */
  lemma CustomColumnsLabels(columns: seq<(string, string)>)
    ensures var r := CustomColumns(columns);
      && Get(r, "name") == Some("Name") && Get(r, "email") == Some("Email") && Get(r, "phone") == Some("Phone")
      && Get(r, "query") == Some("Query") && Get(r, "current_page_url") == Some("Current Page URL")
      && Get(r, "user_country") == Some("User Country")
  {
    ColumnLabelsDistinct();
    forall i | 0 <= i < |ColumnLabels|
      ensures Get(CustomColumns(columns), ColumnLabels[i].0) == Some(ColumnLabels[i].1)
    {
      LastAssignedDistinct(ColumnLabels, i);
      GetSetAll(columns, ColumnLabels, ColumnLabels[i].0);
    }
    assert ColumnLabels[0] == ("name", "Name") && ColumnLabels[1] == ("email", "Email");
    assert ColumnLabels[2] == ("phone", "Phone") && ColumnLabels[3] == ("query", "Query");
    assert ColumnLabels[4] == ("current_page_url", "Current Page URL") && ColumnLabels[5] == ("user_country", "User Country");
  }

  /** No column is assigned twice. */
  lemma ColumnLabelsDistinct()
    ensures DistinctKeys(ColumnLabels) && DistinctKeys(SortableLabels)
  {
    assert "email" != "phone" && "email" != "query" && "phone" != "query" by {
      assert "email"[0] == 'e' && "phone"[0] == 'p' && "query"[0] == 'q';
    }
  }

  lemma ColumnLabelKeys()
    ensures KeysOf(ColumnLabels) == ColumnKeys && KeysOf(SortableLabels) == SortableKeys
  {
    assert ColumnLabels[0].0 == "name" && ColumnLabels[1].0 == "email" && ColumnLabels[2].0 == "phone";
    assert ColumnLabels[3].0 == "query" && ColumnLabels[4].0 == "current_page_url" && ColumnLabels[5].0 == "user_country";
    assert SortableLabels[0].0 == "name" && SortableLabels[1].0 == "email" && SortableLabels[2].0 == "phone";
  }

  /** Every other column keeps its label (or stays absent). */
  lemma CustomColumnsKeepOthers(columns: seq<(string, string)>, k: string)
    requires k !in ColumnKeys
    ensures Get(CustomColumns(columns), k) == Get(columns, k)
  {
    ColumnLabelKeys();
    NotAssigned(ColumnLabels, k);
    GetSetAll(columns, ColumnLabels, k);
  }

  /** The existing columns keep their positions; at most the six new ones follow them. */
  lemma CustomColumnsPositions(columns: seq<(string, string)>)
    ensures Extends(columns, CustomColumns(columns), ColumnKeys, 6)
  {
    ColumnLabelKeys();
    SetAllExtends(columns, ColumnLabels);
  }

  /** wph_entries_sortable_columns: name, email and phone sort by themselves. */
  function SortableColumns(columns: seq<(string, string)>): seq<(string, string)> {
    SetAll(columns, SortableLabels)
  }

  /** The three sortable columns sort by their own key afterwards. */
  lemma SortableColumnsLabels(columns: seq<(string, string)>)
    ensures var r := SortableColumns(columns);
      Get(r, "name") == Some("name") && Get(r, "email") == Some("email") && Get(r, "phone") == Some("phone")
  {
    ColumnLabelsDistinct();
    forall i | 0 <= i < |SortableLabels|
      ensures Get(SortableColumns(columns), SortableLabels[i].0) == Some(SortableLabels[i].1)
    {
      LastAssignedDistinct(SortableLabels, i);
      GetSetAll(columns, SortableLabels, SortableLabels[i].0);
    }
    assert SortableLabels[0] == ("name", "name") && SortableLabels[1] == ("email", "email");
    assert SortableLabels[2] == ("phone", "phone");
  }

  /** Every other sortable entry is kept. */
  lemma SortableColumnsKeepOthers(columns: seq<(string, string)>, k: string)
    requires k !in SortableKeys
    ensures Get(SortableColumns(columns), k) == Get(columns, k)
  {
    ColumnLabelKeys();
    NotAssigned(SortableLabels, k);
    GetSetAll(columns, SortableLabels, k);
  }

  /** The existing entries keep their positions; at most the three new ones follow them. */
  lemma SortableColumnsPositions(columns: seq<(string, string)>)
    ensures Extends(columns, SortableColumns(columns), SortableKeys, 3)
  {
    ColumnLabelKeys();
    SetAllExtends(columns, SortableLabels);
  }

  /** get_post_meta($id, $key, true): the stored value as a string, '' when there is none. */
  function MetaString(meta: map<string, Value>, key: string): string {
    if key in meta then ToStr(meta[key]) else ""
  }

  /** wph_entries_custom_column_content: each custom column prints its own escaped meta field; other columns print nothing. */
  function ColumnContent(column: string, meta: map<string, Value>, escHtml: string -> string): (r: Option<string>)
    ensures r.Some? <==> column in ColumnKeys
    ensures column in ColumnKeys ==> r == Some(escHtml(MetaString(meta, "_" + column)))
  {
    match column
    case "name" => assert "_" + column == "_name"; Some(escHtml(MetaString(meta, "_name")))
    case "email" => assert "_" + column == "_email"; Some(escHtml(MetaString(meta, "_email")))
    case "phone" => assert "_" + column == "_phone"; Some(escHtml(MetaString(meta, "_phone")))
    case "query" => assert "_" + column == "_query"; Some(escHtml(MetaString(meta, "_query")))
    case "current_page_url" => assert "_" + column == "_current_page_url"; Some(escHtml(MetaString(meta, "_current_page_url")))
    case "user_country" => assert "_" + column == "_user_country"; Some(escHtml(MetaString(meta, "_user_country")))
    case _ => None
  }

  /** The list shows, column by column, what save_bot_entry stored on a new entry. */
  lemma ColumnsShowSavedLead(f: ChatRelay.LeadFields, country: string, escHtml: string -> string)
    ensures var meta := ChatRelay.LeadMeta(f, country);
      && ColumnContent("name", meta, escHtml) == Some(escHtml(f.name))
      && ColumnContent("email", meta, escHtml) == Some(escHtml(f.email))
      && ColumnContent("phone", meta, escHtml) == Some(escHtml(f.phone))
      && ColumnContent("query", meta, escHtml) == Some(escHtml(f.query))
      && ColumnContent("current_page_url", meta, escHtml) == Some(escHtml(f.pageUrl))
      && ColumnContent("user_country", meta, escHtml) == Some(escHtml(country))
  {
  }

  // ---------------------------------------------------------------------
  // wph_entries_row_actions
  // ---------------------------------------------------------------------

  /** The default actions the filter removes before adding its own. */
  const DefaultActions := {"edit", "inline hide-if-no-js", "trash", "view"}

  function ViewAction(url: string): string {
    "<a href=\"" + url + "\">View</a>"
  }

  function TrashAction(url: string): string {
    "<a href=\"" + url + "\" class=\"submitdelete\">Trash</a>"
  }

  /**
   * The row actions of one post. For an entry: the four default actions
   * are removed, then View (to the edit screen) and Trash are appended, in
   * that order; the other actions keep their order and labels. Other post
   * types are left alone.
   */
  method RowActions(actions: seq<(string, string)>, postType: string, editLink: string, trashLink: string,
                    escUrl: string -> string) returns (r: seq<(string, string)>)
    ensures postType != ChatRelay.EntriesType ==> r == actions
    ensures postType == ChatRelay.EntriesType ==>
      && Get(r, "edit").None? && Get(r, "inline hide-if-no-js").None?
      && |r| >= 2
      && r[|r| - 2] == ("view", ViewAction(escUrl(editLink)))
      && r[|r| - 1] == ("trash", TrashAction(escUrl(trashLink)))
      && (forall k :: k !in DefaultActions ==> Get(r, k) == Get(actions, k))
      && (forall i :: 0 <= i < |r| - 2 ==> r[i].0 !in DefaultActions)
      && r[..|r| - 2] == Drop(actions, DefaultActions)
  {
    r := actions;
    if postType == ChatRelay.EntriesType {
      var kept := RemoveDefaultActions(actions);
      var view := ViewAction(escUrl(editLink));
      var trash := TrashAction(escUrl(trashLink));
      r := Set(kept, "view", view);
      r := Set(r, "trash", trash);
      AppendViewTrash(kept, view, trash);
      assert r[..|r| - 2] == kept;
      forall k | k != "view" && k != "trash"
        ensures Get(r, k) == Get(kept, k)
      {
        GetAppendOther(kept, "view", view, k);
        GetAppendOther(kept + [("view", view)], "trash", trash, k);
        assert r == kept + [("view", view)] + [("trash", trash)];
      }
    }
  }

  /** Once View and Trash are gone, the two assignments append them, in that order. */
  lemma AppendViewTrash(kept: seq<(string, string)>, view: string, trash: string)
    requires forall i :: 0 <= i < |kept| ==> kept[i].0 != "view" && kept[i].0 != "trash"
    ensures Set(Set(kept, "view", view), "trash", trash) == kept + [("view", view)] + [("trash", trash)]
  {
    assert |"view"| != |"trash"|;
    SetAbsentTwice(kept, "view", view, "trash", trash);
  }

  /** The four unsets: the default actions are gone, the others keep their values and order. */
  method RemoveDefaultActions(actions: seq<(string, string)>) returns (r: seq<(string, string)>)
    ensures forall k :: Get(r, k) == if k in DefaultActions then None else Get(actions, k)
    ensures forall i :: 0 <= i < |r| ==> r[i].0 !in DefaultActions
    ensures r == Drop(actions, DefaultActions)
  {
    r := UnsetAction(actions, "edit");
    r := UnsetAction(r, "inline hide-if-no-js");
    r := UnsetAction(r, "trash");
    r := UnsetAction(r, "view");
    forall i | 0 <= i < |r|
      ensures r[i].0 !in DefaultActions
    {
      assert HasKey(r, r[i].0);
      assert Get(r, r[i].0).Some?;
    }
    UnsetFour(actions, "edit", "inline hide-if-no-js", "trash", "view");
  }

  /** One `unset($actions[$key])` with what it does to the keys. */
  method UnsetAction(a: seq<(string, string)>, key: string) returns (r: seq<(string, string)>)
    ensures r == Unset(a, key)
    ensures forall k :: Get(r, k) == if k == key then None else Get(a, k)
  {
    r := Unset(a, key);
    UnsetFacts(a, key);
  }

  // ---------------------------------------------------------------------
  // wph_remove_all_except_custom_meta_box
  // ---------------------------------------------------------------------

  /** Meta boxes by id, by priority, by context: one post type's part of `$wp_meta_boxes`. */
  type BoxTable = map<string, Value>
  type PriorityTable = map<string, BoxTable>
  type ContextTable = map<string, PriorityTable>

  const AllowedBoxId := "wph_entries_meta_box"

  /** Only the allowed box, if present. */
  function KeepAllowed(t: BoxTable): (r: BoxTable)
    ensures r.Keys == t.Keys * {AllowedBoxId}
    ensures forall id :: id in r ==> r[id] == t[id]
  {
    map id | id in t && id == AllowedBoxId :: t[id]
  }

  function PrunePriorities(pt: PriorityTable): PriorityTable {
    map p | p in pt :: KeepAllowed(pt[p])
  }

  function PruneContexts(ct: ContextTable): ContextTable {
    map c | c in ct :: PrunePriorities(ct[c])
  }

  /** `$wp_meta_boxes` after the filter: the entries' tables keep the allowed box only. */
  function Pruned(boxes: map<string, ContextTable>): map<string, ContextTable> {
    if ChatRelay.EntriesType in boxes then boxes[ChatRelay.EntriesType := PruneContexts(boxes[ChatRelay.EntriesType])]
    else boxes
  }

  /**
   * After the filter, every context and priority of the entry screen holds
   * at most the plugin's own box, which keeps its registration; every other
   * post type, and the shape of the entry tables, are unchanged.
   */
  lemma PrunedKeepsOnlyAllowed(boxes: map<string, ContextTable>)
    ensures var after := Pruned(boxes);
      && after.Keys == boxes.Keys
      && (forall t :: t in boxes && t != ChatRelay.EntriesType ==> after[t] == boxes[t])
      && (ChatRelay.EntriesType in boxes ==>
            var before, now := boxes[ChatRelay.EntriesType], after[ChatRelay.EntriesType];
            && now.Keys == before.Keys
            && (forall c :: c in now ==> now[c].Keys == before[c].Keys)
            && (forall c, p :: c in now && p in now[c] ==> now[c][p].Keys == before[c][p].Keys * {AllowedBoxId})
            && (forall c, p :: c in now && p in now[c] && AllowedBoxId in before[c][p] ==>
                  now[c][p][AllowedBoxId] == before[c][p][AllowedBoxId]))
  {
  }

  /** Running the filter again changes nothing. */
  lemma PrunedIdempotent(boxes: map<string, ContextTable>)
    ensures Pruned(Pruned(boxes)) == Pruned(boxes)
  {
    var e := ChatRelay.EntriesType;
    if e in boxes {
      var ct := PruneContexts(boxes[e]);
      forall c | c in ct
        ensures PrunePriorities(ct[c]) == ct[c]
      {
        forall p | p in ct[c]
          ensures KeepAllowed(ct[c][p]) == ct[c][p]
        {
        }
      }
      assert PruneContexts(ct) == ct;
    }
  }

  /** A box table partway through the innermost loop: the ids not yet visited are still there. */
  function BoxesLeft(t: BoxTable, todo: set<string>): BoxTable {
    map id | id in t && (id == AllowedBoxId || id in todo) :: t[id]
  }

  /** A priority table partway through the middle loop: the priorities not yet visited are untouched. */
  function PrioritiesLeft(pt: PriorityTable, todo: set<string>): PriorityTable {
    map p | p in pt :: if p in todo then pt[p] else KeepAllowed(pt[p])
  }

  /** A context table partway through the outer loop. */
  function ContextsLeft(ct: ContextTable, todo: set<string>): ContextTable {
    map c | c in ct :: if c in todo then ct[c] else PrunePriorities(ct[c])
  }

  /** `global $wp_meta_boxes`, the registry add_meta_box fills. */
  class MetaBoxRegistry {
    var boxes: map<string, ContextTable>

    constructor (initial: map<string, ContextTable>)
      ensures boxes == initial
    {
      boxes := initial;
    }

    /**
     * wph_remove_all_except_custom_meta_box: for the entries post type, every
     * box other than the plugin's own is unset, context by context and
     * priority by priority, over a copy of the tables taken before the loops.
     */
    method RemoveAllExceptCustom()
      modifies this
      ensures boxes == Pruned(old(boxes))
    {
      var e := ChatRelay.EntriesType;
      if e in boxes {
        var contexts := boxes[e];
        var todo := contexts.Keys;
        assert ContextsLeft(contexts, todo) == contexts;
        while todo != {}
          invariant todo <= contexts.Keys
          invariant boxes == old(boxes)[e := ContextsLeft(contexts, todo)]
          decreases |todo|
        {
          var c :| c in todo;
          PruneContext(contexts, todo, c);
          todo := todo - {c};
        }
        assert ContextsLeft(contexts, {}) == PruneContexts(contexts);
      }
    }

    /** The middle loop: every priority of context c. */
    method PruneContext(ghost contexts: ContextTable, ghost todo: set<string>, c: string)
      requires c in todo && todo <= contexts.Keys
      requires ChatRelay.EntriesType in boxes && boxes[ChatRelay.EntriesType] == ContextsLeft(contexts, todo)
      modifies this
      ensures boxes == old(boxes)[ChatRelay.EntriesType := ContextsLeft(contexts, todo - {c})]
    {
      var priorities := boxes[ChatRelay.EntriesType][c];
      var ps := priorities.Keys;
      PlaceContextSame(boxes, c);
      assert PrioritiesLeft(priorities, ps) == priorities;
      while ps != {}
        invariant ps <= priorities.Keys
        invariant boxes == PlaceContext(old(boxes), c, PrioritiesLeft(priorities, ps))
        decreases |ps|
      {
        var p :| p in ps;
        PlaceContextTwice(old(boxes), c, PrioritiesLeft(priorities, ps), PrioritiesLeft(priorities, ps - {p}));
        PrunePriority(priorities, ps, c, p);
        ps := ps - {p};
      }
      ContextDone(old(boxes), contexts, todo, c);
    }

    /** The innermost loop: every box of context c, priority p. */
    method PrunePriority(ghost priorities: PriorityTable, ghost ps: set<string>, c: string, p: string)
      requires p in ps && ps <= priorities.Keys
      requires ChatRelay.EntriesType in boxes && c in boxes[ChatRelay.EntriesType]
      requires boxes[ChatRelay.EntriesType][c] == PrioritiesLeft(priorities, ps)
      modifies this
      ensures boxes == PlaceContext(old(boxes), c, PrioritiesLeft(priorities, ps - {p}))
    {
      var metaBoxes := boxes[ChatRelay.EntriesType][c][p];
      var ids := metaBoxes.Keys;
      PlaceSame(boxes, c, p);
      assert BoxesLeft(metaBoxes, ids) == metaBoxes;
      while ids != {}
        invariant ids <= metaBoxes.Keys
        invariant boxes == Place(old(boxes), c, p, BoxesLeft(metaBoxes, ids))
        decreases |ids|
      {
        var id :| id in ids;
        if id != AllowedBoxId {
          // unset($wp_meta_boxes[$post_type][$context][$priority][$meta_box_id])
          PlaceTwice(old(boxes), c, p, BoxesLeft(metaBoxes, ids), BoxesLeft(metaBoxes, ids) - {id});
          boxes := Place(boxes, c, p, boxes[ChatRelay.EntriesType][c][p] - {id});
        }
        BoxesLeftStep(metaBoxes, ids, id);
        ids := ids - {id};
      }
      PriorityDone(old(boxes), priorities, ps, c, p);
    }
  }

  /** The registry with the priority table of the entries' context c replaced by pt. */
  function PlaceContext(b: map<string, ContextTable>, c: string, pt: PriorityTable): (r: map<string, ContextTable>)
    requires ChatRelay.EntriesType in b
    ensures ChatRelay.EntriesType in r && c in r[ChatRelay.EntriesType] && r[ChatRelay.EntriesType][c] == pt
  {
    b[ChatRelay.EntriesType := b[ChatRelay.EntriesType][c := pt]]
  }

  lemma PlaceContextSame(b: map<string, ContextTable>, c: string)
    requires ChatRelay.EntriesType in b && c in b[ChatRelay.EntriesType]
    ensures PlaceContext(b, c, b[ChatRelay.EntriesType][c]) == b
  {
    assert b[ChatRelay.EntriesType][c := b[ChatRelay.EntriesType][c]] == b[ChatRelay.EntriesType];
  }

  lemma PlaceContextTwice(b: map<string, ContextTable>, c: string, pt: PriorityTable, pt': PriorityTable)
    requires ChatRelay.EntriesType in b
    ensures PlaceContext(PlaceContext(b, c, pt), c, pt') == PlaceContext(b, c, pt')
  {
    var e := ChatRelay.EntriesType;
    assert PlaceContext(b, c, pt)[e][c := pt'] == b[e][c := pt'];
  }

  /** When the middle loop ends, context c is pruned in the outer loop's state. */
  lemma ContextDone(b: map<string, ContextTable>, contexts: ContextTable, todo: set<string>, c: string)
    requires c in todo && todo <= contexts.Keys
    requires ChatRelay.EntriesType in b && b[ChatRelay.EntriesType] == ContextsLeft(contexts, todo)
    ensures PlaceContext(b, c, PrioritiesLeft(contexts[c], {})) == b[ChatRelay.EntriesType := ContextsLeft(contexts, todo - {c})]
  {
    assert PrioritiesLeft(contexts[c], {}) == PrunePriorities(contexts[c]);
    assert b[ChatRelay.EntriesType][c := PrunePriorities(contexts[c])] == ContextsLeft(contexts, todo - {c});
  }

  /** The registry with the box table of the entries' context c, priority p replaced by t. */
  function Place(b: map<string, ContextTable>, c: string, p: string, t: BoxTable): (r: map<string, ContextTable>)
    requires ChatRelay.EntriesType in b && c in b[ChatRelay.EntriesType]
    ensures ChatRelay.EntriesType in r && c in r[ChatRelay.EntriesType] && p in r[ChatRelay.EntriesType][c]
    ensures r[ChatRelay.EntriesType][c][p] == t
  {
    var e := ChatRelay.EntriesType;
    b[e := b[e][c := b[e][c][p := t]]]
  }

  lemma PlaceSame(b: map<string, ContextTable>, c: string, p: string)
    requires ChatRelay.EntriesType in b && c in b[ChatRelay.EntriesType] && p in b[ChatRelay.EntriesType][c]
    ensures Place(b, c, p, b[ChatRelay.EntriesType][c][p]) == b
  {
    var e := ChatRelay.EntriesType;
    assert b[e][c][p := b[e][c][p]] == b[e][c];
    assert b[e][c := b[e][c]] == b[e];
  }

  /** Visiting one id: the table loses it unless it is the allowed one. */
  lemma BoxesLeftStep(t: BoxTable, todo: set<string>, id: string)
    requires id in todo
    ensures (if id != AllowedBoxId then BoxesLeft(t, todo) - {id} else BoxesLeft(t, todo)) == BoxesLeft(t, todo - {id})
  {
  }

  /** When the innermost loop ends, priority p is pruned in the middle loop's state. */
  lemma PriorityDone(b: map<string, ContextTable>, priorities: PriorityTable, ps: set<string>, c: string, p: string)
    requires p in ps && ps <= priorities.Keys
    requires ChatRelay.EntriesType in b && c in b[ChatRelay.EntriesType]
    requires b[ChatRelay.EntriesType][c] == PrioritiesLeft(priorities, ps)
    ensures Place(b, c, p, BoxesLeft(priorities[p], {})) == PlaceContext(b, c, PrioritiesLeft(priorities, ps - {p}))
  {
    assert BoxesLeft(priorities[p], {}) == KeepAllowed(priorities[p]);
    assert b[ChatRelay.EntriesType][c][p := KeepAllowed(priorities[p])] == PrioritiesLeft(priorities, ps - {p});
  }

  lemma PlaceTwice(b: map<string, ContextTable>, c: string, p: string, t: BoxTable, t': BoxTable)
    requires ChatRelay.EntriesType in b && c in b[ChatRelay.EntriesType]
    ensures Place(Place(b, c, p, t), c, p, t') == Place(b, c, p, t')
  {
    var e := ChatRelay.EntriesType;
    var b1 := Place(b, c, p, t);
    assert b1[e][c][p := t'] == b[e][c][p := t'];
    assert b1[e][c := b[e][c][p := t']] == b[e][c := b[e][c][p := t']];
    assert b1[e := b[e][c := b[e][c][p := t']]] == b[e := b[e][c := b[e][c][p := t']]];
  }

  // ---------------------------------------------------------------------
  // redirect_add_new_wph_entries
  // ---------------------------------------------------------------------

  /** Where "Add New" for entries is sent instead: None when the request passes through. */
  function AddNewRedirect(pagenow: string, query: map<string, string>, adminUrl: string -> string): (r: Option<string>)
    ensures r.Some? <==> pagenow == "post-new.php" && "post_type" in query && query["post_type"] == ChatRelay.EntriesType
    ensures r.Some? ==> r.value == adminUrl("edit.php?post_type=wph_entries")
  {
    if pagenow == "post-new.php" && "post_type" in query && query["post_type"] == ChatRelay.EntriesType
    then Some(adminUrl("edit.php?post_type=wph_entries"))
    else None
  }
}
