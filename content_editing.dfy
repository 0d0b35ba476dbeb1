/** What components/page-content-editor.tsx and app/admin/pages/page.tsx share:
    the rows of editable page text, the editing map keyed by
    "page.section.content_key", the grouping of rows by section, and the rules
    for each field's label, input kind and save button. */
module ContentEditing {
  import opened Common
  import opened Strings

  /** A row of the page-content table. */
  datatype ContentItem = ContentItem(id: int, pageName: string, sectionName: string, contentKey: string, contentText: string)

  /** The editing key of a field. */
  function EditingKey(page: string, section: string, key: string): string {
    page + "." + section + "." + key
  }

  /** The editing map after filling it from `items` in order: each item's text
      under its key, a later item overwriting an earlier one with the same key. */
  function EditingOf(items: seq<ContentItem>, page: string): map<string, string> {
    if items == [] then map[]
    else
      var last := items[|items| - 1];
      EditingOf(items[..|items| - 1], page)[EditingKey(page, last.sectionName, last.contentKey) := last.contentText]
  }

  /** The map has a key exactly for the items' keys, and under each key the
      text of the last item with that key. */
  lemma {:induction false} EditingOfCorrect(items: seq<ContentItem>, page: string)
    ensures forall k :: k in EditingOf(items, page) <==>
              exists i :: 0 <= i < |items| && EditingKey(page, items[i].sectionName, items[i].contentKey) == k
    ensures forall i :: 0 <= i < |items| ==>
              var k := EditingKey(page, items[i].sectionName, items[i].contentKey);
              (forall j :: i < j < |items| ==> EditingKey(page, items[j].sectionName, items[j].contentKey) != k)
              ==> EditingOf(items, page)[k] == items[i].contentText
  {
    if items != [] {
      var init := items[..|items| - 1];
      EditingOfCorrect(init, page);
      assert forall i :: 0 <= i < |init| ==> init[i] == items[i];
      forall k | k in EditingOf(items, page)
        ensures exists i :: 0 <= i < |items| && EditingKey(page, items[i].sectionName, items[i].contentKey) == k
      {
        var last := items[|items| - 1];
        if k != EditingKey(page, last.sectionName, last.contentKey) {
          var i :| 0 <= i < |init| && EditingKey(page, init[i].sectionName, init[i].contentKey) == k;
          assert EditingKey(page, items[i].sectionName, items[i].contentKey) == k;
        }
      }
    }
  }

  /** The `forEach` that builds the map of one page's rows. */
  method InitializeEditing(items: seq<ContentItem>, page: string) returns (editing: map<string, string>)
    ensures editing == EditingOf(items, page)
  {
    editing := map[];
    for i := 0 to |items|
      invariant editing == EditingOf(items[..i], page)
    {
      assert items[..i + 1][..i] == items[..i];
      editing := editing[EditingKey(page, items[i].sectionName, items[i].contentKey) := items[i].contentText];
    }
    assert items[..|items|] == items;
  }

  /** `setEditingContent(prev => ({ ...prev, ...editing }))`: the new entries
      win, every other entry stays. */
  lemma MergeKeepsOthers(prev: map<string, string>, editing: map<string, string>)
    ensures forall k :: k in prev + editing <==> k in prev || k in editing
    ensures forall k :: k in editing ==> (prev + editing)[k] == editing[k]
    ensures forall k :: k in prev && k !in editing ==> (prev + editing)[k] == prev[k]
  {
  }

  /** `handleInputChange` changes the one key and no other. */
  lemma InputChangeOnlyKey(editing: map<string, string>, key: string, value: string)
    ensures editing[key := value][key] == value
    ensures forall k :: k in editing && k != key ==> editing[key := value][k] == editing[k]
    ensures editing[key := value].Keys == editing.Keys + {key}
  {
  }

  /** The text an input shows: `editingContent[key] || ""`. */
  function ShownText(editing: map<string, string>, key: string): string {
    if key in editing then editing[key] else ""
  }

  /** The body of the save request. */
  datatype SaveRequest = SaveRequest(pageName: string, sectionName: string, contentKey: string, contentText: string)

  /** `handleSave`'s guard: no request when the edited text is missing or empty. */
  function SaveRequestFor(editing: map<string, string>, page: string, section: string, key: string): (r: Option<SaveRequest>)
    ensures r.Some? <==> EditingKey(page, section, key) in editing && editing[EditingKey(page, section, key)] != ""
    ensures r.Some? ==> r.value == SaveRequest(page, section, key, editing[EditingKey(page, section, key)])
  {
    var k := EditingKey(page, section, key);
    if k !in editing || editing[k] == "" then None else Some(SaveRequest(page, section, key, editing[k]))
  }

  /** The save button is disabled while saving or when the edited text is the
      stored one; a key with no edit at all does not count as unchanged. */
  function SaveDisabled(isSaving: bool, editing: map<string, string>, key: string, item: ContentItem): bool {
    isSaving || (key in editing && editing[key] == item.contentText)
  }

  /** An enabled button whose edit is empty sends nothing either. */
  lemma EnabledButEmpty(editing: map<string, string>, item: ContentItem)
    ensures var k := EditingKey(item.pageName, item.sectionName, item.contentKey);
            k in editing && editing[k] == "" && item.contentText != "" ==>
              !SaveDisabled(false, editing, k, item)
              && SaveRequestFor(editing, item.pageName, item.sectionName, item.contentKey).None?
  {
  }

  /** A field is a text area when the stored text is longer than 100 characters. */
  predicate IsLongText(item: ContentItem) {
    |item.contentText| > 100
  }

  /** `content_key.replace(/[._]/g, " ")`. */
  function Label(key: string): (r: string)
    ensures |r| == |key|
    ensures forall i :: 0 <= i < |r| ==> r[i] != '.' && r[i] != '_'
  {
    seq(|key|, i requires 0 <= i < |key| => if key[i] == '.' || key[i] == '_' then ' ' else key[i])
  }

  /** Every dot and underscore becomes a space, every other character stays. */
  lemma LabelCorrect(key: string)
    ensures forall i :: 0 <= i < |key| ==>
              Label(key)[i] == (if key[i] in {'.', '_'} then ' ' else key[i])
    ensures Label(Label(key)) == Label(key)
  {
  }

  /** The rows grouped by section name, each group in row order. */
  function GroupsOf(items: seq<ContentItem>): map<string, seq<ContentItem>> {
    if items == [] then map[]
    else
      var g := GroupsOf(items[..|items| - 1]);
      var last := items[|items| - 1];
      g[last.sectionName := (if last.sectionName in g then g[last.sectionName] else []) + [last]]
  }

  /** The section names in order of first appearance, which is the order of
      `Object.entries` for names that do not look like integers. */
  function SectionOrder(items: seq<ContentItem>): seq<string> {
    if items == [] then []
    else
      var o := SectionOrder(items[..|items| - 1]);
      var s := items[|items| - 1].sectionName;
      if s in o then o else o + [s]
  }

  /** The rows of one section, in order. */
  function InSection(items: seq<ContentItem>, section: string): seq<ContentItem> {
    Keep(items, OfSection(section))
  }

  function OfSection(section: string): ContentItem -> bool {
    (it: ContentItem) => it.sectionName == section
  }

  /** There is a group exactly for each section that occurs. */
  lemma {:induction false} GroupsOfKeys(items: seq<ContentItem>)
    ensures forall s :: s in GroupsOf(items) <==> exists i :: 0 <= i < |items| && items[i].sectionName == s
  {
    if items != [] {
      var init := items[..|items| - 1];
      var last := items[|items| - 1];
      GroupsOfKeys(init);
      assert forall i :: 0 <= i < |init| ==> init[i] == items[i];
      forall s | s in GroupsOf(items) ensures exists i :: 0 <= i < |items| && items[i].sectionName == s {
        if s != last.sectionName {
          var i :| 0 <= i < |init| && init[i].sectionName == s;
          assert items[i].sectionName == s;
        } else {
          assert items[|items| - 1].sectionName == s;
        }
      }
    }
  }

  /** The grouping is a partition: each group holds exactly its section's rows,
      in their order, so every row is in its own section's group and in no
      other. */
  lemma GroupsOfContents(items: seq<ContentItem>)
    ensures forall s :: s in GroupsOf(items) ==> GroupsOf(items)[s] == InSection(items, s)
  {
    forall s | s in GroupsOf(items) ensures GroupsOf(items)[s] == InSection(items, s) {
      GroupOfSection(items, s);
    }
  }

  lemma {:induction false} GroupOfSection(items: seq<ContentItem>, s: string)
    requires s in GroupsOf(items)
    ensures GroupsOf(items)[s] == InSection(items, s)
  {
    var init := items[..|items| - 1];
    var last := items[|items| - 1];
    var g := GroupsOf(init);
    assert items == init + [last];
    KeepAppend(init, [last], OfSection(s));
    assert InSection(items, s) == InSection(init, s) + InSection([last], s);
    if s != last.sectionName {
      assert InSection([last], s) == [];
      assert GroupsOf(items)[s] == g[s];
      GroupOfSection(init, s);
    } else {
      assert InSection([last], s) == [last];
      if s in g {
        assert GroupsOf(items)[s] == g[s] + [last];
        GroupOfSection(init, s);
      } else {
        assert GroupsOf(items)[s] == [last];
        GroupsOfKeys(init);
        NoRowsInSection(init, s);
      }
    }
  }

  lemma {:induction false} NoRowsInSection(items: seq<ContentItem>, s: string)
    requires forall i :: 0 <= i < |items| ==> items[i].sectionName != s
    ensures InSection(items, s) == []
  {
    if items != [] {
      NoRowsInSection(items[1..], s);
    }
  }

  /** The sections are listed once each, exactly those that occur, in order of
      first appearance. */
  lemma {:induction false} SectionOrderCorrect(items: seq<ContentItem>)
    ensures Distinct(SectionOrder(items))
    ensures forall s :: s in SectionOrder(items) <==> exists i :: 0 <= i < |items| && items[i].sectionName == s
  {
    if items != [] {
      var init := items[..|items| - 1];
      var last := items[|items| - 1];
      SectionOrderCorrect(init);
      assert forall i :: 0 <= i < |init| ==> init[i] == items[i];
      var o := SectionOrder(init);
      if last.sectionName !in o {
        var o' := o + [last.sectionName];
        forall i, j | 0 <= i < j < |o'| ensures o'[i] != o'[j] {
          if j == |o| {
            assert o[i] in o;
          }
        }
      }
      forall s | s in SectionOrder(items) ensures exists i :: 0 <= i < |items| && items[i].sectionName == s {
        if s in o {
          var i :| 0 <= i < |init| && init[i].sectionName == s;
          assert items[i].sectionName == s;
        } else {
          assert items[|items| - 1].sectionName == s;
        }
      }
    }
  }

  /** The sections as the editor lists them: the `reduce` that pushes each row
      onto its section's list. */
  method GroupBySection(items: seq<ContentItem>) returns (sections: map<string, seq<ContentItem>>, order: seq<string>)
    ensures sections == GroupsOf(items) && order == SectionOrder(items)
  {
    sections := map[];
    order := [];
    for i := 0 to |items|
      invariant sections == GroupsOf(items[..i]) && order == SectionOrder(items[..i])
    {
      assert items[..i + 1][..i] == items[..i];
      var s := items[i].sectionName;
      var group := if s in sections then sections[s] else [];
      sections := sections[s := group + [items[i]]];
      if s !in order {
        order := order + [s];
      }
    }
    assert items[..|items|] == items;
  }

  /** What loading returns: nothing when a fetch threw, otherwise for each page
      its rows, or None when that page's response was not ok. */
  datatype Responses = FetchFailed | Responses(rows: seq<Option<seq<ContentItem>>>)

  /** The editing map after loading: the rows of each page that answered, page
      by page, merged over what was there. */
  function AfterLoad(prev: map<string, string>, pages: seq<string>, rows: seq<Option<seq<ContentItem>>>): map<string, string>
    requires |rows| == |pages|
  {
    if pages == [] then prev
    else
      var n := |pages| - 1;
      var before := AfterLoad(prev, pages[..n], rows[..n]);
      if rows[n].Some? then before + EditingOf(rows[n].value, pages[n]) else before
  }

  /** Loading only adds or overwrites keys of the pages that answered: every
      earlier key stays, and keeps its text unless some answering page has a
      row with that key. */
  lemma {:induction false} AfterLoadKeeps(prev: map<string, string>, pages: seq<string>, rows: seq<Option<seq<ContentItem>>>, k: string)
    requires |rows| == |pages|
    requires k in prev
    ensures k in AfterLoad(prev, pages, rows)
    ensures (forall i :: 0 <= i < |pages| && rows[i].Some? ==> k !in EditingOf(rows[i].value, pages[i])) ==>
              AfterLoad(prev, pages, rows)[k] == prev[k]
  {
    if pages != [] {
      var n := |pages| - 1;
      AfterLoadKeeps(prev, pages[..n], rows[..n], k);
      assert forall i :: 0 <= i < n ==> rows[..n][i] == rows[i] && pages[..n][i] == pages[i];
    }
  }

  /** The page editor: one list of rows per page, and the editing map. */
  class Editor {
    const pages: seq<string>
    var contents: seq<seq<ContentItem>>
    var editing: map<string, string>
    var isLoading: bool

    predicate Valid()
      reads this
    {
      |contents| == |pages|
    }

    /** Before loading: no rows, no edits, loading. */
    constructor(pages: seq<string>)
      ensures this.pages == pages && Valid() && editing == map[] && isLoading
      ensures forall i :: 0 <= i < |pages| ==> contents[i] == []
    {
      this.pages := pages;
      contents := seq(|pages|, i => []);
      editing := map[];
      isLoading := true;
    }

    /** `loadContent`: for each page that answered, store its rows and merge the
        editing map of its rows over the current one; a fetch that threw
        changes nothing. Loading ends either way. */
    method Load(r: Responses)
      requires Valid()
      requires r.Responses? ==> |r.rows| == |pages|
      modifies this
      ensures Valid() && !isLoading
      ensures r.FetchFailed? ==> contents == old(contents) && editing == old(editing)
      ensures r.Responses? ==>
                && editing == AfterLoad(old(editing), pages, r.rows)
                && forall i :: 0 <= i < |pages| ==> contents[i] == if r.rows[i].Some? then r.rows[i].value else old(contents)[i]
    {
      if r.FetchFailed? {
        isLoading := false;
        return;
      }
      for i := 0 to |pages|
        invariant |contents| == |pages|
        invariant editing == AfterLoad(old(editing), pages[..i], r.rows[..i])
        invariant forall j :: 0 <= j < i ==> contents[j] == if r.rows[j].Some? then r.rows[j].value else old(contents)[j]
        invariant forall j :: i <= j < |pages| ==> contents[j] == old(contents)[j]
      {
        assert pages[..i + 1][..i] == pages[..i];
        assert r.rows[..i + 1][..i] == r.rows[..i];
        if r.rows[i].Some? {
          contents := contents[i := r.rows[i].value];
          var loaded := InitializeEditing(r.rows[i].value, pages[i]);
          editing := editing + loaded;
        }
      }
      assert pages[..|pages|] == pages && r.rows[..|pages|] == r.rows;
      isLoading := false;
    }

    /** `handleInputChange`. */
    method InputChange(key: string, value: string)
      modifies this
      ensures editing == old(editing)[key := value]
      ensures contents == old(contents) && isLoading == old(isLoading)
    {
      editing := editing[key := value];
    }

    /** `handleSave`: the request it sends, if any. The reload after a
        successful save is a further `Load`. */
    method Save(page: string, section: string, key: string) returns (request: Option<SaveRequest>)
      ensures request == SaveRequestFor(editing, page, section, key)
    {
      request := SaveRequestFor(editing, page, section, key);
    }
  }
}
