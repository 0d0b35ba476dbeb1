/** components/page-content-editor.tsx: the editor of the home page and of the
    all-recipes page. */
module PageContentEditor {
  import opened Common
  import opened ContentEditing

  /** The pages it loads, in the order it merges them. */
  const EditorPages: seq<string> := ["home", "all-recipes"]

  /** Opening the editor and loading both pages: the home rows go in first and
      the all-recipes rows are merged over them. */
  method Open(home: Option<seq<ContentItem>>, recipes: Option<seq<ContentItem>>) returns (e: Editor)
    ensures fresh(e) && e.pages == EditorPages && !e.isLoading && e.Valid()
    ensures e.editing == AfterLoad(map[], EditorPages, [home, recipes])
    ensures home.Some? && recipes.Some? ==>
              e.editing == EditingOf(home.value, "home") + EditingOf(recipes.value, "all-recipes")
  {
    e := new Editor(EditorPages);
    e.Load(Responses([home, recipes]));
    assert EditorPages[..1] == ["home"] && [home, recipes][..1] == [home];
    assert ["home"][..0] == [] && [home][..0] == [];
    var first := AfterLoad(map[], ["home"], [home]);
    assert AfterLoad(map[], [], []) == map[];
    assert first == if home.Some? then AfterLoad(map[], [], []) + EditingOf(home.value, "home") else AfterLoad(map[], [], []);
    assert home.Some? ==> first == map[] + EditingOf(home.value, "home");
    assert home.Some? ==> map[] + EditingOf(home.value, "home") == EditingOf(home.value, "home");
  }
}
