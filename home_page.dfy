/** The data behind the home page of app/page.tsx: the page's text by section and
    key, the featured recipes with their daily-shuffle fallback, and the headings
    it shows. */
module HomePage {
  import opened Common
  import opened Strings
  import opened Int32Hash
  import opened ContentEditing

  /** A nested content map: section name, then content key, then text. */
  type ContentMap = map<string, map<string, string>>

  /** The content map after filling it from `items` in order: each item's text
      under its section and key, a later item overwriting an earlier one with the
      same section and key. */
  function SectionsOf(items: seq<ContentItem>): ContentMap {
    if items == [] then map[]
    else
      var before := SectionsOf(items[..|items| - 1]);
      var last := items[|items| - 1];
      var inner := if last.sectionName in before then before[last.sectionName] else map[];
      before[last.sectionName := inner[last.contentKey := last.contentText]]
  }

  /** A section is present exactly when some item has it. */
  lemma {:induction false} SectionsOfSections(items: seq<ContentItem>)
    ensures forall s :: s in SectionsOf(items) <==> exists i :: 0 <= i < |items| && items[i].sectionName == s
  {
    if items != [] {
      var init := items[..|items| - 1];
      var last := items[|items| - 1];
      SectionsOfSections(init);
      assert forall i :: 0 <= i < |init| ==> init[i] == items[i];
      forall s | s in SectionsOf(items)
        ensures exists i :: 0 <= i < |items| && items[i].sectionName == s
      {
        if s != last.sectionName {
          var i :| 0 <= i < |init| && init[i].sectionName == s;
          assert items[i].sectionName == s;
        }
      }
    }
  }

  /** A key is present in a section exactly when some item has both. */
  lemma {:induction false} SectionsOfKeys(items: seq<ContentItem>)
    ensures forall s, k :: s in SectionsOf(items) ==>
              (k in SectionsOf(items)[s] <==>
                 exists i :: 0 <= i < |items| && items[i].sectionName == s && items[i].contentKey == k)
  {
    if items != [] {
      var init := items[..|items| - 1];
      var last := items[|items| - 1];
      SectionsOfKeys(init);
      SectionsOfSections(init);
      assert forall i :: 0 <= i < |init| ==> init[i] == items[i];
      var m := SectionsOf(items);
      forall s, k | s in m && k in m[s]
        ensures exists i :: 0 <= i < |items| && items[i].sectionName == s && items[i].contentKey == k
      {
        if s != last.sectionName || k != last.contentKey {
          var before := SectionsOf(init);
          assert s in before && k in before[s];
          var i :| 0 <= i < |init| && init[i].sectionName == s && init[i].contentKey == k;
          assert items[i].sectionName == s && items[i].contentKey == k;
        }
      }
    }
  }

  /** Under a section and key stands the text of the last item with both. */
  lemma {:induction false} SectionsOfLastWins(items: seq<ContentItem>)
    ensures forall i :: 0 <= i < |items| ==>
              (forall j :: i < j < |items| ==>
                 items[j].sectionName != items[i].sectionName || items[j].contentKey != items[i].contentKey)
              ==> (&& items[i].sectionName in SectionsOf(items)
                   && items[i].contentKey in SectionsOf(items)[items[i].sectionName]
                   && SectionsOf(items)[items[i].sectionName][items[i].contentKey] == items[i].contentText)
  {
    if items != [] {
      var init := items[..|items| - 1];
      SectionsOfLastWins(init);
      assert forall i :: 0 <= i < |init| ==> init[i] == items[i];
    }
  }

  /** The `forEach` of `getPageContentSafe`: create a section's map on first use,
      then set the key. */
  method BuildContentMap(items: seq<ContentItem>) returns (contentMap: ContentMap)
    ensures contentMap == SectionsOf(items)
  {
    contentMap := map[];
    for i := 0 to |items|
      invariant contentMap == SectionsOf(items[..i])
    {
      assert items[..i + 1][..i] == items[..i];
      var item := items[i];
      if item.sectionName !in contentMap {
        contentMap := contentMap[item.sectionName := map[]];
      }
      contentMap := contentMap[item.sectionName := contentMap[item.sectionName][item.contentKey := item.contentText]];
    }
    assert items[..|items|] == items;
  }

  /** The map `getPageContentSafe` falls back to when loading throws. */
  const FallbackContent: ContentMap := map[
    "hero" := map["title" := "Discover Amazing Recipes",
                  "subtitle" := "From quick weeknight dinners to special occasion treats"],
    "featured" := map["title" := "Featured Recipes",
                      "subtitle" := "Hand-picked recipes that change daily"],
    "game" := map["title" := "Test Your Cooking Knowledge!",
                  "subtitle" := "Challenge yourself with our fun recipe guessing game"]]

  /** `getPageContentSafe`: the rows' map, or the fallback map when the fetch
      throws (`None`). */
  function PageContent(rows: Option<seq<ContentItem>>): (m: ContentMap)
    ensures rows.None? ==> m == FallbackContent
    ensures rows.Some? ==> m == SectionsOf(rows.value)
  {
    if rows.None? then FallbackContent else SectionsOf(rows.value)
  }

  /** `pageContent.section?.key || fallback`: the stored text when it is present
      and not empty, otherwise the page's own default. */
  function Heading(m: ContentMap, section: string, key: string, default: string): (r: string)
    ensures (section in m && key in m[section] && m[section][key] != "") ==> r == m[section][key]
    ensures !(section in m && key in m[section] && m[section][key] != "") ==> r == default
  {
    if section in m && key in m[section] then OrElse(Some(m[section][key]), default) else default
  }

  /** The four headings, each with the default the page writes beside it. */
  function HeroTitle(m: ContentMap): string { Heading(m, "hero", "title", "Discover Amazing Recipes") }
  function HeroSubtitle(m: ContentMap): string {
    Heading(m, "hero", "subtitle", "From quick weeknight dinners to special occasion treats")
  }
  function FeaturedTitle(m: ContentMap): string { Heading(m, "featured", "title", "Featured Recipes") }
  function FeaturedSubtitle(m: ContentMap): string {
    Heading(m, "featured", "subtitle", "Hand-picked recipes that change daily")
  }

  /** A failed load shows the same headings as a page with no rows: the fallback
      map holds exactly the defaults the page writes beside each heading. */
  lemma FallbackMatchesDefaults()
    ensures HeroTitle(PageContent(None)) == HeroTitle(PageContent(Some([])))
    ensures HeroSubtitle(PageContent(None)) == HeroSubtitle(PageContent(Some([])))
    ensures FeaturedTitle(PageContent(None)) == FeaturedTitle(PageContent(Some([])))
    ensures FeaturedSubtitle(PageContent(None)) == FeaturedSubtitle(PageContent(Some([])))
  {
    assert PageContent(Some([])) == map[];
  }

  /** The daily seed: the fold of `(a << 5) - a + code`, truncated to 32 bits,
      over the characters of today's date string. It is the int32 fold
      `a := int32(31 * a + code)`. */
  function DailySeed(today: string): (seed: int)
    ensures IsInt32(seed)
    ensures seed == Hash31(today)
  {
    HashIsHash31(today);
    Hash(today)
  }

  /** `getDailyShuffledRecipes(count)`: the first `count` of the shuffled
      catalogue. The comparator built from `Math.sin` of the seed decides the
      order; `shuffled` is the order it produced. */
  function DailyShuffled<T>(shuffled: seq<T>, count: int): (r: seq<T>)
    ensures r <= shuffled
    ensures count >= 0 ==> |r| == Min(count, |shuffled|)
    ensures count < 0 ==> |r| == Max(0, |shuffled| + count)
  {
    SlicePrefix(shuffled, count)
  }

  /** Sorting only reorders the catalogue, so the daily pick holds at most
      `count` recipes, each from the catalogue, none more often than the
      catalogue holds it. */
  lemma DailyShuffledCorrect<T>(catalogue: seq<T>, shuffled: seq<T>, count: nat)
    requires multiset(shuffled) == multiset(catalogue)
    ensures |DailyShuffled(shuffled, count)| == Min(count, |catalogue|)
    ensures multiset(DailyShuffled(shuffled, count)) <= multiset(catalogue)
    ensures forall x :: x in DailyShuffled(shuffled, count) ==> x in catalogue
  {
    var r := DailyShuffled(shuffled, count);
    assert shuffled == r + shuffled[|r|..];
    assert multiset(shuffled) == multiset(r) + multiset(shuffled[|r|..]);
    assert |catalogue| == |multiset(catalogue)| == |shuffled|;
    forall x | x in r ensures x in catalogue {
      assert x in multiset(r);
      assert x in multiset(catalogue);
    }
  }

  /** `map(f => f.recipe).filter(Boolean)`: the present recipes, in order. */
  function Present<T(!new)>(entries: seq<Option<T>>): (r: seq<T>)
    ensures |r| <= |entries|
    ensures forall x :: x in r <==> Some(x) in entries
  {
    if entries == [] then []
    else
      var rest := Present(entries[1..]);
      assert forall y :: Some(y) in entries <==> Some(y) == entries[0] || Some(y) in entries[1..];
      if entries[0].Some? then [entries[0].value] + rest else rest
  }

  /** Dropping the missing recipes keeps the order of the rest: it works piece by
      piece, and keeps every entry when none is missing. */
  lemma {:induction false} PresentAppend<T(!new)>(a: seq<Option<T>>, b: seq<Option<T>>)
    ensures Present(a + b) == Present(a) + Present(b)
  {
    if a == [] {
      assert a + b == b;
    } else {
      assert (a + b)[1..] == a[1..] + b;
      PresentAppend(a[1..], b);
    }
  }

  lemma {:induction false} PresentAll<T(!new)>(entries: seq<Option<T>>)
    requires forall i :: 0 <= i < |entries| ==> entries[i].Some?
    ensures |Present(entries)| == |entries|
    ensures forall i :: 0 <= i < |entries| ==> Present(entries)[i] == entries[i].value
  {
    if entries != [] {
      PresentAll(entries[1..]);
    }
  }

  /** `getFeaturedRecipesSafe`: the featured entries' recipes when there are
      entries, otherwise (and when the fetch throws, `None`) the daily pick of
      six. */
  function FeaturedRecipes<T(!new)>(featured: Option<seq<Option<T>>>, shuffled: seq<T>): (r: seq<T>)
    ensures featured.Some? && featured.value != [] ==> r == Present(featured.value)
    ensures featured.None? || featured.value == [] ==> r == DailyShuffled(shuffled, 6)
  {
    if featured.Some? && |featured.value| > 0 then Present(featured.value) else DailyShuffled(shuffled, 6)
  }

  /** The page renders the first six of the recipes it got. */
  function Rendered<T>(recipes: seq<T>): (r: seq<T>)
    ensures r <= recipes
    ensures |r| == Min(6, |recipes|)
  {
    SlicePrefix(recipes, 6)
  }

  /** With no featured entries the page shows six recipes of the catalogue (all
      of it when it is smaller); with featured entries it shows the first six
      present ones, in order. */
  lemma RenderedFeatured<T(!new)>(featured: Option<seq<Option<T>>>, catalogue: seq<T>, shuffled: seq<T>)
    requires multiset(shuffled) == multiset(catalogue)
    ensures featured.None? || featured.value == [] ==>
              && |Rendered(FeaturedRecipes(featured, shuffled))| == Min(6, |catalogue|)
              && multiset(Rendered(FeaturedRecipes(featured, shuffled))) <= multiset(catalogue)
    ensures featured.Some? && featured.value != [] ==>
              Rendered(FeaturedRecipes(featured, shuffled)) <= Present(featured.value)
    ensures |Rendered(FeaturedRecipes(featured, shuffled))| <= 6
  {
    DailyShuffledCorrect(catalogue, shuffled, 6);
    var d := DailyShuffled(shuffled, 6);
    assert Rendered(d) == d;
  }
}
