/** The printable page that `handlePrint` of components/print-recipe.tsx writes:
    the recipe's texts are inserted into the HTML as they are, and the two lists
    become runs of `<li>` items. Only the parts that depend on the recipe are
    modelled. */
module PrintRecipe {
  import opened Strings
  import opened RecipeModel

  /** One list item. */
  function Item(x: string): string {
    "<li>" + x + "</li>"
  }

  /** `xs.map(x => `<li>${x}</li>`).join("")`. */
  function ListItems(xs: seq<string>): (html: string)
    ensures xs == [] ==> html == ""
  {
    if xs == [] then "" else ListItems(xs[..|xs| - 1]) + Item(xs[|xs| - 1])
  }

  /** The items of a concatenation are the items of each part, one after the other. */
  lemma {:induction false} ListItemsAppend(xs: seq<string>, ys: seq<string>)
    ensures ListItems(xs + ys) == ListItems(xs) + ListItems(ys)
    decreases |ys|
  {
    if ys == [] {
      assert xs + ys == xs;
    } else {
      var ys' := ys[..|ys| - 1];
      var last := ys[|ys| - 1];
      assert (xs + ys)[..|xs + ys| - 1] == xs + ys';
      assert (xs + ys)[|xs + ys| - 1] == last;
      ListItemsAppend(xs, ys');
      calc {
        ListItems(xs + ys);
        ListItems(xs + ys') + Item(last);
        (ListItems(xs) + ListItems(ys')) + Item(last);
        ListItems(xs) + (ListItems(ys') + Item(last));
        ListItems(xs) + ListItems(ys);
      }
    }
  }

  /** Each entry sits in its own item, in list order, with nothing between the
      items. */
  lemma {:induction false} ListItemsCorrect(xs: seq<string>, i: nat)
    requires i < |xs|
    ensures ListItems(xs) == ListItems(xs[..i]) + Item(xs[i]) + ListItems(xs[i + 1..])
  {
    var pre, mid, post := xs[..i], [xs[i]], xs[i + 1..];
    assert xs == (pre + mid) + post;
    ListItemsAppend(pre + mid, post);
    ListItemsAppend(pre, mid);
    assert ListItems(mid) == Item(xs[i]) by {
      assert mid[..0] == [];
      assert ListItems(mid) == ListItems([]) + Item(xs[i]);
    }
  }

  /** The total length of the entries. */
  function SumLengths(xs: seq<string>): nat {
    if xs == [] then 0 else SumLengths(xs[..|xs| - 1]) + |xs[|xs| - 1]|
  }

  /** The markup adds nine characters per entry and nothing else. */
  lemma {:induction false} ListItemsLength(xs: seq<string>)
    ensures |ListItems(xs)| == SumLengths(xs) + 9 * |xs|
  {
    if xs != [] {
      ListItemsLength(xs[..|xs| - 1]);
    }
  }

  /** The document title, "<title> - Recipe". */
  function TitleText(r: Recipe): string {
    r.title + " - Recipe"
  }

  /** The four values of the meta row: prep, cook and total time in minutes, and
      the servings as given. */
  function MetaValues(r: Recipe): (v: seq<string>)
    ensures |v| == 4
  {
    [IntToString(r.prepTime) + " min", IntToString(r.cookTime) + " min",
     IntToString(r.prepTime + r.cookTime) + " min", IntToString(r.servings)]
  }

  /** The parts of the page that come from the recipe, in page order. */
  function Fragments(r: Recipe): seq<string> {
    [TitleText(r), r.title, r.description] + MetaValues(r)
      + [ListItems(r.ingredients), ListItems(r.instructions)]
  }

  /** The title and description go in verbatim, without escaping; the total
      time is the sum of the two times; and the lists hold each ingredient and
      each instruction as an item in order. */
  lemma FragmentsCorrect(r: Recipe)
    ensures Fragments(r)[1] == r.title && Fragments(r)[2] == r.description
    ensures StartsWith(Fragments(r)[0], r.title)
    ensures Fragments(r)[5] == IntToString(r.prepTime + r.cookTime) + " min"
    ensures forall i :: 0 <= i < |r.ingredients| ==>
              Contains(Fragments(r)[7], Item(r.ingredients[i]))
    ensures forall i :: 0 <= i < |r.instructions| ==>
              Contains(Fragments(r)[8], Item(r.instructions[i]))
  {
    forall i | 0 <= i < |r.ingredients|
      ensures Contains(ListItems(r.ingredients), Item(r.ingredients[i]))
    {
      ItemOccurs(r.ingredients, i);
    }
    forall i | 0 <= i < |r.instructions|
      ensures Contains(ListItems(r.instructions), Item(r.instructions[i]))
    {
      ItemOccurs(r.instructions, i);
    }
  }

  lemma {:induction false} ItemOccurs(xs: seq<string>, i: nat)
    requires i < |xs|
    ensures Contains(ListItems(xs), Item(xs[i]))
  {
    ListItemsCorrect(xs, i);
    var before := ListItems(xs[..i]);
    var s := ListItems(xs);
    assert OccursAt(s, Item(xs[i]), |before|);
  }
}
