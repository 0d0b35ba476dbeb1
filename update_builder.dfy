/** The SET clause and parameter list that `updateRecipe` in lib/database.ts
    assembles before its UPDATE statement: one "column = $k" clause per supplied
    field, in a fixed column order, numbered from 1, then the timestamp clause.
    `JSON.stringify` of the two list fields is kept abstract as a `Json` value. */
module DatabaseUpdate {
  import opened Common
  import opened Strings

  /** A query parameter. */
  datatype SqlValue = Text(s: string) | Number(n: int) | Json(items: seq<string>)

  /** The fields an update may supply; `None` is `undefined`. */
  datatype DbPatch = DbPatch(
    title: Option<string>,
    description: Option<string>,
    imageUrl: Option<string>,
    prepTime: Option<int>,
    cookTime: Option<int>,
    servings: Option<int>,
    difficulty: Option<string>,
    category: Option<string>,
    ingredients: Option<seq<string>>,
    instructions: Option<seq<string>>)

  /** The columns in the order the builder tests them. */
  const Columns: seq<string> := ["title", "description", "image_url", "prep_time", "cook_time",
                                 "servings", "difficulty", "category", "ingredients", "instructions"]

  const TimestampClause: string := "updated_at = CURRENT_TIMESTAMP"

  function TextOf(x: Option<string>): Option<SqlValue> {
    if x.Some? then Some(Text(x.value)) else None
  }

  function NumberOf(x: Option<int>): Option<SqlValue> {
    if x.Some? then Some(Number(x.value)) else None
  }

  function JsonOf(x: Option<seq<string>>): Option<SqlValue> {
    if x.Some? then Some(Json(x.value)) else None
  }

  /** The parameter each column would get, or None when the field is not supplied. */
  function Entries(p: DbPatch): (e: seq<Option<SqlValue>>)
    ensures |e| == |Columns|
  {
    [TextOf(p.title), TextOf(p.description), TextOf(p.imageUrl), NumberOf(p.prepTime),
     NumberOf(p.cookTime), NumberOf(p.servings), TextOf(p.difficulty), TextOf(p.category),
     JsonOf(p.ingredients), JsonOf(p.instructions)]
  }

  /** One supplied field: its position in `Columns`, and its parameter. */
  datatype Assignment = Assignment(index: nat, value: SqlValue)

  /** The supplied entries among the first `k`, in order. */
  function Supplied(e: seq<Option<SqlValue>>, k: nat): (a: seq<Assignment>)
    requires k <= |e|
    ensures |a| <= k
    ensures forall i :: 0 <= i < |a| ==> a[i].index < k
  {
    if k == 0 then []
    else Supplied(e, k - 1) + (if e[k - 1].Some? then [Assignment(k - 1, e[k - 1].value)] else [])
  }

  /** Each supplied entry is a present one with its own value, in increasing
      position. */
  lemma {:induction false} SuppliedSound(e: seq<Option<SqlValue>>, k: nat)
    requires k <= |e|
    ensures forall i :: 0 <= i < |Supplied(e, k)| ==> e[Supplied(e, k)[i].index] == Some(Supplied(e, k)[i].value)
    ensures forall i, j :: 0 <= i < j < |Supplied(e, k)| ==> Supplied(e, k)[i].index < Supplied(e, k)[j].index
  {
    if k > 0 {
      SuppliedSound(e, k - 1);
      var before := Supplied(e, k - 1);
      var a := Supplied(e, k);
      assert forall i :: 0 <= i < |before| ==> a[i] == before[i];
    }
  }

  /** Every present entry is supplied, and only those. */
  lemma {:induction false} SuppliedComplete(e: seq<Option<SqlValue>>, k: nat, c: nat)
    requires c < k <= |e|
    ensures e[c].Some? <==> exists i :: 0 <= i < |Supplied(e, k)| && Supplied(e, k)[i].index == c
  {
    SuppliedSound(e, k);
    var before := Supplied(e, k - 1);
    var a := Supplied(e, k);
    assert forall i :: 0 <= i < |before| ==> a[i] == before[i];
    if e[c].Some? {
      if c < k - 1 {
        SuppliedComplete(e, k - 1, c);
        var i :| 0 <= i < |before| && before[i].index == c;
        assert a == before + a[|before|..];
        assert 0 <= i < |Supplied(e, k)| && Supplied(e, k)[i].index == c;
      } else {
        assert a[|before|].index == c;
      }
    } else {
      forall i | 0 <= i < |a| ensures a[i].index != c {
        assert e[a[i].index] == Some(a[i].value);
      }
    }
  }

  /** With nothing present nothing is supplied. */
  lemma {:induction false} NothingSupplied(e: seq<Option<SqlValue>>, k: nat)
    requires k <= |e|
    requires forall c :: 0 <= c < |e| ==> e[c].None?
    ensures Supplied(e, k) == []
  {
    if k > 0 {
      NothingSupplied(e, k - 1);
    }
  }

  /** The k-th clause, "column = $k". */
  function Clause(column: string, k: nat): string {
    column + " = $" + NatToString(k)
  }

  /** The clauses and parameters the builder produces for the supplied fields. */
  ghost predicate Built(a: seq<Assignment>, updates: seq<string>, values: seq<SqlValue>) {
    && |updates| == |a| && |values| == |a|
    && (forall i :: 0 <= i < |a| ==>
          && a[i].index < |Columns|
          && updates[i] == Clause(Columns[a[i].index], i + 1)
          && values[i] == a[i].value)
  }

  /** The `updates` and `values` lists of `updateRecipe`. The source writes one `if`
      per column; the loop runs over the column table in the same order. */
  method BuildUpdate(p: DbPatch) returns (updates: seq<string>, values: seq<SqlValue>)
    ensures |updates| == |values| + 1 && updates[|updates| - 1] == TimestampClause
    ensures Built(Supplied(Entries(p), |Columns|), updates[..|updates| - 1], values)
  {
    updates := [];
    values := [];
    for k := 0 to |Columns|
      invariant Built(Supplied(Entries(p), k), updates, values)
    {
      var e := Entries(p)[k];
      if e.Some? {
        updates := updates + [Clause(Columns[k], |updates| + 1)];
        values := values + [e.value];
      }
    }
    updates := updates + [TimestampClause];
    assert updates[..|updates| - 1] == updates[..|values|];
  }

  /** An update that supplies nothing only touches the timestamp. */
  lemma EmptyPatchOnlyTimestamp()
    ensures Supplied(Entries(DbPatch(None, None, None, None, None, None, None, None, None, None)), |Columns|) == []
  {
    var e := Entries(DbPatch(None, None, None, None, None, None, None, None, None, None));
    NothingSupplied(e, |Columns|);
  }

  /** The list fields travel as JSON, the others as themselves. */
  lemma ListFieldsAsJson(p: DbPatch)
    ensures p.ingredients.Some? ==> Entries(p)[8] == Some(Json(p.ingredients.value))
    ensures p.instructions.Some? ==> Entries(p)[9] == Some(Json(p.instructions.value))
    ensures p.title.Some? ==> Entries(p)[0] == Some(Text(p.title.value))
  {
  }
}
