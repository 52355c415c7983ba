/** The fixed table of spending categories (app.js:14-22) and the two ways the
    page resolves an expense's `categoryId` against it. */
module Categories {
  import opened Wrappers

  datatype Category = Category(id: string, name: string, icon: string, color: string)

  /** The seven categories, in display order; the last one, `other`, is the fallback. */
  const Table: seq<Category> := [
    Category("food", "Food", "ph-hamburger", "#ff7675"),
    Category("transport", "Transport", "ph-car", "#0984e3"),
    Category("shopping", "Shopping", "ph-shopping-bag", "#e17055"),
    Category("utilities", "Utilities", "ph-lightbulb", "#fdcb6e"),
    Category("entertainment", "Entertainment", "ph-film-strip", "#a29bfe"),
    Category("health", "Health", "ph-heart", "#00b894"),
    Category("other", "Other", "ph-dots-three-circle", "#636e72")
  ]

  /** True when some category of `cats` carries `id`. */
  predicate Known(cats: seq<Category>, id: string)
  {
    exists i :: 0 <= i < |cats| && cats[i].id == id
  }

  /** `c` is the first entry of `cats` carrying `id`. */
  predicate FirstWith(cats: seq<Category>, id: string, c: Category)
  {
    exists i :: 0 <= i < |cats| && cats[i] == c && c.id == id && !Known(cats[..i], id)
  }

  /** `categories.find(c => c.id === id)`: the first entry carrying `id`, if any. */
  function Find(cats: seq<Category>, id: string): (r: Option<Category>)
    ensures r.None? <==> !Known(cats, id)
    ensures r.Some? ==> r.value in cats && FirstWith(cats, id, r.value)
  {
    if cats == [] then None
    else if cats[0].id == id then
      assert cats[..0] == [];
      Some(cats[0])
    else
      var r := Find(cats[1..], id);
      FindSkip(cats, id, r);
      r
  }

  /** Skipping a first entry that does not carry `id` preserves what `Find` promises. */
  lemma FindSkip(cats: seq<Category>, id: string, r: Option<Category>)
    requires cats != [] && cats[0].id != id
    requires r.None? <==> !Known(cats[1..], id)
    requires r.Some? ==> r.value in cats[1..] && FirstWith(cats[1..], id, r.value)
    ensures r.None? <==> !Known(cats, id)
    ensures r.Some? ==> r.value in cats && FirstWith(cats, id, r.value)
  {
    if Known(cats, id) {
      var i :| 0 <= i < |cats| && cats[i].id == id;
      assert i > 0 && cats[1..][i - 1].id == id;
    }
    if Known(cats[1..], id) {
      var i :| 0 <= i < |cats[1..]| && cats[1..][i].id == id;
      assert cats[i + 1].id == id;
    }
    if r.Some? {
      var i :| 0 <= i < |cats[1..]| && cats[1..][i] == r.value && r.value.id == id && !Known(cats[1..][..i], id);
      assert cats[i + 1] == r.value;
      assert cats[..i + 1] == [cats[0]] + cats[1..][..i];
      assert !Known(cats[..i + 1], id);
    }
  }

  /** The transaction list's resolution (app.js:167): the matching entry, else the last entry. */
  function Lookup(id: string): (c: Category)
    ensures c in Table
    ensures Known(Table, id) ==> c.id == id
    ensures !Known(Table, id) ==> c == Table[|Table| - 1]
  {
    match Find(Table, id)
    case Some(c) => c
    case None => Table[|Table| - 1]
  }

  /** What a chart bar shows of a category: `{name, color}`. */
  datatype Shown = Shown(name: string, color: string)

  /** The chart's own fallback for an unknown id (app.js:233). */
  const ChartDefault: Shown := Shown("Other", "#636e72")

  /** The chart's resolution (app.js:236): the matching entry, else `ChartDefault`. */
  function ChartLookup(id: string): (d: Shown)
    ensures Known(Table, id) ==> exists i :: 0 <= i < |Table| && Table[i].id == id && d == Shown(Table[i].name, Table[i].color)
    ensures !Known(Table, id) ==> d == ChartDefault
  {
    match Find(Table, id)
    case Some(c) => Shown(c.name, c.color)
    case None => ChartDefault
  }

  /** No two table entries share an id. */
  lemma TableIdsDistinct()
    ensures forall i, j :: 0 <= i < j < |Table| ==> Table[i].id != Table[j].id
  {
  }

  /** Looking up the id of a table entry yields that very entry. */
  lemma LookupTableEntry(i: nat)
    requires i < |Table|
    ensures Lookup(Table[i].id) == Table[i]
  {
    TableIdsDistinct();
  }

  /** The two fallbacks agree: for every id, known or not, the chart shows the
      same name and colour as the transaction list. */
  lemma ChartAgreesWithLookup(id: string)
    ensures ChartLookup(id) == Shown(Lookup(id).name, Lookup(id).color)
  {
    TableIdsDistinct();
  }

}
