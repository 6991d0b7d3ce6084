/** `useCategories`: the category list with each label reduced to its readable
    part, categories without one removed, and optionally only the first few. */
module Categories {
  import opened Js
  import opened Seqs
  import opened Text
  import opened CategoryLabel

  /** A category as `getCategories` returns it; `labelText` is the field
      `label`, which this hook replaces by a possibly nullish value. */
  datatype CategoryRecord = CategoryRecord(uri: string, labelText: Nullable<string>, parentUri: string)

  /** `{ ...category, label: extractCategoryLabel(category.label) }`. */
  function Relabelled(c: CategoryRecord): (r: CategoryRecord)
    ensures r.uri == c.uri && r.parentUri == c.parentUri
    ensures r.labelText == ExtractCategoryLabel(c.labelText)
  {
    c.(labelText := ExtractCategoryLabel(c.labelText))
  }

  predicate HasLabel(c: CategoryRecord)
  {
    Truthy(c.labelText)
  }

  /** The relabelled categories whose new label is truthy, in input order; none
      while there is no data. */
  function LabelledCategories(data: Option<seq<CategoryRecord>>): (r: seq<CategoryRecord>)
    ensures data.None? ==> r == []
    ensures data.Some? ==> |r| <= |data.value|
    ensures data.Some? ==> forall c :: c in r <==> c in Map(data.value, Relabelled) && HasLabel(c)
    ensures forall c :: c in r ==> c.labelText.Val? && '/' !in c.labelText.value && !IsBlank(c.labelText.value)
  {
    if data.Some? then
      var relabelled := Map(data.value, Relabelled);
      var r := Filter(relabelled, HasLabel);
      assert forall c :: c in r ==> c in relabelled;
      r
    else []
  }

  /** A category is listed exactly when it is the relabelling of an input
      category whose label has a usable second segment. */
  lemma LabelledMembership(data: seq<CategoryRecord>, c: CategoryRecord)
    ensures c in LabelledCategories(Some(data)) <==>
      exists i :: 0 <= i < |data| && c == Relabelled(data[i]) && ExtractCategoryLabel(data[i].labelText).Val?
  {
    var relabelled := Map(data, Relabelled);
    if c in LabelledCategories(Some(data)) {
      var i :| 0 <= i < |relabelled| && relabelled[i] == c;
      assert c == Relabelled(data[i]);
    }
  }

  /** Relabelling and filtering go category by category, so the order of the
      input is kept. */
  lemma {:induction false} LabelledAppend(a: seq<CategoryRecord>, b: seq<CategoryRecord>)
    ensures LabelledCategories(Some(a + b)) == LabelledCategories(Some(a)) + LabelledCategories(Some(b))
  {
    MapAppend(a, b, Relabelled);
    FilterAppend(Map(a, Relabelled), Map(b, Relabelled), HasLabel);
  }

  /** `size ? categories.slice(0, size) : categories`: a missing or zero `size`
      keeps the whole list. */
  function UseCategories(data: Option<seq<CategoryRecord>>, size: Option<int>): (r: seq<CategoryRecord>)
    ensures var all := LabelledCategories(data);
      && (size.None? || size.value == 0 ==> r == all)
      && (size.Some? && size.value > 0 ==> r == all[..if size.value < |all| then size.value else |all|])
      && (size.Some? && size.value < 0 ==> r == all[..if |all| + size.value < 0 then 0 else |all| + size.value])
  {
    var categories := LabelledCategories(data);
    if size.Some? && size.value != 0 then SliceFromStart(categories, size.value) else categories
  }

  /** Every listed label is a readable name: present, non-blank and without `/`. */
  lemma ListedLabelsReadable(data: Option<seq<CategoryRecord>>, size: Option<int>, c: CategoryRecord)
    requires c in UseCategories(data, size)
    ensures c.labelText.Val? && '/' !in c.labelText.value && !IsBlank(c.labelText.value)
  {
    var all := LabelledCategories(data);
    assert UseCategories(data, size) <= all;
  }
}
