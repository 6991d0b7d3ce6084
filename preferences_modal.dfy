/** The preferences modal: which suggestions are already chosen, the callback a
    chosen suggestion is passed to, and the chips that list the chosen items. */
module PreferencesModal {
  import opened Js
  import opened CategoryLabel
  import opened InputAutocomplete

  /** The `type` argument: which of the three lists an item belongs to. */
  datatype PreferenceType = SourcesType | CategoriesType | AuthorsType

  /** The `selectedItems` prop. */
  datatype SelectedItems = SelectedItems(sources: seq<Suggestion>, categories: seq<Suggestion>, authors: seq<Suggestion>)

  /** A call of one of the `onSelect` callbacks, with its argument. */
  datatype SelectCall = SelectSource(source: Suggestion) | SelectCategory(category: Suggestion) | SelectAuthor(author: Suggestion)

  /** A selected item as a chip: the text shown, its uri, and the index the
      close icon passes to the matching `onRemove` callback. */
  datatype Chip = Chip(title: Nullable<string>, uri: string, removeIndex: nat)

  function ListOf(items: SelectedItems, t: PreferenceType): seq<Suggestion>
  {
    match t
    case SourcesType => items.sources
    case CategoriesType => items.categories
    case AuthorsType => items.authors
  }

  /** `isItemSelected`: some item of the list of kind `t` has the same uri. */
  function IsItemSelected(items: SelectedItems, t: PreferenceType, item: Suggestion): (b: bool)
    ensures b <==> exists i :: 0 <= i < |ListOf(items, t)| && ListOf(items, t)[i].uri == item.uri
  {
    SameUriIn(ListOf(items, t), item.uri)
  }

  function SameUriIn(list: seq<Suggestion>, uri: string): (b: bool)
    ensures b <==> exists i :: 0 <= i < |list| && list[i].uri == uri
  {
    if list == [] then false
    else list[0].uri == uri || SameUriIn(list[1..], uri)
  }

  /** `handleSelect`: nothing for an item already chosen; otherwise the callback of
      its kind, with a category's label reduced by `extractCategoryLabel`. */
  function HandleSelect(items: SelectedItems, t: PreferenceType, item: Suggestion): (call: Option<SelectCall>)
    ensures call.None? <==> IsItemSelected(items, t, item)
    ensures call.Some? && t == SourcesType ==> call.value == SelectSource(item)
    ensures call.Some? && t == AuthorsType ==> call.value == SelectAuthor(item)
    ensures call.Some? && t == CategoriesType ==>
      && call.value.SelectCategory?
      && call.value.category.uri == item.uri
      && call.value.category.title == item.title && call.value.category.name == item.name
      && call.value.category.labelText == ExtractCategoryLabel(item.labelText)
  {
    if IsItemSelected(items, t, item) then None
    else
      match t
      case SourcesType => Some(SelectSource(item))
      case CategoriesType => Some(SelectCategory(item.(labelText := ExtractCategoryLabel(item.labelText))))
      case AuthorsType => Some(SelectAuthor(item))
  }

  /** The suggestion a call passes on. */
  function Argument(call: SelectCall): Suggestion
  {
    match call
    case SelectSource(s) => s
    case SelectCategory(c) => c
    case SelectAuthor(a) => a
  }

  /** The kind whose callback a call is. */
  function KindOf(call: SelectCall): PreferenceType
  {
    match call
    case SelectSource(_) => SourcesType
    case SelectCategory(_) => CategoriesType
    case SelectAuthor(_) => AuthorsType
  }

  /** The callback that fires is the one of the item's kind, and it is passed
      the item's uri. */
  lemma DispatchMatchesKind(items: SelectedItems, t: PreferenceType, item: Suggestion)
    requires HandleSelect(items, t, item).Some?
    ensures KindOf(HandleSelect(items, t, item).value) == t
    ensures Argument(HandleSelect(items, t, item).value).uri == item.uri
  {
  }

  predicate DistinctUris(list: seq<Suggestion>)
  {
    forall i, j :: 0 <= i < j < |list| ==> list[i].uri != list[j].uri
  }

  /** A caller that appends every forwarded item to the list of its kind keeps
      that list free of repeated uris. */
  lemma AppendingForwardedKeepsUrisDistinct(items: SelectedItems, t: PreferenceType, item: Suggestion)
    requires DistinctUris(ListOf(items, t))
    requires HandleSelect(items, t, item).Some?
    ensures DistinctUris(ListOf(items, t) + [Argument(HandleSelect(items, t, item).value)])
  {
    var list := ListOf(items, t);
    var added := Argument(HandleSelect(items, t, item).value);
    assert added.uri == item.uri;
    forall i, j | 0 <= i < j < |list| + 1
      ensures (list + [added])[i].uri != (list + [added])[j].uri
    {
      if j == |list| {
        assert (list + [added])[i] == list[i];
      }
    }
  }

  /** The text a chip shows: a source's `title`, a category's `label`, an
      author's `name`. */
  function ChipTitle(t: PreferenceType, s: Suggestion): Nullable<string>
  {
    match t
    case SourcesType => s.title
    case CategoriesType => s.labelText
    case AuthorsType => s.name
  }

  /** The chips of one list, in list order; the close icon of the chip at
      position `i` removes index `i`. */
  function Chips(items: SelectedItems, t: PreferenceType): (chips: seq<Chip>)
    ensures |chips| == |ListOf(items, t)|
    ensures forall i :: 0 <= i < |chips| ==>
      chips[i] == Chip(ChipTitle(t, ListOf(items, t)[i]), ListOf(items, t)[i].uri, i)
  {
    var list := ListOf(items, t);
    seq(|list|, i requires 0 <= i < |list| => Chip(ChipTitle(t, list[i]), list[i].uri, i))
  }
}
