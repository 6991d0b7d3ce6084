/** The autocomplete input: suggestions are de-duplicated by a key taken from
    their URI, and the input keeps its text and whether its dropdown is open. */
module InputAutocomplete {
  import opened Js
  import opened Text
  import opened CategoryLabel

  /** A suggestion: a URI and the display fields the callers pick from
      (`title` for sources, `label` for categories, `name` for authors).
      `labelText` stands for the field `label`, a reserved word in Dafny. */
  datatype Suggestion = Suggestion(uri: string, title: Nullable<string>, labelText: Nullable<string>, name: Nullable<string>)

  /** The object `{ uri: "" }` the clear button emits. */
  const Cleared := Suggestion("", Undefined, Undefined, Undefined)

  /** The `labelKey` prop: which field of a suggestion is displayed. */
  datatype LabelKey = UriField | TitleField | LabelField | NameField

  function Field(s: Suggestion, key: LabelKey): Nullable<string>
  {
    match key
    case UriField => Val(s.uri)
    case TitleField => s.title
    case LabelField => s.labelText
    case NameField => s.name
  }

  // ---------------------------------------------------------------------------
  // getUniqueLabels

  /** The uri of a selection held by a page, where the initial `{}` has none. */
  function UriOf(selected: Option<Suggestion>): (r: Option<string>)
    ensures r.Some? <==> selected.Some?
    ensures r.Some? ==> r.value == selected.value.uri
  {
    if selected.Some? then Some(selected.value.uri) else None
  }

  /** The de-duplication key of a URI: its second `/` piece when there is one,
      otherwise the whole URI. */
  function UriKey(uri: string): (key: string)
    ensures '/' in uri ==> key == SecondSegment(uri, '/')
    ensures '/' !in uri ==> key == uri
  {
    var parts := Split(uri, '/');
    SplitPieces(uri, '/');
    if |parts| > 1 then parts[1] else parts[0]
  }

  /** The key a suggestion is de-duplicated by. */
  function DedupeKey(s: Suggestion): string
  {
    UriKey(s.uri)
  }

  predicate HasKey(r: seq<Suggestion>, key: string)
  {
    exists j :: 0 <= j < |r| && DedupeKey(r[j]) == key
  }

  /** What `getUniqueLabels` computes, suggestion by suggestion in input order:
      a suggestion is kept when no kept one has its key yet. */
  function UniqueByKey(s: seq<Suggestion>): (r: seq<Suggestion>)
    ensures |r| <= |s|
    ensures s != [] ==> r != [] && r[0] == s[0]
  {
    if s == [] then []
    else
      var kept := UniqueByKey(s[..|s| - 1]);
      if HasKey(kept, DedupeKey(s[|s| - 1])) then kept else kept + [s[|s| - 1]]
  }

  /** The position of the first suggestion with key `key`, or `|s|` when none has it. */
  function FirstIndexOfKey(s: seq<Suggestion>, key: string): (f: nat)
    ensures f <= |s|
    ensures f < |s| ==> DedupeKey(s[f]) == key
  {
    if s == [] then 0
    else
      var p := s[..|s| - 1];
      var f := FirstIndexOfKey(p, key);
      if f < |p| then f
      else if DedupeKey(s[|s| - 1]) == key then |s| - 1
      else |s|
  }

  /** No suggestion before the first position has the key. */
  lemma {:induction false} FirstIndexIsFirst(s: seq<Suggestion>, key: string)
    ensures forall i :: 0 <= i < FirstIndexOfKey(s, key) ==> DedupeKey(s[i]) != key
  {
    if s != [] {
      var p := s[..|s| - 1];
      FirstIndexIsFirst(p, key);
      assert forall i :: 0 <= i < |p| ==> p[i] == s[i];
    }
  }

  /** The `forEach` loop over a JavaScript `Map` followed by
      `Array.from(uniqueLabels.values())`. The map's insertion order is kept in
      `order`. */
  method GetUniqueLabels(suggestions: seq<Suggestion>) returns (unique: seq<Suggestion>)
    ensures unique == UniqueByKey(suggestions)
  {
    var uniqueLabels: map<string, Suggestion> := map[];
    var order: seq<string> := [];
    ghost var kept: seq<Suggestion> := [];
    var i := 0;
    while i < |suggestions|
      invariant 0 <= i <= |suggestions|
      invariant kept == UniqueByKey(suggestions[..i])
      invariant Tracks(uniqueLabels, order, kept)
    {
      var suggestion := suggestions[i];
      var key := DedupeKey(suggestion);
      UniqueStep(suggestions, i);
      TracksHasKey(uniqueLabels, order, kept, key);
      if key !in uniqueLabels {
        TracksInsert(uniqueLabels, order, kept, suggestion);
        uniqueLabels := uniqueLabels[key := suggestion];
        order := order + [key];
        kept := kept + [suggestion];
      }
      i := i + 1;
    }
    assert suggestions[..i] == suggestions;
    unique := MapValues(uniqueLabels, order);
    assert unique == kept by {
      forall j | 0 <= j < |kept| ensures unique[j] == kept[j] {
        assert uniqueLabels[order[j]] == kept[j];
      }
    }
  }

  /** `Array.from(map.values())`: the values in the map's insertion order. */
  method MapValues(m: map<string, Suggestion>, order: seq<string>) returns (values: seq<Suggestion>)
    requires forall j :: 0 <= j < |order| ==> order[j] in m
    ensures |values| == |order|
    ensures forall j :: 0 <= j < |order| ==> values[j] == m[order[j]]
  {
    values := [];
    var j := 0;
    while j < |order|
      invariant 0 <= j <= |order|
      invariant |values| == j
      invariant forall k :: 0 <= k < j ==> values[k] == m[order[k]]
    {
      values := values + [m[order[j]]];
      j := j + 1;
    }
  }

  /** The loop's map and its insertion order hold exactly the kept suggestions,
      each under its key. */
  ghost predicate Tracks(uniqueLabels: map<string, Suggestion>, order: seq<string>, kept: seq<Suggestion>)
  {
    && |order| == |kept|
    && (forall j :: 0 <= j < |order| ==>
          order[j] == DedupeKey(kept[j]) && order[j] in uniqueLabels && uniqueLabels[order[j]] == kept[j])
    && (forall k :: k in uniqueLabels <==> k in order)
  }

  /** The map has a key iff some kept suggestion has it. */
  lemma TracksHasKey(uniqueLabels: map<string, Suggestion>, order: seq<string>, kept: seq<Suggestion>, key: string)
    requires Tracks(uniqueLabels, order, kept)
    ensures key in uniqueLabels <==> HasKey(kept, key)
  {
    if HasKey(kept, key) {
      var j :| 0 <= j < |kept| && DedupeKey(kept[j]) == key;
      assert order[j] == key;
    }
  }

  /** Setting a new key appends to the insertion order. */
  lemma TracksInsert(uniqueLabels: map<string, Suggestion>, order: seq<string>, kept: seq<Suggestion>, s: Suggestion)
    requires Tracks(uniqueLabels, order, kept)
    requires DedupeKey(s) !in uniqueLabels
    ensures Tracks(uniqueLabels[DedupeKey(s) := s], order + [DedupeKey(s)], kept + [s])
  {
  }

  /** One step of the loop: the next suggestion is kept iff its key is new. */
  lemma UniqueStep(s: seq<Suggestion>, i: int)
    requires 0 <= i < |s|
    ensures UniqueByKey(s[..i + 1]) ==
      if HasKey(UniqueByKey(s[..i]), DedupeKey(s[i])) then UniqueByKey(s[..i]) else UniqueByKey(s[..i]) + [s[i]]
  {
    assert s[..i + 1][..i] == s[..i];
  }

  /** Each kept suggestion is the input's first one with its key. */
  ghost predicate KeptAreFirsts(s: seq<Suggestion>, r: seq<Suggestion>)
  {
    forall j :: 0 <= j < |r| ==>
      FirstIndexOfKey(s, DedupeKey(r[j])) < |s| && r[j] == s[FirstIndexOfKey(s, DedupeKey(r[j]))]
  }

  /** The first-occurrence positions of the kept suggestions strictly increase. */
  ghost predicate FirstsIncrease(s: seq<Suggestion>, r: seq<Suggestion>)
  {
    forall a, b :: 0 <= a < b < |r| ==>
      FirstIndexOfKey(s, DedupeKey(r[a])) < FirstIndexOfKey(s, DedupeKey(r[b]))
  }

  /** Every key of the input occurs among the kept suggestions. */
  ghost predicate CoversKeys(s: seq<Suggestion>, r: seq<Suggestion>)
  {
    forall i :: 0 <= i < |s| ==> HasKey(r, DedupeKey(s[i]))
  }

  /** Every key of the input is kept. */
  lemma {:induction false} UniqueCoversKeys(s: seq<Suggestion>)
    ensures CoversKeys(s, UniqueByKey(s))
  {
    if s != [] {
      var n := |s|;
      var p := s[..n - 1];
      var rp := UniqueByKey(p);
      var r := UniqueByKey(s);
      UniqueCoversKeys(p);
      assert forall j :: 0 <= j < |rp| ==> r[j] == rp[j];
      forall i | 0 <= i < n ensures HasKey(r, DedupeKey(s[i])) {
        if i < n - 1 {
          assert s[i] == p[i];
          var j :| 0 <= j < |rp| && DedupeKey(rp[j]) == DedupeKey(p[i]);
          assert r[j] == rp[j];
        } else if HasKey(rp, DedupeKey(s[i])) {
          var j :| 0 <= j < |rp| && DedupeKey(rp[j]) == DedupeKey(s[i]);
          assert r[j] == rp[j];
        } else {
          assert r[|rp|] == s[i];
        }
      }
    }
  }

  /** The first position of a key that occurs before the last element does not
      move when the last element is added. */
  lemma FirstIndexExtends(s: seq<Suggestion>, key: string)
    requires s != []
    requires FirstIndexOfKey(s[..|s| - 1], key) < |s| - 1
    ensures FirstIndexOfKey(s, key) == FirstIndexOfKey(s[..|s| - 1], key)
  {
  }

  /** A key missing from the kept prefix first occurs at the last element. */
  lemma {:induction false} NewKeyFirstAtEnd(s: seq<Suggestion>)
    requires s != []
    requires !HasKey(UniqueByKey(s[..|s| - 1]), DedupeKey(s[|s| - 1]))
    ensures FirstIndexOfKey(s, DedupeKey(s[|s| - 1])) == |s| - 1
  {
    UniqueCoversKeys(s[..|s| - 1]);
  }

  /** Each kept suggestion is the input's first one with its key. */
  lemma {:induction false} UniqueKeepsFirsts(s: seq<Suggestion>)
    ensures KeptAreFirsts(s, UniqueByKey(s))
  {
    if s != [] {
      var n := |s|;
      var p := s[..n - 1];
      var rp := UniqueByKey(p);
      UniqueKeepsFirsts(p);
      FirstsCarry(s, rp);
      var isNew := !HasKey(rp, DedupeKey(s[n - 1]));
      assert UniqueByKey(s) == if isNew then rp + [s[n - 1]] else rp;
      if isNew {
        NewKeyFirstAtEnd(s);
        KeptAppendFirst(s, rp, s[n - 1]);
      }
    }
  }

  /** Firsts of the input without its last element are still firsts. */
  lemma FirstsCarry(s: seq<Suggestion>, r: seq<Suggestion>)
    requires s != [] && KeptAreFirsts(s[..|s| - 1], r)
    ensures KeptAreFirsts(s, r)
  {
    forall j | 0 <= j < |r|
      ensures FirstIndexOfKey(s, DedupeKey(r[j])) < |s| && r[j] == s[FirstIndexOfKey(s, DedupeKey(r[j]))]
    {
      FirstStaysFirst(s, r[j]);
    }
  }

  /** Appending a first keeps a list of firsts. */
  lemma KeptAppendFirst(s: seq<Suggestion>, r: seq<Suggestion>, x: Suggestion)
    requires KeptAreFirsts(s, r)
    requires FirstIndexOfKey(s, DedupeKey(x)) < |s| && x == s[FirstIndexOfKey(s, DedupeKey(x))]
    ensures KeptAreFirsts(s, r + [x])
  {
    var q := r + [x];
    forall j | 0 <= j < |q|
      ensures FirstIndexOfKey(s, DedupeKey(q[j])) < |s| && q[j] == s[FirstIndexOfKey(s, DedupeKey(q[j]))]
    {
      if j < |r| {
        assert q[j] == r[j];
      }
    }
  }

  /** A suggestion that is the first with its key before the last element stays
      the first once the last element is added. */
  lemma FirstStaysFirst(s: seq<Suggestion>, x: Suggestion)
    requires s != []
    requires FirstIndexOfKey(s[..|s| - 1], DedupeKey(x)) < |s| - 1
    requires x == s[..|s| - 1][FirstIndexOfKey(s[..|s| - 1], DedupeKey(x))]
    ensures FirstIndexOfKey(s, DedupeKey(x)) < |s| && x == s[FirstIndexOfKey(s, DedupeKey(x))]
  {
    FirstIndexExtends(s, DedupeKey(x));
  }

  /** The first-occurrence positions of the kept suggestions increase: the output
      is ordered by first occurrence and no key is kept twice. */
  lemma {:induction false} UniqueKeepsOrder(s: seq<Suggestion>)
    ensures FirstsIncrease(s, UniqueByKey(s))
  {
    if s != [] {
      var n := |s|;
      var p := s[..n - 1];
      var rp := UniqueByKey(p);
      var r := UniqueByKey(s);
      UniqueKeepsOrder(p);
      UniqueKeepsFirsts(p);
      forall a, b | 0 <= a < b < |r|
        ensures FirstIndexOfKey(s, DedupeKey(r[a])) < FirstIndexOfKey(s, DedupeKey(r[b]))
      {
        assert r[a] == rp[a];
        FirstIndexExtends(s, DedupeKey(rp[a]));
        if b < |rp| {
          assert r[b] == rp[b];
          FirstIndexExtends(s, DedupeKey(rp[b]));
        } else {
          assert !HasKey(rp, DedupeKey(s[n - 1])) && r == rp + [s[n - 1]];
          NewKeyFirstAtEnd(s);
        }
      }
    }
  }

  /** No two suggestions of `t` share a key. */
  ghost predicate KeysDistinct(t: seq<Suggestion>)
  {
    forall a, b :: 0 <= a < b < |t| ==> DedupeKey(t[a]) != DedupeKey(t[b])
  }

  /** No two kept suggestions share a key. */
  lemma UniqueKeysDistinct(s: seq<Suggestion>)
    ensures KeysDistinct(UniqueByKey(s))
  {
    var r := UniqueByKey(s);
    UniqueKeepsOrder(s);
    forall a, b | 0 <= a < b < |r| ensures DedupeKey(r[a]) != DedupeKey(r[b]) {
      assert FirstIndexOfKey(s, DedupeKey(r[a])) < FirstIndexOfKey(s, DedupeKey(r[b]));
    }
  }

  /** A sequence whose keys are already distinct is left as it is. */
  lemma {:induction false} DistinctKeysUnchanged(t: seq<Suggestion>)
    requires KeysDistinct(t)
    ensures UniqueByKey(t) == t
  {
    if t != [] {
      var p := t[..|t| - 1];
      DistinctPrefix(t);
      DistinctKeysUnchanged(p);
      assert p + [t[|t| - 1]] == t;
    }
  }

  /** Dropping the last suggestion of a list with distinct keys leaves distinct
      keys, none of which is the last suggestion's. */
  lemma DistinctPrefix(t: seq<Suggestion>)
    requires t != [] && KeysDistinct(t)
    ensures KeysDistinct(t[..|t| - 1])
    ensures !HasKey(t[..|t| - 1], DedupeKey(t[|t| - 1]))
  {
    var p := t[..|t| - 1];
    assert forall j :: 0 <= j < |p| ==> p[j] == t[j];
  }

  /** De-duplicating twice is the same as once. */
  lemma UniqueByKeyIdempotent(s: seq<Suggestion>)
    ensures UniqueByKey(UniqueByKey(s)) == UniqueByKey(s)
  {
    UniqueKeysDistinct(s);
    DistinctKeysUnchanged(UniqueByKey(s));
  }

  // ---------------------------------------------------------------------------
  // The input's state

  /** The text `handleSuggestionClick` puts in the input: the displayed field,
      passed through `extractCategoryLabel` when `extractLabel` is set, with a
      nullish result shown as "". */
  function ClickedLabel(s: Suggestion, labelKey: LabelKey, extractLabel: bool): (text: string)
    ensures !extractLabel ==> text == OrEmpty(Field(s, labelKey))
    ensures extractLabel ==> (text == "" <==> !ExtractCategoryLabel(Field(s, labelKey)).Val?)
    ensures extractLabel && text != "" ==> '/' !in text && text == ExtractCategoryLabel(Field(s, labelKey)).value
  {
    var shown := if extractLabel then ExtractCategoryLabel(Field(s, labelKey)) else Field(s, labelKey);
    OrEmpty(shown)
  }

  /** One autocomplete widget: its props, the text in the box and whether the
      dropdown is open. The debounced copy of the text and the suggestion query
      are not part of this model. */
  class Autocomplete {
    const labelKey: LabelKey
    const extractLabel: bool
    var inputValue: string
    var isDropdownOpen: bool

    constructor (labelKey: LabelKey, extractLabel: bool)
      ensures this.labelKey == labelKey && this.extractLabel == extractLabel
      ensures inputValue == "" && !isDropdownOpen
    {
      this.labelKey := labelKey;
      this.extractLabel := extractLabel;
      inputValue := "";
      isDropdownOpen := false;
    }

    /** The clear icon is shown while the box holds text. */
    function ShowsClearButton(): (shown: bool)
      reads this
      ensures shown <==> |inputValue| > 0
    {
      inputValue != ""
    }

    /** `handleInputChange`: typing sets the text and opens the dropdown. */
    method HandleInputChange(value: string)
      modifies this
      ensures inputValue == value && isDropdownOpen
      ensures ShowsClearButton() <==> value != ""
    {
      inputValue := value;
      isDropdownOpen := true;
    }

    /** `handleSuggestionClick`: shows the clicked label, forwards the
      suggestion to `onSuggestionClick` and closes the dropdown. */
    method HandleSuggestionClick(suggestion: Suggestion) returns (emitted: Suggestion)
      modifies this
      ensures inputValue == ClickedLabel(suggestion, labelKey, extractLabel)
      ensures emitted == suggestion
      ensures !isDropdownOpen
    {
      inputValue := ClickedLabel(suggestion, labelKey, extractLabel);
      emitted := suggestion;
      isDropdownOpen := false;
    }

    /** `handleClearInput`: empties the box, emits `{ uri: "" }` and closes the
      dropdown. */
    method HandleClearInput() returns (emitted: Suggestion)
      modifies this
      ensures inputValue == "" && !isDropdownOpen
      ensures !ShowsClearButton()
      ensures emitted == Cleared
    {
      inputValue := "";
      emitted := Cleared;
      isDropdownOpen := false;
    }

    /** The list the dropdown shows: the fetched suggestions (none while there is
      no data) de-duplicated. */
    method UniqueSuggestions(data: Option<seq<Suggestion>>) returns (shown: seq<Suggestion>)
      ensures data.None? ==> shown == []
      ensures data.Some? ==> shown == UniqueByKey(data.value)
    {
      shown := GetUniqueLabels(if data.Some? then data.value else []);
    }
  }
}
