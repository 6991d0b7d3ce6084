/** `extractCategoryLabel`: the readable name of a category is the second
    `/`-separated segment of its label ("news/Business" -> "Business"). */
module CategoryLabel {
  import opened Js
  import opened Text

  /** A falsy label gives `undefined`; a label without a usable second segment
      gives `null`; otherwise the second segment itself, untrimmed. */
  function ExtractCategoryLabel(raw: Nullable<string>): (r: Nullable<string>)
    ensures r.Undefined? <==> !Truthy(raw)
    ensures Truthy(raw) && '/' !in raw.value ==> r.Null?
    ensures r.Val? <==> Truthy(raw) && '/' in raw.value && !IsBlank(SecondSegment(raw.value, '/'))
    ensures r.Val? ==> r.value == SecondSegment(raw.value, '/')
    ensures r.Val? ==> '/' !in r.value && !IsBlank(r.value)
  {
    if Truthy(raw) then
      var parts := Split(raw.value, '/');
      SplitPieces(raw.value, '/');
      if |parts| > 1 && Trim(parts[1]) != "" then Val(parts[1]) else Null
    else Undefined
  }

  /** Segments after the second are ignored: "a/b/c" gives "b". */
  lemma LaterSegmentsIgnored()
    ensures ExtractCategoryLabel(Val("a/b/c")) == Val("b")
  {
    assert IndexOf("a/b/c", '/') == 1;
    assert "a/b/c"[2..] == "b/c";
    assert IndexOf("b/c", '/') == 1;
    assert "b/c"[..1] == "b";
    assert SecondSegment("a/b/c", '/') == "b";
    assert !IsWhitespace("b"[0]);
  }

  /** An empty second segment gives `null`: "a/". */
  lemma EmptySecondSegmentIsNull()
    ensures ExtractCategoryLabel(Val("a/")) == Null
  {
    assert IndexOf("a/", '/') == 1;
    assert "a/"[2..] == "";
  }

  /** A whitespace-only second segment gives `null`: "a/  /b". */
  lemma BlankSecondSegmentIsNull()
    ensures ExtractCategoryLabel(Val("a/  /b")) == Null
  {
    assert IndexOf("a/  /b", '/') == 1;
    assert "a/  /b"[2..] == "  /b";
    assert IndexOf("  /b", '/') == 2;
    assert "  /b"[..2] == "  ";
    assert SecondSegment("a/  /b", '/') == "  ";
    assert IsBlank("  ");
  }

  /** The segment is returned untrimmed: "a/ b " gives " b ". */
  lemma SegmentNotTrimmed()
    ensures ExtractCategoryLabel(Val("a/ b ")) == Val(" b ")
  {
    assert IndexOf("a/ b ", '/') == 1;
    assert "a/ b "[2..] == " b ";
    assert '/' !in " b ";
    assert " b "[..3] == " b ";
    assert !IsWhitespace(" b "[1]);
  }
}
