/** The card of a most-popular article: a background photo and the title and
    abstract over it. */
module PopularArticleCard {

  const ABSTRACT_LIMIT := 80

  /** `photos[2] || ""`: the third photo URL, or nothing when there is none. */
  function BackgroundImage(photos: seq<string>): (image: string)
    ensures |photos| > 2 ==> image == photos[2]
    ensures |photos| <= 2 ==> image == ""
  {
    if |photos| > 2 then photos[2] else ""
  }

  /** The abstract shown: as it is up to 80 characters, otherwise its first 80
      followed by "...". */
  function ShownAbstract(text: string): (shown: string)
    ensures |text| <= ABSTRACT_LIMIT ==> shown == text
    ensures |text| > ABSTRACT_LIMIT ==> |shown| == ABSTRACT_LIMIT + 3 && shown[ABSTRACT_LIMIT..] == "..."
    ensures |shown| <= ABSTRACT_LIMIT + 3
    ensures var k := if |text| < ABSTRACT_LIMIT then |text| else ABSTRACT_LIMIT;
      shown[..k] == text[..k]
  {
    if |text| > ABSTRACT_LIMIT then text[..ABSTRACT_LIMIT] + "..." else text
  }

  /** Shortening a shown abstract again changes nothing. */
  lemma ShownAbstractIdempotent(text: string)
    ensures ShownAbstract(ShownAbstract(text)) == ShownAbstract(text)
  {
    if |text| > ABSTRACT_LIMIT {
      var shown := ShownAbstract(text);
      assert shown[..ABSTRACT_LIMIT] == text[..ABSTRACT_LIMIT];
    }
  }
}
