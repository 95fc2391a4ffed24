/** A product tile on the shop's home page (src/components/ProductCard.jsx):
    image, shortened description, price, and the link to the product page. */
module ProductCard {
  import opened Wrappers
  import opened Text
  import opened Money
  import opened Catalog

  const NoDescription: string := "No description available"
  const DescriptionLimit: int := 70

  /** The cut-off case of `truncate`: a non-empty text longer than the
      limit. */
  predicate IsCut(text: Option<string>, maxLength: int) {
    text.Some? && text.value != "" && |text.value| > maxLength
  }

  /** `truncate(text, maxLength)`: a missing or empty text becomes the
      "no description" notice, a short enough text stays as it is, and a
      longer one is cut at the last space among its first `maxLength`
      characters (at the very start when there is none) and gets "...". */
  function Truncate(text: Option<string>, maxLength: int): (r: string)
    ensures text.None? || text.value == "" ==> r == NoDescription
    ensures text.Some? && text.value != "" && |text.value| <= maxLength ==> r == text.value
    ensures IsCut(text, maxLength) ==>
      var t, m := text.value, ClampIndex(maxLength, |text.value|);
      && 3 <= |r| && r[|r| - 3..] == "..."
      && |r| - 3 <= m && r[..|r| - 3] == t[..|r| - 3]
      && (' ' in t[..m] ==> |r| - 3 < m && t[|r| - 3] == ' ' && ' ' !in t[|r| - 2..m])
      && (' ' !in t[..m] ==> r == "...")
      && (|r| <= maxLength + 2 || r == "...")
  {
    if text.None? || text.value == "" then NoDescription
    else if |text.value| <= maxLength then text.value
    else
      var truncated := Substring(text.value, 0, maxLength);
      var r := Substring(truncated, 0, LastIndexOf(truncated, ' ')) + "...";
      assert r[..|r| - 3] == truncated[..|r| - 3];
      assert r[|r| - 3..] == "...";
      r
  }

  /** What one tile shows and where it leads. */
  datatype Card = Card(image: string, description: string, price: string, cardLink: string, buttonLink: string)

  /** The tile of a product. The price is `price?.toFixed(2)`, rendering
      nothing when the price is absent. */
  function ProductTile(p: Product): (c: Card)
    ensures c.image == ImageSrc(p.image)
    ensures c.description == Truncate(p.description, DescriptionLimit)
    ensures p.price.Some? ==> c.price == Fixed2(p.price.value)
    ensures p.price.None? ==> c.price == ""
    ensures c.cardLink == c.buttonLink
    ensures IsPlainSegment(p.id) ==> ProductRouteId(c.cardLink) == Some(p.id)
  {
    assert IsPlainSegment(p.id) ==> ProductRouteId(ProductPath(p.id)) == Some(p.id) by {
      if IsPlainSegment(p.id) { ProductPathRoundTrip(p.id); }
    }
    var link := ProductPath(p.id);
    Card(ImageSrc(p.image), Truncate(p.description, DescriptionLimit),
      if p.price.Some? then Fixed2(p.price.value) else "", link, link)
  }
}
