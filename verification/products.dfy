/**
 * The product catalogue of the shop: payload records, the `Product` /
 * `Clothing` records built from them by their `type` tag, the catalogue
 * mapping the loaders apply, the lookup by id, the rating-image path and the
 * extra HTML a record contributes to its product card.
 */
module Products {
  import opened Wrappers
  import Decimal

  /** A rating; `stars` (4.5 and the like) is held as a whole number of tenths. */
  datatype Rating = Rating(starsTenths: nat)

  /**
   * One record of the product payload. `typeTag` is the payload's `type`
   * field and `sizeChartLink` its optional link; `None` is an absent field.
   */
  datatype ProductDetails = ProductDetails(
    id: string,
    image: string,
    name: string,
    rating: Rating,
    priceCents: int,
    typeTag: Option<string>,
    sizeChartLink: Option<string>)

  /** The two record classes of the catalogue; `Clothing` extends `Product` with a size chart. */
  datatype Product =
    | Product(id: string, image: string, name: string, rating: Rating, priceCents: int)
    | Clothing(id: string, image: string, name: string, rating: Rating, priceCents: int,
               sizeChartLink: Option<string>)

  const ClothingTag: string := "clothing"

  /** The constructor the loaders choose by the payload's type tag. */
  function FromDetails(d: ProductDetails): (p: Product)
    ensures p.Clothing? <==> d.typeTag == Some(ClothingTag)
    ensures p.id == d.id && p.image == d.image && p.name == d.name
    ensures p.rating == d.rating && p.priceCents == d.priceCents
    ensures p.Clothing? ==> p.sizeChartLink == d.sizeChartLink
  {
    if d.typeTag == Some(ClothingTag) then
      Clothing(d.id, d.image, d.name, d.rating, d.priceCents, d.sizeChartLink)
    else
      Product(d.id, d.image, d.name, d.rating, d.priceCents)
  }

  /** A payload record the given record is built from. */
  function ToDetails(p: Product): (d: ProductDetails) {
    match p
    case Product(id, image, name, rating, priceCents) =>
      ProductDetails(id, image, name, rating, priceCents, None, None)
    case Clothing(id, image, name, rating, priceCents, link) =>
      ProductDetails(id, image, name, rating, priceCents, Some(ClothingTag), link)
  }

  /** Every record is what its own payload builds. */
  lemma DetailsRoundTrip(p: Product)
    ensures FromDetails(ToDetails(p)) == p
  {
  }

  /**
   * Building depends only on the copied fields and the tag's verdict: two
   * payloads that agree on those build the same record, so a non-clothing
   * record never carries a size chart link.
   */
  lemma FromDetailsDeterminedByCopiedFields(d: ProductDetails, e: ProductDetails)
    requires d.id == e.id && d.image == e.image && d.name == e.name
    requires d.rating == e.rating && d.priceCents == e.priceCents
    requires (d.typeTag == Some(ClothingTag)) == (e.typeTag == Some(ClothingTag))
    requires d.typeTag == Some(ClothingTag) ==> d.sizeChartLink == e.sizeChartLink
    ensures FromDetails(d) == FromDetails(e)
  {
  }

  /** The catalogue the loaders store: each payload record built in place, in order. */
  function ToCatalog(payload: seq<ProductDetails>): (ps: seq<Product>)
    ensures |ps| == |payload|
    ensures forall i :: 0 <= i < |ps| ==> ps[i] == FromDetails(payload[i])
  {
    if |payload| == 0 then [] else [FromDetails(payload[0])] + ToCatalog(payload[1..])
  }

  /** Mapping keeps the order of the payload: the catalogue of a concatenation is the concatenation of catalogues. */
  lemma CatalogOfConcatenation(a: seq<ProductDetails>, b: seq<ProductDetails>)
    ensures ToCatalog(a + b) == ToCatalog(a) + ToCatalog(b)
  {
    var l, r := ToCatalog(a + b), ToCatalog(a) + ToCatalog(b);
    assert |l| == |r|;
    forall i | 0 <= i < |l|
      ensures l[i] == r[i]
    {
      if i < |a| {
        assert (a + b)[i] == a[i];
      } else {
        assert (a + b)[i] == b[i - |a|];
      }
    }
  }

  /** `k` is the last position in `products` whose id is `productId`. */
  predicate IsLastMatch(products: seq<Product>, productId: string, k: int) {
    && 0 <= k < |products|
    && products[k].id == productId
    && forall j :: k < j < |products| ==> products[j].id != productId
  }

  /** Reference for the lookup: the last position holding the id, searched from the end. */
  function LastIndexOf(products: seq<Product>, productId: string): (r: Option<nat>)
    ensures r.Some? ==> IsLastMatch(products, productId, r.value)
    ensures r.None? <==> forall j :: 0 <= j < |products| ==> products[j].id != productId
  {
    if |products| == 0 then None
    else if products[|products| - 1].id == productId then Some(|products| - 1)
    else LastIndexOf(products[..|products| - 1], productId)
  }

  /** A product appended with the id hides every earlier product with that id. */
  lemma AppendOverwrites(products: seq<Product>, p: Product)
    ensures LastIndexOf(products + [p], p.id) == Some(|products|)
  {
  }

  /**
   * Looks a product up by id, visiting the catalogue front to back and keeping
   * the latest match, so with duplicate ids the last one is returned.
   */
  method GetProduct(products: seq<Product>, productId: string) returns (matching: Option<Product>)
    ensures matching.None? <==> forall j :: 0 <= j < |products| ==> products[j].id != productId
    ensures matching.Some? ==> matching.value.id == productId
    ensures LastIndexOf(products, productId).Some? ==>
      matching == Some(products[LastIndexOf(products, productId).value])
  {
    matching := None;
    ghost var k: int := -1;
    for i := 0 to |products|
      invariant matching.None? <==> forall j :: 0 <= j < i ==> products[j].id != productId
      invariant matching.Some? ==>
        && 0 <= k < i
        && products[k] == matching.value
        && products[k].id == productId
        && forall j :: k < j < i ==> products[j].id != productId
    {
      if products[i].id == productId {
        matching := Some(products[i]);
        k := i;
      }
    }
    if matching.Some? {
      assert IsLastMatch(products, productId, k);
    }
  }

  const RatingPrefix: string := "images/ratings/rating-"
  const RatingSuffix: string := ".png"

  /**
   * The rating-image path: the prefix, ten times the stars as a whole number
   * (held here directly as tenths), and the extension.
   */
  function StartUrl(p: Product): (url: string)
    ensures |url| > |RatingPrefix| + |RatingSuffix|
    ensures url[..|RatingPrefix|] == RatingPrefix
    ensures url[|url| - |RatingSuffix|..] == RatingSuffix
    ensures Decimal.AllDigits(url[|RatingPrefix|..|url| - |RatingSuffix|])
    ensures var d := url[|RatingPrefix|..|url| - |RatingSuffix|]; |d| > 1 ==> d[0] != '0'
    ensures Decimal.Parse(url[|RatingPrefix|..|url| - |RatingSuffix|]) == p.rating.starsTenths
  {
    var digits := Decimal.Render(p.rating.starsTenths);
    var url := RatingPrefix + digits + RatingSuffix;
    assert url[|RatingPrefix|..|url| - |RatingSuffix|] == digits;
    Decimal.ParseRender(p.rating.starsTenths);
    url
  }

  /** Two records share a rating image exactly when they have the same stars. */
  lemma StartUrlInjective(p: Product, q: Product)
    ensures StartUrl(p) == StartUrl(q) <==> p.rating.starsTenths == q.rating.starsTenths
  {
  }

  const SizeChartOpen: string := "\n      <a href = \""
  const SizeChartTail: string := " target = \"_blank\">\n        Size Chart\n      </a>\n    "
  /** The rest of the anchor after the link: the closing quote of `href`, then the tail. */
  const SizeChartClose: string := "\"" + SizeChartTail

  /** How a template literal prints the link: an absent link prints as `undefined`. */
  function LinkText(link: Option<string>): string {
    match link
    case Some(s) => s
    case None => "undefined"
  }

  /** The extra card HTML: nothing for a plain product, a size chart anchor for clothing. */
  function ExtraInfoHtml(p: Product): (html: string)
    ensures p.Product? <==> html == ""
    ensures p.Clothing? ==>
      var link := LinkText(p.sizeChartLink);
      && |html| >= |SizeChartOpen| + |link|
      && html[|SizeChartOpen|..|SizeChartOpen| + |link|] == link
  {
    match p
    case Product(_, _, _, _, _) => ""
    case Clothing(_, _, _, _, _, link) =>
      var html := SizeChartOpen + LinkText(link) + SizeChartClose;
      assert html[|SizeChartOpen|..|SizeChartOpen| + |LinkText(link)|] == LinkText(link);
      html
  }

  /** The characters of `s` before its first double quote, if it has one. */
  function UntilQuote(s: string): Option<string> {
    if |s| == 0 then None
    else if s[0] == '"' then Some("")
    else match UntilQuote(s[1..])
      case None => None
      case Some(t) => Some([s[0]] + t)
  }

  /** The `href` value of a size chart anchor, read back from its HTML. */
  function HrefOf(html: string): Option<string> {
    if |html| >= |SizeChartOpen| && html[..|SizeChartOpen|] == SizeChartOpen
    then UntilQuote(html[|SizeChartOpen|..])
    else None
  }

  lemma {:induction false} UntilQuoteOfQuoted(x: string, y: string)
    requires '"' !in x
    ensures UntilQuote(x + "\"" + y) == Some(x)
  {
    var s := x + "\"" + y;
    if |x| == 0 {
      assert s[0] == '"';
    } else {
      assert s[0] == x[0] && x[0] != '"';
      assert s[1..] == x[1..] + "\"" + y;
      UntilQuoteOfQuoted(x[1..], y);
      assert [x[0]] + x[1..] == x;
    }
  }

  /**
   * The link can be read back out of the HTML: exactly the clothing records
   * have an anchor, and its `href` is the record's link when the link has no
   * double quote.
   */
  lemma ExtraInfoHrefRoundTrip(p: Product)
    ensures HrefOf(ExtraInfoHtml(p)).Some? <==> p.Clothing?
    ensures p.Clothing? && '"' !in LinkText(p.sizeChartLink) ==>
      HrefOf(ExtraInfoHtml(p)) == Some(LinkText(p.sizeChartLink))
  {
    if p.Clothing? {
      var link := LinkText(p.sizeChartLink);
      var html := ExtraInfoHtml(p);
      assert html == SizeChartOpen + link + SizeChartClose;
      assert html[..|SizeChartOpen|] == SizeChartOpen;
      assert html[|SizeChartOpen|..] == link + SizeChartClose;
      ClosedAnchorHasQuote(link);
      if '"' !in link {
        assert link + SizeChartClose == link + "\"" + SizeChartTail;
        UntilQuoteOfQuoted(link, SizeChartTail);
      }
    }
  }

  /** Whatever the link, the anchor's closing part supplies a double quote. */
  lemma {:induction false} ClosedAnchorHasQuote(link: string)
    ensures UntilQuote(link + SizeChartClose).Some?
  {
    if |link| == 0 {
      assert link + SizeChartClose == SizeChartClose;
      assert SizeChartClose[0] == '"';
    } else if link[0] != '"' {
      assert (link + SizeChartClose)[1..] == link[1..] + SizeChartClose;
      ClosedAnchorHasQuote(link[1..]);
    }
  }

  /** A clothing record from the payload links its size chart from the card. */
  lemma ClothingCardLinksSizeChart()
    ensures var p := FromDetails(ProductDetails("1", "", "", Rating(40), 1999, Some("clothing"), Some("/x")));
      && p.Clothing?
      && StartUrl(p) == "images/ratings/rating-40.png"
      && HrefOf(ExtraInfoHtml(p)) == Some("/x")
  {
    var p := FromDetails(ProductDetails("1", "", "", Rating(40), 1999, Some("clothing"), Some("/x")));
    ExtraInfoHrefRoundTrip(p);
  }
}
