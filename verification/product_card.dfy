/**
 * What a product card derives from its product: the image address, the
 * alternative text, the strike-through price and category line, and the
 * effects of clicking the card.
 */
module ProductCard {
  import opened JsValues
  import opened Decimal
  import opened Catalog
  import ProductSlice

  const ImageBase := "https://admin.refabry.com/storage/product/"
  const CardPlaceholder := "/placeholder.svg?height=300&width=300"
  const FallbackSource := "/placeholder.svg"
  const FallbackAlt := "Product image"
  const RoutePrefix := "/product/"

  /** `product.image` is truthy: present and not the empty string. */
  predicate HasImage(p: Product) {
    p.image.Some? && p.image.value != ""
  }

  /** `product.discount_price` is truthy: present and not zero. */
  predicate HasDiscount(p: Product) {
    p.discountPrice.Some? && p.discountPrice.value != 0
  }

  /** The card image's address: the storage address of the image, or a placeholder. */
  function ImageUrl(p: Product): (url: string)
    ensures HasImage(p) ==> url == ImageBase + p.image.value
    ensures !HasImage(p) ==> url == CardPlaceholder
  {
    if HasImage(p) then ImageBase + p.image.value else CardPlaceholder
  }

  /** The image file name an address refers to, if it is a storage address. */
  function ImageName(url: string): Option<string> {
    if |url| > |ImageBase| && url[..|ImageBase|] == ImageBase then Some(url[|ImageBase|..]) else None
  }

  /** The address of a card names the product's image exactly when it has one. */
  lemma ImageUrlRoundTrip(p: Product)
    ensures HasImage(p) ==> ImageName(ImageUrl(p)) == Some(p.image.value)
    ensures !HasImage(p) ==> ImageUrl(p) == CardPlaceholder && ImageName(ImageUrl(p)) == None
  {
  }

  /**
   * The strike-through slot: empty, the number `0` rendered as text, or the
   * struck regular price (possibly missing).
   */
  datatype Strike = NoStrike | StrayZero | Struck(regularPrice: Option<int>)

  /**
   * The slot as written, `{product.discount_price && <span>…</span>}`: a
   * discount price of 0 is falsy, and React renders that 0 as text.
   */
  function StrikeAsWritten(p: Product): (k: Strike)
    ensures k.Struck? <==> HasDiscount(p)
    ensures k.Struck? ==> k.regularPrice == p.regularPrice
    ensures k == StrayZero <==> p.discountPrice == Some(0)
  {
    match p.discountPrice
    case None => NoStrike
    case Some(d) => if d == 0 then StrayZero else Struck(p.regularPrice)
  }

  /** A product whose discount price is 0 gets a bare "0" on its card. */
  lemma ZeroDiscountShowsStrayZero(p: Product)
    requires p.discountPrice == Some(0)
    ensures Render(p).strike == StrayZero && !HasDiscount(p)
  {
  }

  /** The slot as evidently intended: the struck regular price, or nothing. */
  function StrikeIntended(p: Product): (k: Strike)
    ensures k != StrayZero
    ensures k.Struck? <==> HasDiscount(p)
    ensures k.Struck? ==> k.regularPrice == p.regularPrice
  {
    if HasDiscount(p) then Struck(p.regularPrice) else NoStrike
  }

  /** The two differ exactly on a zero discount price. */
  lemma StrikeIntendedDiffersOnlyOnZero(p: Product)
    ensures StrikeIntended(p) != StrikeAsWritten(p) <==> p.discountPrice == Some(0)
    ensures StrikeIntended(p) != StrikeAsWritten(p) ==> StrikeIntended(p) == NoStrike
  {
  }

  /** Everything a card shows. */
  datatype CardView = CardView(
    key: ProductId,
    source: string,
    alt: string,
    name: string,
    price: int,
    strike: Strike,
    category: Option<string>)

  /** The card for one product, keyed by its id. */
  function Render(p: Product): (c: CardView)
    ensures c.key == p.id && c.name == p.name && c.price == p.price
    ensures c.strike.Struck? <==> HasDiscount(p)
    ensures c.strike.Struck? ==> c.strike.regularPrice == p.regularPrice
    ensures c.strike == StrayZero <==> p.discountPrice == Some(0)
    ensures c.category.Some? <==> p.category.Some?
    ensures c.category.Some? ==> c.category.value == p.category.value.name
    ensures c.alt != "" && c.alt == (if p.name != "" then p.name else FallbackAlt)
    ensures c.source == ImageUrl(p)
    ensures ImageName(c.source) == (if HasImage(p) then Some(p.image.value) else None)
    ensures c.source != FallbackSource
  {
    ImageUrlRoundTrip(p);
    var url := ImageUrl(p);
    assert url[0] != FallbackSource[0] || url[1] != FallbackSource[1] || |url| != |FallbackSource|;
    CardView(
      p.id,
      if url != "" then url else FallbackSource,
      if p.name != "" then p.name else FallbackAlt,
      p.name,
      p.price,
      StrikeAsWritten(p),
      if p.category.Some? then Some(p.category.value.name) else None)
  }

  /** The route of a product's detail page. */
  function Route(id: ProductId): (r: string)
    ensures |r| >= |RoutePrefix| && r[..|RoutePrefix|] == RoutePrefix && r[|RoutePrefix|..] == IdText(id)
  {
    RoutePrefix + IdText(id)
  }

  datatype Effect = Dispatch(event: ProductSlice.Event) | Navigate(route: string)

  /** Clicking a card: select this product in the store, then open its page. */
  function Click(p: Product): (effects: seq<Effect>)
    ensures |effects| == 2
    ensures effects[0].Dispatch? && effects[1].Navigate?
    ensures effects[0].event == ProductSlice.SetCurrentProduct(p)
    ensures effects[1].route == Route(p.id)
    ensures |effects[1].route| >= |RoutePrefix| && effects[1].route[..|RoutePrefix|] == RoutePrefix
      && effects[1].route[|RoutePrefix|..] == IdText(p.id)
  {
    [Dispatch(ProductSlice.SetCurrentProduct(p)), Navigate(Route(p.id))]
  }

  /**
   * After the click's dispatch the store holds exactly this product as the
   * current one, nothing else in it changes, and the page route carries the
   * product's id (for a numeric id, as readable decimal text).
   */
  lemma ClickSelectsThenNavigates(s: ProductSlice.State, p: Product)
    ensures var effects := Click(p);
      var t := ProductSlice.Step(s, effects[0].event);
      t.current == ProductSlice.Chosen(p) && t.products == s.products
      && t.loading == s.loading && t.error == s.error
    ensures p.id.NumId? ==> ReadInt(Route(p.id)[|RoutePrefix|..]) == Some(p.id.n)
  {
  }
}
