/**
 * The product list page: which of four views it shows for a store state,
 * in priority order spinner, error, empty message, grid of cards.
 */
module ProductList {
  import opened JsValues
  import opened Catalog
  import opened ProductSlice
  import ProductCard

  const ErrorPrefix := "Error loading products: "

  datatype ListView =
    | Spinner
    | ErrorMessage(text: string)
    | NoProducts
    | Grid(cards: seq<ProductCard.CardView>)

  /** `if (error)`: the error is set and is not the empty string. */
  predicate ErrorShown(error: Option<string>) {
    error.Some? && error.value != ""
  }

  function Render(s: State): (v: ListView)
    ensures v == Spinner <==> s.loading
    ensures v.ErrorMessage? <==> !s.loading && ErrorShown(s.error)
    ensures v.ErrorMessage? ==>
      |v.text| >= |ErrorPrefix| && v.text[..|ErrorPrefix|] == ErrorPrefix
      && v.text[|ErrorPrefix|..] == s.error.value
    ensures v == NoProducts <==> !s.loading && !ErrorShown(s.error) && s.products == []
    ensures v.Grid? <==> !s.loading && !ErrorShown(s.error) && s.products != []
    ensures v.Grid? ==> |v.cards| == |s.products|
    ensures v.Grid? ==> forall i :: 0 <= i < |v.cards| ==>
      v.cards[i] == ProductCard.Render(s.products[i]) && v.cards[i].key == s.products[i].id
  {
    if s.loading then Spinner
    else if ErrorShown(s.error) then ErrorMessage(ErrorPrefix + s.error.value)
    else if |s.products| == 0 then NoProducts
    else Grid(seq(|s.products|, i requires 0 <= i < |s.products| => ProductCard.Render(s.products[i])))
  }

  /**
   * In every state the store can reach from its initial state, an error is
   * shown exactly when loading is over and the error is not null.
   */
  lemma ErrorViewIffErrorSet(es: seq<Event>)
    requires forall j :: 0 <= j < |es| ==> Dispatchable(es[j])
    ensures var s := Run(Init(), es);
      Render(s).ErrorMessage? <==> !s.loading && s.error.Some?
  {
    ReachableErrors(es);
  }

  /** While any fetch is pending the spinner is shown, even over old products or an old error. */
  lemma PendingShowsSpinner(s: State, e: Event)
    requires IsPending(e)
    ensures Render(Step(s, e)) == Spinner
  {
  }

  /**
   * A failed fetch of the list, after earlier products were loaded, shows the
   * fixed error text instead of the products, which stay in the store.
   */
  lemma FailedRefetchShowsError(s: State)
    ensures var t := Step(Step(s, ProductsPending), FetchProductsAction(Threw));
      Render(t) == ErrorMessage(ErrorPrefix + FetchProductsError) && t.products == s.products
  {
  }

  /**
   * A successful fetch with a non-empty list shows one card per product, in
   * order: a pending action clears the error, and fulfilment keeps it clear.
   */
  lemma FetchedListIsShown(s: State, list: seq<Product>)
    requires list != []
    ensures var t := Step(Step(s, ProductsPending), FetchProductsAction(Resolved(Some(Wrap(list)))));
      Render(t).Grid? && |Render(t).cards| == |list|
      && forall i :: 0 <= i < |list| ==> Render(t).cards[i].key == list[i].id
  {
  }

  /**
   * Fulfilment does not clear the error: when a single-product fetch fails
   * while the list is being fetched, the list page shows that error even
   * after the list itself arrives.
   */
  lemma OverlappingFailureMasksList(s: State, list: seq<Product>)
    ensures var t := Run(s, [ProductsPending, ProductPending, ProductRejected(FetchProductError), ProductsFulfilled(list)]);
      Render(t) == ErrorMessage(ErrorPrefix + FetchProductError) && t.products == list
  {
  }
}
