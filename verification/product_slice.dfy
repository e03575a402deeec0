/**
 * The catalog store: the products slice's state, the eight actions its
 * reducer handles, the two fetch thunks that turn an API call into a
 * fulfilled or rejected action, and the reducer as a pure step function.
 */
module ProductSlice {
  import opened JsValues
  import opened Catalog

  /**
   * The selected product.  `EmptyPayload` is the `[]` that the single-product
   * thunk stores when the response carries no product: it is neither `null`
   * nor a product.
   */
  datatype Current = NoProduct | Chosen(product: Product) | EmptyPayload

  datatype State = State(
    products: seq<Product>,
    current: Current,
    loading: bool,
    error: Option<string>)

  /** The store's state when the application starts. */
  function Init(): (s: State)
    ensures s.products == [] && s.current == NoProduct
    ensures !s.loading && s.error == None
  {
    State([], NoProduct, false, None)
  }

  /** Every action the reducer reacts to, with its payload. */
  datatype Event =
    | ProductsPending
    | ProductsFulfilled(list: seq<Product>)
    | ProductsRejected(message: string)
    | ProductPending
    | ProductFulfilled(payload: Current)
    | ProductRejected(message: string)
    | SetCurrentProduct(product: Product)
    | ClearCurrentProduct

  predicate IsPending(e: Event) {
    e.ProductsPending? || e.ProductPending?
  }

  /** A fulfilled or rejected action of either thunk. */
  predicate Settles(e: Event) {
    e.ProductsFulfilled? || e.ProductsRejected? || e.ProductFulfilled? || e.ProductRejected?
  }

  predicate IsRejection(e: Event) {
    e.ProductsRejected? || e.ProductRejected?
  }

  /** The reducer. */
  function Step(s: State, e: Event): (r: State)
    ensures IsPending(e) ==>
      r.loading && r.error == None && r.products == s.products && r.current == s.current
    ensures Settles(e) ==> !r.loading
    ensures e.ProductsFulfilled? ==>
      r.products == e.list && r.current == s.current && r.error == s.error
    ensures IsRejection(e) ==>
      r.error == Some(e.message) && r.products == s.products && r.current == s.current
    ensures e.ProductFulfilled? ==>
      r.current == e.payload && r.products == s.products && r.error == s.error
    ensures e.SetCurrentProduct? ==> r == s.(current := Chosen(e.product))
    ensures e.ClearCurrentProduct? ==> r == s.(current := NoProduct)
    ensures !e.ProductsFulfilled? ==> r.products == s.products
  {
    match e
    case ProductsPending => s.(loading := true, error := None)
    case ProductsFulfilled(list) => s.(loading := false, products := list)
    case ProductsRejected(message) => s.(loading := false, error := Some(message))
    case ProductPending => s.(loading := true, error := None)
    case ProductFulfilled(payload) => s.(loading := false, current := payload)
    case ProductRejected(message) => s.(loading := false, error := Some(message))
    case SetCurrentProduct(p) => s.(current := Chosen(p))
    case ClearCurrentProduct => s.(current := NoProduct)
  }

  /** Dispatching the same action twice in a row has the effect of dispatching it once. */
  lemma StepIdempotent(s: State, e: Event)
    ensures Step(Step(s, e), e) == Step(s, e)
  {
  }

  /** The state after dispatching `es` in order, starting from `s`. */
  function Run(s: State, es: seq<Event>): State
    decreases |es|
  {
    if es == [] then s else Step(Run(s, es[..|es| - 1]), es[|es| - 1])
  }

  // ---------------------------------------------------------------------------
  // The write table: an independent account of which action writes which field.

  datatype Field = ProductsField | CurrentField | LoadingField | ErrorField

  datatype FieldValue =
    | ProductsValue(products: seq<Product>)
    | CurrentValue(current: Current)
    | LoadingValue(loading: bool)
    | ErrorValue(error: Option<string>)

  function Project(s: State, f: Field): FieldValue {
    match f
    case ProductsField => ProductsValue(s.products)
    case CurrentField => CurrentValue(s.current)
    case LoadingField => LoadingValue(s.loading)
    case ErrorField => ErrorValue(s.error)
  }

  /** The value action `e` stores into field `f`, or `None` when `e` leaves `f` alone. */
  function Writes(e: Event, f: Field): Option<FieldValue> {
    match f
    case ProductsField =>
      if e.ProductsFulfilled? then Some(ProductsValue(e.list)) else None
    case CurrentField =>
      if e.ProductFulfilled? then Some(CurrentValue(e.payload))
      else if e.SetCurrentProduct? then Some(CurrentValue(Chosen(e.product)))
      else if e.ClearCurrentProduct? then Some(CurrentValue(NoProduct))
      else None
    case LoadingField =>
      if IsPending(e) then Some(LoadingValue(true))
      else if Settles(e) then Some(LoadingValue(false))
      else None
    case ErrorField =>
      if IsPending(e) then Some(ErrorValue(None))
      else if IsRejection(e) then Some(ErrorValue(Some(e.message)))
      else None
  }

  /** The reducer writes exactly what the table says and nothing else changes. */
  lemma StepFollowsWriteTable(s: State, e: Event, f: Field)
    ensures Project(Step(s, e), f) == Writes(e, f).GetOr(Project(s, f))
  {
  }

  /** A field that no action of a trace writes keeps its value. */
  lemma {:induction false} UntouchedFieldSurvives(s: State, es: seq<Event>, f: Field)
    requires forall j :: 0 <= j < |es| ==> Writes(es[j], f).None?
    ensures Project(Run(s, es), f) == Project(s, f)
    decreases |es|
  {
    if es != [] {
      var prefix := es[..|es| - 1];
      UntouchedFieldSurvives(s, prefix, f);
      StepFollowsWriteTable(Run(s, prefix), es[|es| - 1], f);
    }
  }

  /** A field holds the value written by the last action of a trace that writes it. */
  lemma {:induction false} LastWriterWins(s: State, es: seq<Event>, i: nat, f: Field)
    requires i < |es| && Writes(es[i], f).Some?
    requires forall j :: i < j < |es| ==> Writes(es[j], f).None?
    ensures Project(Run(s, es), f) == Writes(es[i], f).value
    decreases |es|
  {
    var prefix := es[..|es| - 1];
    StepFollowsWriteTable(Run(s, prefix), es[|es| - 1], f);
    if i < |es| - 1 {
      LastWriterWins(s, prefix, i, f);
    }
  }

  /**
   * The two thunks share one loading flag: after a trace, `loading` is true
   * exactly when the last pending, fulfilled or rejected action of either
   * thunk was a pending one, whichever thunk it belonged to.
   */
  lemma LoadingFollowsLastLifecycleAction(s: State, es: seq<Event>, i: nat)
    requires i < |es| && (IsPending(es[i]) || Settles(es[i]))
    requires forall j :: i < j < |es| ==> !IsPending(es[j]) && !Settles(es[j])
    ensures Run(s, es).loading <==> IsPending(es[i])
  {
  }

  /** A failed refetch keeps the products of the previous successful fetch. */
  lemma FailedRefetchKeepsProducts(s: State, es: seq<Event>, i: nat, message: string)
    requires i < |es| && es[i].ProductsFulfilled?
    requires forall j :: i < j < |es| ==> !es[j].ProductsFulfilled?
    ensures Run(s, es + [ProductsPending, ProductsRejected(message)]).products == es[i].list
    ensures Run(s, es + [ProductsPending, ProductsRejected(message)]).error == Some(message)
  {
    var es' := es + [ProductsPending, ProductsRejected(message)];
    assert es'[..|es'| - 1][..|es|] == es;
    LastWriterWins(s, es', i, ProductsField);
  }

  // ---------------------------------------------------------------------------
  // The thunks.

  /** The response as the thunks read it: `response?.data?.data?.data`, any level possibly missing. */
  datatype Envelope<T> = Envelope(data: Option<Body<T>>)
  datatype Body<T> = Body(data: Option<Inner<T>>)
  datatype Inner<T> = Inner(data: Option<T>)

  /** What an API call did: resolved with a (possibly missing) response, or threw. */
  datatype Fetched<T> = Resolved(response: Option<Envelope<T>>) | Threw

  const FetchProductsError := "Failed to fetch products"
  const FetchProductError := "Failed to fetch product details"

  /** `response?.data?.data?.data`. */
  function Payload<T>(response: Option<Envelope<T>>): Option<T> {
    match response
    case None => None
    case Some(envelope) =>
      match envelope.data
      case None => None
      case Some(body) =>
        match body.data
        case None => None
        case Some(inner) => inner.data
  }

  /** The envelope the API sends around a present payload. */
  function Wrap<T>(v: T): Envelope<T> {
    Envelope(Some(Body(Some(Inner(Some(v))))))
  }

  /** The payload is found exactly when every level of the envelope is there. */
  lemma PayloadFindsWrapped<T>(response: Option<Envelope<T>>)
    ensures Payload(response).Some? <==>
      exists v: T :: response == Some(Wrap(v))
    ensures forall v: T :: Payload(Some(Wrap(v))) == Some(v)
  {
    if Payload(response).Some? {
      assert response == Some(Wrap(Payload(response).value));
    }
  }

  /** The action `fetchProducts` settles with. */
  function FetchProductsAction(f: Fetched<seq<Product>>): (e: Event)
    ensures Settles(e) && !e.ProductFulfilled? && !e.ProductRejected?
    ensures e.ProductsRejected? <==> f.Threw?
    ensures e.ProductsRejected? ==> e.message == FetchProductsError
    ensures e.ProductsFulfilled? && Payload(f.response).None? ==> e.list == []
    ensures e.ProductsFulfilled? && Payload(f.response).Some? ==> e.list == Payload(f.response).value
  {
    match f
    case Threw => ProductsRejected(FetchProductsError)
    case Resolved(response) => ProductsFulfilled(Payload(response).GetOr([]))
  }

  /** The action `fetchSingleProduct` settles with; a missing product becomes `[]`. */
  function FetchProductAction(f: Fetched<Product>): (e: Event)
    ensures Settles(e) && !e.ProductsFulfilled? && !e.ProductsRejected?
    ensures e.ProductRejected? <==> f.Threw?
    ensures e.ProductRejected? ==> e.message == FetchProductError
    ensures e.ProductFulfilled? ==> e.payload != NoProduct
    ensures e.ProductFulfilled? && Payload(f.response).None? ==> e.payload == EmptyPayload
    ensures e.ProductFulfilled? && Payload(f.response).Some? ==> e.payload == Chosen(Payload(f.response).value)
  {
    match f
    case Threw => ProductRejected(FetchProductError)
    case Resolved(response) =>
      match Payload(response)
      case Some(p) => ProductFulfilled(Chosen(p))
      case None => ProductFulfilled(EmptyPayload)
  }

  /** A single-product fetch never touches the product list, whatever it returns. */
  lemma FetchProductNeverTouchesProducts(s: State, f: Fetched<Product>)
    ensures Step(Step(s, ProductPending), FetchProductAction(f)).products == s.products
    ensures !Step(Step(s, ProductPending), FetchProductAction(f)).loading
  {
  }

  /** An action the thunks or the action creators can produce: rejections carry the fixed messages. */
  predicate Dispatchable(e: Event) {
    IsRejection(e) ==> e.message == FetchProductsError || e.message == FetchProductError
  }

  /** From the initial state, the error is always null or one of the two fixed messages. */
  lemma {:induction false} ReachableErrors(es: seq<Event>)
    requires forall j :: 0 <= j < |es| ==> Dispatchable(es[j])
    ensures Run(Init(), es).error in {None, Some(FetchProductsError), Some(FetchProductError)}
    decreases |es|
  {
    if es != [] {
      ReachableErrors(es[..|es| - 1]);
    }
  }

  /**
   * With one loading flag for both thunks, a single-product fetch that
   * settles while the product list is still being fetched clears `loading`
   * although the list request is outstanding.
   */
  lemma SharedLoadingFlagSettlesEarly(s: State, f: Fetched<Product>)
    ensures var t := Run(s, [ProductsPending, ProductPending, FetchProductAction(f)]);
      !t.loading && t.products == s.products
  {
    var es := [ProductsPending, ProductPending, FetchProductAction(f)];
    assert es[..2][..1] == [ProductsPending];
    assert Run(s, es[..2][..1]) == Step(s, ProductsPending);
  }
}
