/**
 * The product page (src/pages/index.tsx): decoding the tuple `readProduct`
 * returns, assembling the table rows in `getProducts`, the add-product schema,
 * and the handlers that buy a product and submit a new one.
 *
 * Two behaviours of the page are kept as they are:
 * - the approval's result is never inspected, so `buyProduct` is sent even when
 *   the approval reports failure or the cUSD contract is missing;
 * - a per-index read that fails throws inside a promise executor, so that
 *   promise never settles and neither the rows nor the notification change.
 */
module HomePage {
  import opened Wrappers
  import opened Notify
  import opened Effects

  /** A row of the table. */
  datatype Product = Product(
    index: nat, owner: string, name: string, image: string,
    description: string, location: string, price: nat, sold: string)

  /** The positional result of `readProduct(i).call()`, slots `p[0]` to `p[6]`. */
  datatype ProductTuple = ProductTuple(
    p0: string, p1: string, p2: string, p3: string, p4: string, p5: nat, p6: string)

  /** `BN.toNumber()` throws on a value that needs more than 53 bits. */
  const TwoTo53: nat := 0x20_0000_0000_0000

  /**
   * The promise executor's record for index `i`: slots 0 to 6 are owner, name,
   * image, description, location, price and sold. `None` when the price does
   * not fit `toNumber`, which then throws.
   */
  function DecodeProduct(i: nat, t: ProductTuple): (r: Option<Product>)
    ensures r.Some? <==> t.p5 < TwoTo53
    ensures r.Some? ==>
      && r.value.index == i && r.value.owner == t.p0 && r.value.name == t.p1
      && r.value.image == t.p2 && r.value.description == t.p3 && r.value.location == t.p4
      && r.value.price == t.p5 && r.value.sold == t.p6
  {
    if t.p5 < TwoTo53 then Some(Product(i, t.p0, t.p1, t.p2, t.p3, t.p4, t.p5, t.p6)) else None
  }

  /** The tuple a product is read back as: the contract's slot order. */
  function EncodeProduct(p: Product): ProductTuple
  {
    ProductTuple(p.owner, p.name, p.image, p.description, p.location, p.price, p.sold)
  }

  /** What the promise for index `i` settles with: `None` when the read or the decoding throws. */
  function ReadAt(i: nat, reply: Reply<ProductTuple>): Option<Product>
  {
    match reply
    case Rejected(_) => None
    case Resolved(t) => DecodeProduct(i, t)
  }

  /**
   * `Promise.all` over promises that either resolve (`Some`) or never settle
   * (`None`): the values in order once all resolved, `None` (still pending) otherwise.
   */
  function JoinAll(ps: seq<Option<Product>>): (r: Option<seq<Product>>)
    ensures r.Some? <==> forall k :: 0 <= k < |ps| ==> ps[k].Some?
    ensures r.Some? ==> |r.value| == |ps| && forall k :: 0 <= k < |ps| ==> ps[k] == Some(r.value[k])
    decreases |ps|
  {
    if ps == [] then Some([])
    else match (ps[0], JoinAll(ps[1..]))
      case (Some(p), Some(rest)) => Some([p] + rest)
      case _ => None
  }

  /** What the environment answers to each remote call of the page. */
  datatype PageEnv = PageEnv(
    marketplace: bool,                          // the marketplace contract handle is available
    cusd: bool,                                 // the cUSD contract handle is available
    length: Reply<nat>,                         // `getProductsLength().call()`
    readProduct: nat -> Reply<ProductTuple>,    // `readProduct(i).call()`
    approve: Reply<bool>,                       // `approve(...).send()`; its status is never read
    buy: Reply<()>,                             // `buyProduct(index).send()`
    write: Reply<()>)                           // `writeProduct(...).send()`

  const MarketplaceNotFound: string := "Marketplace Contract was not found"
  const CusdNotFound: string := "cUSDT Contract was not found"

  function BoughtMessage(p: Product): string
  {
    "Product " + p.name + " successfully bought"
  }

  function AddedMessage(name: string): string
  {
    "Product " + name + " successfully added"
  }

  /** The reads the loop of `getProducts` sends, one per index, in index order. */
  function ReadCalls(n: nat): (r: seq<Effect>)
  {
    seq(n, k requires 0 <= k => Call(ReadProduct(k)))
  }

  /** The promises the loop of `getProducts` pushes, one per index. */
  function Promises(n: nat, env: PageEnv): seq<Option<Product>>
  {
    seq(n, k requires 0 <= k => ReadAt(k, env.readProduct(k)))
  }

  /** `getProducts()` up to the point where it publishes or gives up. */
  function GetProductsEffects(env: PageEnv): (r: seq<Effect>)
    ensures |r| >= 1
    ensures Call(GetProductsLength) in r <==> env.marketplace
    ensures env.marketplace && env.length.Resolved? ==>
      && |r| == 1 + env.length.value && r[0] == Call(GetProductsLength)
      && forall k :: 1 <= k < |r| ==> r[k] == Call(ReadProduct(k - 1))
  {
    if !env.marketplace then [Notification(MarketplaceNotFound, Error)]
    else
      [Call(GetProductsLength)] +
      match env.length
      case Rejected(m) => [Notification(m, Error)]
      case Resolved(n) => ReadCalls(n)
  }

  /** The rows `getProducts()` publishes with `setTableRows`, if it ever does. */
  function PublishedRows(env: PageEnv): Option<seq<Product>>
  {
    if !env.marketplace then None
    else match env.length
      case Rejected(_) => None
      case Resolved(n) => JoinAll(Promises(n, env))
  }

  /** The body of `handleBuyProduct` from `buyProduct` on. */
  function BuyTail(p: Product, env: PageEnv): seq<Effect>
  {
    [Call(BuyProduct(p.index))] +
    match env.buy
    case Rejected(m) => [Notification(m, Error)]
    case Resolved(_) => [Notification(BoughtMessage(p), Success), Refetch]
  }

  /** `approveTransaction(price)` followed by the rest of the purchase; the approval's value is ignored. */
  function BuyProductSteps(p: Product, env: PageEnv): seq<Effect>
  {
    if !env.cusd then [Notification(CusdNotFound, Error)] + BuyTail(p, env)
    else
      [Call(Approve(Marketplace, p.price))] +
      match env.approve
      case Rejected(m) => [Notification(m, Error)]
      case Resolved(_) => BuyTail(p, env)
  }

  /** `handleBuyProduct(product)`, including the `finally` block that runs after an early return. */
  function BuyProductEffects(p: Product, env: PageEnv): (r: seq<Effect>)
    ensures |r| >= 2 && r[|r| - 1] == SetLoading(false)
    ensures Call(BuyProduct(p.index)) in r <==> env.marketplace && (!env.cusd || env.approve.Resolved?)
    ensures Call(Approve(Marketplace, p.price)) in r <==> env.marketplace && env.cusd
  {
    if !env.marketplace then [Notification(MarketplaceNotFound, Error), SetLoading(false)]
    else [SetLoading(true)] + BuyProductSteps(p, env) + [SetLoading(false)]
  }

  // ---------------------------------------------------------------------------
  // The add-product form
  // ---------------------------------------------------------------------------

  /** The form's current values (text inputs yield strings; the price parses or not). */
  datatype ProductForm = ProductForm(
    name: string, image: string, description: string, location: string, price: Option<int>)

  const EmptyForm: ProductForm := ProductForm("", "", "", "", None)

  /** The data the resolver hands to the submit handler. */
  datatype ProductData = ProductData(
    name: string, image: string, description: string, location: string, price: int)

  /**
   * `addProductSchema`: name required (non-empty), price a positive number;
   * image, description and location are optional and accepted as they are.
   */
  function Validate(f: ProductForm): (r: Option<ProductData>)
    ensures r.Some? <==> f.name != "" && f.price.Some? && f.price.value > 0
    ensures r.Some? ==> r.value == ProductData(f.name, f.image, f.description, f.location, f.price.value)
  {
    if f.name == "" then None
    else match f.price
      case Some(p) => if p > 0 then Some(ProductData(f.name, f.image, f.description, f.location, p)) else None
      case None => None
  }

  /** `handleFormSubmit(data)`, including the `finally` block. */
  function FormEffects(d: ProductData, env: PageEnv): (r: seq<Effect>)
    ensures |r| >= 2 && r[|r| - 1] == SetLoading(false)
    ensures Call(WriteProduct(d.name, d.image, d.description, d.location, d.price)) in r <==> env.marketplace
    ensures CloseForm in r <==> WriteSucceeds(env)
    ensures ResetForm in r <==> WriteSucceeds(env)
  {
    if !env.marketplace then [Notification(MarketplaceNotFound, Error), SetLoading(false)]
    else
      [SetLoading(true), Call(WriteProduct(d.name, d.image, d.description, d.location, d.price))] +
      (match env.write
       case Rejected(m) => [Notification(m, Error)]
       case Resolved(_) => [Notification(AddedMessage(d.name), Success), CloseForm, ResetForm, Refetch]) +
      [SetLoading(false)]
  }

  /** A submit of the form: the handler runs only on values the schema accepts. */
  function SubmitEffects(f: ProductForm, env: PageEnv): seq<Effect>
  {
    match Validate(f)
    case None => []
    case Some(d) => FormEffects(d, env)
  }

  /** Whether the modal closes and the form resets: the write went through. */
  predicate WriteSucceeds(env: PageEnv)
  {
    env.marketplace && env.write.Resolved?
  }

  // ---------------------------------------------------------------------------
  // Properties
  // ---------------------------------------------------------------------------

  /** Decoding inverts the contract's slot order, for every price `toNumber` accepts. */
  lemma DecodeInvertsEncode(p: Product, i: nat, t: ProductTuple)
    ensures p.price < TwoTo53 ==> DecodeProduct(p.index, EncodeProduct(p)) == Some(p)
    ensures DecodeProduct(i, t).Some? <==> t.p5 < TwoTo53
    ensures DecodeProduct(i, t).Some? ==>
      DecodeProduct(i, t).value.index == i && EncodeProduct(DecodeProduct(i, t).value) == t
  {
  }

  /** Without a marketplace contract, `getProducts` notifies that and leaves the rows as they are. */
  lemma GetProductsWithoutContract(env: PageEnv)
    requires !env.marketplace
    ensures GetProductsEffects(env) == [Notification(MarketplaceNotFound, Error)]
    ensures PublishedRows(env) == None
  {
  }

  /** A failing `getProductsLength` is notified; the rows stay as they are. */
  lemma GetProductsLengthFails(env: PageEnv)
    requires env.marketplace && env.length.Rejected?
    ensures GetProductsEffects(env) == [Call(GetProductsLength), Notification(env.length.message, Error)]
    ensures PublishedRows(env) == None
  {
  }

  /**
   * When every read succeeds, the rows become exactly `productLength`
   * products, entry `i` decoded from the tuple read for index `i`.
   */
  lemma AllReadsPublishInOrder(env: PageEnv, n: nat)
    requires env.marketplace && env.length == Resolved(n)
    requires forall i :: 0 <= i < n ==> env.readProduct(i).Resolved? && env.readProduct(i).value.p5 < TwoTo53
    ensures PublishedRows(env).Some?
    ensures var rows := PublishedRows(env).value;
      && |rows| == n
      && forall i :: 0 <= i < n ==> rows[i].index == i && EncodeProduct(rows[i]) == env.readProduct(i).value
  {
    var ps := Promises(n, env);
    forall k | 0 <= k < n
      ensures ps[k].Some?
    {
      assert ps[k] == ReadAt(k, env.readProduct(k));
    }
  }

  /**
   * One failing read (or one price `toNumber` rejects) leaves the rows as they
   * are and dispatches no notification: the batch simply never completes.
   */
  lemma {:induction false} FailedReadIsSwallowed(env: PageEnv, n: nat, bad: nat)
    requires env.marketplace && env.length == Resolved(n)
    requires bad < n && ReadAt(bad, env.readProduct(bad)).None?
    ensures PublishedRows(env) == None
    ensures Dispatches(GetProductsEffects(env)) == []
  {
    assert Promises(n, env)[bad].None?;
    var es := GetProductsEffects(env);
    assert es == [Call(GetProductsLength)] + ReadCalls(n);
    assert forall i :: 0 <= i < |es| ==> !es[i].Notification?;
  }

  /**
   * The product page sends `buyProduct` whatever the approval reports: after
   * a receipt with a false `status`, and after notifying a missing cUSD
   * contract. Only a rejected approval stops it.
   */
  lemma BuyProductIgnoresApproval(p: Product, env: PageEnv)
    requires env.marketplace
    ensures var es := BuyProductEffects(p, env);
      !env.cusd ==>
        es[..3] == [SetLoading(true), Notification(CusdNotFound, Error), Call(BuyProduct(p.index))]
    ensures var es := BuyProductEffects(p, env);
      env.cusd && env.approve.Resolved? ==>
        es[..3] == [SetLoading(true), Call(Approve(Marketplace, p.price)), Call(BuyProduct(p.index))]
    ensures var es := BuyProductEffects(p, env);
      env.cusd && env.approve.Rejected? ==>
        es == [SetLoading(true), Call(Approve(Marketplace, p.price)),
               Notification(env.approve.message, Error), SetLoading(false)]
  {
  }

  /**
   * The purchase of a product always ends with `loading` switched off. After a
   * successful buy it notifies, then refetches. Without a marketplace contract it
   * only notifies that, sends nothing, and still runs the `finally` block.
   */
  lemma BuyProductEnds(p: Product, env: PageEnv)
    ensures var es := BuyProductEffects(p, env);
      es[|es| - 1] == SetLoading(false)
    ensures var es := BuyProductEffects(p, env);
      env.marketplace && (!env.cusd || env.approve.Resolved?) && env.buy.Resolved? ==>
        es[|es| - 3..] == [Notification(BoughtMessage(p), Success), Refetch, SetLoading(false)]
    ensures !env.marketplace ==>
      BuyProductEffects(p, env) == [Notification(MarketplaceNotFound, Error), SetLoading(false)]
  {
  }

  /** Values without a name or with a price that is missing or not positive never reach the contract. */
  lemma InvalidFormNeverWrites(f: ProductForm, env: PageEnv)
    requires f.name == "" || f.price.None? || f.price.value <= 0
    ensures SubmitEffects(f, env) == []
  {
  }

  /**
   * Submitting: without a contract only a notification; otherwise the write,
   * then on success notify, close, reset, refetch, and on failure only the
   * error notification. `loading` ends off on every path.
   */
  lemma {:induction false} FormOutcomes(d: ProductData, env: PageEnv)
    ensures var es := FormEffects(d, env);
      es[|es| - 1] == SetLoading(false)
    ensures var es := FormEffects(d, env);
      !env.marketplace ==> es == [Notification(MarketplaceNotFound, Error), SetLoading(false)]
    ensures var es := FormEffects(d, env);
      env.marketplace ==>
        && es[1] == Call(WriteProduct(d.name, d.image, d.description, d.location, d.price))
        && (env.write.Resolved? ==>
              es[2..] == [Notification(AddedMessage(d.name), Success), CloseForm, ResetForm, Refetch, SetLoading(false)])
        && (env.write.Rejected? ==>
              && es[2..] == [Notification(env.write.message, Error), SetLoading(false)]
              && CloseForm !in es && ResetForm !in es && Refetch !in es)
  {
    var es := FormEffects(d, env);
    if env.marketplace && env.write.Rejected? {
      assert es == [SetLoading(true), Call(WriteProduct(d.name, d.image, d.description, d.location, d.price)),
                    Notification(env.write.message, Error), SetLoading(false)];
    }
  }

  /** The scenario of three listings that all read back: three rows, indices 0, 1 and 2. */
  lemma ThreeListings(env: PageEnv, t0: ProductTuple, t1: ProductTuple, t2: ProductTuple)
    requires env.marketplace && env.length == Resolved(3)
    requires env.readProduct(0) == Resolved(t0) && env.readProduct(1) == Resolved(t1)
    requires env.readProduct(2) == Resolved(t2)
    requires t0.p5 < TwoTo53 && t1.p5 < TwoTo53 && t2.p5 < TwoTo53
    ensures PublishedRows(env) == Some([DecodeProduct(0, t0).value, DecodeProduct(1, t1).value,
                                        DecodeProduct(2, t2).value])
    ensures GetProductsEffects(env) ==
      [Call(GetProductsLength), Call(ReadProduct(0)), Call(ReadProduct(1)), Call(ReadProduct(2))]
  {
    AllReadsPublishInOrder(env, 3);
    var rows := PublishedRows(env).value;
    assert |rows| == 3;
    var ps := Promises(3, env);
    assert ps[0] == Some(rows[0]) && ps[1] == Some(rows[1]) && ps[2] == Some(rows[2]);
    assert ps[0] == DecodeProduct(0, t0) && ps[1] == DecodeProduct(1, t1) && ps[2] == DecodeProduct(2, t2);
    assert rows == [rows[0], rows[1], rows[2]];
  }

  /** The page: its table rows, the shared `loading` flag, the modal and form, and the effects so far. */
  class ProductsPage {
    var tableRows: seq<Product>
    var loading: bool
    var modalOpen: bool
    var values: ProductForm
    var effects: seq<Effect>

    constructor ()
      ensures tableRows == [] && !loading && !modalOpen && values == EmptyForm && effects == []
    {
      tableRows, loading, modalOpen, values, effects := [], false, false, EmptyForm, [];
    }

    /**
     * The loop of `getProducts`: one read sent and one promise pushed per
     * index, in index order.
     */
    method CollectProducts(n: nat, env: PageEnv) returns (sent: seq<Effect>, promises: seq<Option<Product>>)
      ensures |sent| == n && forall k :: 0 <= k < n ==> sent[k] == Call(ReadProduct(k))
      ensures |promises| == n && forall k :: 0 <= k < n ==> promises[k] == ReadAt(k, env.readProduct(k))
    {
      sent, promises := [], [];
      var i := 0;
      while i < n
        invariant 0 <= i <= n
        invariant |sent| == i && forall k :: 0 <= k < i ==> sent[k] == Call(ReadProduct(k))
        invariant |promises| == i && forall k :: 0 <= k < i ==> promises[k] == ReadAt(k, env.readProduct(k))
      {
        sent := sent + [Call(ReadProduct(i))];
        var product := ReadAt(i, env.readProduct(i));
        promises := promises + [product];
        i := i + 1;
      }
    }

    /** `getProducts()`: rows replaced only once every read resolved. */
    method GetProducts(env: PageEnv)
      modifies this
      ensures effects == old(effects) + GetProductsEffects(env)
      ensures tableRows == match PublishedRows(env) case Some(rows) => rows case None => old(tableRows)
      ensures loading == old(loading) && modalOpen == old(modalOpen) && values == old(values)
    {
      if !env.marketplace {
        effects := effects + [Notification(MarketplaceNotFound, Error)];
        return;
      }
      effects := effects + [Call(GetProductsLength)];
      match env.length {
        case Rejected(m) =>
          effects := effects + [Notification(m, Error)];
        case Resolved(n) =>
          var sent, promises := CollectProducts(n, env);
          assert sent == ReadCalls(n);
          assert promises == Promises(n, env);
          effects := effects + sent;
          var result := JoinAll(promises);
          if result.Some? {
            tableRows := result.value;
          }
      }
    }

    /** `approveTransaction(price)`: notifies and gives `undefined` without a cUSD contract. */
    method ApproveTransaction(price: nat, env: PageEnv) returns (approval: Option<Reply<bool>>)
      modifies this
      ensures approval == if env.cusd then Some(env.approve) else None
      ensures effects == old(effects) +
        if env.cusd then [Call(Approve(Marketplace, price))] else [Notification(CusdNotFound, Error)]
      ensures tableRows == old(tableRows) && loading == old(loading)
      ensures modalOpen == old(modalOpen) && values == old(values)
    {
      if !env.cusd {
        effects := effects + [Notification(CusdNotFound, Error)];
        return None;
      }
      effects := effects + [Call(Approve(Marketplace, price))];
      approval := Some(env.approve);
    }

    /** `handleBuyProduct(product)`, with its `try`/`catch`/`finally`. */
    method HandleBuyProduct(p: Product, env: PageEnv)
      modifies this
      ensures effects == old(effects) + BuyProductEffects(p, env)
      ensures !loading
      ensures tableRows == old(tableRows) && modalOpen == old(modalOpen) && values == old(values)
    {
      if !env.marketplace {
        effects := effects + [Notification(MarketplaceNotFound, Error)];
        loading := false;
        effects := effects + [SetLoading(false)];
        return;
      }
      ghost var start := effects;
      loading := true;
      effects := effects + [SetLoading(true)];
      var approval := ApproveTransaction(p.price, env);
      if approval.Some? && approval.value.Rejected? {
        effects := effects + [Notification(approval.value.message, Error)];
      } else {
        effects := effects + [Call(BuyProduct(p.index))];
        match env.buy {
          case Rejected(m) =>
            effects := effects + [Notification(m, Error)];
          case Resolved(_) =>
            effects := effects + [Notification(BoughtMessage(p), Success)];
            effects := effects + [Refetch];
        }
      }
      assert effects == start + [SetLoading(true)] + BuyProductSteps(p, env);
      loading := false;
      effects := effects + [SetLoading(false)];
    }

    /** `handleOpenAddProductModal`. */
    method OpenAddProductModal()
      modifies this
      ensures modalOpen
      ensures tableRows == old(tableRows) && loading == old(loading)
      ensures values == old(values) && effects == old(effects)
    {
      modalOpen := true;
    }

    /** The user edits the inputs of the form. */
    method Input(f: ProductForm)
      modifies this
      ensures values == f
      ensures tableRows == old(tableRows) && loading == old(loading)
      ensures modalOpen == old(modalOpen) && effects == old(effects)
    {
      values := f;
    }

    /** `handleFormSubmit(data)`, with its `try`/`catch`/`finally`. */
    method HandleFormSubmit(d: ProductData, env: PageEnv)
      modifies this
      ensures effects == old(effects) + FormEffects(d, env)
      ensures !loading
      ensures modalOpen == if WriteSucceeds(env) then false else old(modalOpen)
      ensures values == if WriteSucceeds(env) then EmptyForm else old(values)
      ensures tableRows == old(tableRows)
    {
      if !env.marketplace {
        effects := effects + [Notification(MarketplaceNotFound, Error)];
        loading := false;
        effects := effects + [SetLoading(false)];
        return;
      }
      loading := true;
      effects := effects + [SetLoading(true)];
      effects := effects + [Call(WriteProduct(d.name, d.image, d.description, d.location, d.price))];
      match env.write {
        case Rejected(m) =>
          effects := effects + [Notification(m, Error)];
        case Resolved(_) =>
          effects := effects + [Notification(AddedMessage(d.name), Success)];
          modalOpen := false;
          effects := effects + [CloseForm];
          values := EmptyForm;
          effects := effects + [ResetForm];
          effects := effects + [Refetch];
      }
      loading := false;
      effects := effects + [SetLoading(false)];
    }

    /** `handleSubmit(handleFormSubmit)`: validate the current values, then run the handler. */
    method Submit(env: PageEnv)
      modifies this
      ensures effects == old(effects) + SubmitEffects(old(values), env)
      ensures loading == if Validate(old(values)).Some? then false else old(loading)
      ensures modalOpen == if Validate(old(values)).Some? && WriteSucceeds(env) then false else old(modalOpen)
      ensures values == if Validate(old(values)).Some? && WriteSucceeds(env) then EmptyForm else old(values)
      ensures tableRows == old(tableRows)
    {
      var data := Validate(values);
      if data.Some? {
        HandleFormSubmit(data.value, env);
      }
    }
  }
}
