/**
 * What the asynchronous handlers of the components do to the outside world,
 * recorded in order: contract calls sent, notifications dispatched to the
 * store, `loading` flips, and the callbacks they invoke. Each awaited remote
 * call is an abstract outcome, a `Reply`, chosen by the environment.
 */
module Effects {
  import opened Wrappers
  import opened Notify

  /** How an awaited remote call settles: resolved with a value, or rejected with an error. */
  datatype Reply<+T> = Resolved(value: T) | Rejected(message: string)

  /** The contract that a token approval names as spender. */
  datatype Spender = CeloEduMarketplace | Marketplace

  /** The contract methods the components call. */
  datatype ContractCall =
    | Approve(spender: Spender, amount: int)
    | IsBoughtCourse(index: nat)
    | IsCompleteCourse(index: nat)
    | BuyCourse(index: nat)
    | CompleteCourse(index: nat)
    | AddCourse(title: string, description: string, author: string, image: string, price: int)
    | GetProductsLength
    | ReadProduct(index: nat)
    | BuyProduct(index: nat)
    | WriteProduct(name: string, image: string, description: string, location: string, price: int)

  /** One observable step of a handler. */
  datatype Effect =
    | Call(call: ContractCall)                          // a call sent to a contract
    | Notification(message: string, severity: AlertColor)  // `openNotify({message, type})`
    | SetLoading(on: bool)                              // `setLoading(on)`
    | CloseForm                                         // `onClose()` / closing the add-product modal
    | ResetForm                                         // the form's `reset()`
    | Refetch                                           // `onGetAllCourses()` / `getProducts()`

  /**
   * The store actions a sequence of effects dispatches: its notifications, in
   * order. Every one is an `openNotify`, and there is none exactly when no
   * effect is a notification.
   */
  function Dispatches(es: seq<Effect>): (r: seq<Action>)
    ensures forall k :: 0 <= k < |r| ==> r[k].OpenNotify? && r[k].severity.Some?
    ensures r == [] <==> forall i :: 0 <= i < |es| ==> !es[i].Notification?
    decreases |es|
  {
    if es == [] then []
    else
      var rest := Dispatches(es[1..]);
      match es[0]
      case Notification(m, t) => [OpenNotify(m, Some(t))] + rest
      case _ => rest
  }

  /** The notification slot after the effects `es`, starting from `s`. */
  function Shown(s: NotifyState, es: seq<Effect>): NotifyState
  {
    ReduceAll(s, Dispatches(es))
  }

  /** Dispatches distribute over concatenation. */
  lemma {:induction false} DispatchesAppend(a: seq<Effect>, b: seq<Effect>)
    ensures Dispatches(a + b) == Dispatches(a) + Dispatches(b)
    decreases |a|
  {
    if a == [] {
      assert a + b == b;
    } else {
      assert (a + b)[1..] == a[1..] + b;
      DispatchesAppend(a[1..], b);
    }
  }

  /**
   * One notification among effects that notify nothing: exactly that
   * notification is dispatched, as an `openNotify` with its message and type.
   */
  lemma {:induction false} DispatchesOfOne(a: seq<Effect>, m: string, t: AlertColor, b: seq<Effect>)
    requires forall i :: 0 <= i < |a| ==> !a[i].Notification?
    requires forall i :: 0 <= i < |b| ==> !b[i].Notification?
    ensures Dispatches(a + [Notification(m, t)] + b) == [OpenNotify(m, Some(t))]
  {
    var n := [Notification(m, t)];
    DispatchesAppend(a + n, b);
    DispatchesAppend(a, n);
    assert Dispatches(n) == [OpenNotify(m, Some(t))] + Dispatches(n[1..]);
  }

  /** Exactly one notification in `es`: the slot shows it afterwards, whatever it showed before. */
  lemma ShowsTheNotification(s: NotifyState, es: seq<Effect>, m: string, t: AlertColor)
    requires Dispatches(es) == [OpenNotify(m, Some(t))]
    ensures Shown(s, es) == NotifyState(true, m, Some(t))
  {
    LastActionDecides(s, Dispatches(es));
  }
}
