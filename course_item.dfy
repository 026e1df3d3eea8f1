/**
 * The course card (src/components/ui/course/courseItem.tsx): the status and
 * label derived from `(isBought, isCompleted)`, the routing of the button, and
 * the asynchronous handlers that buy or complete the course.
 *
 * Each remote call is an abstract outcome supplied by a `CourseEnv`; a handler
 * appends what it does, in order, to the card's `effects`.
 */
module CourseItem {
  import opened Wrappers
  import opened Notify
  import opened Effects
  import opened CourseTypes

  /** `courseState`: the card's status and the text of its button. */
  datatype CardState = CardState(status: CourseStatus, text: string)

  /** The button text that goes with each status. */
  function Label(status: CourseStatus): string
  {
    match status
    case New => "Buy Course"
    case Bought => "Complete Course"
    case Completed => "Completed"
  }

  /** The memoised `courseState` of the card. */
  function StateOf(isBought: bool, isCompleted: bool): (r: CardState)
    ensures r.status == New <==> !isBought
    ensures r.status == Bought <==> isBought && !isCompleted
    ensures r.status == Completed <==> isBought && isCompleted
    ensures r.text == Label(r.status)
  {
    if isBought then
      if isCompleted then CardState(Completed, "Completed") else CardState(Bought, "Complete Course")
    else CardState(New, "Buy Course")
  }

  /** The button's `disabled` prop. */
  function ButtonDisabled(isBought: bool, isCompleted: bool): (r: bool)
    ensures r <==> isBought && isCompleted
  {
    StateOf(isBought, isCompleted).status == Completed
  }

  /** The two handlers the button can run. */
  datatype Handler = HandleBuy | HandleComplete

  /**
   * The button's `onClick`: complete a bought course, buy any other. Whatever
   * `isCompleted` is, the handler buys exactly when the card is NEW.
   */
  function ClickHandler(isBought: bool): (r: Handler)
    ensures forall isCompleted: bool :: r == HandleBuy <==> StateOf(isBought, isCompleted).status == New
  {
    if isBought then HandleComplete else HandleBuy
  }

  /** What the environment answers to each remote call of the card. */
  datatype CourseEnv = CourseEnv(
    marketplace: bool,        // the marketplace contract handle is available
    account: bool,            // `kit.defaultAccount` is set
    cusd: bool,               // the cUSD contract handle is available
    approve: Reply<bool>,     // `approve(...).send()`: the receipt's `status`, or a rejection
    buy: Reply<()>,           // `buyCourse(index).send()`
    refetch: Reply<()>,       // `await onGetAllCourses()`
    complete: Reply<()>,      // `completeCourse(index).send()`
    isBought: Reply<bool>,    // `isBoughtCourse(index).call()`
    isCompleted: Reply<bool>) // `isCompleteCourse(index).call()`

  const ApproveFailed: string := "Approve failed"

  function BoughtMessage(c: Course): string
  {
    "Successfully bought course: " + c.title
  }

  function CompletedMessage(c: Course): string
  {
    "Successfully completed course: " + c.title
  }

  /** Both handlers return at once without a marketplace contract or a default account. */
  predicate Guarded(env: CourseEnv)
  {
    !env.marketplace || !env.account
  }

  /** What `approveTransaction(price)` sends: nothing without a cUSD contract. */
  function ApproveEffects(price: nat, env: CourseEnv): seq<Effect>
  {
    if env.cusd then [Call(Approve(CeloEduMarketplace, price))] else []
  }

  /** What `approveTransaction(price)` gives back: `undefined`, or how the approval settled. */
  function ApprovalOf(env: CourseEnv): Option<Reply<bool>>
  {
    if env.cusd then Some(env.approve) else None
  }

  /** The body of `handleBuyCourse` between `setLoading(true)` and the `finally` block. */
  function BuySteps(c: Course, env: CourseEnv): seq<Effect>
  {
    ApproveEffects(c.price, env) +
    match ApprovalOf(env)
    case Some(Rejected(m)) => [Notification(m, Error)]
    case Some(Resolved(true)) =>
      [Call(BuyCourse(c.index))] +
      (match env.buy
       case Rejected(m) => [Notification(m, Error)]
       case Resolved(_) =>
         [Refetch] +
         match env.refetch
         case Rejected(m) => [Notification(m, Error)]
         case Resolved(_) => [Notification(BoughtMessage(c), Success)])
    case _ => [Notification(ApproveFailed, Error)]
  }

  /** `handleBuyCourse(course)`. */
  function BuyCourseEffects(c: Course, env: CourseEnv): (r: seq<Effect>)
    ensures r == [] <==> Guarded(env)
    ensures r != [] ==> r[0] == SetLoading(true) && r[|r| - 1] == SetLoading(false)
    ensures Call(BuyCourse(c.index)) in r ==> env.cusd && env.approve == Resolved(true)
  {
    if Guarded(env) then [] else [SetLoading(true)] + BuySteps(c, env) + [SetLoading(false)]
  }

  /** `handleCompleteCourse(course)`. */
  function CompleteCourseEffects(c: Course, env: CourseEnv): (r: seq<Effect>)
    ensures r == [] <==> Guarded(env)
    ensures r != [] ==>
      && |r| == 4 && r[0] == SetLoading(true) && r[1] == Call(CompleteCourse(c.index))
      && r[2].Notification? && r[3] == SetLoading(false)
  {
    if Guarded(env) then []
    else
      [SetLoading(true), Call(CompleteCourse(c.index))] +
      (match env.complete
       case Rejected(m) => [Notification(m, Error)]
       case Resolved(_) => [Notification(CompletedMessage(c), Success)]) +
      [SetLoading(false)]
  }

  /** A press of the button: nothing while it is disabled, otherwise the handler `onClick` picks. */
  function PressEffects(isBought: bool, isCompleted: bool, c: Course, env: CourseEnv): (r: seq<Effect>)
    ensures r == [] <==> ButtonDisabled(isBought, isCompleted) || Guarded(env)
    ensures Call(CompleteCourse(c.index)) in r ==> isBought && !isCompleted
    ensures Call(BuyCourse(c.index)) in r ==> !isBought
  {
    if ButtonDisabled(isBought, isCompleted) then []
    else match ClickHandler(isBought)
      case HandleComplete => CompleteCourseEffects(c, env)
      case HandleBuy => BuyCourseEffects(c, env)
  }

  /** `checkCourseIsBought` / `checkCourseIsCompleted`: one read, then an error notification if it fails. */
  function CheckEffects(call: ContractCall, marketplace: bool, reply: Reply<bool>): seq<Effect>
  {
    if !marketplace then []
    else [Call(call)] + match reply
      case Rejected(m) => [Notification(m, Error)]
      case Resolved(_) => []
  }

  /** The flag after such a check: the value read, or unchanged. */
  function CheckedFlag(old_flag: bool, marketplace: bool, reply: Reply<bool>): bool
  {
    if marketplace && reply.Resolved? then reply.value else old_flag
  }

  // ---------------------------------------------------------------------------
  // Properties of the derivation and of the handlers
  // ---------------------------------------------------------------------------

  /** Not bought is NEW / "Buy Course" whatever `isCompleted` says; bought splits on `isCompleted`. */
  lemma StatusTable(isCompleted: bool)
    ensures StateOf(false, isCompleted) == CardState(New, "Buy Course")
    ensures StateOf(true, false) == CardState(Bought, "Complete Course")
    ensures StateOf(true, true) == CardState(Completed, "Completed")
  {
  }

  /**
   * The button is disabled exactly for a completed course, and an enabled
   * button runs the handler its label names.
   */
  lemma ButtonDoesWhatItSays(isBought: bool, isCompleted: bool)
    ensures ButtonDisabled(isBought, isCompleted) <==> isBought && isCompleted
    ensures !ButtonDisabled(isBought, isCompleted) ==>
      (StateOf(isBought, isCompleted).text == "Buy Course" <==> ClickHandler(isBought) == HandleBuy) &&
      (StateOf(isBought, isCompleted).text == "Complete Course" <==> ClickHandler(isBought) == HandleComplete)
  {
  }

  /** With no contract or no default account, buy and complete make no call, no notification and no `loading` change. */
  lemma GuardedHandlersDoNothing(c: Course, env: CourseEnv)
    requires Guarded(env)
    ensures BuyCourseEffects(c, env) == [] && CompleteCourseEffects(c, env) == []
  {
  }

  /**
   * `buyCourse` is sent only after an approval whose receipt has a true
   * `status`, right after that approval; the refetch only after `buyCourse`.
   */
  lemma {:induction false} BuyOnlyAfterApproval(c: Course, env: CourseEnv, j: nat)
    requires j < |BuyCourseEffects(c, env)|
    ensures var es := BuyCourseEffects(c, env);
      (es[j].Call? && es[j].call.BuyCourse?) ==>
        && env.cusd && env.approve == Resolved(true)
        && j == 2 && es[1] == Call(Approve(CeloEduMarketplace, c.price))
        && es[j] == Call(BuyCourse(c.index))
    ensures var es := BuyCourseEffects(c, env);
      es[j] == Refetch ==> j == 3 && es[2] == Call(BuyCourse(c.index))
  {
    var es := BuyCourseEffects(c, env);
    if !Guarded(env) {
      var steps := BuySteps(c, env);
      assert es == [SetLoading(true)] + steps + [SetLoading(false)];
      if j == 0 || j == |es| - 1 {
      } else {
        assert es[j] == steps[j - 1];
      }
    }
  }

  /**
   * An approval that is missing (no cUSD contract) or reports a false `status`
   * ends the purchase with "Approve failed": neither `buyCourse` nor the
   * refetch is sent, and `loading` is switched back off.
   */
  lemma ApprovalFailureStopsPurchase(c: Course, env: CourseEnv)
    requires !Guarded(env)
    requires !env.cusd || env.approve == Resolved(false)
    ensures var es := BuyCourseEffects(c, env);
      && es == [SetLoading(true)] + ApproveEffects(c.price, env)
               + [Notification(ApproveFailed, Error), SetLoading(false)]
      && forall e :: e in es ==> !(e.Call? && e.call.BuyCourse?) && e != Refetch
  {
  }

  /** The successful purchase: approve the price, buy, await the refetch, then report success. */
  lemma BuySuccessOrder(c: Course, env: CourseEnv)
    requires !Guarded(env) && env.cusd
    requires env.approve == Resolved(true) && env.buy.Resolved? && env.refetch.Resolved?
    ensures BuyCourseEffects(c, env) ==
      [ SetLoading(true), Call(Approve(CeloEduMarketplace, c.price)), Call(BuyCourse(c.index)),
        Refetch, Notification(BoughtMessage(c), Success), SetLoading(false) ]
  {
  }

  /**
   * Every purchase that passes the guard switches `loading` on first and off
   * last, and dispatches exactly one notification, which the slot then shows.
   */
  lemma {:induction false} BuyEndsWithOneNotification(c: Course, env: CourseEnv, s: NotifyState)
    requires !Guarded(env)
    ensures var es := BuyCourseEffects(c, env);
      && es[0] == SetLoading(true) && es[|es| - 1] == SetLoading(false)
      && |Dispatches(es)| == 1
      && Shown(s, es).open
      && Dispatches(es)[0].OpenNotify?
      && Shown(s, es) == NotifyState(true, Dispatches(es)[0].message, Dispatches(es)[0].severity)
    ensures Shown(s, BuyCourseEffects(c, env)) ==
      NotifyState(true, Outcome(c, env).message, Some(Outcome(c, env).severity))
  {
    var es := BuyCourseEffects(c, env);
    var n := Outcome(c, env);
    var a := [SetLoading(true)] + ApproveEffects(c.price, env) + Prefix(c, env);
    assert es == a + [n] + [SetLoading(false)];
    DispatchesOfOne(a, n.message, n.severity, [SetLoading(false)]);
    ShowsTheNotification(s, es, n.message, n.severity);
  }

  /** The calls of a purchase between the approval and its one notification. */
  function Prefix(c: Course, env: CourseEnv): (r: seq<Effect>)
    ensures forall i :: 0 <= i < |r| ==> !r[i].Notification?
  {
    if env.cusd && env.approve == Resolved(true) then
      [Call(BuyCourse(c.index))] + (if env.buy.Resolved? then [Refetch] else [])
    else []
  }

  /** The one notification a purchase ends its steps with. */
  function Outcome(c: Course, env: CourseEnv): (n: Effect)
    ensures n.Notification?
    ensures BuySteps(c, env) == ApproveEffects(c.price, env) + Prefix(c, env) + [n]
  {
    match ApprovalOf(env)
    case Some(Rejected(m)) => Notification(m, Error)
    case Some(Resolved(true)) =>
      (match env.buy
       case Rejected(m) => Notification(m, Error)
       case Resolved(_) =>
         match env.refetch
         case Rejected(m) => Notification(m, Error)
         case Resolved(_) => Notification(BoughtMessage(c), Success))
    case _ => Notification(ApproveFailed, Error)
  }

  /** A completion that passes the guard sends `completeCourse`, notifies once and ends with `loading` off. */
  lemma CompleteEndsWithOneNotification(c: Course, env: CourseEnv, s: NotifyState)
    requires !Guarded(env)
    ensures var es := CompleteCourseEffects(c, env);
      && es[1] == Call(CompleteCourse(c.index)) && es[|es| - 1] == SetLoading(false)
      && Shown(s, es) == NotifyState(true,
           if env.complete.Rejected? then env.complete.message else CompletedMessage(c),
           Some(if env.complete.Rejected? then Error else Success))
  {
    var es := CompleteCourseEffects(c, env);
    var m := if env.complete.Rejected? then env.complete.message else CompletedMessage(c);
    var t := if env.complete.Rejected? then Error else Success;
    assert es == [SetLoading(true), Call(CompleteCourse(c.index)), Notification(m, t), SetLoading(false)];
    assert es == [SetLoading(true), Call(CompleteCourse(c.index))] + [Notification(m, t)] + [SetLoading(false)];
    DispatchesOfOne([SetLoading(true), Call(CompleteCourse(c.index))], m, t, [SetLoading(false)]);
    ShowsTheNotification(s, es, m, t);
  }

  /** A press on a completed course's button does nothing; otherwise it buys or completes by `isBought`. */
  lemma PressRouting(isBought: bool, isCompleted: bool, c: Course, env: CourseEnv)
    ensures isBought && isCompleted ==> PressEffects(isBought, isCompleted, c, env) == []
    ensures !isBought ==> PressEffects(isBought, isCompleted, c, env) == BuyCourseEffects(c, env)
    ensures isBought && !isCompleted ==> PressEffects(isBought, isCompleted, c, env) == CompleteCourseEffects(c, env)
  {
  }

  /** The card: its props, its three state variables and the effects its handlers had so far. */
  class CourseCard {
    const course: Course
    var isBought: bool
    var isCompleted: bool
    var loading: bool
    var effects: seq<Effect>

    constructor (course: Course)
      ensures this.course == course
      ensures !isBought && !isCompleted && !loading && effects == []
    {
      this.course := course;
      isBought, isCompleted, loading := false, false, false;
      effects := [];
    }

    /** `checkCourseIsBought`: reads the flag, or notifies the read's error. */
    method CheckCourseIsBought(env: CourseEnv)
      modifies this
      ensures effects == old(effects) + CheckEffects(IsBoughtCourse(course.index), env.marketplace, env.isBought)
      ensures isBought == CheckedFlag(old(isBought), env.marketplace, env.isBought)
      ensures isCompleted == old(isCompleted) && loading == old(loading)
    {
      if !env.marketplace {
        return;
      }
      effects := effects + [Call(IsBoughtCourse(course.index))];
      match env.isBought {
        case Rejected(m) => effects := effects + [Notification(m, Error)];
        case Resolved(b) => isBought := b;
      }
    }

    /** `checkCourseIsCompleted`: reads the flag, or notifies the read's error. */
    method CheckCourseIsCompleted(env: CourseEnv)
      modifies this
      ensures effects == old(effects) + CheckEffects(IsCompleteCourse(course.index), env.marketplace, env.isCompleted)
      ensures isCompleted == CheckedFlag(old(isCompleted), env.marketplace, env.isCompleted)
      ensures isBought == old(isBought) && loading == old(loading)
    {
      if !env.marketplace {
        return;
      }
      effects := effects + [Call(IsCompleteCourse(course.index))];
      match env.isCompleted {
        case Rejected(m) => effects := effects + [Notification(m, Error)];
        case Resolved(b) => isCompleted := b;
      }
    }

    /** `approveTransaction(price)`: `undefined` without a cUSD contract, else the approval's outcome. */
    method ApproveTransaction(price: nat, env: CourseEnv) returns (approval: Option<Reply<bool>>)
      modifies this
      ensures approval == ApprovalOf(env)
      ensures effects == old(effects) + ApproveEffects(price, env)
      ensures isBought == old(isBought) && isCompleted == old(isCompleted) && loading == old(loading)
    {
      if !env.cusd {
        return None;
      }
      effects := effects + [Call(Approve(CeloEduMarketplace, price))];
      approval := Some(env.approve);
    }

    /** `handleBuyCourse(course)`, with its `try`/`catch`/`finally`. */
    method HandleBuyCourse(env: CourseEnv)
      modifies this
      ensures effects == old(effects) + BuyCourseEffects(course, env)
      ensures loading == (if Guarded(env) then old(loading) else false)
      ensures isBought == old(isBought) && isCompleted == old(isCompleted)
    {
      if !env.marketplace || !env.account {
        return;
      }
      ghost var start := effects;
      loading := true;
      effects := effects + [SetLoading(true)];
      var approval := ApproveTransaction(course.price, env);
      if approval.Some? && approval.value.Rejected? {
        // the awaited approval threw: the catch block
        effects := effects + [Notification(approval.value.message, Error)];
      } else if !(approval.Some? && approval.value.value) {
        // no receipt, or a receipt whose status is false
        effects := effects + [Notification(ApproveFailed, Error)];
      } else {
        effects := effects + [Call(BuyCourse(course.index))];
        match env.buy {
          case Rejected(m) =>
            effects := effects + [Notification(m, Error)];
          case Resolved(_) =>
            effects := effects + [Refetch];
            match env.refetch {
              case Rejected(m) =>
                effects := effects + [Notification(m, Error)];
              case Resolved(_) =>
                effects := effects + [Notification(BoughtMessage(course), Success)];
            }
        }
      }
      assert effects == start + [SetLoading(true)] + BuySteps(course, env);
      // the finally block
      loading := false;
      effects := effects + [SetLoading(false)];
    }

    /** `handleCompleteCourse(course)`, with its `try`/`catch`/`finally`. */
    method HandleCompleteCourse(env: CourseEnv)
      modifies this
      ensures effects == old(effects) + CompleteCourseEffects(course, env)
      ensures loading == (if Guarded(env) then old(loading) else false)
      ensures isBought == old(isBought) && isCompleted == old(isCompleted)
    {
      if !env.marketplace || !env.account {
        return;
      }
      loading := true;
      effects := effects + [SetLoading(true)];
      effects := effects + [Call(CompleteCourse(course.index))];
      match env.complete {
        case Rejected(m) =>
          effects := effects + [Notification(m, Error)];
        case Resolved(_) =>
          effects := effects + [Notification(CompletedMessage(course), Success)];
      }
      loading := false;
      effects := effects + [SetLoading(false)];
    }

    /** A press of the card's button: ignored while disabled, else `onClick`. */
    method Press(env: CourseEnv)
      modifies this
      ensures effects == old(effects) + PressEffects(old(isBought), old(isCompleted), course, env)
      ensures isBought == old(isBought) && isCompleted == old(isCompleted)
      ensures loading == if ButtonDisabled(old(isBought), old(isCompleted)) || Guarded(env) then old(loading) else false
    {
      if ButtonDisabled(isBought, isCompleted) {
        return;
      }
      if isBought {
        HandleCompleteCourse(env);
      } else {
        HandleBuyCourse(env);
      }
    }
  }
}
