/**
 * The add-course form (src/components/ui/course/addCourse.tsx): the validation
 * `schema` and the submit handler `handleFormSubmit`.
 *
 * The text inputs registered with the form always yield strings, so a required
 * string is a non-empty one; the price input yields a number when it parses
 * (`None` stands for an empty or unparsable input).
 */
module AddCourse {
  import opened Wrappers
  import opened Notify
  import opened Effects

  /** The form's current values. */
  datatype CourseForm = CourseForm(
    title: string, description: string, author: string, image: string, price: Option<int>)

  /** The values after `reset()`: every input empty. */
  const EmptyForm: CourseForm := CourseForm("", "", "", "", None)

  /** What the resolver hands to the submit handler once the schema accepts the values. */
  datatype CourseData = CourseData(
    title: string, description: string, author: string, image: string, price: int)

  /**
   * `schema`: title, description, author and image required (non-empty), price
   * a positive number. The accepted data carries the form's values unchanged.
   */
  function Validate(f: CourseForm): (r: Option<CourseData>)
    ensures r.Some? <==>
      f.title != "" && f.description != "" && f.author != "" && f.image != ""
      && f.price.Some? && f.price.value > 0
    ensures r.Some? ==>
      r.value == CourseData(f.title, f.description, f.author, f.image, f.price.value)
  {
    if f.title == "" || f.description == "" || f.author == "" || f.image == "" then None
    else match f.price
      case Some(p) => if p > 0 then Some(CourseData(f.title, f.description, f.author, f.image, p)) else None
      case None => None
  }

  /** What the environment answers: whether the contract handle exists, and how `addCourse(...).send()` settles. */
  datatype AddCourseEnv = AddCourseEnv(marketplace: bool, write: Reply<()>)

  function AddedMessage(title: string): string
  {
    "Successfully added new course " + title
  }

  /** `handleFormSubmit(data)`, including the `finally` block that runs after an early return. */
  function HandlerEffects(d: CourseData, env: AddCourseEnv): (r: seq<Effect>)
    ensures |r| >= 1 && r[|r| - 1] == SetLoading(false)
    ensures Call(AddCourse(d.title, d.description, d.author, d.image, d.price)) in r <==> env.marketplace
    ensures ResetForm in r <==> Resets(env)
  {
    if !env.marketplace then [SetLoading(false)]
    else
      [SetLoading(true), Call(AddCourse(d.title, d.description, d.author, d.image, d.price))] +
      (match env.write
       case Rejected(m) => [Notification(m, Error)]
       case Resolved(_) => [Notification(AddedMessage(d.title), Success), CloseForm, ResetForm, Refetch]) +
      [SetLoading(false)]
  }

  /** A submit of the form: the handler runs only on values the schema accepts. */
  function SubmitEffects(f: CourseForm, env: AddCourseEnv): seq<Effect>
  {
    match Validate(f)
    case None => []
    case Some(d) => HandlerEffects(d, env)
  }

  /** Whether `reset()` ran: the write went through. */
  predicate Resets(env: AddCourseEnv)
  {
    env.marketplace && env.write.Resolved?
  }

  /** Values with an empty string field or a price that is missing or not positive never reach the contract. */
  lemma InvalidFormNeverWrites(f: CourseForm, env: AddCourseEnv)
    requires f.title == "" || f.description == "" || f.author == "" || f.image == ""
             || f.price.None? || f.price.value <= 0
    ensures SubmitEffects(f, env) == []
  {
  }

  /** With no contract the handler writes nothing and notifies nothing; only the `finally` runs. */
  lemma NoContractNoWrite(d: CourseData, env: AddCourseEnv)
    requires !env.marketplace
    ensures HandlerEffects(d, env) == [SetLoading(false)]
    ensures Dispatches(HandlerEffects(d, env)) == []
  {
  }

  /**
   * With a contract, the write passes title, description, author, image and
   * price in that order; on success the handler notifies, then closes, resets
   * and refetches; on failure it only notifies the error. Either way `loading`
   * ends off.
   */
  lemma {:induction false} SubmitOutcomes(d: CourseData, env: AddCourseEnv)
    requires env.marketplace
    ensures var es := HandlerEffects(d, env);
      && es[1] == Call(AddCourse(d.title, d.description, d.author, d.image, d.price))
      && es[|es| - 1] == SetLoading(false)
      && (env.write.Resolved? ==>
            es[2..] == [Notification(AddedMessage(d.title), Success), CloseForm, ResetForm, Refetch, SetLoading(false)])
      && (env.write.Rejected? ==>
            && es[2..] == [Notification(env.write.message, Error), SetLoading(false)]
            && CloseForm !in es && ResetForm !in es && Refetch !in es)
  {
    var es := HandlerEffects(d, env);
    if env.write.Rejected? {
      assert es == [SetLoading(true), Call(AddCourse(d.title, d.description, d.author, d.image, d.price)),
                    Notification(env.write.message, Error), SetLoading(false)];
    }
  }

  /** Valid values submitted with a contract whose write succeeds: the store shows the success message. */
  lemma SuccessIsShown(f: CourseForm, env: AddCourseEnv, s: NotifyState)
    requires Validate(f).Some? && Resets(env)
    ensures Shown(s, SubmitEffects(f, env)) == NotifyState(true, AddedMessage(f.title), Some(Success))
  {
    var es := SubmitEffects(f, env);
    DispatchesOfOne(es[..2], AddedMessage(f.title), Success, es[3..]);
    assert es == es[..2] + [Notification(AddedMessage(f.title), Success)] + es[3..];
    ShowsTheNotification(s, es, AddedMessage(f.title), Success);
  }

  /** The modal: the form's values, `loading`, and the effects of its handlers so far. */
  class AddCourseModal {
    var values: CourseForm
    var loading: bool
    var effects: seq<Effect>

    constructor ()
      ensures values == EmptyForm && !loading && effects == []
    {
      values, loading, effects := EmptyForm, false, [];
    }

    /** The user edits the inputs. */
    method Input(f: CourseForm)
      modifies this
      ensures values == f && loading == old(loading) && effects == old(effects)
    {
      values := f;
    }

    /** `handleFormSubmit(data)`, with its `try`/`catch`/`finally`. */
    method HandleFormSubmit(d: CourseData, env: AddCourseEnv)
      modifies this
      ensures effects == old(effects) + HandlerEffects(d, env)
      ensures !loading
      ensures values == if Resets(env) then EmptyForm else old(values)
    {
      if !env.marketplace {
        // `return` inside `try`: the `finally` block still runs
        loading := false;
        effects := effects + [SetLoading(false)];
        return;
      }
      loading := true;
      effects := effects + [SetLoading(true)];
      effects := effects + [Call(AddCourse(d.title, d.description, d.author, d.image, d.price))];
      match env.write {
        case Rejected(m) =>
          effects := effects + [Notification(m, Error)];
        case Resolved(_) =>
          effects := effects + [Notification(AddedMessage(d.title), Success)];
          effects := effects + [CloseForm];
          values := EmptyForm;
          effects := effects + [ResetForm];
          effects := effects + [Refetch];
      }
      loading := false;
      effects := effects + [SetLoading(false)];
    }

    /** `handleSubmit(handleFormSubmit)`: validate the current values, then run the handler. */
    method Submit(env: AddCourseEnv)
      modifies this
      ensures effects == old(effects) + SubmitEffects(old(values), env)
      ensures loading == if Validate(old(values)).Some? then false else old(loading)
      ensures values == if Validate(old(values)).Some? && Resets(env) then EmptyForm else old(values)
    {
      var data := Validate(values);
      if data.Some? {
        HandleFormSubmit(data.value, env);
      }
    }
  }
}
