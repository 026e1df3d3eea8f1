/**
 * The notification slice of the store (src/components/base/notify/slice.ts):
 * one global slot `{open, message, type}` with the reducers `openNotify` and
 * `closeNotify`. It is the only reducer the store combines, under the key
 * `appNotify`.
 *
 * The field `type` is called `severity` here, because `type` is a Dafny keyword.
 */
module Notify {
  import opened Wrappers

  /** The severities of an alert (the UI kit's `AlertColor`). */
  datatype AlertColor = Success | Info | Warning | Error

  /** The notification slot. `severity == None` is the source's `type: undefined`. */
  datatype NotifyState = NotifyState(open: bool, message: string, severity: Option<AlertColor>)

  /** `initialState`: closed, empty message, no severity. */
  const InitialState: NotifyState := NotifyState(false, "", None)

  /** The two actions the slice accepts. */
  datatype Action =
    | OpenNotify(message: string, severity: Option<AlertColor>)
    | CloseNotify

  /**
   * `openNotify`: assigns `open = true` and the payload's message and type onto
   * the draft. All three fields are assigned, so nothing of the prior state survives.
   */
  function Open(s: NotifyState, message: string, severity: Option<AlertColor>): (r: NotifyState)
    ensures r == NotifyState(true, message, severity)
  {
    s.(open := true, message := message, severity := severity)
  }

  /** `closeNotify`: returns `initialState`, whatever the state was. */
  function Close(s: NotifyState): (r: NotifyState)
    ensures !r.open && r.message == "" && r.severity == None
  {
    InitialState
  }

  /**
   * The slice's reducer: one dispatched action applied to the slot. The slot is
   * open exactly after an open, and then holds that action's payload; the prior
   * state never shows through.
   */
  function Reduce(s: NotifyState, a: Action): (r: NotifyState)
    ensures r.open <==> a.OpenNotify?
    ensures a.OpenNotify? ==> r.message == a.message && r.severity == a.severity
    ensures a.CloseNotify? ==> r == InitialState
  {
    match a
    case OpenNotify(m, t) => Open(s, m, t)
    case CloseNotify => Close(s)
  }

  /** The slot after dispatching `actions` in order, starting from `s`. */
  function ReduceAll(s: NotifyState, actions: seq<Action>): NotifyState
    decreases |actions|
  {
    if actions == [] then s else ReduceAll(Reduce(s, actions[0]), actions[1..])
  }

  /** The initial slot is closed, holds the empty message and no severity. */
  lemma InitialIsClosed()
    ensures !InitialState.open && InitialState.message == "" && InitialState.severity == None
  {
  }

  /** After `openNotify(m, t)` the slot is exactly `{open: true, message: m, type: t}`. */
  lemma OpenOverwrites(s: NotifyState, m: string, t: Option<AlertColor>)
    ensures Reduce(s, OpenNotify(m, t)) == NotifyState(true, m, t)
    ensures Reduce(s, OpenNotify(m, t)).open
  {
  }

  /** Two opens in a row: the second wins entirely, no field of the first survives. */
  lemma LastOpenWins(s: NotifyState, m1: string, t1: Option<AlertColor>, m2: string, t2: Option<AlertColor>)
    ensures Reduce(Reduce(s, OpenNotify(m1, t1)), OpenNotify(m2, t2)) == Reduce(s, OpenNotify(m2, t2))
    ensures Reduce(Reduce(s, OpenNotify(m1, t1)), OpenNotify(m2, t2)).message == m2
    ensures Reduce(Reduce(s, OpenNotify(m1, t1)), OpenNotify(m2, t2)).severity == t2
  {
  }

  /** `closeNotify` returns the initial state from any state, and closing twice is closing once. */
  lemma CloseResets(s: NotifyState)
    ensures Reduce(s, CloseNotify) == InitialState
    ensures Reduce(Reduce(s, CloseNotify), CloseNotify) == Reduce(s, CloseNotify)
    ensures !Reduce(s, CloseNotify).open
  {
  }

  /** Open followed by close gives back the initial state. */
  lemma OpenThenClose(s: NotifyState, m: string, t: Option<AlertColor>)
    ensures Reduce(Reduce(s, OpenNotify(m, t)), CloseNotify) == InitialState
  {
  }

  /**
   * The slot is a queue of depth one: after any non-empty sequence of
   * dispatches it is determined by the last action alone, and the start state
   * and every earlier action are forgotten.
   */
  lemma {:induction false} LastActionDecides(s: NotifyState, actions: seq<Action>)
    requires actions != []
    ensures ReduceAll(s, actions) == Reduce(InitialState, actions[|actions| - 1])
    decreases |actions|
  {
    if |actions| == 1 {
      assert ReduceAll(s, actions) == ReduceAll(Reduce(s, actions[0]), []);
    } else {
      LastActionDecides(Reduce(s, actions[0]), actions[1..]);
    }
  }

  /**
   * The draft the toolkit hands to `openNotify`: the reducer assigns its three
   * fields in place.
   */
  class Draft {
    var open: bool
    var message: string
    var severity: Option<AlertColor>

    /** The value the draft currently stands for. */
    function Value(): NotifyState
      reads this
    {
      NotifyState(open, message, severity)
    }

    constructor (s: NotifyState)
      ensures Value() == s
    {
      open, message, severity := s.open, s.message, s.severity;
    }

    /** `openNotify` on the draft: the three fields assigned in place. */
    method AssignOpen(m: string, t: Option<AlertColor>)
      modifies this
      ensures Value() == Reduce(old(Value()), OpenNotify(m, t))
    {
      open := true;
      message := m;
      severity := t;
    }
  }
}
