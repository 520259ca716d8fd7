/**
 * The toast store: a pure reducer over a list of at most three toasts, and the
 * module-level state that `dispatch` replaces and announces to every
 * registered listener.
 */
module Toasts {
  import opened Wrappers
  import JsStrings

  /** The store keeps at most this many toasts. */
  const TOAST_LIMIT: nat := 3

  /** The default display time, in milliseconds, of a toast that names none. */
  const DEFAULT_DURATION: real := 5000.0

  /** A rendered action element, known here only by identity. */
  datatype ActionNode = ActionNode(key: nat)

  /** A toast; an absent optional property is None. */
  datatype ToastProps = ToastProps(
    id: string,
    title: Option<string>,
    description: Option<string>,
    action: Option<ActionNode>,
    duration: Option<real>)

  datatype ToastState = ToastState(toasts: seq<ToastProps>)

  /** The four actions; the id of a dismissal or removal may be absent. */
  datatype Action =
    | AddToast(toast: ToastProps)
    | UpdateToast(toast: ToastProps)
    | DismissToast(dismissId: Option<string>)
    | RemoveToast(removeId: Option<string>)

  // ---------------------------------------------------------------------------
  // The reducer
  // ---------------------------------------------------------------------------

  /** `{ ...t, ...u }`: every property present in u overrides t's. */
  function Merge(t: ToastProps, u: ToastProps): (m: ToastProps)
    ensures m.id == u.id
    ensures u.title.Some? ==> m.title == u.title
    ensures u.title.None? ==> m.title == t.title
    ensures u.description.Some? ==> m.description == u.description
    ensures u.description.None? ==> m.description == t.description
    ensures u.action.Some? ==> m.action == u.action
    ensures u.action.None? ==> m.action == t.action
    ensures u.duration.Some? ==> m.duration == u.duration
    ensures u.duration.None? ==> m.duration == t.duration
  {
    ToastProps(
      u.id,
      if u.title.Some? then u.title else t.title,
      if u.description.Some? then u.description else t.description,
      if u.action.Some? then u.action else t.action,
      if u.duration.Some? then u.duration else t.duration)
  }

  /** `toasts.filter(t => t.id !== id)`, where an absent id differs from every string. */
  function Without(toasts: seq<ToastProps>, id: Option<string>): (r: seq<ToastProps>)
    ensures |r| <= |toasts|
  {
    if toasts == [] then []
    else if id == Some(toasts[0].id) then Without(toasts[1..], id)
    else [toasts[0]] + Without(toasts[1..], id)
  }

  /** `reducer`. */
  function Reducer(state: ToastState, action: Action): ToastState {
    match action
    case AddToast(t) =>
      var added := [t] + state.toasts;
      ToastState(if |added| <= TOAST_LIMIT then added else added[..TOAST_LIMIT])
    case UpdateToast(u) =>
      ToastState(seq(|state.toasts|, k requires 0 <= k < |state.toasts| =>
        if state.toasts[k].id == u.id then Merge(state.toasts[k], u) else state.toasts[k]))
    case DismissToast(id) =>
      ToastState(Without(state.toasts, id))
    case RemoveToast(id) =>
      if id.None? then ToastState([]) else ToastState(Without(state.toasts, id))
  }

  /** A new toast goes first; the others follow in order, the oldest beyond three dropped. */
  lemma AddGoesFirst(state: ToastState, t: ToastProps)
    ensures var r := Reducer(state, AddToast(t)).toasts;
            && |r| == (if |state.toasts| < TOAST_LIMIT then |state.toasts| + 1 else TOAST_LIMIT)
            && r[0] == t
            && forall k :: 1 <= k < |r| ==> r[k] == state.toasts[k - 1]
  {
  }

  /** No action makes a list of at most three toasts longer than three; an addition always ends at three or fewer. */
  lemma ReducerBounded(state: ToastState, action: Action)
    requires |state.toasts| <= TOAST_LIMIT || action.AddToast?
    ensures |Reducer(state, action).toasts| <= TOAST_LIMIT
    ensures !action.AddToast? ==> |Reducer(state, action).toasts| <= |state.toasts|
  {
  }

  /** An update merges into exactly the toasts with its id; length, order and the others are kept. */
  lemma UpdateOnlyMatching(state: ToastState, u: ToastProps)
    ensures var r := Reducer(state, UpdateToast(u)).toasts;
            && |r| == |state.toasts|
            && forall k :: 0 <= k < |r| ==>
                 (state.toasts[k].id == u.id ==> r[k] == Merge(state.toasts[k], u)) &&
                 (state.toasts[k].id != u.id ==> r[k] == state.toasts[k])
  {
  }

  /** Exactly the toasts with the id are gone; every other toast is still there. */
  lemma {:induction false} WithoutMembers(toasts: seq<ToastProps>, id: Option<string>, t: ToastProps)
    ensures t in Without(toasts, id) <==> t in toasts && id != Some(t.id)
  {
    if toasts != [] {
      WithoutMembers(toasts[1..], id, t);
      assert toasts == [toasts[0]] + toasts[1..];
    }
  }

  /** The filter keeps order: filtering a concatenation filters each part. */
  lemma {:induction false} WithoutConcat(a: seq<ToastProps>, b: seq<ToastProps>, id: Option<string>)
    ensures Without(a + b, id) == Without(a, id) + Without(b, id)
  {
    if a == [] {
      assert a + b == b;
    } else {
      var ab := a + b;
      assert ab[0] == a[0];
      assert ab[1..] == a[1..] + b;
      WithoutConcat(a[1..], b, id);
      if id == Some(a[0].id) {
        assert Without(ab, id) == Without(ab[1..], id);
        assert Without(a, id) == Without(a[1..], id);
      } else {
        assert Without(ab, id) == [a[0]] + Without(ab[1..], id);
        assert Without(a, id) == [a[0]] + Without(a[1..], id);
      }
    }
  }

  /** Without an id nothing matches: `dismiss()` keeps every toast. */
  lemma {:induction false} WithoutNone(toasts: seq<ToastProps>)
    ensures Without(toasts, None) == toasts
  {
    if toasts != [] {
      WithoutNone(toasts[1..]);
      assert toasts == [toasts[0]] + toasts[1..];
    }
  }

  /** Dismissal removes every toast carrying the id, keeps the rest in order, and does nothing without an id. */
  lemma DismissRemovesId(state: ToastState, id: Option<string>)
    ensures forall t :: t in Reducer(state, DismissToast(id)).toasts <==> t in state.toasts && id != Some(t.id)
    ensures id.None? ==> Reducer(state, DismissToast(id)) == state
  {
    forall t {
      WithoutMembers(state.toasts, id, t);
    }
    if id.None? {
      WithoutNone(state.toasts);
    }
  }

  /** Removal without an id clears the list; with one it is a dismissal. */
  lemma RemoveIsDismissOrClear(state: ToastState, id: Option<string>)
    ensures id.None? ==> Reducer(state, RemoveToast(id)).toasts == []
    ensures id.Some? ==> Reducer(state, RemoveToast(id)) == Reducer(state, DismissToast(id))
  {
  }

  /** Dismissing twice is dismissing once. */
  lemma {:induction false} WithoutIdempotent(toasts: seq<ToastProps>, id: Option<string>)
    ensures Without(Without(toasts, id), id) == Without(toasts, id)
  {
    if toasts != [] {
      WithoutIdempotent(toasts[1..], id);
      if id != Some(toasts[0].id) {
        assert Without(toasts, id) == [toasts[0]] + Without(toasts[1..], id);
      }
    }
  }

  // ---------------------------------------------------------------------------
  // Listener registration
  // ---------------------------------------------------------------------------

  /** A registered `setState`, known by identity. */
  datatype Listener = Listener(key: nat)

  /** `listeners.indexOf(l)`, None for -1. */
  function FirstIndex(ls: seq<Listener>, l: Listener): (r: Option<nat>)
    ensures r.Some? ==> r.value < |ls| && ls[r.value] == l && l !in ls[..r.value]
    ensures r.None? <==> l !in ls
  {
    if ls == [] then None
    else if ls[0] == l then Some(0)
    else match FirstIndex(ls[1..], l)
      case None => None
      case Some(i) =>
        assert ls[..i + 1] == [ls[0]] + ls[1..][..i];
        Some(i + 1)
  }

  /** The list after the cleanup of `useToast`'s effect: only the first occurrence of l is gone. */
  function RemoveFirst(ls: seq<Listener>, l: Listener): seq<Listener> {
    match FirstIndex(ls, l)
    case None => ls
    case Some(i) => ls[..i] + ls[i + 1..]
  }

  /** The first occurrence of l is removed and nothing else: the rest keep their order. */
  lemma RemoveFirstSpec(ls: seq<Listener>, l: Listener)
    ensures l !in ls ==> RemoveFirst(ls, l) == ls
    ensures l in ls ==> exists i :: 0 <= i < |ls| && ls[i] == l && l !in ls[..i] && RemoveFirst(ls, l) == ls[..i] + ls[i + 1..]
    ensures l in ls ==> |RemoveFirst(ls, l)| == |ls| - 1 && multiset(RemoveFirst(ls, l)) == multiset(ls) - multiset{l}
  {
    if l in ls {
      var i := FirstIndex(ls, l).value;
      assert ls == ls[..i] + [l] + ls[i + 1..];
      calc {
        multiset(ls);
        multiset(ls[..i] + [l] + ls[i + 1..]);
        multiset(ls[..i]) + multiset{l} + multiset(ls[i + 1..]);
      }
    }
  }

  /** One call of each listener with `state`, in order. */
  function Calls(ls: seq<Listener>, state: ToastState): (calls: seq<(Listener, ToastState)>)
    ensures |calls| == |ls|
    ensures forall k :: 0 <= k < |ls| ==> calls[k] == (ls[k], state)
  {
    if ls == [] then [] else Calls(ls[..|ls| - 1], state) + [(ls[|ls| - 1], state)]
  }

  // ---------------------------------------------------------------------------
  // The module state
  // ---------------------------------------------------------------------------

  /** `memoryState` and `listeners`, with the calls made to listeners and the removals scheduled. */
  class ToastStore {
    var memoryState: ToastState
    var listeners: seq<Listener>
    /** Every listener call so far, in order: who was called, and with what. */
    var delivered: seq<(Listener, ToastState)>
    /** The `setTimeout` removals not yet fired: the id and the delay. */
    var pendingRemovals: seq<(string, real)>

    constructor ()
      ensures memoryState == ToastState([]) && listeners == [] && delivered == [] && pendingRemovals == []
    {
      memoryState := ToastState([]);
      listeners := [];
      delivered := [];
      pendingRemovals := [];
    }

    /**
     * `dispatch`: the state becomes the reducer's result, then every listener
     * is called once with it, in registration order.
     */
    method Dispatch(action: Action)
      modifies this
      ensures memoryState == Reducer(old(memoryState), action)
      ensures delivered == old(delivered) + Calls(listeners, memoryState)
      ensures listeners == old(listeners) && pendingRemovals == old(pendingRemovals)
    {
      memoryState := Reducer(memoryState, action);
      var i := 0;
      while i < |listeners|
        invariant 0 <= i <= |listeners|
        invariant memoryState == Reducer(old(memoryState), action)
        invariant listeners == old(listeners) && pendingRemovals == old(pendingRemovals)
        invariant delivered == old(delivered) + Calls(listeners[..i], memoryState)
      {
        assert listeners[..i + 1][..i] == listeners[..i];
        delivered := delivered + [(listeners[i], memoryState)];
        i := i + 1;
      }
    }

    /**
     * `toast(props)` with `now` the value of `Date.now()`; `props.id` is
     * ignored. The duration defaults to 5000 only when absent, and a removal
     * is scheduled only for a positive duration.
     */
    method Toast(props: ToastProps, now: nat) returns (id: string)
      modifies this
      ensures id == JsStrings.Decimal(now)
      ensures var duration := props.duration.GetOr(DEFAULT_DURATION);
              && memoryState == Reducer(old(memoryState), AddToast(props.(id := id, duration := Some(duration))))
              && pendingRemovals == old(pendingRemovals) + (if duration > 0.0 then [(id, duration)] else [])
      ensures listeners == old(listeners)
      ensures delivered == old(delivered) + Calls(listeners, memoryState)
    {
      id := JsStrings.Decimal(now);
      var duration := props.duration.GetOr(DEFAULT_DURATION);
      Dispatch(AddToast(props.(id := id, duration := Some(duration))));
      if duration > 0.0 {
        pendingRemovals := pendingRemovals + [(id, duration)];
      }
    }

    /** A scheduled removal fires: `dispatch({ type: "REMOVE_TOAST", toast: { id } })`. */
    method FireRemoval(k: nat)
      requires k < |pendingRemovals|
      modifies this
      ensures memoryState == Reducer(old(memoryState), RemoveToast(Some(old(pendingRemovals)[k].0)))
      ensures pendingRemovals == old(pendingRemovals)[..k] + old(pendingRemovals)[k + 1..]
      ensures listeners == old(listeners)
      ensures delivered == old(delivered) + Calls(listeners, memoryState)
    {
      var removal := pendingRemovals[k];
      pendingRemovals := pendingRemovals[..k] + pendingRemovals[k + 1..];
      Dispatch(RemoveToast(Some(removal.0)));
    }

    /** `dismiss(id)` as `useToast` returns it. */
    method Dismiss(id: Option<string>)
      modifies this
      ensures memoryState == Reducer(old(memoryState), DismissToast(id))
      ensures listeners == old(listeners) && pendingRemovals == old(pendingRemovals)
      ensures delivered == old(delivered) + Calls(listeners, memoryState)
    {
      Dispatch(DismissToast(id));
    }

    /** The effect of `useToast`: `listeners.push(setState)`. */
    method Subscribe(l: Listener)
      modifies this
      ensures listeners == old(listeners) + [l]
      ensures memoryState == old(memoryState) && delivered == old(delivered) && pendingRemovals == old(pendingRemovals)
    {
      listeners := listeners + [l];
    }

    /** The effect's cleanup: `listeners.splice(listeners.indexOf(setState), 1)` when present. */
    method Unsubscribe(l: Listener)
      modifies this
      ensures listeners == RemoveFirst(old(listeners), l)
      ensures memoryState == old(memoryState) && delivered == old(delivered) && pendingRemovals == old(pendingRemovals)
    {
      var index := FirstIndex(listeners, l);
      if index.Some? {
        listeners := listeners[..index.value] + listeners[index.value + 1..];
      }
    }
  }
}
