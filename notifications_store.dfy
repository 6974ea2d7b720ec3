/** The in-memory notifications store (frontend/src/notifications/notificationsStore.ts):
    the unread badge count, the newest toasts, and a set of change listeners
    that every mutator calls once.  A listener is identified by a number; a
    JavaScript `Set` keeps insertion order, so the listeners are a sequence
    without repetitions, and every call of a listener is recorded in `calls`. */
module NotificationsStore {
  import opened Wrappers
  import opened Text
  import opened Json

  datatype ToastLevel = InfoToast | SuccessToast | WarningToast | ErrorToast

  /** `UIToast`: the title and text are whatever the message carried. */
  datatype UIToast = UIToast(id: string, title: Option<Json>, text: Option<Json>, typ: Option<string>,
                             level: Option<ToastLevel>, createdAt: int, payload: Option<Json>)

  type ListenerId = nat

  const MaxItems: nat := 50

  predicate Distinct(s: seq<ListenerId>) {
    forall i, j :: 0 <= i < j < |s| ==> s[i] != s[j]
  }

  /** `Set.add`: a listener already present keeps its place. */
  function Added(ls: seq<ListenerId>, fn: ListenerId): (r: seq<ListenerId>)
    ensures forall x :: x in r <==> x in ls || x == fn
    ensures fn in ls ==> r == ls
    ensures fn !in ls ==> r == ls + [fn]
    ensures Distinct(ls) ==> Distinct(r)
  {
    if fn in ls then ls else ls + [fn]
  }

  /** `Set.delete`: the others keep their order. */
  function Removed(ls: seq<ListenerId>, fn: ListenerId): (r: seq<ListenerId>)
    ensures forall x :: x in r <==> x in ls && x != fn
    ensures |r| <= |ls|
    ensures Distinct(ls) ==> Distinct(r)
  {
    if ls == [] then []
    else
      assert forall x :: x in ls <==> x == ls[0] || x in ls[1..];
      var rest := Removed(ls[1..], fn);
      assert Distinct(ls) ==> Distinct(ls[1..]) && ls[0] !in rest;
      if ls[0] == fn then rest else [ls[0]] + rest
  }

  lemma {:induction false} RemovedAbsent(ls: seq<ListenerId>, fn: ListenerId)
    requires fn !in ls
    ensures Removed(ls, fn) == ls
  {
    if ls != [] {
      RemovedAbsent(ls[1..], fn);
    }
  }

  lemma {:induction false} RemovedAppend(ls: seq<ListenerId>, x: ListenerId, fn: ListenerId)
    ensures Removed(ls + [x], fn) == Removed(ls, fn) + (if x == fn then [] else [x])
  {
    if ls == [] {
      assert ls + [x] == [x];
    } else {
      assert (ls + [x])[1..] == ls[1..] + [x];
      RemovedAppend(ls[1..], x, fn);
    }
  }

  /** The function `subscribe` returns undoes the subscription: a listener
      that was not subscribed before leaves the set as it was. */
  lemma SubscribeThenUnsubscribe(ls: seq<ListenerId>, fn: ListenerId)
    requires fn !in ls
    ensures Removed(Added(ls, fn), fn) == ls
  {
    RemovedAppend(ls, fn, fn);
    RemovedAbsent(ls, fn);
  }

  /** Each listener of a set occurs once in the calls of one notification. */
  lemma {:induction false} EachListenerOnce(ls: seq<ListenerId>, fn: ListenerId)
    requires Distinct(ls) && fn in ls
    ensures multiset(ls)[fn] == 1
  {
    if ls[0] == fn {
      assert fn !in ls[1..];
      assert ls == [ls[0]] + ls[1..];
    } else {
      EachListenerOnce(ls[1..], fn);
      assert ls == [ls[0]] + ls[1..];
    }
  }

  /** `Math.max(0, Number(n) || 0)`: `None` is `NaN`. */
  function ClampedCount(n: Option<int>): (r: nat)
    ensures n.Some? && n.value >= 0 ==> r == n.value
    ensures n.None? || n.value <= 0 ==> r == 0
  {
    if n.None? || n.value <= 0 then 0 else n.value
  }

  /** Clamping a stored count changes nothing. */
  lemma ClampedCountStable(n: Option<int>)
    ensures ClampedCount(Some(ClampedCount(n))) == ClampedCount(n)
  {
  }

  /** `[item, ...items].slice(0, 50)`. */
  function Prepended(items: seq<UIToast>, item: UIToast): (r: seq<UIToast>)
    ensures 0 < |r| <= MaxItems && r[0] == item
    ensures |r| == if |items| < MaxItems then |items| + 1 else MaxItems
    ensures forall i :: 1 <= i < |r| ==> r[i] == items[i - 1]
  {
    Take([item] + items, MaxItems)
  }

  /** A full list drops exactly its oldest (last) toast. */
  lemma PrependDropsOldest(items: seq<UIToast>, item: UIToast)
    requires |items| == MaxItems
    ensures Prepended(items, item) == [item] + items[..MaxItems - 1]
  {
  }

  class Store {
    var unreadCount: nat
    var items: seq<UIToast>
    var listeners: seq<ListenerId>
    /** every listener call, in order */
    var calls: seq<ListenerId>

    ghost predicate Valid()
      reads this
    {
      |items| <= MaxItems && Distinct(listeners)
    }

    constructor ()
      ensures unreadCount == 0 && items == [] && listeners == [] && calls == [] && Valid()
    {
      unreadCount := 0;
      items := [];
      listeners := [];
      calls := [];
    }

    method Subscribe(fn: ListenerId)
      requires Valid()
      modifies this
      ensures Valid()
      ensures listeners == Added(old(listeners), fn)
      ensures unreadCount == old(unreadCount) && items == old(items) && calls == old(calls)
    {
      listeners := Added(listeners, fn);
    }

    /** The function returned by `subscribe`. */
    method Unsubscribe(fn: ListenerId)
      requires Valid()
      modifies this
      ensures Valid()
      ensures listeners == Removed(old(listeners), fn)
      ensures unreadCount == old(unreadCount) && items == old(items) && calls == old(calls)
    {
      listeners := Removed(listeners, fn);
    }

    /** `emit`: calls the listeners in insertion order. */
    method Emit()
      modifies this
      ensures calls == old(calls) + listeners
      ensures unreadCount == old(unreadCount) && items == old(items) && listeners == old(listeners)
    {
      for i := 0 to |listeners|
        invariant unreadCount == old(unreadCount) && items == old(items) && listeners == old(listeners)
        invariant calls == old(calls) + listeners[..i]
      {
        calls := calls + [listeners[i]];
      }
    }

    method SetUnreadCount(n: Option<int>)
      requires Valid()
      modifies this
      ensures Valid()
      ensures unreadCount == ClampedCount(n)
      ensures items == old(items) && listeners == old(listeners)
      ensures calls == old(calls) + listeners
    {
      unreadCount := ClampedCount(n);
      Emit();
    }

    method Prepend(item: UIToast)
      requires Valid()
      modifies this
      ensures Valid()
      ensures items == Prepended(old(items), item)
      ensures unreadCount == old(unreadCount) && listeners == old(listeners)
      ensures calls == old(calls) + listeners
    {
      items := Prepended(items, item);
      Emit();
    }

    method MarkAllRead()
      requires Valid()
      modifies this
      ensures Valid()
      ensures unreadCount == 0
      ensures items == old(items) && listeners == old(listeners)
      ensures calls == old(calls) + listeners
    {
      unreadCount := 0;
      Emit();
    }
  }
}
