/**
 * context/NotificationContext.tsx: the toast queue, the bell's history of the ten
 * most recent notifications and the unread badge.
 */
module Notifications {
  import opened Wrappers
  import opened Aggregate

  datatype NotificationKind = Success | Info | Warning | Error

  datatype Notification = Notification(id: string, message: string, kind: NotificationKind)

  /** A history entry: the notification and the time it was shown. */
  datatype Entry = Entry(note: Notification, timestamp: int)

  /** What a page handler asks the notification center to show, if anything. */
  datatype Notice = Quiet | Notify(message: string, kind: NotificationKind)

  const HISTORY_LIMIT: nat := 10

  /** `s.slice(0, n)`. */
  function Take<T>(s: seq<T>, n: nat): (r: seq<T>)
    ensures |r| == if |s| < n then |s| else n
    ensures forall i :: 0 <= i < |r| ==> r[i] == s[i]
  {
    if |s| <= n then s else s[..n]
  }

  /** `[entry, ...prev].slice(0, 10)`. */
  function Pushed(history: seq<Entry>, e: Entry): seq<Entry> {
    Take([e] + history, HISTORY_LIMIT)
  }

  /** The history after the entries `es` are shown one after the other, oldest first. */
  function ShowAll(history: seq<Entry>, es: seq<Entry>): seq<Entry> {
    if es == [] then history else Pushed(ShowAll(history, es[..|es| - 1]), es[|es| - 1])
  }

  function Reverse<T>(s: seq<T>): (r: seq<T>)
    ensures |r| == |s|
    ensures forall i :: 0 <= i < |s| ==> r[i] == s[|s| - 1 - i]
  {
    if s == [] then [] else [s[|s| - 1]] + Reverse(s[..|s| - 1])
  }

  /** The history is never longer than ten, the new entry is first and the older ones move down one place. */
  lemma PushedShape(history: seq<Entry>, e: Entry)
    ensures |Pushed(history, e)| <= HISTORY_LIMIT
    ensures Pushed(history, e)[0] == e
    ensures forall i :: 1 <= i < |Pushed(history, e)| ==> Pushed(history, e)[i] == history[i - 1]
  {
  }

  /** Taking ten after prepending to the first ten is taking ten after prepending to the whole list. */
  lemma TakeAfterPrepend(e: Entry, s: seq<Entry>)
    ensures Take([e] + Take(s, HISTORY_LIMIT), HISTORY_LIMIT) == Take([e] + s, HISTORY_LIMIT)
  {
  }

  /** After any run of notifications the history is the ten most recent, newest first, over the older history. */
  lemma {:induction false} ShowAllNewestFirst(history: seq<Entry>, es: seq<Entry>)
    requires |history| <= HISTORY_LIMIT
    ensures ShowAll(history, es) == Take(Reverse(es) + history, HISTORY_LIMIT)
  {
    if es != [] {
      var init, last := es[..|es| - 1], es[|es| - 1];
      ShowAllNewestFirst(history, init);
      TakeAfterPrepend(last, Reverse(init) + history);
      assert Reverse(es) == [last] + Reverse(init);
      assert [last] + (Reverse(init) + history) == Reverse(es) + history;
    } else {
      assert Reverse(es) + history == history;
    }
  }

  class NotificationCenter {
    /** The toasts on screen, oldest first. */
    var toasts: seq<Notification>
    /** The bell's history, newest first. */
    var history: seq<Entry>
    /** The badge count; it is not capped at the history length. */
    var unreadCount: nat

    ghost predicate Valid()
      reads this
    {
      |history| <= HISTORY_LIMIT
    }

    constructor ()
      ensures Valid()
      ensures toasts == [] && history == [] && unreadCount == 0
    {
      toasts := [];
      history := [];
      unreadCount := 0;
    }

    /**
     * showNotification: the kind defaults to info, the toast is appended, the history
     * gains the entry at the front and keeps ten, and the badge goes up by one. The id
     * and the clock reading are parameters.
     */
    method ShowNotification(message: string, kind: Option<NotificationKind>, id: string, timestamp: int)
      requires Valid()
      modifies this
      ensures Valid()
      ensures toasts == old(toasts) + [Notification(id, message, kind.GetOr(Info))]
      ensures history == Pushed(old(history), Entry(Notification(id, message, kind.GetOr(Info)), timestamp))
      ensures unreadCount == old(unreadCount) + 1
    {
      var note := Notification(id, message, kind.GetOr(Info));
      toasts := toasts + [note];
      history := Take([Entry(note, timestamp)] + history, HISTORY_LIMIT);
      unreadCount := unreadCount + 1;
    }

    /** clearUnread: the badge resets; the history stays. */
    method ClearUnread()
      modifies this
      ensures unreadCount == 0
      ensures toasts == old(toasts) && history == old(history)
    {
      unreadCount := 0;
    }

    /** The timer callback that takes a toast off the screen three seconds after it appeared. */
    method Dismiss(id: string)
      modifies this
      ensures toasts == Filter(old(toasts), (n: Notification) => n.id != id)
      ensures history == old(history) && unreadCount == old(unreadCount)
    {
      toasts := Filter(toasts, (n: Notification) => n.id != id);
    }
  }

  /** Dismissing removes exactly the toasts carrying that id. */
  lemma DismissSpec(toasts: seq<Notification>, id: string)
    ensures forall n :: n in Filter(toasts, (n: Notification) => n.id != id) <==> n in toasts && n.id != id
  {
    forall n ensures n in Filter(toasts, (n: Notification) => n.id != id) <==> n in toasts && n.id != id {
      FilterMembers(toasts, (n: Notification) => n.id != id, n);
    }
  }
}
