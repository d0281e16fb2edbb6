/** The orchestrator's alert list and the dashboard view of it: the
    unresolved alerts, newest first. */
module Alerts {

  /** A stored alert; `createdAt` is its creation time in milliseconds. */
  datatype Alert = Alert(message: string, createdAt: int, resolved: bool)

  /** `filter(alert => !alert.resolved)`. */
  function Unresolved(alerts: seq<Alert>): (r: seq<Alert>)
    ensures forall k :: 0 <= k < |r| ==> !r[k].resolved
    ensures forall a :: a in r <==> a in alerts && !a.resolved
    ensures multiset(r) <= multiset(alerts)
  {
    if alerts == [] then []
    else
      assert alerts == [alerts[0]] + alerts[1..];
      (if alerts[0].resolved then [] else [alerts[0]]) + Unresolved(alerts[1..])
  }

  /** The filter keeps every unresolved alert as often as it is stored and
      drops every resolved one. */
  lemma {:induction false} UnresolvedCounts(alerts: seq<Alert>)
    ensures forall a :: multiset(Unresolved(alerts))[a] == if a.resolved then 0 else multiset(alerts)[a]
  {
    if alerts != [] {
      UnresolvedCounts(alerts[1..]);
      assert alerts == [alerts[0]] + alerts[1..];
    }
  }

  /** The filter keeps the order: filtering a concatenation filters each
      part in turn. */
  lemma UnresolvedAppend(a: seq<Alert>, b: seq<Alert>)
    ensures Unresolved(a + b) == Unresolved(a) + Unresolved(b)
  {
    UnresolvedIsKept(a + b);
    UnresolvedIsKept(a);
    UnresolvedIsKept(b);
    KeptAppend(a, b);
  }

  /** The filter's definition alone, without the properties proved of
      `Unresolved`; reasoning about concatenations goes through it. */
  ghost function KeepUnresolved(s: seq<Alert>): seq<Alert>
  {
    if s == [] then [] else (if s[0].resolved then [] else [s[0]]) + KeepUnresolved(s[1..])
  }

  lemma {:induction false} UnresolvedIsKept(s: seq<Alert>)
    ensures Unresolved(s) == KeepUnresolved(s)
  {
    if s != [] {
      UnresolvedIsKept(s[1..]);
    }
  }

  lemma {:induction false} KeptAppend(a: seq<Alert>, b: seq<Alert>)
    ensures KeepUnresolved(a + b) == KeepUnresolved(a) + KeepUnresolved(b)
  {
    if a == [] {
      assert a + b == b;
    } else {
      assert (a + b)[0] == a[0] && (a + b)[1..] == a[1..] + b;
      KeptAppend(a[1..], b);
    }
  }

  /** Newest first: no alert is directly followed by a strictly newer one
      (so, by transitivity, none precedes a strictly newer one). */
  predicate NewestFirst(s: seq<Alert>)
  {
    forall i :: 0 <= i < |s| - 1 ==> s[i].createdAt >= s[i + 1].createdAt
  }

  /** Places `a` before the first alert that is not newer than it, so an
      alert that came earlier in the input stays ahead of later alerts with
      the same time. */
  function Insert(a: Alert, s: seq<Alert>): (r: seq<Alert>)
    requires NewestFirst(s)
    ensures NewestFirst(r)
    ensures |r| == |s| + 1
    ensures r[0] == if s == [] || a.createdAt >= s[0].createdAt then a else s[0]
  {
    if s == [] then [a]
    else if a.createdAt >= s[0].createdAt then
      ConsNewestFirst(a, s);
      [a] + s
    else
      TailNewestFirst(s);
      var rest := Insert(a, s[1..]);
      ConsNewestFirst(s[0], rest);
      [s[0]] + rest
  }

  /** Inserting adds the one alert and loses none. */
  lemma {:induction false} InsertPermutes(a: Alert, s: seq<Alert>)
    requires NewestFirst(s)
    ensures multiset(Insert(a, s)) == multiset(s) + multiset{a}
  {
    if s != [] && a.createdAt < s[0].createdAt {
      TailNewestFirst(s);
      InsertPermutes(a, s[1..]);
      assert s == [s[0]] + s[1..];
    }
  }

  /** An alert no older than the head of a sorted list can go in front. */
  lemma ConsNewestFirst(x: Alert, t: seq<Alert>)
    requires NewestFirst(t)
    requires t == [] || x.createdAt >= t[0].createdAt
    ensures NewestFirst([x] + t)
  {
    var r := [x] + t;
    forall i | 0 <= i < |r| - 1
      ensures r[i].createdAt >= r[i + 1].createdAt
    {
      if i > 0 {
        assert r[i] == t[i - 1] && r[i + 1] == t[i];
      }
    }
  }

  lemma TailNewestFirst(s: seq<Alert>)
    requires NewestFirst(s) && s != []
    ensures NewestFirst(s[1..])
  {
    forall i | 0 <= i < |s| - 2
      ensures s[1..][i].createdAt >= s[1..][i + 1].createdAt
    {
      assert s[1..][i] == s[i + 1] && s[1..][i + 1] == s[i + 2];
    }
  }

  /** The comparator sort `(a, b) => b.createdAt - a.createdAt`: a stable
      sort on descending creation time. */
  function SortNewestFirst(s: seq<Alert>): (r: seq<Alert>)
    ensures NewestFirst(r)
    ensures multiset(r) == multiset(s)
  {
    if s == [] then []
    else
      assert s == [s[0]] + s[1..];
      InsertPermutes(s[0], SortNewestFirst(s[1..]));
      Insert(s[0], SortNewestFirst(s[1..]))
  }

  /** The alerts of `s` created at time `t`, in their order in `s`. */
  function AtTime(s: seq<Alert>, t: int): seq<Alert>
  {
    if s == [] then [] else (if s[0].createdAt == t then [s[0]] else []) + AtTime(s[1..], t)
  }

  lemma AtTimeCons(a: Alert, s: seq<Alert>, t: int)
    ensures AtTime([a] + s, t) == (if a.createdAt == t then [a] else []) + AtTime(s, t)
  {
    assert ([a] + s)[1..] == s;
  }

  lemma {:induction false} InsertAtTime(a: Alert, s: seq<Alert>, t: int)
    requires NewestFirst(s)
    ensures AtTime(Insert(a, s), t) == (if a.createdAt == t then [a] else []) + AtTime(s, t)
  {
    if s == [] {
    } else if a.createdAt >= s[0].createdAt {
      AtTimeCons(a, s, t);
    } else {
      TailNewestFirst(s);
      var rest := Insert(a, s[1..]);
      InsertAtTime(a, s[1..], t);
      AtTimeCons(s[0], rest, t);
      AtTimeCons(s[0], s[1..], t);
      assert s == [s[0]] + s[1..];
      var tail := AtTime(s[1..], t);
      if a.createdAt == t {
        assert AtTime(Insert(a, s), t) == [a] + tail;
      } else {
        assert AtTime(rest, t) == tail;
      }
    }
  }

  /** Filtering keeps the stored order among the alerts of each time. */
  lemma {:induction false} UnresolvedAtTime(s: seq<Alert>, t: int)
    ensures AtTime(Unresolved(s), t) == Unresolved(AtTime(s, t))
  {
    if s != [] {
      UnresolvedAtTime(s[1..], t);
      var head := if s[0].resolved then [] else [s[0]];
      AtTimeAppend(head, Unresolved(s[1..]), t);
      UnresolvedAppend(if s[0].createdAt == t then [s[0]] else [], AtTime(s[1..], t));
    }
  }

  lemma {:induction false} AtTimeAppend(a: seq<Alert>, b: seq<Alert>, t: int)
    ensures AtTime(a + b, t) == AtTime(a, t) + AtTime(b, t)
  {
    if a != [] {
      var head := if a[0].createdAt == t then [a[0]] else [];
      assert (a + b)[0] == a[0] && (a + b)[1..] == a[1..] + b;
      assert AtTime(a + b, t) == head + AtTime(a[1..] + b, t);
      AtTimeAppend(a[1..], b, t);
      assert head + (AtTime(a[1..], t) + AtTime(b, t)) == (head + AtTime(a[1..], t)) + AtTime(b, t);
    } else {
      assert a + b == b;
    }
  }

  /** The sort is stable: the alerts created at the same time keep their
      input order. */
  lemma {:induction false} SortStable(s: seq<Alert>, t: int)
    ensures AtTime(SortNewestFirst(s), t) == AtTime(s, t)
  {
    if s != [] {
      SortStable(s[1..], t);
      InsertAtTime(s[0], SortNewestFirst(s[1..]), t);
    }
  }

  /** `getActiveAlerts`. */
  function ActiveAlerts(alerts: seq<Alert>): seq<Alert>
  {
    SortNewestFirst(Unresolved(alerts))
  }

  /** The active alerts are exactly the unresolved ones, each as often as it
      is stored, ordered newest first, with alerts of equal time in their
      stored order. */
  lemma ActiveAlertsSpec(alerts: seq<Alert>)
    ensures var r := ActiveAlerts(alerts);
      && NewestFirst(r)
      && multiset(r) == multiset(Unresolved(alerts))
      && (forall k :: 0 <= k < |r| ==> !r[k].resolved)
      && (forall a :: a in r <==> a in alerts && !a.resolved)
      && (forall t :: AtTime(r, t) == AtTime(Unresolved(alerts), t))
      && (forall a :: multiset(r)[a] == if a.resolved then 0 else multiset(alerts)[a])
      && (forall t :: AtTime(r, t) == Unresolved(AtTime(alerts, t)))
  {
    var r := ActiveAlerts(alerts);
    var u := Unresolved(alerts);
    UnresolvedCounts(alerts);
    forall a ensures a in r <==> a in u {
      assert a in r <==> a in multiset(r);
      assert a in u <==> a in multiset(u);
    }
    forall t ensures AtTime(r, t) == AtTime(u, t) == Unresolved(AtTime(alerts, t)) {
      SortStable(u, t);
      UnresolvedAtTime(alerts, t);
    }
  }
}
