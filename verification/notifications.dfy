/**
 * The on-screen notification list (context/AlertsContext.tsx): append with
 * a fresh id, remove by id, clear. The source's ids are built from the
 * clock and a random number; here a counter plays the fresh-id oracle.
 * Auto-expiry timers are represented by what `AddAlert` asks to schedule.
 */
module Notifications {
  import opened Types

  /** What a caller hands to `addAlert`: a notification without its id. */
  datatype Draft = Draft(level: Severity, title: string, message: string, duration: Option<nat>)

  datatype AlertNotification = AlertNotification(id: nat, draft: Draft)

  function Ids(alerts: seq<AlertNotification>): (ids: set<nat>)
    ensures forall a :: a in alerts ==> a.id in ids
    ensures forall i :: i in ids ==> exists a :: a in alerts && a.id == i
  {
    set a | a in alerts :: a.id
  }

  /** The list without the notifications carrying `id`, the rest in order. */
  function WithoutId(alerts: seq<AlertNotification>, id: nat): (r: seq<AlertNotification>)
    ensures |r| <= |alerts|
    ensures forall a :: a in r <==> a in alerts && a.id != id
  {
    if alerts == [] then []
    else (if alerts[0].id == id then [] else [alerts[0]]) + WithoutId(alerts[1..], id)
  }

  /** Removal distributes over concatenation: the survivors keep their order. */
  lemma {:induction false} WithoutIdAppend(a: seq<AlertNotification>, b: seq<AlertNotification>, id: nat)
    ensures WithoutId(a + b, id) == WithoutId(a, id) + WithoutId(b, id)
  {
    if a == [] {
      assert a + b == b;
    } else {
      assert (a + b)[0] == a[0];
      assert (a + b)[1..] == a[1..] + b;
      WithoutIdAppend(a[1..], b, id);
    }
  }

  /** Removing an id that is not in the list leaves it unchanged. */
  lemma {:induction false} RemoveUnknown(alerts: seq<AlertNotification>, id: nat)
    requires id !in Ids(alerts)
    ensures WithoutId(alerts, id) == alerts
  {
    if alerts != [] {
      assert alerts[0] in alerts;
      assert Ids(alerts[1..]) <= Ids(alerts);
      RemoveUnknown(alerts[1..], id);
      assert [alerts[0]] + alerts[1..] == alerts;
    }
  }

  /** Removing the same id twice is the same as removing it once. */
  lemma RemoveTwice(alerts: seq<AlertNotification>, id: nat)
    ensures WithoutId(WithoutId(alerts, id), id) == WithoutId(alerts, id)
  {
    RemoveUnknown(WithoutId(alerts, id), id);
  }

  /** Adding a notification under a fresh id and then removing that id restores the list. */
  lemma AddThenRemove(alerts: seq<AlertNotification>, n: AlertNotification)
    requires n.id !in Ids(alerts)
    ensures WithoutId(alerts + [n], n.id) == alerts
  {
    WithoutIdAppend(alerts, [n], n.id);
    RemoveUnknown(alerts, n.id);
    assert WithoutId([n], n.id) == [];
  }

  /** The delay after which a new notification removes itself: only a non-zero duration schedules one. */
  function Expiry(d: Draft): (delay: Option<nat>)
    ensures delay.Some? <==> d.duration.Some? && d.duration.value > 0
    ensures delay.Some? ==> delay.value == d.duration.value
  {
    match d.duration
    case Some(ms) => if ms > 0 then Some(ms) else None
    case None => None
  }

  /** Ids strictly increasing along the list and all below the next id to hand out. */
  ghost predicate IdsBelow(alerts: seq<AlertNotification>, next: nat)
  {
    && (forall i, j :: 0 <= i < j < |alerts| ==> alerts[i].id < alerts[j].id)
    && (forall i :: 0 <= i < |alerts| ==> alerts[i].id < next)
  }

  lemma IdsBelowTail(alerts: seq<AlertNotification>, next: nat)
    requires alerts != [] && IdsBelow(alerts, next)
    ensures IdsBelow(alerts[1..], next)
    ensures forall a :: a in alerts[1..] ==> alerts[0].id < a.id
  {
    var tail := alerts[1..];
    forall i, j | 0 <= i < j < |tail| ensures tail[i].id < tail[j].id {
      assert tail[i] == alerts[i + 1] && tail[j] == alerts[j + 1];
    }
    forall a | a in tail ensures alerts[0].id < a.id {
      var k :| 0 <= k < |tail| && tail[k] == a;
      assert alerts[k + 1] == a;
    }
  }

  lemma IdsBelowCons(x: AlertNotification, rest: seq<AlertNotification>, next: nat)
    requires IdsBelow(rest, next) && x.id < next
    requires forall a :: a in rest ==> x.id < a.id
    ensures IdsBelow([x] + rest, next)
  {
    var r := [x] + rest;
    forall i, j | 0 <= i < j < |r| ensures r[i].id < r[j].id {
      assert r[j] == rest[j - 1];
      if i > 0 {
        assert r[i] == rest[i - 1];
      }
    }
  }

  /** Removal keeps the ids increasing and below the next one to hand out. */
  lemma {:induction false} IdsBelowRemove(alerts: seq<AlertNotification>, next: nat, id: nat)
    requires IdsBelow(alerts, next)
    ensures IdsBelow(WithoutId(alerts, id), next)
    decreases |alerts|
  {
    if alerts != [] {
      IdsBelowTail(alerts, next);
      IdsBelowRemove(alerts[1..], next, id);
      var rest := WithoutId(alerts[1..], id);
      if alerts[0].id != id {
        assert WithoutId(alerts, id) == [alerts[0]] + rest;
        IdsBelowCons(alerts[0], rest, next);
      }
    }
  }

  /** The provider's `alerts` state and its id oracle. */
  class AlertCenter {
    var alerts: seq<AlertNotification>
    var nextId: nat

    ghost predicate Valid()
      reads this
    {
      IdsBelow(alerts, nextId)
    }

    constructor ()
      ensures Valid() && alerts == []
    {
      alerts := [];
      nextId := 0;
    }

    /** `addAlert`: append under a fresh id; report the self-removal it schedules. */
    method AddAlert(d: Draft) returns (id: nat, expiry: Option<nat>)
      requires Valid()
      modifies this
      ensures Valid()
      ensures id !in Ids(old(alerts))
      ensures id == old(nextId) && nextId == old(nextId) + 1
      ensures alerts == old(alerts) + [AlertNotification(id, d)]
      ensures expiry == Expiry(d)
    {
      id := nextId;
      alerts := alerts + [AlertNotification(id, d)];
      nextId := nextId + 1;
      expiry := Expiry(d);
    }

    /** `removeAlert`: drop every notification with this id, keeping the rest in order. */
    method RemoveAlert(id: nat)
      requires Valid()
      modifies this
      ensures Valid()
      ensures alerts == WithoutId(old(alerts), id) && nextId == old(nextId)
    {
      IdsBelowRemove(alerts, nextId, id);
      alerts := WithoutId(alerts, id);
    }

    /** `clearAll`. */
    method ClearAll()
      requires Valid()
      modifies this
      ensures Valid()
      ensures alerts == [] && nextId == old(nextId)
    {
      alerts := [];
    }
  }
}
