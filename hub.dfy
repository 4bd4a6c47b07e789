/**
 * The notification hub: the stored notification list, the id counter and the
 * set of connected WebSocket subscribers, with the operations the HTTP
 * handlers, the periodic generator and the broadcast loop perform on them.
 * Each operation is taken to run atomically.
 */
module NotificationHub {
  import opened Notifications
  import opened Strconv
  import opened Options

  /** An opaque handle for one subscriber's WebSocket connection. */
  type ClientId(==)

  datatype DeleteOutcome = Deleted | NotFound | InvalidId

  datatype NotifyOutcome = Created(stored: Notification) | InvalidJson

  /** The route prefix whose remainder names the id to delete. */
  const DeletePrefix: string := "/notifications/"

  const PeriodicTitle: string := "Periodic Notification"
  const PeriodicMessage: string := "You'll receive this every 5 seconds"

  class Hub {
    var notifications: seq<Notification>
    var nextID: int
    var clients: set<ClientId>
    /** Every id handed out so far, including those of deleted notifications. */
    ghost var issued: set<int>

    /**
     * Ids in the list are strictly increasing, positive and below `nextID`;
     * the ids handed out so far are exactly `1 .. nextID - 1`.
     */
    ghost predicate Valid()
      reads this
    {
      && 1 <= nextID
      && IdsIncreasing(notifications)
      && IdsWithin(notifications, 1, nextID)
      && (forall i :: i in issued <==> 1 <= i < nextID)
    }

    /** The state at process start: no notifications, counter at 1, no subscribers. */
    constructor ()
      ensures Valid()
      ensures notifications == [] && nextID == 1 && clients == {} && issued == {}
    {
      notifications := [];
      nextID := 1;
      clients := {};
      issued := {};
    }

    /**
     * Stamps the decoded notification with the current counter (whatever id
     * the payload carried is overwritten), advances the counter and appends
     * the record at the end of the list.
     */
    method Submit(n: Notification) returns (stored: Notification)
      requires Valid()
      modifies this
      ensures Valid()
      ensures stored == n.(id := old(nextID))
      ensures stored.id !in old(issued) && issued == old(issued) + {stored.id}
      ensures nextID == old(nextID) + 1
      ensures notifications == old(notifications) + [stored]
      ensures clients == old(clients)
    {
      stored := n.(id := nextID);
      nextID := nextID + 1;
      AppendKeepsOrder(notifications, stored, 1);
      notifications := notifications + [stored];
      issued := issued + {stored.id};
    }

    /**
     * Scans the list for the first record with the given id and splices it
     * out, keeping the order of the others; reports whether one was found.
     * The counter is untouched, so the id is never handed out again.
     */
    method Delete(id: int) returns (found: bool)
      requires Valid()
      modifies this
      ensures Valid()
      ensures found <==> HasId(old(notifications), id)
      ensures found ==> exists k :: 0 <= k < |old(notifications)| && old(notifications)[k].id == id
                                    && (forall j :: 0 <= j < k ==> old(notifications)[j].id != id)
                                    && notifications == RemoveAt(old(notifications), k)
      ensures found ==> id in issued && !HasId(notifications, id)
      ensures !found ==> notifications == old(notifications)
      ensures nextID == old(nextID) && issued == old(issued) && clients == old(clients)
    {
      var i := 0;
      while i < |notifications|
        invariant 0 <= i <= |notifications|
        invariant notifications == old(notifications)
        invariant forall k :: 0 <= k < i ==> notifications[k].id != id
      {
        if notifications[i].id == id {
          RemoveAtKeepsOrder(notifications, i, 1, nextID);
          FirstMatchIsOnlyMatch(notifications, i, id);
          notifications := RemoveAt(notifications, i);
          return true;
        }
        i := i + 1;
      }
      return false;
    }

    /**
     * The delete handler: parses the path suffix after the route prefix with
     * `strconv.Atoi`; an unparsable suffix is rejected and changes nothing,
     * a parsed id is deleted or reported as not found.
     */
    method HandleDelete(path: string) returns (outcome: DeleteOutcome)
      requires Valid()
      requires |DeletePrefix| <= |path| && path[..|DeletePrefix|] == DeletePrefix
      modifies this
      ensures Valid()
      ensures Atoi(path[|DeletePrefix|..]).None? ==>
                outcome == InvalidId && notifications == old(notifications)
      ensures Atoi(path[|DeletePrefix|..]).Some? ==>
                var id := Atoi(path[|DeletePrefix|..]).value;
                && (outcome == Deleted <==> HasId(old(notifications), id))
                && (outcome == NotFound <==> !HasId(old(notifications), id))
                && (outcome == Deleted ==> exists k :: 0 <= k < |old(notifications)|
                                              && old(notifications)[k].id == id
                                              && (forall j :: 0 <= j < k ==> old(notifications)[j].id != id)
                                              && notifications == RemoveAt(old(notifications), k))
                && (outcome == NotFound ==> notifications == old(notifications))
      ensures nextID == old(nextID) && issued == old(issued) && clients == old(clients)
    {
      var parsed := Atoi(path[|DeletePrefix|..]);
      if parsed.None? {
        return InvalidId;
      }
      var found := Delete(parsed.value);
      outcome := if found then Deleted else NotFound;
    }

    /** The list handler's view: the stored notifications in submission order. */
    method List() returns (snapshot: seq<Notification>)
      requires Valid()
      ensures snapshot == notifications
      ensures IdsIncreasing(snapshot) && IdsWithin(snapshot, 1, nextID)
    {
      snapshot := notifications;
    }

    /** A connection completed the WebSocket upgrade and is registered. */
    method Subscribe(c: ClientId)
      requires Valid()
      modifies this
      ensures Valid()
      ensures clients == old(clients) + {c}
      ensures notifications == old(notifications) && nextID == old(nextID) && issued == old(issued)
    {
      clients := clients + {c};
    }

    /** A connection's read loop ended; it is removed if still registered. */
    method Unsubscribe(c: ClientId)
      requires Valid()
      modifies this
      ensures Valid()
      ensures clients == old(clients) - {c}
      ensures notifications == old(notifications) && nextID == old(nextID) && issued == old(issued)
    {
      clients := clients - {c};
    }

    /**
     * Sends one notification to every registered client. `sendOk(c)` is the
     * outcome of the write to `c`; a client whose write fails is closed and
     * removed, and the loop carries on with the others. Returns the clients
     * the notification reached.
     */
    method Broadcast(n: Notification, sendOk: ClientId -> bool) returns (delivered: set<ClientId>)
      requires Valid()
      modifies this
      ensures Valid()
      ensures forall c :: c in delivered <==> c in old(clients) && sendOk(c)
      ensures forall c :: c in clients <==> c in old(clients) && sendOk(c)
      ensures notifications == old(notifications) && nextID == old(nextID) && issued == old(issued)
    {
      var pending := clients;
      delivered := {};
      ghost var dropped: set<ClientId> := {};
      while pending != {}
        invariant pending <= old(clients)
        invariant forall c :: c in delivered <==> c in old(clients) && c !in pending && sendOk(c)
        invariant forall c :: c in dropped <==> c in old(clients) && c !in pending && !sendOk(c)
        invariant clients == old(clients) - dropped
        invariant notifications == old(notifications) && nextID == old(nextID) && issued == old(issued)
        decreases pending
      {
        var c :| c in pending;
        if sendOk(c) {
          delivered := delivered + {c};
        } else {
          clients := clients - {c};
          dropped := dropped + {c};
        }
        pending := pending - {c};
      }
    }

    /**
     * The notify handler: a payload that failed to decode changes nothing;
     * otherwise the notification is submitted and then broadcast.
     */
    method HandleNotify(payload: Option<Notification>, sendOk: ClientId -> bool)
      returns (outcome: NotifyOutcome, delivered: set<ClientId>)
      requires Valid()
      modifies this
      ensures Valid()
      ensures payload.None? ==> outcome == InvalidJson && delivered == {}
                                && notifications == old(notifications) && nextID == old(nextID)
                                && clients == old(clients)
      ensures payload.Some? ==>
                && outcome == Created(payload.value.(id := old(nextID)))
                && notifications == old(notifications) + [outcome.stored]
                && nextID == old(nextID) + 1
                && (forall c :: c in delivered <==> c in old(clients) && sendOk(c))
                && (forall c :: c in clients <==> c in old(clients) && sendOk(c))
    {
      if payload.None? {
        return InvalidJson, {};
      }
      var stored := Submit(payload.value);
      delivered := Broadcast(stored, sendOk);
      outcome := Created(stored);
    }

    /** One round of the periodic generator: submit the canned notification, then broadcast it. */
    method PeriodicTick(sendOk: ClientId -> bool) returns (stored: Notification, delivered: set<ClientId>)
      requires Valid()
      modifies this
      ensures Valid()
      ensures stored == Notification(old(nextID), PeriodicTitle, PeriodicMessage)
      ensures notifications == old(notifications) + [stored] && nextID == old(nextID) + 1
      ensures forall c :: c in delivered <==> c in old(clients) && sendOk(c)
      ensures forall c :: c in clients <==> c in old(clients) && sendOk(c)
    {
      stored := Submit(Notification(0, PeriodicTitle, PeriodicMessage));
      delivered := Broadcast(stored, sendOk);
    }
  }

  /** What a caller can derive from the contracts alone: submit two, delete the first twice. */
  method SubmitDeleteScenario() {
    var hub := new Hub();
    var a := hub.Submit(Notification(0, "A", "a"));
    var b := hub.Submit(Notification(0, "B", "b"));
    assert a.id == 1 && b.id == 2;
    assert hub.notifications[0].id == 1;
    var found := hub.Delete(1);
    assert found;
    var listed := hub.List();
    assert listed == [Notification(2, "B", "b")];
    found := hub.Delete(1);
    assert !found;
    var c := hub.Submit(Notification(7, "C", "c"));
    assert c.id == 3;
  }

  /** Two subscribers; the first one's connection breaks before the second broadcast. */
  method BroadcastScenario(s1: ClientId, s2: ClientId, s3: ClientId)
    requires s1 != s2 && s3 != s1 && s3 != s2
  {
    var hub := new Hub();
    hub.Subscribe(s3);
    hub.Unsubscribe(s3);
    hub.Subscribe(s1);
    hub.Subscribe(s2);
    var x, got := hub.PeriodicTick(_ => true);
    assert got == {s1, s2};
    var y, got' := hub.PeriodicTick(c => c != s1);
    assert got' == {s2};
    assert hub.clients == {s2};
  }
}
