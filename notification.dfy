/** The notification record and the facts about the stored list that the hub relies on. */
module Notifications {

  /** One notification: its id is assigned by the hub, title and message are opaque text. */
  datatype Notification = Notification(id: int, title: string, message: string)

  /** Ids strictly increase along the list, so no id occurs twice. */
  predicate IdsIncreasing(ns: seq<Notification>) {
    forall i, j :: 0 <= i < j < |ns| ==> ns[i].id < ns[j].id
  }

  /** Every id in the list lies in `[lo, hi)`. */
  predicate IdsWithin(ns: seq<Notification>, lo: int, hi: int) {
    forall i :: 0 <= i < |ns| ==> lo <= ns[i].id < hi
  }

  predicate HasId(ns: seq<Notification>, id: int) {
    exists i :: 0 <= i < |ns| && ns[i].id == id
  }

  /** The list with the record at position `k` spliced out. */
  function RemoveAt(ns: seq<Notification>, k: nat): (r: seq<Notification>)
    requires k < |ns|
    ensures |r| == |ns| - 1
    ensures forall i :: 0 <= i < k ==> r[i] == ns[i]
    ensures forall i :: k <= i < |r| ==> r[i] == ns[i + 1]
  {
    ns[..k] + ns[k + 1..]
  }

  /**
   * Splicing one record out of a list with increasing ids keeps the ids
   * increasing and within their bounds, and removes exactly that record's id:
   * every other id is still present.
   */
  lemma RemoveAtKeepsOrder(ns: seq<Notification>, k: nat, lo: int, hi: int)
    requires k < |ns| && IdsIncreasing(ns) && IdsWithin(ns, lo, hi)
    ensures IdsIncreasing(RemoveAt(ns, k)) && IdsWithin(RemoveAt(ns, k), lo, hi)
    ensures forall id :: HasId(RemoveAt(ns, k), id) <==> HasId(ns, id) && id != ns[k].id
  {
    var r := RemoveAt(ns, k);
    forall i, j | 0 <= i < j < |r| ensures r[i].id < r[j].id {
      var i' := if i < k then i else i + 1;
      var j' := if j < k then j else j + 1;
      assert r[i] == ns[i'] && r[j] == ns[j'];
    }
    forall id ensures HasId(r, id) <==> HasId(ns, id) && id != ns[k].id {
      if HasId(r, id) {
        var i :| 0 <= i < |r| && r[i].id == id;
        var i' := if i < k then i else i + 1;
        assert ns[i'].id == id;
      }
      if HasId(ns, id) && id != ns[k].id {
        var i' :| 0 <= i' < |ns| && ns[i'].id == id;
        var i := if i' < k then i' else i' - 1;
        assert r[i].id == id;
      }
    }
  }

  /**
   * In a list with increasing ids the first record carrying an id is the only
   * one: any record with that id sits at the same position.
   */
  lemma FirstMatchIsOnlyMatch(ns: seq<Notification>, k: nat, id: int)
    requires IdsIncreasing(ns) && k < |ns| && ns[k].id == id
    ensures forall i :: 0 <= i < |ns| && ns[i].id == id ==> i == k
  {
  }

  /**
   * Appending a record whose id exceeds every stored id keeps the ids
   * increasing; the new bound is one more than the appended id.
   */
  lemma AppendKeepsOrder(ns: seq<Notification>, n: Notification, lo: int)
    requires IdsIncreasing(ns) && IdsWithin(ns, lo, n.id) && lo <= n.id
    ensures IdsIncreasing(ns + [n]) && IdsWithin(ns + [n], lo, n.id + 1)
  {
  }
}
