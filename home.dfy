/**
 * The home page (app/page.tsx): the signed-in user's five most recent
 * orders, the first three menu items as featured items, and the short
 * order reference shown beside each order.
 *
 * The store's `orders` collection is a sequence of raw documents in the
 * order the store returns them. Timestamps are milliseconds since the epoch
 * (`getTime()`); the conversion of a stored value to a `Date` is not
 * modelled.
 */
module Home {
  import opened Common
  import opened Catalog
  import opened StableSort

  /** What `Number(data.total)` makes of the stored total: a number, or NaN
      when the field is missing or not numeric. */
  datatype RawTotal = Missing | Numeric(v: real) | NonNumeric

  /** An order document as read back from the store. */
  datatype RawOrder = RawOrder(id: string, userId: Option<string>, total: RawTotal, status: Option<string>, createdAt: int)

  /** An entry of the recent-orders list. */
  datatype RecentOrder = RecentOrder(id: string, total: real, status: string, createdAt: int)

  /** `Number(data.total) || 0`: NaN and zero both become 0. */
  function NormaliseTotal(t: RawTotal): (r: real)
    ensures t.Numeric? ==> r == t.v
    ensures !t.Numeric? ==> r == 0.0
  {
    match t
    case Numeric(v) => if v == 0.0 then 0.0 else v
    case _ => 0.0
  }

  /** `String(data.status || 'pending')`: a missing or empty status becomes
      `'pending'`. */
  function NormaliseStatus(s: Option<string>): (r: string)
    ensures r != ""
    ensures s.Some? && s.value != "" ==> r == s.value
    ensures s.None? || s.value == "" ==> r == "pending"
  {
    match s
    case Some(v) => if v != "" then v else "pending"
    case None => "pending"
  }

  /** One pushed entry: the document's id and time, its total and status
      normalised. */
  function Normalise(d: RawOrder): (r: RecentOrder)
    ensures r.id == d.id && r.createdAt == d.createdAt
    ensures r.total == NormaliseTotal(d.total) && r.status == NormaliseStatus(d.status)
  {
    RecentOrder(d.id, NormaliseTotal(d.total), NormaliseStatus(d.status), d.createdAt)
  }

  /** The entries `forEach` pushes, in snapshot order. */
  function NormaliseAll(docs: seq<RawOrder>): (r: seq<RecentOrder>)
    ensures |r| == |docs|
    ensures forall i :: 0 <= i < |docs| ==> r[i] == Normalise(docs[i])
  {
    if docs == [] then [] else NormaliseAll(docs[..|docs| - 1]) + [Normalise(docs[|docs| - 1])]
  }

  function OwnedBy(uid: string): RawOrder -> bool
  {
    (d: RawOrder) => d.userId == Some(uid)
  }

  /** `where('userId', '==', uid)`: the user's own order documents. */
  function UserOrders(store: seq<RawOrder>, uid: string): seq<RawOrder>
  {
    Filter(store, OwnedBy(uid))
  }

  /** The comparator `(a, b) => b.createdAt - a.createdAt` compares the
      negated timestamps. */
  function NewestFirst(): RecentOrder -> Key
  {
    (o: RecentOrder) => Number(-(o.createdAt as real))
  }

  /** How many recent orders the page shows. */
  const RecentLimit: nat := 5

  /** The list passed to `setRecentOrders`. */
  function RecentOrders(store: seq<RawOrder>, uid: string): (r: seq<RecentOrder>)
    ensures |r| <= RecentLimit && |r| <= |store|
  {
    Take(Sort(NormaliseAll(UserOrders(store, uid)), NewestFirst()), RecentLimit)
  }

  /** The list is newest first, and holds min(5, n) entries for a user with
      n orders. */
  lemma RecentOrdersNewestFirst(store: seq<RawOrder>, uid: string)
    ensures var r := RecentOrders(store, uid);
      && |r| == Min(RecentLimit, |UserOrders(store, uid)|)
      && forall i, j :: 0 <= i < j < |r| ==> r[i].createdAt >= r[j].createdAt
  {
    var all := NormaliseAll(UserOrders(store, uid));
    SortSorted(all, NewestFirst());
    SortPermutes(all, NewestFirst());
  }

  /** Every listed entry is the normalised form of one of the user's own
      order documents. */
  lemma RecentOrdersOwned(store: seq<RawOrder>, uid: string)
    ensures forall o :: o in RecentOrders(store, uid) ==>
      exists d :: d in store && d.userId == Some(uid) && o == Normalise(d)
  {
    var docs := UserOrders(store, uid);
    var all := NormaliseAll(docs);
    var sorted := Sort(all, NewestFirst());
    SortPermutes(all, NewestFirst());
    forall o | o in RecentOrders(store, uid)
      ensures exists d :: d in store && d.userId == Some(uid) && o == Normalise(d)
    {
      assert o in multiset(sorted);
      var i :| 0 <= i < |all| && all[i] == o;
      FilterMembership(store, OwnedBy(uid), docs[i]);
      assert docs[i] in docs;
    }
  }

  /** No order left off the list is newer than one on it: the list holds the
      user's most recent orders. */
  lemma RecentOrdersAreTheNewest(store: seq<RawOrder>, uid: string)
    ensures var all := Sort(NormaliseAll(UserOrders(store, uid)), NewestFirst());
      forall i, j :: 0 <= i < |RecentOrders(store, uid)| <= j < |all| ==> all[i].createdAt >= all[j].createdAt
  {
    var all := NormaliseAll(UserOrders(store, uid));
    SortSorted(all, NewestFirst());
  }

  /** `loadRecentOrders()`. `None` means the list is not updated: there is
      no user id (line 59), or the read threw and the error was logged. */
  method LoadRecentOrders(uid: Option<string>, store: seq<RawOrder>, readSucceeds: bool)
    returns (r: Option<seq<RecentOrder>>)
    ensures uid.None? || uid.value == "" || !readSucceeds ==> r.None?
    ensures uid.Some? && uid.value != "" && readSucceeds ==> r == Some(RecentOrders(store, uid.value))
  {
    if uid.None? || uid.value == "" {
      return None;
    }
    if !readSucceeds {
      return None;
    }
    var snapshot := UserOrders(store, uid.value);
    var orders: seq<RecentOrder> := [];
    for i := 0 to |snapshot|
      invariant orders == NormaliseAll(snapshot[..i])
    {
      assert snapshot[..i + 1][..i] == snapshot[..i];
      orders := orders + [Normalise(snapshot[i])];
    }
    assert snapshot[..|snapshot|] == snapshot;
    var a := new RecentOrder[|orders|](k requires 0 <= k < |orders| => orders[k]);
    assert a[..] == orders;
    SortInPlace(a, NewestFirst());
    r := Some(Take(a[..], RecentLimit));
  }

  /** How many menu items the home page features. */
  const FeaturedLimit: nat := 3

  /** `items.slice(0, 3)`: the first three fetched items, in fetched order. */
  function FeaturedItems(items: seq<FoodItem>): (r: seq<FoodItem>)
    ensures |r| == Min(FeaturedLimit, |items|)
    ensures forall i :: 0 <= i < |r| ==> r[i] == items[i]
  {
    Take(items, FeaturedLimit)
  }

  /** `order.id.slice(-8).toUpperCase()`: the last eight characters of the
      id (all of it when shorter), upper-cased. */
  function OrderLabel(id: string): (r: string)
    ensures |r| == Min(8, |id|)
    ensures forall i :: 0 <= i < |r| ==> r[i] == UpperChar(id[|id| - |r| + i])
  {
    var n := Min(8, |id|);
    seq(n, i requires 0 <= i < n => UpperChar(id[|id| - n + i]))
  }

  /** The label is what the page computes, `slice(-8)` then `toUpperCase()`. */
  lemma OrderLabelIsSliceThenUpper(id: string)
    ensures OrderLabel(id) == ToUpper(TakeLast(id, 8))
  {
    var a, b := OrderLabel(id), ToUpper(TakeLast(id, 8));
    assert |a| == |b|;
    forall i | 0 <= i < |a|
      ensures a[i] == b[i]
    {
    }
  }

  /** The label depends only on the id's last eight characters. */
  lemma OrderLabelIgnoresPrefix(prefix: string, id: string)
    requires |id| >= 8
    ensures OrderLabel(prefix + id) == OrderLabel(id)
  {
    var a, b := OrderLabel(prefix + id), OrderLabel(id);
    assert |a| == |b| == 8;
    forall i | 0 <= i < 8
      ensures a[i] == b[i]
    {
      assert (prefix + id)[|prefix + id| - 8 + i] == id[|id| - 8 + i];
    }
  }
}
