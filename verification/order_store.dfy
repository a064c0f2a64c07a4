/** The order side of the server's store: creating an order, updating its
    status, and listing a user's orders.

    The collection is `Orders.Store`. A user's orders are gathered by four
    equality queries, merged by document id and sorted newest first.
 */
module OrderStore {
  import opened Base
  import opened Orders
  import Sorting

  /** `createOrder(orderData)`: stores the order under a new id as 'pending', with both stamps. */
  function CreateOrder(s: Store, o: Order, now: int): (r: (Store, DocId))
    requires Valid(s)
    ensures Valid(r.0)
    ensures r.1 == s.nextId && forall i :: 0 <= i < |s.docs| ==> s.docs[i].id != r.1
    ensures |r.0.docs| == |s.docs| + 1 && r.0.docs[..|s.docs|] == s.docs && r.0.docs[|s.docs|].id == r.1
    ensures Lookup(r.0, r.1).Some?
    ensures var saved := Lookup(r.0, r.1).value;
            && saved.status == Some("pending") && saved.createdAt == Some(now) && saved.updatedAt == Some(now)
            && saved == o.(status := saved.status, createdAt := saved.createdAt, updatedAt := saved.updatedAt)
    ensures forall id :: id != r.1 ==> Lookup(r.0, id) == Lookup(s, id)
  {
    var s1 := Add(s, o.(status := Some("pending"), createdAt := Some(now), updatedAt := Some(now)));
    assert s1.docs[..|s.docs|] == s.docs;
    (s1, s.nextId)
  }

  /** The stored status is 'pending' whatever status the caller's order carried. */
  lemma CreateOrderIgnoresStatus(s: Store, o: Order, status: Option<string>, now: int)
    requires Valid(s)
    ensures CreateOrder(s, o, now) == CreateOrder(s, o.(status := status), now)
  {
  }

  /** The fields an update may carry; `None` is a key left undefined. */
  datatype OrderPatch = OrderPatch(status: Option<string>, shiprocketOrderId: Option<string>,
                                   shiprocketStatus: Option<string>)

  /** `updateOrderStatus` takes either a bare status string or an object of fields. */
  datatype StatusUpdate = StatusText(text: string) | PatchUpdate(patch: OrderPatch)

  /** A string becomes `{status}`; an object is taken as it is. */
  function Normalize(u: StatusUpdate): (p: OrderPatch)
    ensures u.StatusText? ==> p == OrderPatch(Some(u.text), None, None)
    ensures u.PatchUpdate? ==> p == u.patch
  {
    match u
    case StatusText(t) => OrderPatch(Some(t), None, None)
    case PatchUpdate(p) => p
  }

  /** Merges the defined keys of the patch and stamps `updatedAt`; undefined keys are dropped, so they keep
      their stored values. */
  function ApplyPatch(o: Order, p: OrderPatch, now: int): (r: Order)
    ensures r.status == (if p.status.Some? then p.status else o.status)
    ensures r.ship.shiprocketOrderId == (if p.shiprocketOrderId.Some? then p.shiprocketOrderId else o.ship.shiprocketOrderId)
    ensures r.ship.shiprocketStatus == (if p.shiprocketStatus.Some? then p.shiprocketStatus else o.ship.shiprocketStatus)
    ensures r.updatedAt == Some(now)
    ensures r == o.(status := r.status, updatedAt := r.updatedAt,
                    ship := o.ship.(shiprocketOrderId := r.ship.shiprocketOrderId,
                                    shiprocketStatus := r.ship.shiprocketStatus))
  {
    var sh := o.ship;
    var sh1 := if p.shiprocketOrderId.Some? then sh.(shiprocketOrderId := p.shiprocketOrderId) else sh;
    var sh2 := if p.shiprocketStatus.Some? then sh1.(shiprocketStatus := p.shiprocketStatus) else sh1;
    o.(status := if p.status.Some? then p.status else o.status, ship := sh2, updatedAt := Some(now))
  }

  /** `updateOrderStatus(orderId, updateData)`: fails when the document does not exist. */
  function UpdateOrderStatus(s: Store, id: DocId, u: StatusUpdate, now: int): (r: Result<Store>)
    ensures r.Ok? <==> Lookup(s, id).Some?
    ensures r.Ok? ==> Lookup(r.value, id) == Some(ApplyPatch(Lookup(s, id).value, Normalize(u), now))
    ensures r.Ok? ==> forall other :: other != id ==> Lookup(r.value, other) == Lookup(s, other)
    ensures r.Ok? ==> Ids(r.value.docs) == Ids(s.docs)
    ensures r.Ok? && Valid(s) ==> Valid(r.value)
  {
    var p := Normalize(u);
    var r := UpdateDoc(s, id, (o: Order) => ApplyPatch(o, p, now));
    if r.Ok? then
      PutLookup(s, id, ApplyPatch(Lookup(s, id).value, p, now), id);
      assert forall other :: other != id ==> Lookup(r.value, other) == Lookup(s, other) by {
        forall other | other != id ensures Lookup(r.value, other) == Lookup(s, other) {
          PutLookup(s, id, ApplyPatch(Lookup(s, id).value, p, now), other);
        }
      }
      assert Valid(s) ==> Valid(r.value) by {
        if Valid(s) {
          PutKeepsValid(s, id, ApplyPatch(Lookup(s, id).value, p, now));
        }
      }
      r
    else r
  }

  /** A bare status string is the same update as an object holding only that status. */
  lemma StatusTextIsStatusPatch(s: Store, id: DocId, t: string, now: int)
    ensures UpdateOrderStatus(s, id, StatusText(t), now) == UpdateOrderStatus(s, id, PatchUpdate(OrderPatch(Some(t), None, None)), now)
  {
  }

  /** Applying the same update twice is the same as applying it once at the later time. */
  lemma ApplyPatchIdempotent(o: Order, p: OrderPatch, now: int, later: int)
    ensures ApplyPatch(ApplyPatch(o, p, now), p, later) == ApplyPatch(o, p, later)
  {
  }

  // ---------------------------------------------------------------------------
  // getUserOrders

  /** The four queries: `userId`, `customerInfo.email`, `customerEmail` or `loggedInUserEmail` equals the user. */
  predicate OwnedBy(o: Order, user: string) {
    || o.userId == Some(user)
    || (o.customerInfo.Some? && o.customerInfo.value.email == Some(user))
    || o.contact.customerEmail == Some(user)
    || o.contact.loggedInUserEmail == Some(user)
  }

  /** Two documents with the same id are the same document. */
  ghost predicate Coherent(docs: seq<Doc>) {
    forall a, b :: a in docs && b in docs && a.id == b.id ==> a == b
  }

  /** Documents taken from a valid store are coherent. */
  lemma CoherentWithin(xs: seq<Doc>, s: Store)
    requires Valid(s)
    requires forall d :: d in xs ==> d in s.docs
    ensures Coherent(xs)
  {
    forall a, b | a in xs && b in xs && a.id == b.id ensures a == b {
      var i :| 0 <= i < |s.docs| && s.docs[i] == a;
      var j :| 0 <= j < |s.docs| && s.docs[j] == b;
      assert i == j;
    }
  }

  function IdSet(docs: seq<Doc>): set<DocId> {
    set d | d in docs :: d.id
  }

  /** Inserting each document of `more` into the id-keyed map `acc`: a new id goes at the end, a known id keeps
      its place. */
  function MergeById(acc: seq<Doc>, more: seq<Doc>): (r: seq<Doc>)
    requires Coherent(acc + more) && DistinctIds(acc)
    ensures DistinctIds(r)
    ensures forall d :: d in r <==> d in acc || d in more
    ensures |acc| <= |r| && r[..|acc|] == acc
    decreases |more|
  {
    if |more| == 0 then acc
    else
      var m := more[0];
      assert more == [m] + more[1..];
      if m.id in IdSet(acc) then
        var a :| a in acc && a.id == m.id;
        assert a in acc + more && m in acc + more;
        assert Coherent(acc + more[1..]);
        MergeById(acc, more[1..])
      else
        var acc1 := acc + [m];
        assert forall d :: d in acc1 + more[1..] ==> d in acc + more;
        assert DistinctIds(acc1) by {
          forall i, j | 0 <= i < j < |acc1| ensures acc1[i].id != acc1[j].id {
            if j == |acc| {
              assert acc1[i] in acc;
            }
          }
        }
        var r := MergeById(acc1, more[1..]);
        assert r[..|acc|] == r[..|acc1|][..|acc|];
        r
  }

  /** `createdAt || timestamp`. */
  function DateOf(o: Order): Option<int> {
    if o.createdAt.Some? then o.createdAt else o.timestamp
  }

  /** Newest first; an order without either date goes after every dated one. */
  predicate NewerOrSame(a: Doc, b: Doc) {
    DateOf(b.data).None? || (DateOf(a.data).Some? && DateOf(a.data).value >= DateOf(b.data).value)
  }

  lemma NewerOrSameIsPreorder()
    ensures Sorting.TotalPreorder(NewerOrSame)
  {
  }

  /** Distinct documents of a valid store have distinct ids. */
  lemma DistinctFromStore(xs: seq<Doc>, s: Store)
    requires Valid(s) && Sorting.NoDuplicates(xs)
    requires forall d :: d in xs ==> d in s.docs
    ensures DistinctIds(xs)
  {
    CoherentWithin(xs, s);
  }

  /** `getUserOrders(userId)`: every order any of the four queries finds, once, newest first. */
  function GetUserOrders(s: Store, user: string): (r: seq<Doc>)
    requires Valid(s)
    ensures forall d :: d in r <==> d in s.docs && OwnedBy(d.data, user)
    ensures DistinctIds(r)
    ensures Sorting.SortedBy(r, NewerOrSame)
  {
    var q1 := Select(s.docs, (o: Order) => o.userId == Some(user));
    var q2 := Select(s.docs, (o: Order) => o.customerInfo.Some? && o.customerInfo.value.email == Some(user));
    var q3 := Select(s.docs, (o: Order) => o.contact.customerEmail == Some(user));
    var q4 := Select(s.docs, (o: Order) => o.contact.loggedInUserEmail == Some(user));
    CoherentWithin(q1, s);
    var m1 := MergeById([], q1);
    CoherentWithin(m1 + q2, s);
    var m2 := MergeById(m1, q2);
    CoherentWithin(m2 + q3, s);
    var m3 := MergeById(m2, q3);
    CoherentWithin(m3 + q4, s);
    var merged := MergeById(m3, q4);
    NewerOrSameIsPreorder();
    assert Sorting.NoDuplicates(merged);
    var r := Sorting.Sort(merged, NewerOrSame);
    DistinctFromStore(r, s);
    r
  }
}
