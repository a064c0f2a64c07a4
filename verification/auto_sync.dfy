/** One pass of the auto-sync service (`performSync`): refresh linked orders
    from the provider, assign AWBs to linked orders without one, refresh
    statuses, and import provider orders the store does not know.

    Each of the first three steps reads a snapshot of the matching documents
    and then visits them one by one; a failure on one order is counted and
    the next order is still visited. The provider is a set of oracles that
    answer the same way throughout one pass.
 */
module AutoSync {
  import opened Base
  import opened Orders
  import opened Reconcile
  import Transform
  import opened ShippingClient

  datatype Tally = Tally(ordersCreated: nat, ordersUpdated: nat, awbAssigned: nat, errors: nat)

  const Zero := Tally(0, 0, 0, 0)
  const OneError := Tally(0, 0, 0, 1)
  const OneUpdated := Tally(0, 1, 0, 0)
  const OneAssigned := Tally(0, 0, 1, 0)

  function Plus(a: Tally, b: Tally): Tally {
    Tally(a.ordersCreated + b.ordersCreated, a.ordersUpdated + b.ordersUpdated,
          a.awbAssigned + b.awbAssigned, a.errors + b.errors)
  }

  /** What visiting one order decides: nothing, a counted failure, or an update merged into the stored document. */
  datatype Outcome = Unchanged | Failed | Rewrite(f: Order -> Order, bump: Tally)

  /** The data an outcome leaves behind. */
  function Effect(out: Outcome, o: Order): Order {
    if out.Rewrite? then out.f(o) else o
  }

  /** The counters an outcome adds. */
  function Contribution(out: Outcome): Tally {
    match out
    case Unchanged => Zero
    case Failed => OneError
    case Rewrite(_, bump) => bump
  }

  /** The counters a whole snapshot adds, order by order. */
  function TallyOf(snap: seq<Doc>, decide: Doc -> Outcome): Tally
    decreases |snap|
  {
    if |snap| == 0 then Zero else Plus(Contribution(decide(snap[0])), TallyOf(snap[1..], decide))
  }

  function VisitOne(s: Store, d: Doc, out: Outcome): (r: (Store, Tally))
    ensures r.0.nextId == s.nextId && Ids(r.0.docs) == Ids(s.docs)
    ensures Lookup(s, d.id).Some? ==> r.1 == Contribution(out)
    ensures Lookup(s, d.id).Some? ==> Lookup(r.0, d.id) == Some(Effect(out, Lookup(s, d.id).value))
    ensures forall id :: id != d.id ==> Lookup(r.0, id) == Lookup(s, id)
  {
    match out
    case Unchanged => (s, Zero)
    case Failed => (s, OneError)
    case Rewrite(f, bump) =>
      match UpdateDoc(s, d.id, f)
      case Err(_) => (s, OneError)
      case Ok(s1) =>
        forall id ensures Lookup(s1, id) == if id == d.id then Some(f(Lookup(s, d.id).value)) else Lookup(s, id) {
          PutLookup(s, d.id, f(Lookup(s, d.id).value), id);
        }
        (s1, bump)
  }

  /** Visits the snapshot's documents in order; each failure is counted and the visit goes on. */
  function Visit(s: Store, snap: seq<Doc>, decide: Doc -> Outcome): (r: (Store, Tally))
    ensures r.0.nextId == s.nextId && Ids(r.0.docs) == Ids(s.docs)
    decreases |snap|
  {
    if |snap| == 0 then (s, Zero)
    else
      var first := VisitOne(s, snap[0], decide(snap[0]));
      var rest := Visit(first.0, snap[1..], decide);
      (rest.0, Plus(first.1, rest.1))
  }

  /** Every snapshot document is still stored as it was read. */
  ghost predicate StoredAsRead(s: Store, snap: seq<Doc>) {
    forall k :: 0 <= k < |snap| ==> Lookup(s, snap[k].id) == Some(snap[k].data)
  }

  /** Every snapshot document ends with exactly its own outcome. */
  ghost predicate VisitedAs(r: Store, snap: seq<Doc>, decide: Doc -> Outcome) {
    forall k :: 0 <= k < |snap| ==> Lookup(r, snap[k].id) == Some(Effect(decide(snap[k]), snap[k].data))
  }

  /** Per-order isolation: when every snapshot document is still stored as read, each one ends with
      exactly its own outcome, documents outside the snapshot are untouched, and the counters are the
      sum of the per-order contributions. */
  lemma {:induction false} VisitEffect(s: Store, snap: seq<Doc>, decide: Doc -> Outcome)
    requires DistinctIds(snap) && StoredAsRead(s, snap)
    ensures VisitedAs(Visit(s, snap, decide).0, snap, decide)
    ensures forall id :: id !in Ids(snap) ==> Lookup(Visit(s, snap, decide).0, id) == Lookup(s, id)
    ensures Visit(s, snap, decide).1 == TallyOf(snap, decide)
    decreases |snap|
  {
    if |snap| > 0 {
      var d := snap[0];
      var rest := snap[1..];
      var first := VisitOne(s, d, decide(d));
      assert Lookup(s, d.id) == Some(d.data);
      DistinctTail(snap);
      StoredTail(s, snap, first.0);
      VisitEffect(first.0, rest, decide);
      var r := Visit(s, snap, decide);
      assert r == (Visit(first.0, rest, decide).0, Plus(first.1, Visit(first.0, rest, decide).1));
      assert Lookup(r.0, d.id) == Lookup(first.0, d.id);
      VisitedCons(r.0, snap, decide);
      assert Ids(snap) == [d.id] + Ids(rest);
    }
  }

  /** A snapshot is visited as decided when its head and its tail are. */
  lemma VisitedCons(r: Store, snap: seq<Doc>, decide: Doc -> Outcome)
    requires |snap| > 0 && VisitedAs(r, snap[1..], decide)
    requires Lookup(r, snap[0].id) == Some(Effect(decide(snap[0]), snap[0].data))
    ensures VisitedAs(r, snap, decide)
  {
    forall k | 0 < k < |snap| ensures Lookup(r, snap[k].id) == Some(Effect(decide(snap[k]), snap[k].data)) {
      assert snap[k] == snap[1..][k - 1];
    }
  }

  /** The tail of a snapshot with distinct ids has distinct ids and does not hold the head's id. */
  lemma DistinctTail(snap: seq<Doc>)
    requires DistinctIds(snap) && |snap| > 0
    ensures DistinctIds(snap[1..]) && snap[0].id !in Ids(snap[1..])
  {
    var rest := snap[1..];
    forall k | 0 <= k < |rest| ensures Ids(rest)[k] != snap[0].id {
      assert rest[k] == snap[k + 1];
    }
    forall i, j | 0 <= i < j < |rest| ensures rest[i].id != rest[j].id {
      assert rest[i] == snap[i + 1] && rest[j] == snap[j + 1];
    }
  }

  /** Visiting the head of a snapshot leaves the rest stored as read. */
  lemma StoredTail(s: Store, snap: seq<Doc>, s1: Store)
    requires StoredAsRead(s, snap) && |snap| > 0 && snap[0].id !in Ids(snap[1..])
    requires forall id :: id != snap[0].id ==> Lookup(s1, id) == Lookup(s, id)
    ensures StoredAsRead(s1, snap[1..])
  {
    var rest := snap[1..];
    forall k | 0 <= k < |rest| ensures Lookup(s1, rest[k].id) == Some(rest[k].data) {
      assert rest[k] == snap[k + 1];
      assert Ids(rest)[k] == rest[k].id;
    }
  }

  /** A valid store's snapshot has distinct ids and every document in it is stored as read. */
  lemma SnapshotFacts(s: Store, p: Order -> bool)
    requires Valid(s)
    ensures DistinctIds(Select(s.docs, p))
    ensures StoredAsRead(s, Select(s.docs, p))
  {
    SelectDistinct(s.docs, p);
    var snap := Select(s.docs, p);
    forall k | 0 <= k < |snap| ensures Lookup(s, snap[k].id) == Some(snap[k].data) {
      assert snap[k] in s.docs;
      StoredIsFound(s, snap[k]);
    }
  }

  lemma {:induction false} SelectDistinct(docs: seq<Doc>, p: Order -> bool)
    requires DistinctIds(docs)
    ensures DistinctIds(Select(docs, p))
    decreases |docs|
  {
    if |docs| > 0 {
      var tail := docs[1..];
      assert DistinctIds(tail) by {
        forall i, j | 0 <= i < j < |tail| ensures tail[i].id != tail[j].id {
          assert tail[i] == docs[i + 1] && tail[j] == docs[j + 1];
        }
      }
      SelectDistinct(tail, p);
      var rest := Select(tail, p);
      var head: seq<Doc> := if p(docs[0].data) then [docs[0]] else [];
      assert Select(docs, p) == head + rest;
      forall k | 0 <= k < |rest| ensures rest[k].id != docs[0].id {
        assert rest[k] in tail;
        var i :| 0 <= i < |tail| && tail[i] == rest[k];
        assert tail[i] == docs[i + 1];
      }
    }
  }

  /** Document ids and the id counter are all `Valid` depends on. */
  lemma ValidByIds(s: Store, r: Store)
    requires Valid(s) && r.nextId == s.nextId && Ids(r.docs) == Ids(s.docs)
    ensures Valid(r)
  {
    assert forall i :: 0 <= i < |r.docs| ==> r.docs[i].id == Ids(r.docs)[i] == Ids(s.docs)[i] == s.docs[i].id;
  }

  // ---------------------------------------------------------------------------
  // The three per-order steps

  /** `where('shiprocketOrderId', '!=', null)`. */
  predicate Linked(o: Order) {
    o.ship.shiprocketOrderId.Some?
  }

  /** `where('shiprocketOrderId', '!=', null).where('shiprocketAWB', '==', null)`. */
  predicate AwaitingAwb(o: Order) {
    Linked(o) && o.ship.shiprocketAWB.None?
  }

  /** The reconciled fields of the provider's AWB view. */
  function Seen(v: AwbView): Fields {
    Fields(v.awbCode, v.status, v.courierName, v.trackingUrl, v.shipmentStatus)
  }

  /** Reference for `syncExistingOrders` on one order: what the order looks like after its visit. */
  function Refreshed(o: Order, show: string -> Result<ProviderOrder>, now: int): Order {
    var id := o.ship.shiprocketOrderId;
    if !StrTruthy(id) || show(id.value).Err? then o
    else
      var seen := Seen(ExtractAwb(show(id.value).value));
      if NoChange(Diff(o.ship, seen)) then o else Reconciled(o, seen, now)
  }

  function ExistingOutcome(o: Order, show: string -> Result<ProviderOrder>, now: int): (out: Outcome)
    ensures Effect(out, o) == Refreshed(o, show, now)
    ensures out.Failed? <==> StrTruthy(o.ship.shiprocketOrderId) && show(o.ship.shiprocketOrderId.value).Err?
    ensures out.Rewrite? ==> out.bump == OneUpdated
    ensures out.Rewrite? <==> Refreshed(o, show, now) != o
  {
    var id := o.ship.shiprocketOrderId;
    if !StrTruthy(id) then Unchanged
    else
      match GetOrderWithAwb(id.value, show)
      case Err(_) => Failed
      case Ok(v) =>
        var p := Diff(o.ship, Seen(v));
        if NoChange(p) then Unchanged
        else
          DiffChangesOrder(o, Seen(v), now);
          Rewrite((x: Order) => ApplyFields(x, p, now), OneUpdated)
  }

  /** A non-empty diff always changes the order it is written to. */
  lemma DiffChangesOrder(o: Order, seen: Fields, now: int)
    requires !NoChange(Diff(o.ship, seen))
    ensures Reconciled(o, seen, now) != o
  {
  }

  function AssignOutcome(o: Order, env: Transform.Env, couriers: ServiceQuery -> Result<seq<Courier>>,
                         assign: (string, Option<int>) -> Result<AssignReply>, now: int): (out: Outcome)
    ensures !StrTruthy(o.ship.shiprocketOrderId) || !StrTruthy(DestinationPincode(o)) ==> out.Unchanged?
    ensures out.Rewrite? ==>
              && var a := AutoAssignAwb(o.ship.shiprocketOrderId.value, DestinationPincode(o), Some(0.5), env,
                                        couriers, assign);
                 a.Ok?
                 && out.bump == OneAssigned
                 && var w := Effect(out, o);
                    && w.ship.shiprocketAWB == Some(a.value.awbCode) && w.ship.awbCode == Some(a.value.awbCode)
                    && w.ship.courierName == a.value.courierName
                    && w.ship.shiprocketStatus == Some("AWB_ASSIGNED")
                    && w == o.(ship := w.ship, updatedAt := Some(now))
                    && w.ship.shiprocketOrderId == o.ship.shiprocketOrderId
    ensures StrTruthy(o.ship.shiprocketOrderId) && StrTruthy(DestinationPincode(o)) ==>
              (out.Rewrite? <==> AutoAssignAwb(o.ship.shiprocketOrderId.value, DestinationPincode(o), Some(0.5),
                                                env, couriers, assign).Ok?)
              && (out.Failed? <==> AutoAssignAwb(o.ship.shiprocketOrderId.value, DestinationPincode(o), Some(0.5),
                                                 env, couriers, assign).Err?)
  {
    var id := o.ship.shiprocketOrderId;
    var pin := DestinationPincode(o);
    if !(StrTruthy(id) && StrTruthy(pin)) then Unchanged
    else
      match AutoAssignAwb(id.value, pin, Some(0.5), env, couriers, assign)
      case Err(_) => Failed
      case Ok(a) =>
        Rewrite((x: Order) => x.(ship := x.ship.(shiprocketAWB := Some(a.awbCode), awbCode := Some(a.awbCode),
                                        courierName := a.courierName, shiprocketStatus := Some("AWB_ASSIGNED"),
                                        shiprocketLastUpdated := Some(now)),
                        updatedAt := Some(now)),
                OneAssigned)
  }

  function StatusOutcome(o: Order, show: string -> Result<ProviderOrder>, now: int): (out: Outcome)
    ensures out.Failed? <==> StrTruthy(o.ship.shiprocketOrderId) && show(o.ship.shiprocketOrderId.value).Err?
    ensures out.Rewrite? <==>
              && StrTruthy(o.ship.shiprocketOrderId)
              && show(o.ship.shiprocketOrderId.value).Ok?
              && var st := show(o.ship.shiprocketOrderId.value).value.status;
                 StrTruthy(st) && st != o.ship.shiprocketStatus
    ensures out.Rewrite? ==>
              && out.bump == Zero
              && var w := Effect(out, o);
                 && w.ship == o.ship.(shiprocketStatus := show(o.ship.shiprocketOrderId.value).value.status,
                                      shiprocketLastUpdated := Some(now))
                 && w == o.(ship := w.ship, updatedAt := Some(now))
  {
    var id := o.ship.shiprocketOrderId;
    if !StrTruthy(id) then Unchanged
    else
      match show(id.value)
      case Err(_) => Failed
      case Ok(p) =>
        if StrTruthy(p.status) && p.status != o.ship.shiprocketStatus then
          Rewrite((x: Order) => x.(ship := x.ship.(shiprocketStatus := p.status, shiprocketLastUpdated := Some(now)),
                          updatedAt := Some(now)),
                  Zero)
        else Unchanged
  }

  /** `syncExistingOrders`. */
  function SyncExisting(s: Store, show: string -> Result<ProviderOrder>, now: int): (r: (Store, Tally))
    requires Valid(s)
    ensures Valid(r.0) && r.0.nextId == s.nextId && Ids(r.0.docs) == Ids(s.docs)
    ensures forall d :: d in s.docs && Linked(d.data) ==> Lookup(r.0, d.id) == Some(Refreshed(d.data, show, now))
    ensures forall d :: d in s.docs && !Linked(d.data) ==> Lookup(r.0, d.id) == Some(d.data)
    ensures r.1 == TallyOf(Select(s.docs, Linked), (d: Doc) => ExistingOutcome(d.data, show, now))
    ensures r.1.ordersCreated == 0 && r.1.ordersUpdated + r.1.awbAssigned + r.1.errors <= |Select(s.docs, Linked)|
  {
    var decide := (d: Doc) => ExistingOutcome(d.data, show, now);
    var snap := Select(s.docs, Linked);
    SnapshotFacts(s, Linked);
    VisitEffect(s, snap, decide);
    var r := Visit(s, snap, decide);
    ValidByIds(s, r.0);
    SnapshotCoverage(s, Linked, r.0, decide);
    TallyBounded(snap, decide);
    r
  }

  /** Turns the per-position facts of `VisitEffect` into facts about every stored document. */
  lemma SnapshotCoverage(s: Store, p: Order -> bool, r: Store, decide: Doc -> Outcome)
    requires Valid(s)
    requires VisitedAs(r, Select(s.docs, p), decide)
    requires forall id :: id !in Ids(Select(s.docs, p)) ==> Lookup(r, id) == Lookup(s, id)
    ensures forall d :: d in s.docs && p(d.data) ==> Lookup(r, d.id) == Some(Effect(decide(d), d.data))
    ensures forall d :: d in s.docs && !p(d.data) ==> Lookup(r, d.id) == Some(d.data)
  {
    forall d | d in s.docs && p(d.data) ensures Lookup(r, d.id) == Some(Effect(decide(d), d.data)) {
      Selected(Select(s.docs, p), r, decide, d);
    }
    forall d | d in s.docs && !p(d.data) ensures Lookup(r, d.id) == Some(d.data) {
      NotSelected(s, p, d);
      StoredIsFound(s, d);
    }
  }

  lemma Selected(snap: seq<Doc>, r: Store, decide: Doc -> Outcome, d: Doc)
    requires VisitedAs(r, snap, decide)
    requires d in snap
    ensures Lookup(r, d.id) == Some(Effect(decide(d), d.data))
  {
    var k :| 0 <= k < |snap| && snap[k] == d;
  }

  /** A document the query does not select has an id outside the snapshot. */
  lemma NotSelected(s: Store, p: Order -> bool, d: Doc)
    requires Valid(s)
    requires d in s.docs && !p(d.data)
    ensures d.id !in Ids(Select(s.docs, p))
  {
    var snap := Select(s.docs, p);
    var i :| 0 <= i < |s.docs| && s.docs[i] == d;
    forall k | 0 <= k < |snap| ensures Ids(snap)[k] != d.id {
      assert snap[k] in s.docs;
      var j :| 0 <= j < |s.docs| && s.docs[j] == snap[k];
      assert j != i;
    }
  }

  /** A stored document is what a lookup of its id finds. */
  lemma StoredIsFound(s: Store, d: Doc)
    requires Valid(s) && d in s.docs
    ensures Lookup(s, d.id) == Some(d.data)
  {
    var i :| 0 <= i < |s.docs| && s.docs[i] == d;
    assert forall j :: 0 <= j < i ==> s.docs[j].id != s.docs[i].id;
  }

  /** `autoAssignMissingAWB`; the courier weight is always 0.5 kg. */
  function AutoAssignMissing(s: Store, env: Transform.Env, couriers: ServiceQuery -> Result<seq<Courier>>,
                             assign: (string, Option<int>) -> Result<AssignReply>, now: int): (r: (Store, Tally))
    requires Valid(s)
    ensures Valid(r.0) && r.0.nextId == s.nextId && Ids(r.0.docs) == Ids(s.docs)
    ensures forall d :: d in s.docs && AwaitingAwb(d.data) ==>
              Lookup(r.0, d.id) == Some(Effect(AssignOutcome(d.data, env, couriers, assign, now), d.data))
    ensures forall d :: d in s.docs && !AwaitingAwb(d.data) ==> Lookup(r.0, d.id) == Some(d.data)
    ensures r.1 == TallyOf(Select(s.docs, AwaitingAwb), (d: Doc) => AssignOutcome(d.data, env, couriers, assign, now))
    ensures r.1.ordersCreated == 0
    ensures r.1.ordersUpdated + r.1.awbAssigned + r.1.errors <= |Select(s.docs, AwaitingAwb)|
  {
    var decide := (d: Doc) => AssignOutcome(d.data, env, couriers, assign, now);
    var snap := Select(s.docs, AwaitingAwb);
    SnapshotFacts(s, AwaitingAwb);
    VisitEffect(s, snap, decide);
    var r := Visit(s, snap, decide);
    ValidByIds(s, r.0);
    SnapshotCoverage(s, AwaitingAwb, r.0, decide);
    TallyBounded(snap, decide);
    r
  }

  /** `updateOrderStatuses`; a status change is written but not counted. */
  function UpdateStatuses(s: Store, show: string -> Result<ProviderOrder>, now: int): (r: (Store, Tally))
    requires Valid(s)
    ensures Valid(r.0) && r.0.nextId == s.nextId && Ids(r.0.docs) == Ids(s.docs)
    ensures forall d :: d in s.docs && Linked(d.data) ==>
              Lookup(r.0, d.id) == Some(Effect(StatusOutcome(d.data, show, now), d.data))
    ensures forall d :: d in s.docs && !Linked(d.data) ==> Lookup(r.0, d.id) == Some(d.data)
    ensures r.1 == TallyOf(Select(s.docs, Linked), (d: Doc) => StatusOutcome(d.data, show, now))
    ensures r.1.ordersCreated == 0 && r.1.ordersUpdated + r.1.awbAssigned + r.1.errors <= |Select(s.docs, Linked)|
  {
    var decide := (d: Doc) => StatusOutcome(d.data, show, now);
    var snap := Select(s.docs, Linked);
    SnapshotFacts(s, Linked);
    VisitEffect(s, snap, decide);
    var r := Visit(s, snap, decide);
    ValidByIds(s, r.0);
    SnapshotCoverage(s, Linked, r.0, decide);
    TallyBounded(snap, decide);
    r
  }

  /** The counters of a visit count each visited order at most once. */
  lemma {:induction false} TallyBounded(snap: seq<Doc>, decide: Doc -> Outcome)
    requires forall k :: 0 <= k < |snap| ==> decide(snap[k]).Rewrite? ==>
               var b := decide(snap[k]).bump;
               b.ordersCreated == 0 && b.errors == 0 && b.ordersUpdated + b.awbAssigned <= 1
    ensures var t := TallyOf(snap, decide);
            t.ordersCreated == 0 && t.ordersUpdated + t.awbAssigned + t.errors <= |snap|
    decreases |snap|
  {
    if |snap| > 0 {
      var rest := snap[1..];
      assert forall k :: 0 <= k < |rest| ==> rest[k] == snap[k + 1];
      TallyBounded(rest, decide);
    }
  }

  // ---------------------------------------------------------------------------
  // syncNewOrders

  /** `String(order.id || order.order_id)`; `None` is the case where the conversion throws. */
  function ProviderKey(p: ProviderOrder): Option<string> {
    StrOr(p.id, p.orderId)
  }

  /** Every listed order has an `id` or an `order_id`. */
  predicate AllKeyed(orders: seq<ProviderOrder>) {
    forall k :: 0 <= k < |orders| ==> ProviderKey(orders[k]).Some?
  }

  /** The truthy `shiprocketOrderId`s of the stored orders. */
  function LocalIds(docs: seq<Doc>): (r: set<string>)
    ensures forall x :: x in r <==> exists d :: d in docs && StrTruthy(d.data.ship.shiprocketOrderId)
                                                && d.data.ship.shiprocketOrderId.value == x
  {
    set d | d in docs && StrTruthy(d.data.ship.shiprocketOrderId) :: d.data.ship.shiprocketOrderId.value
  }

  /** The provider orders whose key is not known locally, in list order. */
  function FreshOrders(orders: seq<ProviderOrder>, known: set<string>): (r: seq<ProviderOrder>)
    requires AllKeyed(orders)
    ensures forall p :: p in r <==> p in orders && ProviderKey(p).value !in known
    ensures |r| <= |orders|
  {
    if |orders| == 0 then []
    else
      var rest := FreshOrders(orders[1..], known);
      (if ProviderKey(orders[0]).value in known then [] else [orders[0]]) + rest
  }

  /** The record `syncNewOrders` stores for a provider order. */
  function ImportedRecord(p: ProviderOrder, now: int): (o: Order)
    ensures o.source == Some("shiprocket_sync") && o.ship.shiprocketCreated == Some(true)
    ensures o.ship.shiprocketOrderId == ProviderKey(p)
    ensures o.orderId == StrOr(p.orderId, p.channelOrderId)
    ensures o.ship.shiprocketStatus == Some(if StrTruthy(p.status) then p.status.value else "NEW")
    ensures o.ship.shiprocketAWB == StrOrNull(p.awbCode) == o.ship.awbCode
    ensures o.ship.courierName == StrOrNull(p.courierName) && o.ship.trackingUrl == StrOrNull(p.trackingUrl)
    ensures o.createdAt == o.updatedAt == o.ship.shiprocketLastUpdated == Some(now)
  {
    EmptyOrder.(
      orderId := StrOr(p.orderId, p.channelOrderId),
      source := Some("shiprocket_sync"),
      createdAt := Some(now),
      updatedAt := Some(now),
      ship := NoShipping.(
        shiprocketOrderId := ProviderKey(p),
        shiprocketStatus := Some(StrOrDefault(p.status, "NEW")),
        shiprocketAWB := StrOrNull(p.awbCode),
        awbCode := StrOrNull(p.awbCode),
        courierName := StrOrNull(p.courierName),
        trackingUrl := StrOrNull(p.trackingUrl),
        shiprocketCreated := Some(true),
        shiprocketLastUpdated := Some(now)))
  }

  /** The imported records of a list of provider orders. */
  function Imported(orders: seq<ProviderOrder>, now: int): (r: seq<Order>)
    ensures |r| == |orders|
    ensures forall k :: 0 <= k < |orders| ==> r[k] == ImportedRecord(orders[k], now)
  {
    seq(|orders|, k requires 0 <= k < |orders| => ImportedRecord(orders[k], now))
  }

  /** Adds one document per record, in order, each under the next id of the counter. */
  function AddAll(s: Store, records: seq<Order>): (r: Store)
    requires Valid(s)
    ensures Valid(r)
    ensures |r.docs| == |s.docs| + |records| && r.docs[..|s.docs|] == s.docs
    ensures forall k :: 0 <= k < |records| ==> r.docs[|s.docs| + k] == Doc(s.nextId + k, records[k])
  {
    var added := seq(|records|, k requires 0 <= k < |records| => Doc(s.nextId + k, records[k]));
    var r := Store(s.docs + added, s.nextId + |records|);
    assert r.docs[..|s.docs|] == s.docs;
    assert forall i :: |s.docs| <= i < |r.docs| ==> r.docs[i].id == s.nextId + (i - |s.docs|);
    r
  }

  /** `syncNewOrders`: imports the first listing page's orders that are not linked locally. A listing failure,
      or an order with neither `id` nor `order_id`, fails the whole step before anything is added. */
  function SyncNewOrders(s: Store, page: Page, now: int): (r: (Store, Tally))
    requires Valid(s)
    ensures Valid(r.0)
    ensures page.PageFailed? ==> r == (s, OneError)
    ensures page.Page? && !AllKeyed(page.orders) ==> r == (s, OneError)
    ensures |r.0.docs| == |s.docs| + r.1.ordersCreated && r.0.docs[..|s.docs|] == s.docs
    ensures page.Page? && AllKeyed(page.orders) ==>
              (var unseen := FreshOrders(page.orders, LocalIds(s.docs));
               && r.1 == Zero.(ordersCreated := |unseen|)
               && forall k :: 0 <= k < |unseen| ==> r.0.docs[|s.docs| + k] == Doc(s.nextId + k, ImportedRecord(unseen[k], now)))
  {
    assert s.docs[..|s.docs|] == s.docs;
    if page.PageFailed? then (s, OneError)
    else if !AllKeyed(page.orders) then (s, OneError)
    else
      var unseen := FreshOrders(page.orders, LocalIds(s.docs));
      (AddAll(s, Imported(unseen, now)), Zero.(ordersCreated := |unseen|))
  }

  /** After an import, every listed order with a truthy key is linked locally. */
  lemma ImportLinksAll(s: Store, page: Page, now: int)
    requires Valid(s) && page.Page?
    requires forall k :: 0 <= k < |page.orders| ==>
               ProviderKey(page.orders[k]).Some? && ProviderKey(page.orders[k]).value != ""
    ensures forall k :: 0 <= k < |page.orders| ==>
              ProviderKey(page.orders[k]).value in LocalIds(SyncNewOrders(s, page, now).0.docs)
  {
    var known := LocalIds(s.docs);
    var s1 := SyncNewOrders(s, page, now).0;
    forall k | 0 <= k < |page.orders| ensures ProviderKey(page.orders[k]).value in LocalIds(s1.docs) {
      var p := page.orders[k];
      if ProviderKey(p).value in known {
        KnownStaysLinked(s.docs, s1.docs, ProviderKey(p).value);
      } else {
        var unseen := FreshOrders(page.orders, known);
        assert p in unseen;
        var j :| 0 <= j < |unseen| && unseen[j] == p;
        UnseenGetsLinked(s, page, now, j);
      }
    }
  }

  /** Appending documents keeps every local link. */
  lemma KnownStaysLinked(docs: seq<Doc>, docs1: seq<Doc>, x: string)
    requires |docs| <= |docs1| && docs1[..|docs|] == docs
    requires x in LocalIds(docs)
    ensures x in LocalIds(docs1)
  {
    var d :| d in docs && StrTruthy(d.data.ship.shiprocketOrderId) && d.data.ship.shiprocketOrderId.value == x;
    var i :| 0 <= i < |docs| && docs[i] == d;
    assert docs1[..|docs|][i] == d;
    InLocalIds(docs1, i);
  }

  /** The `j`-th imported order is linked under its own key. */
  lemma UnseenGetsLinked(s: Store, page: Page, now: int, j: nat)
    requires Valid(s) && page.Page? && AllKeyed(page.orders)
    requires j < |FreshOrders(page.orders, LocalIds(s.docs))|
    requires ProviderKey(FreshOrders(page.orders, LocalIds(s.docs))[j]).value != ""
    ensures ProviderKey(FreshOrders(page.orders, LocalIds(s.docs))[j]).value in LocalIds(SyncNewOrders(s, page, now).0.docs)
  {
    var docs1 := SyncNewOrders(s, page, now).0.docs;
    ImportedAt(s, page, now, j);
    InLocalIds(docs1, |s.docs| + j);
  }

  lemma ImportedAt(s: Store, page: Page, now: int, j: nat)
    requires Valid(s) && page.Page? && AllKeyed(page.orders)
    requires j < |FreshOrders(page.orders, LocalIds(s.docs))|
    ensures |s.docs| + j < |SyncNewOrders(s, page, now).0.docs|
    ensures SyncNewOrders(s, page, now).0.docs[|s.docs| + j].data.ship.shiprocketOrderId
            == ProviderKey(FreshOrders(page.orders, LocalIds(s.docs))[j])
  {
  }

  lemma InLocalIds(docs: seq<Doc>, i: nat)
    requires i < |docs| && StrTruthy(docs[i].data.ship.shiprocketOrderId)
    ensures docs[i].data.ship.shiprocketOrderId.value in LocalIds(docs)
  {
    assert docs[i] in docs;
  }

  lemma {:induction false} NoneUnseen(orders: seq<ProviderOrder>, known: set<string>)
    requires AllKeyed(orders)
    requires forall k :: 0 <= k < |orders| ==> ProviderKey(orders[k]).value in known
    ensures FreshOrders(orders, known) == []
    decreases |orders|
  {
    if |orders| > 0 {
      NoneUnseen(orders[1..], known);
    }
  }

  /** Importing a page whose keys are all linked locally adds nothing. */
  lemma NothingToImport(s: Store, page: Page, now: int)
    requires Valid(s) && page.Page? && AllKeyed(page.orders)
    requires forall k :: 0 <= k < |page.orders| ==> ProviderKey(page.orders[k]).value in LocalIds(s.docs)
    ensures SyncNewOrders(s, page, now) == (s, Zero)
  {
    NoneUnseen(page.orders, LocalIds(s.docs));
    var r := SyncNewOrders(s, page, now);
    assert r.0.docs == r.0.docs[..|s.docs|];
  }

  /** Importing the same page twice adds its unseen orders once. */
  lemma SyncNewOrdersIdempotent(s: Store, page: Page, now: int)
    requires Valid(s) && page.Page?
    requires forall k :: 0 <= k < |page.orders| ==>
               ProviderKey(page.orders[k]).Some? && ProviderKey(page.orders[k]).value != ""
    ensures var s1 := SyncNewOrders(s, page, now).0;
            SyncNewOrders(s1, page, now) == (s1, Zero)
  {
    ImportLinksAll(s, page, now);
    NothingToImport(SyncNewOrders(s, page, now).0, page, now);
  }

  // ---------------------------------------------------------------------------
  // performSync

  /** The provider as one sync pass sees it. */
  datatype Provider = Provider(
    show: string -> Result<ProviderOrder>,
    couriers: ServiceQuery -> Result<seq<Courier>>,
    assign: (string, Option<int>) -> Result<AssignReply>,
    list: nat -> Page,
    env: Transform.Env)

  /** `performSync`: the four steps in order, adding up their counters. Only the import step adds documents:
      the listed orders that were not linked before the pass, appended in list order. The others keep every
      document's id and position. */
  function PerformSync(s: Store, p: Provider, now: int): (r: (Store, Tally))
    requires Valid(s)
    ensures Valid(r.0)
    ensures |r.0.docs| == |s.docs| + r.1.ordersCreated
    ensures forall i :: 0 <= i < |s.docs| ==> r.0.docs[i].id == s.docs[i].id
  {
    var r3 := RefreshPass(s, p, now);
    var r4 := SyncNewOrders(r3.0, p.list(1), now);
    SameIdsPositions(s.docs, r3.0.docs);
    (r4.0, Plus(r3.1, r4.1))
  }

  /** The first three steps of `performSync`: they rewrite stored orders but never add one, and never
      change which provider order a stored order is linked to. */
  function RefreshPass(s: Store, p: Provider, now: int): (r: (Store, Tally))
    requires Valid(s)
    ensures Valid(r.0) && Ids(r.0.docs) == Ids(s.docs)
    ensures LinksKept(s.docs, r.0.docs)
    ensures r.1.ordersCreated == 0
  {
    var r1 := SyncExisting(s, p.show, now);
    var r2 := AutoAssignMissing(r1.0, p.env, p.couriers, p.assign, now);
    var r3 := UpdateStatuses(r2.0, p.show, now);
    ExistingKeepsLinks(s, p.show, now);
    AssignKeepsLinks(r1.0, p.env, p.couriers, p.assign, now);
    StatusKeepsLinks(r2.0, p.show, now);
    (r3.0, Plus(Plus(r1.1, r2.1), r3.1))
  }

  /** Position by position, the two document lists are linked to the same provider orders. */
  predicate LinksKept(a: seq<Doc>, b: seq<Doc>) {
    |a| == |b| && forall i :: 0 <= i < |a| ==> b[i].data.ship.shiprocketOrderId == a[i].data.ship.shiprocketOrderId
  }

  /** A step that keeps the ids and, under each id, the link, keeps the links position by position. */
  lemma LinksKeptByLookup(s: Store, r: Store)
    requires Valid(s) && Valid(r) && Ids(r.docs) == Ids(s.docs)
    requires forall d :: d in s.docs ==>
               Lookup(r, d.id).Some? && Lookup(r, d.id).value.ship.shiprocketOrderId == d.data.ship.shiprocketOrderId
    ensures LinksKept(s.docs, r.docs)
  {
    SameIdsPositions(s.docs, r.docs);
    forall i | 0 <= i < |s.docs|
      ensures r.docs[i].data.ship.shiprocketOrderId == s.docs[i].data.ship.shiprocketOrderId
    {
      assert s.docs[i] in s.docs;
      assert r.docs[i] in r.docs;
      StoredIsFound(r, r.docs[i]);
    }
  }

  lemma ExistingKeepsLinks(s: Store, show: string -> Result<ProviderOrder>, now: int)
    requires Valid(s)
    ensures LinksKept(s.docs, SyncExisting(s, show, now).0.docs)
  {
    var r := SyncExisting(s, show, now).0;
    forall d | d in s.docs
      ensures Lookup(r, d.id).Some? && Lookup(r, d.id).value.ship.shiprocketOrderId == d.data.ship.shiprocketOrderId
    {
      if Linked(d.data) {
        assert Lookup(r, d.id) == Some(Refreshed(d.data, show, now));
      }
    }
    LinksKeptByLookup(s, r);
  }

  lemma AssignKeepsLinks(s: Store, env: Transform.Env, couriers: ServiceQuery -> Result<seq<Courier>>,
                         assign: (string, Option<int>) -> Result<AssignReply>, now: int)
    requires Valid(s)
    ensures LinksKept(s.docs, AutoAssignMissing(s, env, couriers, assign, now).0.docs)
  {
    var r := AutoAssignMissing(s, env, couriers, assign, now).0;
    forall d | d in s.docs
      ensures Lookup(r, d.id).Some? && Lookup(r, d.id).value.ship.shiprocketOrderId == d.data.ship.shiprocketOrderId
    {
      if AwaitingAwb(d.data) {
        var out := AssignOutcome(d.data, env, couriers, assign, now);
        assert Lookup(r, d.id) == Some(Effect(out, d.data));
      }
    }
    LinksKeptByLookup(s, r);
  }

  lemma StatusKeepsLinks(s: Store, show: string -> Result<ProviderOrder>, now: int)
    requires Valid(s)
    ensures LinksKept(s.docs, UpdateStatuses(s, show, now).0.docs)
  {
    var r := UpdateStatuses(s, show, now).0;
    forall d | d in s.docs
      ensures Lookup(r, d.id).Some? && Lookup(r, d.id).value.ship.shiprocketOrderId == d.data.ship.shiprocketOrderId
    {
      if Linked(d.data) {
        var out := StatusOutcome(d.data, show, now);
        assert Lookup(r, d.id) == Some(Effect(out, d.data));
      }
    }
    LinksKeptByLookup(s, r);
  }

  /** Stores linked to the same provider orders know the same provider ids. */
  lemma LinksKeptLocalIds(a: seq<Doc>, b: seq<Doc>)
    requires LinksKept(a, b)
    ensures LocalIds(a) == LocalIds(b)
  {
    forall x | x in LocalIds(a) ensures x in LocalIds(b) {
      var d :| d in a && StrTruthy(d.data.ship.shiprocketOrderId) && d.data.ship.shiprocketOrderId.value == x;
      var i :| 0 <= i < |a| && a[i] == d;
      InLocalIds(b, i);
    }
    forall x | x in LocalIds(b) ensures x in LocalIds(a) {
      var d :| d in b && StrTruthy(d.data.ship.shiprocketOrderId) && d.data.ship.shiprocketOrderId.value == x;
      var i :| 0 <= i < |b| && b[i] == d;
      InLocalIds(a, i);
    }
  }

  /** The import step of a pass, stated for the links and the length known before the pass. */
  /** A sync pass imports exactly the listed orders that were not linked before the pass. */
  lemma PerformSyncImportsFresh(s: Store, p: Provider, now: int)
    requires Valid(s) && p.list(1).Page? && AllKeyed(p.list(1).orders)
    ensures PerformSync(s, p, now).1.ordersCreated == |FreshOrders(p.list(1).orders, LocalIds(s.docs))|
  {
    var r3 := RefreshPass(s, p, now);
    LinksKeptLocalIds(s.docs, r3.0.docs);
  }

  /** The imported orders are appended in list order, as `ImportedRecord` builds them. */
  lemma PerformSyncAppendsFresh(s: Store, p: Provider, now: int, k: nat)
    requires Valid(s) && p.list(1).Page? && AllKeyed(p.list(1).orders)
    requires k < |FreshOrders(p.list(1).orders, LocalIds(s.docs))|
    ensures |s.docs| + k < |PerformSync(s, p, now).0.docs|
    ensures PerformSync(s, p, now).0.docs[|s.docs| + k].data
            == ImportedRecord(FreshOrders(p.list(1).orders, LocalIds(s.docs))[k], now)
  {
    PerformSyncImportsFresh(s, p, now);
    var r3 := RefreshPass(s, p, now);
    LinksKeptLocalIds(s.docs, r3.0.docs);
  }

  /** A failed listing, or one with an order lacking both ids, imports nothing. */
  lemma PerformSyncBadListing(s: Store, p: Provider, now: int)
    requires Valid(s) && !(p.list(1).Page? && AllKeyed(p.list(1).orders))
    ensures PerformSync(s, p, now).1.ordersCreated == 0
    ensures PerformSync(s, p, now).0.docs == RefreshPass(s, p, now).0.docs
  {
  }

  /** A second pass against the same provider listing creates nothing: every order the first pass saw is
      linked by then, and the refresh steps of the second pass keep those links. */
  lemma SecondPassCreatesNothing(s: Store, p: Provider, now: int, later: int)
    requires Valid(s) && p.list(1).Page?
    requires forall k :: 0 <= k < |p.list(1).orders| ==>
               ProviderKey(p.list(1).orders[k]).Some? && ProviderKey(p.list(1).orders[k]).value != ""
    ensures var r := PerformSync(s, p, now).0;
            var again := PerformSync(r, p, later);
            again.1.ordersCreated == 0 && |again.0.docs| == |r.docs|
  {
    var page := p.list(1);
    var r3 := RefreshPass(s, p, now);
    ImportLinksAll(r3.0, page, now);
    var r := PerformSync(s, p, now).0;
    assert r == SyncNewOrders(r3.0, page, now).0;
    var q3 := RefreshPass(r, p, later);
    LinksKeptLocalIds(r.docs, q3.0.docs);
    NothingToImport(q3.0, page, later);
  }

  /** Equal id lists mean equal ids at every position. */
  lemma SameIdsPositions(a: seq<Doc>, b: seq<Doc>)
    requires Ids(a) == Ids(b)
    ensures |a| == |b| && forall i :: 0 <= i < |a| ==> a[i].id == b[i].id
  {
    assert forall i :: 0 <= i < |a| ==> a[i].id == Ids(a)[i] == Ids(b)[i] == b[i].id;
  }
}
