/** The "write only what changed" rule shared by the periodic sync and the
    order-updated webhook.

    The provider's view of an order is reduced to five shipping fields. A
    field is written when the provider's value is truthy and differs from the
    stored one; the AWB is compared with `shiprocketAWB` and, when written,
    goes to both `shiprocketAWB` and `awbCode`.
 */
module Reconcile {
  import opened Base
  import opened Orders

  /** The five reconciled fields; in a patch, `Some(x)` means "write x" and `None` means "leave alone". */
  datatype Fields = Fields(
    awb: Option<string>,
    status: Option<string>,
    courier: Option<string>,
    trackingUrl: Option<string>,
    shipmentStatus: Option<string>)

  /** The provider value when it is truthy and differs from the stored one. */
  function Changed(incoming: Option<string>, stored: Option<string>): (r: Option<string>)
    ensures r.Some? <==> StrTruthy(incoming) && incoming != stored
    ensures r.Some? ==> r == incoming
  {
    if StrTruthy(incoming) && incoming != stored then incoming else None
  }

  function Diff(ship: Shipping, seen: Fields): (p: Fields)
  {
    Fields(Changed(seen.awb, ship.shiprocketAWB),
           Changed(seen.status, ship.shiprocketStatus),
           Changed(seen.courier, ship.courierName),
           Changed(seen.trackingUrl, ship.trackingUrl),
           Changed(seen.shipmentStatus, ship.shipmentStatus))
  }

  predicate NoChange(p: Fields) {
    p.awb.None? && p.status.None? && p.courier.None? && p.trackingUrl.None? && p.shipmentStatus.None?
  }

  /** Writes the patch's fields together with the two update stamps; nothing else changes. */
  function ApplyFields(o: Order, p: Fields, now: int): (r: Order)
    ensures r == o.(ship := r.ship, updatedAt := Some(now))
    ensures r.ship.shiprocketLastUpdated == Some(now)
    ensures r.ship.shiprocketOrderId == o.ship.shiprocketOrderId
    ensures r.ship.shiprocketCreated == o.ship.shiprocketCreated
    ensures r.ship.failureReason == o.ship.failureReason
    ensures r.ship.shiprocketLastError == o.ship.shiprocketLastError
    ensures r.ship.shiprocketRetryCount == o.ship.shiprocketRetryCount
  {
    var sh := o.ship;
    o.(ship := sh.(shiprocketAWB := Patched(p.awb, sh.shiprocketAWB),
                   awbCode := Patched(p.awb, sh.awbCode),
                   shiprocketStatus := Patched(p.status, sh.shiprocketStatus),
                   courierName := Patched(p.courier, sh.courierName),
                   trackingUrl := Patched(p.trackingUrl, sh.trackingUrl),
                   shipmentStatus := Patched(p.shipmentStatus, sh.shipmentStatus),
                   shiprocketLastUpdated := Some(now)),
       updatedAt := Some(now))
  }

  /** A field after a patch: the patch's value when it has one, the stored value otherwise. */
  function Patched(patch: Option<string>, stored: Option<string>): Option<string> {
    if patch.Some? then patch else stored
  }

  /** One reconciliation: the diff against the stored fields, written back. Each reconciled field ends up
      holding the provider's value when that value is truthy and its old value otherwise; `awbCode`
      follows the AWB only when the AWB changed. */
  function Reconciled(o: Order, seen: Fields, now: int): (r: Order)
    ensures r.ship.shiprocketAWB == (if StrTruthy(seen.awb) then seen.awb else o.ship.shiprocketAWB)
    ensures r.ship.shiprocketStatus == (if StrTruthy(seen.status) then seen.status else o.ship.shiprocketStatus)
    ensures r.ship.courierName == (if StrTruthy(seen.courier) then seen.courier else o.ship.courierName)
    ensures r.ship.trackingUrl == (if StrTruthy(seen.trackingUrl) then seen.trackingUrl else o.ship.trackingUrl)
    ensures r.ship.shipmentStatus == (if StrTruthy(seen.shipmentStatus) then seen.shipmentStatus else o.ship.shipmentStatus)
    ensures r.ship.awbCode == (if StrTruthy(seen.awb) && seen.awb != o.ship.shiprocketAWB then seen.awb else o.ship.awbCode)
    ensures r.ship.shiprocketOrderId == o.ship.shiprocketOrderId
    ensures r == o.(ship := r.ship, updatedAt := Some(now))
  {
    ApplyFields(o, Diff(o.ship, seen), now)
  }

  /** Reconciling twice against the same provider view writes nothing the second time. */
  lemma DiffConverges(o: Order, seen: Fields, now: int)
    ensures NoChange(Diff(Reconciled(o, seen, now).ship, seen))
  {
  }

  /** No difference is found exactly when every truthy provider value is already stored. */
  lemma NoChangeMeansInStep(ship: Shipping, seen: Fields)
    ensures NoChange(Diff(ship, seen)) <==>
              && (StrTruthy(seen.awb) ==> seen.awb == ship.shiprocketAWB)
              && (StrTruthy(seen.status) ==> seen.status == ship.shiprocketStatus)
              && (StrTruthy(seen.courier) ==> seen.courier == ship.courierName)
              && (StrTruthy(seen.trackingUrl) ==> seen.trackingUrl == ship.trackingUrl)
              && (StrTruthy(seen.shipmentStatus) ==> seen.shipmentStatus == ship.shipmentStatus)
  {
  }
}
