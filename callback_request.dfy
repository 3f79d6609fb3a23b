/**
 * The inbound callback payload that the courier service posts to an integrator's
 * endpoint (src/models/callback_request.rs): its three wire enums with their serde
 * rename lists, `Display` impls and `Default` impls, and the payload records.
 */
module Callbacks {
  import opened Wrappers
  import WireTable

  /** Topic subscription name; a single topic exists today. */
  datatype Topic = ShippingStatus

  /** The shipping states for which a status callback is sent. */
  datatype CallbackShippingStatus =
    | Confirmed
    | Cancelled
    | InProgress
    | NearPickup
    | PickedUp
    | NearDropoff
    | Completed

  /** Why a shipping order was cancelled; set only when the status is `Cancelled`. */
  datatype CancelCode =
    | AddressDataMissing
    | NoRiderAvailable
    | OutOfDeliveryZone
    | DelayedDeliverySchedule
    | CoordinateError
    | PackageDamageLoose
    | OrderNotDelivered
    | InappropriateConduct
    | UnreachableRider
    | TycPackageContradiction
    | PurchaseRequested
    | UserCannotPay
    | CouponNotApplied
    | DuplicatedOrder
    | UnreachableUserDropoff
    | SuspiciousClient
    | UserCancelled
    | TechnicalProblem
    | BadWeather
    | UnreachableUserPickup
    | ContentWrong
    | OrderModification
    | OutOfFleetTime
    | TestOrder
    | ContentWrongRider

  /** The `data` block of a callback. */
  datatype CallbackRequestData = CallbackRequestData(
    status: Option<CallbackShippingStatus>,
    cancelCode: Option<CancelCode>,
    cancelReason: Option<string>,
    estimatedPickUpTime: Option<string>,
    estimatedDropOffTime: Option<string>)

  /** The whole callback payload. */
  datatype CallbackRequest = CallbackRequest(
    topic: Option<Topic>,
    id: Option<string>,
    referenceId: Option<string>,
    generated: Option<string>,
    transmitted: Option<string>,
    data: Option<CallbackRequestData>)

  /** Upper-case ASCII letters and underscores only, and not empty. */
  predicate ScreamingSnake(t: string) {
    |t| > 0 && forall i :: 0 <= i < |t| ==> ('A' <= t[i] <= 'Z') || t[i] == '_'
  }

  // ---------------------------------------------------------------- Topic

  /** The serde rename attribute of `Topic`'s only variant. */
  const TopicNames: seq<string> := ["SHIPPING_STATUS"]

  /** The wire string serde writes for a topic (`Topic` has no `Display` impl). */
  function TopicToString(t: Topic): (r: string)
    ensures r == TopicNames[0]
    ensures ScreamingSnake(r)
  {
    match t
    case ShippingStatus => "SHIPPING_STATUS"
  }

  /** serde's deserializer for `Topic`: accepts exactly "SHIPPING_STATUS". */
  function ParseTopic(name: string): (r: Option<Topic>)
    ensures r.Some? <==> name == "SHIPPING_STATUS"
    ensures r.Some? ==> TopicToString(r.value) == name
  {
    match WireTable.IndexOf(TopicNames, name)
    case None => None
    case Some(_) => Some(ShippingStatus)
  }

  /** `impl Default for Topic`: the only topic, which parses from its own wire string. */
  function DefaultTopic(): (t: Topic)
    ensures ParseTopic(TopicToString(t)) == Some(t)
  {
    ShippingStatus
  }

  // ---------------------------------------------------------------- CallbackShippingStatus

  /** The serde rename attributes of `CallbackShippingStatus`, in declaration order (serde's variant list). */
  const StatusNames: seq<string> := [
    "CONFIRMED",
    "CANCELLED",
    "IN_PROGRESS",
    "NEAR_PICKUP",
    "PICKED_UP",
    "NEAR_DROPOFF",
    "COMPLETED"
  ]

  /** Declaration position of a `CallbackShippingStatus` variant: its index in the serde variant list. */
  function StatusOrdinal(x: CallbackShippingStatus): (k: nat)
    ensures k < |StatusNames|
  {
    match x
    case Confirmed => 0
    case Cancelled => 1
    case InProgress => 2
    case NearPickup => 3
    case PickedUp => 4
    case NearDropoff => 5
    case Completed => 6
  }

  /** The variant declared at position `k`: inverse of `StatusOrdinal`. */
  function StatusAtOrdinal(k: nat): (x: CallbackShippingStatus)
    requires k < |StatusNames|
    ensures StatusOrdinal(x) == k
  {
    if k == 0 then Confirmed
    else if k == 1 then Cancelled
    else if k == 2 then InProgress
    else if k == 3 then NearPickup
    else if k == 4 then PickedUp
    else if k == 5 then NearDropoff
    else Completed
  }

  /** `impl Display for CallbackShippingStatus` (lines 95-107): the displayed string is the variant's serde rename. */
  function StatusToString(x: CallbackShippingStatus): (r: string)
    ensures r == StatusNames[StatusOrdinal(x)]
    ensures StatusAtOrdinal(StatusOrdinal(x)) == x
  {
    match x
    case Confirmed => "CONFIRMED"
    case Cancelled => "CANCELLED"
    case InProgress => "IN_PROGRESS"
    case NearPickup => "NEAR_PICKUP"
    case PickedUp => "PICKED_UP"
    case NearDropoff => "NEAR_DROPOFF"
    case Completed => "COMPLETED"
  }

  /** serde's deserializer for `CallbackShippingStatus`: the variant whose renamed name equals `name`, if any. */
  function ParseStatus(name: string): (r: Option<CallbackShippingStatus>)
    ensures r.Some? ==> StatusToString(r.value) == name
    ensures r.None? <==> name !in StatusNames
  {
    match WireTable.IndexOf(StatusNames, name)
    case None => None
    case Some(k) => Some(StatusAtOrdinal(k))
  }

  lemma StatusNamesDistinct()
    ensures WireTable.NamesDistinct(StatusNames)
  {}

  /** Parsing the displayed string of a variant gives the variant back. */
  lemma StatusRoundTrip(x: CallbackShippingStatus)
    ensures ParseStatus(StatusToString(x)) == Some(x)
  {
    StatusNamesDistinct();
    WireTable.IndexOfListed(StatusNames, StatusOrdinal(x));
  }

  /** Distinct variants display as distinct strings. */
  lemma StatusToStringInjective(a: CallbackShippingStatus, b: CallbackShippingStatus)
    ensures StatusToString(a) == StatusToString(b) <==> a == b
  {
    StatusRoundTrip(a);
    StatusRoundTrip(b);
  }

  /** A string that is no variant's displayed string does not parse. */
  lemma ParseStatusRejects(name: string)
    requires forall x :: StatusToString(x) != name
    ensures ParseStatus(name) == None
  {}

  /** `impl Default for CallbackShippingStatus`: the first declared variant, `Confirmed`. */
  function DefaultStatus(): (x: CallbackShippingStatus)
    ensures StatusOrdinal(x) == 0
    ensures StatusToString(x) == "CONFIRMED"
  {
    Confirmed
  }

  /** Every status displays as a SCREAMING_SNAKE word. */
  lemma StatusAlphabet(s: CallbackShippingStatus)
    ensures ScreamingSnake(StatusToString(s))
  {}

  /** The misspelling "CANCELED" and the lower-case "confirmed" are not statuses. */
  lemma ParseStatusExamples()
    ensures ParseStatus("CANCELED") == None
    ensures ParseStatus("confirmed") == None
    ensures ParseStatus("CANCELLED") == Some(Cancelled)
  {
    StatusRoundTrip(Cancelled);
  }

  // ---------------------------------------------------------------- CancelCode

  /** The serde rename attributes of `CancelCode`, in declaration order (serde's variant list). */
  const CancelCodeNames: seq<string> := [
    "ADDRESS_DATA_MISSING",
    "NO_RIDER_AVAILABLE",
    "OUT_OF_DELIVERY_ZONE",
    "DELAYED_DELIVERY_SCHEDULE",
    "COORDINATE_ERROR",
    "PACKAGE_DAMAGE_LOOSE",
    "ORDER_NOT_DELIVERED",
    "INAPPROPRIATE_CONDUCT",
    "UNREACHABLE_RIDER",
    "TYC_PACKAGE_CONTRADICTION",
    "PURCHASE_REQUESTED",
    "USER_CANNOT_PAY",
    "COUPON_NOT_APPLIED",
    "DUPLICATED_ORDER",
    "UNREACHABLE_USER_DROPOFF",
    "SUSPICIOUS_CLIENT",
    "USER_CANCELLED",
    "TECHNICAL_PROBLEM",
    "BAD_WEATHER",
    "UNREACHABLE_USER_PICKUP",
    "CONTENT_WRONG",
    "ORDER_MODIFICATION",
    "OUT_OF_FLEET_TIME",
    "TEST_ORDER",
    "CONTENT_WRONG_RIDER"
  ]

  /** Declaration position of a `CancelCode` variant: its index in the serde variant list. */
  function CancelCodeOrdinal(x: CancelCode): (k: nat)
    ensures k < |CancelCodeNames|
  {
    match x
    case AddressDataMissing => 0
    case NoRiderAvailable => 1
    case OutOfDeliveryZone => 2
    case DelayedDeliverySchedule => 3
    case CoordinateError => 4
    case PackageDamageLoose => 5
    case OrderNotDelivered => 6
    case InappropriateConduct => 7
    case UnreachableRider => 8
    case TycPackageContradiction => 9
    case PurchaseRequested => 10
    case UserCannotPay => 11
    case CouponNotApplied => 12
    case DuplicatedOrder => 13
    case UnreachableUserDropoff => 14
    case SuspiciousClient => 15
    case UserCancelled => 16
    case TechnicalProblem => 17
    case BadWeather => 18
    case UnreachableUserPickup => 19
    case ContentWrong => 20
    case OrderModification => 21
    case OutOfFleetTime => 22
    case TestOrder => 23
    case ContentWrongRider => 24
  }

  /** The variant declared at position `k`: inverse of `CancelCodeOrdinal`. */
  function CancelCodeAtOrdinal(k: nat): (x: CancelCode)
    requires k < |CancelCodeNames|
    ensures CancelCodeOrdinal(x) == k
  {
    if k == 0 then AddressDataMissing
    else if k == 1 then NoRiderAvailable
    else if k == 2 then OutOfDeliveryZone
    else if k == 3 then DelayedDeliverySchedule
    else if k == 4 then CoordinateError
    else if k == 5 then PackageDamageLoose
    else if k == 6 then OrderNotDelivered
    else if k == 7 then InappropriateConduct
    else if k == 8 then UnreachableRider
    else if k == 9 then TycPackageContradiction
    else if k == 10 then PurchaseRequested
    else if k == 11 then UserCannotPay
    else if k == 12 then CouponNotApplied
    else if k == 13 then DuplicatedOrder
    else if k == 14 then UnreachableUserDropoff
    else if k == 15 then SuspiciousClient
    else if k == 16 then UserCancelled
    else if k == 17 then TechnicalProblem
    else if k == 18 then BadWeather
    else if k == 19 then UnreachableUserPickup
    else if k == 20 then ContentWrong
    else if k == 21 then OrderModification
    else if k == 22 then OutOfFleetTime
    else if k == 23 then TestOrder
    else ContentWrongRider
  }

  /** `impl Display for CancelCode` (lines 171-201): the displayed string is the variant's serde rename. */
  function CancelCodeToString(x: CancelCode): (r: string)
    ensures r == CancelCodeNames[CancelCodeOrdinal(x)]
    ensures CancelCodeAtOrdinal(CancelCodeOrdinal(x)) == x
  {
    match x
    case AddressDataMissing => "ADDRESS_DATA_MISSING"
    case NoRiderAvailable => "NO_RIDER_AVAILABLE"
    case OutOfDeliveryZone => "OUT_OF_DELIVERY_ZONE"
    case DelayedDeliverySchedule => "DELAYED_DELIVERY_SCHEDULE"
    case CoordinateError => "COORDINATE_ERROR"
    case PackageDamageLoose => "PACKAGE_DAMAGE_LOOSE"
    case OrderNotDelivered => "ORDER_NOT_DELIVERED"
    case InappropriateConduct => "INAPPROPRIATE_CONDUCT"
    case UnreachableRider => "UNREACHABLE_RIDER"
    case TycPackageContradiction => "TYC_PACKAGE_CONTRADICTION"
    case PurchaseRequested => "PURCHASE_REQUESTED"
    case UserCannotPay => "USER_CANNOT_PAY"
    case CouponNotApplied => "COUPON_NOT_APPLIED"
    case DuplicatedOrder => "DUPLICATED_ORDER"
    case UnreachableUserDropoff => "UNREACHABLE_USER_DROPOFF"
    case SuspiciousClient => "SUSPICIOUS_CLIENT"
    case UserCancelled => "USER_CANCELLED"
    case TechnicalProblem => "TECHNICAL_PROBLEM"
    case BadWeather => "BAD_WEATHER"
    case UnreachableUserPickup => "UNREACHABLE_USER_PICKUP"
    case ContentWrong => "CONTENT_WRONG"
    case OrderModification => "ORDER_MODIFICATION"
    case OutOfFleetTime => "OUT_OF_FLEET_TIME"
    case TestOrder => "TEST_ORDER"
    case ContentWrongRider => "CONTENT_WRONG_RIDER"
  }

  /** serde's deserializer for `CancelCode`: the variant whose renamed name equals `name`, if any. */
  function ParseCancelCode(name: string): (r: Option<CancelCode>)
    ensures r.Some? ==> CancelCodeToString(r.value) == name
    ensures r.None? <==> name !in CancelCodeNames
  {
    match WireTable.IndexOf(CancelCodeNames, name)
    case None => None
    case Some(k) => Some(CancelCodeAtOrdinal(k))
  }

  lemma CancelCodeNamesDistinct()
    ensures WireTable.NamesDistinct(CancelCodeNames)
  {}

  /** Parsing the displayed string of a variant gives the variant back. */
  lemma CancelCodeRoundTrip(x: CancelCode)
    ensures ParseCancelCode(CancelCodeToString(x)) == Some(x)
  {
    CancelCodeNamesDistinct();
    WireTable.IndexOfListed(CancelCodeNames, CancelCodeOrdinal(x));
  }

  /** Distinct variants display as distinct strings. */
  lemma CancelCodeToStringInjective(a: CancelCode, b: CancelCode)
    ensures CancelCodeToString(a) == CancelCodeToString(b) <==> a == b
  {
    CancelCodeRoundTrip(a);
    CancelCodeRoundTrip(b);
  }

  /** A string that is no variant's displayed string does not parse. */
  lemma ParseCancelCodeRejects(name: string)
    requires forall x :: CancelCodeToString(x) != name
    ensures ParseCancelCode(name) == None
  {}

  /** `impl Default for CancelCode`: the first declared variant, `AddressDataMissing`. */
  function DefaultCancelCode(): (x: CancelCode)
    ensures CancelCodeOrdinal(x) == 0
    ensures CancelCodeToString(x) == "ADDRESS_DATA_MISSING"
  {
    AddressDataMissing
  }

  // The alphabet of the 25 names is checked five at a time, to keep each proof small.

  lemma CancelCodeNamesAlphabet0()
    ensures forall k :: 0 <= k < 5 ==> ScreamingSnake(CancelCodeNames[k])
  {}

  lemma CancelCodeNamesAlphabet5()
    ensures forall k :: 5 <= k < 10 ==> ScreamingSnake(CancelCodeNames[k])
  {}

  lemma CancelCodeNamesAlphabet10()
    ensures forall k :: 10 <= k < 15 ==> ScreamingSnake(CancelCodeNames[k])
  {}

  lemma CancelCodeNamesAlphabet15()
    ensures forall k :: 15 <= k < 20 ==> ScreamingSnake(CancelCodeNames[k])
  {}

  lemma CancelCodeNamesAlphabet20()
    ensures forall k :: 20 <= k < 25 ==> ScreamingSnake(CancelCodeNames[k])
  {}

  /** Every cancel code displays as a SCREAMING_SNAKE word. */
  lemma CancelCodeAlphabet(c: CancelCode)
    ensures ScreamingSnake(CancelCodeToString(c))
  {
    CancelCodeNamesAlphabet0();
    CancelCodeNamesAlphabet5();
    CancelCodeNamesAlphabet10();
    CancelCodeNamesAlphabet15();
    CancelCodeNamesAlphabet20();
  }

  // ---------------------------------------------------------------- records

  /** `CallbackRequestData::new`: a data block with none of its five fields set. */
  function NewCallbackRequestData(): (d: CallbackRequestData)
    ensures d.status.None? && d.cancelCode.None? && d.cancelReason.None?
    ensures d.estimatedPickUpTime.None? && d.estimatedDropOffTime.None?
  {
    CallbackRequestData(None, None, None, None, None)
  }
}
