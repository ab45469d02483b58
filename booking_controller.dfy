/**
 * The booking endpoints of the backend: creating a booking, listing all
 * bookings, and changing a booking's status. The bookings table is an
 * in-memory map from id to row; a failing database call is an input.
 */
module BookingController {
  import opened Js

  /** The three states the status column admits. */
  datatype BookingStatus = Pending | Confirmed | Cancelled

  function StatusName(s: BookingStatus): string {
    match s
    case Pending => "pending"
    case Confirmed => "confirmed"
    case Cancelled => "cancelled"
  }

  /**
   * The whitelist `['pending', 'confirmed', 'cancelled'].includes(status)`:
   * exactly those three strings are accepted, and each names its state.
   */
  function ParseStatus(status: Option<string>): (r: Option<BookingStatus>)
    ensures r.Some? <==> status.Some? && status.value in {"pending", "confirmed", "cancelled"}
    ensures r.Some? ==> StatusName(r.value) == status.value
  {
    if status == Some("pending") then Some(Pending)
    else if status == Some("confirmed") then Some(Confirmed)
    else if status == Some("cancelled") then Some(Cancelled)
    else None
  }

  /** Every state's name passes the whitelist and comes back as that state. */
  lemma StatusNameRoundTrip(s: BookingStatus)
    ensures ParseStatus(Some(StatusName(s))) == Some(s)
  {
  }

  /** A stored booking. */
  datatype Booking = Booking(
    id: nat,
    customerName: string,
    email: string,
    phone: string,
    serviceType: string,
    bookingDate: string,
    message: Option<string>,
    status: BookingStatus,
    createdAt: int,
    updatedAt: int)

  /** The JSON body of a create request; every field may be absent or empty. */
  datatype CreateBody = CreateBody(
    customerName: Option<string>,
    email: Option<string>,
    phone: Option<string>,
    serviceType: Option<string>,
    bookingDate: Option<string>,
    message: Option<string>,
    status: Option<string>)

  /** The required-field test of `createBooking`: all five fields are truthy. */
  function RequiredFieldsPresent(body: CreateBody): (ok: bool)
    ensures ok <==> body.customerName.Some? && body.customerName.value != ""
                    && body.email.Some? && body.email.value != ""
                    && body.phone.Some? && body.phone.value != ""
                    && body.serviceType.Some? && body.serviceType.value != ""
                    && body.bookingDate.Some? && body.bookingDate.value != ""
  {
    Truthy(body.customerName) && Truthy(body.email) && Truthy(body.phone)
    && Truthy(body.serviceType) && Truthy(body.bookingDate)
  }

  /**
   * The row a valid create request inserts: the request's fields, a falsy
   * message stored as null, and the status always pending.
   */
  function NewBooking(body: CreateBody, id: nat, now: int): (b: Booking)
    requires RequiredFieldsPresent(body)
    ensures b.id == id && b.status == Pending
    ensures b.customerName == body.customerName.value && b.email == body.email.value && b.phone == body.phone.value
    ensures b.serviceType == body.serviceType.value && b.bookingDate == body.bookingDate.value
    ensures b.message.Some? <==> Truthy(body.message)
    ensures b.message.Some? ==> b.message == body.message
    ensures b.createdAt == now && b.updatedAt == now
  {
    Booking(id, body.customerName.value, body.email.value, body.phone.value, body.serviceType.value,
            body.bookingDate.value, if Truthy(body.message) then body.message else None, Pending, now, now)
  }

  /** What a handler puts in the response body besides `success` and `message`. */
  datatype Payload = NoData | CreatedId(id: nat) | Bookings(bookings: seq<Booking>)

  datatype HttpResponse = HttpResponse(status: nat, success: bool, message: Option<string>, data: Payload)

  const MissingFields := HttpResponse(400, false, Some("Missing required fields"), NoData)
  const InvalidStatus := HttpResponse(400, false, Some("Invalid status"), NoData)
  const NotFound := HttpResponse(404, false, Some("Booking not found"), NoData)
  const ServerError := HttpResponse(500, false, Some("Internal server error"), NoData)
  const StatusUpdated := HttpResponse(200, true, Some("Booking status updated successfully"), NoData)

  function Created(id: nat): HttpResponse {
    HttpResponse(201, true, Some("Booking created successfully"), CreatedId(id))
  }

  /**
   * The stored ids below `k`, newest first. Ids are handed out in
   * increasing order, so this is the `createdAt DESC` order of the listing.
   */
  function IdsBelow(store: map<nat, Booking>, k: nat): (r: seq<nat>)
    ensures forall i :: 0 <= i < |r| ==> r[i] in store && r[i] < k
    ensures forall id :: id in store && id < k ==> id in r
    ensures forall i, j :: 0 <= i < j < |r| ==> r[i] > r[j]
  {
    if k == 0 then []
    else if k - 1 in store then [k - 1] + IdsBelow(store, k - 1)
    else IdsBelow(store, k - 1)
  }

  /** The rows `findAll` returns: every stored booking exactly once, newest first. */
  function Listing(store: map<nat, Booking>, nextId: nat): (r: seq<Booking>)
    requires forall id :: id in store ==> id < nextId && store[id].id == id
    ensures |r| == |store|
    ensures forall b :: b in r <==> b in store.Values
    ensures forall i, j :: 0 <= i < j < |r| ==> r[i].id > r[j].id
  {
    var ids := IdsBelow(store, nextId);
    var r := seq(|ids|, i requires 0 <= i < |ids| => store[ids[i]]);
    RowsOfCoveringIds(store, ids, r);
    r
  }

  /**
   * Looking up, newest first, distinct ids that are exactly the map's keys
   * finds every row of the map once, nothing else, newest first.
   */
  lemma RowsOfCoveringIds(store: map<nat, Booking>, ids: seq<nat>, r: seq<Booking>)
    requires forall id :: id in store ==> store[id].id == id
    requires forall i :: 0 <= i < |ids| ==> ids[i] in store
    requires forall id :: id in store ==> id in ids
    requires forall i, j :: 0 <= i < j < |ids| ==> ids[i] > ids[j]
    requires |r| == |ids| && forall i :: 0 <= i < |ids| ==> r[i] == store[ids[i]]
    ensures |r| == |store|
    ensures forall b :: b in r <==> b in store.Values
    ensures forall i, j :: 0 <= i < j < |r| ==> r[i].id > r[j].id
  {
    var keys := set i | 0 <= i < |ids| :: ids[i];
    assert keys == store.Keys;
    DistinctCardinality(ids);
    forall b | b in store.Values ensures b in r {
      var id :| id in store && store[id] == b;
      var i :| 0 <= i < |ids| && ids[i] == id;
      assert r[i] == b;
    }
    forall b | b in r ensures b in store.Values {
      var i :| 0 <= i < |r| && r[i] == b;
      assert store[ids[i]] == b;
    }
    assert forall i :: 0 <= i < |r| ==> r[i].id == ids[i];
  }

  lemma {:induction false} DistinctCardinality(ids: seq<nat>)
    requires forall i, j :: 0 <= i < j < |ids| ==> ids[i] > ids[j]
    ensures |set i | 0 <= i < |ids| :: ids[i]| == |ids|
  {
    if ids != [] {
      var rest := ids[1..];
      DistinctCardinality(rest);
      var s := set i | 0 <= i < |ids| :: ids[i];
      var t := set i | 0 <= i < |rest| :: rest[i];
      assert s == {ids[0]} + t by {
        forall x | x in s ensures x in {ids[0]} + t {
          var i :| 0 <= i < |ids| && ids[i] == x;
          if i > 0 {
            assert rest[i - 1] == x;
          }
        }
      }
      assert ids[0] !in t;
    }
  }

  /** The bookings table together with the next auto-increment id. */
  class Controller {
    var store: map<nat, Booking>
    var nextId: nat

    /** Every row is filed under its own id, and ids are positive and below the next one to hand out. */
    ghost predicate Valid()
      reads this
    {
      nextId >= 1 && forall id :: id in store ==> 1 <= id < nextId && store[id].id == id
    }

    constructor ()
      ensures Valid() && store == map[] && nextId == 1
    {
      store := map[];
      nextId := 1;
    }

    /**
     * `createBooking`: a missing required field is refused with 400 and
     * nothing is stored; otherwise exactly one pending booking is added
     * under a new id, which the 201 answer carries; a failing insert
     * answers 500 and stores nothing.
     */
    method CreateBooking(body: CreateBody, now: int, storeFails: bool) returns (res: HttpResponse)
      requires Valid()
      modifies this
      ensures Valid()
      ensures !RequiredFieldsPresent(body) ==> res == MissingFields && store == old(store) && nextId == old(nextId)
      ensures RequiredFieldsPresent(body) && storeFails ==>
                res == ServerError && store == old(store) && nextId == old(nextId)
      ensures RequiredFieldsPresent(body) && !storeFails ==>
                && old(nextId) !in old(store)
                && res == Created(old(nextId))
                && store == old(store)[old(nextId) := NewBooking(body, old(nextId), now)]
                && nextId == old(nextId) + 1
    {
      if !RequiredFieldsPresent(body) {
        return MissingFields;
      }
      if storeFails {
        return ServerError;
      }
      var id := nextId;
      store := store[id := NewBooking(body, id, now)];
      nextId := nextId + 1;
      res := Created(id);
    }

    /** `getBookings`: every stored booking exactly once, newest first, or 500 when the query fails. */
    method GetBookings(storeFails: bool) returns (res: HttpResponse)
      requires Valid()
      ensures storeFails ==> res == ServerError
      ensures !storeFails ==> res == HttpResponse(200, true, None, Bookings(Listing(store, nextId)))
    {
      if storeFails {
        return ServerError;
      }
      res := HttpResponse(200, true, None, Bookings(Listing(store, nextId)));
    }

    /**
     * `updateBookingStatus`: a status outside the whitelist is refused with
     * 400 before the store is consulted; an id that names no booking gets
     * 404; otherwise that one booking takes the new status and the update
     * time, and nothing else changes.
     */
    method UpdateBookingStatus(idParam: string, status: Option<string>, now: int, storeFails: bool)
      returns (res: HttpResponse)
      requires Valid()
      modifies this
      ensures Valid() && nextId == old(nextId)
      ensures ParseStatus(status).None? ==> res == InvalidStatus && store == old(store)
      ensures ParseStatus(status).Some? && storeFails ==> res == ServerError && store == old(store)
      ensures ParseStatus(status).Some? && !storeFails ==>
                match ParseInt(idParam)
                case Some(id) =>
                  if id >= 0 && id in old(store) then
                    res == StatusUpdated
                    && store == old(store)[id := old(store)[id].(status := ParseStatus(status).value, updatedAt := now)]
                  else res == NotFound && store == old(store)
                case None => res == NotFound && store == old(store)
    {
      var newStatus := ParseStatus(status);
      if newStatus.None? {
        return InvalidStatus;
      }
      if storeFails {
        return ServerError;
      }
      var id := ParseInt(idParam);
      if id.None? || id.value < 0 || id.value !in store {
        return NotFound;
      }
      var key: nat := id.value;
      store := store[key := store[key].(status := newStatus.value, updatedAt := now)];
      res := StatusUpdated;
    }
  }

  /** "completed" is not one of the statuses the endpoint accepts. */
  lemma CompletedIsRejected()
    ensures ParseStatus(Some("completed")) == None
  {
  }

  /**
   * A successful status change leaves every other booking as it was, and
   * of the changed booking only the status and the update time.
   */
  lemma StatusChangeIsLocal(store: map<nat, Booking>, id: nat, s: BookingStatus, now: int, other: nat)
    requires id in store && other in store && other != id
    ensures var updated := store[id := store[id].(status := s, updatedAt := now)];
            && updated.Keys == store.Keys
            && updated[other] == store[other]
            && updated[id].id == store[id].id
            && updated[id].customerName == store[id].customerName
            && updated[id].email == store[id].email
            && updated[id].phone == store[id].phone
            && updated[id].serviceType == store[id].serviceType
            && updated[id].bookingDate == store[id].bookingDate
            && updated[id].message == store[id].message
            && updated[id].createdAt == store[id].createdAt
            && updated[id].status == s
            && updated[id].updatedAt == now
  {
  }
}
