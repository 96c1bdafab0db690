/** The booking controller: creating a booking behind the one-active-booking
    guard, reading bookings back, and recording feedback together with the
    per-booking average rating it writes to the driver's vehicle details. */
module Bookings {
  import opened Store
  import opened Records

  /** The creation guard: the rider's side field says a booking is pending
      or accepted. */
  predicate HoldsActiveBooking(u: User)
  {
    u.bookingStatus == Some(Pending) || u.bookingStatus == Some(Accepted)
  }

  datatype CreateReply =
    | BookingConfirmed(bookingId: Id)
    | UserNotFound
    | ActiveBookingExists
  {
    function Message(): string
    {
      match this
      case BookingConfirmed(_) => "Booking confirmed"
      case UserNotFound => "User not found"
      case ActiveBookingExists => "You have a pending or accepted booking"
    }
  }

  /** The record a booking request is stored as. */
  function NewBooking(userId: Id, driverId: Id, fare: int, notes: string,
                      pickupAddress: string, dropOffAddress: string): Booking
  {
    Booking(userId, driverId, fare, pickupAddress, dropOffAddress, notes, Pending)
  }

  /** `newId` is the id the store assigns to the added document. */
  function CreateBooking(db: Db, userId: Id, driverId: Id, fare: int, notes: string,
                         pickupAddress: string, dropOffAddress: string, newId: Id): (r: Step<CreateReply>)
    ensures Get(db.users, userId).None? ==> r == Step(UserNotFound, db)
    ensures (Get(db.users, userId).Some? && HoldsActiveBooking(Get(db.users, userId).value)) ==>
              r == Step(ActiveBookingExists, db)
    ensures r.reply.BookingConfirmed? <==>
              Get(db.users, userId).Some? && !HoldsActiveBooking(Get(db.users, userId).value)
    ensures r.reply.BookingConfirmed? ==>
              && r.reply.bookingId == newId
              && r.db.bookings == db.bookings + [Doc(newId, NewBooking(userId, driverId, fare, notes, pickupAddress, dropOffAddress))]
    ensures r.db == db.(bookings := r.db.bookings)
  {
    match Get(db.users, userId)
    case None => Step(UserNotFound, db)
    case Some(user) =>
      if HoldsActiveBooking(user) then Step(ActiveBookingExists, db)
      else
        var booking := NewBooking(userId, driverId, fare, notes, pickupAddress, dropOffAddress);
        Step(BookingConfirmed(newId), db.(bookings := db.bookings + [Doc(newId, booking)]))
  }

  datatype BookingLookup =
    | InvalidBookingId
    | BookingNotFound
    | BookingFound(booking: Doc<Booking>)

  function GetBooking(db: Db, bookingId: Id): (r: BookingLookup)
    ensures r == InvalidBookingId <==> bookingId == ""
    ensures r == BookingNotFound <==> bookingId != "" && bookingId !in Ids(db.bookings)
    ensures r.BookingFound? ==> r.booking.id == bookingId && r.booking in db.bookings
  {
    if bookingId == "" then InvalidBookingId
    else match Get(db.bookings, bookingId)
      case None => BookingNotFound
      case Some(b) => BookingFound(Doc(bookingId, b))
  }

  datatype BookingList =
    | BookingItems(items: seq<Booking>)
    | NoBookingsFound(message: string)

  function OfDriver(driverId: Id): Booking -> bool
  {
    (b: Booking) => b.driverId == driverId
  }

  function OfUser(userId: Id): Booking -> bool
  {
    (b: Booking) => b.userId == userId
  }

  /** A filtered read of `bookings` answering the fields of the matching
      documents, or `none` when nothing matches.  Each matching record is
      listed as many times as it is stored. */
  function ListWhere(bookings: Collection<Booking>, p: Booking -> bool, none: string): (r: BookingList)
    ensures r.NoBookingsFound? <==> forall j :: 0 <= j < |bookings| ==> !p(bookings[j].data)
    ensures r.NoBookingsFound? ==> r.message == none
    ensures r.BookingItems? ==> forall i :: 0 <= i < |r.items| ==>
              p(r.items[i]) && r.items[i] in Datas(bookings)
    ensures r.BookingItems? ==> forall j :: 0 <= j < |bookings| && p(bookings[j].data) ==> bookings[j].data in r.items
    ensures r.BookingItems? ==> forall b :: Occurrences(r.items, b) == if p(b) then Occurrences(Datas(bookings), b) else 0
  {
    var items := Matching(bookings, p);
    if |items| == 0 then NoBookingsFound(none) else BookingItems(items)
  }

  function GetBookingsByDriverId(db: Db, driverId: Id): (r: BookingList)
    ensures r.NoBookingsFound? <==> forall j :: 0 <= j < |db.bookings| ==> db.bookings[j].data.driverId != driverId
    ensures r.NoBookingsFound? ==> r.message == "No bookings found for this driver"
    ensures r.BookingItems? ==>
              forall b :: Occurrences(r.items, b) == if b.driverId == driverId then Occurrences(Datas(db.bookings), b) else 0
  {
    ListWhere(db.bookings, OfDriver(driverId), "No bookings found for this driver")
  }

  function GetBookingsByUserId(db: Db, userId: Id): (r: BookingList)
    ensures r.NoBookingsFound? <==> forall j :: 0 <= j < |db.bookings| ==> db.bookings[j].data.userId != userId
    ensures r.NoBookingsFound? ==> r.message == "No bookings found for this user"
    ensures r.BookingItems? ==>
              forall b :: Occurrences(r.items, b) == if b.userId == userId then Occurrences(Datas(db.bookings), b) else 0
  {
    ListWhere(db.bookings, OfUser(userId), "No bookings found for this user")
  }

  /** A successful creation does not arm its own guard: the side field is
      left as it was, so an identical request right after it is confirmed
      too. */
  lemma CreateLeavesGuardOpen(db: Db, userId: Id, driverId: Id, fare: int, notes: string,
                              pickupAddress: string, dropOffAddress: string, newId: Id, nextId: Id)
    requires CreateBooking(db, userId, driverId, fare, notes, pickupAddress, dropOffAddress, newId).reply.BookingConfirmed?
    ensures
      var after := CreateBooking(db, userId, driverId, fare, notes, pickupAddress, dropOffAddress, newId).db;
      CreateBooking(after, userId, driverId, fare, notes, pickupAddress, dropOffAddress, nextId).reply
        == BookingConfirmed(nextId)
  {
  }

  /** A confirmed booking reads back by its id, pending. */
  lemma CreateThenGet(db: Db, userId: Id, driverId: Id, fare: int, notes: string,
                      pickupAddress: string, dropOffAddress: string, newId: Id)
    requires newId != "" && newId !in Ids(db.bookings)
    requires CreateBooking(db, userId, driverId, fare, notes, pickupAddress, dropOffAddress, newId).reply.BookingConfirmed?
    ensures
      var after := CreateBooking(db, userId, driverId, fare, notes, pickupAddress, dropOffAddress, newId).db;
      && GetBooking(after, newId) == BookingFound(Doc(newId, NewBooking(userId, driverId, fare, notes, pickupAddress, dropOffAddress)))
      && GetBooking(after, newId).booking.data.status == Pending
  {
    var booking := NewBooking(userId, driverId, fare, notes, pickupAddress, dropOffAddress);
    GetAppend(db.bookings, Doc(newId, booking), newId);
  }

  /** A confirmed booking is listed for its rider and for its driver. */
  lemma CreateThenListed(db: Db, userId: Id, driverId: Id, fare: int, notes: string,
                         pickupAddress: string, dropOffAddress: string, newId: Id)
    requires CreateBooking(db, userId, driverId, fare, notes, pickupAddress, dropOffAddress, newId).reply.BookingConfirmed?
    ensures
      var after := CreateBooking(db, userId, driverId, fare, notes, pickupAddress, dropOffAddress, newId).db;
      var booking := NewBooking(userId, driverId, fare, notes, pickupAddress, dropOffAddress);
      && GetBookingsByUserId(after, userId).BookingItems?
      && booking in GetBookingsByUserId(after, userId).items
      && GetBookingsByDriverId(after, driverId).BookingItems?
      && booking in GetBookingsByDriverId(after, driverId).items
  {
    var booking := NewBooking(userId, driverId, fare, notes, pickupAddress, dropOffAddress);
    var after := CreateBooking(db, userId, driverId, fare, notes, pickupAddress, dropOffAddress, newId).db;
    var last := |db.bookings|;
    assert after.bookings[last].data == booking;
    var byUser := GetBookingsByUserId(after, userId);
    assert after.bookings[last].data.userId == userId;
    assert byUser.BookingItems?;
    var byDriver := GetBookingsByDriverId(after, driverId);
    assert after.bookings[last].data.driverId == driverId;
    assert byDriver.BookingItems?;
  }

  // ---------------------------------------------------------------------
  // Feedback

  datatype FeedbackReply =
    | FeedbackSubmitted
    | FeedbackBookingNotFound
    | InvalidRating
    | RatingUpdateFailed
  {
    /** The message the caller sees; a failed update surfaces the store's
        own error text, which is not modelled. */
    function Message(): Option<string>
    {
      match this
      case FeedbackSubmitted => Some("Feedback submitted successfully")
      case FeedbackBookingNotFound => Some("Booking not found")
      case InvalidRating => Some("Invalid rating. Rating must be between 1 and 5.")
      case RatingUpdateFailed => None
    }
  }

  function ForBooking(bookingId: Id): Feedback -> bool
  {
    (f: Feedback) => f.bookingId == bookingId
  }

  /** The feedback rows of one booking, in store order. */
  function FeedbackFor(feedback: Collection<Feedback>, bookingId: Id): Collection<Feedback>
  {
    Select(feedback, ForBooking(bookingId))
  }

  function Rating(f: Feedback): int
  {
    f.rating
  }

  /** Sum of ratings over the number of rows. */
  function AverageRating(rows: Collection<Feedback>): (avg: real)
    requires |rows| > 0
    ensures avg * (|rows| as real) == SumOf(rows, Rating) as real
  {
    SumOf(rows, Rating) as real / |rows| as real
  }

  /** A new row is counted for its own booking only. */
  lemma FeedbackForAppend(feedback: Collection<Feedback>, row: Doc<Feedback>, bookingId: Id)
    ensures FeedbackFor(feedback + [row], bookingId)
              == FeedbackFor(feedback, bookingId) + (if row.data.bookingId == bookingId then [row] else [])
  {
    SelectAppend(feedback, row, ForBooking(bookingId));
  }

  /** Every stored rating passed the submission check. */
  ghost predicate ValidRatings(feedback: Collection<Feedback>)
  {
    forall i :: 0 <= i < |feedback| ==> 1 <= feedback[i].data.rating <= 5
  }

  /** `newId` is the id the store assigns to the new feedback row. */
  function SubmitFeedback(db: Db, bookingId: Id, rating: int, comment: string, newId: Id): (r: Step<FeedbackReply>)
    ensures Get(db.bookings, bookingId).None? ==> r == Step(FeedbackBookingNotFound, db)
    ensures Get(db.bookings, bookingId).Some? && (rating < 1 || rating > 5) ==> r == Step(InvalidRating, db)
    ensures (r.reply.FeedbackSubmitted? || r.reply.RatingUpdateFailed?) <==>
              Get(db.bookings, bookingId).Some? && 1 <= rating <= 5
    ensures (r.reply.FeedbackSubmitted? || r.reply.RatingUpdateFailed?) ==>
              && r.db.feedback == db.feedback + [Doc(newId, Feedback(bookingId, rating, comment))]
              && |FeedbackFor(r.db.feedback, bookingId)| == |FeedbackFor(db.feedback, bookingId)| + 1
    ensures r.db == db.(feedback := r.db.feedback, vehicleDetails := r.db.vehicleDetails)
    ensures (r.reply.FeedbackSubmitted? || r.reply.RatingUpdateFailed?) ==>
              (r.reply.RatingUpdateFailed? <==> Get(db.bookings, bookingId).value.driverId !in Ids(db.vehicleDetails))
    ensures r.reply.RatingUpdateFailed? ==>
              r.db.vehicleDetails == db.vehicleDetails
              && Get(db.bookings, bookingId).value.driverId !in Ids(db.vehicleDetails)
    ensures r.reply.FeedbackSubmitted? ==>
              var driverId := Get(db.bookings, bookingId).value.driverId;
              && Get(r.db.vehicleDetails, driverId).Some?
              && Get(r.db.vehicleDetails, driverId).value.averageRating
                   == Some(AverageRating(FeedbackFor(r.db.feedback, bookingId)))
              && forall k :: k != driverId ==> Get(r.db.vehicleDetails, k) == Get(db.vehicleDetails, k)
  {
    match Get(db.bookings, bookingId)
    case None => Step(FeedbackBookingNotFound, db)
    case Some(booking) =>
      if rating < 1 || rating > 5 then Step(InvalidRating, db)
      else
        var row := Doc(newId, Feedback(bookingId, rating, comment));
        var feedback := db.feedback + [row];
        FeedbackForAppend(db.feedback, row, bookingId);
        var average := AverageRating(FeedbackFor(feedback, bookingId));
        var written := db.(feedback := feedback);
        if booking.driverId !in Ids(db.vehicleDetails) then
          // updating a document that does not exist fails after the row was added
          Step(RatingUpdateFailed, written)
        else
          var setAverage := (v: VehicleDetails) => v.(averageRating := Some(average));
          var details := Modify(db.vehicleDetails, booking.driverId, setAverage);
          assert forall k :: Get(details, k) == if k != booking.driverId then Get(db.vehicleDetails, k)
                   else match Get(db.vehicleDetails, booking.driverId) case None => None case Some(v) => Some(setAverage(v)) by {
            forall k {
              GetModify(db.vehicleDetails, booking.driverId, setAverage, k);
            }
          }
          Step(FeedbackSubmitted, written.(vehicleDetails := details))
  }

  /** The average of ratings that passed the check lies in [1, 5]. */
  lemma AverageInRange(rows: Collection<Feedback>)
    requires |rows| > 0
    requires ValidRatings(rows)
    ensures 1.0 <= AverageRating(rows) <= 5.0
  {
    SumBounds(rows, Rating, 1, 5);
    var n := |rows| as real;
    var q := AverageRating(rows);
    assert q * n == SumOf(rows, Rating) as real;
    assert (q - 5.0) * n == q * n - 5.0 * n;
    NonPositiveFactor(q - 5.0, n);
    assert (1.0 - q) * n == n - q * n;
    NonPositiveFactor(1.0 - q, n);
  }

  lemma NonPositiveFactor(x: real, n: real)
    requires n > 0.0 && x * n <= 0.0
    ensures x <= 0.0
  {
  }

  /** Submission keeps every stored rating within [1, 5]. */
  lemma SubmitKeepsRatingsValid(db: Db, bookingId: Id, rating: int, comment: string, newId: Id)
    requires ValidRatings(db.feedback)
    ensures ValidRatings(SubmitFeedback(db, bookingId, rating, comment, newId).db.feedback)
  {
  }

  /** When every stored rating passed the check, the average a submission
      writes lies in [1, 5]. */
  lemma StoredAverageInRange(db: Db, bookingId: Id, rating: int, comment: string, newId: Id)
    requires ValidRatings(db.feedback)
    requires SubmitFeedback(db, bookingId, rating, comment, newId).reply.FeedbackSubmitted?
    ensures
      var after := SubmitFeedback(db, bookingId, rating, comment, newId).db;
      var driverId := Get(db.bookings, bookingId).value.driverId;
      var avg := Get(after.vehicleDetails, driverId).value.averageRating.value;
      1.0 <= avg <= 5.0
  {
    var after := SubmitFeedback(db, bookingId, rating, comment, newId).db;
    var rows := FeedbackFor(after.feedback, bookingId);
    assert ValidRatings(rows) by {
      forall i | 0 <= i < |rows| ensures 1 <= rows[i].data.rating <= 5 {
        var j :| 0 <= j < |after.feedback| && after.feedback[j] == rows[i];
      }
    }
    AverageInRange(rows);
  }

  datatype FeedbackListing =
    | FeedbackList(feedback: Collection<Feedback>)
    | FeedbackListBookingNotFound

  function GetFeedbackForBooking(db: Db, bookingId: Id): (r: FeedbackListing)
    ensures r.FeedbackListBookingNotFound? <==> bookingId !in Ids(db.bookings)
    ensures r.FeedbackList? ==>
              forall d :: Occurrences(r.feedback, d) == if d.data.bookingId == bookingId then Occurrences(db.feedback, d) else 0
  {
    if Get(db.bookings, bookingId).None? then FeedbackListBookingNotFound
    else
      var rows := FeedbackFor(db.feedback, bookingId);
      assert forall d :: Occurrences(rows, d) == if d.data.bookingId == bookingId then Occurrences(db.feedback, d) else 0 by {
        forall d {
          SelectCount(db.feedback, ForBooking(bookingId), d);
        }
      }
      FeedbackList(rows)
  }

  /** Accepted feedback is listed for its booking, after the rows that were
      there before in the model's append order. */
  lemma SubmitThenListed(db: Db, bookingId: Id, rating: int, comment: string, newId: Id)
    requires SubmitFeedback(db, bookingId, rating, comment, newId).reply.FeedbackSubmitted?
    ensures
      var after := SubmitFeedback(db, bookingId, rating, comment, newId).db;
      GetFeedbackForBooking(after, bookingId)
        == FeedbackList(FeedbackFor(db.feedback, bookingId) + [Doc(newId, Feedback(bookingId, rating, comment))])
  {
    FeedbackForAppend(db.feedback, Doc(newId, Feedback(bookingId, rating, comment)), bookingId);
  }
}
