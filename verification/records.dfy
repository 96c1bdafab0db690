/** The records the controllers keep in the document store, and the store
    itself as one value holding every collection the controllers touch. */
module Records {
  import opened Store

  /** A rider profile in `users`.  `uid` is the profile's own `uid` field
      and `bookingStatus` the `status` of its `bookingStatus` side field,
      each None when absent.  The controllers modelled here read both and
      write neither; a client can set them through the profile update. */
  datatype User = User(
    phone: string,
    firstName: string,
    lastName: string,
    email: string,
    uid: Option<Id>,
    bookingStatus: Option<string>)

  /** A driver profile in `drivers`. */
  datatype Driver = Driver(
    phone: string,
    firstName: string,
    lastName: string,
    email: string,
    licenseNumber: string,
    numberPlate: string,
    vehicleType: string,
    color: string)

  /** A booking in `bookings`; `status` is the string stored in the field. */
  datatype Booking = Booking(
    userId: Id,
    driverId: Id,
    fare: int,
    pickupAddress: string,
    dropOffAddress: string,
    notes: string,
    status: string)

  /** A ride in `rides`, the collection the driver endpoints work on. */
  datatype Ride = Ride(driverId: Id, fare: int, status: string)

  /** One feedback row in `feedback`. */
  datatype Feedback = Feedback(bookingId: Id, rating: int, comment: string)

  /** A document of `vehicleDetails`, keyed by driver id; only the field the
      feedback path writes is modelled. */
  datatype VehicleDetails = VehicleDetails(averageRating: Option<real>)

  /** The whole document store. */
  datatype Db = Db(
    users: Collection<User>,
    drivers: Collection<Driver>,
    bookings: Collection<Booking>,
    rides: Collection<Ride>,
    feedback: Collection<Feedback>,
    vehicleDetails: Collection<VehicleDetails>)

  /** What an operation answers, together with the store after it. */
  datatype Step<+R> = Step(reply: R, db: Db)

  const Pending := "pending"
  const Accepted := "accepted"
  const Declined := "declined"
  const Completed := "completed"
  const Requested := "requested"
}
