/** The driver controller.  It works on the `rides` collection: a driver's
    earnings over completed rides, the rides still waiting for an answer,
    reading one ride, and accepting or declining it. */
module Rides {
  import opened Store
  import opened Records

  function CompletedFor(driverId: Id): Ride -> bool
  {
    (x: Ride) => x.driverId == driverId && x.status == Completed
  }

  function RequestedFor(driverId: Id): Ride -> bool
  {
    (x: Ride) => x.driverId == driverId && x.status == Requested
  }

  /** The driver's completed rides, in store order. */
  function CompletedRides(rides: Collection<Ride>, driverId: Id): Collection<Ride>
  {
    Select(rides, CompletedFor(driverId))
  }

  function Fare(x: Ride): int
  {
    x.fare
  }

  datatype EarningsReply =
    | Earnings(driverId: Id, totalEarnings: int)
    | NoEarnings
  {
    function Status(): int
    {
      if Earnings? then 200 else 404
    }
  }

  /** The ride is one of the driver's completed rides. */
  predicate CompletedBy(x: Ride, driverId: Id)
  {
    x.driverId == driverId && x.status == Completed
  }

  /** The running total of one pass: each ride adds its fare if it is one
      of the driver's completed rides. */
  function RunningTotal(rides: Collection<Ride>, driverId: Id): int
  {
    if |rides| == 0 then 0
    else
      var last := rides[|rides| - 1].data;
      RunningTotal(rides[..|rides| - 1], driverId) + (if CompletedBy(last, driverId) then last.fare else 0)
  }

  /** The running total equals the sum of fares over the completed-rides
      query. */
  lemma {:induction false} RunningTotalIsQuerySum(rides: Collection<Ride>, driverId: Id)
    ensures RunningTotal(rides, driverId) == SumOf(CompletedRides(rides, driverId), Fare)
  {
    if |rides| > 0 {
      var init := rides[..|rides| - 1];
      var last := rides[|rides| - 1];
      assert rides == init + [last];
      var before := CompletedRides(init, driverId);
      RunningTotalIsQuerySum(init, driverId);
      SelectAppend(init, last, CompletedFor(driverId));
      if CompletedBy(last.data, driverId) {
        assert CompletedRides(rides, driverId) == before + [last];
        SumOfAppend(before, last, Fare);
      } else {
        assert CompletedRides(rides, driverId) == before;
      }
    }
  }

  /** One pass over the rides, adding up the fares of the driver's
      completed ones; no completed ride is answered with 404, not with a
      total of 0. */
  method GetDriverEarnings(db: Db, driverId: Id) returns (r: EarningsReply)
    ensures r.NoEarnings? <==> forall j :: 0 <= j < |db.rides| ==> !CompletedBy(db.rides[j].data, driverId)
    ensures r.Earnings? ==>
              r.driverId == driverId && r.totalEarnings == SumOf(CompletedRides(db.rides, driverId), Fare)
  {
    var rides := db.rides;
    var total := 0;
    var found := false;
    var i := 0;
    while i < |rides|
      invariant 0 <= i <= |rides|
      invariant total == RunningTotal(rides[..i], driverId)
      invariant found <==> exists j :: 0 <= j < i && CompletedBy(rides[j].data, driverId)
    {
      assert rides[..i + 1][..i] == rides[..i];
      var ride := rides[i].data;
      if ride.driverId == driverId && ride.status == Completed {
        total := total + ride.fare;
        found := true;
      }
      i := i + 1;
    }
    assert rides[..|rides|] == rides;
    RunningTotalIsQuerySum(rides, driverId);
    if !found {
      return NoEarnings;
    }
    return Earnings(driverId, total);
  }

  datatype RequestsReply =
    | RideRequests(requests: Collection<Ride>)
    | NoRideRequests
  {
    function Status(): int
    {
      if RideRequests? then 200 else 404
    }
  }

  /** The driver's rides still waiting for an answer, each listed as many
      times as it is stored. */
  function ReceiveRideRequest(db: Db, driverId: Id): (r: RequestsReply)
    ensures r.NoRideRequests? <==>
              forall j :: 0 <= j < |db.rides| ==> !(db.rides[j].data.driverId == driverId && db.rides[j].data.status == Requested)
    ensures r.RideRequests? ==>
              forall d :: Occurrences(r.requests, d) ==
                if d.data.driverId == driverId && d.data.status == Requested then Occurrences(db.rides, d) else 0
  {
    SelectEmpty(db.rides, RequestedFor(driverId));
    var found := Select(db.rides, RequestedFor(driverId));
    assert forall d :: Occurrences(found, d) ==
             if d.data.driverId == driverId && d.data.status == Requested then Occurrences(db.rides, d) else 0 by {
      forall d {
        SelectCount(db.rides, RequestedFor(driverId), d);
      }
    }
    if |found| == 0 then NoRideRequests else RideRequests(found)
  }

  datatype TrackReply =
    | RideFound(ride: Doc<Ride>)
    | RideNotFound
  {
    function Status(): int
    {
      if RideFound? then 200 else 404
    }
  }

  /** The ride as the driver may see it: present and owned by them. */
  predicate OwnedBy(rides: Collection<Ride>, driverId: Id, rideId: Id)
  {
    Get(rides, rideId).Some? && Get(rides, rideId).value.driverId == driverId
  }

  function TrackRideStatus(db: Db, driverId: Id, rideId: Id): (r: TrackReply)
    ensures r.RideNotFound? <==> rideId !in Ids(db.rides) || Get(db.rides, rideId).value.driverId != driverId
    ensures r.RideFound? ==> r.ride.id == rideId && r.ride in db.rides && r.ride.data.driverId == driverId
  {
    if OwnedBy(db.rides, driverId, rideId) then RideFound(Doc(rideId, Get(db.rides, rideId).value))
    else RideNotFound
  }

  datatype RespondReply =
    | Responded(response: string)
    | RespondRideNotFound
    | InvalidResponse
  {
    function Status(): int
    {
      match this
      case Responded(_) => 200
      case RespondRideNotFound => 404
      case InvalidResponse => 400
    }

    function Message(): string
    {
      match this
      case Responded(response) => "Ride " + response + "ed successfully"
      case RespondRideNotFound => "Ride not found"
      case InvalidResponse => "Invalid response"
    }
  }

  /** The status a driver's answer writes, if it is one of the two the
      endpoint understands. */
  function StatusFor(response: string): Option<string>
  {
    if response == "accept" then Some(Accepted)
    else if response == "decline" then Some(Declined)
    else None
  }

  function SetStatus(status: string): Ride -> Ride
  {
    (x: Ride) => x.(status := status)
  }

  /** The ride's current status is not consulted: any owned ride can be
      answered, whatever state it is in. */
  function RespondToRideRequest(db: Db, driverId: Id, rideId: Id, response: string): (r: Step<RespondReply>)
    ensures !OwnedBy(db.rides, driverId, rideId) ==> r == Step(RespondRideNotFound, db)
    ensures OwnedBy(db.rides, driverId, rideId) && StatusFor(response).None? ==> r == Step(InvalidResponse, db)
    ensures r.reply.Responded? <==> OwnedBy(db.rides, driverId, rideId) && (response == "accept" || response == "decline")
    ensures r.reply.Responded? ==>
              && r.reply.response == response
              && Get(r.db.rides, rideId) == Some(Get(db.rides, rideId).value.(status := StatusFor(response).value))
              && (response == "accept" ==> Get(r.db.rides, rideId).value.status == Accepted)
              && (response == "decline" ==> Get(r.db.rides, rideId).value.status == Declined)
    ensures r.db == db.(rides := r.db.rides)
    ensures |r.db.rides| == |db.rides|
    ensures forall i :: 0 <= i < |db.rides| ==> r.db.rides[i].id == db.rides[i].id
    ensures forall i :: 0 <= i < |db.rides| && db.rides[i].id != rideId ==> r.db.rides[i] == db.rides[i]
    ensures forall k :: k != rideId ==> Get(r.db.rides, k) == Get(db.rides, k)
  {
    var rides := db.rides;
    if !OwnedBy(rides, driverId, rideId) then Step(RespondRideNotFound, db)
    else match StatusFor(response)
      case None => Step(InvalidResponse, db)
      case Some(status) =>
        var updated := Modify(rides, rideId, SetStatus(status));
        assert forall k :: Get(updated, k) == if k != rideId then Get(rides, k)
                 else Some(SetStatus(status)(Get(rides, rideId).value)) by {
          forall k {
            GetModify(rides, rideId, SetStatus(status), k);
          }
        }
        Step(Responded(response), db.(rides := updated))
  }

  /** Answering the same way twice has the effect of answering once. */
  lemma RespondIdempotent(db: Db, driverId: Id, rideId: Id, response: string)
    ensures
      var once := RespondToRideRequest(db, driverId, rideId, response);
      RespondToRideRequest(once.db, driverId, rideId, response) == once
  {
    var once := RespondToRideRequest(db, driverId, rideId, response);
    if once.reply.Responded? {
      var status := StatusFor(response).value;
      var twice := Modify(once.db.rides, rideId, SetStatus(status));
      assert twice == once.db.rides;
    }
  }

  /** After a successful answer, tracking the ride shows it to the same
      driver with the status the answer wrote. */
  lemma RespondThenTrack(db: Db, driverId: Id, rideId: Id, response: string)
    requires RespondToRideRequest(db, driverId, rideId, response).reply.Responded?
    ensures
      var after := RespondToRideRequest(db, driverId, rideId, response).db;
      var tracked := TrackRideStatus(after, driverId, rideId);
      && tracked.RideFound?
      && tracked.ride.data == Get(db.rides, rideId).value.(status := StatusFor(response).value)
      && (tracked.ride.data.status == Accepted || tracked.ride.data.status == Declined)
  {
  }

  /** An answered ride is no longer among the driver's ride requests:
      every document carrying its id now holds the answered status. */
  lemma RespondRemovesRequest(db: Db, driverId: Id, rideId: Id, response: string)
    requires RespondToRideRequest(db, driverId, rideId, response).reply.Responded?
    ensures
      var after := RespondToRideRequest(db, driverId, rideId, response).db;
      var pending := ReceiveRideRequest(after, driverId);
      pending.RideRequests? ==> forall i :: 0 <= i < |pending.requests| ==> pending.requests[i].id != rideId
  {
    var after := RespondToRideRequest(db, driverId, rideId, response).db;
    var status := StatusFor(response).value;
    assert after.rides == Modify(db.rides, rideId, SetStatus(status));
    AnsweredNotRequested(db.rides, driverId, rideId, status);
    var pending := ReceiveRideRequest(after, driverId);
    assert pending.RideRequests? ==> pending.requests == Select(after.rides, RequestedFor(driverId));
  }

  /** Once every document carrying `rideId` holds a status other than
      requested, no query for requested rides returns that id. */
  lemma AnsweredNotRequested(rides: Collection<Ride>, driverId: Id, rideId: Id, status: string)
    requires status != Requested
    ensures
      var found := Select(Modify(rides, rideId, SetStatus(status)), RequestedFor(driverId));
      forall i :: 0 <= i < |found| ==> found[i].id != rideId
  {
    var updated := Modify(rides, rideId, SetStatus(status));
    var found := Select(updated, RequestedFor(driverId));
    forall i | 0 <= i < |found| ensures found[i].id != rideId {
      var j :| 0 <= j < |updated| && updated[j] == found[i];
      assert found[i].data.status == Requested;
    }
  }

  /** With unique ride ids, one driver's answer leaves every other
      driver's completed rides, and so their earnings, as they were. */
  lemma RespondKeepsOtherEarnings(db: Db, driverId: Id, rideId: Id, response: string, other: Id)
    requires UniqueIds(db.rides)
    requires other != driverId
    ensures CompletedRides(RespondToRideRequest(db, driverId, rideId, response).db.rides, other)
              == CompletedRides(db.rides, other)
  {
    var r := RespondToRideRequest(db, driverId, rideId, response);
    if r.reply.Responded? {
      var rides := db.rides;
      var status := StatusFor(response).value;
      forall i | 0 <= i < |rides| && rides[i].id == rideId
        ensures rides[i].data.driverId == driverId
      {
        GetUnique(rides, rides[i]);
      }
      SelectModifyUnmatched(rides, rideId, SetStatus(status), CompletedFor(other));
    }
  }
}
