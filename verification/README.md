# Ride-hailing backend: booking, driver, OTP and auth decision logic in Dafny

This project models the decision logic of a small ride-hailing backend:

- the booking controller: booking creation behind the one-active-booking guard, booking reads and queries, and feedback with the per-booking average rating;
- the driver controller: earnings, pending ride requests, ride tracking, and accepting or declining a ride;
- the OTP helper: its in-memory map from a provider request id to `{phone, prefix}`;
- the authentication controller: signup, login, OTP verification and resend.

The document store is one immutable value, `Records.Db`. It holds one collection per store collection. A collection is the sequence of its documents, each with its id (`Store.Collection`); the model places a new document last, so "store order" below means this append order, not the document-id order in which the store answers an unordered query. Store reads become `Store.Get` (read by id) and `Store.Select` (equality-filtered query). Store writes become appends, `Store.Modify` (update) and `Store.Put` (whole-document set).

Every operation is a pure function that returns its reply together with the new state. Booking and driver operations take the store and return a `Records.Step` (reply and store). The OTP helper works on its map alone, and the auth operations on a `World`: the store together with that map. The SMS-OTP provider, the identity provider and the token minter are not called. Their answers are parameters:

- `SendOutcome`, `VerifyOutcome` and `ResendOutcome` for the OTP provider;
- `IdentityOutcome` and `MintOutcome` for the identity provider.

Each operation also reports the outside calls it made: `OtpStep.call` in the OTP module and `AuthStep.effects` in the auth module. Store-generated ids (`newId`, `uid`) are parameters too.

Modules: `Store` (store.dfy), `Records` (records.dfy), `Bookings` (bookings.dfy), `Rides` (rides.dfy), `OtpSessions` (otp.dfy), `Auth` (auth.dfy).

## Behaviour of the code worth knowing

- **The booking guard is never armed by the booking flow.** Booking creation reads the rider's `bookingStatus` side field. None of the controllers modelled here writes it; only a client can, through the profile update (`controllers/userController.js:4-16`). So a second booking request right after a confirmed one is confirmed too (`Bookings.CreateLeavesGuardOpen`). The field is an input of the model.
- **Driver endpoints use `rides`, not `bookings`.**
- **Ride answers ignore the current status.** Accepting or declining checks ownership only. Any owned ride can be answered whatever its status, including a completed one.
- **The average rating covers one booking.** It is taken over that booking's feedback rows only and written to `vehicleDetails`, not to `drivers`.
- **Feedback can be stored without an average.** When the driver has no `vehicleDetails` document, the update fails after the feedback row was added. The model returns `RatingUpdateFailed` with the row kept.
- **Signup and login answer 200 even when the OTP send fails.** The reply then carries no request id, and the created identity and profile stay (`Auth.SignupWithoutOtpAnswers200`).
- **The OTP request map is a plain object.** A lookup also finds the names every object inherits, such as `constructor` or `toString`, and `delete` cannot remove them. Such a request id is treated as stored by verify and resend, is never consumed, and can be verified successfully any number of times without a send (`OtpSessions.InheritedNameVerifiedWithoutIssue`). A provider request id `__proto__` replaces the map's prototype instead of adding an entry.
- **An OK verification answer whose body cannot be parsed answers "Invalid OTP".** The parse-error handler reads the already consumed body a second time, that read fails too, and the outer handler answers; the session is kept.
- **`verifyUserOTP` passes the code in the wrong slot.** It calls the three-argument verify helper with two arguments, so the code lands in the `prefix` slot and no code is sent (`VerifyCall(requestId, code, None)`). The prefix stored at send time is never used.
- **Verification reads a profile that may not exist.** After a successful verification it reads `docs[0]` without an emptiness check, so an unknown phone gives 500 with the session already consumed. The `if (!user)` 404 branch cannot be reached, and the model leaves it out.
- **The token is requested for the profile's own `uid` field.** Signup writes no such field, so a fresh rider's token is requested for an absent uid (`MintToken(None)`, `Auth.SignupThenVerifyMintsWithoutUid`); a client can add one through the profile update. Whether the identity provider accepts an absent uid is left to the `MintOutcome` parameter.

## Model

| member | source | states |
|---|---|---|
| Bookings.CreateBooking | controllers/bookingController.js:7-42 | Unknown user: "User not found", store unchanged. Side field pending/accepted: conflict, store unchanged. Confirmed exactly in the remaining case. Then exactly one booking is appended under the returned id, with the given fields and status pending. Nothing but `bookings` changes. |
| Bookings.CreateLeavesGuardOpen | controllers/bookingController.js:14-35 | A confirmed creation leaves the side field as it was, so the same request again is confirmed too. |
| Bookings.CreateThenGet | controllers/bookingController.js:18-62 | With a fresh non-empty id, the new booking reads back by that id with status pending. |
| Bookings.CreateThenListed | controllers/bookingController.js:104-139 | A confirmed booking appears in both its rider's and its driver's listing. |
| Bookings.GetBooking | controllers/bookingController.js:44-62 | Empty id exactly gives "Invalid bookingId". An absent id exactly gives "Booking not found". Otherwise the answer is a stored document carrying that id. |
| Bookings.GetBookingsByDriverId | controllers/bookingController.js:104-120 | Answers "No bookings found for this driver" exactly when no booking has this driverId. Otherwise each record with this driverId is listed exactly as many times as it is stored, and no other record is listed. |
| Bookings.GetBookingsByUserId | controllers/bookingController.js:123-139 | The same as the driver listing, for userId, with "No bookings found for this user". |
| Bookings.ListWhere | controllers/bookingController.js:106-115 | A filtered read answers its message exactly when nothing matches. Otherwise every listed record matches and is stored, every stored match is listed, and each matching record appears exactly as many times as it is stored. |
| Bookings.SubmitFeedback | controllers/bookingController.js:143-195 | A missing booking is reported before the rating is looked at. A rating outside [1,5] is refused with no write. Otherwise exactly one row is appended and that booking's row count grows by one. On success, the driver's `vehicleDetails` holds that booking's average and other documents are unchanged. The rating update fails exactly when the driver has no `vehicleDetails` document, with the row kept and `vehicleDetails` unchanged. Users, drivers, bookings and rides never change. |
| Bookings.AverageRating | controllers/bookingController.js:173-180 | The average times the row count equals the sum of the ratings. |
| Bookings.FeedbackForAppend | controllers/bookingController.js:167-173 | A new row is counted for its own booking only, after the existing rows in the model's append order. |
| Bookings.AverageInRange | controllers/bookingController.js:155-180 | The average of ratings that all lie in [1,5] lies in [1,5]. |
| Bookings.StoredAverageInRange | controllers/bookingController.js:155-189 | If every stored rating passed the check, the average a submission writes lies in [1,5]. |
| Bookings.SubmitKeepsRatingsValid | controllers/bookingController.js:154-167 | Submission keeps every stored rating within [1,5]. |
| Bookings.GetFeedbackForBooking | controllers/bookingController.js:197-222 | Unknown booking exactly gives "Booking not found". Otherwise each row of that booking appears exactly as many times as it is stored, and no other row appears. |
| Bookings.SubmitThenListed | controllers/bookingController.js:159-218 | Accepted feedback is listed for its booking, after the rows that were there before in the model's append order. |
| Rides.GetDriverEarnings | controllers/driverController.js:4-26 | 404 exactly when the driver has no completed ride, not a total of 0. Otherwise the total is the sum of fares over this driver's completed rides. |
| Rides.RunningTotalIsQuerySum | controllers/driverController.js:7-19 | The total a single pass accumulates equals the sum of fares over the query for this driver's completed rides. |
| Rides.ReceiveRideRequest | controllers/driverController.js:29-51 | 404 exactly when no ride is this driver's with status requested. Otherwise each such ride is listed with its id exactly as many times as it is stored, and no other ride is listed. |
| Rides.TrackRideStatus | controllers/driverController.js:54-67 | "Ride not found" exactly when the ride is absent or another driver's. Otherwise it returns the stored ride with its id. |
| Rides.RespondToRideRequest | controllers/driverController.js:70-92 | The ownership check comes first: on failure, 404 and no change for any response. 'accept' sets status accepted. 'decline' sets declined. Anything else gives 400 and no change. Only the named ride's status changes, and every other ride reads as before. |
| Rides.RespondIdempotent | controllers/driverController.js:79-82 | Answering the same way twice equals answering once, reply and rides. |
| Rides.RespondThenTrack | controllers/driverController.js:54-92 | After a successful answer, tracking the ride shows it to the same driver with the written status, accepted or declined, and its other fields as before. |
| Rides.RespondRemovesRequest | controllers/driverController.js:29-92 | After a successful answer, the ride is no longer among the driver's ride requests. |
| Rides.RespondKeepsOtherEarnings | controllers/driverController.js:75-82 | With unique ride ids, an answer by one driver leaves every other driver's completed rides unchanged. |
| OtpSessions.SendOTP | utils/otpHelper.js:12-46 | Empty phone: "Phone number is required", no provider call, map unchanged. Provider success: the issued id is found by later lookups, and the session is stored under it, overwriting any earlier one, unless the id is `__proto__`. Provider failure: "Internal Server Error", map unchanged. |
| OtpSessions.VerifyOTP | utils/otpHelper.js:12-99 | Lookup finds neither an own entry nor an inherited name: "Invalid requestId" with no provider call. Otherwise the provider is asked with the given prefix and code. "OTP is valid" exactly on a readable provider success, which alone deletes the own entry. A rejection returns the provider's text and keeps the session. No answer, or an unparsable one, gives "Invalid OTP". |
| OtpSessions.ResendOTP | utils/otpHelper.js:12-135 | Never changes the map. "Invalid requestId" exactly when the lookup finds nothing, with no provider call. Success is reported exactly on provider success. A rejection returns the provider's text, and any other failure "Failed to resend OTP". |
| OtpSessions.VerifyConsumesSession | utils/otpHelper.js:51-93 | After a successful verification of an id that is not an inherited name, verifying it again answers "Invalid requestId" without a provider call. |
| OtpSessions.RejectionAllowsRetry | utils/otpHelper.js:51-77 | After a rejected code, the same request id can still be verified. |
| OtpSessions.SuccessesBoundedByIssues | utils/otpHelper.js:12-93 | For an id that is not an inherited name, over any run of sends, verifies and resends: successes plus whether it is still stored never exceed the sends that issued it plus whether it was stored at the start. |
| OtpSessions.VerifiedAtMostOncePerIssue | utils/otpHelper.js:12-93 | From an empty map, an id that is not an inherited name is verified successfully at most once per send that issued it. |
| OtpSessions.InheritedNameVerifiedWithoutIssue | utils/otpHelper.js:12-93 | An inherited name such as `constructor` is verified successfully n times in a run of n confirmed verifications, with no send ever issuing it. |
| Auth.RegisterUser | controllers/authController.js:6-39 | A phone already among riders gives 400 with no outside call and no change. Otherwise the calls run in order: create the identity, write the profile under its uid, send the OTP. The profile reads back under the uid and other riders are unchanged. An identity failure gives 500 after the one call. |
| Auth.RegisterDriver | controllers/authController.js:42-79 | The same as rider signup, against `drivers` only. |
| Auth.LoginUser | controllers/authController.js:82-99 | Unknown phone: 404 with no OTP sent. Otherwise the OTP is sent and its request id returned. |
| Auth.VerifyUserOTP | controllers/authController.js:102-126 | A helper result other than "OTP is valid" gives 400 carrying that result, no change and no token request: "Invalid requestId" with no call, the provider's rejection text, or "Invalid OTP". The provider is asked with the code in the prefix slot and no code. A confirmed code consumes the session. Then an unknown phone gives 500; a known phone requests a token for the first matching profile's uid field and answers 200 with the minted token, or 500 if minting fails. 200 exactly in that last case. |
| Auth.FirstProfile | controllers/authController.js:113-114 | None exactly when no rider has the phone. Otherwise a stored profile with that phone, and no earlier profile in store order has it. |
| Auth.ResendUserOTP | controllers/authController.js:129-139 | Always 200 carrying exactly the helper's string, "Invalid requestId" included, and no change. A provider call is made exactly when the lookup finds the id. |
| Auth.RegisterUserOnce | controllers/authController.js:8-34 | After a successful rider signup, signing up the same phone again gives 400 with no outside call. |
| Auth.RegisterThenLogin | controllers/authController.js:22-96 | A rider who signed up can log in, and the login sends the OTP to their phone. |
| Auth.RegisterDriverIgnoresUsers | controllers/authController.js:44-50 | Driver signup answers the same whatever the rider collection holds. |
| Auth.SignupWithoutOtpAnswers200 | controllers/authController.js:15-33 | If the OTP send fails after identity creation, signup answers 200 with no request id and keeps the profile. |
| Auth.VerifyUserOTPReplay | controllers/authController.js:104-109 | Once a stored id that is not an inherited name was confirmed, replaying it gives 400 "Invalid requestId" with no outside call. |
| Auth.TokenOnlyAfterConfirmation | controllers/authController.js:104-120 | A token is requested only after a confirmed code for a known phone, exactly once, right after the single verify call, for the first matching profile's uid field. |
| Auth.SignupThenVerifyMintsWithoutUid | controllers/authController.js:24-120 | After a rider signup, a confirmed verification for that phone requests a token for an absent uid, since signup writes no uid field. |

## Left out

- The HTTP layer is not modelled: Express routing, request parsing and the rate-limiting middleware. Its window is a clock-driven quota.
- controllers/otpController.js is not part of this model, although the OTP routes import it.
- Firebase configuration and the profile-update controller are not modelled. The latter is a one-line merge write; the fields it can add to a rider profile, `uid` and `bookingStatus`, are inputs of the model.
- `getAllBookings`, `getAllUserBookings` and `getAllFeedback` are left out. They are unfiltered or duplicate reads outside the modelled core.
- `logout` is left out. It only answers a constant acknowledgement.
- Provider I/O is abstracted: HTTP requests, authorization headers, content-type checks and JSON parsing. Each provider round trip is one outcome parameter, which also says whether the answer's body could be read.
- Store failures are not modelled. The reads and writes the model performs always succeed, so the `catch` paths that turn a store exception into `err.message` or a 500 are absent. The one exception is the `vehicleDetails` update on a missing document.
- Firestore refuses an empty document path. `submitFeedback` and the driver endpoints treat an empty id as not found instead.
- Timestamps (`createdAt`, feedback `timestamp`) are omitted. So are the `toFixed(2)` string of the average, which is kept as an exact real, and console logging.
- Numbers are mathematical integers: fares, ratings and the earnings total. A non-integer rating such as 2.5 passes the source's check but cannot be expressed here. JavaScript floating-point sums are not modelled.
- Request fields that may be missing in JavaScript (`undefined` phone or ids) are modelled as strings. Only the empty string stands for a falsy value.
- Concurrency is not modelled. The check-then-act races in booking creation and rating recomputation cannot arise because each operation runs to completion.
- Bookings.SubmitKeepsRatingsValid: holds only because ratings are modelled as integers. The source's range check is a comparison, not a type check, so a string such as "4" or "abc", or a boolean, taken from the request body passes it and is stored.
- Bookings.StoredAverageInRange: holds only for numeric ratings. With string ratings the source's sum concatenates text ("4" then "2" gives "042") and the written average is not the mean; such ratings are not expressible in the model.
- OtpSessions.SuccessesBoundedByIssues: stated only for ids that are not inherited names, because the source gives no such bound for them (`OtpSessions.InheritedNameVerifiedWithoutIssue`); after a provider id `__proto__` has been issued, the source gives no bound for the ids `phone` and `prefix` either.
- OtpSessions.VerifiedAtMostOncePerIssue: stated only for ids that are not inherited names, for the same reason; after a provider id `__proto__` has been issued, the source gives no bound for the ids `phone` and `prefix` either.
- OtpSessions.SendOTP: a provider request id `__proto__` stores nothing in the model; the source's replacement of the map's prototype, which would also make `phone` and `prefix` findable ids, is not modelled.
- Bookings.SubmitThenListed: the new row's place after the earlier rows is the model's append order. The store answers the unordered feedback query by document id, and `add()` assigns a random id, so in the source the new row may be listed anywhere among that booking's rows; only its presence and the earlier rows' presence carry over.
- Bookings.FeedbackForAppend: "after the existing rows" is the model's append order, not the document-id order of the store's query answer.
- Auth.FirstProfile: "first in store order" is the model's append order. The store answers the unordered phone query by document id, so `docs[0]` is the matching profile with the least document id, which the model does not track.
