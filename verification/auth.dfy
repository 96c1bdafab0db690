/** The authentication controller: rider and driver signup, rider login,
    OTP verification ending in a custom token, and OTP resend.  The
    identity provider's and the token minter's answers are parameters;
    every call made outside the document store is reported, in order, as
    an effect. */
module Auth {
  import opened Store
  import opened Records
  import opened OtpSessions

  /** The document store together with the OTP helper's session map. */
  datatype World = World(db: Db, sessions: Sessions)

  /** The identity provider's answer to `createUser`. */
  datatype IdentityOutcome =
    | IdentityCreated(uid: Id)
    | IdentityRejected

  /** The identity provider's answer to `createCustomToken`. */
  datatype MintOutcome =
    | Minted(token: string)
    | MintRejected

  /** A call made outside the request's own reads. */
  datatype Effect =
    | CreateIdentity(phone: string, email: string, displayName: string)
    | WriteProfile(collection: string, uid: Id)
    | Provider(call: ProviderCall)
    | MintToken(tokenUid: Option<Id>)

  datatype Body =
    | Message(text: string)
    | RequestIdBody(requestId: Option<RequestId>)
    | TokenBody(token: string)

  datatype Response = Response(status: int, body: Body)

  datatype AuthStep = AuthStep(response: Response, world: World, effects: seq<Effect>)

  const InternalError := Response(500, Message("Internal Server Error"))

  function DisplayName(firstName: string, lastName: string): string
  {
    firstName + " " + lastName
  }

  function CallEffects(call: Option<ProviderCall>): seq<Effect>
  {
    if call.Some? then [Provider(call.value)] else []
  }

  /** `otpData.requestId`: the helper's messages are strings, which carry
      no such property. */
  function RequestIdOf(reply: SendReply): Option<RequestId>
  {
    if reply.OtpData? then Some(reply.requestId) else None
  }

  function UserPhone(phone: string): User -> bool
  {
    (u: User) => u.phone == phone
  }

  function DriverPhone(phone: string): Driver -> bool
  {
    (d: Driver) => d.phone == phone
  }

  /** Some stored rider has this phone. */
  predicate UserPhoneTaken(users: Collection<User>, phone: string)
  {
    exists j :: 0 <= j < |users| && users[j].data.phone == phone
  }

  /** Some stored driver has this phone. */
  predicate DriverPhoneTaken(drivers: Collection<Driver>, phone: string)
  {
    exists j :: 0 <= j < |drivers| && drivers[j].data.phone == phone
  }

  /** The rider profile a signup stores; no uid field is written. */
  function NewUser(phone: string, firstName: string, lastName: string, email: string): User
  {
    User(phone, firstName, lastName, email, None, None)
  }

  /** The first rider profile in store order with this phone: the
      document a phone query answers first. */
  function FirstProfile(users: Collection<User>, phone: string): (r: Option<User>)
    ensures r.None? <==> !UserPhoneTaken(users, phone)
    ensures r.Some? ==>
              && r.value.phone == phone
              && exists j :: 0 <= j < |users| && users[j].data == r.value
                               && forall k :: 0 <= k < j ==> users[k].data.phone != phone
  {
    if |users| == 0 then None
    else if users[0].data.phone == phone then Some(users[0].data)
    else
      var rest := FirstProfile(users[1..], phone);
      assert UserPhoneTaken(users, phone) <==> UserPhoneTaken(users[1..], phone) by {
        if UserPhoneTaken(users, phone) {
          var j :| 0 <= j < |users| && users[j].data.phone == phone;
          assert users[1..][j - 1] == users[j];
        }
        if UserPhoneTaken(users[1..], phone) {
          var j :| 0 <= j < |users[1..]| && users[1..][j].data.phone == phone;
          assert users[j + 1] == users[1..][j];
        }
      }
      if rest.Some? then
        var j :| 0 <= j < |users[1..]| && users[1..][j].data == rest.value
                 && forall k :: 0 <= k < j ==> users[1..][k].data.phone != phone;
        assert users[j + 1].data == rest.value;
        assert forall k :: 0 <= k < j + 1 ==> users[k].data.phone != phone by {
          forall k | 0 <= k < j + 1 ensures users[k].data.phone != phone {
            if k > 0 {
              assert users[k] == users[1..][k - 1];
            }
          }
        }
        rest
      else
        rest
  }

  function RegisterUser(w: World, phone: string, firstName: string, lastName: string, email: string,
                        identity: IdentityOutcome, otp: SendOutcome): (r: AuthStep)
    ensures UserPhoneTaken(w.db.users, phone) ==>
              r == AuthStep(Response(400, Message("User already registered")), w, [])
    ensures !UserPhoneTaken(w.db.users, phone) && identity.IdentityRejected? ==>
              r == AuthStep(InternalError, w, [CreateIdentity(phone, email, DisplayName(firstName, lastName))])
    ensures !UserPhoneTaken(w.db.users, phone) && identity.IdentityCreated? ==>
              var uid := identity.uid;
              var send := SendOTP(w.sessions, phone, otp);
              && r.response == Response(200, RequestIdBody(RequestIdOf(send.reply)))
              && r.world.db == w.db.(users := r.world.db.users)
              && Get(r.world.db.users, uid) == Some(NewUser(phone, firstName, lastName, email))
              && (forall k :: k != uid ==> Get(r.world.db.users, k) == Get(w.db.users, k))
              && r.world.sessions == send.sessions
              && r.effects == [CreateIdentity(phone, email, DisplayName(firstName, lastName)), WriteProfile("users", uid)]
                              + CallEffects(send.call)
  {
    SelectEmpty(w.db.users, UserPhone(phone));
    if |Select(w.db.users, UserPhone(phone))| > 0 then
      AuthStep(Response(400, Message("User already registered")), w, [])
    else
      var create := CreateIdentity(phone, email, DisplayName(firstName, lastName));
      match identity
      case IdentityRejected => AuthStep(InternalError, w, [create])
      case IdentityCreated(uid) =>
        var users := Put(w.db.users, uid, NewUser(phone, firstName, lastName, email));
        var send := SendOTP(w.sessions, phone, otp);
        AuthStep(Response(200, RequestIdBody(RequestIdOf(send.reply))),
                 World(w.db.(users := users), send.sessions),
                 [create, WriteProfile("users", uid)] + CallEffects(send.call))
  }

  function NewDriver(phone: string, firstName: string, lastName: string, email: string, licenseNumber: string,
                     numberPlate: string, vehicleType: string, color: string): Driver
  {
    Driver(phone, firstName, lastName, email, licenseNumber, numberPlate, vehicleType, color)
  }

  /** Only `drivers` is consulted: a phone registered as a rider does not
      block driver signup. */
  function RegisterDriver(w: World, phone: string, firstName: string, lastName: string, email: string,
                          licenseNumber: string, numberPlate: string, vehicleType: string, color: string,
                          identity: IdentityOutcome, otp: SendOutcome): (r: AuthStep)
    ensures DriverPhoneTaken(w.db.drivers, phone) ==>
              r == AuthStep(Response(400, Message("Driver already registered")), w, [])
    ensures !DriverPhoneTaken(w.db.drivers, phone) && identity.IdentityRejected? ==>
              r == AuthStep(InternalError, w, [CreateIdentity(phone, email, DisplayName(firstName, lastName))])
    ensures !DriverPhoneTaken(w.db.drivers, phone) && identity.IdentityCreated? ==>
              var uid := identity.uid;
              var send := SendOTP(w.sessions, phone, otp);
              && r.response == Response(200, RequestIdBody(RequestIdOf(send.reply)))
              && r.world.db == w.db.(drivers := r.world.db.drivers)
              && Get(r.world.db.drivers, uid)
                   == Some(NewDriver(phone, firstName, lastName, email, licenseNumber, numberPlate, vehicleType, color))
              && (forall k :: k != uid ==> Get(r.world.db.drivers, k) == Get(w.db.drivers, k))
              && r.world.sessions == send.sessions
              && r.effects == [CreateIdentity(phone, email, DisplayName(firstName, lastName)), WriteProfile("drivers", uid)]
                              + CallEffects(send.call)
  {
    SelectEmpty(w.db.drivers, DriverPhone(phone));
    if |Select(w.db.drivers, DriverPhone(phone))| > 0 then
      AuthStep(Response(400, Message("Driver already registered")), w, [])
    else
      var create := CreateIdentity(phone, email, DisplayName(firstName, lastName));
      match identity
      case IdentityRejected => AuthStep(InternalError, w, [create])
      case IdentityCreated(uid) =>
        var driver := NewDriver(phone, firstName, lastName, email, licenseNumber, numberPlate, vehicleType, color);
        var drivers := Put(w.db.drivers, uid, driver);
        var send := SendOTP(w.sessions, phone, otp);
        AuthStep(Response(200, RequestIdBody(RequestIdOf(send.reply))),
                 World(w.db.(drivers := drivers), send.sessions),
                 [create, WriteProfile("drivers", uid)] + CallEffects(send.call))
  }

  function LoginUser(w: World, phone: string, otp: SendOutcome): (r: AuthStep)
    ensures !UserPhoneTaken(w.db.users, phone) ==> r == AuthStep(Response(404, Message("User not found")), w, [])
    ensures UserPhoneTaken(w.db.users, phone) ==>
              var send := SendOTP(w.sessions, phone, otp);
              && r.response == Response(200, RequestIdBody(RequestIdOf(send.reply)))
              && r.world == w.(sessions := send.sessions)
              && r.effects == CallEffects(send.call)
  {
    SelectEmpty(w.db.users, UserPhone(phone));
    if |Select(w.db.users, UserPhone(phone))| == 0 then
      AuthStep(Response(404, Message("User not found")), w, [])
    else
      var send := SendOTP(w.sessions, phone, otp);
      AuthStep(Response(200, RequestIdBody(RequestIdOf(send.reply))), w.(sessions := send.sessions), CallEffects(send.call))
  }

  /** As written, the helper is called with two arguments, so the user's
      code fills the prefix slot and no code is sent.  The rider profile
      read back is the first match in store order; with no match, reading
      its fields throws and the answer is 500.  The token is requested for
      the profile's own `uid` field, absent unless a client wrote one. */
  function VerifyUserOTP(w: World, phone: string, requestId: RequestId, code: string,
                         verify: VerifyOutcome, mint: MintOutcome): (r: AuthStep)
    ensures !Known(w.sessions, requestId) ==>
              r == AuthStep(Response(400, Message(InvalidRequestId)), w, [])
    ensures Known(w.sessions, requestId) && verify.Refused? ==>
              r == AuthStep(Response(400, Message("Failed to verify OTP: " + verify.text)), w,
                            [Provider(VerifyCall(requestId, code, None))])
    ensures Known(w.sessions, requestId) && verify.Unreachable? ==>
              r == AuthStep(Response(400, Message("Invalid OTP")), w, [Provider(VerifyCall(requestId, code, None))])
    ensures Known(w.sessions, requestId) && verify.Confirmed? ==>
              r.world == w.(sessions := w.sessions - {requestId})
    ensures Known(w.sessions, requestId) && verify.Confirmed? && !UserPhoneTaken(w.db.users, phone) ==>
              r.response == InternalError && r.effects == [Provider(VerifyCall(requestId, code, None))]
    ensures Known(w.sessions, requestId) && verify.Confirmed? && UserPhoneTaken(w.db.users, phone) ==>
              && r.effects == [Provider(VerifyCall(requestId, code, None)), MintToken(FirstProfile(w.db.users, phone).value.uid)]
              && r.response == (if mint.Minted? then Response(200, TokenBody(mint.token)) else InternalError)
    ensures r.response.status == 200 <==>
              Known(w.sessions, requestId) && verify.Confirmed? && UserPhoneTaken(w.db.users, phone) && mint.Minted?
  {
    var v := VerifyOTP(w.sessions, requestId, code, None, verify);
    var after := w.(sessions := v.sessions);
    if v.reply != OtpIsValid then
      AuthStep(Response(400, Message(v.reply)), after, CallEffects(v.call))
    else
      match FirstProfile(w.db.users, phone)
      case None => AuthStep(InternalError, after, CallEffects(v.call))
      case Some(user) =>
        var effects := CallEffects(v.call) + [MintToken(user.uid)];
        match mint
        case Minted(token) => AuthStep(Response(200, TokenBody(token)), after, effects)
        case MintRejected => AuthStep(InternalError, after, effects)
  }

  /** Whatever the helper answers, including "Invalid requestId", is sent
      back with status 200. */
  function ResendUserOTP(w: World, requestId: RequestId, outcome: ResendOutcome): (r: AuthStep)
    ensures r.response == Response(200, Message(ResendOTP(w.sessions, requestId, outcome).reply))
    ensures r.world == w
    ensures !Known(w.sessions, requestId) ==> r == AuthStep(Response(200, Message(InvalidRequestId)), w, [])
    ensures Known(w.sessions, requestId) ==>
              && r.effects == [Provider(ResendCall(requestId))]
              && r.response.body != Message(InvalidRequestId)
    ensures r.response.body == Message(ResentSuccessfully) <==> Known(w.sessions, requestId) && outcome.Resent?
  {
    var resend := ResendOTP(w.sessions, requestId, outcome);
    AuthStep(Response(200, Message(resend.reply)), w, CallEffects(resend.call))
  }

  // ---------------------------------------------------------------------
  // Properties across calls

  /** A phone that has signed up as a rider is refused a second rider
      signup, before any outside call. */
  lemma RegisterUserOnce(w: World, phone: string, firstName: string, lastName: string, email: string,
                         identity: IdentityOutcome, otp: SendOutcome,
                         firstName2: string, lastName2: string, email2: string,
                         identity2: IdentityOutcome, otp2: SendOutcome)
    requires RegisterUser(w, phone, firstName, lastName, email, identity, otp).response.status == 200
    ensures
      var w1 := RegisterUser(w, phone, firstName, lastName, email, identity, otp).world;
      RegisterUser(w1, phone, firstName2, lastName2, email2, identity2, otp2)
        == AuthStep(Response(400, Message("User already registered")), w1, [])
  {
    var r := RegisterUser(w, phone, firstName, lastName, email, identity, otp);
    var profile := NewUser(phone, firstName, lastName, email);
    assert Doc(identity.uid, profile) in r.world.db.users;
    var j :| 0 <= j < |r.world.db.users| && r.world.db.users[j] == Doc(identity.uid, profile);
    assert r.world.db.users[j].data.phone == phone;
  }

  /** A rider who has signed up can log in: the login is not refused and
      reaches the OTP provider with the phone. */
  lemma RegisterThenLogin(w: World, phone: string, firstName: string, lastName: string, email: string,
                          identity: IdentityOutcome, otp: SendOutcome, otp2: SendOutcome)
    requires phone != ""
    requires RegisterUser(w, phone, firstName, lastName, email, identity, otp).response.status == 200
    ensures
      var w1 := RegisterUser(w, phone, firstName, lastName, email, identity, otp).world;
      var login := LoginUser(w1, phone, otp2);
      login.response.status == 200 && login.effects == [Provider(SendCall(phone))]
  {
    var r := RegisterUser(w, phone, firstName, lastName, email, identity, otp);
    var profile := NewUser(phone, firstName, lastName, email);
    assert Doc(identity.uid, profile) in r.world.db.users;
    var j :| 0 <= j < |r.world.db.users| && r.world.db.users[j] == Doc(identity.uid, profile);
    assert r.world.db.users[j].data.phone == phone;
  }

  /** When the OTP send fails after the identity and profile were created,
      signup still answers 200, with no request id; the created identity
      and profile stay. */
  lemma SignupWithoutOtpAnswers200(w: World, phone: string, firstName: string, lastName: string, email: string,
                                   uid: Id)
    requires phone != ""
    requires !UserPhoneTaken(w.db.users, phone)
    ensures
      var r := RegisterUser(w, phone, firstName, lastName, email, IdentityCreated(uid), SendFailed);
      && r.response == Response(200, RequestIdBody(None))
      && Get(r.world.db.users, uid) == Some(NewUser(phone, firstName, lastName, email))
      && r.world.sessions == w.sessions
  {
  }

  /** Driver signup answers the same whatever the rider collection holds. */
  lemma RegisterDriverIgnoresUsers(w: World, users: Collection<User>, phone: string, firstName: string,
                                   lastName: string, email: string, licenseNumber: string, numberPlate: string,
                                   vehicleType: string, color: string, identity: IdentityOutcome, otp: SendOutcome)
    ensures
      var r := RegisterDriver(w, phone, firstName, lastName, email, licenseNumber, numberPlate, vehicleType, color, identity, otp);
      var w2 := w.(db := w.db.(users := users));
      var r2 := RegisterDriver(w2, phone, firstName, lastName, email, licenseNumber, numberPlate, vehicleType, color, identity, otp);
      r2.response == r.response && r2.effects == r.effects && r2.world.db.drivers == r.world.db.drivers
  {
  }

  /** A verification that got past the provider consumes a request id that
      is not an inherited name: replaying it is refused with "Invalid
      requestId" and no outside call, whatever the provider would answer. */
  lemma VerifyUserOTPReplay(w: World, phone: string, requestId: RequestId, code: string,
                            mint: MintOutcome, phone2: string, code2: string, verify2: VerifyOutcome, mint2: MintOutcome)
    requires requestId in w.sessions && requestId !in InheritedNames
    ensures
      var w1 := VerifyUserOTP(w, phone, requestId, code, Confirmed, mint).world;
      VerifyUserOTP(w1, phone2, requestId, code2, verify2, mint2)
        == AuthStep(Response(400, Message(InvalidRequestId)), w1, [])
  {
  }

  /** A token is requested only after the provider confirmed the code for
      a phone with a profile, exactly once, right after the single verify
      call, and for that profile's own uid field. */
  lemma TokenOnlyAfterConfirmation(w: World, phone: string, requestId: RequestId, code: string,
                                   verify: VerifyOutcome, mint: MintOutcome)
    ensures
      var r := VerifyUserOTP(w, phone, requestId, code, verify, mint);
      (exists i :: 0 <= i < |r.effects| && r.effects[i].MintToken?) ==>
        && Known(w.sessions, requestId) && verify.Confirmed? && UserPhoneTaken(w.db.users, phone)
        && r.effects == [Provider(VerifyCall(requestId, code, None)), MintToken(FirstProfile(w.db.users, phone).value.uid)]
  {
    var r := VerifyUserOTP(w, phone, requestId, code, verify, mint);
    if exists i :: 0 <= i < |r.effects| && r.effects[i].MintToken? {
      var i :| 0 <= i < |r.effects| && r.effects[i].MintToken?;
      assert verify.Confirmed?;
    }
  }

  /** A rider who signed up and has not set a uid on their profile since
      is issued a token request for an absent uid. */
  lemma SignupThenVerifyMintsWithoutUid(w: World, phone: string, firstName: string, lastName: string,
                                        email: string, uid: Id, otp: SendOutcome,
                                        requestId: RequestId, code: string, mint: MintOutcome)
    requires !UserPhoneTaken(w.db.users, phone)
    ensures
      var w1 := RegisterUser(w, phone, firstName, lastName, email, IdentityCreated(uid), otp).world;
      var r := VerifyUserOTP(w1, phone, requestId, code, Confirmed, mint);
      Known(w1.sessions, requestId) ==> MintToken(None) in r.effects
  {
    var w1 := RegisterUser(w, phone, firstName, lastName, email, IdentityCreated(uid), otp).world;
    var profile := NewUser(phone, firstName, lastName, email);
    assert Doc(uid, profile) in w1.db.users;
    var j :| 0 <= j < |w1.db.users| && w1.db.users[j] == Doc(uid, profile);
    assert w1.db.users[j].data.phone == phone;
    var first := FirstProfile(w1.db.users, phone).value;
    var k :| 0 <= k < |w1.db.users| && w1.db.users[k].data == first
             && forall m :: 0 <= m < k ==> w1.db.users[m].data.phone != phone;
    assert w1.db.users == Put(w.db.users, uid, profile);
    PutDocs(w.db.users, uid, profile, k);
    assert first.uid == None;
  }
}
