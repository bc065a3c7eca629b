/** The account, listing and booking rules of the HTTP handlers in
    api/index.js, as a sequential store: a user table keyed by email, the
    places in the order they were created, and the bookings in the order they
    were made. Password hashing and token signing are supplied from outside
    as uninterpreted functions (`Libraries`). */
module Api {
  import opened Common
  import opened BookingModel

  type Digest = string
  type Token = string

  /** The bcrypt cost factor the registration handler hashes with. */
  const BcryptCost: nat := 12

  /** The libraries the handlers call, given to the store when it is built:
      bcrypt's `hash` and `compare`, and jsonwebtoken's `sign` and `verify`
      with the application's secret already applied. `verify` yields the
      claims of a good token and `None` for any token it rejects. */
  datatype Libraries = Libraries(
    hash: (string, nat) -> Digest,
    compare: (string, Digest) -> bool,
    sign: Claims -> Token,
    verify: Token -> Option<Claims>)

  /** A user document; `password` holds the bcrypt digest. */
  datatype User = User(id: ObjectId, name: string, email: string, password: Digest)

  /** The payload of a session token. */
  datatype Claims = Claims(email: string, id: ObjectId)

  /** The ten listing fields that a create or an update request gives and
      writes. The request body calls the photo list `addedPhotos`; the place
      stores it as `photos`. */
  datatype PlaceDetails = PlaceDetails(
    title: string, address: string, photos: seq<string>, description: string,
    perks: seq<string>, extraInfo: string, checkIn: int, checkOut: int,
    maxGuests: int, price: int)

  /** A place document. */
  datatype Place = Place(id: ObjectId, owner: ObjectId, details: PlaceDetails)

  /** The fields of a booking request body that the handler reads. */
  datatype BookingForm = BookingForm(
    place: Option<ObjectId>, checkIn: Option<Date>, checkOut: Option<Date>,
    numberOfGuests: Option<int>, name: Option<string>, phone: Option<string>,
    price: Option<int>)

  /** A booking as the bookings query returns it, with its place populated
      (`None` where the referenced place does not exist). */
  datatype BookingView = BookingView(booking: Booking, place: Option<Place>)

  datatype RegisterOutcome = InvalidRegistration | AlreadyRegistered | Registered(user: User)
  {
    /** The HTTP status of the reply. */
    function Status(): int
    {
      if Registered? then 201 else 401
    }
  }

  datatype LoginOutcome = InvalidLogin | UnknownEmail | WrongPassword | LoggedIn(user: User, claims: Claims, token: Token)
  {
    /** The HTTP status of the reply. */
    function Status(): int
    {
      match this
      case InvalidLogin => 401
      case UnknownEmail => 404
      case WrongPassword => 401
      case LoggedIn(_, _, _) => 200
    }
  }

  /** Token rejected (the handler throws inside its callback and never
      replies), or the place that was created. */
  datatype CreatePlaceOutcome = CreateUnauthenticated | PlaceCreated(place: Place)
  {
    /** The HTTP status of the reply, or `None` when the handler sends none;
        `res.json` replies with the default 200. */
    function Reply(): Option<int>
    {
      if PlaceCreated? then Some(200) else None
    }
  }

  /** Only `Updated` is answered (with "ok"); for the others the handler
      sends nothing. */
  datatype UpdatePlaceOutcome = UpdateUnauthenticated | PlaceNotFound | NotOwner | Updated
  {
    /** The HTTP status of the reply, or `None` when the handler sends none. */
    function Reply(): Option<int>
    {
      if Updated? then Some(200) else None
    }
  }

  /** A rejected token, a record the schema refuses, or the stored booking. */
  datatype BookingOutcome = BookingUnauthenticated | BookingRejected | Booked(booking: Booking)
  {
    /** The HTTP status of the reply, or `None` when the handler sends none: a
        refused record is rethrown from the promise's `catch` and never answered. */
    function Reply(): Option<int>
    {
      if Booked? then Some(200) else None
    }
  }

  /** The record a booking request asks to create: the request's fields, with
      `user` taken from the token. `numberOfGuests` has no path in the schema
      and is not kept. */
  function BookingFor(form: BookingForm, user: ObjectId): (r: Booking)
    ensures r.user == Some(user)
    ensures Conforms(r) <==>
      && form.place.Some? && form.checkIn.Some? && form.checkOut.Some?
      && !Blank(form.name) && !Blank(form.phone)
  {
    ConformsIff(Booking(form.place, Some(user), form.checkIn, form.checkOut, form.name, form.phone, form.price));
    Booking(form.place, Some(user), form.checkIn, form.checkOut, form.name, form.phone, form.price)
  }

  /** `Place.find({owner: id})`. */
  function PlacesOf(places: seq<Place>, owner: ObjectId): seq<Place>
  {
    Filter(places, (p: Place) => p.owner == owner)
  }

  /** `Booking.find({user: id})`. */
  function BookingsOf(bookings: seq<Booking>, user: ObjectId): seq<Booking>
  {
    Filter(bookings, (b: Booking) => b.user == Some(user))
  }

  /** The owner's query returns exactly the places with that owner. */
  lemma PlacesOfExactly(places: seq<Place>, owner: ObjectId)
    ensures forall p :: p in PlacesOf(places, owner) <==> p in places && p.owner == owner
  {
  }

  /** The user's query returns exactly that user's bookings, each as many
      times as it is stored. */
  lemma BookingsOfExactly(bookings: seq<Booking>, user: ObjectId, b: Booking)
    ensures multiset(BookingsOf(bookings, user))[b] == if b.user == Some(user) then multiset(bookings)[b] else 0
  {
    FilterCount(bookings, (b: Booking) => b.user == Some(user), b);
  }

  /** A new booking shows up in its own user's query, at the end, and in no other. */
  lemma BookingsOfAfterBooking(bookings: seq<Booking>, b: Booking, user: ObjectId)
    ensures BookingsOf(bookings + [b], user) ==
      if b.user == Some(user) then BookingsOf(bookings, user) + [b] else BookingsOf(bookings, user)
  {
    var keep := (b: Booking) => b.user == Some(user);
    FilterAppend(bookings, [b], keep);
    assert Filter([b], keep) == if keep(b) then [b] else [];
  }

  /** `Place.findById(id)`: the position of the first place with that id. */
  function FindPlace(places: seq<Place>, id: ObjectId): (r: Option<nat>)
    ensures r.Some? ==> r.value < |places| && places[r.value].id == id
    ensures r.Some? ==> forall j :: 0 <= j < r.value ==> places[j].id != id
    ensures r.None? ==> forall j :: 0 <= j < |places| ==> places[j].id != id
  {
    if places == [] then None
    else if places[0].id == id then Some(0)
    else
      match FindPlace(places[1..], id)
      case None => None
      case Some(k) => Some(k + 1)
  }

  /** What `populate('place')` puts in a booking's place path. */
  function Populate(places: seq<Place>, ref: Option<ObjectId>): (r: Option<Place>)
    ensures r.Some? ==> r.value in places && ref == Some(r.value.id)
    ensures r.None? ==> ref.None? || forall p :: p in places ==> p.id != ref.value
  {
    if ref.None? then None
    else
      match FindPlace(places, ref.value)
      case None => None
      case Some(i) => Some(places[i])
  }

  /** The login handler: the email and password must both be given, the email
      must belong to a user, and the password must match that user's digest;
      then a token is signed whose claims are the user's email and id. */
  function Login(libs: Libraries, users: map<string, User>, email: Option<string>, password: Option<string>): (r: LoginOutcome)
    ensures r == InvalidLogin <==> Blank(email) || Blank(password)
    ensures r == UnknownEmail <==> !Blank(email) && !Blank(password) && email.value !in users
    ensures r.LoggedIn? <==>
      && !Blank(email) && !Blank(password) && email.value in users
      && libs.compare(password.value, users[email.value].password)
    ensures r.LoggedIn? ==>
      && r.user == users[email.value]
      && r.claims == Claims(r.user.email, r.user.id)
      && r.token == libs.sign(r.claims)
  {
    if Blank(email) || Blank(password) then InvalidLogin
    else if email.value !in users then UnknownEmail
    else
      var user := users[email.value];
      if !libs.compare(password.value, user.password) then WrongPassword
      else
        var claims := Claims(user.email, user.id);
        LoggedIn(user, claims, libs.sign(claims))
  }

  /** What the login handler does as written: the replies it sends, whether it
      then faults, and the token it sets. */
  datatype LoginRun = LoginRun(replies: seq<int>, fault: bool, token: Option<Token>)

  /** The login handler as written: for an unknown email it sends the 404
      reply but does not return, and then reads the password of the missing
      document, which throws. */
  function LoginAsWritten(libs: Libraries, users: map<string, User>, email: Option<string>, password: Option<string>): (r: LoginRun)
    ensures |r.replies| == 1
    ensures r.fault <==> !Blank(email) && !Blank(password) && email.value !in users
    ensures r.token.Some? <==> r.replies == [200]
  {
    if Blank(email) || Blank(password) then LoginRun([401], false, None)
    else if email.value !in users then LoginRun([404], true, None)
    else
      var user := users[email.value];
      if !libs.compare(password.value, user.password) then LoginRun([401], false, None)
      else LoginRun([200], false, Some(libs.sign(Claims(user.email, user.id))))
  }

  /** An unknown email makes the handler as written fault after its reply. */
  lemma LoginAsWrittenFaults(libs: Libraries, users: map<string, User>, email: Option<string>, password: Option<string>)
    requires !Blank(email) && !Blank(password) && email.value !in users
    ensures LoginAsWritten(libs, users, email, password) == LoginRun([404], true, None)
  {
  }

  /** The handler as written and `Login` send the same single reply and set
      the same token; they differ only in the fault after an unknown email. */
  lemma LoginAsWrittenAgrees(libs: Libraries, users: map<string, User>, email: Option<string>, password: Option<string>)
    ensures var run, r := LoginAsWritten(libs, users, email, password), Login(libs, users, email, password);
      && run.replies == [r.Status()]
      && run.token == (if r.LoggedIn? then Some(r.token) else None)
      && (run.fault <==> r == UnknownEmail)
  {
  }

  /** The places query of the token's user; `None` when the token is
      rejected (the handler then throws and never replies). */
  function UserPlaces(libs: Libraries, places: seq<Place>, token: Token): (r: Option<seq<Place>>)
    ensures r.Some? <==> libs.verify(token).Some?
    ensures r.Some? ==> forall p :: p in r.value <==> p in places && p.owner == libs.verify(token).value.id
  {
    match libs.verify(token)
    case None => None
    case Some(claims) =>
      PlacesOfExactly(places, claims.id);
      Some(PlacesOf(places, claims.id))
  }

  /** The bookings shown in a list of views, in order. */
  function ViewedBookings(views: seq<BookingView>): seq<Booking>
  {
    seq(|views|, i requires 0 <= i < |views| => views[i].booking)
  }

  /** `BookingsOfExactly` for every booking at once. */
  lemma BookingsOfCounts(bookings: seq<Booking>, user: ObjectId)
    ensures forall b :: multiset(BookingsOf(bookings, user))[b] == if b.user == Some(user) then multiset(bookings)[b] else 0
  {
    forall b {
      BookingsOfExactly(bookings, user, b);
    }
  }

  /** The bookings query of the token's user, each with its place populated;
      `None` when the token is rejected. Every booking shown is the caller's,
      each of the caller's stored bookings is shown as often as it is stored,
      and the bookings keep their stored order. */
  function UserBookings(libs: Libraries, places: seq<Place>, bookings: seq<Booking>, token: Token): (r: Option<seq<BookingView>>)
    ensures r.Some? <==> libs.verify(token).Some?
    ensures r.Some? ==> forall i :: 0 <= i < |r.value| ==>
      && r.value[i].booking in bookings
      && r.value[i].booking.user == Some(libs.verify(token).value.id)
      && r.value[i].place == Populate(places, r.value[i].booking.place)
    ensures r.Some? ==> forall b ::
      multiset(ViewedBookings(r.value))[b] == if b.user == Some(libs.verify(token).value.id) then multiset(bookings)[b] else 0
    ensures r.Some? ==> ViewedBookings(r.value) == BookingsOf(bookings, libs.verify(token).value.id)
  {
    match libs.verify(token)
    case None => None
    case Some(claims) =>
      var mine := BookingsOf(bookings, claims.id);
      var views := seq(|mine|, i requires 0 <= i < |mine| => BookingView(mine[i], Populate(places, mine[i].place)));
      assert ViewedBookings(views) == mine;
      BookingsOfCounts(bookings, claims.id);
      Some(views)
  }

  /** The in-memory database the handlers act on. */
  class Store {
    const libs: Libraries
    var users: map<string, User>
    var places: seq<Place>
    var bookings: seq<Booking>
    /** The next id to hand out; every id in use is below it. */
    var nextId: ObjectId

    /** Each user is filed under its own email, ids are unique and below
        `nextId`, and every stored booking passed the schema. */
    ghost predicate Valid()
      reads this
    {
      && (forall e :: e in users ==> users[e].email == e && users[e].id < nextId)
      && (forall e, f :: e in users && f in users && users[e].id == users[f].id ==> e == f)
      && (forall i :: 0 <= i < |places| ==> places[i].id < nextId)
      && (forall i, j :: 0 <= i < |places| && 0 <= j < |places| && places[i].id == places[j].id ==> i == j)
      && (forall i :: 0 <= i < |bookings| ==> Conforms(bookings[i]))
    }

    constructor (libs: Libraries)
      ensures Valid()
      ensures this.libs == libs && users == map[] && places == [] && bookings == []
    {
      this.libs := libs;
      users, places, bookings, nextId := map[], [], [], 0;
    }

    /** POST /register: name, email and password must all be given and the
        email must be new; then a user is added with the bcrypt digest of the
        password. A rejected request changes nothing. */
    method Register(name: Option<string>, email: Option<string>, password: Option<string>) returns (r: RegisterOutcome)
      requires Valid()
      modifies this
      ensures Valid()
      ensures places == old(places) && bookings == old(bookings)
      ensures r == InvalidRegistration <==> Blank(name) || Blank(email) || Blank(password)
      ensures r == AlreadyRegistered <==> !Blank(name) && !Blank(email) && !Blank(password) && email.value in old(users)
      ensures r.Registered? ==>
        && r.user.name == name.value && r.user.email == email.value
        && r.user.password == libs.hash(password.value, BcryptCost)
        && (forall e :: e in old(users) ==> old(users)[e].id != r.user.id)
        && users == old(users)[email.value := r.user]
        && |users| == |old(users)| + 1
      ensures !r.Registered? ==> users == old(users) && nextId == old(nextId)
      ensures r.Status() == 201 <==> users != old(users)
      ensures r.Status() != 201 ==> r.Status() == 401
    {
      if Blank(name) || Blank(email) || Blank(password) {
        return InvalidRegistration;
      }
      if email.value in users {
        return AlreadyRegistered;
      }
      var hashed := libs.hash(password.value, BcryptCost);
      var user := User(nextId, name.value, email.value, hashed);
      users := users[email.value := user];
      nextId := nextId + 1;
      r := Registered(user);
    }

    /** POST /places: a place is added whose owner is the id in the verified
        token; nothing in the body decides the owner. */
    method CreatePlace(token: Token, form: PlaceDetails) returns (r: CreatePlaceOutcome)
      requires Valid()
      modifies this
      ensures Valid()
      ensures users == old(users) && bookings == old(bookings)
      ensures r.PlaceCreated? <==> libs.verify(token).Some?
      ensures r.PlaceCreated? ==>
        && r.place.owner == libs.verify(token).value.id
        && r.place.details == form
        && (forall p :: p in old(places) ==> p.id != r.place.id)
        && places == old(places) + [r.place]
      ensures r.CreateUnauthenticated? ==> places == old(places) && nextId == old(nextId)
      ensures r.Reply().Some? <==> places != old(places)
      ensures r.Reply().Some? ==> r.Reply() == Some(200)
    {
      var claims := libs.verify(token);
      if claims.None? {
        return CreateUnauthenticated;
      }
      var place := Place(nextId, claims.value.id, form);
      places := places + [place];
      nextId := nextId + 1;
      r := PlaceCreated(place);
    }

    /** PUT /places: the place is loaded, and only a caller whose token id is
        its owner overwrites its ten listing fields; its id and owner stay, no
        other place moves, and every other request leaves the store as it was. */
    method UpdatePlace(token: Token, id: ObjectId, form: PlaceDetails) returns (r: UpdatePlaceOutcome)
      requires Valid()
      modifies this
      ensures Valid()
      ensures users == old(users) && bookings == old(bookings) && nextId == old(nextId)
      ensures r == UpdateUnauthenticated <==> libs.verify(token).None?
      ensures r == PlaceNotFound <==> libs.verify(token).Some? && FindPlace(old(places), id).None?
      ensures r == Updated <==>
        && libs.verify(token).Some? && FindPlace(old(places), id).Some?
        && old(places)[FindPlace(old(places), id).value].owner == libs.verify(token).value.id
      ensures r == Updated ==>
        var i := FindPlace(old(places), id).value;
        places == old(places)[i := old(places)[i].(details := form)]
      ensures r != Updated ==> places == old(places)
      ensures r.Reply().Some? <==> r == Updated
      ensures r.Reply().Some? ==> r.Reply() == Some(200)
    {
      var claims := libs.verify(token);
      if claims.None? {
        return UpdateUnauthenticated;
      }
      var found := FindPlace(places, id);
      if found.None? {
        return PlaceNotFound;
      }
      var i := found.value;
      if claims.value.id != places[i].owner {
        return NotOwner;
      }
      places := places[i := places[i].(details := form)];
      r := Updated;
    }

    /** POST /bookings: the record is the request's fields with `user` set to
        the token's id; it is stored only if it passes the schema. */
    method CreateBooking(token: Token, form: BookingForm) returns (r: BookingOutcome)
      requires Valid()
      modifies this
      ensures Valid()
      ensures users == old(users) && places == old(places) && nextId == old(nextId)
      ensures r == BookingUnauthenticated <==> libs.verify(token).None?
      ensures r.Booked? <==> libs.verify(token).Some? && Conforms(BookingFor(form, libs.verify(token).value.id))
      ensures r.Booked? ==>
        && r.booking == BookingFor(form, libs.verify(token).value.id)
        && r.booking.user == Some(libs.verify(token).value.id)
        && bookings == old(bookings) + [r.booking]
      ensures !r.Booked? ==> bookings == old(bookings)
      ensures r.Reply().Some? <==> bookings != old(bookings)
      ensures r.Reply().Some? ==> r.Reply() == Some(200)
    {
      var claims := libs.verify(token);
      if claims.None? {
        return BookingUnauthenticated;
      }
      var booking := BookingFor(form, claims.value.id);
      if !Conforms(booking) {
        return BookingRejected;
      }
      bookings := bookings + [booking];
      r := Booked(booking);
    }
  }

  /** A new user registers and then logs in with the same password: the login
      succeeds with claims naming the user that registration created. */
  method SignUpAndLogIn(store: Store, name: string, email: string, password: string)
    returns (user: User, login: LoginOutcome)
    requires store.Valid()
    requires name != "" && email != "" && password != "" && email !in store.users
    requires store.libs.compare(password, store.libs.hash(password, BcryptCost))
    modifies store
    ensures store.Valid()
    ensures store.places == old(store.places) && store.bookings == old(store.bookings)
    ensures store.users == old(store.users)[email := user]
    ensures user.name == name && user.email == email && user.password == store.libs.hash(password, BcryptCost)
    ensures forall e :: e in old(store.users) ==> old(store.users)[e].id != user.id
    ensures login.LoggedIn? && login.user == user && login.claims == Claims(email, user.id)
    ensures login.token == store.libs.sign(login.claims)
  {
    var registered := store.Register(Some(name), Some(email), Some(password));
    user := registered.user;
    login := Login(store.libs, store.users, Some(email), Some(password));
  }

  /** Two users register and log in; the first lists a place. An update by the
      second is refused and changes nothing; the same update by the owner is
      applied. A wrong password gives no token. */
  method OwnershipScenario(libs: Libraries, emailA: string, passwordA: string, emailB: string, passwordB: string,
                           wrongPassword: string, form: PlaceDetails, edit: PlaceDetails)
    returns (wrong: LoginOutcome, byOther: UpdatePlaceOutcome, byOwner: UpdatePlaceOutcome)
    requires emailA != "" && emailB != "" && passwordA != "" && passwordB != "" && wrongPassword != ""
    requires emailA != emailB
    requires libs.compare(passwordA, libs.hash(passwordA, BcryptCost))
    requires libs.compare(passwordB, libs.hash(passwordB, BcryptCost))
    requires !libs.compare(wrongPassword, libs.hash(passwordA, BcryptCost))
    requires forall c :: libs.verify(libs.sign(c)) == Some(c)
    ensures wrong == WrongPassword
    ensures byOther == NotOwner && byOwner == Updated
  {
    var store := new Store(libs);
    var a, loginA := SignUpAndLogIn(store, "Ann", emailA, passwordA);
    assert store.users == map[emailA := a];
    var b, loginB := SignUpAndLogIn(store, "Bob", emailB, passwordB);
    assert store.users == map[emailA := a, emailB := b];
    assert a.id != b.id;
    wrong := Login(libs, store.users, Some(emailA), Some(wrongPassword));
    assert libs.verify(loginA.token) == Some(Claims(emailA, a.id));
    assert libs.verify(loginB.token) == Some(Claims(emailB, b.id));
    var created := store.CreatePlace(loginA.token, form);
    assert created.PlaceCreated? && created.place.owner == a.id;
    var before := store.places;
    assert before == [created.place];
    assert FindPlace(before, created.place.id) == Some(0);
    byOther := store.UpdatePlace(loginB.token, created.place.id, edit);
    assert store.places == before;
    byOwner := store.UpdatePlace(loginA.token, created.place.id, edit);
  }
}
