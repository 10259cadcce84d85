// Reservations and reserve messages as JSON trees.
module Codec {
  import opened Domain
  import opened Ordering
  import opened Times

  datatype Json =
    | JNull
    | JString(text: string)
    | JInteger(value: int)
    | JObject(fields: map<string, Json>)
    | JArray(items: seq<Json>)

  // ---------------------------------------------------------------- strings and numbers

  // What remains of a string handed over as a C string: it ends at the first NUL.
  function CString(s: string): string {
    if s == [] || s[0] == '\0' then [] else [s[0]] + CString(s[1..])
  }

  predicate Clean(s: string) {
    '\0' !in s
  }

  lemma {:induction false} CStringIs(s: string)
    ensures Clean(CString(s)) && (CString(s) == s <==> Clean(s))
  {
    if s != [] {
      CStringIs(s[1..]);
      assert s == [s[0]] + s[1..];
    }
  }

  // A 64-bit time passes through a signed integer.
  function UInt64(x: int): nat {
    x % TWO64
  }

  lemma TimeRoundTrip(x: nat)
    ensures UInt64(Int64(x)) == x <==> x < TWO64
  {
  }

  // ---------------------------------------------------------------- reading a tree

  function Field(j: Option<Json>, key: string): Option<Json> {
    if j.Some? && j.value.JObject? && key in j.value.fields then Some(j.value.fields[key]) else None
  }

  function StringValue(j: Option<Json>): Option<string> {
    if j.Some? && j.value.JString? then Some(j.value.text) else None
  }

  function IntegerValue(j: Json): int {
    if j.JInteger? then j.value else 0
  }

  // ---------------------------------------------------------------- details

  // The object built from a detail map in key order; keys cut to the same C string overwrite.
  function DetailFields(details: map<string, string>, order: seq<string>): map<string, Json>
    requires forall k :: k in order ==> k in details
  {
    if order == [] then map[]
    else
      var n := |order| - 1;
      assert order[n] in order;
      DetailFields(details, order[..n])[CString(order[n]) := JString(CString(details[order[n]]))]
  }

  // None when a value is not a string: the decoder does not survive it.
  function DetailsOf(fields: map<string, Json>): Option<map<string, string>> {
    if forall k :: k in fields ==> fields[k].JString? then Some(map k | k in fields :: fields[k].text) else None
  }

  predicate CleanDetails(details: map<string, string>) {
    forall k :: k in details ==> Clean(k) && Clean(details[k])
  }

  lemma {:induction false} FieldsAreClean(details: map<string, string>, order: seq<string>)
    requires forall k :: k in order ==> k in details
    ensures forall k :: k in DetailFields(details, order) ==>
      Clean(k) && DetailFields(details, order)[k].JString? && Clean(DetailFields(details, order)[k].text)
  {
    if order != [] {
      var n := |order| - 1;
      FieldsAreClean(details, order[..n]);
      CStringIs(order[n]);
      assert order[n] in order;
      CStringIs(details[order[n]]);
    }
  }

  lemma {:induction false} CleanFieldsAre(details: map<string, string>, order: seq<string>)
    requires CleanDetails(details) && forall k :: k in order ==> k in details
    ensures DetailFields(details, order) == map k | k in order :: JString(details[k])
  {
    if order != [] {
      var n := |order| - 1;
      CleanFieldsAre(details, order[..n]);
      assert order[n] in order;
      CStringIs(order[n]);
      CStringIs(details[order[n]]);
      assert forall k :: k in order <==> k in order[..n] || k == order[n];
    }
  }

  lemma DetailsRoundTripIff(details: map<string, string>)
    ensures DetailsOf(DetailFields(details, Sorted(details.Keys))) == Some(details) <==> CleanDetails(details)
  {
    var order := Sorted(details.Keys);
    var fields := DetailFields(details, order);
    FieldsAreClean(details, order);
    if CleanDetails(details) {
      CleanFieldsAre(details, order);
      hide DetailFields, Sorted;
      assert forall k :: k in order <==> k in details;
      assert (map k | k in fields :: fields[k].text) == details;
    } else {
      hide DetailFields, Sorted;
    }
  }

  // ---------------------------------------------------------------- activities

  function ActivityName(a: Activity): string {
    match a
    case NoActivity => "None"
    case Live => "Live"
    case Record => "Record"
    case EAS => "EAS"
  }

  // An unknown name reads as no activity.
  function ActivityNamed(name: string): Activity {
    if name == "Live" then Live else if name == "Record" then Record else if name == "EAS" then EAS else NoActivity
  }

  lemma ActivityRoundTrip(a: Activity)
    ensures ActivityNamed(ActivityName(a)) == a
  {
  }

  function ActivityTree(a: Activity, details: map<string, string>): Json {
    var named := map["name" := JString(ActivityName(a))];
    JObject(if details != map[] then named["details" := JObject(DetailFields(details, Sorted(details.Keys)))] else named)
  }

  function ActivityOf(j: Option<Json>): Option<(Activity, map<string, string>)> {
    var name := StringValue(Field(j, "name"));
    var child := Field(j, "details");
    var details := if child.Some? && child.value.JObject? then DetailsOf(child.value.fields) else Some(map[]);
    if name.None? || details.None? then None else Some((ActivityNamed(name.value), details.value))
  }

  lemma ActivityTreeRoundTrip(a: Activity, details: map<string, string>)
    ensures ActivityOf(Some(ActivityTree(a, details))) == Some((a, details)) <==> CleanDetails(details)
  {
    DetailsRoundTripIff(details);
    ActivityRoundTrip(a);
    FieldsOfActivity(a, details);
    hide ActivityTree, Field, DetailFields, DetailsOf, ActivityName, ActivityNamed, Sorted;
  }

  lemma FieldsOfActivity(a: Activity, details: map<string, string>)
    ensures var j := Some(ActivityTree(a, details));
      && Field(j, "name") == Some(JString(ActivityName(a)))
      && Field(j, "details") == if details != map[] then Some(JObject(DetailFields(details, Sorted(details.Keys)))) else None
  {
    assert "name" != "details";
    hide DetailFields, ActivityName, Sorted;
  }

  // ---------------------------------------------------------------- reservations

  // A reservation with the custom attributes that travel with it.
  datatype Booking = Booking(r: Reservation, custom: Option<Json>)

  const EMPTY_BOOKING := Booking(Reservation("", "", "", 0, 0, NoActivity, map[], IDLE), None)

  function BookingFields(b: Booking): map<string, Json> {
    var fields := map[
      "device" := JString(CString(b.r.device)),
      "serviceLocator" := JString(CString(b.r.locator)),
      "startTime" := JInteger(Int64(b.r.start)),
      "duration" := JInteger(Int64(b.r.duration)),
      "activity" := ActivityTree(b.r.activity, b.r.details),
      "customAttributes" := if b.custom.Some? then b.custom.value else JNull];
    if b.r.token != "" then fields["reservationToken" := JString(CString(b.r.token))] else fields
  }

  // Decoding reads the clock for a missing start and for the default duration of a Live; older
  // versions of the protocol have no default. None when a locator or an activity name is missing, or when the
  // clock leaves no room for the default.
  function BookingOf(j: Option<Json>, now: nat, newer: bool): Option<Booking> {
    var token, device, locator := StringValue(Field(j, "reservationToken")), StringValue(Field(j, "device")), StringValue(Field(j, "serviceLocator"));
    var start, duration := Field(j, "startTime"), Field(j, "duration");
    var activity, custom := ActivityOf(Field(j, "activity")), Field(j, "customAttributes");
    if locator.None? || activity.None? then None
    else if duration.None? && newer && activity.value.0 == Live && MAX64 <= 2 * now then None
    else
      var named := activity.value.0;
      Some(Booking(
        Reservation(
          if token.Some? then token.value else "",
          if device.Some? then device.value else "",
          locator.value,
          if start.Some? then UInt64(IntegerValue(start.value)) else now,
          if duration.Some? then UInt64(IntegerValue(duration.value))
          else if newer && named == Live then UInt64(DefaultLiveDuration(now)) else 0,
          named, activity.value.1, IDLE),
        if custom == Some(JNull) then None else custom))
  }

  predicate CleanBooking(b: Booking) {
    && Clean(b.r.token) && Clean(b.r.device) && Clean(b.r.locator)
    && b.r.start < TWO64 && b.r.duration < TWO64
    && CleanDetails(b.r.details)
    && b.custom != Some(JNull)
  }

  function Arrived(b: Booking): Booking {
    b.(r := b.r.(phase := IDLE))
  }

  lemma KeysDiffer()
    ensures "device" != "serviceLocator" && "device" != "startTime" && "device" != "duration" && "device" != "activity"
    ensures "device" != "customAttributes" && "device" != "reservationToken" && "serviceLocator" != "startTime"
    ensures "serviceLocator" != "duration" && "serviceLocator" != "activity" && "serviceLocator" != "customAttributes"
    ensures "serviceLocator" != "reservationToken" && "startTime" != "duration" && "startTime" != "activity"
    ensures "startTime" != "customAttributes" && "startTime" != "reservationToken" && "duration" != "activity"
    ensures "duration" != "customAttributes" && "duration" != "reservationToken" && "activity" != "customAttributes"
    ensures "activity" != "reservationToken" && "customAttributes" != "reservationToken"
  {
    assert "duration"[0] != "activity"[0];
    assert "customAttributes"[0] != "reservationToken"[0];
  }

  lemma FieldsOfBooking(b: Booking)
    ensures var j := Some(JObject(BookingFields(b)));
      && Field(j, "device") == Some(JString(CString(b.r.device)))
      && Field(j, "serviceLocator") == Some(JString(CString(b.r.locator)))
      && Field(j, "startTime") == Some(JInteger(Int64(b.r.start)))
      && Field(j, "duration") == Some(JInteger(Int64(b.r.duration)))
      && Field(j, "activity") == Some(ActivityTree(b.r.activity, b.r.details))
      && Field(j, "customAttributes") == Some(if b.custom.Some? then b.custom.value else JNull)
      && Field(j, "reservationToken") == if b.r.token != "" then Some(JString(CString(b.r.token))) else None
  {
    KeysDiffer();
    hide CString, Int64, ActivityTree;
  }

  // A reservation survives the journey exactly when its strings hold no NUL, its times fit 64 bits
  // and its custom attributes are not a JSON null. It arrives IDLE.
  lemma BookingRoundTripIff(b: Booking, now: nat, newer: bool)
    ensures BookingOf(Some(JObject(BookingFields(b))), now, newer) == Some(Arrived(b)) <==> CleanBooking(b)
  {
    FieldsOfBooking(b);
    CStringIs(b.r.token);
    CStringIs(b.r.device);
    CStringIs(b.r.locator);
    TimeRoundTrip(b.r.start);
    TimeRoundTrip(b.r.duration);
    ActivityTreeRoundTrip(b.r.activity, b.r.details);
    assert Clean("");
    var activity := ActivityOf(Some(ActivityTree(b.r.activity, b.r.details)));
    assert activity.Some? ==> activity.value == (activity.value.0, activity.value.1);
    hide Field, BookingFields, CString, Clean, CleanDetails, ActivityTree, ActivityOf, Int64, UInt64, DefaultLiveDuration;
  }

  // What a sender may leave out. Without a token or a device the string is empty; without a start the window
  // starts now; without a duration a Live lasts until twice the clock before the largest time, if the protocol is
  // new enough and the clock leaves room, and anything else lasts no time; without custom attributes there are
  // none. A locator and an activity there must be.
  lemma MissingFieldRead(b: Booking, key: string, now: nat, newer: bool)
    requires CleanBooking(b)
    ensures var read := BookingOf(Some(JObject(BookingFields(b) - {key})), now, newer);
      if key == "serviceLocator" || key == "activity" then read == None
      else if key == "reservationToken" then read == Some(Arrived(b.(r := b.r.(token := ""))))
      else if key == "device" then read == Some(Arrived(b.(r := b.r.(device := ""))))
      else if key == "startTime" then read == Some(Arrived(b.(r := b.r.(start := now))))
      else if key == "customAttributes" then read == Some(Arrived(b.(custom := None)))
      else if key == "duration" then
        if b.r.activity != Live || !newer then read == Some(Arrived(b.(r := b.r.(duration := 0))))
        else if 2 * now < 0x7FFF_FFFF_FFFF_FFFF
        then read == Some(Arrived(b.(r := b.r.(duration := 0x7FFF_FFFF_FFFF_FFFF - 2 * now))))
        else read == None
      else read == Some(Arrived(b))
  {
    FieldsLeft(b, key);
    CStringIs(b.r.token);
    CStringIs(b.r.device);
    CStringIs(b.r.locator);
    TimeRoundTrip(b.r.start);
    TimeRoundTrip(b.r.duration);
    ActivityTreeRoundTrip(b.r.activity, b.r.details);
    DefaultFits(now);
    NoActivityNamed();
    hide Field, BookingFields, CString, Clean, CleanDetails, ActivityTree, ActivityOf, Int64, UInt64;
  }

  lemma NoActivityNamed()
    ensures ActivityOf(None) == None
  {
  }

  lemma DefaultFits(now: nat)
    ensures 2 * now < 0x7FFF_FFFF_FFFF_FFFF ==> UInt64(DefaultLiveDuration(now)) == 0x7FFF_FFFF_FFFF_FFFF - 2 * now
  {
  }

  lemma FieldsLeft(b: Booking, key: string)
    ensures var j := Some(JObject(BookingFields(b) - {key}));
      forall other :: Field(j, other) == if other == key then None else Field(Some(JObject(BookingFields(b))), other)
    ensures var j := Some(JObject(BookingFields(b)));
      && Field(j, "device") == Some(JString(CString(b.r.device)))
      && Field(j, "serviceLocator") == Some(JString(CString(b.r.locator)))
      && Field(j, "startTime") == Some(JInteger(Int64(b.r.start)))
      && Field(j, "duration") == Some(JInteger(Int64(b.r.duration)))
      && Field(j, "activity") == Some(ActivityTree(b.r.activity, b.r.details))
      && Field(j, "customAttributes") == Some(if b.custom.Some? then b.custom.value else JNull)
      && Field(j, "reservationToken") == if b.r.token != "" then Some(JString(CString(b.r.token))) else None
  {
    FieldsOfBooking(b);
    hide BookingFields, CString, Int64, ActivityTree;
  }

  // ---------------------------------------------------------------- messages

  // What a decoder leaves: a message, its argument untouched, or an exception or worse.
  datatype Outcome<T> = Decoded(message: T) | Untouched | Failed

  datatype Request = Request(uuid: string, device: string, booking: Booking, resurrect: string)

  function RequestFields(q: Request): map<string, Json> {
    map["requestId" := JString(CString(q.uuid)),
        "device" := JString(CString(q.device)),
        "tunerReservation" := JObject(BookingFields(q.booking)),
        "resurrect" := JString(CString(q.resurrect))]
  }

  function RequestTree(q: Request): Json {
    JObject(map["reserveTuner" := JObject(RequestFields(q))])
  }

  // The only member of a message tree; None for an empty one.
  function OnlyChild(fields: map<string, Json>): Option<Json> {
    if |fields| != 1 then None
    else
      SortedAscends(fields.Keys);
      assert Sorted(fields.Keys)[0] in Sorted(fields.Keys);
      Some(fields[Sorted(fields.Keys)[0]])
  }

  function RequestOf(j: Json, now: nat, newer: bool): Outcome<Request> {
    if !j.JObject? || |j.fields| == 0 then Untouched
    else
      var child := OnlyChild(j.fields);
      if child.None? then Failed else RequestIn(child, now, newer)
  }

  function RequestIn(child: Option<Json>, now: nat, newer: bool): Outcome<Request> {
    var uuid, device := StringValue(Field(child, "requestId")), StringValue(Field(child, "device"));
    var asked := Field(child, "resurrect");
    var resurrect := if asked.Some? then StringValue(asked) else Some("false");
    var booking := BookingOf(Field(child, "tunerReservation"), now, newer);
    if resurrect.None? then Failed
    else if device.None? then Untouched
    else if uuid.None? || booking.None? then Failed
    else Decoded(Request(uuid.value, device.value, booking.value, resurrect.value))
  }

  predicate CleanRequest(q: Request) {
    Clean(q.uuid) && Clean(q.device) && Clean(q.resurrect) && CleanBooking(q.booking)
  }

  lemma OnlyChildOf(name: string, j: Json)
    ensures OnlyChild(map[name := j]) == Some(j)
  {
    var fields := map[name := j];
    assert fields.Keys == {name};
    SortedAscends(fields.Keys);
    assert Sorted(fields.Keys)[0] in Sorted(fields.Keys);
  }

  lemma FieldsOfRequest(q: Request)
    ensures var j := Some(JObject(RequestFields(q)));
      && Field(j, "requestId") == Some(JString(CString(q.uuid)))
      && Field(j, "device") == Some(JString(CString(q.device)))
      && Field(j, "tunerReservation") == Some(JObject(BookingFields(q.booking)))
      && Field(j, "resurrect") == Some(JString(CString(q.resurrect)))
  {
    assert "requestId" != "resurrect" by { assert "requestId"[2] != "resurrect"[2]; }
    hide CString, BookingFields;
  }

  // A reserve request is decoded to what was encoded, exactly when it is clean.
  lemma RequestRoundTripIff(q: Request, now: nat, newer: bool)
    ensures RequestOf(RequestTree(q), now, newer) == Decoded(q.(booking := Arrived(q.booking))) <==> CleanRequest(q)
  {
    OnlyChildOf("reserveTuner", JObject(RequestFields(q)));
    FieldsOfRequest(q);
    CStringIs(q.uuid);
    CStringIs(q.device);
    CStringIs(q.resurrect);
    BookingRoundTripIff(q.booking, now, newer);
    hide OnlyChild, RequestFields, Field, CString, Clean, CleanBooking, BookingFields, BookingOf, Arrived;
  }

  // A request may leave out whether a lost token is asked back. Without a device it is ignored, and without
  // anything else decoding fails.
  lemma MissingInRequest(q: Request, key: string, now: nat, newer: bool)
    requires CleanRequest(q)
    ensures var read := RequestIn(Some(JObject(RequestFields(q) - {key})), now, newer);
      if key == "device" then read == Untouched
      else if key == "requestId" || key == "tunerReservation" then read == Failed
      else if key == "resurrect" then read == Decoded(q.(booking := Arrived(q.booking), resurrect := "false"))
      else read == Decoded(q.(booking := Arrived(q.booking)))
  {
    hide *;
    var j := Some(JObject(RequestFields(q) - {key}));
    RequestFieldsLeft(q, key);
    CleanRequestReads(q, now, newer);
    MissingValues(now, newer);
    RequestInIs(j, now, newer, StringValue(Field(j, "requestId")), StringValue(Field(j, "device")),
                if Field(j, "resurrect").Some? then StringValue(Field(j, "resurrect")) else Some("false"),
                BookingOf(Field(j, "tunerReservation"), now, newer));
  }

  lemma CleanRequestReads(q: Request, now: nat, newer: bool)
    requires CleanRequest(q)
    ensures StringValue(Some(JString(CString(q.uuid)))) == Some(q.uuid)
    ensures StringValue(Some(JString(CString(q.device)))) == Some(q.device)
    ensures StringValue(Some(JString(CString(q.resurrect)))) == Some(q.resurrect)
    ensures BookingOf(Some(JObject(BookingFields(q.booking))), now, newer) == Some(Arrived(q.booking))
  {
    CStringIs(q.uuid);
    CStringIs(q.device);
    CStringIs(q.resurrect);
    BookingRoundTripIff(q.booking, now, newer);
    hide CString, Clean, CleanBooking, BookingFields, BookingOf, Arrived;
  }

  lemma MissingValues(now: nat, newer: bool)
    ensures StringValue(None) == None && BookingOf(None, now, newer) == None
  {
  }

  lemma RequestInIs(j: Option<Json>, now: nat, newer: bool, uuid: Option<string>, device: Option<string>, resurrect: Option<string>, booking: Option<Booking>)
    requires uuid == StringValue(Field(j, "requestId")) && device == StringValue(Field(j, "device"))
    requires resurrect == if Field(j, "resurrect").Some? then StringValue(Field(j, "resurrect")) else Some("false")
    requires booking == BookingOf(Field(j, "tunerReservation"), now, newer)
    ensures RequestIn(j, now, newer) ==
      if resurrect.None? then Failed
      else if device.None? then Untouched
      else if uuid.None? || booking.None? then Failed
      else Decoded(Request(uuid.value, device.value, booking.value, resurrect.value))
  {
    hide Field, StringValue, BookingOf;
  }

  // A message is the only member of its tree: an empty tree is ignored, a second member makes decoding fail.
  lemma OneMessagePerTree(fields: map<string, Json>, now: nat, newer: bool)
    ensures RequestOf(JObject(fields), now, newer) ==
      if fields == map[] then Untouched
      else if exists name :: fields.Keys == {name} then RequestIn(Some(fields[Least(fields.Keys)]), now, newer)
      else Failed
  {
    assert |fields| == |fields.Keys|;
    if |fields| == 1 {
      var name := Least(fields.Keys);
      assert |fields.Keys - {name}| == 0 && fields.Keys == (fields.Keys - {name}) + {name};
      SortedAscends(fields.Keys);
      assert Sorted(fields.Keys)[0] in Sorted(fields.Keys);
    }
    hide RequestIn, Sorted;
  }

  lemma RequestFieldsLeft(q: Request, key: string)
    ensures var j := Some(JObject(RequestFields(q) - {key}));
      forall other :: Field(j, other) == if other == key then None else Field(Some(JObject(RequestFields(q))), other)
    ensures var j := Some(JObject(RequestFields(q)));
      && Field(j, "requestId") == Some(JString(CString(q.uuid)))
      && Field(j, "device") == Some(JString(CString(q.device)))
      && Field(j, "tunerReservation") == Some(JObject(BookingFields(q.booking)))
      && Field(j, "resurrect") == Some(JString(CString(q.resurrect)))
  {
    FieldsOfRequest(q);
    hide RequestFields, CString, BookingFields;
  }

  // ---- responses

  datatype StatusCode =
    | Ok | GeneralError | MalFormedRequest | UnRecognizedRequest
    | InvalidToken | InvalidState | UserCancellation | InsufficientResource

  function StatusName(c: StatusCode): string {
    match c
    case Ok => "Ok"
    case GeneralError => "GeneralError"
    case MalFormedRequest => "MalFormedRequest"
    case UnRecognizedRequest => "UnRecognizedRequest"
    case InvalidToken => "InvalidToken"
    case InvalidState => "InvalidState"
    case UserCancellation => "UserCancellation"
    case InsufficientResource => "InsufficientResource"
  }

  function StatusNamed(name: string): StatusCode {
    if name == "GeneralError" then GeneralError
    else if name == "MalFormedRequest" then MalFormedRequest
    else if name == "UnRecognizedRequest" then UnRecognizedRequest
    else if name == "InvalidToken" then InvalidToken
    else if name == "InvalidState" then InvalidState
    else if name == "UserCancellation" then UserCancellation
    else if name == "InsufficientResource" then InsufficientResource
    else Ok
  }

  lemma StatusRoundTrip(c: StatusCode)
    ensures StatusNamed(StatusName(c)) == c
  {
    assert "InvalidToken"[7] != "InvalidState"[7] && "GeneralError"[0] != "InvalidToken"[0];
    assert "GeneralError"[0] != "InvalidState"[0] && "MalFormedRequest"[0] != "UserCancellation"[0];
  }

  datatype Response = Response(uuid: string, status: StatusCode, message: string, booking: Booking, conflicts: seq<Booking>)

  function Trees(bookings: seq<Booking>): seq<Json> {
    if bookings == [] then [] else Trees(bookings[..|bookings| - 1]) + [JObject(BookingFields(bookings[|bookings| - 1]))]
  }

  function BookingsOf(items: seq<Json>, now: nat, newer: bool): Option<seq<Booking>> {
    if items == [] then Some([])
    else
      var before, last := BookingsOf(items[..|items| - 1], now, newer), BookingOf(Some(items[|items| - 1]), now, newer);
      if before.None? || last.None? then None else Some(before.value + [last.value])
  }

  function AllArrived(bookings: seq<Booking>): seq<Booking> {
    if bookings == [] then [] else AllArrived(bookings[..|bookings| - 1]) + [Arrived(bookings[|bookings| - 1])]
  }

  predicate AllClean(bookings: seq<Booking>) {
    forall i :: 0 <= i < |bookings| ==> CleanBooking(bookings[i])
  }

  lemma {:induction false} BookingsRoundTripIff(bookings: seq<Booking>, now: nat, newer: bool)
    ensures BookingsOf(Trees(bookings), now, newer) == Some(AllArrived(bookings)) <==> AllClean(bookings)
    ensures |Trees(bookings)| == |bookings| == |AllArrived(bookings)|
  {
    if bookings != [] {
      var before, last := bookings[..|bookings| - 1], bookings[|bookings| - 1];
      BookingsSnoc(bookings, now, newer);
      AllCleanSplits(bookings);
      hide *;
      BookingsRoundTripIff(before, now, newer);
      BookingRoundTripIff(last, now, newer);
      var read := BookingsOf(Trees(before), now, newer);
      var x := BookingOf(Some(JObject(BookingFields(last))), now, newer);
      if read.Some? && x.Some? {
        SnocEqual(read.value, AllArrived(before), x.value, Arrived(last));
      }
    }
  }

  // The last element of a list of reservations, encoded and decoded.
  lemma BookingsSnoc(bookings: seq<Booking>, now: nat, newer: bool)
    requires bookings != []
    ensures var before, last := bookings[..|bookings| - 1], bookings[|bookings| - 1];
      var read, x := BookingsOf(Trees(before), now, newer), BookingOf(Some(JObject(BookingFields(last))), now, newer);
      && AllArrived(bookings) == AllArrived(before) + [Arrived(last)]
      && |Trees(bookings)| == |Trees(before)| + 1
      && BookingsOf(Trees(bookings), now, newer) == if read.Some? && x.Some? then Some(read.value + [x.value]) else None
  {
    var before := bookings[..|bookings| - 1];
    assert Trees(bookings)[..|Trees(before)|] == Trees(before);
    hide BookingOf, BookingFields, Arrived;
  }

  lemma AllCleanSplits(bookings: seq<Booking>)
    requires bookings != []
    ensures AllClean(bookings) <==> AllClean(bookings[..|bookings| - 1]) && CleanBooking(bookings[|bookings| - 1])
  {
  }

  lemma SnocEqual(a: seq<Booking>, b: seq<Booking>, x: Booking, y: Booking)
    ensures a + [x] == b + [y] <==> a == b && x == y
  {
    if a + [x] == b + [y] {
      assert |a| == |b| && (a + [x])[..|a|] == a && (b + [y])[..|b|] == b;
      assert (a + [x])[|a|] == x && (b + [y])[|b|] == y;
    }
  }

  function ResponseFields(r: Response): map<string, Json> {
    var fields := map[
      "requestId" := JString(CString(r.uuid)),
      "status" := JString(StatusName(r.status)),
      "statusMessage" := JString(CString(r.message))];
    var fields := if r.booking.r.token != "" then fields["tunerReservation" := JObject(BookingFields(r.booking))] else fields;
    if r.conflicts != [] then fields["conflicts" := JArray(Trees(r.conflicts))] else fields
  }

  function ResponseTree(r: Response): Json {
    JObject(map["reserveTunerResponse" := JObject(ResponseFields(r))])
  }

  function ResponseOf(j: Json, now: nat, newer: bool): Outcome<Response> {
    if !j.JObject? || |j.fields| == 0 then Untouched
    else
      var child := OnlyChild(j.fields);
      if child.None? then Failed else ResponseIn(child, now, newer)
  }

  function ResponseIn(child: Option<Json>, now: nat, newer: bool): Outcome<Response> {
    var uuid, status, message := StringValue(Field(child, "requestId")), StringValue(Field(child, "status")), StringValue(Field(child, "statusMessage"));
    var booking, conflicts := GrantedIn(child, now, newer), ConflictsIn(child, now, newer);
    if uuid.None? || status.None? || message.None? || booking.None? || conflicts.None? then Failed
    else Decoded(Response(uuid.value, StatusNamed(status.value), message.value, booking.value, conflicts.value))
  }

  function GrantedIn(child: Option<Json>, now: nat, newer: bool): Option<Booking> {
    var granted := Field(child, "tunerReservation");
    if granted.Some? then BookingOf(granted, now, newer) else Some(EMPTY_BOOKING)
  }

  function ConflictsIn(child: Option<Json>, now: nat, newer: bool): Option<seq<Booking>> {
    var listed := Field(child, "conflicts");
    if listed.Some? && listed.value.JArray? then BookingsOf(listed.value.items, now, newer) else Some([])
  }

  function ResponseArrived(r: Response): Response {
    r.(booking := Arrived(r.booking), conflicts := AllArrived(r.conflicts))
  }

  // A reservation without a token is not sent, so only the empty one survives.
  predicate CleanResponse(r: Response) {
    && Clean(r.uuid) && Clean(r.message)
    && (if r.booking.r.token == "" then Arrived(r.booking) == EMPTY_BOOKING else CleanBooking(r.booking))
    && AllClean(r.conflicts)
  }

  lemma FieldsOfResponse(r: Response)
    ensures var j := Some(JObject(ResponseFields(r)));
      && Field(j, "requestId") == Some(JString(CString(r.uuid)))
      && Field(j, "status") == Some(JString(StatusName(r.status)))
      && Field(j, "statusMessage") == Some(JString(CString(r.message)))
      && Field(j, "tunerReservation") == (if r.booking.r.token != "" then Some(JObject(BookingFields(r.booking))) else None)
      && Field(j, "conflicts") == (if r.conflicts != [] then Some(JArray(Trees(r.conflicts))) else None)
  {
    assert "requestId" != "conflicts" by { assert "requestId"[0] != "conflicts"[0]; }
    hide CString, StatusName, BookingFields, Trees;
  }

  // A response comes back with its whole conflict list in order, exactly when it is clean.
  lemma ResponseRoundTripIff(r: Response, now: nat, newer: bool)
    ensures ResponseOf(ResponseTree(r), now, newer) == Decoded(ResponseArrived(r)) <==> CleanResponse(r)
  {
    CStringIs(r.uuid);
    CStringIs(r.message);
    BookingRoundTripIff(r.booking, now, newer);
    BookingsRoundTripIff(r.conflicts, now, newer);
    hide *;
    ResponseReads(r, now, newer);
    AssembledIff(r, SentBooking(r, now, newer), BookingsOf(Trees(r.conflicts), now, newer));
    CleanParts(r, now, newer);
  }

  // The reservation as it is read back.
  function SentBooking(r: Response, now: nat, newer: bool): Option<Booking> {
    if r.booking.r.token != "" then BookingOf(Some(JObject(BookingFields(r.booking))), now, newer) else Some(EMPTY_BOOKING)
  }

  function Assembled(r: Response, booking: Option<Booking>, conflicts: Option<seq<Booking>>): Outcome<Response> {
    if booking.None? || conflicts.None? then Failed
    else Decoded(Response(CString(r.uuid), r.status, CString(r.message), booking.value, conflicts.value))
  }

  lemma ResponseReads(r: Response, now: nat, newer: bool)
    ensures ResponseOf(ResponseTree(r), now, newer) ==
      Assembled(r, SentBooking(r, now, newer), BookingsOf(Trees(r.conflicts), now, newer))
  {
    var child := JObject(ResponseFields(r));
    OnlyChildOf("reserveTunerResponse", child);
    FieldsOfResponse(r);
    StatusRoundTrip(r.status);
    GrantedReads(r, now, newer);
    ConflictsRead(r, now, newer);
    hide OnlyChild, ResponseFields, Field, CString, BookingFields, BookingOf, Trees, BookingsOf, StatusName, StatusNamed,
      GrantedIn, ConflictsIn, SentBooking;
  }

  lemma GrantedReads(r: Response, now: nat, newer: bool)
    ensures GrantedIn(Some(JObject(ResponseFields(r))), now, newer) == SentBooking(r, now, newer)
  {
    FieldsOfResponse(r);
    hide ResponseFields, Field, BookingFields, BookingOf;
  }

  lemma ConflictsRead(r: Response, now: nat, newer: bool)
    ensures ConflictsIn(Some(JObject(ResponseFields(r))), now, newer) == BookingsOf(Trees(r.conflicts), now, newer)
  {
    FieldsOfResponse(r);
    if r.conflicts == [] {
      assert Trees(r.conflicts) == [];
    }
    hide ResponseFields, Field, Trees;
  }

  lemma AssembledIff(r: Response, booking: Option<Booking>, conflicts: Option<seq<Booking>>)
    ensures Assembled(r, booking, conflicts) == Decoded(ResponseArrived(r)) <==>
      && CString(r.uuid) == r.uuid && CString(r.message) == r.message
      && booking == Some(Arrived(r.booking)) && conflicts == Some(AllArrived(r.conflicts))
  {
    hide CString, Arrived, AllArrived;
  }

  lemma CleanParts(r: Response, now: nat, newer: bool)
    ensures CleanResponse(r) <==>
      && Clean(r.uuid) && Clean(r.message)
      && SentBooking(r, now, newer) == Some(Arrived(r.booking))
      && AllClean(r.conflicts)
  {
    BookingRoundTripIff(r.booking, now, newer);
    hide Clean, CleanBooking, BookingOf, BookingFields, AllClean, Arrived;
  }

  // ---------------------------------------------------------------- the encoders and decoders at work

  method EncodeDetails(details: map<string, string>) returns (obj: map<string, Json>)
    ensures obj == DetailFields(details, Sorted(details.Keys))
  {
    obj := map[];
    var order := Sorted(details.Keys);
    assert order[..0] == [];
    for i := 0 to |order|
      invariant forall k :: k in order[..i] ==> k in details
      invariant obj == DetailFields(details, order[..i])
    {
      assert order[i] in order && order[..i + 1][..i] == order[..i];
      obj := obj[CString(order[i]) := JString(CString(details[order[i]]))];
    }
    assert order[..|order|] == order;
  }

  method EncodeActivity(a: Activity, details: map<string, string>) returns (obj: map<string, Json>)
    ensures JObject(obj) == ActivityTree(a, details)
  {
    hide DetailFields, Sorted;
    obj := map["name" := JString(ActivityName(a))];
    if |details| != 0 {
      var children := EncodeDetails(details);
      obj := obj["details" := JObject(children)];
    }
  }

  method EncodeBooking(b: Booking) returns (obj: map<string, Json>)
    ensures obj == BookingFields(b)
  {
    KeysDiffer();
    hide CString, Int64, ActivityTree;
    obj := map[];
    if b.r.token != "" {
      obj := obj["reservationToken" := JString(CString(b.r.token))];
    }
    obj := obj["device" := JString(CString(b.r.device))];
    obj := obj["serviceLocator" := JString(CString(b.r.locator))];
    obj := obj["startTime" := JInteger(Int64(b.r.start))];
    obj := obj["duration" := JInteger(Int64(b.r.duration))];
    var activity := EncodeActivity(b.r.activity, b.r.details);
    obj := obj["activity" := JObject(activity)];
    obj := obj["customAttributes" := if b.custom.Some? then b.custom.value else JNull];
  }

  method EncodeConflicts(conflicts: seq<Booking>) returns (items: seq<Json>)
    ensures items == Trees(conflicts)
  {
    items := [];
    assert conflicts[..0] == [];
    hide BookingFields;
    for i := 0 to |conflicts|
      invariant items == Trees(conflicts[..i])
    {
      assert conflicts[..i + 1][..i] == conflicts[..i];
      var single := EncodeBooking(conflicts[i]);
      items := items + [JObject(single)];
    }
    assert conflicts[..|conflicts|] == conflicts;
  }

  method EncodeRequest(q: Request) returns (j: Json)
    ensures j == RequestTree(q)
  {
    hide CString, BookingFields;
    var booking := EncodeBooking(q.booking);
    var fields := map[
      "requestId" := JString(CString(q.uuid)),
      "device" := JString(CString(q.device)),
      "tunerReservation" := JObject(booking),
      "resurrect" := JString(CString(q.resurrect))];
    j := JObject(map["reserveTuner" := JObject(fields)]);
  }

  method EncodeResponse(r: Response) returns (j: Json)
    ensures j == ResponseTree(r)
  {
    hide CString, BookingFields, StatusName, Trees;
    var fields := map[
      "requestId" := JString(CString(r.uuid)),
      "status" := JString(StatusName(r.status)),
      "statusMessage" := JString(CString(r.message))];
    if r.booking.r.token != "" {
      var booking := EncodeBooking(r.booking);
      fields := fields["tunerReservation" := JObject(booking)];
    }
    if |r.conflicts| != 0 {
      var items := EncodeConflicts(r.conflicts);
      fields := fields["conflicts" := JArray(items)];
    }
    j := JObject(map["reserveTunerResponse" := JObject(fields)]);
  }

  method DecodeDetails(fields: map<string, Json>) returns (details: Option<map<string, string>>)
    ensures details == DetailsOf(fields)
  {
    var read: map<string, string> := map[];
    var order := Sorted(fields.Keys);
    for i := 0 to |order|
      invariant read.Keys == set k | k in order[..i]
      invariant forall k :: k in read ==> k in fields && fields[k].JString? && read[k] == fields[k].text
    {
      assert order[i] in order && order[..i + 1] == order[..i] + [order[i]];
      if !fields[order[i]].JString? {
        return None;
      }
      read := read[order[i] := fields[order[i]].text];
    }
    assert order[..|order|] == order;
    assert forall k :: k in fields ==> k in read;
    assert DetailsOf(fields).Some? && DetailsOf(fields).value == read;
    details := Some(read);
  }

  method DecodeConflicts(items: seq<Json>, now: nat, newer: bool) returns (conflicts: Option<seq<Booking>>)
    ensures conflicts == BookingsOf(items, now, newer)
  {
    var read: seq<Booking> := [];
    assert items[..0] == [] && items[..|items|] == items;
    hide BookingOf;
    for i := 0 to |items|
      invariant BookingsOf(items[..i], now, newer) == Some(read)
    {
      assert items[..i + 1][..i] == items[..i];
      var single := BookingOf(Some(items[i]), now, newer);
      if single.None? {
        NoneStays(items, i + 1, now, newer);
        return None;
      }
      read := read + [single.value];
    }
    conflicts := Some(read);
  }

  lemma {:induction false} NoneStays(items: seq<Json>, i: nat, now: nat, newer: bool)
    requires i <= |items| && BookingsOf(items[..i], now, newer).None?
    ensures BookingsOf(items, now, newer).None?
    decreases |items| - i
  {
    if i < |items| {
      assert items[..i + 1][..i] == items[..i];
      NoneStays(items, i + 1, now, newer);
    } else {
      assert items[..i] == items;
    }
  }
}
