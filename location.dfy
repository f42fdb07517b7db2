/**
 * The location logic of frontend/src/pages/Dashboard.js, as functions: the
 * GPS error messages, the two reply shapes an IP-geolocation provider may
 * send, the cascade over the fixed provider list (`tryIPService`), the
 * whole resolution started by `getCurrentLocation`, and the coordinates
 * `confirmSOS` sends.
 *
 * Browser capabilities are inputs: what the GPS query yields (`GpsResult`),
 * what each provider's `fetch` + `json()` yields (`ProviderReply`), and
 * `parseFloat`, which is left uninterpreted.
 */
module Location {
  import opened Js
  import Text

  datatype Source = Gps | Ip

  /** A stored `userLocation` (its display timestamp is left out). */
  datatype Location = Location(lat: JsValue, lng: JsValue, accuracy: JsValue, source: Source, city: JsValue)

  /** The options of a `getCurrentPosition` call. */
  datatype PositionOptions = PositionOptions(enableHighAccuracy: bool, timeout: nat, maximumAge: nat)

  const ResolveOptions := PositionOptions(true, 10000, 0)
  const SosOptions := PositionOptions(true, 5000, 0)

  /** The accuracy, in metres, given to every IP-based location. */
  const IpAccuracy := Num(50000.0)

  const IpServices: seq<string> := [
    "https://ipapi.co/json/",
    "https://ipinfo.io/json",
    "https://geolocation-db.com/json/"
  ]

  /** GeolocationPositionError codes. */
  const PERMISSION_DENIED: int := 1
  const POSITION_UNAVAILABLE: int := 2
  const TIMEOUT: int := 3

  /** What the GPS query calls back with: a position or an error code. */
  datatype GpsResult = Fix(latitude: JsValue, longitude: JsValue, accuracy: JsValue) | PositionError(code: int)

  const LocationIssuePrefix := "Location access issue: "

  /** The warning shown when the GPS query fails. */
  function GpsErrorMessage(code: int): (m: string)
    ensures |m| > |LocationIssuePrefix| && m[..|LocationIssuePrefix|] == LocationIssuePrefix
  {
    LocationIssuePrefix +
      if code == PERMISSION_DENIED then "Please allow location access in browser settings"
      else if code == POSITION_UNAVAILABLE then "Location unavailable. Check internet connection"
      else if code == TIMEOUT then "Location request timed out"
      else "Please enable location services"
  }

  /** The four cases get four different messages; every other code gets the default one. */
  lemma GpsErrorMessagesDistinct(a: int, b: int)
    requires GpsErrorMessage(a) == GpsErrorMessage(b)
    ensures a == b || (a !in {PERMISSION_DENIED, POSITION_UNAVAILABLE, TIMEOUT}
                       && b !in {PERMISSION_DENIED, POSITION_UNAVAILABLE, TIMEOUT})
  {
    var n := |LocationIssuePrefix|;
    var ma, mb := GpsErrorMessage(a), GpsErrorMessage(b);
    assert ma[n..] == mb[n..];
    // The suffixes differ in their first characters or lengths.
    if a == PERMISSION_DENIED || b == PERMISSION_DENIED {
      assert ma[n] == mb[n];
    } else if a == TIMEOUT || b == TIMEOUT {
      assert ma[n + 9] == mb[n + 9];
    } else if a == POSITION_UNAVAILABLE || b == POSITION_UNAVAILABLE {
      assert ma[n + 1] == mb[n + 1];
    }
  }

  /** The location stored after a successful GPS query. */
  function GpsLocation(fix: GpsResult): (l: Location)
    requires fix.Fix?
    ensures l.source == Gps && l.lat == fix.latitude && l.lng == fix.longitude && l.accuracy == fix.accuracy
  {
    Location(fix.latitude, fix.longitude, fix.accuracy, Gps, Undefined)
  }

  /**
   * The value `response.json()` yields: null, any other non-object value
   * (whose properties are all undefined), or an object whose relevant
   * properties are listed (undefined when absent).
   */
  datatype JsonBody =
    | JsonNull
    | JsonOther
    | JsonObject(latitude: JsValue, longitude: JsValue, loc: JsValue, city: JsValue, region: JsValue)

  /** One provider call: the fetch or the JSON decoding rejects, or a body arrives (whatever the HTTP status). */
  datatype ProviderReply = FetchFailed | Body(data: JsonBody)

  /** The outcome of one provider call: a location (and the place name shown with it), or on to the next provider. */
  datatype Parsed = Located(location: Location, place: JsValue) | Skipped

  function IpLocation(lat: JsValue, lng: JsValue, data: JsonBody, parseFloat: JsValue -> JsValue): Location
    requires data.JsonObject?
  {
    Location(parseFloat(lat), parseFloat(lng), IpAccuracy, Ip, Or(data.city, Or(data.region, Str(""))))
  }

  /** The body of the `try` in `tryIPService` after the fetch. */
  function ParseReply(reply: ProviderReply, parseFloat: JsValue -> JsValue): (p: Parsed)
    ensures p.Located? ==>
      && reply.Body? && reply.data.JsonObject?
      && p.location.source == Ip && p.location.accuracy == IpAccuracy
      && p.location.city == Or(reply.data.city, Or(reply.data.region, Str("")))
      && p.place == Or(reply.data.city, Or(reply.data.region, Str("Unknown")))
  {
    match reply
    case FetchFailed => Skipped
    case Body(data) =>
      match data
      case JsonNull => Skipped  // reading a property of null throws
      case JsonOther => Skipped
      case JsonObject(latitude, longitude, loc, city, region) =>
        var place := Or(city, Or(region, Str("Unknown")));
        if Truthy(latitude) && Truthy(longitude) then
          Located(IpLocation(latitude, longitude, data, parseFloat), place)
        else if Truthy(loc) then
          if loc.Str? then
            var parts := Text.Split(loc.s, ',');
            var lng := if |parts| > 1 then Str(parts[1]) else Undefined;
            Located(IpLocation(Str(parts[0]), lng, data, parseFloat), place)
          else
            Skipped  // a non-string `loc` has no `split`: the TypeError is caught
        else
          Skipped
  }

  /** Truthy `latitude` and `longitude` fields win over `loc`. */
  lemma FieldsTakePrecedence(data: JsonBody, parseFloat: JsValue -> JsValue)
    requires data.JsonObject? && Truthy(data.latitude) && Truthy(data.longitude)
    ensures ParseReply(Body(data), parseFloat).Located?
    ensures var l := ParseReply(Body(data), parseFloat).location;
      l.lat == parseFloat(data.latitude) && l.lng == parseFloat(data.longitude)
  {
  }

  /** Without both fields, a string `loc` is split at ',' into latitude then longitude. */
  lemma LocShape(data: JsonBody, parseFloat: JsValue -> JsValue, a: string, b: string)
    requires data.JsonObject? && !(Truthy(data.latitude) && Truthy(data.longitude))
    requires ',' !in a && ',' !in b
    requires data.loc == Str(a + "," + b)
    ensures ParseReply(Body(data), parseFloat).Located?
    ensures var l := ParseReply(Body(data), parseFloat).location;
      l.lat == parseFloat(Str(a)) && l.lng == parseFloat(Str(b))
  {
    assert a + "," + b == a + [','] + b;
    Text.SplitCons(a, ',', b);
    assert Text.Split(b, ',') == [b];
  }

  /**
   * The two reply shapes agree: `{latitude: "a", longitude: "b"}` and
   * `{loc: "a,b"}` with the same city and region give the same location.
   */
  lemma ShapesAgree(a: string, b: string, city: JsValue, region: JsValue, parseFloat: JsValue -> JsValue)
    requires a != "" && b != "" && ',' !in a && ',' !in b
    ensures ParseReply(Body(JsonObject(Str(a), Str(b), Undefined, city, region)), parseFloat)
         == ParseReply(Body(JsonObject(Undefined, Undefined, Str(a + "," + b), city, region)), parseFloat)
  {
    LocShape(JsonObject(Undefined, Undefined, Str(a + "," + b), city, region), parseFloat, a, b);
  }

  /**
   * Numeric coordinates, as ipapi.co and geolocation-db send them, agree with
   * the `loc` shape as well: `parseFloat` converts a number to its string
   * form before parsing, so `parseFloat(x)` is `parseFloat` of `fmt(x)` when
   * `fmt` prints numbers as the runtime does. A zero coordinate is falsy and
   * is excluded.
   */
  lemma NumericShapesAgree(x: real, y: real, city: JsValue, region: JsValue, parseFloat: JsValue -> JsValue,
                           fmt: real -> string)
    requires x != 0.0 && y != 0.0
    requires fmt(x) != "" && fmt(y) != "" && ',' !in fmt(x) && ',' !in fmt(y)
    requires parseFloat(Num(x)) == parseFloat(Str(fmt(x))) && parseFloat(Num(y)) == parseFloat(Str(fmt(y)))
    ensures ParseReply(Body(JsonObject(Num(x), Num(y), Undefined, city, region)), parseFloat)
         == ParseReply(Body(JsonObject(Undefined, Undefined, Str(fmt(x) + "," + fmt(y)), city, region)), parseFloat)
  {
    LocShape(JsonObject(Undefined, Undefined, Str(fmt(x) + "," + fmt(y)), city, region), parseFloat, fmt(x), fmt(y));
  }

  /** Replies that never yield a location: failures, null, non-objects, objects without coordinates. */
  lemma UnusableReplies(reply: ProviderReply, parseFloat: JsValue -> JsValue)
    requires || reply.FetchFailed?
             || (reply.Body? && !reply.data.JsonObject?)
             || (reply.Body? && reply.data.JsonObject?
                 && !(Truthy(reply.data.latitude) && Truthy(reply.data.longitude))
                 && !(reply.data.loc.Str? && reply.data.loc.s != ""))
    ensures ParseReply(reply, parseFloat) == Skipped
  {
  }

  /** The result of `tryIPService(index)`: a location (with its place) or none, and the provider indexes queried. */
  datatype Cascade = Cascade(location: Option<Location>, place: JsValue, queried: seq<nat>)

  /**
   * `tryIPService(index)`: query provider `index`, stop at a usable reply,
   * otherwise recurse on `index + 1`. The providers queried are consecutive
   * from `index` and all lie in the list.
   */
  function TryIpServices(replies: seq<ProviderReply>, index: nat, parseFloat: JsValue -> JsValue): (c: Cascade)
    requires |replies| == |IpServices|
    ensures forall k :: 0 <= k < |c.queried| ==> c.queried[k] == index + k && c.queried[k] < |IpServices|
    decreases |IpServices| - index
  {
    if index >= |IpServices| then Cascade(None, Undefined, [])
    else
      match ParseReply(replies[index], parseFloat)
      case Located(l, place) => Cascade(Some(l), place, [index])
      case Skipped =>
        var rest := TryIpServices(replies, index + 1, parseFloat);
        rest.(queried := [index] + rest.queried)
  }

  /**
   * The cascade queries at least one provider when any is left, and never
   * beyond the list; every queried provider but the
   * last gave an unusable reply; it ends with a location exactly when the
   * last queried provider gave a usable one, and without one only after
   * every remaining provider was tried.
   */
  lemma {:induction false} CascadeOrder(replies: seq<ProviderReply>, index: nat, parseFloat: JsValue -> JsValue)
    requires |replies| == |IpServices|
    ensures var c := TryIpServices(replies, index, parseFloat);
      && (index >= |IpServices| ==> c.queried == [])
      && (index < |IpServices| ==> 1 <= |c.queried| && index + |c.queried| <= |IpServices|)
      && (c.location.None? && index < |IpServices| ==> index + |c.queried| == |IpServices|)
      && (forall k :: index <= k < index + |c.queried| - 1 ==> ParseReply(replies[k], parseFloat).Skipped?)
      && (c.location.Some? <==> |c.queried| > 0 && ParseReply(replies[index + |c.queried| - 1], parseFloat).Located?)
      && (c.location.Some? ==>
            ParseReply(replies[index + |c.queried| - 1], parseFloat) == Located(c.location.value, c.place))
    decreases |IpServices| - index
  {
    if index < |IpServices| && ParseReply(replies[index], parseFloat).Skipped? {
      CascadeOrder(replies, index + 1, parseFloat);
    }
  }

  /** Every location the cascade yields is an IP location with the coarse accuracy. */
  lemma {:induction false} CascadeYieldsIpLocation(replies: seq<ProviderReply>, index: nat,
                                                   parseFloat: JsValue -> JsValue)
    requires |replies| == |IpServices|
    ensures var c := TryIpServices(replies, index, parseFloat);
      c.location.Some? ==> c.location.value.source == Ip && c.location.value.accuracy == IpAccuracy
    decreases |IpServices| - index
  {
    if index < |IpServices| && ParseReply(replies[index], parseFloat).Skipped? {
      CascadeYieldsIpLocation(replies, index + 1, parseFloat);
    }
  }

  /** What one `getCurrentLocation` run does: whether GPS was queried, the location found, the providers queried. */
  datatype Resolution = Resolution(gpsQueried: bool, location: Option<Location>, place: JsValue, queried: seq<nat>)

  /** `getCurrentLocation`: GPS first when the browser has it; on any GPS failure, or without it, the cascade from 0. */
  function Resolve(supported: bool, gps: GpsResult, replies: seq<ProviderReply>, parseFloat: JsValue -> JsValue)
    : Resolution
    requires |replies| == |IpServices|
  {
    if supported && gps.Fix? then Resolution(true, Some(GpsLocation(gps)), Undefined, [])
    else
      var c := TryIpServices(replies, 0, parseFloat);
      Resolution(supported, c.location, c.place, c.queried)
  }

  /**
   * A GPS fix is used as is and no provider is queried; otherwise the
   * cascade starts at provider 0. At most three provider calls are made,
   * and any location found is a GPS location or an IP one.
   */
  lemma ResolveProperties(supported: bool, gps: GpsResult, replies: seq<ProviderReply>,
                          parseFloat: JsValue -> JsValue)
    requires |replies| == |IpServices|
    ensures var r := Resolve(supported, gps, replies, parseFloat);
      && (r.gpsQueried <==> supported)
      && (supported && gps.Fix? ==> r.location == Some(GpsLocation(gps)) && r.queried == [])
      && (!(supported && gps.Fix?) ==> r.location == TryIpServices(replies, 0, parseFloat).location
                                       && |r.queried| >= 1 && r.queried[0] == 0)
      && |r.queried| <= |IpServices|
      && (forall k :: 0 <= k < |r.queried| ==> r.queried[k] == k)
      && (r.location.Some? && r.location.value.source == Ip ==> r.location.value.accuracy == IpAccuracy)
  {
    CascadeOrder(replies, 0, parseFloat);
    CascadeYieldsIpLocation(replies, 0, parseFloat);
  }

  /** GPS times out, provider 0 fails, provider 1 answers in the `loc` shape with a city: that city's location is stored. */
  lemma TimeoutThenSecondProvider(a: string, b: string, city: string, parseFloat: JsValue -> JsValue, third: ProviderReply)
    requires ',' !in a && ',' !in b && city != ""
    ensures var replies := [FetchFailed, Body(JsonObject(Undefined, Undefined, Str(a + "," + b), Str(city), Undefined)), third];
      Resolve(true, PositionError(TIMEOUT), replies, parseFloat)
        == Resolution(true, Some(Location(parseFloat(Str(a)), parseFloat(Str(b)), IpAccuracy, Ip, Str(city))),
                      Str(city), [0, 1])
  {
    var data := JsonObject(Undefined, Undefined, Str(a + "," + b), Str(city), Undefined);
    var replies := [FetchFailed, Body(data), third];
    var l := Location(parseFloat(Str(a)), parseFloat(Str(b)), IpAccuracy, Ip, Str(city));
    LocShape(data, parseFloat, a, b);
    assert TryIpServices(replies, 1, parseFloat) == Cascade(Some(l), Str(city), [1]);
    assert ParseReply(replies[0], parseFloat) == Skipped;
    assert [0] + [1] == [0, 1];
  }

  /**
   * The coordinates `confirmSOS` sends: a fresh GPS fix if there is one,
   * otherwise the stored location if any; nothing when the browser lacks
   * geolocation.
   */
  function SosCoordinates(supported: bool, gps: GpsResult, stored: Option<Location>): Option<(JsValue, JsValue)> {
    if !supported then None
    else if gps.Fix? then Some((gps.latitude, gps.longitude))
    else if stored.Some? then Some((stored.value.lat, stored.value.lng))
    else None
  }

  /** A fresh fix wins over the stored location; the stored one is the fallback; without either nothing is sent. */
  lemma SosCoordinatesChoice(supported: bool, gps: GpsResult, stored: Option<Location>)
    ensures supported && gps.Fix? ==> SosCoordinates(supported, gps, stored) == Some((gps.latitude, gps.longitude))
    ensures supported && gps.PositionError? && stored.Some? ==>
      SosCoordinates(supported, gps, stored) == Some((stored.value.lat, stored.value.lng))
    ensures SosCoordinates(supported, gps, stored).None? <==> !supported || (gps.PositionError? && stored.None?)
  {
  }
}
