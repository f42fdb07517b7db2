/**
 * The state the Dashboard page (frontend/src/pages/Dashboard.js) keeps and
 * the handlers that change it: `getCurrentLocation`, `getIPBasedLocation`
 * with its recursive `tryIPService`, `handleSOS`, `confirmSOS`,
 * `handleViewLocation` and `handleFindNearby`.
 *
 * Each handler is a method whose callbacks run to completion inside the
 * call: what the browser reports (the GPS result, each provider's reply,
 * whether the SOS request succeeds) is a parameter. Requests the page
 * issues are logged in order, and so are the messages it shows.
 */
module Dashboard {
  import opened Js
  import opened Location

  /** The messages the page shows, one constructor per message in the page's code. */
  datatype Notice =
    | AccurateLocation                 // after a GPS fix
    | LocationIssue(message: string)   // after a GPS error, see GpsErrorMessage
    | GeolocationUnsupported
    | GettingApproximate               // the IP cascade starts
    | ApproximateLocation(place: JsValue)
    | LocationUndetermined             // every provider failed
    | SosSent                          // the request with a fresh fix succeeded
    | SosSentApproximate               // the request with the stored location succeeded
    | SosFailed                        // the request with the stored location failed
    | NoLocationForSos
    | LocationNotAvailable             // a dialog was asked for before any location was stored

  /** One `sosAPI.sendSOS(userId, lat, lng)` call. */
  datatype SosCall = SosCall(userId: JsValue, latitude: JsValue, longitude: JsValue)

  /** The URLs of the providers queried, in query order. */
  function ProviderUrls(queried: seq<nat>): (urls: seq<string>)
    requires forall k :: 0 <= k < |queried| ==> queried[k] < |IpServices|
    ensures |urls| == |queried|
    ensures forall k :: 0 <= k < |queried| ==> urls[k] == IpServices[queried[k]]
  {
    seq(|queried|, k requires 0 <= k < |queried| => IpServices[queried[k]])
  }

  /** The message the cascade ends with. */
  function CascadeNotices(c: Cascade): seq<Notice> {
    if c.location.Some? then [ApproximateLocation(c.place)] else [LocationUndetermined]
  }

  /** The messages one `getCurrentLocation` run shows, in order. */
  function ResolutionNotices(supported: bool, gps: GpsResult, replies: seq<ProviderReply>,
                             parseFloat: JsValue -> JsValue): seq<Notice>
    requires |replies| == |IpServices|
  {
    var cascade := CascadeNotices(TryIpServices(replies, 0, parseFloat));
    if !supported then [GeolocationUnsupported, GettingApproximate] + cascade
    else if gps.Fix? then [AccurateLocation]
    else [LocationIssue(GpsErrorMessage(gps.code)), GettingApproximate] + cascade
  }

  /**
   * The first message says how GPS went, the last one whether a location
   * was found: a GPS or approximate-location message exactly when one was,
   * "could not determine" exactly when none was.
   */
  lemma ResolutionFeedback(supported: bool, gps: GpsResult, replies: seq<ProviderReply>,
                           parseFloat: JsValue -> JsValue)
    requires |replies| == |IpServices|
    ensures var n := ResolutionNotices(supported, gps, replies, parseFloat);
      var r := Resolve(supported, gps, replies, parseFloat);
      && |n| >= 1
      && (n[0] == GeolocationUnsupported <==> !supported)
      && (n[0] == AccurateLocation <==> supported && gps.Fix?)
      && (supported && gps.PositionError? ==> n[0] == LocationIssue(GpsErrorMessage(gps.code)))
      && (n[|n| - 1] == LocationUndetermined <==> r.location.None?)
      && (r.location.Some? ==> n[|n| - 1] == AccurateLocation || n[|n| - 1] == ApproximateLocation(r.place))
  {
  }

  /** The SOS requests `confirmSOS` issues: one with the chosen coordinates, or none. */
  function SosCalls(userId: JsValue, coordinates: Option<(JsValue, JsValue)>): seq<SosCall> {
    match coordinates
    case Some((lat, lng)) => [SosCall(userId, lat, lng)]
    case None => []
  }

  /**
   * The messages `confirmSOS` shows. A failed request made with a fresh fix
   * rejects outside any handler, so it shows nothing.
   */
  function SosNotices(supported: bool, gps: GpsResult, hasStored: bool, apiOk: bool): seq<Notice> {
    if !supported then []
    else if gps.Fix? then (if apiOk then [SosSent] else [])
    else if !hasStored then [NoLocationForSos]
    else if apiOk then [SosSentApproximate]
    else [SosFailed]
  }

  /** Whether `confirmSOS` reaches the code that closes the dialog and clears the spinner. */
  predicate SosSettles(supported: bool, gps: GpsResult, apiOk: bool) {
    supported && (gps.PositionError? || apiOk)
  }

  /**
   * A success message is shown exactly when a request was made and
   * succeeded; a failure message only after a request with the stored
   * location failed; without any location nothing is sent and the user is
   * told. The spinner is left running exactly when the handler never
   * settles.
   */
  lemma SosFeedback(supported: bool, gps: GpsResult, stored: Option<Location>, apiOk: bool, userId: JsValue)
    ensures var n := SosNotices(supported, gps, stored.Some?, apiOk);
      var calls := SosCalls(userId, SosCoordinates(supported, gps, stored));
      && |n| <= 1 && |calls| <= 1
      && ((SosSent in n || SosSentApproximate in n) <==> |calls| == 1 && apiOk)
      && (SosFailed in n <==> supported && gps.PositionError? && stored.Some? && !apiOk)
      && (NoLocationForSos in n <==> supported && calls == [])
      && (!SosSettles(supported, gps, apiOk) <==> n == [] && (calls == [] || !apiOk))
  {
  }

  /**
   * The page's state. `geolocationSupported`, `currentUserId` and
   * `parseFloat` are fixed by the browser and the logged-in user.
   */
  class DashboardPage {
    const geolocationSupported: bool
    const currentUserId: JsValue
    const parseFloat: JsValue -> JsValue

    var userLocation: Option<Location>
    var loading: bool
    var sosDialogOpen: bool
    var locationDialogOpen: bool
    var nearbyDialogOpen: bool
    /** The options of every GPS query issued. */
    var gpsRequests: seq<PositionOptions>
    /** The URL of every provider fetched. */
    var ipRequests: seq<string>
    var sosRequests: seq<SosCall>
    var notices: seq<Notice>

    /** The page before its mount effect runs. */
    constructor (supported: bool, userId: JsValue, parseFloat: JsValue -> JsValue)
      ensures geolocationSupported == supported && currentUserId == userId && this.parseFloat == parseFloat
      ensures userLocation.None? && !loading && !sosDialogOpen && !locationDialogOpen && !nearbyDialogOpen
      ensures gpsRequests == [] && ipRequests == [] && sosRequests == [] && notices == []
    {
      geolocationSupported := supported;
      currentUserId := userId;
      this.parseFloat := parseFloat;
      userLocation := None;
      loading := false;
      sosDialogOpen := false;
      locationDialogOpen := false;
      nearbyDialogOpen := false;
      gpsRequests := [];
      ipRequests := [];
      sosRequests := [];
      notices := [];
    }

    /**
     * `tryIPService(index)`: fetch provider `index`; store the first usable
     * reply, otherwise go on with the next provider; after the last one
     * report failure. A failed cascade leaves the stored location as it was.
     */
    method TryIpService(index: nat, replies: seq<ProviderReply>)
      requires |replies| == |IpServices|
      modifies this`ipRequests, this`userLocation, this`notices
      decreases |IpServices| - index
      ensures var c := TryIpServices(replies, index, parseFloat);
        && ipRequests == old(ipRequests) + ProviderUrls(c.queried)
        && userLocation == (if c.location.Some? then c.location else old(userLocation))
        && notices == old(notices) + CascadeNotices(c)
    {
      if index >= |IpServices| {
        notices := notices + [LocationUndetermined];
        return;
      }
      ipRequests := ipRequests + [IpServices[index]];
      match ParseReply(replies[index], parseFloat)
      case Located(location, place) =>
        userLocation := Some(location);
        notices := notices + [ApproximateLocation(place)];
      case Skipped =>
        TryIpService(index + 1, replies);
    }

    /** `getIPBasedLocation`: announce the approximate lookup, then run the cascade from provider 0. */
    method GetIpBasedLocation(replies: seq<ProviderReply>)
      requires |replies| == |IpServices|
      modifies this`ipRequests, this`userLocation, this`notices
      ensures var c := TryIpServices(replies, 0, parseFloat);
        && ipRequests == old(ipRequests) + ProviderUrls(c.queried)
        && userLocation == (if c.location.Some? then c.location else old(userLocation))
        && notices == old(notices) + [GettingApproximate] + CascadeNotices(c)
    {
      notices := notices + [GettingApproximate];
      TryIpService(0, replies);
    }

    /**
     * `getCurrentLocation`: one GPS query with the 10 s high-accuracy
     * options when the browser has geolocation, and the IP cascade when it
     * fails or is missing. The stored location becomes the one `Resolve`
     * finds, and stays as it was when none is found.
     */
    method GetCurrentLocation(gps: GpsResult, replies: seq<ProviderReply>)
      requires |replies| == |IpServices|
      modifies this`gpsRequests, this`ipRequests, this`userLocation, this`notices
      ensures var r := Resolve(geolocationSupported, gps, replies, parseFloat);
        && gpsRequests == old(gpsRequests) + (if geolocationSupported then [ResolveOptions] else [])
        && ipRequests == old(ipRequests) + ProviderUrls(r.queried)
        && userLocation == (if r.location.Some? then r.location else old(userLocation))
        && notices == old(notices) + ResolutionNotices(geolocationSupported, gps, replies, parseFloat)
    {
      if geolocationSupported {
        gpsRequests := gpsRequests + [ResolveOptions];
        match gps
        case Fix(_, _, _) =>
          userLocation := Some(GpsLocation(gps));
          notices := notices + [AccurateLocation];
        case PositionError(code) =>
          notices := notices + [LocationIssue(GpsErrorMessage(code))];
          GetIpBasedLocation(replies);
      } else {
        notices := notices + [GeolocationUnsupported];
        GetIpBasedLocation(replies);
      }
    }

    /** `handleSOS`: open the confirmation dialog. */
    method HandleSos()
      modifies this`sosDialogOpen
      ensures sosDialogOpen
    {
      sosDialogOpen := true;
    }

    /**
     * `confirmSOS`: start the spinner, query GPS with the 5 s options, and
     * send the fresh fix, else the stored location, else nothing. Only the
     * settled paths close the dialog and stop the spinner: without
     * geolocation nothing happens after the spinner starts, and a failed
     * request with a fresh fix is an unhandled rejection.
     */
    method ConfirmSos(gps: GpsResult, apiOk: bool)
      modifies this`loading, this`gpsRequests, this`sosRequests, this`notices, this`sosDialogOpen
      ensures gpsRequests == old(gpsRequests) + (if geolocationSupported then [SosOptions] else [])
      ensures sosRequests == old(sosRequests)
                             + SosCalls(currentUserId, SosCoordinates(geolocationSupported, gps, userLocation))
      ensures notices == old(notices) + SosNotices(geolocationSupported, gps, userLocation.Some?, apiOk)
      ensures loading == !SosSettles(geolocationSupported, gps, apiOk)
      ensures sosDialogOpen == (old(sosDialogOpen) && !SosSettles(geolocationSupported, gps, apiOk))
    {
      loading := true;
      if geolocationSupported {
        gpsRequests := gpsRequests + [SosOptions];
        match gps
        case Fix(latitude, longitude, _) =>
          sosRequests := sosRequests + [SosCall(currentUserId, latitude, longitude)];
          if apiOk {
            notices := notices + [SosSent];
            sosDialogOpen := false;
            loading := false;
          }
        case PositionError(_) =>
          if userLocation.Some? {
            sosRequests := sosRequests + [SosCall(currentUserId, userLocation.value.lat, userLocation.value.lng)];
            notices := notices + [if apiOk then SosSentApproximate else SosFailed];
          } else {
            notices := notices + [NoLocationForSos];
          }
          sosDialogOpen := false;
          loading := false;
      }
    }

    /** `handleViewLocation`: open the location dialog when a location is stored, otherwise resolve one. */
    method HandleViewLocation(gps: GpsResult, replies: seq<ProviderReply>)
      requires |replies| == |IpServices|
      modifies this`locationDialogOpen, this`gpsRequests, this`ipRequests, this`userLocation, this`notices
      ensures old(userLocation).Some? ==>
        && locationDialogOpen && userLocation == old(userLocation) && notices == old(notices)
        && gpsRequests == old(gpsRequests) && ipRequests == old(ipRequests)
      ensures old(userLocation).None? ==>
        var r := Resolve(geolocationSupported, gps, replies, parseFloat);
        && locationDialogOpen == old(locationDialogOpen)
        && userLocation == r.location
        && notices == old(notices) + [LocationNotAvailable]
                      + ResolutionNotices(geolocationSupported, gps, replies, parseFloat)
        && gpsRequests == old(gpsRequests) + (if geolocationSupported then [ResolveOptions] else [])
        && ipRequests == old(ipRequests) + ProviderUrls(r.queried)
    {
      if userLocation.Some? {
        locationDialogOpen := true;
      } else {
        notices := notices + [LocationNotAvailable];
        GetCurrentLocation(gps, replies);
      }
    }

    /** `handleFindNearby`: the same rule for the nearby-help dialog. */
    method HandleFindNearby(gps: GpsResult, replies: seq<ProviderReply>)
      requires |replies| == |IpServices|
      modifies this`nearbyDialogOpen, this`gpsRequests, this`ipRequests, this`userLocation, this`notices
      ensures old(userLocation).Some? ==>
        && nearbyDialogOpen && userLocation == old(userLocation) && notices == old(notices)
        && gpsRequests == old(gpsRequests) && ipRequests == old(ipRequests)
      ensures old(userLocation).None? ==>
        var r := Resolve(geolocationSupported, gps, replies, parseFloat);
        && nearbyDialogOpen == old(nearbyDialogOpen)
        && userLocation == r.location
        && notices == old(notices) + [LocationNotAvailable]
                      + ResolutionNotices(geolocationSupported, gps, replies, parseFloat)
        && gpsRequests == old(gpsRequests) + (if geolocationSupported then [ResolveOptions] else [])
        && ipRequests == old(ipRequests) + ProviderUrls(r.queried)
    {
      if userLocation.Some? {
        nearbyDialogOpen := true;
      } else {
        notices := notices + [LocationNotAvailable];
        GetCurrentLocation(gps, replies);
      }
    }
  }
}
