/**
 * The handler of the agent's `/toolCall` hook for `get_weather`: geocode the
 * location, look up the weather at the first match, and send exactly one tool
 * output back, tagged with the invocation's `tool_call_id`. The two HTTP
 * lookups are inputs: their outcomes are given, and the result records which
 * lookups the handler issued.
 */
module ToolCall {
  import opened Wrappers
  import opened Directives

  /** The coordinates of a geocoding result; its other fields are only logged. */
  datatype Place = Place(latitude: real, longitude: real)

  /** What the geocoding request produced. */
  datatype GeocodeOutcome =
    | GeocodeFailed(reason: string)                 // the request, or reading its `data.results`, threw
    | GeocodeReturned(results: Option<seq<Place>>)  // None: `data.results` is not an array

  /** What the weather request produced; its payload is passed on unread. */
  datatype WeatherOutcome =
    | WeatherFailed(reason: string)
    | WeatherReturned(payload: string)

  datatype ToolArgs = ToolArgs(location: Option<string>, scale: Option<string>)

  /** The payload of the `/toolCall` hook. */
  datatype ToolInvocation = ToolInvocation(name: Option<string>, args: Option<ToolArgs>, toolCallId: string)

  /** An outbound lookup request, with the values its URL is built from. */
  datatype Lookup =
    | GeocodeLookup(name: Option<string>)
    | WeatherLookup(latitude: real, longitude: real, unit: Option<string>)

  /** The lookups issued, in order, and the directives sent. */
  datatype ToolCallResult = ToolCallResult(lookups: seq<Lookup>, directives: seq<Directive>)

  /** Destructuring `args` throws, before anything is sent, when the invocation has none. */
  predicate Handleable(inv: ToolInvocation) {
    inv.args.Some?
  }

  /** Geocoding gave a non-empty array of results. */
  predicate Located(geo: GeocodeOutcome) {
    geo.GeocodeReturned? && geo.results.Some? && |geo.results.value| > 0
  }

  /** The place whose weather is looked up, or why there is none. */
  function Resolve(geo: GeocodeOutcome): Result<Place, ToolFailure> {
    match geo
    case GeocodeFailed(reason) => Failure(LookupFailed(reason))
    case GeocodeReturned(None) => Failure(LocationNotFound)
    case GeocodeReturned(Some(places)) =>
      if |places| == 0 then Failure(LocationNotFound) else Success(places[0])
  }

  /** The one tool output sent for `inv`, and the lookups made to produce it. */
  function OnToolCall(inv: ToolInvocation, geo: GeocodeOutcome, weather: WeatherOutcome): (r: ToolCallResult)
    requires Handleable(inv)
    ensures |r.directives| == 1 && r.directives[0].SendToolOutput?
    ensures r.directives[0].toolCallId == inv.toolCallId
    ensures r.directives[0].data.FunctionCallResponse? ==> r.directives[0].data.functionCallId == inv.toolCallId
    ensures r.directives[0].data.FunctionCallResponse? <==> Located(geo) && weather.WeatherReturned?
    ensures r.directives[0].data == ToolError(LocationNotFound) <==> geo.GeocodeReturned? && !Located(geo)
    ensures 0 < |r.lookups| && r.lookups[0] == GeocodeLookup(inv.args.value.location)
    ensures |r.lookups| == 2 <==> Located(geo)
    ensures |r.lookups| <= 2
  {
    var id := inv.toolCallId;
    var geocoding := [GeocodeLookup(inv.args.value.location)];
    match Resolve(geo)
    case Failure(e) =>
      ToolCallResult(geocoding, [SendToolOutput(id, ToolError(e))])
    case Success(place) =>
      var lookups := geocoding + [WeatherLookup(place.latitude, place.longitude, inv.args.value.scale)];
      match weather
      case WeatherFailed(reason) =>
        ToolCallResult(lookups, [SendToolOutput(id, ToolError(LookupFailed(reason)))])
      case WeatherReturned(payload) =>
        ToolCallResult(lookups, [SendToolOutput(id, FunctionCallResponse(id, payload))])
  }

  /** The output sent for a tool call. */
  function OutputOf(inv: ToolInvocation, geo: GeocodeOutcome, weather: WeatherOutcome): ToolOutput
    requires Handleable(inv)
  {
    OnToolCall(inv, geo, weather).directives[0].data
  }

  /** Without a usable geocoding result the weather is never looked up, so its
      outcome cannot affect what is sent. */
  lemma WeatherSkippedUnlessLocated(inv: ToolInvocation, geo: GeocodeOutcome, w1: WeatherOutcome, w2: WeatherOutcome)
    requires Handleable(inv) && !Located(geo)
    ensures OnToolCall(inv, geo, w1).lookups == [GeocodeLookup(inv.args.value.location)]
    ensures OnToolCall(inv, geo, w1) == OnToolCall(inv, geo, w2)
    ensures OutputOf(inv, geo, w1).ToolError?
  {
  }

  /** With a usable geocoding result the weather is asked for at the first
      result's coordinates, in the requested scale. */
  lemma FirstPlaceUsed(inv: ToolInvocation, geo: GeocodeOutcome, weather: WeatherOutcome)
    requires Handleable(inv) && Located(geo)
    ensures var p := geo.results.value[0];
      OnToolCall(inv, geo, weather).lookups[1] == WeatherLookup(p.latitude, p.longitude, inv.args.value.scale)
  {
  }

  /** A success carries exactly the weather payload; a failed lookup is
      reported with its reason, under the same correlation id. */
  lemma OutputReflectsWeather(inv: ToolInvocation, geo: GeocodeOutcome, weather: WeatherOutcome)
    requires Handleable(inv) && Located(geo)
    ensures weather.WeatherReturned? ==>
      OutputOf(inv, geo, weather) == FunctionCallResponse(inv.toolCallId, weather.payload)
    ensures weather.WeatherFailed? ==>
      OutputOf(inv, geo, weather) == ToolError(LookupFailed(weather.reason))
  {
  }

  /** A geocoding request that fails is reported with its own reason, not as
      an unknown location. */
  lemma GeocodeFailureReported(inv: ToolInvocation, geo: GeocodeOutcome, weather: WeatherOutcome)
    requires Handleable(inv) && geo.GeocodeFailed?
    ensures OutputOf(inv, geo, weather) == ToolError(LookupFailed(geo.reason))
  {
  }
}
