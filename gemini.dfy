/**
 * The gateway to the hosted model: the choice between a direct client and the proxy,
 * the dispatch of the first tool call into a Route or a list of locations, and the
 * home-base lookup that reads a JSON answer out of a fenced code block.
 *
 * The network, the SDK and `JSON.parse` are not modelled: what they answer is passed in.
 */
module Gemini {
  import opened Types
  import opened Text
  import opened Seqs

  const RouteTool := "suggest_route"
  const PlacesTool := "suggest_places"
  const PlanFallbackText := "Here is your plan!"
  const MissingConfigError := "Gemini API key not configured. Set VITE_GEMINI_PROXY_URL or API_KEY in .env.local"
  const DirectModeError := "Gemini API key not configured for direct mode."
  const JsonFence := "```json"
  const Fence := "```"

  /** A direct SDK client; only the key it was built with is visible. */
  datatype Client = Client(apiKey: string)

  /**
   * The module-level `aiClient` cache. `proxyUrl` is the build-time proxy setting and an
   * `apiKey` of "" stands for an unset environment variable (the source only asks whether each is truthy).
   */
  class ClientCache {
    const proxyUrl: string
    var aiClient: Option<Client>

    constructor(proxyUrl: string)
      ensures this.proxyUrl == proxyUrl && aiClient == None
    {
      this.proxyUrl := proxyUrl;
      aiClient := None;
    }

    /** `getClient`: a cached client wins; otherwise a key builds and caches one; no key is an error unless a proxy is set. */
    method GetClient(apiKey: string) returns (r: Result<Option<Client>>)
      modifies this
      ensures old(aiClient).Some? ==> r == Ok(old(aiClient)) && aiClient == old(aiClient)
      ensures old(aiClient).None? && apiKey == "" && proxyUrl != "" ==> r == Ok(None) && aiClient == None
      ensures old(aiClient).None? && apiKey == "" && proxyUrl == "" ==> r == Err(MissingConfigError) && aiClient == None
      ensures old(aiClient).None? && apiKey != "" ==> r == Ok(Some(Client(apiKey))) && aiClient == Some(Client(apiKey))
    {
      if aiClient.None? {
        if apiKey == "" {
          if proxyUrl != "" {
            return Ok(None);
          }
          return Err(MissingConfigError);
        }
        aiClient := Some(Client(apiKey));
      }
      r := Ok(aiClient);
    }
  }

  // ---------------------------------------------------------------- tool-call arguments

  /** One element of `suggest_route`'s `steps` argument. */
  datatype StepArgs = StepArgs(name: string, latitude: real, longitude: real, time: string, description: string)

  /** One element of `suggest_places`'s `locations` argument; `priceRange` and `social_proof` are optional. */
  datatype PlaceArgs = PlaceArgs(
    name: string,
    description: string,
    category: LocationCategory,
    latitude: real,
    longitude: real,
    rating: real,
    priceRange: Option<PriceRange>,
    tips: string,
    socialProof: Option<seq<string>>)

  /** The untyped `args` object; an array the model left out is `None` (and `.map` on it throws). */
  datatype CallArgs = CallArgs(title: string, steps: Option<seq<StepArgs>>, locations: Option<seq<PlaceArgs>>)

  datatype FunctionCall = FunctionCall(name: string, args: CallArgs)

  /** What `chat.sendMessage` resolves to; "" is an empty or missing `text`. */
  datatype ModelReply = ModelReply(text: string, functionCalls: seq<FunctionCall>)

  /** What the gateway hands to the chat panel. */
  datatype GeminiResponse = GeminiResponse(text: string, route: Option<Route>, generatedLocations: Option<seq<LocationData>>)

  /** `suggest_route`'s steps, one route step per argument, latitude and longitude paired up. */
  function StepsFromArgs(steps: seq<StepArgs>): (r: seq<RouteStep>)
    ensures |r| == |steps|
    ensures forall i :: 0 <= i < |steps| ==>
      r[i] == RouteStep(steps[i].name, Coord(steps[i].latitude, steps[i].longitude), steps[i].time, steps[i].description)
  {
    if steps == [] then []
    else
      var s := steps[0];
      [RouteStep(s.name, Coord(s.latitude, s.longitude), s.time, s.description)] + StepsFromArgs(steps[1..])
  }

  /** The id `gen-<stamp>-<index>` given to the place at `index` of a batch. */
  function PlaceId(stamp: string, index: nat): string {
    "gen-" + stamp + "-" + NatToString(index)
  }

  /** The LocationData built from one `suggest_places` entry at position `index`. */
  function PlaceFromArgs(a: PlaceArgs, stamp: string, index: nat, image: nat -> string): LocationData {
    LocationData(
      id := PlaceId(stamp, index),
      name := a.name,
      description := a.description,
      category := a.category,
      coordinates := Coord(a.latitude, a.longitude),
      rating := a.rating,
      imageUrl := image(index),
      priceRange := Some(if a.priceRange.Some? then a.priceRange.value else TwoDollars),
      tips := a.tips,
      isGenerated := true,
      distanceFromBase := None,
      socialProof := Some(if a.socialProof.Some? then a.socialProof.value else []))
  }

  /**
   * `args.locations.map(...)` from position `first` on: every result is flagged as generated,
   * defaults to a '$$' price and to no social proof, and keeps its argument's position.
   * `image` stands for the random picture URL drawn for each index.
   */
  function PlacesFromArgs(places: seq<PlaceArgs>, stamp: string, first: nat, image: nat -> string): (r: seq<LocationData>)
    ensures |r| == |places|
    ensures forall i :: 0 <= i < |places| ==> r[i] == PlaceFromArgs(places[i], stamp, first + i, image)
    ensures forall i :: 0 <= i < |places| ==>
      && r[i].isGenerated
      && r[i].id == PlaceId(stamp, first + i)
      && r[i].name == places[i].name
      && r[i].category == places[i].category
      && r[i].coordinates == Coord(places[i].latitude, places[i].longitude)
      && r[i].priceRange == Some(if places[i].priceRange.Some? then places[i].priceRange.value else TwoDollars)
      && r[i].socialProof == Some(if places[i].socialProof.Some? then places[i].socialProof.value else [])
      && r[i].distanceFromBase == None
    decreases |places|
  {
    if places == [] then []
    else [PlaceFromArgs(places[0], stamp, first, image)] + PlacesFromArgs(places[1..], stamp, first + 1, image)
  }

  /** The places of one batch get pairwise different ids, whatever the time stamp. */
  lemma PlaceIdsDistinct(places: seq<PlaceArgs>, stamp: string, image: nat -> string)
    ensures forall i, j :: 0 <= i < j < |places| ==>
      PlacesFromArgs(places, stamp, 0, image)[i].id != PlacesFromArgs(places, stamp, 0, image)[j].id
  {
    var r := PlacesFromArgs(places, stamp, 0, image);
    forall i, j | 0 <= i < j < |places| ensures r[i].id != r[j].id {
      if r[i].id == r[j].id {
        var lead := "gen-" + stamp + "-";
        assert r[i].id == lead + NatToString(i) && r[j].id == lead + NatToString(j);
        assert NatToString(i) == r[i].id[|lead|..];
        assert NatToString(j) == r[j].id[|lead|..];
        NatToStringInjective(i, j);
      }
    }
  }

  /** `response.text || "Here is your plan!"`. */
  function TextOr(text: string): (r: string)
    ensures r != []
    ensures text != [] ==> r == text
    ensures text == [] ==> r == PlanFallbackText
  {
    if text == "" then PlanFallbackText else text
  }

  /** At most one structured payload per answer. */
  predicate AtMostOnePayload(r: Result<GeminiResponse>) {
    r.Ok? ==> r.value.route.None? || r.value.generatedLocations.None?
  }

  /**
   * Direct mode of `sendMessageToGemini`. `first` is the answer to the user's message and
   * `followUp` the answer to the function response sent back after a recognised tool call;
   * an `Err` is a rejected call. Only the first function call is looked at.
   */
  method SendDirect(first: Result<ModelReply>, followUp: Result<ModelReply>, stamp: string, image: nat -> string)
    returns (r: Result<GeminiResponse>)
    ensures AtMostOnePayload(r)
    ensures first.Err? ==> r == Err(first.error)
    ensures first.Ok? && (first.value.functionCalls == [] || first.value.functionCalls[0].name !in {RouteTool, PlacesTool})
      ==> r == Ok(GeminiResponse(TextOr(first.value.text), None, None))
    ensures first.Ok? && first.value.functionCalls != [] && first.value.functionCalls[0].name == RouteTool ==>
      var args := first.value.functionCalls[0].args;
      if args.steps.None? then r.Err?
      else if followUp.Err? then r == Err(followUp.error)
      else r == Ok(GeminiResponse(TextOr(followUp.value.text), Some(Route(args.title, StepsFromArgs(args.steps.value))), None))
    ensures first.Ok? && first.value.functionCalls != [] && first.value.functionCalls[0].name == PlacesTool ==>
      var args := first.value.functionCalls[0].args;
      if args.locations.None? then r.Err?
      else if followUp.Err? then r == Err(followUp.error)
      else r == Ok(GeminiResponse(TextOr(followUp.value.text), None, Some(PlacesFromArgs(args.locations.value, stamp, 0, image))))
  {
    if first.Err? {
      return Err(first.error);
    }
    var response := first.value;
    var routeData: Option<Route> := None;
    var generatedLocations: Option<seq<LocationData>> := None;
    var functionCalls := response.functionCalls;
    if |functionCalls| > 0 {
      var call := functionCalls[0];
      if call.name == RouteTool {
        if call.args.steps.None? {
          return Err("TypeError: args.steps is undefined");
        }
        routeData := Some(Route(call.args.title, StepsFromArgs(call.args.steps.value)));
        if followUp.Err? {
          return Err(followUp.error);
        }
        response := followUp.value;
      } else if call.name == PlacesTool {
        if call.args.locations.None? {
          return Err("TypeError: args.locations is undefined");
        }
        generatedLocations := Some(PlacesFromArgs(call.args.locations.value, stamp, 0, image));
        if followUp.Err? {
          return Err(followUp.error);
        }
        response := followUp.value;
      }
    }
    r := Ok(GeminiResponse(TextOr(response.text), routeData, generatedLocations));
  }

  /** The proxy's HTTP answer: its status, its body as text, and that body read as JSON (`Err` if it is not). */
  datatype HttpReply = HttpReply(ok: bool, status: nat, bodyText: string, json: Result<GeminiResponse>)

  /** Proxy mode of `sendMessageToGemini`: a failed fetch or a non-ok status rejects; otherwise the JSON body is returned as it is. */
  function SendViaProxy(reply: Result<HttpReply>): (r: Result<GeminiResponse>)
    ensures reply.Err? ==> r == Err(reply.error)
    ensures reply.Ok? && !reply.value.ok ==> r.Err? && StartsWith(r.error, "Proxy call failed: ")
    ensures r.Ok? ==> reply.Ok? && reply.value.ok && reply.value.json == r
    ensures reply.Ok? && reply.value.ok ==> r == reply.value.json
  {
    if reply.Err? then Err(reply.error)
    else if !reply.value.ok then
      var msg := "Proxy call failed: " + NatToString(reply.value.status) + " " + reply.value.bodyText;
      assert msg[..|"Proxy call failed: "|] == "Proxy call failed: ";
      Err(msg)
    else reply.value.json
  }

  /** `sendMessageToGemini`: the proxy when one is configured, the chat session otherwise. */
  method SendMessage(proxyUrl: string, reply: Result<HttpReply>, first: Result<ModelReply>, followUp: Result<ModelReply>,
                     stamp: string, image: nat -> string)
    returns (r: Result<GeminiResponse>)
    ensures proxyUrl != "" ==> r == SendViaProxy(reply)
    ensures proxyUrl == "" ==> AtMostOnePayload(r)
    ensures proxyUrl == "" && first.Err? ==> r == Err(first.error)
    ensures proxyUrl == "" && first.Ok? &&
      (first.value.functionCalls == [] || first.value.functionCalls[0].name !in {RouteTool, PlacesTool})
      ==> r == Ok(GeminiResponse(TextOr(first.value.text), None, None))
    ensures proxyUrl == "" && first.Ok? && first.value.functionCalls != [] && first.value.functionCalls[0].name == RouteTool ==>
      var args := first.value.functionCalls[0].args;
      if args.steps.None? then r.Err?
      else if followUp.Err? then r == Err(followUp.error)
      else r == Ok(GeminiResponse(TextOr(followUp.value.text), Some(Route(args.title, StepsFromArgs(args.steps.value))), None))
    ensures proxyUrl == "" && first.Ok? && first.value.functionCalls != [] && first.value.functionCalls[0].name == PlacesTool ==>
      var args := first.value.functionCalls[0].args;
      if args.locations.None? then r.Err?
      else if followUp.Err? then r == Err(followUp.error)
      else r == Ok(GeminiResponse(TextOr(followUp.value.text), None, Some(PlacesFromArgs(args.locations.value, stamp, 0, image))))
  {
    if proxyUrl != "" {
      r := SendViaProxy(reply);
    } else {
      r := SendDirect(first, followUp, stamp, image);
    }
  }

  // ---------------------------------------------------------------- resolveLocation

  /** The object `JSON.parse` is expected to yield for a home-base query. */
  datatype ParsedPlace = ParsedPlace(name: string, latitude: real, longitude: real)

  /** What `resolveLocation` resolves to when it finds a place. */
  datatype Place = Place(name: string, coordinates: Coord)

  /**
   * Removes every "```json", then every "```", as the two chained global replaces do: what is left
   * is a selection of the input's characters in which no three backticks stand in a row.
   */
  function StripFences(s: string): (r: string)
    ensures |r| <= |s|
    ensures IsSubsequence(r, s)
    ensures forall i :: !TripleAt(r, '`', i)
  {
    var once := RemoveAll(s, JsonFence);
    assert Fence == ['`', '`', '`'];
    RemoveAllRunGone(once, '`');
    SubsequenceTransitive(RemoveAll(once, Fence), once, s);
    RemoveAll(once, Fence)
  }

  /** A JSON body wrapped in a "```json … ```" block comes back out unchanged. */
  lemma FenceRoundTrip(body: string)
    requires '`' !in body
    ensures StripFences(JsonFence + body + Fence) == body
  {
    var s := JsonFence + body + Fence;
    assert StartsWith(s, JsonFence);
    assert s[|JsonFence|..] == body + Fence;
    RemoveAllTrailingShort(body, JsonFence);
    RemoveAllTrailing(body, Fence);
  }

  /** A pattern longer than the fence it ends with never matches `s + "```"` when `s` has no backtick. */
  lemma {:induction false} RemoveAllTrailingShort(s: string, pat: string)
    requires pat == JsonFence && '`' !in s
    ensures RemoveAll(s + Fence, pat) == s + Fence
    decreases |s|
  {
    var t := s + Fence;
    if s == [] {
      assert t == Fence;
      assert !StartsWith(t, pat);
      assert t[1..] == "``";
      assert !StartsWith(t[1..], pat);
      assert t[1..][1..] == "`";
      assert !StartsWith(t[1..][1..], pat);
      assert t[1..][1..][1..] == [];
    } else {
      assert t[0] == s[0] != '`';
      assert !StartsWith(t, pat);
      assert t[1..] == s[1..] + Fence;
      assert forall c :: c in s[1..] ==> c in s;
      RemoveAllTrailingShort(s[1..], pat);
    }
  }

  /** The text that is handed to `JSON.parse` in proxy mode. */
  function CleanedReply(text: string): (r: string)
    ensures r != [] ==> !IsWhitespace(r[0]) && !IsWhitespace(r[|r| - 1])
    ensures forall i :: !TripleAt(r, '`', i)
  {
    TrimKeepsNoTriple(StripFences(text), '`');
    Trim(StripFences(text))
  }

  /** An answer without any backtick is only trimmed before parsing. */
  lemma UnfencedReplyIsTrimmed(text: string)
    requires '`' !in text
    ensures CleanedReply(text) == Trim(text)
  {
    RemoveAllAbsent(text, JsonFence);
    RemoveAllAbsent(text, Fence);
  }

  /**
   * Proxy branch of `resolveLocation`. `text` is the proxy's `data.text` (`None` when the fetch,
   * the JSON body or the field is missing); `parse` stands for `JSON.parse` (`None` when it throws).
   * Every failure yields no place.
   */
  function ResolveViaProxy(text: Option<string>, parse: string -> Option<ParsedPlace>): (r: Option<Place>)
    ensures r.None? <==> text.None? || parse(CleanedReply(text.value)).None?
    ensures r.Some? ==> parse(CleanedReply(text.value)) == Some(ParsedPlace(r.value.name, r.value.coordinates.lat, r.value.coordinates.lng))
  {
    if text.None? then None
    else
      match parse(CleanedReply(text.value))
      case None => None
      case Some(p) => Some(Place(p.name, Coord(p.latitude, p.longitude)))
  }

  /** Direct branch: the SDK's answer text is parsed as it is; a failed call or an empty answer yields no place. */
  function ResolveDirect(text: Option<string>, parse: string -> Option<ParsedPlace>): (r: Option<Place>)
    ensures r.None? <==> text.None? || text.value == "" || parse(text.value).None?
    ensures r.Some? ==> parse(text.value) == Some(ParsedPlace(r.value.name, r.value.coordinates.lat, r.value.coordinates.lng))
  {
    if text.None? || text.value == "" then None
    else
      match parse(text.value)
      case None => None
      case Some(p) => Some(Place(p.name, Coord(p.latitude, p.longitude)))
  }

  /**
   * `resolveLocation`: with a proxy it never rejects; without one, `client` is what `getClient`
   * gave, and a missing client rejects before any request is made.
   */
  function ResolveLocation(proxyUrl: string, client: Result<Option<Client>>, text: Option<string>,
                           parse: string -> Option<ParsedPlace>): (r: Result<Option<Place>>)
    ensures proxyUrl != "" ==> r == Ok(ResolveViaProxy(text, parse))
    ensures proxyUrl == "" && client.Err? ==> r == Err(client.error)
    ensures proxyUrl == "" && client == Ok(None) ==> r == Err(DirectModeError)
    ensures proxyUrl == "" && client.Ok? && client.value.Some? ==> r == Ok(ResolveDirect(text, parse))
  {
    if proxyUrl != "" then Ok(ResolveViaProxy(text, parse))
    else if client.Err? then Err(client.error)
    else if client.value.None? then Err(DirectModeError)
    else Ok(ResolveDirect(text, parse))
  }

  /** A fenced proxy answer whose body parses resolves to that place's name and coordinates. */
  lemma FencedAnswerResolves(body: string, parse: string -> Option<ParsedPlace>, p: ParsedPlace)
    requires '`' !in body
    requires parse(Trim(body)) == Some(p)
    ensures ResolveViaProxy(Some(JsonFence + body + Fence), parse) == Some(Place(p.name, Coord(p.latitude, p.longitude)))
  {
    FenceRoundTrip(body);
  }
}
