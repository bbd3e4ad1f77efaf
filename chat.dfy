/**
 * The chat panel: a message list that `handleSend` appends to in a fixed order, the loading
 * flag around one request, and the discover-theme form.
 *
 * The gateway's answer to a request is a parameter (`outcome`); `now` stands for `Date.now()`.
 */
module Chat {
  import opened Types
  import opened Text
  import opened Gemini

  const ErrorText := "I'm having trouble connecting to the travel network right now. Please try again."

  datatype ChatTab = Assistant | Discover

  /** A key press in the message box. */
  datatype KeyPress = KeyPress(key: string, shiftKey: bool)

  /** The bubble for what the user typed. */
  function UserMessage(text: string, now: nat): ChatMessage {
    ChatMessage(NatToString(now), User, text, false)
  }

  /** The model's reply. */
  function ReplyMessage(text: string, now: nat): ChatMessage {
    ChatMessage(NatToString(now + 1), Model, text, false)
  }

  /** The notice that a route was put on the map. */
  function RouteNotice(title: string, now: nat): ChatMessage {
    ChatMessage(NatToString(now + 2), Model,
      "\U{1F5FA}\U{FE0F} **I've mapped out the \"" + title + "\" for you on the main map!**", false)
  }

  /** The notice that new places were added. */
  function PlacesNotice(count: nat, now: nat): ChatMessage {
    ChatMessage(NatToString(now + 3), Model,
      "\U{2728} **I've found " + NatToString(count) + " new places and added them to your map!**", false)
  }

  /** The bubble shown when the request failed. */
  function ErrorMessage(now: nat): ChatMessage {
    ChatMessage(NatToString(now + 1), Model, ErrorText, true)
  }

  /** The payload that fires `onLocationsGenerated` and the places notice: a non-empty location list. */
  predicate HasPlaces(r: GeminiResponse) {
    r.generatedLocations.Some? && r.generatedLocations.value != []
  }

  /**
   * The messages one accepted `handleSend` appends: the user's message first; then either a single
   * error bubble, or the reply followed by the route notice if a route came back and the places
   * notice if places came back, in that order.
   */
  function Transcript(text: string, outcome: Result<GeminiResponse>, now: nat): (ms: seq<ChatMessage>)
    ensures |ms| >= 2 && ms[0] == UserMessage(text, now) && ms[0].role == User
    ensures forall i :: 1 <= i < |ms| ==> ms[i].role == Model
    ensures forall i :: 0 <= i < |ms| ==> (ms[i].isError <==> outcome.Err? && i == 1)
    ensures outcome.Err? ==> |ms| == 2 && ms[1].text == ErrorText
    ensures outcome.Ok? ==>
      var r := outcome.value;
      && ms[1].text == r.text
      && |ms| == 2 + (if r.route.Some? then 1 else 0) + (if HasPlaces(r) then 1 else 0)
      && (r.route.Some? ==> ms[2] == RouteNotice(r.route.value.title, now))
      && (HasPlaces(r) ==> ms[|ms| - 1] == PlacesNotice(|r.generatedLocations.value|, now))
  {
    [UserMessage(text, now)] +
    match outcome
    case Err(_) => [ErrorMessage(now)]
    case Ok(r) =>
      [ReplyMessage(r.text, now)]
      + (if r.route.Some? then [RouteNotice(r.route.value.title, now)] else [])
      + (if HasPlaces(r) then [PlacesNotice(|r.generatedLocations.value|, now)] else [])
  }

  // The discover prompt opens with the word "Can ".
  const DiscoverLead := "Can " + "you curate a list of places in Singapore matching the theme: \""
  const DiscoverTail := "\"? Please use the suggest_places tool to add them to my map."
  const ContextLead := "Tell me more about "
  const ContextTail := " and what makes it special."

  /** A prompt template filled in: `subject` sits right after `lead`, and a lead that opens with a visible character makes the prompt non-blank. */
  function Embed(lead: string, subject: string, tail: string): (p: string)
    requires lead != [] && !IsWhitespace(lead[0])
    ensures !IsBlank(p)
    ensures StartsWith(p, lead) && |p| == |lead| + |subject| + |tail|
    ensures p[|lead|..|lead| + |subject|] == subject && p[|lead| + |subject|..] == tail
  {
    var p := lead + subject + tail;
    assert p[0] == lead[0];
    assert p[..|lead|] == lead;
    p
  }

  /** The prompt the discover form sends for a theme: the theme quoted inside a fixed request for places. */
  function DiscoverPrompt(theme: string): (p: string)
    ensures !IsBlank(p)
    ensures StartsWith(p, DiscoverLead) && StartsWith(p[|DiscoverLead|..], theme)
  {
    assert DiscoverLead[0] == 'C';
    Embed(DiscoverLead, theme, DiscoverTail)
  }

  /** The question asked about a location the user opened the chat from, naming that location. */
  function ContextPrompt(place: string): (p: string)
    ensures !IsBlank(p)
    ensures StartsWith(p, ContextLead) && StartsWith(p[|ContextLead|..], place)
  {
    assert ContextLead[0] == 'T';
    Embed(ContextLead, place, ContextTail)
  }

  class ChatPanel {
    var activeTab: ChatTab
    var messages: seq<ChatMessage>
    var input: string
    var discoverTheme: string
    var isLoading: bool
    /** Whether `chatSessionRef.current` holds a session. */
    var hasSession: bool

    constructor(hasSession: bool)
      ensures activeTab == Assistant && messages == [] && input == "" && discoverTheme == ""
      ensures !isLoading && this.hasSession == hasSession
    {
      activeTab := Assistant;
      messages := [];
      input := "";
      discoverTheme := "";
      isLoading := false;
      this.hasSession := hasSession;
    }

    /** No request is in flight and a chat session exists. */
    predicate Ready()
      reads this
    {
      !isLoading && hasSession
    }

    /** The guard at the top of `handleSend`. */
    predicate Accepts(text: string)
      reads this
    {
      !IsBlank(text) && Ready()
    }

    /**
     * `handleSend`. A blank text, a request in flight or a missing session changes nothing.
     * Otherwise the transcript is appended, the input box is cleared and loading is over again;
     * `onRoute` and `onPlaces` are the callbacks fired, with what they were given.
     */
    method HandleSend(text: string, outcome: Result<GeminiResponse>, now: nat)
      returns (onRoute: Option<Route>, onPlaces: Option<seq<LocationData>>)
      modifies this
      ensures activeTab == old(activeTab) && discoverTheme == old(discoverTheme) && hasSession == old(hasSession)
      ensures !old(Accepts(text)) ==>
        messages == old(messages) && input == old(input) && isLoading == old(isLoading) && onRoute.None? && onPlaces.None?
      ensures old(Accepts(text)) ==> messages == old(messages) + Transcript(text, outcome, now) && input == "" && !isLoading
      ensures onRoute.Some? <==> old(Accepts(text)) && outcome.Ok? && outcome.value.route.Some?
      ensures onRoute.Some? ==> onRoute == outcome.value.route
      ensures onPlaces.Some? <==> old(Accepts(text)) && outcome.Ok? && HasPlaces(outcome.value)
      ensures onPlaces.Some? ==> onPlaces == outcome.value.generatedLocations
    {
      onRoute, onPlaces := None, None;
      if IsBlank(text) || isLoading || !hasSession {
        return;
      }
      ghost var before := messages;
      messages := messages + [UserMessage(text, now)];
      input := "";
      isLoading := true;
      match outcome {
        case Ok(response) =>
          messages := messages + [ReplyMessage(response.text, now)];
          if response.route.Some? {
            onRoute := response.route;
            messages := messages + [RouteNotice(response.route.value.title, now)];
          }
          if HasPlaces(response) {
            onPlaces := response.generatedLocations;
            messages := messages + [PlacesNotice(|response.generatedLocations.value|, now)];
          }
        case Err(_) =>
          messages := messages + [ErrorMessage(now)];
      }
      assert messages == before + Transcript(text, outcome, now);
      isLoading := false;
    }

    /** `resetChat`: an empty conversation with a fresh session and no request in flight. */
    method ResetChat()
      modifies this
      ensures messages == [] && !isLoading && hasSession
      ensures activeTab == old(activeTab) && input == old(input) && discoverTheme == old(discoverTheme)
    {
      messages := [];
      hasSession := true;
      isLoading := false;
    }

    /**
     * `handleDiscoverSubmit`: nothing for a blank theme. Otherwise switch to the assistant and clear
     * the theme, and send the themed prompt, which is never blank, so it goes out exactly when the
     * panel is `Ready`.
     */
    method HandleDiscoverSubmit(outcome: Result<GeminiResponse>, now: nat)
      returns (onRoute: Option<Route>, onPlaces: Option<seq<LocationData>>)
      modifies this
      ensures IsBlank(old(discoverTheme)) ==>
        activeTab == old(activeTab) && messages == old(messages) && input == old(input)
        && discoverTheme == old(discoverTheme) && isLoading == old(isLoading)
      ensures !IsBlank(old(discoverTheme)) ==> activeTab == Assistant && discoverTheme == ""
      ensures !IsBlank(old(discoverTheme)) && !old(Ready()) ==>
        messages == old(messages) && input == old(input) && isLoading == old(isLoading)
      ensures !IsBlank(old(discoverTheme)) && old(Ready()) ==>
        messages == old(messages) + Transcript(DiscoverPrompt(old(discoverTheme)), outcome, now) && input == "" && !isLoading
      ensures onRoute.Some? <==> !IsBlank(old(discoverTheme)) && old(Ready()) && outcome.Ok? && outcome.value.route.Some?
      ensures onRoute.Some? ==> onRoute == outcome.value.route
      ensures onPlaces.Some? <==> !IsBlank(old(discoverTheme)) && old(Ready()) && outcome.Ok? && HasPlaces(outcome.value)
      ensures onPlaces.Some? ==> onPlaces == outcome.value.generatedLocations
      ensures hasSession == old(hasSession)
    {
      onRoute, onPlaces := None, None;
      if IsBlank(discoverTheme) {
        return;
      }
      activeTab := Assistant;
      var prompt := DiscoverPrompt(discoverTheme);
      onRoute, onPlaces := HandleSend(prompt, outcome, now);
      discoverTheme := "";
    }

    /**
     * The effect run when the panel is opened with a context (the location the user asked about):
     * with a non-empty context on an open panel, switch to the assistant and ask about that place,
     * which goes out exactly when the panel is `Ready`; otherwise nothing happens.
     */
    method OpenWithContext(context: Option<string>, isOpen: bool, outcome: Result<GeminiResponse>, now: nat)
      returns (onRoute: Option<Route>, onPlaces: Option<seq<LocationData>>)
      modifies this
      ensures !(context.Some? && context.value != "" && isOpen) ==>
        activeTab == old(activeTab) && messages == old(messages) && input == old(input) && isLoading == old(isLoading)
      ensures context.Some? && context.value != "" && isOpen ==> activeTab == Assistant
      ensures context.Some? && context.value != "" && isOpen && !old(Ready()) ==>
        messages == old(messages) && input == old(input) && isLoading == old(isLoading)
      ensures context.Some? && context.value != "" && isOpen && old(Ready()) ==>
        messages == old(messages) + Transcript(ContextPrompt(context.value), outcome, now) && input == "" && !isLoading
      ensures onRoute.Some? <==>
        context.Some? && context.value != "" && isOpen && old(Ready()) && outcome.Ok? && outcome.value.route.Some?
      ensures onRoute.Some? ==> onRoute == outcome.value.route
      ensures onPlaces.Some? <==>
        context.Some? && context.value != "" && isOpen && old(Ready()) && outcome.Ok? && HasPlaces(outcome.value)
      ensures onPlaces.Some? ==> onPlaces == outcome.value.generatedLocations
      ensures discoverTheme == old(discoverTheme) && hasSession == old(hasSession)
    {
      onRoute, onPlaces := None, None;
      if context.Some? && context.value != "" && isOpen {
        activeTab := Assistant;
        onRoute, onPlaces := HandleSend(ContextPrompt(context.value), outcome, now);
      }
    }

    /** `handleKeyDown`: Enter without Shift sends what is in the input box; any other key changes nothing. */
    method HandleKeyDown(press: KeyPress, outcome: Result<GeminiResponse>, now: nat)
      returns (onRoute: Option<Route>, onPlaces: Option<seq<LocationData>>)
      modifies this
      ensures !(press.key == "Enter" && !press.shiftKey && old(Accepts(input))) ==>
        messages == old(messages) && input == old(input) && isLoading == old(isLoading)
      ensures press.key == "Enter" && !press.shiftKey && old(Accepts(input)) ==>
        messages == old(messages) + Transcript(old(input), outcome, now) && input == "" && !isLoading
      ensures onRoute.Some? <==>
        press.key == "Enter" && !press.shiftKey && old(Accepts(input)) && outcome.Ok? && outcome.value.route.Some?
      ensures onRoute.Some? ==> onRoute == outcome.value.route
      ensures onPlaces.Some? <==>
        press.key == "Enter" && !press.shiftKey && old(Accepts(input)) && outcome.Ok? && HasPlaces(outcome.value)
      ensures onPlaces.Some? ==> onPlaces == outcome.value.generatedLocations
      ensures activeTab == old(activeTab) && discoverTheme == old(discoverTheme) && hasSession == old(hasSession)
    {
      onRoute, onPlaces := None, None;
      if press.key == "Enter" && !press.shiftKey {
        onRoute, onPlaces := HandleSend(input, outcome, now);
      }
    }
  }
}
