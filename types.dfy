/** The records shared by the map, the sidebar, the chat panel and the model gateway. */
module Types {

  datatype Option<+T> = None | Some(value: T)

  /** A rejected promise or a thrown error carries its message in `Err`. */
  datatype Result<+T> = Ok(value: T) | Err(error: string)

  /** A `[latitude, longitude]` pair; no arithmetic is done on it here. */
  datatype Coord = Coord(lat: real, lng: real)

  datatype LocationCategory =
    | FoodLocalHawker      // 'Food (Local Hawker)'
    | FoodRestaurants      // 'Food (Restaurants)'
    | HikingNature         // 'Hiking, Nature'
    | PlacesOfInterests    // 'Places of Interests'
    | History              // 'History'
    | EventsAndActivities  // 'Events & Activities'

  /** The sidebar's category chips: every category, or just one. */
  datatype CategoryFilter = All | Only(category: LocationCategory)

  datatype PriceRange = OneDollar | TwoDollars | ThreeDollars | FourDollars | Free

  /** A point of interest. `isGenerated` is false where the record leaves it out. */
  datatype LocationData = LocationData(
    id: string,
    name: string,
    description: string,
    category: LocationCategory,
    coordinates: Coord,
    rating: real,
    imageUrl: string,
    priceRange: Option<PriceRange>,
    tips: string,
    isGenerated: bool,
    distanceFromBase: Option<string>,
    socialProof: Option<seq<string>>)

  datatype RouteStep = RouteStep(name: string, coordinates: Coord, time: string, description: string)

  /** The ephemeral itinerary one assistant call returns. */
  datatype Route = Route(title: string, steps: seq<RouteStep>)

  datatype TrailCategory = Heritage | Nature | Food | Culture | Nightlife | Urban

  /** A persisted itinerary. */
  datatype Trail = Trail(
    id: string,
    name: string,
    description: string,
    category: TrailCategory,
    duration: string,
    steps: seq<RouteStep>)

  datatype MainTab = Explore | Trails
  datatype ListTab = Curated | Generated

  datatype Role = User | Model

  /** A chat bubble; the `Date` timestamp is not modelled. */
  datatype ChatMessage = ChatMessage(id: string, role: Role, text: string, isError: bool)
}
