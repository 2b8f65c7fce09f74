/**
 * The two tools the language model may call: the grocery-store locator and the
 * restaurant locator. Each is bound to a coordinate, builds one points-of-interest
 * search around it, and formats the names found. The search itself is a foreign
 * service and enters as a function from the request to its result.
 */
module LocatorTools {
  import opened Wrappers
  import opened ResultFormat

  /** A latitude/longitude pair; two coordinates are equal exactly when both parts are. */
  datatype Coordinate = Coordinate(latitude: real, longitude: real)

  /** One item found by a points-of-interest search; its name may be missing. */
  datatype MapItem = MapItem(name: Option<string>)

  /** Why a search failed; it is passed on to the caller unchanged. */
  datatype SearchError = SearchError(reason: string)

  /** The category filter of a search: food markets and stores, or restaurants, bakeries and cafes. */
  datatype PointOfInterestFilter = FoodMarketsAndStores | RestaurantsBakeriesAndCafes

  /** What a tool asks the search service for: a free-text query in some categories around a centre. */
  datatype SearchRequest = SearchRequest(query: string, filter: PointOfInterestFilter, center: Coordinate)

  /** The search service: the items it finds for a request, or the error it throws. */
  type Search = SearchRequest -> Result<seq<MapItem>, SearchError>

  const StoreToolName: string := "storeLocator"
  const StoreQuery: string := "grocery stores"
  const StoreCaption: string := "Here are some nearby grocery stores locations where the user can buy the ingredients:\n"

  const RestaurantToolName: string := "restaurantLocator"
  const RestaurantCaption: string :=
    "Feeling lazy? Here are some nearby restaurants where the user can eat what you're planning to cook:\n"

  /** The optional names of the items, in order (`$0.name`). */
  function ItemNames(items: seq<MapItem>): (r: seq<Option<string>>)
    ensures |r| == |items|
    ensures forall i :: 0 <= i < |items| ==> r[i] == items[i].name
  {
    seq(|items|, i requires 0 <= i < |items| => items[i].name)
  }

  /** The grocery-store tool's (empty) arguments. */
  datatype StoreArguments = StoreArguments

  /** The restaurant tool's arguments: the name of the meal to search for. */
  datatype RestaurantArguments = RestaurantArguments(meal: string)

  datatype StoreLocatorTool = StoreLocatorTool(location: Coordinate)
  {
    /** The name the model calls the tool by. */
    function Name(): (n: string)
      ensures n == "storeLocator" && n != RestaurantToolName
    {
      StoreToolName
    }

    /** The search the tool issues: always for grocery stores among food markets and stores,
        around its own location. */
    function Request(arguments: StoreArguments): (r: SearchRequest)
      ensures r.query == StoreQuery && r.filter == FoodMarketsAndStores && r.center == location
    {
      SearchRequest(StoreQuery, FoodMarketsAndStores, location)
    }

    /** `call(arguments:)`: the caption and the numbered names, or the search's error. */
    function Call(arguments: StoreArguments, search: Search): (r: Result<string, SearchError>)
      ensures r.Failure? <==> search(Request(arguments)).Failure?
      ensures r.Failure? ==> r.error == search(Request(arguments)).error
      ensures r.Success? ==> r.value == FormatResults(StoreCaption, ItemNames(search(Request(arguments)).value))
    {
      match search(Request(arguments))
      case Failure(e) => Failure(e)
      case Success(items) => Success(FormatResults(StoreCaption, ItemNames(items)))
    }
  }

  datatype RestaurantLocatorTool = RestaurantLocatorTool(location: Coordinate)
  {
    /** The name the model calls the tool by. */
    function Name(): (n: string)
      ensures n == "restaurantLocator" && n != StoreToolName
    {
      RestaurantToolName
    }

    /** The search the tool issues: for the meal the model asked about, among restaurants,
        bakeries and cafes, around its own location. */
    function Request(arguments: RestaurantArguments): (r: SearchRequest)
      ensures r.query == arguments.meal && r.filter == RestaurantsBakeriesAndCafes && r.center == location
    {
      SearchRequest(arguments.meal, RestaurantsBakeriesAndCafes, location)
    }

    /** `call(arguments:)`: the caption and the numbered names, or the search's error. */
    function Call(arguments: RestaurantArguments, search: Search): (r: Result<string, SearchError>)
      ensures r.Failure? <==> search(Request(arguments)).Failure?
      ensures r.Failure? ==> r.error == search(Request(arguments)).error
      ensures r.Success? ==> r.value == FormatResults(RestaurantCaption, ItemNames(search(Request(arguments)).value))
    {
      match search(Request(arguments))
      case Failure(e) => Failure(e)
      case Success(items) => Success(FormatResults(RestaurantCaption, ItemNames(items)))
    }
  }

  /** The tools have fixed, distinct names. */
  lemma ToolNames(store: StoreLocatorTool, restaurant: RestaurantLocatorTool)
    ensures store.Name() == "storeLocator" && restaurant.Name() == "restaurantLocator"
    ensures store.Name() != restaurant.Name()
  {
  }

  /** The grocery search does not depend on the arguments. */
  lemma StoreRequestIgnoresArguments(tool: StoreLocatorTool, a: StoreArguments, b: StoreArguments)
    ensures tool.Request(a) == tool.Request(b) == SearchRequest("grocery stores", FoodMarketsAndStores, tool.location)
  {
  }

  /** The restaurant search asks for exactly the meal given, so it differs for different meals. */
  lemma RestaurantQueryIsMeal(r: RestaurantLocatorTool, a: RestaurantArguments, b: RestaurantArguments)
    ensures r.Request(a) == r.Request(b) <==> a.meal == b.meal
  {
  }

  /** The two tools never issue the same search, whatever the meal and the locations. */
  lemma ToolRequestsDiffer(store: StoreLocatorTool, sargs: StoreArguments, restaurant: RestaurantLocatorTool, rargs: RestaurantArguments)
    ensures store.Request(sargs) != restaurant.Request(rargs)
  {
  }

  /** Each caption ends in a single newline: its last character is one, the one before is not. */
  lemma CaptionsEndInOneNewline()
    ensures |StoreCaption| > 1 && StoreCaption[|StoreCaption| - 1] == '\n'
    ensures StoreCaption[|StoreCaption| - 2] == ':'
    ensures |RestaurantCaption| > 1 && RestaurantCaption[|RestaurantCaption| - 1] == '\n'
    ensures RestaurantCaption[|RestaurantCaption| - 2] == ':'
  {
  }

  /** With no results, or none named among the first three, the answer is the caption alone;
      otherwise the caption's newline is followed directly by line 1, never by a second newline. */
  lemma StoreOutputShape(tool: StoreLocatorTool, arguments: StoreArguments, search: Search)
    requires search(tool.Request(arguments)).Success?
    ensures var r := tool.Call(arguments, search).value;
      var lines := ResultLines(ItemNames(search(tool.Request(arguments)).value));
      && StoreCaption <= r
      && (lines == [] ==> r == StoreCaption)
      && (lines != [] ==> r[|StoreCaption|..][..3] == "1. ")
  {
    var names := ItemNames(search(tool.Request(arguments)).value);
    if ResultLines(names) != [] {
      FirstLineFollowsCaption(StoreCaption, names);
    }
  }

  /** For the same search results the two tools answer alike but for their captions,
      and a failed search fails both with the same error. */
  lemma ToolsDifferOnlyInCaption(
    store: StoreLocatorTool, sargs: StoreArguments,
    restaurant: RestaurantLocatorTool, rargs: RestaurantArguments, search: Search)
    requires search(store.Request(sargs)) == search(restaurant.Request(rargs))
    ensures store.Call(sargs, search).Failure? <==> restaurant.Call(rargs, search).Failure?
    ensures store.Call(sargs, search).Failure? ==>
      store.Call(sargs, search).error == restaurant.Call(rargs, search).error
    ensures store.Call(sargs, search).Success? ==>
      var s, r := store.Call(sargs, search).value, restaurant.Call(rargs, search).value;
      StoreCaption <= s && RestaurantCaption <= r && s[|StoreCaption|..] == r[|RestaurantCaption|..]
  {
  }
}
