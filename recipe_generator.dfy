/**
 * The recipe generator: a language-model session bound to both locator tools
 * for one location, and the latest partial recipe the model has streamed.
 * The session is an outside service; the stream it answers a prompt with enters
 * as a function from the prompt to the snapshots it delivers and how it ends.
 */
module Generation {
  import opened Wrappers
  import opened RecipeModel
  import opened LocatorTools

  /** A tool registered with the session. */
  datatype SessionTool = StoreTool(store: StoreLocatorTool) | RestaurantTool(restaurant: RestaurantLocatorTool)

  /** The session's configuration: its tools, in order, its instructions and its worked example. */
  datatype Session = Session(tools: seq<SessionTool>, instructions: seq<string>, example: Recipe)

  /** The instruction lines given to the session, in order. */
  const Instructions: seq<string> := [
    "Your job is to generate a detailed recipe based on the user's input.",
    "Use the storeLocator tool to find grocery stores or markets where the user can find the ingredients.",
    "Use the restaurantLocator tool to find restaurants where the user can eat the meal.",
    "Here is an example of a recipe:"
  ]

  /** The error a failed stream throws (including a failed tool call inside it). */
  datatype GenerationError = GenerationError(reason: string)

  /** One element of the response stream; its content is the recipe as generated so far. */
  datatype Snapshot = Snapshot(content: PartialRecipe)

  /** How a stream ends: normally, or by throwing after its snapshots. */
  datatype StreamEnd = Completed | Failed(error: GenerationError)

  /** A response stream: the snapshots delivered, in arrival order, and how it ended. */
  datatype ResponseStream = ResponseStream(snapshots: seq<Snapshot>, end: StreamEnd)

  /** The language model: the stream it answers a prompt with. */
  type Model = string -> ResponseStream

  /** The first line of the prompt sent for a meal. */
  const PromptLead: string := "Generate a recipe for the following meal name: "

  /** The remaining prompt lines, the same for every meal. */
  const PromptRest: string :=
    "Make sure you always use the tools provided to get accurate and relevant information about locations.\n" +
    "The recipe should include a name, a brief description, an estimated time to prepare,\n" +
    "suggestions for grocery stores to buy the ingredients, restaurants where the user can eat the meal,\n" +
    "and a list of ingredients with their quantities and units."

  /** The prompt sent for a meal. */
  function Prompt(meal: string): (p: string)
    ensures |p| == |PromptLead| + |meal| + 1 + |PromptRest|
    ensures p[..|PromptLead|] == PromptLead
    ensures p[|PromptLead|..|PromptLead| + |meal|] == meal
  {
    PromptLead + meal + "\n" + PromptRest
  }

  /** The prompt names the meal, so different meals give different prompts. */
  lemma PromptDeterminesMeal(a: string, b: string)
    ensures Prompt(a) == Prompt(b) ==> a == b
  {
    if Prompt(a) == Prompt(b) {
      assert |a| == |b|;
    }
  }

  /** The session a generator builds for a location: store tool then restaurant tool, both at that location. */
  function SessionFor(location: Coordinate): (s: Session)
    ensures |s.tools| == 2
    ensures s.tools[0] == StoreTool(StoreLocatorTool(location))
    ensures s.tools[1] == RestaurantTool(RestaurantLocatorTool(location))
    ensures s.example == Sample
  {
    Session([StoreTool(StoreLocatorTool(location)), RestaurantTool(RestaurantLocatorTool(location))], Instructions, Sample)
  }

  /** The values `recipe` takes while the snapshots arrive, one per snapshot, in arrival order. */
  function Published(snapshots: seq<Snapshot>): (r: seq<Option<PartialRecipe>>)
    ensures |r| == |snapshots|
    ensures forall i :: 0 <= i < |snapshots| ==> r[i] == Some(snapshots[i].content)
  {
    seq(|snapshots|, i requires 0 <= i < |snapshots| => Some(snapshots[i].content))
  }

  /** The content of the last snapshot received, or nothing when none was. */
  function LastContent(snapshots: seq<Snapshot>): (r: Option<PartialRecipe>)
    ensures r.None? <==> snapshots == []
    ensures r.Some? ==> r.value == snapshots[|snapshots| - 1].content
  {
    if snapshots == [] then None else Some(snapshots[|snapshots| - 1].content)
  }

  /** The recipe left after a call is the last value published by it, counting the initial reset. */
  lemma LastContentIsLastPublished(snapshots: seq<Snapshot>)
    ensures var history := [None] + Published(snapshots);
      LastContent(snapshots) == history[|history| - 1]
  {
  }

  /** Receiving one more snapshot publishes it after everything published so far. */
  lemma PublishedGrows(snapshots: seq<Snapshot>, s: Snapshot)
    ensures Published(snapshots + [s]) == Published(snapshots) + [Some(s.content)]
    ensures LastContent(snapshots + [s]) == Some(s.content)
  {
  }

  /** The outcome of `generateRecipe`: it returns if the stream completes and throws the stream's error if not. */
  function OutcomeOf(end: StreamEnd): (r: Outcome<GenerationError>)
    ensures r.Pass? <==> end.Completed?
    ensures r.Fail? ==> r.error == end.error
  {
    match end
    case Completed => Pass
    case Failed(e) => Fail(e)
  }

  /** `RecipeGenerator`: the session and the recipe it is publishing. */
  class RecipeGenerator {
    const location: Coordinate
    const session: Session
    var recipe: Option<PartialRecipe>
    /** Every value assigned to `recipe` so far, in order: what observers of the field see. */
    ghost var history: seq<Option<PartialRecipe>>

    /** Binds both tools to the one location given; no recipe yet. */
    constructor (location: Coordinate)
      ensures this.location == location && session == SessionFor(location)
      ensures recipe == None && history == []
    {
      this.location := location;
      session := SessionFor(location);
      recipe := None;
      history := [];
    }

    /** `generateRecipe(from:)`: clear the recipe, then overwrite it with each snapshot as it
        arrives. When the stream completes the last snapshot is left; when it throws after k
        snapshots, the k-th is left (none if k = 0) and the error is passed on. */
    method GenerateRecipe(meal: string, model: Model) returns (outcome: Outcome<GenerationError>)
      modifies this
      ensures var stream := model(Prompt(meal));
        && recipe == LastContent(stream.snapshots)
        && history == old(history) + [None] + Published(stream.snapshots)
        && outcome == OutcomeOf(stream.end)
    {
      recipe := None;
      history := history + [None];
      var stream := model(Prompt(meal));
      var snapshots := stream.snapshots;
      var i := 0;
      while i < |snapshots|
        invariant 0 <= i <= |snapshots|
        invariant recipe == LastContent(snapshots[..i])
        invariant history == old(history) + [None] + Published(snapshots[..i])
      {
        PublishedGrows(snapshots[..i], snapshots[i]);
        assert snapshots[..i + 1] == snapshots[..i] + [snapshots[i]];
        recipe := Some(snapshots[i].content);
        history := history + [recipe];
        i := i + 1;
      }
      assert snapshots[..i] == snapshots;
      outcome := OutcomeOf(stream.end);
    }
  }
}
