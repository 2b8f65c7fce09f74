/**
 * The app's one screen: a prompt field with a submit button, then the streamed
 * recipe, a placeholder while generating, or nothing. It keeps a generator for
 * the latest known location and a flag saying a generation is in flight.
 */
module RecipeScreen {
  import opened Wrappers
  import opened RecipeModel
  import opened LocatorTools
  import opened Generation

  /** What the screen shows under the prompt field. */
  datatype Screen =
    | RecipeShown(recipe: PartialRecipe, checklist: Option<seq<PartialIngredient>>)
    | GeneratingPlaceholder
    | Blank

  /** The recipe comes first, with its checklist only once the ingredients have arrived;
      without a recipe the placeholder is shown only while generating. */
  function Display(recipe: Option<PartialRecipe>, isGenerating: bool): (s: Screen)
    ensures s.RecipeShown? <==> recipe.Some?
    ensures s.RecipeShown? ==> s.recipe == recipe.value
    ensures s.RecipeShown? ==> (s.checklist.Some? <==> recipe.value.ingredients.Some?)
    ensures s.RecipeShown? && s.checklist.Some? ==> s.checklist.value == recipe.value.ingredients.value
    ensures s.GeneratingPlaceholder? <==> recipe.None? && isGenerating
    ensures s.Blank? <==> recipe.None? && !isGenerating
  {
    if recipe.Some? then RecipeShown(recipe.value, recipe.value.ingredients)
    else if isGenerating then GeneratingPlaceholder
    else Blank
  }

  /** Coordinates are equal exactly when latitude and longitude both are. */
  lemma CoordinateEquality(a: Coordinate, b: Coordinate)
    ensures a == b <==> a.latitude == b.latitude && a.longitude == b.longitude
  {
  }

  /** What an observer of the view sees happen during a submission, in order. */
  datatype ViewEvent =
    | GeneratingSet(value: bool)
    | GenerationRan(generating: bool, outcome: Outcome<GenerationError>)

  /** `RecipeView`'s state. `location` stands for the location manager's latest coordinate. */
  class RecipeView {
    var generator: RecipeGenerator?
    var prompt: string
    var isGenerating: bool
    var location: Option<Coordinate>
    /** Every assignment to `isGenerating` with the value it left, and every generation call
        with the flag's value while it ran, in order. */
    ghost var events: seq<ViewEvent>

    /** The screen appears with an empty prompt, no generator, no location and nothing in flight. */
    constructor ()
      ensures generator == null && prompt == "" && !isGenerating && location == None
      ensures events == []
    {
      generator := null;
      prompt := "";
      isGenerating := false;
      location := None;
      events := [];
    }

    /** `.disabled(isGenerating)`: the submit control is disabled exactly while a generation
        is in flight, so whenever it is enabled no placeholder is showing. */
    predicate SubmitDisabled()
      reads this, generator
      ensures !SubmitDisabled() ==> !CurrentScreen().GeneratingPlaceholder?
    {
      isGenerating
    }

    /** What the screen currently shows: the generator's recipe, if any, else the placeholder
        while generating. Without a generator no recipe can show. */
    function CurrentScreen(): (s: Screen)
      reads this, generator
      ensures generator == null ==> !s.RecipeShown?
      ensures s.GeneratingPlaceholder? ==> isGenerating
    {
      Display(if generator == null then None else generator.recipe, isGenerating)
    }

    /** Typing into the prompt field. */
    method EditPrompt(text: string)
      modifies this
      ensures prompt == text
      ensures generator == old(generator) && isGenerating == old(isGenerating) && location == old(location)
      ensures events == old(events)
    {
      prompt := text;
    }

    /** The submit action, reachable only while the control is enabled: raise the flag,
        run the generator on the prompt (nothing when there is no generator yet), and
        lower the flag again whether the generation returned or threw. */
    method Submit(model: Model)
      requires !SubmitDisabled()
      modifies this, generator
      ensures generator == old(generator) && prompt == old(prompt) && location == old(location)
      ensures !isGenerating
      ensures generator == null ==> events == old(events) + [GeneratingSet(true), GeneratingSet(false)]
      ensures generator == null ==> CurrentScreen() == Blank
      ensures generator != null ==>
        var stream := model(Prompt(prompt));
        && generator.recipe == LastContent(stream.snapshots)
        && generator.history == old(generator.history) + [None] + Published(stream.snapshots)
        && events == old(events) + [GeneratingSet(true), GenerationRan(true, OutcomeOf(stream.end)), GeneratingSet(false)]
        && CurrentScreen() == Display(LastContent(stream.snapshots), false)
    {
      isGenerating := true;
      events := events + [GeneratingSet(isGenerating)];
      if generator != null {
        var outcome := generator.GenerateRecipe(prompt, model);
        events := events + [GenerationRan(isGenerating, outcome)];
        match outcome
        case Pass =>
          isGenerating := false;
        case Fail(_) =>
          // the error is only logged
          isGenerating := false;
      } else {
        isGenerating := false;
      }
      events := events + [GeneratingSet(isGenerating)];
    }

    /** The location manager reports a coordinate (or none). The change handler runs only
        when the value differs from the previous one; it keeps the generator when there is
        no location and otherwise replaces it by a fresh one for that location. */
    method LocationChanged(newValue: Option<Coordinate>)
      modifies this
      ensures location == newValue
      ensures prompt == old(prompt) && isGenerating == old(isGenerating) && events == old(events)
      ensures newValue == old(location) || newValue.None? ==> generator == old(generator)
      ensures newValue != old(location) && newValue.Some? ==>
        && generator != null && fresh(generator)
        && generator.location == newValue.value
        && generator.session == SessionFor(newValue.value)
        && generator.recipe.None?
        && CurrentScreen() == Display(None, isGenerating)
    {
      var previous := location;
      location := newValue;
      if previous != location {
        OnLocationChange();
      }
    }

    /** The change handler itself: without a location it only logs; with one it builds a new generator. */
    method OnLocationChange()
      modifies this
      ensures location == old(location) && prompt == old(prompt) && isGenerating == old(isGenerating)
      ensures events == old(events)
      ensures location.None? ==> generator == old(generator)
      ensures location.Some? ==>
        && generator != null && fresh(generator)
        && generator.location == location.value
        && generator.session == SessionFor(location.value)
        && generator.recipe.None?
    {
      match location
      case None =>
      case Some(current) =>
        generator := new RecipeGenerator(current);
    }
  }

  /** Right after the flag goes up and the generator clears its recipe, the placeholder is shown;
      once any snapshot has arrived the recipe is shown instead, and after the flag goes down
      with no snapshot received the screen is blank. */
  lemma PlaceholderUntilFirstSnapshot(snapshots: seq<Snapshot>)
    ensures Display(LastContent([]), true) == GeneratingPlaceholder
    ensures snapshots != [] ==> Display(LastContent(snapshots), true).RecipeShown?
    ensures snapshots != [] ==> Display(LastContent(snapshots), false).RecipeShown?
    ensures Display(LastContent([]), false) == Blank
  {
  }
}
