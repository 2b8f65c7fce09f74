# RecipeCart in Dafny

RecipeCart is a small mobile app. The user types a meal name. An on-device language model streams back a recipe: name, prep time, description, nearby stores, nearby restaurants and an ingredient list. While it generates, the model may call two location tools. One lists nearby grocery stores and the other nearby restaurants. The user then ticks ingredients off a checklist.

This project models the app's sequential logic, one module per source file:

- `ResultFormat` (`result_format.dfy`): the text both tools return. It keeps the first three search results, drops the ones with no name, numbers the rest from 1 as `n. name`, joins them with newlines and puts a caption in front.
- `LocatorTools` (`locator_tools.dfy`): the two tools, with their names, the search request each one builds and their `call`. The map search is a foreign service, so it is a parameter: a function from the request to the items found or an error.
- `RecipeModel` (`recipe.dfy`): the data model. It covers the unit enumeration with its raw strings, ingredients with `bought` defaulting to false, the partially generated shapes and the fixed sample recipe.
- `IngredientChecklist` (`ingredient_list.dfy`): the checklist view. It is a class holding the set of bought ingredient identifiers; a row tap flips one identifier and reset empties the set. A pure predicate decides when the "all bought" screen replaces the list.
- `Generation` (`recipe_generator.dfy`): the generator. It is a class whose session binds both tools to one location. `GenerateRecipe` clears `recipe` and then overwrites it with each streamed snapshot. The language model is a parameter: a function from the prompt to the stream it answers with, which is a sequence of snapshots that ends normally or with an error.
- `RecipeScreen` (`recipe_view.dfy`): the screen. It is a class with the generator, the prompt, the `isGenerating` flag and the latest location. It covers submission, rebuilding the generator when the location changes, and picking what to display.
- `Wrappers` (`wrappers.dfy`): Option, Result and Outcome, standing in for Swift optionals and thrown errors.

Swift's `Double` values (quantities, coordinates) are modelled as `real`. The `IngredientUnit` case `none` is named `NoUnit`, because `None` is taken by Option.

Two behaviours of the code are worth knowing:
- `Submit` accepts any prompt, including an empty one; nothing in the code checks it.
- Nameless results are dropped only after the cut to three. A nameless result among the first three therefore costs a line, and the fourth result is never used (`NamelessAmongFirstThree`, `LaterResultsIgnored`).

## Model

| member | source | states |
|---|---|---|
| `RecipeModel.RawValue` | RecipeCart/Recipe.swift:35-45 | each case's raw string; it has at most six characters and is empty exactly for `none` |
| `RecipeModel.FromRawValue` | RecipeCart/Recipe.swift:34-46 | decoding a raw string gives a case only if that case's raw value is the string, and nothing only if no case has it |
| `RecipeModel.RawValueInjective` | RecipeCart/Recipe.swift:34-46 | distinct unit cases have distinct raw values |
| `RecipeModel.RawValueRoundTrip` | RecipeCart/Recipe.swift:34-46 | decoding a case's raw value gives back that case |
| `RecipeModel.EmptyRawValueIsNoUnit` | RecipeCart/Recipe.swift:45 | `none` is the only case whose raw value is the empty string |
| `RecipeModel.AllCasesInOrder` | RecipeCart/Recipe.swift:34-46 | `allCases` has 11 entries, one per case with no repeats, grams first and none last |
| `RecipeModel.NewIngredientNotBought` | RecipeCart/Recipe.swift:26-31 | an ingredient built without `bought` is not bought, the same as passing false |
| `RecipeModel.SampleIngredients` | RecipeCart/Recipe.swift:49-64 | the sample has 7 ingredients, flour in grams first and melted butter in grams last; none is bought, each has a real unit and a positive quantity, and no name repeats |
| `ResultFormat.Prefix` | RecipeCart/StoreLocatorTool.swift:22 | `prefix(n)` is a prefix of the input whose length is the smaller of n and the input's length |
| `ResultFormat.CompactMap` | RecipeCart/StoreLocatorTool.swift:22 | `compactMap` never gives more elements than it was given |
| `ResultFormat.CompactMapKeepsPresentInOrder` | RecipeCart/StoreLocatorTool.swift:22 | `compactMap` keeps each present element once, in input order, and keeps exactly the present ones |
| `ResultFormat.CompactMapDropsAbsent` | RecipeCart/StoreLocatorTool.swift:22 | one absent element makes the output shorter than the input |
| `ResultFormat.DecimalString` | RecipeCart/StoreLocatorTool.swift:24 | a line number is rendered as a non-empty string of decimal digits with no leading zero |
| `ResultFormat.DecimalRoundTrip` | RecipeCart/StoreLocatorTool.swift:24 | reading a rendered number back gives the number |
| `ResultFormat.Line` | RecipeCart/StoreLocatorTool.swift:24 | a line is the number, `. ` and the name; it holds a newline exactly when the name does |
| `ResultFormat.NumberLines` | RecipeCart/StoreLocatorTool.swift:24 | `enumerated().map` gives one line per name |
| `ResultFormat.NumberLinesAt` | RecipeCart/StoreLocatorTool.swift:24 | line k is `"\(first + k). "` followed by the k-th name, so the numbering has no gaps |
| `ResultFormat.Join` | RecipeCart/StoreLocatorTool.swift:24 | `joined(separator:)` is empty for no lines and otherwise starts with the first line and ends with the last, with no separator before or after |
| `ResultFormat.SplitJoin` | RecipeCart/StoreLocatorTool.swift:24 | splitting the newline join of lines that contain no newline gives back exactly those lines: one separator between neighbours, none at either end |
| `ResultFormat.ResultLines` | RecipeCart/StoreLocatorTool.swift:22-24 | at most three numbered lines, however many results the search returns |
| `ResultFormat.FormatResults` | RecipeCart/StoreLocatorTool.swift:22-24 | the output starts with the caption, and is the caption alone when no line is produced |
| `ResultFormat.ResultLinesFromFirstThree` | RecipeCart/StoreLocatorTool.swift:22-24 | the lines correspond one to one, in order, to the named results among the first three; line k is number k + 1 followed by its result's name |
| `ResultFormat.LaterResultsIgnored` | RecipeCart/StoreLocatorTool.swift:22 | results from the fourth on never change the lines |
| `ResultFormat.NamelessAmongFirstThree` | RecipeCart/StoreLocatorTool.swift:22 | a nameless result in positions 1 to 3 leaves fewer than three lines, because truncation comes before filtering |
| `ResultFormat.FormatSplitsIntoLines` | RecipeCart/StoreLocatorTool.swift:23-24 | when no name contains a newline, the text after the caption splits at newlines into exactly the numbered lines |
| `ResultFormat.FirstLineFollowsCaption` | RecipeCart/StoreLocatorTool.swift:23-24 | when there is a line, `1. ` follows the caption directly |
| `ResultFormat.NamelessSecondOfFour` | RecipeCart/StoreLocatorTool.swift:22-24 | results A, nameless, B, C give the caption followed by `1. A`, a newline and `2. B` |
| `LocatorTools.ItemNames` | RecipeCart/StoreLocatorTool.swift:22 | the names are taken from the items position by position |
| `LocatorTools.StoreLocatorTool.Name` | RecipeCart/StoreLocatorTool.swift:12 | the grocery tool is named `storeLocator`, unlike the restaurant tool |
| `LocatorTools.StoreLocatorTool.Request` | RecipeCart/StoreLocatorTool.swift:27-33 | the grocery search looks for "grocery stores" among food markets and stores, around the tool's own location |
| `LocatorTools.StoreLocatorTool.Call` | RecipeCart/StoreLocatorTool.swift:20-25 | the call fails exactly when the search fails, with the same error; otherwise it returns the grocery caption and the formatted names |
| `LocatorTools.RestaurantLocatorTool.Name` | RecipeCart/RestaurantLocatorTool.swift:12 | the restaurant tool is named `restaurantLocator`, unlike the grocery tool |
| `LocatorTools.RestaurantLocatorTool.Request` | RecipeCart/RestaurantLocatorTool.swift:29-35 | the restaurant search looks for the `meal` argument among restaurants, bakeries and cafes, around the tool's own location |
| `LocatorTools.RestaurantLocatorTool.Call` | RecipeCart/RestaurantLocatorTool.swift:22-27 | the call fails exactly when the search fails, with the same error; otherwise it returns the restaurant caption and the formatted names |
| `LocatorTools.ToolNames` | RecipeCart/StoreLocatorTool.swift:12 | the tool names are the constants `storeLocator` and `restaurantLocator` (RestaurantLocatorTool.swift line 12), and they differ |
| `LocatorTools.StoreRequestIgnoresArguments` | RecipeCart/StoreLocatorTool.swift:30 | the grocery request is the same for all arguments |
| `LocatorTools.RestaurantQueryIsMeal` | RecipeCart/RestaurantLocatorTool.swift:32 | two restaurant requests are equal exactly when their meals are equal |
| `LocatorTools.ToolRequestsDiffer` | RecipeCart/RestaurantLocatorTool.swift:31 | the two tools never issue the same request, because their category filters differ (StoreLocatorTool.swift line 29) |
| `LocatorTools.CaptionsEndInOneNewline` | RecipeCart/StoreLocatorTool.swift:23 | both captions end in a newline that follows a colon |
| `LocatorTools.StoreOutputShape` | RecipeCart/StoreLocatorTool.swift:23-24 | a successful grocery answer starts with the caption; it is the caption alone when there are no lines, and otherwise the caption is followed directly by `1. ` |
| `LocatorTools.ToolsDifferOnlyInCaption` | RecipeCart/RestaurantLocatorTool.swift:22-27 | for the same search outcome, both tools fail together with the same error, or both succeed with the same text after their captions |
| `IngredientChecklist.ContainsUnbought` | RecipeCart/RecipeView.swift:179 | `contains(where:)` holds exactly when some listed ingredient's id is not in the bought-set |
| `IngredientChecklist.AllBought` | RecipeCart/RecipeView.swift:179 | the success screen's condition holds exactly when every listed ingredient's id is in the bought-set |
| `IngredientChecklist.Toggled` | RecipeCart/RecipeView.swift:201-208 | a tap flips the tapped identifier's membership and leaves every other identifier as it was |
| `IngredientChecklist.AllBoughtIff` | RecipeCart/RecipeView.swift:179 | the "all bought" screen shows exactly when every listed identifier is in the bought-set |
| `IngredientChecklist.EmptyListAllBought` | RecipeCart/RecipeView.swift:179 | an empty ingredient list shows the "all bought" screen |
| `IngredientChecklist.NothingBoughtShowsChecklist` | RecipeCart/RecipeView.swift:179-190 | with an empty bought-set the checklist is shown exactly when the list is non-empty |
| `IngredientChecklist.ToggleTwice` | RecipeCart/RecipeView.swift:226-227 | two taps on one row give back the original bought-set |
| `IngredientChecklist.TickingLastUnbought` | RecipeCart/RecipeView.swift:179-208 | ticking the only unbought listed ingredient moves from the checklist to the "all bought" screen |
| `IngredientChecklist.IngredientList.constructor` | RecipeCart/RecipeView.swift:174-176 | a new list starts with an empty bought-set |
| `IngredientChecklist.IngredientList.OnBoughtChanged` | RecipeCart/RecipeView.swift:197-208 | the callback, given only to rows of listed ingredients, inserts the identifier when passed true and removes it when passed false; a bought-set naming only listed identifiers stays that way |
| `IngredientChecklist.IngredientList.TapRow` | RecipeCart/RecipeView.swift:198-208 | a row passes the negation of its bought state (lines 200, 227 and 253), so the bought-set becomes `Toggled` of the old one; a bought-set naming only listed identifiers stays that way |
| `IngredientChecklist.IngredientList.Reset` | RecipeCart/RecipeView.swift:187-190 | reset empties the bought-set, after which the success screen shows exactly when the list is empty |
| `Generation.Prompt` | RecipeCart/RecipeGenerator.swift:32-40 | the prompt begins with its lead sentence followed by the meal name |
| `Generation.PromptDeterminesMeal` | RecipeCart/RecipeGenerator.swift:34 | different meals give different prompts |
| `Generation.SessionFor` | RecipeCart/RecipeGenerator.swift:18-28 | the session registers the store tool and then the restaurant tool, both at the given location, with the sample recipe as its example |
| `Generation.Published` | RecipeCart/RecipeGenerator.swift:41-43 | each snapshot is published once, in arrival order, with none skipped |
| `Generation.LastContent` | RecipeCart/RecipeGenerator.swift:41-43 | the recipe left is the last snapshot's content, and nothing exactly when there were no snapshots |
| `Generation.LastContentIsLastPublished` | RecipeCart/RecipeGenerator.swift:31-43 | the recipe left is the last value published, counting the reset to nil |
| `Generation.PublishedGrows` | RecipeCart/RecipeGenerator.swift:41-43 | one more snapshot appends its content to what was published and becomes the recipe |
| `Generation.OutcomeOf` | RecipeCart/RecipeGenerator.swift:30-44 | `generateRecipe` returns when the stream completes and throws the stream's error when it fails |
| `Generation.RecipeGenerator.constructor` | RecipeCart/RecipeGenerator.swift:18-28 | a generator for a location has that location's session and no recipe |
| `Generation.RecipeGenerator.GenerateRecipe` | RecipeCart/RecipeGenerator.swift:30-44 | `recipe` is reset to nil and then set to each snapshot in turn; afterwards it is the last snapshot (nil if none, the k-th if the stream failed after k), and the outcome is the stream's |
| `RecipeScreen.Display` | RecipeCart/RecipeView.swift:36-67 | a recipe, when there is one, is shown before anything else, with its checklist only once it has ingredients; without one, the placeholder shows exactly while generating |
| `RecipeScreen.CoordinateEquality` | RecipeCart/LocationManager.swift:52-55 | coordinates are equal exactly when latitude and longitude both match |
| `RecipeScreen.PlaceholderUntilFirstSnapshot` | RecipeCart/RecipeView.swift:36-44 | during generation the placeholder shows until the first snapshot arrives and the recipe shows from then on; a generation that ends with no snapshot leaves the screen blank |
| `RecipeScreen.RecipeView.constructor` | RecipeCart/RecipeView.swift:14-18 | the screen starts with no generator, an empty prompt, no location and the flag down |
| `RecipeScreen.RecipeView.SubmitDisabled` | RecipeCart/RecipeView.swift:35 | the control is disabled while `isGenerating`; when it is enabled no placeholder shows |
| `RecipeScreen.RecipeView.CurrentScreen` | RecipeCart/RecipeView.swift:36-44 | the screen shows the generator's recipe through `Display`; with no generator no recipe shows, and the placeholder shows only while generating |
| `RecipeScreen.RecipeView.EditPrompt` | RecipeCart/RecipeView.swift:23 | typing changes only the prompt |
| `RecipeScreen.RecipeView.Submit` | RecipeCart/RecipeView.swift:23-35 | callable only with the control enabled (flag down, line 35); the log records the field's values: `isGenerating` is true when set and while the generator runs on the prompt, and false afterwards, whether the generator returned or threw; the generator's recipe is the stream's last snapshot, which the screen then shows |
| `RecipeScreen.RecipeView.LocationChanged` | RecipeCart/RecipeView.swift:79-89 | the handler runs only when the coordinate differs from the previous one; a nil location keeps the generator, and a new location gets a fresh generator bound to it, with nothing to show until it generates |
| `RecipeScreen.RecipeView.OnLocationChange` | RecipeCart/RecipeView.swift:80-88 | with no location the generator is unchanged; otherwise it is replaced by a fresh one for that location with no recipe |

## Left out

- RecipeCart/LocationManager.swift: a wrapper around the platform location service. Permission requests, starting and stopping updates, and error logging are left out. Its latest coordinate is the view's `location` field, and its coordinate equality is `CoordinateEquality`.
- The map search's 20 km region is left out, and its category filter is only named, as one of two values. Both are arguments to a foreign service, and the model makes the search a parameter.
- The language-model session is left out: streaming, prewarming, the instructions as the model reads them, and when or whether it calls a tool. The model enters as a function from the prompt to a stream of snapshots that ends normally or with an error. A failed tool call shows up only as a failed stream.
- The tools' description strings and the `@Guide` texts are left out. They are read by the language model, not by the app.
- `Task` scheduling and `@MainActor` are left out. `Submit` runs as one step that records the flag changes and the generator call in order. The disabled control rules out a second submission during a call. A location change that arrives mid-generation and replaces the generator is not modelled.
- Logging and `prewarm` are left out; neither changes the modelled state.
- `stopUpdatingLocation` inside the change handler is left out. In the app it stops further location reports, so the generator is rebuilt about once per appearance of the screen. The model allows any number of `LocationChanged` calls, so it admits more location events than the app produces.
- SwiftUI layout, animations, `isAnimating`, the header's field-by-field rendering and the `%g` quantity formatting are left out. They are presentation only.
- `Recipe.id` is left out: it is a random `UUID` and feeds only an animation.
- Floating point is left out. `Double` quantities and coordinates are reals, so NaN and rounding are not modelled.
- SwiftUI keeps `@State` of the ingredient list across re-renders. That is not modelled: an `IngredientList` is built for one ingredient sequence.
- RecipeCart/RecipeCartApp.swift and RecipeCart/PromptPlayground.swift are left out. They hold the app scene and a playground, with no logic of their own.
- LocatorTools.CaptionsEndInOneNewline: states that each caption ends in a newline preceded by a colon, not that the caption has no other newline. With `FirstLineFollowsCaption`, this shows that exactly one newline separates the caption from line 1.
- ResultFormat.FormatSplitsIntoLines: assumes no listed name contains a newline. A name that does contain one spreads over several text lines, which the round trip cannot undo.
