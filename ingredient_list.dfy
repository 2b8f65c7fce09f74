/**
 * The ingredient checklist: the view keeps the identifiers of the ingredients
 * ticked off as bought, a tap on a row flips that ingredient, and once nothing
 * is left unbought a success screen with a reset button replaces the list.
 */
module IngredientChecklist {
  import opened RecipeModel

  /** `contains(where: { !bought.contains($0.id) })`: some ingredient is not yet bought. */
  function ContainsUnbought(ingredients: seq<PartialIngredient>, bought: set<GenerationId>): (r: bool)
    ensures r <==> exists i :: 0 <= i < |ingredients| && ingredients[i].id !in bought
  {
    if ingredients == [] then false
    else ingredients[0].id !in bought || ContainsUnbought(ingredients[1..], bought)
  }

  /** The "all ingredients bought" screen is shown exactly when this holds. */
  predicate AllBought(ingredients: seq<PartialIngredient>, bought: set<GenerationId>)
    ensures AllBought(ingredients, bought) <==> forall i :: 0 <= i < |ingredients| ==> ingredients[i].id in bought
  {
    !ContainsUnbought(ingredients, bought)
  }

  /** The identifiers of the listed ingredients. */
  ghost function Ids(ingredients: seq<PartialIngredient>): set<GenerationId>
  {
    set i | 0 <= i < |ingredients| :: ingredients[i].id
  }

  /** The bought-set after one tap on the ingredient with identifier id. */
  function Toggled(bought: set<GenerationId>, id: GenerationId): (r: set<GenerationId>)
    ensures id in r <==> id !in bought
    ensures forall other :: other != id ==> (other in r <==> other in bought)
  {
    if id in bought then bought - {id} else bought + {id}
  }

  /** Everything is bought exactly when every listed identifier is in the bought-set. */
  lemma {:induction false} AllBoughtIff(ingredients: seq<PartialIngredient>, bought: set<GenerationId>)
    ensures AllBought(ingredients, bought) <==> Ids(ingredients) <= bought
  {
    if ingredients != [] {
      AllBoughtIff(ingredients[1..], bought);
      assert Ids(ingredients) == {ingredients[0].id} + Ids(ingredients[1..]) by {
        forall x | x in Ids(ingredients) ensures x in {ingredients[0].id} + Ids(ingredients[1..]) {
          var i :| 0 <= i < |ingredients| && ingredients[i].id == x;
          if i > 0 { assert ingredients[1..][i - 1] == ingredients[i]; }
        }
        forall x | x in Ids(ingredients[1..]) ensures x in Ids(ingredients) {
          var i :| 0 <= i < |ingredients[1..]| && ingredients[1..][i].id == x;
          assert ingredients[i + 1] == ingredients[1..][i];
        }
      }
    }
  }

  /** An empty list shows the success screen whatever the bought-set holds. */
  lemma EmptyListAllBought(bought: set<GenerationId>)
    ensures AllBought([], bought)
  {
  }

  /** With nothing bought, the checklist rather than the success screen is shown iff the list is non-empty. */
  lemma NothingBoughtShowsChecklist(ingredients: seq<PartialIngredient>)
    ensures !AllBought(ingredients, {}) <==> ingredients != []
  {
  }

  /** Two taps on the same row undo each other. */
  lemma ToggleTwice(bought: set<GenerationId>, id: GenerationId)
    ensures Toggled(Toggled(bought, id), id) == bought
  {
  }

  /** Ticking the last unbought ingredient brings up the success screen. */
  lemma TickingLastUnbought(ingredients: seq<PartialIngredient>, bought: set<GenerationId>, id: GenerationId)
    requires id in Ids(ingredients) && id !in bought
    requires Ids(ingredients) - {id} <= bought
    ensures !AllBought(ingredients, bought)
    ensures AllBought(ingredients, Toggled(bought, id))
  {
    AllBoughtIff(ingredients, bought);
    AllBoughtIff(ingredients, Toggled(bought, id));
  }

  /** `IngredientList`: the ingredients shown and the view state holding the bought-set. */
  class IngredientList {
    const ingredients: seq<PartialIngredient>
    var boughtIngredients: set<GenerationId>

    /** The bought-set only names listed ingredients. */
    ghost predicate Valid()
      reads this
    {
      boughtIngredients <= Ids(ingredients)
    }

    /** A new list view starts with nothing bought. */
    constructor (ingredients: seq<PartialIngredient>)
      ensures this.ingredients == ingredients && boughtIngredients == {}
      ensures Valid()
    {
      this.ingredients := ingredients;
      boughtIngredients := {};
    }

    /** Whether the success screen is shown instead of the list. */
    predicate ShowsAllBought()
      reads this
    {
      AllBought(ingredients, boughtIngredients)
    }

    /** The `bought` state handed to a row. */
    predicate IsBought(ingredient: PartialIngredient)
      reads this
    {
      ingredient.id in boughtIngredients
    }

    /** The row callback, handed only to rows of listed ingredients: insert when told bought,
        remove otherwise. */
    method OnBoughtChanged(ingredient: PartialIngredient, isBought: bool)
      requires ingredient in ingredients
      modifies this
      ensures boughtIngredients == if isBought then old(boughtIngredients) + {ingredient.id}
                                   else old(boughtIngredients) - {ingredient.id}
      ensures old(Valid()) ==> Valid()
    {
      assert ingredient.id in Ids(ingredients) by {
        var i :| 0 <= i < |ingredients| && ingredients[i] == ingredient;
      }
      if isBought {
        boughtIngredients := boughtIngredients + {ingredient.id};
      } else {
        boughtIngredients := boughtIngredients - {ingredient.id};
      }
    }

    /** A tap on a row (its checkbox or the row itself): the row passes the negation of
        its bought state to the callback, so that ingredient's membership flips and no other changes. */
    method TapRow(ingredient: PartialIngredient)
      requires ingredient in ingredients
      modifies this
      ensures boughtIngredients == Toggled(old(boughtIngredients), ingredient.id)
      ensures old(Valid()) ==> Valid()
    {
      var bought := IsBought(ingredient);
      OnBoughtChanged(ingredient, !bought);
    }

    /** The reset button on the success screen: nothing is bought any more, so the
        checklist comes back whenever there is something to list. */
    method Reset()
      modifies this
      ensures boughtIngredients == {}
      ensures Valid()
      ensures ShowsAllBought() <==> ingredients == []
    {
      boughtIngredients := {};
      NothingBoughtShowsChecklist(ingredients);
    }
  }
}
