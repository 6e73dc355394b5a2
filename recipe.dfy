/**
 * A cocktail record as the page reads it, and the ingredient list shown in
 * the detail view: one display line per numbered slot 1..15 whose ingredient
 * is present, "measure ingredient" with both parts trimmed.
 */
module Recipe {
  import opened Wrappers
  import opened JsString

  /** The record has fifteen numbered ingredient/measure slots, `strIngredient1` .. `strIngredient15`. */
  const SlotCount: nat := 15

  /**
   * The fields of a drink the page computes on. A slot number missing from a
   * map is an `undefined` field; `None` is a JSON `null`.
   */
  datatype Cocktail = Cocktail(
    idDrink: string,
    ingredient: map<int, Option<string>>,
    measure: map<int, Option<string>>)

  /** The value of slot `i` of a field family; absent reads as `undefined`. */
  function Slot(fields: map<int, Option<string>>, i: int): Option<string> {
    if i in fields then fields[i] else None
  }

  predicate HasIngredient(c: Cocktail, i: int) {
    Truthy(Slot(c.ingredient, i))
  }

  /**
   * One display line. It always ends with the trimmed ingredient, and it is the
   * trimmed ingredient alone exactly when the measure is falsy.
   */
  function Line(ingredient: string, measure: Option<string>): (line: string)
    ensures |Trim(ingredient)| <= |line| && line[|line| - |Trim(ingredient)|..] == Trim(ingredient)
    ensures line == Trim(ingredient) <==> !Truthy(measure)
  {
    (if Truthy(measure) then Trim(measure.value) + " " else "") + Trim(ingredient)
  }

  /** A measure of white space only is truthy, so it leaves a single space in front of the ingredient. */
  lemma BlankMeasureLine(ingredient: string, measure: Option<string>)
    requires Truthy(measure) && AllWhiteSpace(measure.value)
    ensures Line(ingredient, measure) == " " + Trim(ingredient)
  {
    TrimBlank(measure.value);
  }

  /** The text of the ingredient in slot `i`; only read where that slot has an ingredient. */
  function IngredientText(c: Cocktail, i: int): string {
    match Slot(c.ingredient, i)
    case Some(text) => text
    case None => ""
  }

  /** The display line for slot `i`. */
  function SlotLine(c: Cocktail, i: int): string {
    Line(IngredientText(c, i), Slot(c.measure, i))
  }

  /** The slots among 1..n that have an ingredient, in increasing order. */
  function IngredientSlots(c: Cocktail, n: nat): seq<int> {
    if n == 0 then []
    else IngredientSlots(c, n - 1) + (if HasIngredient(c, n) then [n] else [])
  }

  /**
   * The slots among 1..n that have an ingredient are listed in strictly
   * increasing order, each exactly once, and no other slot is: so there are
   * at most n of them.
   */
  lemma {:induction false} IngredientSlotsSpec(c: Cocktail, n: nat)
    ensures var slots := IngredientSlots(c, n);
      && |slots| <= n
      && (forall k :: 0 <= k < |slots| ==> 1 <= slots[k] <= n && HasIngredient(c, slots[k]))
      && (forall j, k :: 0 <= j < k < |slots| ==> slots[j] < slots[k])
      && (forall i :: 1 <= i <= n && HasIngredient(c, i) ==> i in slots)
  {
    if n > 0 {
      IngredientSlotsSpec(c, n - 1);
    }
  }

  /** The lines for the given slots, in the same order. */
  function Lines(c: Cocktail, slots: seq<int>): (lines: seq<string>)
    ensures |lines| == |slots|
  {
    seq(|slots|, k requires 0 <= k < |slots| => SlotLine(c, slots[k]))
  }

  /**
   * `getIngredientsAndMeasures`: the loop over slots 1..15. The result is the
   * line of every slot with an ingredient, in slot order, so there are at most
   * fifteen of them and each ends with its trimmed ingredient.
   */
  method GetIngredientsAndMeasures(c: Cocktail) returns (lines: seq<string>)
    ensures lines == Lines(c, IngredientSlots(c, SlotCount))
    ensures |lines| <= SlotCount
  {
    lines := [];
    for i := 1 to SlotCount + 1
      invariant lines == Lines(c, IngredientSlots(c, i - 1))
    {
      var ingredient := Slot(c.ingredient, i);
      var measure := Slot(c.measure, i);
      if Truthy(ingredient) {
        lines := lines + [Line(ingredient.value, measure)];
      }
    }
    IngredientSlotsSpec(c, SlotCount);
  }

  /** Slots past `m` without an ingredient add no line. */
  lemma {:induction false} NoMoreSlots(c: Cocktail, m: nat, n: nat)
    requires m <= n
    requires forall i :: m < i <= n ==> !HasIngredient(c, i)
    ensures IngredientSlots(c, n) == IngredientSlots(c, m)
  {
    if m < n {
      NoMoreSlots(c, m, n - 1);
    }
  }

  /**
   * A record whose only ingredients sit in slots 1, 3 and 7 gives exactly
   * three lines, those of slots 1, 3 and 7 in that order, whatever the
   * measures of the other slots hold.
   */
  lemma {:induction false} OnlySlotsOneThreeSeven(c: Cocktail)
    requires forall i :: HasIngredient(c, i) <==> i == 1 || i == 3 || i == 7
    ensures Lines(c, IngredientSlots(c, SlotCount)) == [SlotLine(c, 1), SlotLine(c, 3), SlotLine(c, 7)]
  {
    NoMoreSlots(c, 0, 0);
    assert IngredientSlots(c, 1) == [1];
    NoMoreSlots(c, 1, 2);
    assert IngredientSlots(c, 3) == [1, 3];
    NoMoreSlots(c, 3, 6);
    assert IngredientSlots(c, 7) == [1, 3, 7];
    NoMoreSlots(c, 7, SlotCount);
  }

  /**
   * Truthiness is tested before trimming: a slot whose ingredient is non-empty
   * white space is still listed, and its line is empty once trimmed or, with a
   * truthy measure, the trimmed measure followed by a single space.
   */
  lemma WhiteSpaceSlot(c: Cocktail, i: int, w: string)
    requires 1 <= i <= SlotCount && Slot(c.ingredient, i) == Some(w)
    requires w != [] && AllWhiteSpace(w)
    ensures i in IngredientSlots(c, SlotCount)
    ensures SlotLine(c, i)
      == (if Truthy(Slot(c.measure, i)) then Trim(Slot(c.measure, i).value) + " " else "")
  {
    IngredientSlotsSpec(c, SlotCount);
    TrimBlank(w);
  }

  /**
   * Both ends of the ingredient and of a non-blank measure are trimmed, and a
   * single space joins them: "1 1/2 oz " and " Tequila " give "1 1/2 oz Tequila".
   */
  lemma TrimmedSlot(ingredient: string, measure: string, lead: string, trail: string, mLead: string, mTrail: string)
    requires Trimmed(ingredient) && Trimmed(measure) && measure != []
    requires AllWhiteSpace(lead) && AllWhiteSpace(trail) && AllWhiteSpace(mLead) && AllWhiteSpace(mTrail)
    ensures Line(lead + ingredient + trail, Some(mLead + measure + mTrail)) == measure + " " + ingredient
  {
    TrimSurrounded(lead, ingredient, trail);
    TrimSurrounded(mLead, measure, mTrail);
  }
}
