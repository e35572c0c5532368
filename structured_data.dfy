/**
 * The schema.org `Recipe` object (JSON-LD) emitted on a recipe's page:
 * fields copied from the recipe, times as ISO 8601 durations in minutes
 * (`PT<n>M`), one text line per ingredient and one numbered `HowToStep`
 * per instruction.
 */
module StructuredData {
  import opened Wrappers
  import opened Text
  import opened RecipeApi

  const SchemaContext := "https://schema.org/"
  const RecipeType := "Recipe"
  const HowToStepType := "HowToStep"

  datatype HowToStep = HowToStep(kind: string, text: string, position: nat)

  /** The object serialised into the page; `kind` is the `@type` key, `context` the `@context` key. */
  datatype JsonLd = JsonLd(
    context: string,
    kind: string,
    name: string,
    description: string,
    image: Option<string>,
    prepTime: string,
    cookTime: string,
    totalTime: string,
    recipeYield: string,
    recipeIngredient: seq<string>,
    recipeInstructions: seq<HowToStep>)

  // ---------------------------------------------------------------------
  // Durations
  // ---------------------------------------------------------------------

  /** `PT${minutes}M`: an ISO 8601 duration with a single minutes component. */
  function IsoMinutes(minutes: nat): string {
    "PT" + NatToDecimal(minutes) + "M"
  }

  /** Reads a `PT<digits>M` duration back as minutes. */
  function ParseIsoMinutes(s: string): Option<nat> {
    if |s| >= 3 && s[..2] == "PT" && s[|s| - 1] == 'M' then ParseDecimal(s[2..|s| - 1]) else None
  }

  /** A written duration reads back as the minutes it was written from. */
  lemma IsoMinutesRoundTrip(minutes: nat)
    ensures ParseIsoMinutes(IsoMinutes(minutes)) == Some(minutes)
  {
    var s := IsoMinutes(minutes);
    assert s[2..|s| - 1] == NatToDecimal(minutes);
    DecimalRoundTrip(minutes);
  }

  // ---------------------------------------------------------------------
  // Ingredients and instructions
  // ---------------------------------------------------------------------

  /** `${ing.quantity} ${ing.unit} ${ing.name}`; `showNumber` is JavaScript's number-to-text. */
  function IngredientLine(ing: Ingredient, showNumber: real -> string): string {
    showNumber(ing.quantity) + " " + ing.unit + " " + ing.name
  }

  /** `ingredients.map(...)`: one line per ingredient, in order. */
  function IngredientLines(ingredients: seq<Ingredient>, showNumber: real -> string): (lines: seq<string>)
    ensures |lines| == |ingredients|
    ensures forall i :: 0 <= i < |ingredients| ==> lines[i] == IngredientLine(ingredients[i], showNumber)
  {
    seq(|ingredients|, i requires 0 <= i < |ingredients| => IngredientLine(ingredients[i], showNumber))
  }

  /**
   * A space-free quantity text and unit can be split off the front of the
   * line again; what is left is the ingredient's name.
   */
  lemma IngredientLineReadBack(ing: Ingredient, showNumber: real -> string)
    requires ' ' !in showNumber(ing.quantity) && ' ' !in ing.unit
    ensures
      var parts := Split(IngredientLine(ing, showNumber), ' ');
      && |parts| >= 2
      && parts[0] == showNumber(ing.quantity)
      && parts[1] == ing.unit
      && Join(parts[2..], ' ') == ing.name
  {
    var q := showNumber(ing.quantity);
    var tail := ing.unit + " " + ing.name;
    assert IngredientLine(ing, showNumber) == q + [' '] + tail;
    SplitAfterPiece(q, ' ', tail);
    assert tail == ing.unit + [' '] + ing.name;
    SplitAfterPiece(ing.unit, ' ', ing.name);
    var parts := Split(IngredientLine(ing, showNumber), ' ');
    assert parts == [q] + ([ing.unit] + Split(ing.name, ' '));
    assert parts[2..] == Split(ing.name, ' ');
    JoinSplit(ing.name, ' ');
  }

  /** The steps are well-formed: each a `HowToStep` at its 1-based position. */
  predicate NumberedSteps(steps: seq<HowToStep>) {
    forall i :: 0 <= i < |steps| ==> steps[i].kind == HowToStepType && steps[i].position == i + 1
  }

  /** `instructions.map((step, index) => ...)`: one step per instruction, numbered from 1. */
  function Steps(instructions: seq<string>): (steps: seq<HowToStep>)
    ensures |steps| == |instructions| && NumberedSteps(steps)
    ensures forall i :: 0 <= i < |instructions| ==> steps[i].text == instructions[i]
  {
    seq(|instructions|, i requires 0 <= i < |instructions| => HowToStep(HowToStepType, instructions[i], i + 1))
  }

  // ---------------------------------------------------------------------
  // The whole object
  // ---------------------------------------------------------------------

  /** The JSON-LD object for a recipe. */
  function ToJsonLd(r: Recipe, showNumber: real -> string): (ld: JsonLd)
    ensures ld.context == SchemaContext && ld.kind == RecipeType
    ensures ld.name == r.title && ld.description == r.description && ld.image == r.imageUrl
    ensures |ld.recipeIngredient| == |r.ingredients| && |ld.recipeInstructions| == |r.instructions|
  {
    JsonLd(
      SchemaContext,
      RecipeType,
      r.title,
      r.description,
      r.imageUrl,
      IsoMinutes(r.prepTimeMinutes),
      IsoMinutes(r.cookTimeMinutes),
      IsoMinutes(r.totalTimeMinutes),
      NatToDecimal(r.servingsYield),
      IngredientLines(r.ingredients, showNumber),
      Steps(r.instructions))
  }

  /** The recipe fields the object is written from and that can be read back out of it. */
  datatype Summary = Summary(
    title: string,
    description: string,
    image: Option<string>,
    prepTimeMinutes: nat,
    cookTimeMinutes: nat,
    totalTimeMinutes: nat,
    servingsYield: nat,
    instructions: seq<string>)

  function SummaryOf(r: Recipe): Summary {
    Summary(r.title, r.description, r.imageUrl, r.prepTimeMinutes, r.cookTimeMinutes,
            r.totalTimeMinutes, r.servingsYield, r.instructions)
  }

  /** A reader of the object: checks the fixed keys and the numbering, and parses the numbers. */
  function ReadBack(ld: JsonLd): Option<Summary> {
    if ld.context != SchemaContext || ld.kind != RecipeType || !NumberedSteps(ld.recipeInstructions) then None
    else
      match (ParseIsoMinutes(ld.prepTime), ParseIsoMinutes(ld.cookTime), ParseIsoMinutes(ld.totalTime), ParseDecimal(ld.recipeYield))
      case (Some(prep), Some(cook), Some(total), Some(servings)) =>
        Some(Summary(ld.name, ld.description, ld.image, prep, cook, total, servings,
                     seq(|ld.recipeInstructions|, i requires 0 <= i < |ld.recipeInstructions| => ld.recipeInstructions[i].text)))
      case _ => None
  }

  /**
   * The object determines the recipe's title, description, image, times,
   * yield and instructions: reading it back gives them unchanged.
   */
  lemma ReadBackRoundTrip(r: Recipe, showNumber: real -> string)
    ensures ReadBack(ToJsonLd(r, showNumber)) == Some(SummaryOf(r))
  {
    var ld := ToJsonLd(r, showNumber);
    IsoMinutesRoundTrip(r.prepTimeMinutes);
    IsoMinutesRoundTrip(r.cookTimeMinutes);
    IsoMinutesRoundTrip(r.totalTimeMinutes);
    DecimalRoundTrip(r.servingsYield);
    var texts := seq(|ld.recipeInstructions|, i requires 0 <= i < |ld.recipeInstructions| => ld.recipeInstructions[i].text);
    assert texts == r.instructions;
  }
}
