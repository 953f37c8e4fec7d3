/**
 * A crafting pattern: built once from its encoded form, then asked whether
 * candidate items fit its slots, what a whole grid crafts, and which items may
 * substitute for a slot. The grids, the two memo caches, the substitute map
 * and the priority are the state the source updates in place.
 */
module Patterns {
  import opened Wrappers
  import opened Items
  import opened Condensing
  import opened Alignment
  import opened Matching

  type RecipeId = string

  /** Java's 32-bit `int`, the type of a pattern's priority. */
  newtype i32 = x: int | -0x8000_0000 <= x < 0x8000_0000

  const NOT_A_PATTERN_ITEM: string := "itemStack is not a ICraftingPatternItem"
  const NOT_A_CRAFTING_RECIPE: string := "recipe id is not a crafting recipe"
  const ONLY_CRAFTING: string := "Only crafting recipes supported."

  /** What the encoded pattern item yields when decoded. */
  datatype EncodedPattern = EncodedPattern(
    isEncodedPatternItem: bool,
    ingredients: seq<Option<Stack>>,
    products: seq<Option<Stack>>,
    recipeId: Option<RecipeId>,
    allowsSubstitution: bool)

  /** The parts of a pattern that are fixed once it is built. */
  datatype Definition = Definition(
    isCraftable: bool,
    canSubstitute: bool,
    sparseInputs: seq<Option<Stack>>,
    sparseOutputs: seq<Option<Stack>>,
    inputs: seq<Stack>,
    outputs: seq<Stack>,
    standardRecipe: Option<Recipe>,
    correctOutput: Stack)
  {
    /**
     * Nine sparse inputs; a craftable pattern has a recipe and one output, the
     * stack its recipe crafts from the canonical grid; a processing pattern has
     * three declared outputs and no recipe; inputs and outputs are condensed
     * forms of the sparse lists.
     */
    ghost predicate WellFormed()
    {
      && |sparseInputs| == ALL_INPUT_LIMIT
      && isCraftable == standardRecipe.Some?
      && (isCraftable ==>
            && correctOutput == standardRecipe.value.craft(CanonicalGrid(sparseInputs))
            && !correctOutput.IsEmpty()
            && sparseOutputs == [AsAEStack(correctOutput)])
      && (!isCraftable ==> |sparseOutputs| == PROCESSING_OUTPUT_LIMIT && correctOutput == EMPTY)
      && CondensedFrom(sparseInputs, inputs)
      && CondensedFrom(sparseOutputs, outputs)
    }
  }

  /** The outputs a pattern declares before condensing: the crafted stack, or the first three products. */
  function SparseOutputs(pattern: EncodedPattern, recipes: map<RecipeId, Recipe>): seq<Option<Stack>>
    requires |pattern.ingredients| >= ALL_INPUT_LIMIT
    requires pattern.recipeId.Some? ==> pattern.recipeId.value in recipes
    requires pattern.recipeId.None? ==> |pattern.products| >= PROCESSING_OUTPUT_LIMIT
  {
    match pattern.recipeId
    case Some(id) => [AsAEStack(recipes[id].craft(CanonicalGrid(pattern.ingredients[..ALL_INPUT_LIMIT])))]
    case None => pattern.products[..PROCESSING_OUTPUT_LIMIT]
  }

  /** The checks the constructor makes before it condenses, in the order it makes them. */
  predicate Resolvable(pattern: EncodedPattern, recipes: map<RecipeId, Recipe>)
  {
    && pattern.isEncodedPatternItem
    && |pattern.ingredients| >= ALL_INPUT_LIMIT
    && (pattern.recipeId.Some? ==> pattern.recipeId.value in recipes)
    && (pattern.recipeId.None? ==> |pattern.products| >= PROCESSING_OUTPUT_LIMIT)
  }

  /** Craft the known output, then condense inputs and outputs; empty lists fail. */
  function Assemble(pattern: EncodedPattern, recipes: map<RecipeId, Recipe>): (r: Result<Definition>)
    requires Resolvable(pattern, recipes)
    ensures r.Ok? ==> r.value.WellFormed()
    ensures r.Ok? ==>
      && Condense(r.value.sparseInputs) == Ok(r.value.inputs)
      && Condense(r.value.sparseOutputs) == Ok(r.value.outputs)
    ensures r.Ok? ==>
      && r.value.isCraftable == pattern.recipeId.Some?
      && r.value.canSubstitute == pattern.allowsSubstitution
      && r.value.sparseInputs == pattern.ingredients[..ALL_INPUT_LIMIT]
      && (pattern.recipeId.Some? ==> r.value.standardRecipe == Some(recipes[pattern.recipeId.value]))
      && (pattern.recipeId.None? ==> r.value.sparseOutputs == pattern.products[..PROCESSING_OUTPUT_LIMIT])
    ensures (forall x :: 0 <= x < ALL_INPUT_LIMIT ==> pattern.ingredients[x].None?) ==>
      r == Err(IllegalState(NO_PATTERN_HERE))
    ensures r.Err? ==> r.error == IllegalState(NO_PATTERN_HERE)
    ensures r.Ok? <==> AnyPresent(pattern.ingredients[..ALL_INPUT_LIMIT]) && AnyPresent(SparseOutputs(pattern, recipes))
  {
    var sparseInputs := pattern.ingredients[..ALL_INPUT_LIMIT];
    var standardRecipe := if pattern.recipeId.Some? then Some(recipes[pattern.recipeId.value]) else None;
    var correctOutput := if pattern.recipeId.Some? then standardRecipe.value.craft(CanonicalGrid(sparseInputs)) else EMPTY;
    var sparseOutputs := SparseOutputs(pattern, recipes);
    var condensedInputs := Condense(sparseInputs);
    var condensedOutputs := Condense(sparseOutputs);
    if condensedInputs.Err? then Err(condensedInputs.error)
    else if condensedOutputs.Err? then Err(condensedOutputs.error)
    else
      Ok(Definition(pattern.recipeId.Some?, pattern.allowsSubstitution, sparseInputs, sparseOutputs,
                    condensedInputs.value, condensedOutputs.value, standardRecipe, correctOutput))
  }

  /**
   * The value part of the constructor: decode, resolve the recipe, craft the
   * known output and condense, failing the way the source throws.
   */
  function Decode(pattern: EncodedPattern, recipes: map<RecipeId, Recipe>): (r: Result<Definition>)
    ensures r.Ok? ==> Resolvable(pattern, recipes) && r == Assemble(pattern, recipes)
    ensures !pattern.isEncodedPatternItem ==> r == Err(IllegalArgument(NOT_A_PATTERN_ITEM))
    ensures (pattern.isEncodedPatternItem && |pattern.ingredients| < ALL_INPUT_LIMIT) ==>
      r == Err(IndexOutOfBounds(|pattern.ingredients|, |pattern.ingredients|))
    ensures (&& pattern.isEncodedPatternItem && |pattern.ingredients| >= ALL_INPUT_LIMIT
             && pattern.recipeId.Some? && pattern.recipeId.value !in recipes) ==>
      r == Err(IllegalState(NOT_A_CRAFTING_RECIPE))
    ensures (&& pattern.isEncodedPatternItem && |pattern.ingredients| >= ALL_INPUT_LIMIT
             && pattern.recipeId.None? && |pattern.products| < PROCESSING_OUTPUT_LIMIT) ==>
      r == Err(IndexOutOfBounds(|pattern.products|, |pattern.products|))
    ensures Resolvable(pattern, recipes) ==> r == Assemble(pattern, recipes)
  {
    if !pattern.isEncodedPatternItem then Err(IllegalArgument(NOT_A_PATTERN_ITEM))
    else if |pattern.ingredients| < ALL_INPUT_LIMIT then
      Err(IndexOutOfBounds(|pattern.ingredients|, |pattern.ingredients|))
    else if pattern.recipeId.Some? && pattern.recipeId.value !in recipes then
      Err(IllegalState(NOT_A_CRAFTING_RECIPE))
    else if pattern.recipeId.None? && |pattern.products| < PROCESSING_OUTPUT_LIMIT then
      Err(IndexOutOfBounds(|pattern.products|, |pattern.products|))
    else
      Assemble(pattern, recipes)
  }

  /** The pass-cache entries a new pattern starts with: every untagged canonical stack, empty ones included. */
  ghost function PreSeed(sparse: seq<Option<Stack>>, n: nat): set<TestLookup>
    requires n <= ALL_INPUT_LIMIT
  {
    set x: int | 0 <= x < n && x < |sparse| && !StackOf(sparse[x]).HasTag() :: Lookup(x, StackOf(sparse[x]))
  }

  /** Integer.compare(theirs, mine): the pattern with the higher priority sorts first. */
  function ComparePriorities(mine: i32, theirs: i32): (r: int)
    ensures -1 <= r <= 1
    ensures r < 0 <==> mine > theirs
    ensures r == 0 <==> mine == theirs
    ensures r > 0 <==> mine < theirs
  {
    if theirs < mine then -1 else if theirs == mine then 0 else 1
  }

  /** compareTo orders patterns consistently: it is antisymmetric and transitive. */
  lemma ComparePrioritiesIsAnOrder(a: i32, b: i32, c: i32)
    ensures ComparePriorities(a, b) == -ComparePriorities(b, a)
    ensures ComparePriorities(a, b) <= 0 && ComparePriorities(b, c) <= 0 ==> ComparePriorities(a, c) <= 0
  {
  }

  class CraftingPatternDetails {
    const isCraftable: bool
    const canSubstitute: bool
    const sparseInputs: seq<Option<Stack>>
    const sparseOutputs: seq<Option<Stack>>
    const inputs: seq<Stack>
    const outputs: seq<Stack>
    const standardRecipe: Option<Recipe>
    const correctOutput: Stack
    const comparisons: ItemComparisons
    /** The canonical grid, filled once by the constructor. */
    const crafting: array<Stack>
    /** The scratch grid that trial evaluations overwrite. */
    const testFrame: array<Stack>
    var passCache: set<TestLookup>
    var failCache: set<TestLookup>
    var substituteInputs: map<Slot, seq<Option<Stack>>>
    var priority: i32
    /** How many times the recipe has been consulted by a trial evaluation. */
    ghost var recipeEvaluations: nat

    function AsDefinition(): Definition
    {
      Definition(isCraftable, canSubstitute, sparseInputs, sparseOutputs, inputs, outputs, standardRecipe, correctOutput)
    }

    /** The canonical grid holds the decoded sparse inputs. */
    ghost predicate Coherent()
      reads this, crafting
    {
      && |sparseInputs| == ALL_INPUT_LIMIT
      && isCraftable == standardRecipe.Some?
      && crafting.Length == ALL_INPUT_LIMIT
      && crafting[..] == CanonicalGrid(sparseInputs)
    }

    /**
     * The pattern's invariant: a well-formed definition, two distinct 9-slot
     * grids, disjoint caches, and a substitute map whose every entry is what a
     * fresh computation for that (filled) slot would give.
     */
    ghost predicate Valid()
      reads this, crafting, testFrame
    {
      && AsDefinition().WellFormed()
      && Coherent()
      && testFrame.Length == ALL_INPUT_LIMIT && crafting != testFrame
      && passCache !! failCache
      && (forall slot :: slot in substituteInputs ==>
            sparseInputs[slot].Some? && Substitutes(standardRecipe, sparseInputs, slot) == Ok(substituteInputs[slot]))
    }

    constructor (d: Definition, comparisons: ItemComparisons)
      requires d.WellFormed()
      ensures Valid()
      ensures AsDefinition() == d && this.comparisons == comparisons
      ensures passCache == PreSeed(d.sparseInputs, ALL_INPUT_LIMIT) && failCache == {}
      ensures substituteInputs == map[] && priority == 0 && recipeEvaluations == 0
      ensures testFrame[..] == crafting[..]
      ensures fresh(crafting) && fresh(testFrame)
    {
      isCraftable := d.isCraftable;
      canSubstitute := d.canSubstitute;
      sparseInputs := d.sparseInputs;
      sparseOutputs := d.sparseOutputs;
      inputs := d.inputs;
      outputs := d.outputs;
      standardRecipe := d.standardRecipe;
      correctOutput := d.correctOutput;
      this.comparisons := comparisons;
      crafting := new Stack[ALL_INPUT_LIMIT](_ => EMPTY);
      testFrame := new Stack[ALL_INPUT_LIMIT](_ => EMPTY);
      passCache, failCache := {}, {};
      substituteInputs := map[];
      priority := 0;
      recipeEvaluations := 0;
      new;
      for x := 0 to ALL_INPUT_LIMIT
        modifies this`passCache, this`failCache, crafting, testFrame
        invariant passCache == PreSeed(sparseInputs, x) && failCache == {}
        invariant forall y :: 0 <= y < x ==> crafting[y] == StackOf(sparseInputs[y]) && testFrame[y] == StackOf(sparseInputs[y])
      {
        var gs := StackOf(sparseInputs[x]);
        crafting[x] := gs;
        // As written, this reads (!empty && !craftable) || !tagged; MarkItemAs drops tagged stacks.
        if (!gs.IsEmpty() && !isCraftable) || !gs.HasTag() {
          MarkItemAs(x, gs, ACCEPT);
        }
        testFrame[x] := gs;
        assert PreSeed(sparseInputs, x + 1) ==
          PreSeed(sparseInputs, x) + (if !gs.HasTag() then {Lookup(x, gs)} else {});
      }
    }

    /** markItemAs: record a decision in the matching cache, unless it is TEST or the stack is tagged. */
    method MarkItemAs(slot: Slot, i: Stack, b: TestStatus)
      modifies this`passCache, this`failCache
      ensures passCache == if b == ACCEPT && !i.HasTag() then old(passCache) + {Lookup(slot, i)} else old(passCache)
      ensures failCache == if b == DECLINE && !i.HasTag() then old(failCache) + {Lookup(slot, i)} else old(failCache)
    {
      if b == TEST || i.HasTag() {
        return;
      }
      if b == ACCEPT {
        passCache := passCache + {Lookup(slot, i)};
      } else {
        failCache := failCache + {Lookup(slot, i)};
      }
    }

    /** getStatus on the pattern's own grid and caches. */
    function Status(slot: Slot, i: Stack): TestStatus
      reads this, crafting
      requires crafting.Length == ALL_INPUT_LIMIT
    {
      StatusOf(crafting[slot], passCache, failCache, slot, i)
    }

    /** The answer isValidItemForSlot gives in the current state: the cached status, or the trial's outcome. */
    ghost function Verdict(slot: Slot, i: Stack): bool
      reads this, crafting
      requires Coherent() && isCraftable
    {
      match Status(slot, i)
      case ACCEPT => true
      case DECLINE => false
      case TEST => TrialAccepts(standardRecipe.value, comparisons, canSubstitute, sparseInputs, correctOutput, slot, i)
    }

    /** The query gets as far as consulting the recipe: a cache miss that passes the same-type check. */
    ghost predicate ConsultsRecipe(slot: Slot, i: Stack)
      reads this, crafting
      requires Coherent()
    {
      Status(slot, i) == TEST && (canSubstitute || comparisons.isSameType(sparseInputs[slot].value, i))
    }

    /**
     * isValidItemForSlot. A processing pattern throws. Otherwise the answer is
     * the cached status or the trial's outcome; only a trial changes anything:
     * it leaves the scratch grid as the canonical grid (accepted) or with the
     * candidate in `slot` (declined), records an untagged candidate in the
     * matching cache, and counts one recipe evaluation unless the same-type
     * check declined first. Afterwards an untagged candidate is answered from
     * the cache.
     */
    method IsValidItemForSlot(slot: Slot, i: Stack) returns (r: Result<bool>)
      requires Valid()
      modifies this`passCache, this`failCache, this`recipeEvaluations, testFrame
      ensures Valid()
      ensures !isCraftable ==> r == Err(IllegalState(ONLY_CRAFTING)) && unchanged(this, testFrame)
      ensures isCraftable ==> r == Ok(old(Verdict(slot, i)))
      ensures isCraftable ==>
        recipeEvaluations == old(recipeEvaluations) + (if old(ConsultsRecipe(slot, i)) then 1 else 0)
      ensures isCraftable ==>
        passCache == old(passCache) + (if old(Status(slot, i)) == TEST && !i.HasTag() && r.value then {Lookup(slot, i)} else {})
      ensures isCraftable ==>
        failCache == old(failCache) + (if old(Status(slot, i)) == TEST && !i.HasTag() && !r.value then {Lookup(slot, i)} else {})
      ensures isCraftable && old(Status(slot, i)) != TEST ==> unchanged(testFrame)
      ensures isCraftable && old(Status(slot, i)) == TEST ==>
        testFrame[..] == if r.value then crafting[..] else crafting[..][slot := i]
      ensures isCraftable && !i.HasTag() ==> Status(slot, i) == if r.value then ACCEPT else DECLINE
    {
      if !isCraftable {
        return Err(IllegalState(ONLY_CRAFTING));
      }
      var result := Status(slot, i);
      if result == ACCEPT {
        return Ok(true);
      } else if result == DECLINE {
        return Ok(false);
      }

      ResetTestFrame();
      testFrame[slot] := i;
      assert testFrame[..] == TestFrame(sparseInputs, slot, i);

      // Without substitution the items must match exactly.
      if !canSubstitute && slot < |sparseInputs| {
        if !comparisons.isSameType(sparseInputs[slot].value, i) {
          MarkItemAs(slot, i, DECLINE);
          return Ok(false);
        }
      }

      recipeEvaluations := recipeEvaluations + 1;
      var recipe := standardRecipe.value;
      if recipe.matches(testFrame[..]) {
        var testOutput := recipe.craft(testFrame[..]);
        if comparisons.isSameItem(correctOutput, testOutput) {
          testFrame[slot] := crafting[slot];
          assert testFrame[..] == crafting[..];
          MarkItemAs(slot, i, ACCEPT);
          return Ok(true);
        }
      }

      MarkItemAs(slot, i, DECLINE);
      return Ok(false);
    }

    /** Copies the canonical grid into the scratch grid. */
    method ResetTestFrame()
      requires crafting.Length == testFrame.Length && crafting != testFrame
      modifies testFrame
      ensures testFrame[..] == crafting[..]
    {
      for x := 0 to crafting.Length
        invariant forall y :: 0 <= y < x ==> testFrame[y] == crafting[y]
      {
        testFrame[x] := crafting[x];
      }
    }

    /** The first slot of `grid`, from `from` on, whose candidate is not valid; |grid| when all are. */
    ghost function FirstRejected(grid: seq<Stack>, from: nat): (x: nat)
      reads this, crafting
      requires Coherent() && isCraftable && |grid| <= ALL_INPUT_LIMIT && from <= |grid|
      ensures from <= x <= |grid|
      ensures forall y :: from <= y < x ==> Verdict(y, grid[y])
      ensures x < |grid| ==> !Verdict(x, grid[x])
      decreases |grid| - from
    {
      if from == |grid| then from
      else if !Verdict(from, grid[from]) then from
      else FirstRejected(grid, from + 1)
    }

    /** How many slots getOutput queries: up to and including the first rejected one. */
    ghost function ScanLength(grid: seq<Stack>): (n: nat)
      reads this, crafting
      requires Coherent() && isCraftable && |grid| <= ALL_INPUT_LIMIT
      ensures n <= |grid|
    {
      var first := FirstRejected(grid, 0);
      if first < |grid| then first + 1 else |grid|
    }

    /** How many of the first `n` slots of `grid` would consult the recipe. */
    ghost function RecipeEvaluationsUpTo(grid: seq<Stack>, n: nat): nat
      reads this, crafting
      requires Coherent() && |grid| <= ALL_INPUT_LIMIT && n <= |grid|
    {
      if n == 0 then 0
      else RecipeEvaluationsUpTo(grid, n - 1) + (if ConsultsRecipe(n - 1, grid[n - 1]) then 1 else 0)
    }

    /**
     * getOutput. A processing pattern throws. Otherwise every slot of the grid,
     * in order, is put to isValidItemForSlot, and the first rejected slot ends
     * the scan with EMPTY; when no slot is rejected the known output is
     * returned. Slots after the first rejected one are never queried: they gain
     * no cache entries and cost no recipe evaluation.
     */
    method GetOutput(grid: seq<Stack>) returns (r: Result<Stack>)
      requires Valid() && |grid| <= ALL_INPUT_LIMIT
      modifies this`passCache, this`failCache, this`recipeEvaluations, testFrame
      ensures Valid()
      ensures !isCraftable ==> r == Err(IllegalState(ONLY_CRAFTING)) && unchanged(this, testFrame)
      ensures isCraftable ==> r == Ok(if old(FirstRejected(grid, 0)) == |grid| then correctOutput else EMPTY)
      ensures isCraftable ==> old(passCache) <= passCache && old(failCache) <= failCache
      ensures isCraftable ==> forall k :: k in passCache - old(passCache) || k in failCache - old(failCache) ==>
        k.slot <= old(FirstRejected(grid, 0))
      ensures isCraftable ==>
        recipeEvaluations == old(recipeEvaluations) + old(RecipeEvaluationsUpTo(grid, ScanLength(grid)))
    {
      if !isCraftable {
        return Err(IllegalState(ONLY_CRAFTING));
      }
      ghost var first := old(FirstRejected(grid, 0));
      for x := 0 to |grid|
        invariant Valid()
        invariant x <= first
        invariant old(passCache) <= passCache && old(failCache) <= failCache
        invariant forall k :: k in passCache - old(passCache) || k in failCache - old(failCache) ==> k.slot < x
        invariant recipeEvaluations == old(recipeEvaluations) + old(RecipeEvaluationsUpTo(grid, x))
      {
        StatusIgnoresOtherSlots(crafting[x], old(passCache), old(failCache), passCache, failCache, x, grid[x]);
        assert Status(x, grid[x]) == old(Status(x, grid[x]));
        assert Verdict(x, grid[x]) == old(Verdict(x, grid[x]));
        assert ConsultsRecipe(x, grid[x]) == old(ConsultsRecipe(x, grid[x]));
        var valid := IsValidItemForSlot(x, grid[x]);
        if !valid.value {
          return Ok(EMPTY);
        }
      }
      return Ok(StackOf(sparseOutputs[0]));
    }

    /**
     * getSubstituteInputs. A null slot gives the empty list. Otherwise the list
     * for the slot is the cached one, or is computed from the aligned ingredient
     * and cached; an alignment that throws leaves the cache as it was. Either
     * way the answer is what a fresh computation gives.
     */
    method GetSubstituteInputs(slot: Slot) returns (r: Result<seq<Option<Stack>>>)
      requires Valid()
      modifies this`substituteInputs
      ensures Valid()
      ensures r == Substitutes(standardRecipe, sparseInputs, slot)
      ensures substituteInputs ==
        if r.Ok? && sparseInputs[slot].Some? then old(substituteInputs)[slot := r.value] else old(substituteInputs)
    {
      if sparseInputs[slot].None? {
        return Ok([]);
      }
      if slot in substituteInputs {
        return Ok(substituteInputs[slot]);
      }
      var ingredient := RecipeIngredient(standardRecipe, sparseInputs, slot);
      if ingredient.Err? {
        return Err(ingredient.error);
      }
      var itemList := BuildSubstituteList(sparseInputs[slot].value, ingredient.value.matchingStacks);
      substituteInputs := substituteInputs[slot := itemList];
      return Ok(itemList);
    }

    method SetPriority(priority: i32)
      modifies this`priority
      ensures this.priority == priority
    {
      this.priority := priority;
    }

    /** compareTo: negative when this pattern has the higher priority, so higher priorities sort first. */
    function CompareTo(o: CraftingPatternDetails): (r: int)
      reads this, o
      ensures r < 0 <==> priority > o.priority
      ensures r == 0 <==> priority == o.priority
      ensures r > 0 <==> priority < o.priority
    {
      ComparePriorities(priority, o.priority)
    }

    /**
     * The constructor: decode the pattern (throwing as the source does), then
     * fill the grids and pre-seed the pass cache.
     */
    static method Create(pattern: EncodedPattern, recipes: map<RecipeId, Recipe>, comparisons: ItemComparisons)
      returns (r: Result<CraftingPatternDetails>)
      ensures r.Err? <==> Decode(pattern, recipes).Err?
      ensures r.Err? ==> r.error == Decode(pattern, recipes).error
      ensures r.Ok? ==>
        && fresh(r.value) && fresh(r.value.crafting) && fresh(r.value.testFrame)
        && r.value.Valid()
        && r.value.AsDefinition() == Decode(pattern, recipes).value
        && r.value.passCache == PreSeed(r.value.sparseInputs, ALL_INPUT_LIMIT) && r.value.failCache == {}
        && r.value.substituteInputs == map[] && r.value.priority == 0 && r.value.recipeEvaluations == 0
    {
      var decoded := Decode(pattern, recipes);
      if decoded.Err? {
        return Err(decoded.error);
      }
      var details := new CraftingPatternDetails(decoded.value, comparisons);
      return Ok(details);
    }
  }

  /**
   * Two successive queries with the same untagged candidate agree, and the
   * second is answered from the cache without consulting the recipe.
   */
  method RepeatedQueryHitsCache(p: CraftingPatternDetails, slot: Slot, i: Stack)
    returns (first: bool, second: bool, ghost secondEvaluations: nat)
    requires p.Valid() && p.isCraftable && !i.HasTag()
    modifies p`passCache, p`failCache, p`recipeEvaluations, p.testFrame
    ensures p.Valid()
    ensures first == second && secondEvaluations == 0
    ensures p.recipeEvaluations <= old(p.recipeEvaluations) + 1
  {
    var r1 := p.IsValidItemForSlot(slot, i);
    ghost var afterFirst := p.recipeEvaluations;
    var r2 := p.IsValidItemForSlot(slot, i);
    first, second := r1.value, r2.value;
    secondEvaluations := p.recipeEvaluations - afterFirst;
  }
}
