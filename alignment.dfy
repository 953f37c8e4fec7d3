/**
 * Alignment of the sparse 3x3 pattern grid onto a recipe's compact ingredient
 * list, and the substitute lists built from the aligned ingredient.
 */
module Alignment {
  import opened Wrappers
  import opened Items

  /** `List.get`: the element at `index`, or the exception for an index outside the list. */
  function Get(list: seq<Ingredient>, index: int): (r: Result<Ingredient>)
    ensures r.Ok? <==> 0 <= index < |list|
    ensures r.Ok? ==> r.value == list[index]
    ensures r.Err? ==> r.error == IndexOutOfBounds(index, |list|)
  {
    if 0 <= index < |list| then Ok(list[index]) else Err(IndexOutOfBounds(index, |list|))
  }

  /** The first non-null sparse slot at or after `from`, in row-major order; |sparse| when there is none. */
  function FirstOccupied(sparse: seq<Option<Stack>>, from: nat): (f: nat)
    requires from <= |sparse|
    ensures from <= f <= |sparse|
    ensures f < |sparse| ==> sparse[f].Some?
    ensures forall j :: from <= j < f ==> sparse[j].None?
    decreases |sparse| - from
  {
    if from == |sparse| then |sparse|
    else if sparse[from].Some? then from
    else FirstOccupied(sparse, from + 1)
  }

  /** The (left, top) offset of the user's input: the column and row of the first non-null slot, (0, 0) for an empty grid. */
  function ShapedOffset(sparse: seq<Option<Stack>>): (o: (int, int))
    requires |sparse| == ALL_INPUT_LIMIT
    ensures 0 <= o.0 < CRAFTING_GRID_DIMENSION && 0 <= o.1 < CRAFTING_GRID_DIMENSION
    ensures forall j :: 0 <= j < ALL_INPUT_LIMIT && sparse[j].Some? ==> o.1 * CRAFTING_GRID_DIMENSION + o.0 <= j
    ensures (exists j :: 0 <= j < ALL_INPUT_LIMIT && sparse[j].Some?) ==> sparse[o.1 * CRAFTING_GRID_DIMENSION + o.0].Some?
    ensures (forall j :: 0 <= j < ALL_INPUT_LIMIT ==> sparse[j].None?) ==> o == (0, 0)
  {
    var f := FirstOccupied(sparse, 0);
    if f < ALL_INPUT_LIMIT then (f % CRAFTING_GRID_DIMENSION, f / CRAFTING_GRID_DIMENSION) else (0, 0)
  }

  /**
   * The recipe cell that grid slot `slot` holds when the recipe's origin sits at
   * column dx, row dy: row-major index into a list `width` cells wide.
   */
  function IntendedIndex(slot: Slot, width: int, dx: int, dy: int): int
  {
    var slotX := slot % CRAFTING_GRID_DIMENSION - dx;
    var slotY := slot / CRAFTING_GRID_DIMENSION - dy;
    slotY * width + slotX
  }

  /** The index into a shaped recipe's ingredient list that the source computes for `slot`. */
  function ShapedIndex(sparse: seq<Option<Stack>>, slot: Slot, recipeWidth: int): int
    requires |sparse| == ALL_INPUT_LIMIT
  {
    var (leftOffset, topOffset) := ShapedOffset(sparse);
    IntendedIndex(slot, recipeWidth, leftOffset, topOffset)
  }

  /**
   * getShapedRecipeIngredient, as written: the guard lets an index equal to the
   * list size through to `get`, which throws.
   */
  function ShapedIngredient(sparse: seq<Option<Stack>>, slot: Slot, recipeWidth: int, ingredients: seq<Ingredient>)
    : (r: Result<Ingredient>)
    requires |sparse| == ALL_INPUT_LIMIT
    ensures ShapedIndex(sparse, slot, recipeWidth) < 0 ==> r == Ok(EMPTY_INGREDIENT)
    ensures r.Err? <==> ShapedIndex(sparse, slot, recipeWidth) == |ingredients|
    ensures 0 <= ShapedIndex(sparse, slot, recipeWidth) < |ingredients| ==>
      r == Ok(ingredients[ShapedIndex(sparse, slot, recipeWidth)])
    ensures ShapedIndex(sparse, slot, recipeWidth) > |ingredients| ==> r == Ok(EMPTY_INGREDIENT)
    ensures r.Err? ==> r.error == IndexOutOfBounds(|ingredients|, |ingredients|)
    ensures r.Ok? && r.value != EMPTY_INGREDIENT ==> r.value in ingredients
  {
    var ingredientIndex := ShapedIndex(sparse, slot, recipeWidth);
    if ingredientIndex < 0 || ingredientIndex > |ingredients| then Ok(EMPTY_INGREDIENT)
    else Get(ingredients, ingredientIndex)
  }

  /** The number of non-null sparse slots strictly before `slot`. */
  function OccupiedBefore(sparse: seq<Option<Stack>>, slot: nat): (n: nat)
    requires slot <= |sparse|
    ensures n <= slot
    ensures n == |set j | 0 <= j < slot && sparse[j].Some?|
  {
    if slot == 0 then 0
    else
      var below := set j | 0 <= j < slot - 1 && sparse[j].Some?;
      var last := if sparse[slot - 1].Some? then {slot - 1} else {};
      assert (set j | 0 <= j < slot && sparse[j].Some?) == below + last;
      assert below !! last;
      OccupiedBefore(sparse, slot - 1) + (if sparse[slot - 1].Some? then 1 else 0)
  }

  /** getShapelessRecipeIngredient: the n-th ingredient for the n-th occupied slot, EMPTY past the list's end. */
  function ShapelessIngredient(sparse: seq<Option<Stack>>, slot: Slot, ingredients: seq<Ingredient>): (r: Ingredient)
    requires |sparse| == ALL_INPUT_LIMIT
    ensures OccupiedBefore(sparse, slot) >= |ingredients| ==> r == EMPTY_INGREDIENT
    ensures OccupiedBefore(sparse, slot) < |ingredients| ==> r == ingredients[OccupiedBefore(sparse, slot)]
  {
    var ingredientIndex := OccupiedBefore(sparse, slot);
    if ingredientIndex < |ingredients| then ingredients[ingredientIndex] else EMPTY_INGREDIENT
  }

  /**
   * getRecipeIngredient: dispatch on the recipe's shape. A processing pattern has
   * no recipe, fails the shaped test and dereferences null in the shapeless branch.
   */
  function RecipeIngredient(recipe: Option<Recipe>, sparse: seq<Option<Stack>>, slot: Slot): (r: Result<Ingredient>)
    requires |sparse| == ALL_INPUT_LIMIT
    ensures recipe.None? ==> r == Err(NullPointer)
    ensures recipe.Some? && recipe.value.shape.Shapeless? ==> r.Ok?
    ensures recipe.Some? && recipe.value.shape.Shaped? ==>
      r == ShapedIngredient(sparse, slot, recipe.value.shape.width, recipe.value.previewInputs)
    ensures recipe.Some? && recipe.value.shape.Shapeless? ==>
      r == Ok(ShapelessIngredient(sparse, slot, recipe.value.previewInputs))
  {
    match recipe
    case None => Err(NullPointer)
    case Some(standardRecipe) =>
      match standardRecipe.shape
      case Shaped(width) => ShapedIngredient(sparse, slot, width, standardRecipe.previewInputs)
      case Shapeless => Ok(ShapelessIngredient(sparse, slot, standardRecipe.previewInputs))
  }

  /** The substitute list for a slot: the user's own stack first, then every matching stack, duplicates kept. */
  function SubstituteList(user: Stack, matchingStacks: seq<Stack>): (r: seq<Option<Stack>>)
    ensures |r| == |matchingStacks| + 1
    ensures r[0] == Some(user)
    ensures forall k :: 0 <= k < |matchingStacks| ==> r[k + 1] == AsAEStack(matchingStacks[k])
  {
    [Some(user)] + seq(|matchingStacks|, k requires 0 <= k < |matchingStacks| => AsAEStack(matchingStacks[k]))
  }

  /** What getSubstituteInputs answers for a slot when nothing is cached yet. */
  function Substitutes(recipe: Option<Recipe>, sparse: seq<Option<Stack>>, slot: Slot): (r: Result<seq<Option<Stack>>>)
    requires |sparse| == ALL_INPUT_LIMIT
    ensures sparse[slot].None? ==> r == Ok([])
    ensures sparse[slot].Some? ==> (r.Err? <==> RecipeIngredient(recipe, sparse, slot).Err?)
    ensures sparse[slot].Some? && r.Ok? ==>
      |r.value| == |RecipeIngredient(recipe, sparse, slot).value.matchingStacks| + 1 && r.value[0] == sparse[slot]
    ensures sparse[slot].Some? && r.Ok? ==>
      var m := RecipeIngredient(recipe, sparse, slot).value.matchingStacks;
      forall k :: 0 <= k < |m| ==> r.value[k + 1] == AsAEStack(m[k])
  {
    match sparse[slot]
    case None => Ok([])
    case Some(user) =>
      match RecipeIngredient(recipe, sparse, slot)
      case Err(e) => Err(e)
      case Ok(ingredient) => Ok(SubstituteList(user, ingredient.matchingStacks))
  }

  /** The list built inside getSubstituteInputs: each matching stack converted in order, then the user's stack put in front. */
  method BuildSubstituteList(user: Stack, matchingStacks: seq<Stack>) returns (itemList: seq<Option<Stack>>)
    ensures itemList == SubstituteList(user, matchingStacks)
  {
    itemList := [];
    for k := 0 to |matchingStacks|
      invariant |itemList| == k
      invariant forall j :: 0 <= j < k ==> itemList[j] == AsAEStack(matchingStacks[j])
    {
      itemList := itemList + [AsAEStack(matchingStacks[k])];
    }
    itemList := [Some(user)] + itemList;
  }

  /** The list is not de-duplicated: a user stack that the ingredient also matches appears twice. */
  lemma SubstitutesKeepDuplicates(user: Stack, matchingStacks: seq<Stack>, k: nat)
    requires k < |matchingStacks| && matchingStacks[k] == user && !user.IsEmpty()
    ensures SubstituteList(user, matchingStacks)[0] == SubstituteList(user, matchingStacks)[k + 1] == Some(user)
  {
  }

  // ---- Shapeless alignment -------------------------------------------------

  /** Each occupied slot is counted by every later position. */
  lemma {:induction false} OccupiedBeforeGrows(sparse: seq<Option<Stack>>, a: nat, b: nat)
    requires a < b <= |sparse| && sparse[a].Some?
    ensures OccupiedBefore(sparse, a) < OccupiedBefore(sparse, b)
  {
    if b > a + 1 {
      OccupiedBeforeGrows(sparse, a, b - 1);
    }
  }

  /**
   * When a shapeless recipe has as many ingredients as the pattern has filled
   * slots, every filled slot gets a real ingredient and no two filled slots share one.
   */
  lemma ShapelessAlignmentIsInjective(sparse: seq<Option<Stack>>, ingredients: seq<Ingredient>, a: Slot, b: Slot)
    requires |sparse| == ALL_INPUT_LIMIT && |ingredients| == OccupiedBefore(sparse, ALL_INPUT_LIMIT)
    requires sparse[a].Some? && sparse[b].Some?
    ensures OccupiedBefore(sparse, a) < |ingredients|
    ensures ShapelessIngredient(sparse, a, ingredients) == ingredients[OccupiedBefore(sparse, a)]
    ensures a != b ==> OccupiedBefore(sparse, a) != OccupiedBefore(sparse, b)
  {
    OccupiedBeforeGrows(sparse, a, ALL_INPUT_LIMIT);
    if a < b {
      OccupiedBeforeGrows(sparse, a, b);
    } else if b < a {
      OccupiedBeforeGrows(sparse, b, a);
    }
  }

  // ---- Shaped alignment ----------------------------------------------------

  /** The ingredient of recipe cell `index`, EMPTY outside the list. */
  function CellIngredient(ingredients: seq<Ingredient>, index: int): Ingredient
  {
    if 0 <= index < |ingredients| then ingredients[index] else EMPTY_INGREDIENT
  }

  predicate InPlacement(slot: Slot, width: int, height: int, dx: int, dy: int)
  {
    dx <= slot % CRAFTING_GRID_DIMENSION < dx + width && dy <= slot / CRAFTING_GRID_DIMENSION < dy + height
  }

  predicate TopRowFilled(ingredients: seq<Ingredient>, c: int)
  {
    !CellIngredient(ingredients, c).IsEmpty()
  }

  predicate LeftColumnFilled(ingredients: seq<Ingredient>, width: int, r: int)
  {
    !CellIngredient(ingredients, r * width).IsEmpty()
  }

  /**
   * The sparse grid holds a width x height shaped recipe (trimmed, as the game
   * stores it: its top row and left column each hold an ingredient) with its
   * origin at column dx, row dy: a slot is filled exactly where a non-empty
   * recipe cell lands.
   */
  ghost predicate PlacedAt(sparse: seq<Option<Stack>>, width: int, height: int, ingredients: seq<Ingredient>, dx: int, dy: int)
  {
    && |sparse| == ALL_INPUT_LIMIT
    && 1 <= width && 1 <= height && |ingredients| == width * height
    && 0 <= dx && dx + width <= CRAFTING_GRID_DIMENSION
    && 0 <= dy && dy + height <= CRAFTING_GRID_DIMENSION
    && (forall slot: Slot :: sparse[slot].Some? <==>
          InPlacement(slot, width, height, dx, dy) && !CellIngredient(ingredients, IntendedIndex(slot, width, dx, dy)).IsEmpty())
    && (exists c :: 0 <= c < width && TopRowFilled(ingredients, c))
    && (exists r :: 0 <= r < height && LeftColumnFilled(ingredients, width, r))
  }

  lemma IntendedIndexInRange(slot: Slot, width: int, height: int, dx: int, dy: int)
    requires 1 <= width <= 3 && 1 <= height <= 3 && InPlacement(slot, width, height, dx, dy)
    ensures 0 <= IntendedIndex(slot, width, dx, dy) < width * height
  {
  }

  /** The smallest column holding a non-null slot at or after `from`; 3 when there is none. */
  function MinColumn(sparse: seq<Option<Stack>>, from: nat): (c: int)
    requires |sparse| == ALL_INPUT_LIMIT && from <= ALL_INPUT_LIMIT
    ensures c <= CRAFTING_GRID_DIMENSION
    ensures forall j :: from <= j < ALL_INPUT_LIMIT && sparse[j].Some? ==> c <= j % CRAFTING_GRID_DIMENSION
    ensures c < CRAFTING_GRID_DIMENSION ==>
      exists j :: from <= j < ALL_INPUT_LIMIT && sparse[j].Some? && j % CRAFTING_GRID_DIMENSION == c
    decreases ALL_INPUT_LIMIT - from
  {
    if from == ALL_INPUT_LIMIT then CRAFTING_GRID_DIMENSION
    else
      var rest := MinColumn(sparse, from + 1);
      if sparse[from].Some? && from % CRAFTING_GRID_DIMENSION < rest then from % CRAFTING_GRID_DIMENSION else rest
  }

  /**
   * The intended shaped alignment: the offset is the smallest filled column and
   * the first filled row, and an index at or past the list's end gives EMPTY.
   */
  function CorrectedShapedIngredient(sparse: seq<Option<Stack>>, slot: Slot, recipeWidth: int, ingredients: seq<Ingredient>)
    : (r: Ingredient)
    requires |sparse| == ALL_INPUT_LIMIT
    ensures r == EMPTY_INGREDIENT || r in ingredients
  {
    var f := FirstOccupied(sparse, 0);
    var leftOffset := if f < ALL_INPUT_LIMIT then MinColumn(sparse, 0) else 0;
    var topOffset := if f < ALL_INPUT_LIMIT then f / CRAFTING_GRID_DIMENSION else 0;
    var ingredientIndex := IntendedIndex(slot, recipeWidth, leftOffset, topOffset);
    if ingredientIndex < 0 || ingredientIndex >= |ingredients| then EMPTY_INGREDIENT else ingredients[ingredientIndex]
  }

  /** Under a placement the first filled slot lies in the recipe's top row. */
  lemma FirstOccupiedRow(sparse: seq<Option<Stack>>, width: int, height: int, ingredients: seq<Ingredient>, dx: int, dy: int)
    requires PlacedAt(sparse, width, height, ingredients, dx, dy)
    ensures FirstOccupied(sparse, 0) < ALL_INPUT_LIMIT
    ensures FirstOccupied(sparse, 0) / CRAFTING_GRID_DIMENSION == dy
  {
    var c :| 0 <= c < width && TopRowFilled(ingredients, c);
    var t: Slot := dy * 3 + dx + c;
    assert t / 3 == dy && t % 3 == dx + c;
    assert IntendedIndex(t, width, dx, dy) == c;
    assert sparse[t].Some?;
    var f := FirstOccupied(sparse, 0);
    assert f <= t;
    assert InPlacement(f as Slot, width, height, dx, dy);
  }

  /** Under a placement the smallest filled column is the recipe's left column. */
  lemma MinColumnIsLeft(sparse: seq<Option<Stack>>, width: int, height: int, ingredients: seq<Ingredient>, dx: int, dy: int)
    requires PlacedAt(sparse, width, height, ingredients, dx, dy)
    ensures MinColumn(sparse, 0) == dx
  {
    var r :| 0 <= r < height && LeftColumnFilled(ingredients, width, r);
    var u: Slot := (dy + r) * 3 + dx;
    assert u / 3 == dy + r && u % 3 == dx;
    assert IntendedIndex(u, width, dx, dy) == r * width;
    assert sparse[u].Some?;
    var m := MinColumn(sparse, 0);
    var j :| 0 <= j < ALL_INPUT_LIMIT && sparse[j].Some? && j % 3 == m;
    assert InPlacement(j as Slot, width, height, dx, dy);
  }

  /** The corrected alignment sends every filled slot of a placed recipe to its own recipe cell. */
  lemma CorrectedShapedIngredientAligns(
    sparse: seq<Option<Stack>>, width: int, height: int, ingredients: seq<Ingredient>, dx: int, dy: int, slot: Slot)
    requires PlacedAt(sparse, width, height, ingredients, dx, dy) && sparse[slot].Some?
    ensures 0 <= IntendedIndex(slot, width, dx, dy) < |ingredients|
    ensures CorrectedShapedIngredient(sparse, slot, width, ingredients) == ingredients[IntendedIndex(slot, width, dx, dy)]
  {
    FirstOccupiedRow(sparse, width, height, ingredients, dx, dy);
    MinColumnIsLeft(sparse, width, height, ingredients, dx, dy);
    IntendedIndexInRange(slot, width, height, dx, dy);
    CorrectedIndexFromOffsets(sparse, slot, width, ingredients, dx, dy);
  }

  /** Once the corrected offsets are known, the corrected alignment reads the intended cell. */
  lemma CorrectedIndexFromOffsets(sparse: seq<Option<Stack>>, slot: Slot, width: int, ingredients: seq<Ingredient>, dx: int, dy: int)
    requires |sparse| == ALL_INPUT_LIMIT
    requires FirstOccupied(sparse, 0) < ALL_INPUT_LIMIT && FirstOccupied(sparse, 0) / CRAFTING_GRID_DIMENSION == dy
    requires MinColumn(sparse, 0) == dx
    requires 0 <= IntendedIndex(slot, width, dx, dy) < |ingredients|
    ensures CorrectedShapedIngredient(sparse, slot, width, ingredients) == ingredients[IntendedIndex(slot, width, dx, dy)]
  {
  }

  /** The source's alignment is right when the recipe's top-left cell is filled: the first filled slot is then the origin. */
  lemma ShapedIngredientAlignsWhenOriginFilled(
    sparse: seq<Option<Stack>>, width: int, height: int, ingredients: seq<Ingredient>, dx: int, dy: int, slot: Slot)
    requires PlacedAt(sparse, width, height, ingredients, dx, dy) && sparse[slot].Some?
    requires !CellIngredient(ingredients, 0).IsEmpty()
    ensures ShapedIngredient(sparse, slot, width, ingredients) == Ok(ingredients[IntendedIndex(slot, width, dx, dy)])
  {
    var t0: Slot := dy * 3 + dx;
    assert t0 / 3 == dy && t0 % 3 == dx;
    assert IntendedIndex(t0, width, dx, dy) == 0;
    assert sparse[t0].Some?;
    var f := FirstOccupied(sparse, 0);
    assert f <= t0;
    assert InPlacement(f as Slot, width, height, dx, dy);
    assert f == 3 * (f / 3) + f % 3;
    assert f == t0;
    IntendedIndexInRange(slot, width, height, dx, dy);
  }

  /** A two-wide recipe entered in the middle row's right half (slots 4 and 5) maps those slots to cells 0 and 1. */
  lemma ShiftedTwoWideRecipe(a: Stack, b: Stack, ia: Ingredient, ib: Ingredient)
    ensures var sparse := [None, None, None, None, Some(a), Some(b), None, None, None];
      && ShapedIngredient(sparse, 4, 2, [ia, ib]) == Ok(ia)
      && ShapedIngredient(sparse, 5, 2, [ia, ib]) == Ok(ib)
  {
    var sparse: seq<Option<Stack>> := [None, None, None, None, Some(a), Some(b), None, None, None];
    assert FirstOccupied(sparse, 4) == 4;
    assert FirstOccupied(sparse, 0) == 4;
  }

  // ---- Where the source's shaped alignment goes wrong -----------------------

  /**
   * A 2x2 recipe whose top-left cell is empty (cells: -, A / B, C), entered at
   * the grid's origin: the source aligns slot 3, which holds B, with cell 1 (A).
   */
  lemma ShapedIngredientMisalignsEmptyOrigin()
    ensures var a, b, c := Stack(ItemKind(1, 0, None), 1), Stack(ItemKind(2, 0, None), 1), Stack(ItemKind(3, 0, None), 1);
      var ingredients := [EMPTY_INGREDIENT, Ingredient([a]), Ingredient([b]), Ingredient([c])];
      var sparse := [None, Some(a), None, Some(b), Some(c), None, None, None, None];
      && PlacedAt(sparse, 2, 2, ingredients, 0, 0)
      && IntendedIndex(3, 2, 0, 0) == 2
      && ShapedIngredient(sparse, 3, 2, ingredients) == Ok(ingredients[1])
      && ingredients[1] != ingredients[2]
  {
    var a, b, c := Stack(ItemKind(1, 0, None), 1), Stack(ItemKind(2, 0, None), 1), Stack(ItemKind(3, 0, None), 1);
    var ingredients := [EMPTY_INGREDIENT, Ingredient([a]), Ingredient([b]), Ingredient([c])];
    var sparse: seq<Option<Stack>> := [None, Some(a), None, Some(b), Some(c), None, None, None, None];
    assert TopRowFilled(ingredients, 1);
    assert LeftColumnFilled(ingredients, 2, 1);
    forall slot: Slot ensures sparse[slot].Some? <==>
      InPlacement(slot, 2, 2, 0, 0) && !CellIngredient(ingredients, IntendedIndex(slot, 2, 0, 0)).IsEmpty()
    {
    }
    assert FirstOccupied(sparse, 1) == 1;
    assert FirstOccupied(sparse, 0) == 1;
  }

  /**
   * A pattern whose grid no longer fits its recipe (here a 1x1 recipe and two
   * filled slots in one column): slot 3 computes index 1 == size, passes the
   * `>` guard and makes `get` throw; the corrected guard answers EMPTY.
   */
  lemma ShapedGuardAdmitsListSize(a: Stack, ia: Ingredient)
    ensures var sparse := [Some(a), None, None, Some(a), None, None, None, None, None];
      && ShapedIngredient(sparse, 3, 1, [ia]) == Err(IndexOutOfBounds(1, 1))
      && CorrectedShapedIngredient(sparse, 3, 1, [ia]) == EMPTY_INGREDIENT
  {
    var sparse: seq<Option<Stack>> := [Some(a), None, None, Some(a), None, None, None, None, None];
    assert FirstOccupied(sparse, 0) == 0;
    assert MinColumn(sparse, 0) == 0 by {
      assert MinColumn(sparse, 0) <= 0;
    }
  }
}
