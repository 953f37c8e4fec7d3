/**
 * Item stacks, recipe ingredients and the recipe itself, as the pattern code sees them.
 * The recipe and the item comparisons live in the game and are given here as
 * function-valued fields, so every property proved holds for any recipe.
 */
module Items {
  import opened Wrappers

  /** Side length of the crafting grid and the limits of a pattern. */
  const CRAFTING_GRID_DIMENSION: int := 3
  const ALL_INPUT_LIMIT: nat := 9
  const CRAFTING_OUTPUT_LIMIT: nat := 1
  const PROCESSING_OUTPUT_LIMIT: nat := 3

  /** An index into the 3x3 grid, row-major. */
  type Slot = x: int | 0 <= x < 9

  /** Raw registry id of the air item; a stack of air is empty. */
  const AIR: nat := 0

  /**
   * What an item stack is apart from its size: the item, its damage and the
   * attached tag (an abstract identity for the NBT compound, `None` when absent).
   */
  datatype ItemKind = ItemKind(item: nat, damage: int, tag: Option<nat>)

  datatype Stack = Stack(kind: ItemKind, count: int) {
    predicate IsEmpty() { kind.item == AIR || count <= 0 }
    predicate HasTag() { kind.tag.Some? }
  }

  /** The game's shared empty stack. */
  const EMPTY: Stack := Stack(ItemKind(AIR, 0, None), 0)

  /**
   * Converts a game stack into a storage stack; the storage factory answers
   * `null` for an empty stack and otherwise keeps item, damage, tag and size.
   */
  function AsAEStack(s: Stack): (r: Option<Stack>)
    ensures r.None? <==> s.IsEmpty()
    ensures r.Some? ==> r.value == s
  {
    if s.IsEmpty() then None else Some(s)
  }

  /** The game stack placed in the grid for a sparse entry: the entry's own stack, or EMPTY for `null`. */
  function StackOf(entry: Option<Stack>): Stack
  {
    match entry
    case None => EMPTY
    case Some(s) => s
  }

  /** The canonical crafting grid decoded from the sparse inputs. */
  function CanonicalGrid(sparse: seq<Option<Stack>>): (g: seq<Stack>)
    ensures |g| == |sparse|
    ensures forall x :: 0 <= x < |g| && !g[x].IsEmpty() ==> sparse[x].Some? && g[x] == sparse[x].value
    ensures forall x :: 0 <= x < |g| && sparse[x].Some? ==> g[x] == sparse[x].value
    ensures forall x :: 0 <= x < |g| && sparse[x].None? ==> g[x] == EMPTY
  {
    seq(|sparse|, x requires 0 <= x < |sparse| => StackOf(sparse[x]))
  }

  /** A recipe ingredient: the stacks it accepts. */
  datatype Ingredient = Ingredient(matchingStacks: seq<Stack>) {
    predicate IsEmpty() { |matchingStacks| == 0 }
  }

  /** The ingredient that accepts nothing (and stands for an empty grid cell). */
  const EMPTY_INGREDIENT: Ingredient := Ingredient([])

  /** A shaped recipe has a width; a shapeless one only a list of ingredients. */
  datatype Shape = Shaped(width: int) | Shapeless

  /**
   * A crafting recipe: its shape, its compact ingredient list, and the game's
   * `matches` and `craft` evaluations on a 9-slot grid.
   */
  datatype Recipe = Recipe(
    shape: Shape,
    previewInputs: seq<Ingredient>,
    matches: seq<Stack> -> bool,
    craft: seq<Stack> -> Stack)

  /** The item comparisons the pattern relies on, both ignoring stack size. */
  datatype ItemComparisons = ItemComparisons(
    isSameType: (Stack, Stack) -> bool,
    isSameItem: (Stack, Stack) -> bool)
}
