/**
 * The slot validator's decision parts that only read state: the three-valued
 * cache status and the trial evaluation of the recipe on a scratch grid.
 */
module Matching {
  import opened Wrappers
  import opened Items

  datatype TestStatus = ACCEPT | DECLINE | TEST

  /** A cache key: the slot, the item and its damage. Tags and sizes are not part of it. */
  datatype TestLookup = TestLookup(slot: int, item: nat, damage: int)

  function Lookup(slot: Slot, i: Stack): (k: TestLookup)
    ensures k.slot == slot
  {
    TestLookup(slot, i.kind.item, i.kind.damage)
  }

  /** Two keys are equal exactly when slot, item and damage agree; tag and size play no part. */
  lemma LookupIdentifies(s: Slot, i: Stack, t: Slot, j: Stack)
    ensures Lookup(s, i) == Lookup(t, j) <==> s == t && i.kind.item == j.kind.item && i.kind.damage == j.kind.damage
  {
  }

  /**
   * getStatus: what the caches say about candidate `i` at `slot`, given the
   * canonical stack there. An empty canonical slot accepts only an empty
   * candidate; a filled one declines an empty candidate; a tagged candidate is
   * always tested; otherwise the pass cache, then the fail cache decide.
   */
  function StatusOf(canonical: Stack, passCache: set<TestLookup>, failCache: set<TestLookup>, slot: Slot, i: Stack)
    : (r: TestStatus)
    ensures canonical.IsEmpty() ==> r != TEST && (r == ACCEPT <==> i.IsEmpty())
    ensures !canonical.IsEmpty() && i.IsEmpty() ==> r == DECLINE
    ensures r == TEST <==>
      !canonical.IsEmpty() && !i.IsEmpty() && (i.HasTag() || (Lookup(slot, i) !in passCache && Lookup(slot, i) !in failCache))
    ensures !canonical.IsEmpty() && !i.IsEmpty() && !i.HasTag() ==>
      (r == ACCEPT <==> Lookup(slot, i) in passCache) &&
      (r == DECLINE <==> Lookup(slot, i) !in passCache && Lookup(slot, i) in failCache)
  {
    if canonical.IsEmpty() then
      if i.IsEmpty() then ACCEPT else DECLINE
    else if i.IsEmpty() then DECLINE
    else if i.HasTag() then TEST
    else if Lookup(slot, i) in passCache then ACCEPT
    else if Lookup(slot, i) in failCache then DECLINE
    else TEST
  }

  /** Growing the caches with keys of other slots leaves a slot's status alone. */
  lemma StatusIgnoresOtherSlots(
    canonical: Stack, pass: set<TestLookup>, fail: set<TestLookup>, pass': set<TestLookup>, fail': set<TestLookup>,
    slot: Slot, i: Stack)
    requires pass <= pass' && fail <= fail'
    requires forall k :: k in pass' - pass || k in fail' - fail ==> k.slot != slot
    ensures StatusOf(canonical, pass', fail', slot, i) == StatusOf(canonical, pass, fail, slot, i)
  {
    assert Lookup(slot, i) in pass' <==> Lookup(slot, i) in pass;
    assert Lookup(slot, i) in fail' <==> Lookup(slot, i) in fail;
  }

  /** The scratch grid of a trial: the canonical grid with only `slot` replaced by the candidate. */
  function TestFrame(sparse: seq<Option<Stack>>, slot: Slot, i: Stack): (frame: seq<Stack>)
    requires |sparse| == ALL_INPUT_LIMIT
    ensures |frame| == ALL_INPUT_LIMIT && frame[slot] == i
    ensures forall x :: 0 <= x < ALL_INPUT_LIMIT && x != slot ==> frame[x] == StackOf(sparse[x])
  {
    CanonicalGrid(sparse)[slot := i]
  }

  /**
   * The trial evaluation: without substitution a candidate of another type is
   * declined outright; otherwise the recipe must match the scratch grid and
   * craft an output that is the same item as the pattern's known output.
   */
  function TrialAccepts(
    recipe: Recipe, comparisons: ItemComparisons, canSubstitute: bool,
    sparse: seq<Option<Stack>>, correctOutput: Stack, slot: Slot, i: Stack): (r: bool)
    requires |sparse| == ALL_INPUT_LIMIT && sparse[slot].Some?
    ensures !canSubstitute && !comparisons.isSameType(sparse[slot].value, i) ==> !r
    ensures r <==>
      (canSubstitute || comparisons.isSameType(sparse[slot].value, i)) &&
      recipe.matches(TestFrame(sparse, slot, i)) &&
      comparisons.isSameItem(correctOutput, recipe.craft(TestFrame(sparse, slot, i)))
  {
    if !canSubstitute && !comparisons.isSameType(sparse[slot].value, i) then false
    else
      var frame := TestFrame(sparse, slot, i);
      recipe.matches(frame) && comparisons.isSameItem(correctOutput, recipe.craft(frame))
  }
}
