# Crafting pattern details, modelled in Dafny

This project models `CraftingPatternDetails`, the crafting-pattern matcher of
Applied Energistics 2, and proves properties of the model.

A pattern is decoded once from an encoded pattern item:

- nine sparse input slots;
- either a crafting recipe or up to three processing outputs;
- a substitution flag.

The constructor does three things:

- It fills the 3x3 canonical grid `crafting` and the scratch grid `testFrame`.
- It pre-seeds the pass cache with every untagged canonical stack.
- It condenses inputs and outputs into lists with one entry per item kind, largest first.

After construction the pattern answers these queries:

- **`isValidItemForSlot`**: whether a candidate item may stand in a slot. It first asks `getStatus`, which reads the two memo caches. On a cache miss it runs a trial: the recipe is evaluated on the scratch grid with only that slot replaced, and the outcome is recorded in a cache.
- **`getOutput`**: checks every slot of a grid in order. It stops with the empty stack at the first rejected slot and otherwise returns the known output.
- **`getSubstituteInputs`**: builds and memoizes the list of items that may stand in a slot. The user's own item comes first, followed by the matching stacks of the recipe ingredient that the slot aligns with.

Two alignment functions decide which recipe ingredient a slot aligns with:

- **shaped alignment**: offsets relative to the first non-null slot;
- **shapeless alignment**: the number of occupied slots before this one.

Patterns are also ordered by descending priority.

Layout:

| file | module | contents |
|---|---|---|
| `wrappers.dfy` | `Wrappers` | Option, Result, and the exceptions the source throws |
| `items.dfy` | `Items` | item stacks, ingredients, the recipe and the item comparisons as uninterpreted function values |
| `condensing.dfy` | `Condensing` | `condenseStacks` |
| `alignment.dfy` | `Alignment` | shaped and shapeless alignment, substitute lists, the corrected shaped alignment |
| `matching.dfy` | `Matching` | the cache key, `getStatus` and the trial evaluation as functions of the state |
| `pattern.dfy` | `Patterns` | decoding, and the class `CraftingPatternDetails` with its grids, caches, substitute map and priority |

How the model represents the source:

- **Collaborators.** The recipe (`matches`, `craft`, shape, preview ingredients) and the item comparisons (`isSameType`, `isSameItem`) are function-valued fields. So every property holds for every recipe.
- **Items.** An item stack is its kind (item id, damage, optional tag) and a count. It is empty when its item is air or its count is not positive.
- **Stack conversion.** Converting a game stack to a storage stack gives null for an empty stack (`AsAEStack`).
- **Ghost counter.** `recipeEvaluations` counts how often a trial consults the recipe. This lets the model state that a cache hit evaluates nothing.
- **Exceptions.** The exceptions the source throws are `Err` values of `Result`.

## Model

| member | source | states |
|---|---|---|
| Items.AsAEStack | src/main/java/appeng/helpers/CraftingPatternDetails.java:246-249 | converting a game stack gives null exactly for an empty stack, and the stack itself otherwise |
| Items.CanonicalGrid | src/main/java/appeng/helpers/CraftingPatternDetails.java:103-107 | the canonical grid has one stack per sparse slot. A non-null sparse entry appears as itself in its slot, and a null entry as the empty stack. So every non-empty grid stack is the non-null sparse entry of its slot |
| Condensing.Condense | src/main/java/appeng/helpers/CraftingPatternDetails.java:410-421 | fails with IllegalState "No pattern here!" exactly when every entry is null, and succeeds exactly when some entry is non-null. Otherwise the result has pairwise distinct kinds and is sorted by non-increasing size. Its kinds are exactly those of the non-null entries, and each stack's size is the total size of its kind in the input |
| Condensing.Collect | src/main/java/appeng/helpers/CraftingPatternDetails.java:411-413 | merging by kind gives distinct kinds, exactly the kinds of the non-null entries, each with the total size of that kind |
| Condensing.Absorb | src/main/java/appeng/helpers/CraftingPatternDetails.java:412-413 | adding one stack to the merged map keeps the kinds distinct, adds its kind, and raises the total of its kind by its size and no other total |
| Condensing.InsertBySize | src/main/java/appeng/helpers/CraftingPatternDetails.java:66-67 | inserting into a list sorted by decreasing size keeps it sorted and adds exactly that stack to its multiset |
| Condensing.SortBySize | src/main/java/appeng/helpers/CraftingPatternDetails.java:414 | sorting by COMPARE_BY_STACKSIZE gives a permutation of the input sorted by non-increasing size |
| Condensing.PermutationKeepsKinds | src/main/java/appeng/helpers/CraftingPatternDetails.java:414 | sorting after merging keeps the set of kinds and keeps them pairwise distinct |
| Condensing.CondenseExample | src/main/java/appeng/helpers/CraftingPatternDetails.java:410-421 | [A x2, A x3, B x1] condenses to [A x5, B x1] |
| Alignment.Get | src/main/java/appeng/helpers/CraftingPatternDetails.java:301 | List.get succeeds exactly for an index within the list, and otherwise throws IndexOutOfBounds with that index and size |
| Alignment.FirstOccupied | src/main/java/appeng/helpers/CraftingPatternDetails.java:279-286 | the scan stops at the first non-null slot, or at the end when there is none |
| Alignment.ShapedOffset | src/main/java/appeng/helpers/CraftingPatternDetails.java:278-286 | the offset is the column and row of the lowest-numbered non-null slot, and (0, 0) for an empty grid |
| Alignment.ShapedIngredient | src/main/java/appeng/helpers/CraftingPatternDetails.java:275-302 | a negative index gives EMPTY. An index within the list gives the ingredient at that index. An index past the size gives EMPTY. An index equal to the size throws IndexOutOfBounds(size, size), and only that index throws |
| Alignment.OccupiedBefore | src/main/java/appeng/helpers/CraftingPatternDetails.java:308-313 | the result is exactly the number of non-null sparse slots with an index below `slot`, and so at most `slot` |
| Alignment.ShapelessIngredient | src/main/java/appeng/helpers/CraftingPatternDetails.java:304-321 | the slot gets the ingredient at the count of occupied slots before it, or EMPTY when that count reaches the list size |
| Alignment.RecipeIngredient | src/main/java/appeng/helpers/CraftingPatternDetails.java:264-273 | without a recipe (a processing pattern) the lookup throws NullPointer. A shaped recipe answers the shaped lookup for its width. A shapeless recipe answers the shapeless lookup and never throws |
| Alignment.SubstituteList | src/main/java/appeng/helpers/CraftingPatternDetails.java:245-252 | the list has one more entry than the matching stacks. The user's item is first, then each matching stack converted, in order |
| Alignment.BuildSubstituteList | src/main/java/appeng/helpers/CraftingPatternDetails.java:245-252 | the loop that appends the matching stacks and then puts the user's item at index 0 builds exactly SubstituteList |
| Alignment.Substitutes | src/main/java/appeng/helpers/CraftingPatternDetails.java:238-255 | a null slot gives the empty list. Otherwise the call fails exactly when the ingredient lookup fails. On success the list has one more entry than the aligned ingredient's matching stacks: first the slot's own item, then each matching stack converted, in order |
| Alignment.SubstitutesKeepDuplicates | src/main/java/appeng/helpers/CraftingPatternDetails.java:250-252 | the list is not de-duplicated: a user item that is also a matching stack appears twice |
| Alignment.OccupiedBeforeGrows | src/main/java/appeng/helpers/CraftingPatternDetails.java:308-313 | past an occupied slot the occupied count strictly grows |
| Alignment.ShapelessAlignmentIsInjective | src/main/java/appeng/helpers/CraftingPatternDetails.java:304-320 | when the recipe has one ingredient per occupied slot, every occupied slot gets a real ingredient, and different occupied slots get different indices |
| Alignment.IntendedIndexInRange | src/main/java/appeng/helpers/CraftingPatternDetails.java:288-293 | for a slot inside a width x height recipe placed at (dx, dy), the row-major index is within the recipe's cells |
| Alignment.MinColumn | src/main/java/appeng/helpers/CraftingPatternDetails.java:278-286 | the leftmost column holding a non-null slot (the corrected left offset) |
| Alignment.CorrectedShapedIngredient | src/main/java/appeng/helpers/CraftingPatternDetails.java:275-302 | the corrected shaped lookup never throws: it gives EMPTY or an ingredient of the recipe |
| Alignment.FirstOccupiedRow | src/main/java/appeng/helpers/CraftingPatternDetails.java:279-286 | for a recipe placed at (dx, dy), the first non-null slot lies in row dy |
| Alignment.MinColumnIsLeft | src/main/java/appeng/helpers/CraftingPatternDetails.java:278-286 | for a recipe placed at (dx, dy), the leftmost occupied column is dx |
| Alignment.CorrectedShapedIngredientAligns | src/main/java/appeng/helpers/CraftingPatternDetails.java:275-302 | for any recipe placed anywhere in the grid, each occupied slot gets exactly the recipe cell it covers |
| Alignment.ShapedIngredientAlignsWhenOriginFilled | src/main/java/appeng/helpers/CraftingPatternDetails.java:275-302 | the code as written aligns every occupied slot correctly whenever the recipe's top-left cell is non-empty |
| Alignment.ShiftedTwoWideRecipe | src/main/java/appeng/helpers/CraftingPatternDetails.java:278-293 | a 2-wide recipe placed at slots {4, 5} maps them to ingredients 0 and 1 |
| Alignment.ShapedIngredientMisalignsEmptyOrigin | src/main/java/appeng/helpers/CraftingPatternDetails.java:279-286 | counterexample: a 2x2 recipe with an empty top-left cell gets slot 3 mapped to cell 1 instead of cell 2 |
| Alignment.ShapedGuardAdmitsListSize | src/main/java/appeng/helpers/CraftingPatternDetails.java:297-301 | counterexample: a one-cell recipe with slots 0 and 3 filled throws IndexOutOfBounds(1, 1) for slot 3, where the corrected lookup gives EMPTY |
| Matching.Lookup | src/main/java/appeng/helpers/CraftingPatternDetails.java:431-435 | the cache key belongs to the slot it was made for |
| Matching.LookupIdentifies | src/main/java/appeng/helpers/CraftingPatternDetails.java:437-460 | two cache keys are equal exactly when their slots, item ids and damages agree; the tag and the stack size never matter |
| Matching.StatusOf | src/main/java/appeng/helpers/CraftingPatternDetails.java:342-364 | an empty canonical slot accepts exactly the empty candidate and never tests. A filled slot declines the empty candidate. TEST is returned exactly for a non-empty candidate in a filled slot that is tagged or in neither cache. An untagged candidate is accepted exactly when its key is in the pass cache, and declined exactly when it is only in the fail cache |
| Matching.StatusIgnoresOtherSlots | src/main/java/appeng/helpers/CraftingPatternDetails.java:351-363 | cache entries for other slots do not change a slot's status |
| Matching.TestFrame | src/main/java/appeng/helpers/CraftingPatternDetails.java:180-185 | the scratch grid holds the candidate at `slot` and the canonical stack everywhere else |
| Matching.TrialAccepts | src/main/java/appeng/helpers/CraftingPatternDetails.java:187-205 | without substitution a candidate of another type is declined. Otherwise a trial accepts exactly when the recipe matches the scratch grid and crafts the same item as the known output |
| Patterns.Assemble | src/main/java/appeng/helpers/CraftingPatternDetails.java:117-146 | the build succeeds exactly when some of the first nine ingredients is non-null and some declared output is non-null. Otherwise it fails with "No pattern here!". A successful build is well formed, condenses its own sparse lists, and carries the item's recipe, substitution flag and first nine ingredients |
| Patterns.Decode | src/main/java/appeng/helpers/CraftingPatternDetails.java:85-147 | a non-pattern item throws IllegalArgument. Fewer than nine ingredients throw IndexOutOfBounds. An unknown recipe id throws IllegalState. A processing pattern with fewer than three products throws IndexOutOfBounds. These checks run in the source's order; when all pass, the result is Assemble's |
| Patterns.ComparePriorities | src/main/java/appeng/helpers/CraftingPatternDetails.java:376-379 | Integer.compare(other, this): negative exactly when this priority is higher, zero exactly when the two are equal |
| Patterns.ComparePrioritiesIsAnOrder | src/main/java/appeng/helpers/CraftingPatternDetails.java:376-379 | the comparison is antisymmetric and transitive |
| Patterns.CraftingPatternDetails.constructor | src/main/java/appeng/helpers/CraftingPatternDetails.java:100-115 | the grids hold the canonical stacks. The pass cache holds exactly the keys of the untagged canonical stacks, empty ones included, and the fail cache is empty. The invariant Valid holds |
| Patterns.CraftingPatternDetails.MarkItemAs | src/main/java/appeng/helpers/CraftingPatternDetails.java:149-155 | ACCEPT adds the key to the pass cache and DECLINE to the fail cache. TEST and tagged stacks change nothing |
| Patterns.CraftingPatternDetails.IsValidItemForSlot | src/main/java/appeng/helpers/CraftingPatternDetails.java:163-206 | a processing pattern throws and nothing changes. Otherwise the answer is the cached status or the trial's outcome. Only a trial changes the caches: it records an untagged candidate in the cache matching the answer. A trial counts one recipe evaluation exactly when it passes the same-type check. The scratch grid ends as the canonical grid after an acceptance, and with the candidate in `slot` after a decline. Afterwards an untagged candidate's status is its answer. Valid, including disjoint caches, is kept |
| Patterns.CraftingPatternDetails.ResetTestFrame | src/main/java/appeng/helpers/CraftingPatternDetails.java:180-182 | the copy loop leaves the scratch grid equal to the canonical grid |
| Patterns.CraftingPatternDetails.FirstRejected | src/main/java/appeng/helpers/CraftingPatternDetails.java:329-333 | the first slot of the grid whose candidate is not valid, or the grid size when every slot passes |
| Patterns.CraftingPatternDetails.GetOutput | src/main/java/appeng/helpers/CraftingPatternDetails.java:324-340 | a processing pattern throws. Otherwise the result is the known output when every slot passes and EMPTY otherwise. Caches only grow, and only for slots up to the first rejected one. Exactly the recipe evaluations of the slots up to and including the first rejected one are spent |
| Patterns.CraftingPatternDetails.GetSubstituteInputs | src/main/java/appeng/helpers/CraftingPatternDetails.java:238-255 | the answer, cached or fresh, is Substitutes for the slot. The map gains the slot exactly when it is occupied and the computation succeeds |
| Patterns.CraftingPatternDetails.SetPriority | src/main/java/appeng/helpers/CraftingPatternDetails.java:371-374 | the priority becomes the argument |
| Patterns.CraftingPatternDetails.CompareTo | src/main/java/appeng/helpers/CraftingPatternDetails.java:376-379 | negative, zero or positive exactly as this pattern's priority is higher than, equal to or lower than the other's |
| Patterns.CraftingPatternDetails.Create | src/main/java/appeng/helpers/CraftingPatternDetails.java:85-147 | the constructor throws exactly what Decode throws. Otherwise it yields a fresh pattern that satisfies Valid, holds the decoded definition and starts with the pre-seeded pass cache, an empty fail cache, no substitutes and priority 0 |
| Patterns.RepeatedQueryHitsCache | src/main/java/appeng/helpers/CraftingPatternDetails.java:351-363 | two queries with the same untagged candidate give the same answer, and the second consults the recipe zero times |

## Left out

- The `World` argument of `isValidItemForSlot`, `getOutput` and the recipe's `matches`: recipes are taken to be world-independent functions.
- The recipe-manager lookup: the crafting recipes are a map from recipe id to recipe, so an unknown id or a non-crafting recipe is a missing key.
- `synchronized` on `isValidItemForSlot`: the model is sequential.
- `getPattern`, `equals` and `hashCode`: these delegate to the opaque pattern stack.
- The plain getters (`getPriority`, `isCraftable`, `getInputs`, `getSparseInputs` and the others): they are the fields of the class.
- Matching.Lookup: the key compares slot, item id and damage exactly. The source packs damage and the low 16 bits of the raw item id into one 32-bit `ref`, and uses a rotated hash. So items whose raw ids agree in the low 16 bits, or whose damage is shifted out of 32 bits, collide in the source but not in the model.
- Condensing.Condense: stack sizes are unbounded integers. The source sums `long` sizes, which could wrap past 2^63.
- Condensing.SortBySize: among stacks of equal size, the order is left unspecified, as in the source, where it follows the hash map's iteration order.
- Patterns.CraftingPatternDetails.GetOutput: requires a grid of at most nine slots. A larger crafting inventory would query slots past the canonical grid, and those slots are not modelled.
- Patterns.CraftingPatternDetails.IsValidItemForSlot: takes a `Slot` (0 to 8), so the guard `slotIndex < sparseInputs.length` at CraftingPatternDetails.java:187 always holds in the model. A slot index of 9 or more, which the source would reach past the arrays with, is not modelled.
- Patterns.CraftingPatternDetails.GetSubstituteInputs: takes a `Slot` (0 to 8). A slot index of 9 or more, for which the source would index past `sparseInputs`, is not modelled.
- Matching.LookupIdentifies: states exact equality on slot, item id and damage. The source compares the packed `ref`, so the collisions listed under Matching.Lookup are not captured.
- Item-stack factories and storage-channel conversions are modelled as identity on the stack, except that converting an empty stack gives null.
- Recipe internals (`matches`, `craft`, `getPreviewInputs`, the ingredients' matching stacks, `isSameType`, `isSameItem`): these are uninterpreted function values.
- `GuidebookLevel`: rendering support with no pattern logic.

## Findings

The class keeps the alignment as written (`Alignment.ShapedIngredient`). The corrected alignment is modelled and proved beside it.

| source | as written | input that shows it | evidently intended | confidence | as-written member | corrected member |
|---|---|---|---|---|---|---|
| src/main/java/appeng/helpers/CraftingPatternDetails.java:297 | `ingredientIndex > ingredients.size()` lets an index equal to the list size through to `get`, which throws | a 1x1 recipe with sparse slots 0 and 3 filled; slot 3 computes index 1 on a one-element list | `>=`, so that the lookup gives EMPTY | not executed | Alignment.ShapedGuardAdmitsListSize | Alignment.CorrectedShapedIngredient |
| src/main/java/appeng/helpers/CraftingPatternDetails.java:279-286 | the left offset is the column of the first non-null slot in row-major order, not the leftmost occupied column | a 2x2 recipe whose top-left cell is empty, placed at the origin with slots 1, 3 and 4 filled; the offset becomes (1, 0) and slot 3 maps to cell 1 instead of cell 2 | left offset = leftmost occupied column, top offset = row of the first occupied slot | not executed | Alignment.ShapedIngredientMisalignsEmptyOrigin | Alignment.CorrectedShapedIngredientAligns |
