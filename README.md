# Depth ordering and settings integrity, in Dafny

This project models two parts of the vsdkx localisation add-on.

**The depth post-processing step.** `DepthEstimator.post_process` takes the detections of one frame: boxes, scores and classes, stored in `addon_object.inference`. It also takes the depth surface that a depth model estimated for the frame, and then:

- cuts a square window of half-size `grid_size` around each box centre;
- takes the truncated mean of each window as the object's distance;
- orders boxes, scores and classes by that distance, largest value first;
- labels each object with a distance stage. The range between the surface's minimum and maximum is divided into `stages` equal bins, and an object in bin `j` gets the id `stages - 1 - j`;
- writes the reordered detections and the ids (under `extra['distance_ids']`) back into the inference.

**The integrity check of the custom system settings.** `IntegrityChecker.run_integrity_check` walks the categories `debug`, `model_settings` and `event_detector_details`:

- a category that is absent is copied from the default settings;
- in a category that is present, every required key that is absent is filled in from the defaults;
- keys it does not recognise only produce warnings.

The model is in five files:

- `wrappers.dfy`: module `Wrappers`, an `Option` type.
- `py_slice.dfy`: module `PySlice`, Python/numpy slice semantics `s[start:stop]`. A negative bound counts from the end, and out-of-range bounds are clipped.
- `arg_sort.dfy`: module `ArgSort`, covering:
  - `np.argsort`, modelled as an insertion sort proved to give an ascending permutation that keeps equal values in index order;
  - the reversal `[::-1]`;
  - fancy indexing `np.array(xs)[p]`;
  - the permutation lemmas.
- `depth_processor.dfy`: module `DepthProcessor`, covering:
  - the casts, centres, windows and means;
  - the stage bins;
  - `Classify`, a function of the inputs describing everything the step leaves behind;
  - the classes `Inference` and `DepthEstimator`. `DepthEstimator.Reorder` computes the results as the source does, with the nested stage loop as a `while` loop. `DepthEstimator.PostProcess` writes the results into the `Inference` object's fields. The ensures of both methods tie them to `Classify`.
- `integrity_checker.dfy`: module `IntegrityChecker`, covering:
  - the fill loop as a function (`FillFrom`) and as a method with a loop (`CheckMissingKeys`);
  - one category's block (`CheckCategory`);
  - the whole check (`CheckAll`);
  - the class `IntegrityChecker`, whose methods update the `systemPreferences` field in place, each tied to those functions.

The error paths are modelled as outcomes, not as preconditions:

- **An empty window.** `int()` of the mean of an empty window raises `ValueError`. This is `Failed(EmptyWindow)`.
- **Too few scores or classes.** When there are fewer scores or classes than boxes, the numpy indexing raises `IndexError`. This is `Failed(IndexOutOfRange)`.
- **A default missing from the defaults.** A lookup of such a default raises `KeyError`. This is `KeyError(key)`. The insertions made before the failed lookup stay in the settings.

The model keeps the following behaviours of the code:

- The box centre is `int((y1 + y2) / 2)`, which truncates toward zero; it does not round.
- Equal distances: the argsort keeps equal values in index order, as numpy's scalar quicksort does on short arrays. After the reversal `[::-1]`, the later of two boxes with equal distances comes first.
- No error is raised for a distance outside every bin: the distance simply gets no id. `distance_ids` can then be shorter than the boxes.
- Only boxes, scores and classes are reordered. Other per-object data in `extra` is left as it was.
- `grid_size` and `stages` are not validated.
- **A window whose start is above or left of the surface edge is not cut short at the edge.** The negative start counts from the far end, so the window is usually empty and the step raises. `NearTopEdgeFails` shows this on a concrete input.

## Model

| member | source | states |
|---|---|---|
| DepthProcessor.Trunc | vsdkx/addon/depth/processor.py:81 | `int()` truncates toward zero: the result is within one of x, on the side of zero |
| DepthProcessor.HalfTowardZero | vsdkx/addon/depth/processor.py:129 | the integer computation of `int(n / 2)` equals the truncation of the real n/2 |
| DepthProcessor.TruncAll | vsdkx/addon/depth/processor.py:87 | `astype(np.int32)` truncates every score, keeping the length |
| DepthProcessor.CenterPoint | vsdkx/addon/depth/processor.py:129-130 | the centre is the truncated mid-point, row (y) first, column (x) second |
| DepthProcessor.CenterPoints | vsdkx/addon/depth/processor.py:129-131 | one centre per box, in box order |
| PySlice.Slice | vsdkx/addon/depth/processor.py:148-149 | the slice has the length and the elements given by the normalised, clipped bounds |
| PySlice.Bound | vsdkx/addon/depth/processor.py:148-149 | defines where a slice bound lands in a sequence of length n: a negative bound counts from the end, and the result is clipped into [0, n] |
| PySlice.SliceWithin | vsdkx/addon/depth/processor.py:148-149 | for bounds inside the sequence, a slice is the plain subsequence |
| PySlice.SliceNegativeStart | vsdkx/addon/depth/processor.py:148-149 | a negative start counts from the end: the slice is empty unless the wrapped start lies before the stop |
| PySlice.SliceClipsStop | vsdkx/addon/depth/processor.py:148-149 | a stop past the end is clipped: the slice runs from the start to the end of the sequence |
| PySlice.SliceEmpty | vsdkx/addon/depth/processor.py:148-149 | a slice is empty exactly when the normalised stop is not past the normalised start |
| DepthProcessor.CenterArea | vsdkx/addon/depth/processor.py:148-149 | the window's rows are the slices of the surface rows in the row range, each cut to the column range |
| DepthProcessor.CenterAreas | vsdkx/addon/depth/processor.py:148-151 | one window per centre, in order |
| DepthProcessor.CenterAreaInside | vsdkx/addon/depth/processor.py:148-149 | a window inside a rectangular surface is 2s x 2s samples, read off from row y-s and column x-s |
| DepthProcessor.CenterAreaSample | vsdkx/addon/depth/processor.py:148-149 | every sample of a window is the surface's sample at the shifted position |
| DepthProcessor.ExampleWindowIsSquare | vsdkx/addon/depth/processor.py:148-150 | on a 640 x 640 surface the window of half-size 10 at (110, 55) is 20 x 20 |
| DepthProcessor.CenterOfExampleBox | vsdkx/addon/depth/processor.py:129-131 | the box [10, 20, 100, 200] has centre (110, 55) |
| DepthProcessor.NearTopEdgeFails | vsdkx/addon/depth/processor.py:148-149 | a centre 3 rows below the top with half-size 5 gives an empty window, and the step fails with the empty-window error |
| DepthProcessor.Total | vsdkx/addon/depth/processor.py:81 | defines the sum of all samples of a window |
| DepthProcessor.Size | vsdkx/addon/depth/processor.py:81 | defines the number of samples of a window, numpy's `size` |
| DepthProcessor.Mean | vsdkx/addon/depth/processor.py:81 | defines `grid.mean()` of a non-empty window as the total over the size |
| DepthProcessor.MeanBounds | vsdkx/addon/depth/processor.py:81 | the mean of a non-empty window lies between any bounds of its samples |
| DepthProcessor.ObjectDistances | vsdkx/addon/depth/processor.py:81 | there is a result exactly when every window is non-empty, and then one truncated mean per window |
| DepthProcessor.BoxDistances | vsdkx/addon/depth/processor.py:75-81 | there are distances exactly when every box's window is non-empty, and then one per box, in box order: the truncated mean of its window |
| DepthProcessor.SurfaceMin | vsdkx/addon/depth/processor.py:98 | defines `depth_img.min()` of a non-empty surface |
| DepthProcessor.SurfaceMax | vsdkx/addon/depth/processor.py:98 | defines `depth_img.max()` of a non-empty surface |
| DepthProcessor.SurfaceBounds | vsdkx/addon/depth/processor.py:98 | `min()` and `max()` of a non-empty surface are samples of it, and every sample lies between them |
| DepthProcessor.CenterAreaWithinSurface | vsdkx/addon/depth/processor.py:98 | every sample of every window lies between the surface's minimum and maximum |
| ArgSort.ArgSort | vsdkx/addon/depth/processor.py:83 | `np.argsort` is a permutation of the indices that reads the values in ascending order |
| ArgSort.Reverse | vsdkx/addon/depth/processor.py:84 | `[::-1]` puts element k at position n-1-k |
| ArgSort.ReverseMultiset | vsdkx/addon/depth/processor.py:84 | reversal keeps the multiset of elements |
| ArgSort.DescendingOrder | vsdkx/addon/depth/processor.py:83-84 | the reversed argsort is a permutation that reads the values from the largest down |
| ArgSort.DescendingOrderSorts | vsdkx/addon/depth/processor.py:83-84 | the distances read along that order never increase |
| ArgSort.DescendingOrderTies | vsdkx/addon/depth/processor.py:83-84 | `np.argsort` lists equal distances in index order, so the reversed order lists them from the highest index down |
| ArgSort.Permute | vsdkx/addon/depth/processor.py:86-89 | fancy indexing: element k of the result is `xs[p[k]]` |
| ArgSort.PermuteSameEntries | vsdkx/addon/depth/processor.py:86-89 | index sequences with the same entries select the same multiset of elements |
| ArgSort.PermutePrefixMultiset | vsdkx/addon/depth/processor.py:87-89 | a permutation of the first n indices selects exactly the first n elements, reordered |
| DepthProcessor.RankPermutes | vsdkx/addon/depth/processor.py:83-89 | one permutation reorders boxes, scores and classes alike; nothing is lost or duplicated; scores are truncated; only the first n scores and classes are used |
| DepthProcessor.InBin | vsdkx/addon/depth/processor.py:104-106 | defines the closed test of bin j: step * j + min <= d <= step * (j + 1) + min |
| DepthProcessor.FirstBin | vsdkx/addon/depth/processor.py:103-108 | defines the bin the inner loop stops at: the first j in [0, stages) passing the test, or none |
| DepthProcessor.StepSize | vsdkx/addon/depth/processor.py:99 | defines `(max_dist - min_dist) / self.stages`; with no stages the value is never used |
| DepthProcessor.FirstBinFrom | vsdkx/addon/depth/processor.py:103-108 | the inner loop stops at the first bin from j that holds the distance, or at none when no bin holds it |
| DepthProcessor.StageIds | vsdkx/addon/depth/processor.py:100-108 | at most one id per distance, each in [0, stages-1] |
| DepthProcessor.BinCoversAt | vsdkx/addon/depth/processor.py:99-106 | with at least one stage, every value in [min, max] lies in one of the bins of width (max-min)/stages |
| DepthProcessor.FirstBinMonotone | vsdkx/addon/depth/processor.py:103-108 | a smaller distance never lands in a later bin than a larger one |
| DepthProcessor.StageIdsComplete | vsdkx/addon/depth/processor.py:100-108 | when every distance has a bin, there is exactly one id per distance, that of its first bin |
| DepthProcessor.StageIdsInRange | vsdkx/addon/depth/processor.py:98-108 | distances in [min, max] each get exactly one id, and non-increasing distances get non-decreasing ids |
| DepthProcessor.StageIdsConstant | vsdkx/addon/depth/processor.py:99-108 | with a step of zero, distances equal to min all get stages-1, and other distances get no id |
| DepthProcessor.DepthEstimator.StageDistanceIds | vsdkx/addon/depth/processor.py:100-108 | the nested loop appends exactly the ids `StageIds` describes |
| DepthProcessor.RankedIds | vsdkx/addon/depth/processor.py:97-108 | defines `stage_distance_ids`: the stage ids of the distances read from the largest down |
| DepthProcessor.Rank | vsdkx/addon/depth/processor.py:83-108 | defines the outcome once the distances are known: boxes, truncated scores and classes read along the descending order, with the ranked ids |
| DepthProcessor.Classify | vsdkx/addon/depth/processor.py:62-108 | defines what the step leaves behind: no objects, one of the two failures, or the reordered detections with their stage ids; the `Classify*` lemmas state its properties |
| DepthProcessor.ClassifyNoObjects | vsdkx/addon/depth/processor.py:62-65 | the step returns the input unchanged exactly when there are no boxes |
| DepthProcessor.ClassifyFailures | vsdkx/addon/depth/processor.py:81-89 | the step raises for an empty window exactly when some box has one, and raises an index error exactly when all windows are non-empty and there are fewer scores or classes than boxes |
| DepthProcessor.ClassifyRanks | vsdkx/addon/depth/processor.py:81-108 | a run that gets past both failures has all three inputs long enough and a non-empty surface, and ranks the distances |
| DepthProcessor.ClassifyReorders | vsdkx/addon/depth/processor.py:83-108 | the outputs are the inputs read along the descending order, with the ids of the distances read the same way |
| DepthProcessor.ClassifyPermutes | vsdkx/addon/depth/processor.py:83-94 | the written boxes, scores and classes are one common permutation of the input boxes and of the first n scores (truncated) and classes |
| DepthProcessor.ClassifyNearestFirst | vsdkx/addon/depth/processor.py:81-92 | along the written boxes the distances of their windows never increase |
| DepthProcessor.ClassifyStageRange | vsdkx/addon/depth/processor.py:100-108 | at most one id per object, each in [0, stages-1] |
| DepthProcessor.ClassifyAllBinned | vsdkx/addon/depth/processor.py:97-108 | with every distance in [min, max] and at least one stage, id k belongs to box k: it is stages-1 minus the first bin holding that box's distance |
| DepthProcessor.ClassifyIdsAscend | vsdkx/addon/depth/processor.py:97-108 | under the same conditions the ids never decrease along the written boxes |
| DepthProcessor.ClassifyFlatSurface | vsdkx/addon/depth/processor.py:98-108 | on a flat surface with a whole-number value, every object gets the nearest stage id, stages-1 |
| DepthProcessor.ClassifyFractionalFlatSurface | vsdkx/addon/depth/processor.py:81-108 | on a flat surface with a fractional value, the truncated distances miss the zero-width bins, so `distance_ids` is empty |
| DepthProcessor.DepthEstimator.Reorder | vsdkx/addon/depth/processor.py:62-108 | the computed reordering and ids are those `Classify` describes, including both failures |
| DepthProcessor.DepthEstimator.PostProcess | vsdkx/addon/depth/processor.py:62-116 | with no boxes, or on a failure, the inference is unchanged; otherwise the boxes, the int32 scores, the classes and `extra['distance_ids']` are those `Classify` describes, and the rest of `extra` is kept |
| IntegrityChecker.FillFrom | core/utils/IntegrityChecker.py:219-236 | without a failed lookup, the `missing_key` flag is set exactly when some listed key was absent |
| IntegrityChecker.FillMissing | core/utils/IntegrityChecker.py:201-236 | defines `__check_missing_keys` on one category: the fill from the first listed key, with the flag initially unset; `FillMissingSpec` states its properties |
| IntegrityChecker.FillMissingSpec | core/utils/IntegrityChecker.py:201-236 | present settings are kept; only listed keys are added, with their defaults; a lookup fails exactly when a listed key is in neither dictionary; otherwise all listed keys are present |
| IntegrityChecker.FillMissingIdempotent | core/utils/IntegrityChecker.py:201-236 | filling a filled category again finds nothing missing and changes nothing |
| IntegrityChecker.IntegrityChecker.CheckMissingKeys | core/utils/IntegrityChecker.py:201-236 | the loop computes the settings, the flag and the failed key that `FillMissing` describes |
| IntegrityChecker.IntegrityChecker.CheckDefaultKeys | core/utils/IntegrityChecker.py:188-199 | the keys warned about are exactly the unlisted keys of the dictionary |
| IntegrityChecker.IntegrityChecker.KeyExists | core/utils/IntegrityChecker.py:159-186 | the result says whether the category was present; an absent one is copied from the defaults, and a `KeyError` is raised when the defaults lack it |
| IntegrityChecker.CheckCategory | core/utils/IntegrityChecker.py:79-103 | defines one block of `__check_main_categories`: copy an absent category, or fill a present one, stopping at a failed lookup |
| IntegrityChecker.CheckCategoryStatus | core/utils/IntegrityChecker.py:79-103 | a block ends normally exactly when its category is checkable, and then the category is present, either as a copy of its defaults or with every listed key |
| IntegrityChecker.CheckCategoryPreserves | core/utils/IntegrityChecker.py:79-103 | a block keeps every setting that was present, and adds only listed defaults |
| IntegrityChecker.CheckCategoryFrame | core/utils/IntegrityChecker.py:79-103 | a block changes its own category and no other |
| IntegrityChecker.CheckCategoryStable | core/utils/IntegrityChecker.py:79-103 | a category complete in the settings and present in the defaults is left alone |
| IntegrityChecker.CheckAll | core/utils/IntegrityChecker.py:65-157 | defines the whole check: the three blocks in order, stopping at the first `KeyError`; the `CheckAll*` lemmas state its properties |
| IntegrityChecker.IntegrityChecker.CheckOneCategory | core/utils/IntegrityChecker.py:79-103 | one block of `__check_main_categories` updates the preferences exactly as `CheckCategory` describes |
| IntegrityChecker.CheckAllOk | core/utils/IntegrityChecker.py:65-157 | the check ends normally exactly when all three categories are checkable, and then all three are present and complete |
| IntegrityChecker.CheckAllPreserves | core/utils/IntegrityChecker.py:65-157 | whatever the outcome, no category is dropped and no present setting changes |
| IntegrityChecker.CheckAllFrame | core/utils/IntegrityChecker.py:65-157 | only the three main categories can be added or changed |
| IntegrityChecker.CheckAllFillsFromDefaults | core/utils/IntegrityChecker.py:65-157 | whatever the outcome, a key the check adds to one of the three categories that was present is a listed key holding its default value, and a category that was absent is a copy of its defaults |
| IntegrityChecker.CompleteDefaultsOk | core/utils/IntegrityChecker.py:65-157 | with complete defaults the check always ends normally |
| IntegrityChecker.CheckAllIdempotent | core/utils/IntegrityChecker.py:65-157 | with complete defaults, a second check of the output changes nothing |
| IntegrityChecker.SecondCheckCanFail | core/utils/IntegrityChecker.py:80-103 | with defaults that lack `debug_mode`, the first check succeeds by copying the category and the second raises `KeyError('debug_mode')` |
| IntegrityChecker.IntegrityChecker.CheckMainCategories | core/utils/IntegrityChecker.py:65-157 | the three blocks, in order, stopping at the first `KeyError`, update the preferences as `CheckAll` describes |
| IntegrityChecker.IntegrityChecker.RunIntegrityCheck | core/utils/IntegrityChecker.py:53-63 | returns the preferences `CheckAll` describes, or the `KeyError` it raised |

## Left out

- `_estimate_depth` and the MiDaS model are not modelled. The depth surface is an input of `PostProcess`, and loading the model in `__init__` is not part of this model.
- Depth values are exact reals. float32 rounding in the mean and in the bin edges is not modelled.
- ArgSort.ArgSort: equal distances are kept in index order. numpy's scalar quicksort does the same on arrays of up to 16 elements, where it is an insertion sort. On longer arrays, and with the vectorised sort some processors use, numpy may order ties differently. The ordering and permutation properties proved do not depend on the tie order.
- TruncAll: numpy's int32 conversion is modelled as truncation toward zero only. Values outside the int32 range (wrap-around) are not modelled.
- Box coordinates and classes are integers. Their `astype(np.int32)` conversion does not change them, and overflow is not modelled.
- DepthProcessor.DepthEstimator.PostProcess: the scores field stores the truncated scores as whole-number reals.
- DepthProcessor.DepthEstimator.PostProcess: the four write-backs happen after the stage ids are computed. In the source the ids are computed after the first three writes, but nothing between them can fail, so the end state is the same.
- The `except KeyError` branch of `post_process` is not modelled. Assigning a key of a dictionary cannot raise it. `extra` is modelled as a map from names to integer sequences.
- With `stages` at zero or below, no bin is consulted and no ids are produced. The division by zero in the step size is not modelled, because its value is never used.
- The printed warnings of the integrity checker are not modelled as output. `CheckDefaultKeys` returns the set of keys it warns about.
- The YAML loading of the default settings (`get_system_config`) is not modelled. The defaults are a constructor argument.
- Category values that are not dictionaries are not modelled. Every category is a map from names to values, and the values are never inspected.
- The aliasing between a category copied from the defaults and the defaults themselves is not modelled. Maps are values here, and nothing later mutates the copy through the defaults.
- IntegrityChecker.CheckAllIdempotent requires complete defaults. `SecondCheckCanFail` shows that without them a second check can raise.
- The other files of the repository (the add-on wiring, the YAML helpers, the model wrapper and the tests) are not part of this model.
