# Accuracy evaluation of the MobileNet image classifier

This project models the accuracy-evaluation loop of the image-classifier web
application (`AccuracyCalculator.loadModelAndWords` in
`src/components/accuracy.js`). The loop walks the label manifest (category
folder → image file names) in entry order. For each image it asks the
pre-trained network for predictions. It counts the image as correct when some
prediction's lower-cased `className` contains the folder name. It emits a
progress message `Progress: total / grandTotal` whenever the running total is a
multiple of ten. At the end it shows `correct / total * 100`. A classify call
that throws ends the run in the `catch` block with no accuracy.

Files and modules:

- `text.dfy`, module `Text`: ASCII lower-casing (`toLowerCase`) and substring
  search (`includes`), with a reference definition of substring containment.
- `manifest.dfy`, module `LabelManifest`: the manifest as a sequence of
  `Entry(folder, images)` in `Object.entries` order. It also defines the items
  in the order the nested loops visit them, and the progress denominator
  `Object.values(animalData).flat().length`.
- `evaluator.dfy`, module `Evaluator`: the matching rule, the per-image step,
  the loop as a pure fold (`Loop`), the accuracy report, and the two nested
  loops as methods (`EvaluateFolder`, `Evaluate`) proved equal to the fold.
- `scenarios.dfy`, module `Scenarios`: concrete matching examples, a
  three-image run, and two images that share an element id.

How the model stands in for what it cannot see:

- The pre-trained network (`mobilenet.load`, `model.classify`) is a
  `Classifier`. This is a function from the id of the `<img>` element handed
  to `classify` to a `Reply`: either `Classified(predictions)` or `Threw`. The image is looked up
  by the id `folder + image` (line 33). So two images whose concatenations
  coincide get the same element and the same reply (`Scenarios.SharedElementId`).
- Only `className` of a prediction is kept; the probabilities play no part in
  the loop.
- The result is a `Run`: `Completed(tally)` or `Aborted(tally)`. The tally holds
  `correct`, `total` and the progress messages emitted so far. In an aborted run
  the image whose call threw is the one at position `tally.total`.
- The accuracy is a `Report`. It is `NotProduced` after an abort and `NoData`
  when the total is 0; in the source that case is `0 / 0 = NaN`. Otherwise it is
  `Percent(100 * correct, total)`, an exact fraction in place of the float.

Four behaviours of the code that the model keeps as they are:

- Only the label is lower-cased (line 38); the folder name is used as it is.
  So a folder name containing an ASCII capital letter never matches
  (`Evaluator.CapitalFolderNeverMatches`).
- An empty manifest is not rejected. The loop does nothing and line 57
  computes 0 / 0 = NaN; the model reports this as `NoData`.
- A throwing classify call is only logged, and the progress text is replaced
  by an error message (lines 60-63). The model reports this as `Aborted`,
  with the counts reached so far and no accuracy.
- Clicking Evaluate while `animalData` is still `null` (lines 16, 73-75) makes
  `Object.entries(null)` throw at line 31, before any classify call. The model
  takes the manifest state as `Missing` or `Loaded(manifest)`, and a click on
  `Missing` aborts with nothing counted, whatever the network would reply
  (`Evaluator.MissingManifestReportsNothing`).

## Model

| member | source | states |
|---|---|---|
| Text.ToLower | src/components/accuracy.js:38 | lower-casing keeps the length, leaves no ASCII capital, changes nothing else, and maps each capital to its small letter |
| Text.IncludesIsSubstring | src/components/accuracy.js:38 | `includes` returns true exactly when the needle occurs at some position of the label, the empty needle included |
| Text.UpperNeverInLowered | src/components/accuracy.js:38 | a folder name with an ASCII capital letter never occurs in a lower-cased label |
| LabelManifest.ItemsInOrder | src/components/accuracy.js:31-32 | image j of entry i is visited at position (images of entries before i) + j: folder by folder in entry order, within a folder in list order |
| LabelManifest.ItemsMatchAllImages | src/components/accuracy.js:31-50 | the loop visits as many images as `Object.values(animalData).flat()` holds, the same image names in the same order |
| Evaluator.MatchRule | src/components/accuracy.js:37-39 | an image counts as correct iff some prediction's lower-cased label contains the folder name; an empty prediction list never matches |
| Evaluator.EmptyFolderMatchesAny | src/components/accuracy.js:37-39 | the empty folder name matches iff there is at least one prediction |
| Evaluator.CapitalFolderNeverMatches | src/components/accuracy.js:37-39 | the folder name is not lower-cased, so one containing an ASCII capital letter matches no prediction list |
| Evaluator.StepCounts | src/components/accuracy.js:41-53 | one image adds exactly 1 to the total and 1 or 0 to the correct count, 1 iff it is a hit; it keeps correct <= total, keeps earlier progress messages, and adds one reporting the new total iff that total is a multiple of 10 |
| Evaluator.Loop | src/components/accuracy.js:31-55 | correct <= total is kept after every image; the total grows by at most the number of images left |
| Evaluator.LoopAppend | src/components/accuracy.js:31-63 | running over a + b is running over a, then over b from where a stopped; an aborted run never looks at later images |
| Evaluator.LoopStops | src/components/accuracy.js:35-63 | the run completes iff no classify call throws; otherwise it stops at the first throwing call, having counted exactly the images before it |
| Evaluator.LoopCounts | src/components/accuracy.js:41-53 | the correct count is the number of hits among the processed images, and the progress messages are exactly one per positive multiple of 10 up to the total |
| Evaluator.PerImage | src/components/accuracy.js:41-53 | for each further image, total rises by exactly 1 and correct by at most 1 (by 1 iff hit); at most one progress message is added, and one is added exactly when the new total is a multiple of 10 |
| Evaluator.CompletedRunCoversManifest | src/components/accuracy.js:45-53 | a completed run has total = sum of the image-list lengths, correct = hits over all images, floor(total/10) progress messages, the k-th reporting 10k of the grand total |
| Evaluator.AbortedRunStopsAtFailure | src/components/accuracy.js:35-63 | if the n-th classify call (0-based) is the first to throw, the run aborts with the counts and progress of exactly the first n images and produces no accuracy |
| Evaluator.AccuracyOf | src/components/accuracy.js:57-59 | no accuracy after an abort, "no data" for a total of 0, otherwise 100 * correct / total |
| Evaluator.AccuracyInRange | src/components/accuracy.js:57 | the reported percentage of a finished evaluation lies in [0, 100]; "no data" occurs exactly for a completed run over a manifest with no images |
| Evaluator.MissingManifestReportsNothing | src/components/accuracy.js:31-63 | a click with no manifest loaded (`animalData` still null) aborts with nothing counted, no progress message and no accuracy, and its outcome is the same whatever the network would reply, since no classify call is made |
| Evaluator.EvaluateFolder | src/components/accuracy.js:32-54 | the inner loop over one folder's images computes the fold over that folder's items, aborting at the first throwing classify call |
| Evaluator.Evaluate | src/components/accuracy.js:28-57 | the nested loops compute the evaluation of the manifest; correct <= total, and total = grand total on completion |
| Scenarios.MatchExamples | src/components/accuracy.js:37-39 | "Arctic Fox" and "foxhound" match folder "fox", "wolf" does not, and folder "Fox" matches no prediction list at all |
| Scenarios.CatDogScenario | src/components/accuracy.js:28-57 | cat: [a, b], dog: [c] with two cats recognised and the dog missed gives 2 of 3, no progress message, accuracy 200/3 % |
| Scenarios.SharedElementId | src/components/accuracy.js:33 | images "cat"/"s1.jpg" and "cats"/"1.jpg" are distinct but share the element id "cats1.jpg", so they always get the same reply |

## Left out

- `mobilenet.load()` and `model.classify()` (lines 24, 35): a foreign pre-trained network. It is a `Classifier` parameter, assumed to give the same reply for the same element. A failure to load the network aborts before any image and is not modelled separately.
- The DOM lookup by id and the hidden `<img>` elements (lines 33, 114-128): browser plumbing. Only the id the lookup uses is kept.
- Fetching and parsing `/animals/output.json` (lines 66-79): network I/O. The manifest is an input sequence of entries that is assumed well-shaped (string keys, arrays of strings).
- JavaScript's ordering of integer-like object keys ahead of other keys in `Object.entries`: the model takes the entries in the given order.
- React state setters, `console.log` and the messages "Loading model...", "Model loaded." and the error text (lines 14-26, 58-62): presentation. Progress is the list of `Progress(processed, outOf)` values; an error is the `Aborted` outcome.
- `accuracy.toFixed(2)` and the floating-point division (lines 57-59): the accuracy is kept as the exact fraction 100 * correct / total.
- Text.ToLower: only ASCII capitals are lower-cased; full Unicode `toLowerCase` (other scripts, multi-character mappings) is not modelled.
- Overlapping and repeated runs (lines 48, 59, 62, 106): the Evaluate button is never disabled, so a second click starts a concurrent run writing the same `progress` and `accuracyText` state, and `accuracyText` is never cleared, so an aborted run leaves the previous run's accuracy on screen. The model covers one isolated run; the shared screen state across runs is not modelled.
- `src/App.js` and `src/components/header.js`: routing, theme and app bar, with no logic.
