/**
  The accuracy-evaluation loop of `AccuracyCalculator.loadModelAndWords`: walk
  the manifest, classify each image, count the images for which some predicted
  label contains the folder name, report progress every ten images, and finally
  compute `correct / total * 100`. A classify call that throws ends the run with
  no accuracy.

  The pre-trained network is abstracted as a `Classifier`: a function from the id
  of the image element handed to `model.classify` to what the call does.
 */
module Evaluator {
  import opened Text
  import opened LabelManifest

  /** One prediction of `model.classify`; only its label takes part in the evaluation. */
  datatype Prediction = Prediction(className: string)

  /** What `await model.classify(img)` does: resolve to a list of predictions, or throw. */
  datatype Reply = Classified(predictions: seq<Prediction>) | Threw

  /** The pre-trained network, as seen by the loop: the element it is given, identified by its id, decides the reply. */
  type Classifier = string -> Reply

  /** A progress message `Progress: processed / outOf`. */
  datatype Progress = Progress(processed: nat, outOf: nat)

  /** The loop's running state: `correctPredictions`, `totalPredictions` and the progress messages so far. */
  datatype Tally = Tally(correct: nat, total: nat, progress: seq<Progress>)

  /**
    How a run ends: the loop finished, or a classify call threw. An aborted run
    keeps the tally of the images before the one whose call threw.
   */
  datatype Run = Completed(tally: Tally) | Aborted(tally: Tally)

  /**
    The accuracy shown at the end: none when the run was aborted, "no data" for
    the 0 / 0 of an empty manifest, otherwise the percentage
    `numerator / denominator`, kept as an exact fraction.
   */
  datatype Report = NotProduced | NoData | Percent(numerator: nat, denominator: nat)

  /** A progress message is emitted whenever the running total is a multiple of this. */
  const ProgressEvery: nat := 10

  /** The tally before the first image. */
  const Start := Tally(0, 0, [])

  /** The id `${folder}${image}` under which the image element is looked up. */
  function ElementId(it: Item): string {
    it.folder + it.image
  }

  /** The reply of the classifier for one item. */
  function Verdict(it: Item, classify: Classifier): Reply {
    classify(ElementId(it))
  }

  /**
    `predictions.some(p => p.className.toLowerCase().includes(folder))`. Only
    the label is lower-cased; the folder name is used as it is.
   */
  function HasFolderPrediction(predictions: seq<Prediction>, folder: string): bool
    decreases |predictions|
  {
    |predictions| > 0
    && (Includes(ToLower(predictions[0].className), folder)
        || HasFolderPrediction(predictions[1..], folder))
  }

  /**
    The matching rule: an image counts as correct iff some lower-cased label
    contains the folder name; in particular an empty prediction list never matches.
   */
  lemma {:induction false} MatchRule(predictions: seq<Prediction>, folder: string)
    ensures HasFolderPrediction(predictions, folder)
        <==> exists k :: 0 <= k < |predictions| && IsSubstring(folder, ToLower(predictions[k].className))
    ensures |predictions| == 0 ==> !HasFolderPrediction(predictions, folder)
    decreases |predictions|
  {
    if |predictions| > 0 {
      IncludesIsSubstring(ToLower(predictions[0].className), folder);
      MatchRule(predictions[1..], folder);
      if exists k :: 0 <= k < |predictions| && IsSubstring(folder, ToLower(predictions[k].className)) {
        var k :| 0 <= k < |predictions| && IsSubstring(folder, ToLower(predictions[k].className));
        if k > 0 {
          assert predictions[1..][k - 1] == predictions[k];
        }
      }
    }
  }

  /** The empty folder name occurs in every label, so it matches iff there is at least one prediction. */
  lemma EmptyFolderMatchesAny(predictions: seq<Prediction>)
    ensures HasFolderPrediction(predictions, "") <==> |predictions| > 0
  {
    if |predictions| > 0 {
      EmptyIsSubstring(ToLower(predictions[0].className));
      IncludesIsSubstring(ToLower(predictions[0].className), "");
    }
  }

  /**
    The folder name is not lower-cased: one with an ASCII capital letter in it
    matches no prediction, whatever the labels.
   */
  lemma CapitalFolderNeverMatches(predictions: seq<Prediction>, folder: string, j: int)
    requires 0 <= j < |folder| && IsUpperAscii(folder[j])
    ensures !HasFolderPrediction(predictions, folder)
  {
    MatchRule(predictions, folder);
    forall k | 0 <= k < |predictions|
      ensures !IsSubstring(folder, ToLower(predictions[k].className))
    {
      UpperNeverInLowered(folder, predictions[k].className, j);
    }
  }

  /** The item is classified and some prediction matches its folder. */
  predicate Hit(it: Item, classify: Classifier) {
    Verdict(it, classify).Classified?
    && HasFolderPrediction(Verdict(it, classify).predictions, it.folder)
  }

  /** Reference count of the items that are hits. */
  function Hits(items: seq<Item>, classify: Classifier): (r: nat)
    ensures r <= |items|
    decreases |items|
  {
    if |items| == 0 then 0
    else (if Hit(items[0], classify) then 1 else 0) + Hits(items[1..], classify)
  }

  /** Reference schedule of progress messages after `n` images: one per positive multiple of ten. */
  function Schedule(n: nat, grandTotal: nat): seq<Progress> {
    seq(n / ProgressEvery, k requires 0 <= k < n / ProgressEvery => Progress(ProgressEvery * (k + 1), grandTotal))
  }

  /**
    The body of the inner loop for one successfully classified image: count it,
    count it as correct on a hit, and emit a progress message when the new total
    is a multiple of ten.
   */
  function Step(t: Tally, hit: bool, grandTotal: nat): Tally {
    var correct := if hit then t.correct + 1 else t.correct;
    var total := t.total + 1;
    var progress := if total % ProgressEvery == 0 then t.progress + [Progress(total, grandTotal)] else t.progress;
    Tally(correct, total, progress)
  }

  /**
    One step counts exactly one more image, counts it as correct iff it is a
    hit, keeps `correct <= total`, never retracts a progress message, and adds
    one, reporting the new total, exactly when the new total is a multiple of ten.
   */
  lemma StepCounts(t: Tally, hit: bool, grandTotal: nat)
    ensures var r := Step(t, hit, grandTotal);
      && r.total == t.total + 1
      && t.correct <= r.correct <= t.correct + 1
      && (r.correct == t.correct + 1 <==> hit)
      && (t.correct <= t.total ==> r.correct <= r.total)
      && |t.progress| <= |r.progress| <= |t.progress| + 1
      && r.progress[..|t.progress|] == t.progress
      && (|r.progress| == |t.progress| + 1 <==> r.total % ProgressEvery == 0)
      && (|r.progress| == |t.progress| + 1 ==> r.progress[|t.progress|] == Progress(r.total, grandTotal))
  {
  }

  /**
    The loop from tally `t` over the items still to visit, in order: a
    throwing classify call aborts with the tally reached so far, a classified
    image takes one `Step`.
   */
  function Loop(items: seq<Item>, classify: Classifier, grandTotal: nat, t: Tally): (r: Run)
    ensures t.correct <= t.total ==> r.tally.correct <= r.tally.total
    ensures t.total <= r.tally.total <= t.total + |items|
    decreases |items|
  {
    if |items| == 0 then Completed(t)
    else
      match Verdict(items[0], classify)
      case Threw => Aborted(t)
      case Classified(predictions) =>
        var hit := HasFolderPrediction(predictions, items[0].folder);
        StepCounts(t, hit, grandTotal);
        Loop(items[1..], classify, grandTotal, Step(t, hit, grandTotal))
  }

  /** The evaluation of a whole manifest, from zero counts. */
  function Evaluation(m: Manifest, classify: Classifier): Run {
    Loop(Items(m), classify, GrandTotal(m), Start)
  }

  /**
    `animalData` as the Evaluate click finds it: still `null` (the fetch has
    not resolved, or it failed), or the parsed manifest.
   */
  datatype ManifestState = Missing | Loaded(manifest: Manifest)

  /**
    One click on Evaluate. With no manifest, `Object.entries(null)` throws
    before any classify call, so the run aborts with nothing counted and no
    progress message; otherwise it is the evaluation of the manifest.
   */
  function OnEvaluate(state: ManifestState, classify: Classifier): Run {
    match state
    case Missing => Aborted(Start)
    case Loaded(m) => Evaluation(m, classify)
  }

  /** `correctPredictions / totalPredictions * 100`, or its absence. */
  function AccuracyOf(run: Run): (a: Report)
    ensures a.NotProduced? <==> run.Aborted?
    ensures a.NoData? <==> run.Completed? && run.tally.total == 0
    ensures a.Percent? ==> a.denominator == run.tally.total > 0 && a.numerator == 100 * run.tally.correct
    ensures a.Percent? && run.tally.correct <= run.tally.total ==> a.numerator <= 100 * a.denominator
  {
    match run
    case Aborted(_) => NotProduced
    case Completed(t) =>
      if t.total == 0 then NoData else Percent(100 * t.correct, t.total)
  }

  /**
    Running over `a + b` runs over `a`, then, if that completed, over `b` from
    where it stopped. In particular an aborted run stays aborted: the images
    after the failure are never looked at.
   */
  lemma {:induction false} LoopAppend(a: seq<Item>, b: seq<Item>, classify: Classifier, grandTotal: nat, t: Tally)
    ensures Loop(a + b, classify, grandTotal, t)
         == match Loop(a, classify, grandTotal, t)
            case Aborted(_) => Loop(a, classify, grandTotal, t)
            case Completed(t') => Loop(b, classify, grandTotal, t')
    decreases |a|
  {
    if |a| == 0 {
      assert a + b == b;
    } else {
      assert (a + b)[0] == a[0];
      assert (a + b)[1..] == a[1..] + b;
      match Verdict(a[0], classify)
      case Threw =>
      case Classified(predictions) =>
        var hit := HasFolderPrediction(predictions, a[0].folder);
        LoopAppend(a[1..], b, classify, grandTotal, Step(t, hit, grandTotal));
    }
  }

  lemma ScheduleNext(n: nat, grandTotal: nat)
    ensures Schedule(n + 1, grandTotal)
         == if (n + 1) % ProgressEvery == 0 then Schedule(n, grandTotal) + [Progress(n + 1, grandTotal)]
            else Schedule(n, grandTotal)
  {
    if (n + 1) % ProgressEvery == 0 {
      assert (n + 1) / ProgressEvery == n / ProgressEvery + 1;
    } else {
      assert (n + 1) / ProgressEvery == n / ProgressEvery;
    }
  }

  /**
    When the loop stops: it completes iff no classify call throws; otherwise
    it stops at the first call that throws, after counting the `n` images
    before it.
   */
  lemma {:induction false} LoopStops(items: seq<Item>, classify: Classifier, grandTotal: nat, t: Tally)
    ensures var r := Loop(items, classify, grandTotal, t);
      var n := r.tally.total - t.total;
      && (r.Completed? <==> forall k :: 0 <= k < |items| ==> !Verdict(items[k], classify).Threw?)
      && (r.Completed? ==> n == |items|)
      && (r.Aborted? ==> n < |items| && Verdict(items[n], classify).Threw?)
      && (forall k :: 0 <= k < n ==> !Verdict(items[k], classify).Threw?)
    decreases |items|
  {
    if |items| > 0 {
      var x, rest := items[0], items[1..];
      match Verdict(x, classify)
      case Threw =>
      case Classified(predictions) =>
        var hit := HasFolderPrediction(predictions, x.folder);
        LoopStops(rest, classify, grandTotal, Step(t, hit, grandTotal));
        forall k | 0 <= k < |items|
          ensures items[k] == if k == 0 then x else rest[k - 1]
        {
        }
    }
  }

  /**
    What the loop counts, from a tally whose progress messages follow the
    schedule: the `n` images processed before it stops add their hits to the
    correct count, and the progress messages are then one per multiple of ten
    up to the new total.
   */
  lemma {:induction false} LoopCounts(items: seq<Item>, classify: Classifier, grandTotal: nat, t: Tally)
    requires t.progress == Schedule(t.total, grandTotal)
    ensures var r := Loop(items, classify, grandTotal, t);
      var n := r.tally.total - t.total;
      && r.tally.correct == t.correct + Hits(items[..n], classify)
      && r.tally.progress == Schedule(r.tally.total, grandTotal)
    decreases |items|
  {
    if |items| == 0 {
      assert items[..0] == [];
    } else {
      var x, rest := items[0], items[1..];
      match Verdict(x, classify)
      case Threw =>
        assert items[..0] == [];
      case Classified(predictions) =>
        var hit := HasFolderPrediction(predictions, x.folder);
        var t' := Step(t, hit, grandTotal);
        ScheduleNext(t.total, grandTotal);
        LoopCounts(rest, classify, grandTotal, t');
        var n' := Loop(rest, classify, grandTotal, t').tally.total - t'.total;
        var done := items[..n' + 1];
        assert done[0] == x;
        assert done[1..] == rest[..n'];
        assert Hits(done, classify) == (if hit then 1 else 0) + Hits(rest[..n'], classify);
    }
  }

  /**
    One image: the total rises by exactly one, the correct count by one iff the
    image is a hit and by nothing otherwise, earlier progress messages stay as
    they were, and one new message `total / grandTotal` appears exactly when the
    new total is a multiple of ten.
   */
  lemma PerImage(items: seq<Item>, x: Item, classify: Classifier, grandTotal: nat, t: Tally)
    requires Loop(items + [x], classify, grandTotal, t).Completed?
    ensures Loop(items, classify, grandTotal, t).Completed?
    ensures var before := Loop(items, classify, grandTotal, t).tally;
      var after := Loop(items + [x], classify, grandTotal, t).tally;
      && after.total == before.total + 1
      && before.correct <= after.correct <= before.correct + 1
      && (after.correct == before.correct + 1 <==> Hit(x, classify))
      && |before.progress| <= |after.progress| <= |before.progress| + 1
      && after.progress[..|before.progress|] == before.progress
      && (|after.progress| == |before.progress| + 1 <==> after.total % ProgressEvery == 0)
      && (after.total % ProgressEvery == 0 ==> after.progress[|before.progress|] == Progress(after.total, grandTotal))
  {
    LoopAppend(items, [x], classify, grandTotal, t);
    var before := Loop(items, classify, grandTotal, t).tally;
    assert [x][1..] == [];
    if Verdict(x, classify).Classified? {
      StepCounts(before, HasFolderPrediction(Verdict(x, classify).predictions, x.folder), grandTotal);
    }
  }

  lemma ScheduleAtStart(grandTotal: nat)
    ensures Start.progress == Schedule(Start.total, grandTotal)
  {
  }

  /**
    A completed evaluation processed every image of the manifest: its total is
    the progress denominator, it counted the hits among all images, and it
    emitted floor(total / 10) progress messages, the k-th (from 1) reporting
    10 * k out of the grand total.
   */
  lemma CompletedRunCoversManifest(m: Manifest, classify: Classifier)
    requires Evaluation(m, classify).Completed?
    ensures var t := Evaluation(m, classify).tally;
      && t.total == GrandTotal(m)
      && t.correct == Hits(Items(m), classify)
      && |t.progress| == GrandTotal(m) / ProgressEvery
      && forall k :: 0 <= k < |t.progress| ==> t.progress[k] == Progress(ProgressEvery * (k + 1), GrandTotal(m))
  {
    ScheduleAtStart(GrandTotal(m));
    LoopStops(Items(m), classify, GrandTotal(m), Start);
    LoopCounts(Items(m), classify, GrandTotal(m), Start);
    ItemsMatchAllImages(m);
    assert Items(m)[..|Items(m)|] == Items(m);
  }

  /**
    If the classify call for the image at (0-based) position n of the visiting
    order throws, and none before it did, the run stops there: it is aborted
    with the tally of exactly the first n images, no progress message past
    them, and no accuracy.
   */
  lemma AbortedRunStopsAtFailure(m: Manifest, classify: Classifier, n: nat)
    requires n < |Items(m)| && Verdict(Items(m)[n], classify).Threw?
    requires forall k :: 0 <= k < n ==> !Verdict(Items(m)[k], classify).Threw?
    ensures Evaluation(m, classify).Aborted?
    ensures Evaluation(m, classify).tally == Tally(Hits(Items(m)[..n], classify), n, Schedule(n, GrandTotal(m)))
    ensures AccuracyOf(Evaluation(m, classify)) == NotProduced
  {
    LoopStops(Items(m), classify, GrandTotal(m), Start);
    var r := Evaluation(m, classify);
    assert Verdict(Items(m)[r.tally.total], classify).Threw?;
    ScheduleAtStart(GrandTotal(m));
    LoopCounts(Items(m), classify, GrandTotal(m), Start);
  }

  /**
    A click without a manifest counts nothing and shows no accuracy and no
    progress, and its outcome does not depend on the network: no classify call
    is made.
   */
  lemma MissingManifestReportsNothing(classify: Classifier)
    ensures AccuracyOf(OnEvaluate(Missing, classify)) == NotProduced
    ensures OnEvaluate(Missing, classify).tally == Start
    ensures OnEvaluate(Missing, classify).tally.progress == []
    ensures forall other: Classifier :: OnEvaluate(Missing, other) == OnEvaluate(Missing, classify)
  {
  }

  /** The reported accuracy of a finished, non-empty evaluation lies between 0 % and 100 %. */
  lemma AccuracyInRange(m: Manifest, classify: Classifier)
    ensures var a := AccuracyOf(Evaluation(m, classify));
      a.Percent? ==> 0 <= a.numerator <= 100 * a.denominator
    ensures AccuracyOf(Evaluation(m, classify)).NoData? <==> Evaluation(m, classify).Completed? && GrandTotal(m) == 0
  {
    if Evaluation(m, classify).Completed? {
      CompletedRunCoversManifest(m, classify);
    }
  }

  /**
    The inner loop of the source over the images of one `[folder, images]`
    entry, continuing from the tally `t`: classify each image in order, count
    it, and emit progress; a throwing classify call ends the run at once.
   */
  method EvaluateFolder(e: Entry, classify: Classifier, grandTotal: nat, t: Tally) returns (run: Run)
    ensures run == Loop(EntryItems(e), classify, grandTotal, t)
  {
    var folder, images := e.folder, e.images;
    ghost var items := EntryItems(e);
    var correct: nat, total: nat, progress := t.correct, t.total, t.progress;
    var j := 0;
    while j < |images|
      invariant 0 <= j <= |images|
      invariant Loop(items[j..], classify, grandTotal, Tally(correct, total, progress))
             == Loop(items, classify, grandTotal, t)
    {
      var before := Tally(correct, total, progress);
      assert items[j..][0] == items[j] == Item(folder, images[j]);
      assert items[j..][1..] == items[j + 1..];
      var reply := classify(folder + images[j]);
      if reply.Threw? {
        return Aborted(before);
      }
      var hit := HasFolderPrediction(reply.predictions, folder);
      if hit {
        correct := correct + 1;
      }
      total := total + 1;
      if total % ProgressEvery == 0 {
        progress := progress + [Progress(total, grandTotal)];
      }
      assert Tally(correct, total, progress) == Step(before, hit, grandTotal);
      j := j + 1;
    }
    assert items[j..] == [];
    run := Completed(Tally(correct, total, progress));
  }

  /**
    The nested loops of the source: the entries of the manifest in order, the
    images of each entry by `EvaluateFolder`. The result is the evaluation of
    the manifest, with at most as many correct images as images, and all
    images counted when it completes.
   */
  method Evaluate(m: Manifest, classify: Classifier) returns (run: Run)
    ensures run == Evaluation(m, classify)
    ensures run.tally.correct <= run.tally.total
    ensures run.Completed? ==> run.tally.total == GrandTotal(m)
  {
    var grandTotal := GrandTotal(m);
    var t := Start;
    var i := 0;
    assert m[i..] == m;
    while i < |m|
      invariant 0 <= i <= |m|
      invariant Loop(Items(m[i..]), classify, grandTotal, t) == Evaluation(m, classify)
    {
      ItemsFrom(m, i);
      LoopAppend(EntryItems(m[i]), Items(m[i + 1..]), classify, grandTotal, t);
      var r := EvaluateFolder(m[i], classify, grandTotal, t);
      if r.Aborted? {
        return r;
      }
      t := r.tally;
      i := i + 1;
    }
    assert m[i..] == [];
    run := Completed(t);
    CompletedRunCoversManifest(m, classify);
  }
}
