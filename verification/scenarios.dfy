/**
  Concrete runs of the evaluation: the matching rule on sample labels, a small
  manifest evaluated end to end, and two images that share an element id.
 */
module Scenarios {
  import opened Text
  import opened LabelManifest
  import opened Evaluator

  /** A label matches `folder` when its lower-cased form has `folder` at position `i`. */
  lemma MatchAt(name: string, folder: string, i: int)
    requires OccursAt(folder, ToLower(name), i)
    ensures HasFolderPrediction([Prediction(name)], folder)
  {
    IncludesIsSubstring(ToLower(name), folder);
  }

  /** A label does not match `folder` when its lower-cased form lacks the `j`-th character of `folder`. */
  lemma NoMatchWithout(name: string, folder: string, j: int)
    requires 0 <= j < |folder| && folder[j] !in ToLower(name)
    ensures !HasFolderPrediction([Prediction(name)], folder)
  {
    MissingCharNotSubstring(folder, ToLower(name), j);
    IncludesIsSubstring(ToLower(name), folder);
  }

  /**
    The rule is substring containment in the lower-cased label: "Arctic Fox"
    and "foxhound" match the folder "fox", "wolf" does not, and a folder
    spelled "Fox" matches no prediction list at all.
   */
  lemma MatchExamples()
    ensures HasFolderPrediction([Prediction("Arctic Fox")], "fox")
    ensures HasFolderPrediction([Prediction("foxhound")], "fox")
    ensures !HasFolderPrediction([Prediction("wolf")], "fox")
    ensures forall predictions: seq<Prediction> :: !HasFolderPrediction(predictions, "Fox")
  {
    ArcticFox();
    Foxhound();
    Wolf();
    forall predictions: seq<Prediction>
      ensures !HasFolderPrediction(predictions, "Fox")
    {
      CapitalFolderNeverMatches(predictions, "Fox", 0);
    }
  }

  lemma ArcticFox()
    ensures HasFolderPrediction([Prediction("Arctic Fox")], "fox")
  {
    var lowered := ToLower("Arctic Fox");
    assert lowered[7..10] == [lowered[7], lowered[8], lowered[9]] == "fox";
    MatchAt("Arctic Fox", "fox", 7);
  }

  lemma Foxhound()
    ensures HasFolderPrediction([Prediction("foxhound")], "fox")
  {
    var lowered := ToLower("foxhound");
    assert lowered[0..3] == [lowered[0], lowered[1], lowered[2]] == "fox";
    MatchAt("foxhound", "fox", 0);
  }

  lemma Wolf()
    ensures !HasFolderPrediction([Prediction("wolf")], "fox")
  {
    assert ToLower("wolf") == "wolf";
    NoMatchWithout("wolf", "fox", 2);
  }

  /** Replies of a network that recognises both cats and misses the dog. */
  function CatDogModel(id: string): Reply {
    if id == "cata.jpg" then Classified([Prediction("tabby cat")])
    else if id == "catb.jpg" then Classified([Prediction("house cat")])
    else if id == "dogc.jpg" then Classified([Prediction("poodle")])
    else Threw
  }

  const CatDog: Manifest := [Entry("cat", ["a.jpg", "b.jpg"]), Entry("dog", ["c.jpg"])]

  lemma CatDogVerdicts()
    ensures HasFolderPrediction([Prediction("tabby cat")], "cat")
    ensures HasFolderPrediction([Prediction("house cat")], "cat")
    ensures !HasFolderPrediction([Prediction("poodle")], "dog")
  {
    var tabby, house := ToLower("tabby cat"), ToLower("house cat");
    assert tabby[6..9] == [tabby[6], tabby[7], tabby[8]] == "cat";
    MatchAt("tabby cat", "cat", 6);
    assert house[6..9] == [house[6], house[7], house[8]] == "cat";
    MatchAt("house cat", "cat", 6);
    assert ToLower("poodle") == "poodle";
    NoMatchWithout("poodle", "dog", 2);
  }

  /** Two cats found, the dog missed: 2 of 3 correct, no progress message, accuracy 200/3 %. */
  lemma CatDogScenario()
    ensures Evaluation(CatDog, CatDogModel) == Completed(Tally(2, 3, []))
    ensures AccuracyOf(Evaluation(CatDog, CatDogModel)) == Percent(200, 3)
  {
    var a, b, c := Item("cat", "a.jpg"), Item("cat", "b.jpg"), Item("dog", "c.jpg");
    assert Items(CatDog) == [a, b, c] by {
      assert CatDog[1..][1..] == [];
    }
    assert ElementId(a) == "cata.jpg";
    assert ElementId(b) == "catb.jpg";
    assert ElementId(c) == "dogc.jpg";
    CatDogVerdicts();
    ItemsMatchAllImages(CatDog);
    var t1 := Step(Start, true, 3);
    var t2 := Step(t1, true, 3);
    var t3 := Step(t2, false, 3);
    assert t3 == Tally(2, 3, []);
    assert [a, b, c][1..] == [b, c];
    assert [b, c][1..] == [c];
  }

  /**
    The image element is found by the id `folder + image`, which two different
    images can share: "cat" + "s1.jpg" and "cats" + "1.jpg" are both
    "cats1.jpg", so whatever the network is, both are given the same element and
    get the same reply.
   */
  lemma SharedElementId(classify: Classifier)
    ensures var items := Items([Entry("cat", ["s1.jpg"]), Entry("cats", ["1.jpg"])]);
      && |items| == 2
      && items[0] != items[1]
      && ElementId(items[0]) == ElementId(items[1])
      && Verdict(items[0], classify) == Verdict(items[1], classify)
  {
    var m := [Entry("cat", ["s1.jpg"]), Entry("cats", ["1.jpg"])];
    assert m[1..][1..] == [];
    assert Items(m) == [Item("cat", "s1.jpg"), Item("cats", "1.jpg")];
    assert "cat" + "s1.jpg" == "cats1.jpg";
    assert "cats" + "1.jpg" == "cats1.jpg";
  }
}
