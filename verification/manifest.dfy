/**
  The label manifest: the parsed `/animals/output.json`, an object mapping each
  category folder to the list of image file names in it. The evaluation loop
  walks it with `Object.entries`, so the model keeps the entries as a sequence in
  that iteration order.
 */
module LabelManifest {

  /** One `[folder, images]` pair of `Object.entries(animalData)`. */
  datatype Entry = Entry(folder: string, images: seq<string>)

  type Manifest = seq<Entry>

  /** One image to evaluate, with the folder that is its ground-truth category. */
  datatype Item = Item(folder: string, image: string)

  /** The items of one entry, in list order. */
  function EntryItems(e: Entry): (r: seq<Item>)
    ensures |r| == |e.images|
    ensures forall j :: 0 <= j < |r| ==> r[j].folder == e.folder && r[j].image == e.images[j]
  {
    seq(|e.images|, j requires 0 <= j < |e.images| => Item(e.folder, e.images[j]))
  }

  /** The items in the order the nested `for ... of` loops visit them: entry by entry, then image by image. */
  function Items(m: Manifest): seq<Item>
    decreases |m|
  {
    if |m| == 0 then [] else EntryItems(m[0]) + Items(m[1..])
  }

  /** `Object.values(animalData).flat()`: all image names, concatenated in entry order. */
  function AllImages(m: Manifest): seq<string>
    decreases |m|
  {
    if |m| == 0 then [] else m[0].images + AllImages(m[1..])
  }

  /** The progress denominator, `Object.values(animalData).flat().length`. */
  function GrandTotal(m: Manifest): nat {
    |AllImages(m)|
  }

  /**
    The loop visits exactly the images the progress denominator counts, in the
    same order; in particular it visits GrandTotal(m) of them.
   */
  lemma {:induction false} ItemsMatchAllImages(m: Manifest)
    ensures |Items(m)| == GrandTotal(m)
    ensures forall k :: 0 <= k < |Items(m)| ==> Items(m)[k].image == AllImages(m)[k]
    decreases |m|
  {
    if |m| > 0 {
      ItemsMatchAllImages(m[1..]);
      var head, rest := EntryItems(m[0]), Items(m[1..]);
      forall k | 0 <= k < |Items(m)|
        ensures Items(m)[k].image == AllImages(m)[k]
      {
        if k < |head| {
          assert Items(m)[k] == head[k];
        } else {
          assert Items(m)[k] == rest[k - |head|];
        }
      }
    }
  }

  /** The items of the entries from `i` on: those of entry `i`, then those of the later ones. */
  lemma ItemsFrom(m: Manifest, i: int)
    requires 0 <= i < |m|
    ensures Items(m[i..]) == EntryItems(m[i]) + Items(m[i + 1..])
  {
    assert m[i..][1..] == m[i + 1..];
  }

  /**
    Folder by folder in entry order, and within a folder in list order: image
    `j` of entry `i` is visited after all images of the earlier entries and
    after the `j` earlier images of its own entry.
   */
  lemma {:induction false} ItemsInOrder(m: Manifest, i: int, j: int)
    requires 0 <= i < |m| && 0 <= j < |m[i].images|
    ensures GrandTotal(m[..i]) + j < |Items(m)|
    ensures Items(m)[GrandTotal(m[..i]) + j] == Item(m[i].folder, m[i].images[j])
    decreases i
  {
    var head, rest := EntryItems(m[0]), Items(m[1..]);
    assert Items(m) == head + rest;
    if i == 0 {
      assert m[..i] == [];
    } else {
      ItemsInOrder(m[1..], i - 1, j);
      assert m[..i] == [m[0]] + m[1..][..i - 1];
      assert m[..i][1..] == m[1..][..i - 1];
      assert GrandTotal(m[..i]) == |m[0].images| + GrandTotal(m[1..][..i - 1]);
    }
  }
}
