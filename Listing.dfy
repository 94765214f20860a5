/** The walk over a bucket listing done by the list-images handler: keep the
    images modified inside the window, and remember the last metadata-like key. */
module Listing {
  import opened Strings
  import opened TimeWindow
  import opened Store

  /** The substring that marks an image key. */
  const IMAGE_MARKER: string := ".png"

  /** The substring that marks a metadata key. */
  const METADATA_MARKER: string := "metadata"

  predicate IsImageKey(key: string)
  {
    Contains(key, IMAGE_MARKER)
  }

  /** A metadata key is tested only when the key is not an image key. */
  predicate IsMetadataKey(key: string)
  {
    !IsImageKey(key) && Contains(key, METADATA_MARKER)
  }

  /** Both ends of the window are inclusive. */
  predicate InWindow(t: int, w: Window)
  {
    w.fromEpoch <= t <= w.toEpoch
  }

  /** An object that the listing returns. */
  predicate Selected(o: BucketObject, w: Window)
  {
    IsImageKey(o.key) && InWindow(o.lastModified, w)
  }

  /** The keys of a listing, in enumeration order. */
  function KeysInOrder(objects: seq<BucketObject>): (ks: seq<string>)
    ensures |ks| == |objects|
    ensures forall i | 0 <= i < |objects| :: ks[i] == objects[i].key
  {
    if objects == [] then [] else KeysInOrder(objects[..|objects| - 1]) + [objects[|objects| - 1].key]
  }

  /** The names returned for a listing and a window, in enumeration order. */
  function FilterImages(objects: seq<BucketObject>, w: Window): seq<string>
  {
    if objects == [] then []
    else
      var last := objects[|objects| - 1];
      FilterImages(objects[..|objects| - 1], w) + (if Selected(last, w) then [last.key] else [])
  }

  /** The last metadata key of a listing, or the empty string when it has none. */
  function LastMetadataKey(objects: seq<BucketObject>): string
  {
    if objects == [] then ""
    else if IsMetadataKey(objects[|objects| - 1].key) then objects[|objects| - 1].key
    else LastMetadataKey(objects[..|objects| - 1])
  }

  /** The loop of the list-images handler: one pass over the listing in order. */
  method ScanListing(objects: seq<BucketObject>, w: Window) returns (images: seq<string>, metadataKey: string)
    ensures images == FilterImages(objects, w)
    ensures metadataKey == LastMetadataKey(objects)
  {
    images, metadataKey := [], "";
    var i := 0;
    while i < |objects|
      invariant 0 <= i <= |objects|
      invariant images == FilterImages(objects[..i], w)
      invariant metadataKey == LastMetadataKey(objects[..i])
    {
      var o := objects[i];
      assert objects[..i + 1][..i] == objects[..i];
      if IsImageKey(o.key) {
        if InWindow(o.lastModified, w) {
          images := images + [o.key];
        }
      } else if Contains(o.key, METADATA_MARKER) {
        metadataKey := o.key;
      }
      i := i + 1;
    }
    assert objects[..i] == objects;
  }

  /** `xs` is `ys` with some elements removed, the rest kept in order. */
  ghost predicate IsSubsequence(xs: seq<string>, ys: seq<string>)
    decreases |ys|
  {
    if xs == [] then true
    else if ys == [] then false
    else (xs[|xs| - 1] == ys[|ys| - 1] && IsSubsequence(xs[..|xs| - 1], ys[..|ys| - 1]))
         || IsSubsequence(xs, ys[..|ys| - 1])
  }

  /** The returned names keep the listing's order: they are a subsequence of its keys. */
  lemma {:induction false} FilterImagesIsSubsequence(objects: seq<BucketObject>, w: Window)
    ensures IsSubsequence(FilterImages(objects, w), KeysInOrder(objects))
  {
    if objects != [] {
      var init := objects[..|objects| - 1];
      var last := objects[|objects| - 1];
      FilterImagesIsSubsequence(init, w);
      var fs := FilterImages(init, w);
      var ks := KeysInOrder(objects);
      assert ks[..|ks| - 1] == KeysInOrder(init);
      if Selected(last, w) {
        var xs := fs + [last.key];
        assert xs[..|xs| - 1] == fs;
      } else {
        assert FilterImages(objects, w) == fs + [] == fs;
        assert ks != [];
      }
    }
  }

  /** Filtering a concatenated listing filters each part and concatenates, in order. */
  lemma {:induction false} FilterImagesAppend(a: seq<BucketObject>, b: seq<BucketObject>, w: Window)
    ensures FilterImages(a + b, w) == FilterImages(a, w) + FilterImages(b, w)
    decreases |b|
  {
    if b == [] {
      assert a + b == a;
    } else {
      var ab := a + b;
      assert ab[..|ab| - 1] == a + b[..|b| - 1];
      FilterImagesAppend(a, b[..|b| - 1], w);
    }
  }

  /** A name is returned exactly when some listed object with that key is selected. */
  lemma {:induction false} FilterImagesMembership(objects: seq<BucketObject>, w: Window, name: string)
    ensures name in FilterImages(objects, w) <==>
              exists i | 0 <= i < |objects| :: objects[i].key == name && Selected(objects[i], w)
  {
    if objects != [] {
      var init := objects[..|objects| - 1];
      FilterImagesMembership(init, w, name);
      if i :| 0 <= i < |init| && init[i].key == name && Selected(init[i], w) {
        assert objects[i] == init[i];
      }
      if i :| 0 <= i < |objects| && objects[i].key == name && Selected(objects[i], w) {
        if i < |init| {
          assert init[i] == objects[i];
        }
      }
    }
  }

  /** An inverted window selects nothing, whatever the listing holds. */
  lemma {:induction false} FilterImagesInvertedIsEmpty(objects: seq<BucketObject>, w: Window)
    requires w.fromEpoch > w.toEpoch
    ensures FilterImages(objects, w) == []
  {
    if objects != [] {
      FilterImagesInvertedIsEmpty(objects[..|objects| - 1], w);
    }
  }

  /** The chosen key is the last metadata key in enumeration order, or `""` when
      the listing has none; a key that also contains `.png` is never chosen. */
  lemma {:induction false} LastMetadataKeyIsLast(objects: seq<BucketObject>)
    ensures var k := LastMetadataKey(objects);
            && (k == "" || IsMetadataKey(k))
            && ((forall i | 0 <= i < |objects| :: !IsMetadataKey(objects[i].key)) ==> k == "")
            && (forall i | 0 <= i < |objects| && IsMetadataKey(objects[i].key) ::
                  (forall j | i < j < |objects| :: !IsMetadataKey(objects[j].key)) ==> k == objects[i].key)
  {
    if objects != [] {
      var init := objects[..|objects| - 1];
      LastMetadataKeyIsLast(init);
      forall i | 0 <= i < |init| ensures init[i] == objects[i] { }
    }
  }
}
