/** Finding an image in a payload: the magic-number sniff and the fallback JPEG carve. */
module Carving {
  import opened Common

  // markers of section B.1.1.3 of ITU-T T.81
  const START_OF_IMAGE: seq<byte> := [0xff, 0xd8, 0xff]
  const END_OF_IMAGE: seq<byte> := [0xff, 0xd9]

  const IMAGE_MAGIC: seq<seq<byte>> := [
    [0xff, 0xd8, 0xff],                           // JPEG
    [0x89, 0x50, 0x4e, 0x47, 0x0d, 0x0a],         // PNG
    [0x52, 0x49, 0x46, 0x46],                     // RIFF
    [0x42, 0x4d],                                 // BM
    [0x47, 0x49, 0x46, 0x38, 0x37, 0x61],         // GIF87a
    [0x47, 0x49, 0x46, 0x38, 0x39, 0x61]          // GIF89a
  ]

  predicate OccursAt(s: seq<byte>, pattern: seq<byte>, i: nat)
  {
    i + |pattern| <= |s| && s[i..i + |pattern|] == pattern
  }

  /** `bytes.find` with None for -1: the first occurrence at or after a position. */
  function Find(s: seq<byte>, pattern: seq<byte>, from: nat): (at: Option<nat>)
    ensures at.Some? ==> from <= at.value && OccursAt(s, pattern, at.value)
    ensures forall i: nat :: from <= i && (at.Some? ==> i < at.value) ==> !OccursAt(s, pattern, i)
    decreases |s| - from
  {
    if from > |s| then None
    else if OccursAt(s, pattern, from) then Some(from)
    else Find(s, pattern, from + 1)
  }

  /** `bytes.rfind` with None for -1: the last occurrence at or before a position. */
  function FindLast(s: seq<byte>, pattern: seq<byte>, upTo: nat): (at: Option<nat>)
    ensures at.Some? ==> at.value <= upTo && OccursAt(s, pattern, at.value)
    ensures forall i: nat :: i <= upTo && (at.Some? ==> at.value < i) ==> !OccursAt(s, pattern, i)
  {
    if OccursAt(s, pattern, upTo) then Some(upTo)
    else if upTo == 0 then None
    else FindLast(s, pattern, upTo - 1)
  }

  /** The carve tried when tshark exported nothing. */
  function Carve(raw: seq<byte>): (image: seq<byte>)
  {
    var start := Find(raw, START_OF_IMAGE, 0);
    if start.None? then []
    else
      var end := FindLast(raw, END_OF_IMAGE, |raw|);
      if end.Some? && end.value > start.value then raw[start.value..end.value + 2] else []
  }

  predicate StartsAt(raw: seq<byte>, a: nat)
  {
    a + 2 < |raw| && raw[a] == 255 && raw[a + 1] == 216 && raw[a + 2] == 255
  }

  predicate EndsAt(raw: seq<byte>, e: nat)
  {
    e + 1 < |raw| && raw[e] == 255 && raw[e + 1] == 217
  }

  /** raw[a..b] starts with a start marker and ends with an end marker. */
  predicate IsJpegSlice(raw: seq<byte>, a: nat, b: nat)
  {
    a + 3 <= b <= |raw| && StartsAt(raw, a) && EndsAt(raw, b - 2)
  }

  /** A start marker is followed, at a later position, by an end marker. */
  ghost predicate HasMarkers(raw: seq<byte>)
  {
    exists a: nat, e: nat :: a < e && StartsAt(raw, a) && EndsAt(raw, e)
  }

  lemma MarkerBytes(raw: seq<byte>)
    ensures forall i: nat :: OccursAt(raw, START_OF_IMAGE, i) <==> StartsAt(raw, i)
    ensures forall i: nat :: OccursAt(raw, END_OF_IMAGE, i) <==> EndsAt(raw, i)
  {
    forall i: nat
      ensures OccursAt(raw, START_OF_IMAGE, i) <==> StartsAt(raw, i)
      ensures OccursAt(raw, END_OF_IMAGE, i) <==> EndsAt(raw, i)
    {
      if i + 3 <= |raw| {
        assert raw[i..i + 3] == [raw[i], raw[i + 1], raw[i + 2]];
      }
      if i + 2 <= |raw| {
        assert raw[i..i + 2] == [raw[i], raw[i + 1]];
      }
    }
  }

  /**
   What is carved is a slice between markers that contains every other one; nothing is
   carved only when there is none.
  */
  lemma CarveIsLongest(raw: seq<byte>)
    ensures Carve(raw) == [] <==> !HasMarkers(raw)
    ensures HasMarkers(raw) ==> exists s: nat, e: nat ::
              && IsJpegSlice(raw, s, e) && Carve(raw) == raw[s..e]
              && forall a: nat, b: nat :: IsJpegSlice(raw, a, b) ==> s <= a && b <= e
  {
    MarkerBytes(raw);
    var start, end := Find(raw, START_OF_IMAGE, 0), FindLast(raw, END_OF_IMAGE, |raw|);
    if HasMarkers(raw) {
      var a: nat, e: nat :| a < e && StartsAt(raw, a) && EndsAt(raw, e);
      assert IsJpegSlice(raw, start.value, end.value + 2);
    }
  }

  /** Without a start marker before an end marker there is no slice between markers. */
  lemma SliceIffMarkers(raw: seq<byte>)
    ensures (exists a: nat, b: nat :: IsJpegSlice(raw, a, b)) <==> HasMarkers(raw)
  {
    if a: nat, b: nat :| IsJpegSlice(raw, a, b) {
      assert a < b - 2 && EndsAt(raw, b - 2);
    }
    if HasMarkers(raw) {
      CarveIsLongest(raw);
    }
  }

  lemma CarveIsIdempotent(raw: seq<byte>)
    ensures Carve(Carve(raw)) == Carve(raw)
  {
    hide Carve, HasMarkers, StartsAt, EndsAt;
    if HasMarkers(raw) {
      CarveIsLongest(raw);
      var s: nat, e: nat :| IsJpegSlice(raw, s, e) && Carve(raw) == raw[s..e];
      var image := raw[s..e];
      SliceOfSlice(raw, s, e);
      CarveIsLongest(image);
      var s': nat, e': nat :| IsJpegSlice(image, s', e') && Carve(image) == image[s'..e']
        && forall a: nat, b: nat :: IsJpegSlice(image, a, b) ==> s' <= a && b <= e';
      assert s' == 0 && e' == |image|;
    } else {
      CarveIsLongest(raw);
      NothingToCarve();
    }
  }

  lemma NothingToCarve()
    ensures Carve([]) == []
  {
    assert Find([], START_OF_IMAGE, 0) == None;
  }

  lemma SliceOfSlice(raw: seq<byte>, s: nat, e: nat)
    requires IsJpegSlice(raw, s, e)
    ensures IsJpegSlice(raw[s..e], 0, e - s) && HasMarkers(raw[s..e])
  {
    var image := raw[s..e];
    assert IsJpegSlice(image, 0, e - s);
    SliceIffMarkers(image);
  }

  predicate Sniff(raw: seq<byte>)
  {
    exists m :: 0 <= m < |IMAGE_MAGIC| && IMAGE_MAGIC[m] <= raw
  }

  /** The bytes from a position on spell an ASCII text. */
  predicate Spells(raw: seq<byte>, at: nat, text: string)
  {
    at + |text| <= |raw| && forall k :: 0 <= k < |text| ==> raw[at + k] as int == text[k] as int
  }

  /** The six formats by the names their files start with. */
  lemma SniffIff(raw: seq<byte>)
    ensures Sniff(raw) <==>
              || StartsAt(raw, 0)
              || (raw != [] && raw[0] == 137 && Spells(raw, 1, "PNG\r\n"))
              || Spells(raw, 0, "RIFF") || Spells(raw, 0, "BM")
              || Spells(raw, 0, "GIF87a") || Spells(raw, 0, "GIF89a")
  {
    hide Sniff, Spells;
    SniffCases(raw);
    var m := IMAGE_MAGIC;
    assert m[0] <= raw <==> StartsAt(raw, 0);
    MagicSpells(raw, [137], m[1], "PNG\r\n");
    MagicSpells(raw, [], m[2], "RIFF");
    MagicSpells(raw, [], m[3], "BM");
    MagicSpells(raw, [], m[4], "GIF87a");
    MagicSpells(raw, [], m[5], "GIF89a");
  }

  lemma MagicSpells(raw: seq<byte>, head: seq<byte>, magic: seq<byte>, text: string)
    requires |magic| == |head| + |text| && head <= magic
    requires forall k :: 0 <= k < |text| ==> magic[|head| + k] as int == text[k] as int
    ensures magic <= raw <==> head <= raw && Spells(raw, |head|, text)
  {
    if head <= raw && Spells(raw, |head|, text) {
      forall i | 0 <= i < |magic| ensures magic[i] == raw[i] {
        if i >= |head| {
          var k := i - |head|;
          assert magic[|head| + k] as int == text[k] as int;
        }
      }
    }
    if magic <= raw {
      forall k | 0 <= k < |text| ensures raw[|head| + k] as int == text[k] as int {
        assert magic[|head| + k] == raw[|head| + k];
      }
    }
  }

  lemma SniffCases(raw: seq<byte>)
    ensures var m := IMAGE_MAGIC;
            Sniff(raw) <==> m[0] <= raw || m[1] <= raw || m[2] <= raw || m[3] <= raw || m[4] <= raw || m[5] <= raw
  {
    assert |IMAGE_MAGIC| == 6;
  }

  method SniffImage(raw: seq<byte>) returns (found: bool)
    ensures found == Sniff(raw)
  {
    for m := 0 to |IMAGE_MAGIC|
      invariant forall k :: 0 <= k < m ==> !(IMAGE_MAGIC[k] <= raw)
    {
      var magic := IMAGE_MAGIC[m];
      if |magic| <= |raw| && raw[..|magic|] == magic {
        return true;
      }
    }
    return false;
  }

  /** A carved image is always recognised by the sniff. */
  lemma CarvedImageIsSniffed(raw: seq<byte>)
    ensures Carve(raw) != [] ==> Sniff(Carve(raw))
  {
    if Carve(raw) != [] {
      CarveIsLongest(raw);
      var s: nat, e: nat :| IsJpegSlice(raw, s, e) && Carve(raw) == raw[s..e];
      assert raw[s..e][..3] == raw[s..s + 3];
      assert IMAGE_MAGIC[0] == START_OF_IMAGE;
    }
  }

  /** What is sent for analysis: the payload when it is an image, else what was carved from it. */
  function ImageToAnalyze(raw: seq<byte>, carved: seq<byte>): (image: seq<byte>)
  {
    if Sniff(raw) then raw else carved
  }

  /** With the fallback carve, whatever is analysed is recognised as an image; nothing is only when neither applies. */
  lemma AnalysedImageIsSniffed(raw: seq<byte>)
    ensures ImageToAnalyze(raw, Carve(raw)) != [] ==> Sniff(ImageToAnalyze(raw, Carve(raw)))
    ensures ImageToAnalyze(raw, Carve(raw)) == [] <==> !Sniff(raw) && !HasMarkers(raw)
    ensures forall carved :: ImageToAnalyze(raw, carved) != raw ==> !Sniff(raw) && ImageToAnalyze(raw, carved) == carved
    ensures forall carved :: ImageToAnalyze(raw, carved) != carved ==> Sniff(raw)
  {
    CarvedImageIsSniffed(raw);
    CarveIsLongest(raw);
    assert Sniff(raw) ==> raw != [];
  }
}
