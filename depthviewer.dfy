/** The backend node of depthviewer.py: the names of the files `display`
    saves and the records it returns to the host, the " [type]" tagging of
    the frames the host uploaded and its inverse in `load_image_to_tensor`,
    and how the loaded frames become the node's one output. Images are
    opaque values with a height and a width. */
module DepthViewer {
  import opened Strings
  import opened Protocol
  import ThreeVisualizer
  import RendererLogic

  // ---------------------------------------------------------------------
  // Output file names

  /** Python's `s.replace(old, new)` for a non-empty `old`: occurrences are
      replaced left to right without overlapping. */
  function ReplaceAll(s: string, pat: string, rep: string): string
    requires pat != ""
    decreases |s|
  {
    if |s| < |pat| then s
    else if s[..|pat|] == pat then rep + ReplaceAll(s[|pat|..], pat, rep)
    else [s[0]] + ReplaceAll(s[1..], pat, rep)
  }

  /** A name without the placeholder is left as it is. */
  lemma {:induction false} ReplaceAllAbsent(s: string, pat: string, rep: string)
    requires pat != "" && !Contains(s, pat)
    ensures ReplaceAll(s, pat, rep) == s
    decreases |s|
  {
    if |s| >= |pat| {
      assert !OccursAt(s, pat, 0);
      assert !Contains(s[1..], pat) by {
        forall i: nat | OccursAt(s[1..], pat, i)
          ensures false
        {
          assert s[i + 1..i + 1 + |pat|] == s[1..][i..i + |pat|];
          assert OccursAt(s, pat, i + 1);
        }
      }
      ReplaceAllAbsent(s[1..], pat, rep);
    }
  }

  /** The placeholder the save path may hold. */
  const BatchPlaceholder: string := "%batch_num%"

  const ReferenceSuffix: string := "_reference.png"
  const DepthSuffix: string := "_depth.png"

  /** The file saved for batch entry `b` under counter `k`: the prefix with
      the placeholder replaced by `b`, an underscore, the counter padded to
      five digits, and the suffix. */
  function OutputFile(prefix: string, b: nat, k: nat, suffix: string): string
  {
    ReplaceAll(prefix, BatchPlaceholder, NatToString(b)) + "_" + ZeroPad5(k) + suffix
  }

  /** Two strings that end in the same suffix and have equal-length heads
      are equal only if the heads are. */
  lemma SameSuffixHeads(p: string, z1: string, z2: string, s: string)
    requires |z1| == |z2| && p + z1 + s == p + z2 + s
    ensures z1 == z2
  {
    assert z1 == (p + z1 + s)[|p|..|p| + |z1|];
    assert z2 == (p + z2 + s)[|p|..|p| + |z2|];
  }

  /** For one batch entry the counter determines the name: different
      counters never give the same file. */
  lemma OutputFileInjective(prefix: string, b: nat, k1: nat, k2: nat, suffix: string)
    requires OutputFile(prefix, b, k1, suffix) == OutputFile(prefix, b, k2, suffix)
    ensures k1 == k2
  {
    var p := ReplaceAll(prefix, BatchPlaceholder, NatToString(b)) + "_";
    var z1, z2 := ZeroPad5(k1), ZeroPad5(k2);
    var n1, n2 := OutputFile(prefix, b, k1, suffix), OutputFile(prefix, b, k2, suffix);
    assert n1 == p + z1 + suffix && n2 == p + z2 + suffix;
    assert |z1| == |z2|;
    SameSuffixHeads(p, z1, z2, suffix);
    ZeroPad5RoundTrip(k1);
    ZeroPad5RoundTrip(k2);
  }

  /** A reference file and a depth file never share a name. */
  lemma ReferenceNotDepth(prefix: string, b1: nat, k1: nat, b2: nat, k2: nat)
    ensures OutputFile(prefix, b1, k1, ReferenceSuffix) != OutputFile(prefix, b2, k2, DepthSuffix)
  {
    var r := OutputFile(prefix, b1, k1, ReferenceSuffix);
    var d := OutputFile(prefix, b2, k2, DepthSuffix);
    assert r[|r| - 5] == 'e';
    assert d[|d| - 5] == 'h';
  }

  /** Both files are PNG names, so the renderer requests them when the host
      hands their records over. */
  lemma {:induction false} OutputFileRequested(prefix: string, b: nat, k: nat, subfolder: string)
    ensures ThreeVisualizer.Requests(Some(ImageParams(OutputFile(prefix, b, k, ReferenceSuffix), subfolder, "output")))
    ensures ThreeVisualizer.Requests(Some(ImageParams(OutputFile(prefix, b, k, DepthSuffix), subfolder, "output")))
  {
    var head := ReplaceAll(prefix, BatchPlaceholder, NatToString(b)) + "_" + ZeroPad5(k);
    assert OutputFile(prefix, b, k, ReferenceSuffix) == (head + "_reference") + "." + "png";
    assert OutputFile(prefix, b, k, DepthSuffix) == (head + "_depth") + "." + "png";
    RendererLogic.ExtensionOfDotted(head + "_reference", "png");
    RendererLogic.ExtensionOfDotted(head + "_depth", "png");
  }

  /** The records `display` appends for `n` pairs starting at counter `k`:
      pair `i` is batch entry `i` under counter `k + i`. */
  function Records(prefix: string, subfolder: string, k: nat, n: nat, suffix: string): (r: seq<ImageParams>)
    ensures |r| == n
  {
    seq(n, i requires 0 <= i < n => ImageParams(OutputFile(prefix, i, k + i, suffix), subfolder, "output"))
  }

  /** Records for `m` pairs followed by records for `n` more are the records
      for `m + n` pairs, which is what lets `display` append them one pair at
      a time. */
  lemma RecordsSplit(prefix: string, subfolder: string, k: nat, m: nat, suffix: string)
    ensures Records(prefix, subfolder, k, m + 1, suffix)
            == Records(prefix, subfolder, k, m, suffix) + [ImageParams(OutputFile(prefix, m, k + m, suffix), subfolder, "output")]
  {
  }

  // ---------------------------------------------------------------------
  // Frame names

  /** `im['name']` after the tagging at depthviewer.py:123-124: a frame with a
      type `t` whose name does not mention "[t]" gets " [t]" appended. */
  function TaggedName(name: string, kind: Option<string>): string
  {
    if kind.Some? && !Contains(name, "[" + kind.value + "]") then name + " " + "[" + kind.value + "]"
    else name
  }

  function Tagged(f: UploadedFile): UploadedFile
  {
    f.(name := TaggedName(f.name, f.kind))
  }

  /** The file `load_image_to_tensor` looks for: the name up to its first
      " [". */
  function BaseName(name: string): (r: string)
    ensures |r| <= |name| && r == name[..|r|]
  {
    SplitFirst(name, " [")
  }

  /** Tagging changes a typed name exactly when the name does not already
      mention its type. */
  lemma TaggedNameChanges(name: string, t: string)
    ensures TaggedName(name, Some(t)) != name <==> !Contains(name, "[" + t + "]")
  {
  }

  /** Tagging twice is tagging once, so a frame list rewritten in place by one
      run is left alone by the next. */
  lemma TaggedIdempotent(f: UploadedFile)
    ensures Tagged(Tagged(f)) == Tagged(f)
  {
    if f.kind.Some? && !Contains(f.name, "[" + f.kind.value + "]") {
      var tag := "[" + f.kind.value + "]";
      assert f.name + " " + "[" + f.kind.value + "]" == (f.name + " ") + tag;
      ContainsSuffix(f.name + " ", tag);
    }
  }

  /** No occurrence of " [" in `name` means none at any index. */
  lemma NotContainsAt(name: string, i: nat)
    requires !Contains(name, " [")
    ensures !OccursAt(name, " [", i)
  {
  }

  /** Stripping undoes tagging: for a name without " [", the file looked up
      for the tagged name is the name itself, whatever the type. */
  lemma StripUndoesTag(name: string, kind: Option<string>)
    requires !Contains(name, " [")
    ensures BaseName(TaggedName(name, kind)) == name
  {
    var tagged := TaggedName(name, kind);
    if tagged != name {
      var t := kind.value;
      assert tagged == name + " [" + t + "]";
      assert tagged[..|name|] == name;
      assert tagged[|name|..|name| + 2] == " [";
      assert OccursAt(tagged, " [", |name|);
      forall i: nat | i < |name|
        ensures !OccursAt(tagged, " [", i)
      {
        if i + 1 < |name| {
          NotContainsAt(name, i);
          assert tagged[i..i + 2] == name[i..i + 2];
        } else {
          assert tagged[i + 1] == ' ';
        }
      }
      FirstOccurrence(tagged, " [", |name|);
    }
  }

  /** An occurrence at `k` with none before it is what `Find` returns. */
  lemma FirstOccurrence(s: string, sub: string, k: nat)
    requires OccursAt(s, sub, k)
    requires forall i: nat :: i < k ==> !OccursAt(s, sub, i)
    ensures Find(s, sub) == Some(k) && SplitFirst(s, sub) == s[..k]
  {
  }

  // ---------------------------------------------------------------------
  // Frames and the node's output

  /** What an image holds, opaque except for the black default. */
  datatype Pixels = Black | Picture(id: nat)

  /** An image tensor of one frame, by its height and width. */
  datatype Image = Image(height: nat, width: nat, pixels: Pixels)

  /** `Image.new('RGB', (512, 512), color='black')`, the output when no frame
      loads. */
  const DefaultFrame: Image := Image(512, 512, Black)

  /** The frames that load, in order: `loader` is `load_image_to_tensor` on
      the base name, `None` where the file is missing or does not open. */
  function Loaded(entries: seq<UploadedFile>, loader: string -> Option<Image>): (ims: seq<Image>)
    ensures |ims| <= |entries|
  {
    if entries == [] then []
    else
      Loaded(entries[..|entries| - 1], loader)
      + match loader(BaseName(entries[|entries| - 1].name)) case Some(im) => [im] case None => []
  }

  lemma LoadedPrefix(entries: seq<UploadedFile>, i: nat, loader: string -> Option<Image>)
    requires i < |entries|
    ensures Loaded(entries[..i + 1], loader)
            == Loaded(entries[..i], loader)
               + match loader(BaseName(entries[i].name)) case Some(im) => [im] case None => []
  {
    assert entries[..i + 1][..i] == entries[..i];
  }

  /** When every base name loads, every frame is kept, in order. */
  lemma {:induction false} LoadedAll(entries: seq<UploadedFile>, loader: string -> Option<Image>)
    requires forall i :: 0 <= i < |entries| ==> loader(BaseName(entries[i].name)).Some?
    ensures |Loaded(entries, loader)| == |entries|
    ensures forall i :: 0 <= i < |entries| ==> Loaded(entries, loader)[i] == loader(BaseName(entries[i].name)).value
  {
    if entries != [] {
      var init := entries[..|entries| - 1];
      var last := entries[|entries| - 1];
      assert forall i :: 0 <= i < |init| ==> init[i] == entries[i];
      LoadedAll(init, loader);
      assert Loaded(entries, loader) == Loaded(init, loader) + [loader(BaseName(last.name)).value];
    }
  }

  /** The resize of a frame to `width` × `height`: `common_upscale`, and when
      that fails the PIL resize; `None` when both fail. */
  function Resized(im: Image, width: nat, height: nat,
                   upscale: (Image, nat, nat) -> Option<Image>,
                   pilResize: (Image, nat, nat) -> Option<Image>): Option<Image>
  {
    match upscale(im, width, height)
    case Some(r) => Some(r)
    case None => pilResize(im, width, height)
  }

  /** What frame `im` adds to the output behind `first`: itself when the
      shapes agree, its resize otherwise, nothing when both resizes fail. */
  function Fitted(first: Image, im: Image, upscale: (Image, nat, nat) -> Option<Image>,
                  pilResize: (Image, nat, nat) -> Option<Image>): seq<Image>
  {
    if im.height == first.height && im.width == first.width then [im]
    else match Resized(im, first.width, first.height, upscale, pilResize)
      case Some(r) => [r]
      case None => []
  }

  /** The concatenated output for loaded frames `ims`. */
  function Stacked(ims: seq<Image>, upscale: (Image, nat, nat) -> Option<Image>,
                   pilResize: (Image, nat, nat) -> Option<Image>): (out: seq<Image>)
    requires |ims| >= 1
    ensures 1 <= |out| <= |ims| && out[0] == ims[0]
  {
    if |ims| == 1 then [ims[0]]
    else Stacked(ims[..|ims| - 1], upscale, pilResize) + Fitted(ims[0], ims[|ims| - 1], upscale, pilResize)
  }

  /** Frames that already have the first frame's shape are all kept as they
      are. */
  lemma {:induction false} StackedSameShape(ims: seq<Image>, upscale: (Image, nat, nat) -> Option<Image>,
                                            pilResize: (Image, nat, nat) -> Option<Image>)
    requires |ims| >= 1
    requires forall i :: 0 <= i < |ims| ==> ims[i].height == ims[0].height && ims[i].width == ims[0].width
    ensures Stacked(ims, upscale, pilResize) == ims
  {
    if |ims| > 1 {
      var init := ims[..|ims| - 1];
      StackedSameShape(init, upscale, pilResize);
      assert init + [ims[|ims| - 1]] == ims;
    }
  }

  /** When both resizers answer with the size they were asked for, every
      frame of the output has the first frame's shape, so the concatenation
      is well formed. */
  lemma {:induction false} StackedShapes(ims: seq<Image>, upscale: (Image, nat, nat) -> Option<Image>,
                                         pilResize: (Image, nat, nat) -> Option<Image>)
    requires |ims| >= 1
    requires forall im, w, h :: upscale(im, w, h).Some? ==> upscale(im, w, h).value.width == w && upscale(im, w, h).value.height == h
    requires forall im, w, h :: pilResize(im, w, h).Some? ==> pilResize(im, w, h).value.width == w && pilResize(im, w, h).value.height == h
    ensures forall i :: 0 <= i < |Stacked(ims, upscale, pilResize)| ==>
              Stacked(ims, upscale, pilResize)[i].height == ims[0].height
              && Stacked(ims, upscale, pilResize)[i].width == ims[0].width
  {
    if |ims| > 1 {
      var init := ims[..|ims| - 1];
      StackedShapes(init, upscale, pilResize);
    }
  }

  /** The node's output for the frame list (`None` when `frames` is absent or
      has no "images"), the entries as the tagging leaves them; one black
      default when no frame loads. */
  function FrameResult(entries: Option<seq<UploadedFile>>, loader: string -> Option<Image>,
                       upscale: (Image, nat, nat) -> Option<Image>,
                       pilResize: (Image, nat, nat) -> Option<Image>): (out: seq<Image>)
    ensures |out| >= 1
  {
    if entries.None? then [DefaultFrame]
    else
      var ims := Loaded(entries.value, loader);
      if ims == [] then [DefaultFrame] else Stacked(ims, upscale, pilResize)
  }

  /** The output is the default frame alone exactly when no frame loads,
      and otherwise starts with the first frame that did. */
  lemma FrameResultDefault(entries: Option<seq<UploadedFile>>, loader: string -> Option<Image>,
                           upscale: (Image, nat, nat) -> Option<Image>,
                           pilResize: (Image, nat, nat) -> Option<Image>)
    ensures var ims := if entries.Some? then Loaded(entries.value, loader) else [];
      && (ims == [] <==> FrameResult(entries, loader, upscale, pilResize) == [DefaultFrame]
                         && forall i :: 0 <= i < |ims| ==> ims[i] != DefaultFrame)
      && (ims != [] ==> FrameResult(entries, loader, upscale, pilResize)[0] == ims[0])
  {
  }

  /** Stacking the loaded frames, as the loop at depthviewer.py:137-160 does:
      every later frame is compared with the first, resized when its shape
      differs, and dropped when both resizes fail. */
  method StackFrames(ims: seq<Image>, upscale: (Image, nat, nat) -> Option<Image>,
                     pilResize: (Image, nat, nat) -> Option<Image>) returns (out: seq<Image>)
    requires |ims| >= 1
    ensures out == Stacked(ims, upscale, pilResize)
  {
    var image1 := ims[0];
    out := [image1];
    var i := 1;
    while i < |ims|
      invariant 1 <= i <= |ims|
      invariant out == Stacked(ims[..i], upscale, pilResize)
    {
      assert ims[..i + 1][..i] == ims[..i];
      var image2 := ims[i];
      if !(image2.height == image1.height && image2.width == image1.width) {
        var r := upscale(image2, image1.width, image1.height);
        if r.None? {
          r := pilResize(image2, image1.width, image1.height);
          if r.None? {
            i := i + 1;
            continue;
          }
        }
        image2 := r.value;
      }
      out := out + [image2];
      i := i + 1;
    }
    assert ims[..i] == ims;
  }

  /** depthviewer.py:123-124 on entry `i`: the name is rewritten in place. */
  method TagEntry(entries: array<UploadedFile>, i: nat)
    requires i < entries.Length
    modifies entries
    ensures entries[i] == Tagged(old(entries[i]))
    ensures forall j :: 0 <= j < entries.Length && j != i ==> entries[j] == old(entries[j])
  {
    var im := entries[i];
    if im.kind.Some? && !Contains(im.name, "[" + im.kind.value + "]") {
      entries[i] := im.(name := im.name + " " + "[" + im.kind.value + "]");
    }
  }

  /** The collection loop at depthviewer.py:121-133: each entry's name is
      tagged in place, then its base name is loaded and kept when it loads. */
  method CollectFrames(entries: array<UploadedFile>, loader: string -> Option<Image>) returns (ims: seq<Image>)
    modifies entries
    ensures forall i :: 0 <= i < entries.Length ==> entries[i] == Tagged(old(entries[i]))
    ensures ims == Loaded(entries[..], loader)
  {
    ims := [];
    var i := 0;
    while i < entries.Length
      invariant 0 <= i <= entries.Length
      invariant forall j :: 0 <= j < i ==> entries[j] == Tagged(old(entries[j]))
      invariant forall j :: i <= j < entries.Length ==> entries[j] == old(entries[j])
      invariant ims == Loaded(entries[..i], loader)
    {
      ghost var done := entries[..i];
      TagEntry(entries, i);
      assert entries[..i] == done;
      assert entries[..i + 1] == done + [entries[i]];
      LoadedPrefix(entries[..i + 1], i, loader);
      var outputImage := loader(BaseName(entries[i].name));
      if outputImage.Some? {
        ims := ims + [outputImage.value];
      }
      i := i + 1;
    }
    assert entries[..i] == entries[..];
  }

  /** The `ui` part of the node's result: the records of the files saved. */
  datatype UiOutput = UiOutput(referenceImage: seq<ImageParams>, depthMap: seq<ImageParams>)

  /** The `DepthViewerAndQuilts` node object. `prefix`, `subfolder` and the
      starting counter are what `get_save_image_path` returned when it was
      created (it scans the output folder, which is not modelled). */
  class DepthViewerNode {
    const prefix: string
    const subfolder: string
    var counter: nat
    var savedReference: seq<ImageParams>
    var savedDepth: seq<ImageParams>

    constructor (prefix: string, subfolder: string, counter: nat)
      ensures this.prefix == prefix && this.subfolder == subfolder && this.counter == counter
      ensures savedReference == [] && savedDepth == []
    {
      this.prefix := prefix;
      this.subfolder := subfolder;
      this.counter := counter;
      savedReference := [];
      savedDepth := [];
    }

    /** The loop at depthviewer.py:90-110 over `n` zipped pairs: each pair
        appends its two records and advances the counter. */
    method SaveRecords(n: nat)
      modifies this`counter, this`savedReference, this`savedDepth
      ensures counter == old(counter) + n
      ensures savedReference == old(savedReference) + Records(prefix, subfolder, old(counter), n, ReferenceSuffix)
      ensures savedDepth == old(savedDepth) + Records(prefix, subfolder, old(counter), n, DepthSuffix)
    {
      var k0 := counter;
      var batchNumber := 0;
      while batchNumber < n
        invariant 0 <= batchNumber <= n
        invariant counter == k0 + batchNumber
        invariant savedReference == old(savedReference) + Records(prefix, subfolder, k0, batchNumber, ReferenceSuffix)
        invariant savedDepth == old(savedDepth) + Records(prefix, subfolder, k0, batchNumber, DepthSuffix)
      {
        var imageFile := OutputFile(prefix, batchNumber, counter, ReferenceSuffix);
        var depthFile := OutputFile(prefix, batchNumber, counter, DepthSuffix);
        RecordsSplit(prefix, subfolder, k0, batchNumber, ReferenceSuffix);
        RecordsSplit(prefix, subfolder, k0, batchNumber, DepthSuffix);
        savedReference := savedReference + [ImageParams(imageFile, subfolder, "output")];
        savedDepth := savedDepth + [ImageParams(depthFile, subfolder, "output")];
        counter := counter + 1;
        batchNumber := batchNumber + 1;
      }
    }

    /** `display`: one reference and one depth record per pair of the two
        lists zipped, the counter advanced once per pair, the frame entries
        tagged in place, and the stacked frames as the result. Saving the
        images is not modelled. */
    method Display(refs: seq<Image>, depths: seq<Image>, frames: Option<array<UploadedFile>>,
                   loader: string -> Option<Image>,
                   upscale: (Image, nat, nat) -> Option<Image>,
                   pilResize: (Image, nat, nat) -> Option<Image>) returns (ui: UiOutput, result: seq<Image>)
      modifies this`counter, this`savedReference, this`savedDepth
      modifies if frames.Some? then {frames.value} else {}
      ensures var n := if |refs| < |depths| then |refs| else |depths|;
        && counter == old(counter) + n
        && savedReference == old(savedReference) + Records(prefix, subfolder, old(counter), n, ReferenceSuffix)
        && savedDepth == old(savedDepth) + Records(prefix, subfolder, old(counter), n, DepthSuffix)
      ensures ui == UiOutput(savedReference, savedDepth)
      ensures frames.Some? ==> forall i :: 0 <= i < frames.value.Length ==> frames.value[i] == Tagged(old(frames.value[i]))
      ensures result == FrameResult(if frames.Some? then Some(frames.value[..]) else None, loader, upscale, pilResize)
    {
      var n := if |refs| < |depths| then |refs| else |depths|;
      SaveRecords(n);
      result := [DefaultFrame];
      if frames.Some? {
        var ims := CollectFrames(frames.value, loader);
        if |ims| > 0 {
          result := StackFrames(ims, upscale, pilResize);
        }
      }
      ui := UiOutput(savedReference, savedDepth);
    }

    /** `run`: the record lists are cleared and the first image of each
        batch is displayed, so the result lists exactly this run's two
        files. */
    method Run(image: seq<Image>, depthMap: seq<Image>, frames: Option<array<UploadedFile>>,
               loader: string -> Option<Image>,
               upscale: (Image, nat, nat) -> Option<Image>,
               pilResize: (Image, nat, nat) -> Option<Image>) returns (ui: UiOutput, result: seq<Image>)
      requires |image| >= 1 && |depthMap| >= 1
      modifies this`counter, this`savedReference, this`savedDepth
      modifies if frames.Some? then {frames.value} else {}
      ensures counter == old(counter) + 1
      ensures savedReference == [ImageParams(OutputFile(prefix, 0, old(counter), ReferenceSuffix), subfolder, "output")]
      ensures savedDepth == [ImageParams(OutputFile(prefix, 0, old(counter), DepthSuffix), subfolder, "output")]
      ensures ui == UiOutput(savedReference, savedDepth)
      ensures frames.Some? ==> forall i :: 0 <= i < frames.value.Length ==> frames.value[i] == Tagged(old(frames.value[i]))
      ensures result == FrameResult(if frames.Some? then Some(frames.value[..]) else None, loader, upscale, pilResize)
    {
      savedReference := [];
      savedDepth := [];
      var single := image[0];
      var depth := depthMap[0];
      ui, result := Display([single], [depth], frames, loader, upscale, pilResize);
    }
  }

  /** Successive runs of one node advance the counter, so a run never saves
      over a file an earlier run of the same node saved. */
  lemma RunsNeverOverwrite(prefix: string, k1: nat, k2: nat)
    requires k1 < k2
    ensures OutputFile(prefix, 0, k1, ReferenceSuffix) != OutputFile(prefix, 0, k2, ReferenceSuffix)
    ensures OutputFile(prefix, 0, k1, DepthSuffix) != OutputFile(prefix, 0, k2, DepthSuffix)
    ensures OutputFile(prefix, 0, k1, ReferenceSuffix) != OutputFile(prefix, 0, k2, DepthSuffix)
  {
    if OutputFile(prefix, 0, k1, ReferenceSuffix) == OutputFile(prefix, 0, k2, ReferenceSuffix) {
      OutputFileInjective(prefix, 0, k1, k2, ReferenceSuffix);
    }
    if OutputFile(prefix, 0, k1, DepthSuffix) == OutputFile(prefix, 0, k2, DepthSuffix) {
      OutputFileInjective(prefix, 0, k1, k2, DepthSuffix);
    }
    ReferenceNotDepth(prefix, 0, k1, 0, k2);
  }

  /** The default save prefix has no placeholder, so batch entry 0 under
      counter 7 is saved as "imagesave_00007_reference.png". */
  lemma DefaultPrefixName()
    ensures OutputFile("imagesave", 0, 7, ReferenceSuffix) == "imagesave_00007_reference.png"
  {
    assert !Contains("imagesave", BatchPlaceholder);
    ReplaceAllAbsent("imagesave", BatchPlaceholder, NatToString(0));
  }
}
