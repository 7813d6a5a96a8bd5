/**
 `Respimg::betterResize`: set the filter support, resize by the chosen
 strategy, then normalise the result for the web. The engine object is the
 `Image` record the commands act on; the only capability probe in the source,
 whether the engine can delete properties, is the `canDelete` parameter.
 */
module Respimg {
  import opened Engine
  import opened Planning
  import opened Strategy
  import opened Normalize

  /** The filter support set before resizing. */
  const SupportValue: string := "2.0"

  /** The command that opens every trace. */
  function SupportOp(): Op
  {
    SetOption(FilterSupport, SupportValue)
  }

  /** The commands up to and including the final resize. */
  function HeadOps(columns: nat, rows: nat, width: nat, height: nat): (ops: seq<Op>)
    requires width > 0 && height > 0
    ensures 2 <= |ops| <= 3 && ops[0] == SupportOp()
    ensures ops[|ops| - 1] == FinalResize(columns, TargetRows(columns, rows, width, height))
  {
    [SupportOp()] + ResizeOps(columns, rows, width, height)
  }

  /** betterResize on `img` for a request of `columns` by `rows` (0 rows: keep
      the aspect ratio); `optim` picks the sharpening and whether to strip. The
      record at the end is what the trace makes of `img`, sized to the request. */
  function BetterResize(img: Image, columns: nat, rows: nat, optim: bool, canDelete: bool): (r: Outcome)
    requires img.width > 0 && img.height > 0
    ensures r.image.width == columns && r.image.height == TargetRows(columns, rows, img.width, img.height)
  {
    var head := HeadOps(columns, rows, img.width, img.height);
    var resized := Run(img, head);
    var n := Normalize.Normalize(resized, optim, canDelete);
    ResizedRecord(img, columns, rows);
    RunAppend(img, head, n.trace);
    Outcome(head + n.trace, n.image)
  }

  /** `img` at the requested size with the filter support set, and otherwise as it was. */
  function ResizedImage(img: Image, columns: nat, rows: nat): Image
    requires img.width > 0 && img.height > 0
  {
    img.(width := columns, height := TargetRows(columns, rows, img.width, img.height),
         options := img.options[FilterSupport := SupportValue])
  }

  /** After the head commands the record has the requested size and the filter
      support option, and nothing else has changed. */
  lemma ResizedRecord(img: Image, columns: nat, rows: nat)
    requires img.width > 0 && img.height > 0
    ensures Run(img, HeadOps(columns, rows, img.width, img.height)) == ResizedImage(img, columns, rows)
  {
    var set1 := Apply(img, SupportOp());
    RunCons(img, SupportOp(), ResizeOps(columns, rows, img.width, img.height));
    FinalSizeIndependentOfBranch(set1, columns, rows);
  }

  /** The trace is the filter support, the resize commands, and the
      normalisation commands over the profiles `img` had on entry. */
  lemma TraceSplits(img: Image, columns: nat, rows: nat, optim: bool, canDelete: bool)
    requires img.width > 0 && img.height > 0
    ensures BetterResize(img, columns, rows, optim, canDelete).trace
      == HeadOps(columns, rows, img.width, img.height) + NormalizeOps(img.alpha, img.profiles, optim, canDelete)
  {
    ResizedRecord(img, columns, rows);
  }

  /** The record betterResize should leave from `img`: the requested size,
      alpha opaque exactly when no channel was reported, depth 8, no interlace, quality
      82, sRGB, the filter support and the five encoder options set; with
      `optim`, only the icc/icm profiles and the nine properties reading empty,
      others unchanged; without it, no profiles, the nine properties and the
      date properties reading empty, the comment and date properties gone, and
      the others unchanged. */
  ghost predicate ResizedForWeb(img: Image, out: Image, columns: nat, target: nat, optim: bool)
  {
    && out.width == columns && out.height == target
    && (!HasAlphaChannel(img.alpha) ==> out.alpha == Opaque)
    && (HasAlphaChannel(img.alpha) ==> out.alpha == img.alpha)
    && out.depth == 8 && out.interlace == NoInterlace && out.quality == 82 && out.colorspace == SRGB
    && FilterSupport in out.options && out.options[FilterSupport] == "2.0"
    && EncoderOptionsSet(out.options)
    && (optim ==>
          && (forall k :: k in out.profiles <==> k in img.profiles && (k == "icc" || k == "icm"))
          && PropertiesCleared(img, out, ClearedNames))
    && (!optim ==>
          && out.profiles == []
          && PropertiesCleared(img, out, ClearedNames + StrippedProperties)
          && (forall n :: n in StrippedProperties ==> n !in out.properties))
  }

  /** The record betterResize leaves is the normalisation of the resized record. */
  lemma BetterResizeImage(img: Image, columns: nat, rows: nat, optim: bool, canDelete: bool)
    requires img.width > 0 && img.height > 0
    ensures BetterResize(img, columns, rows, optim, canDelete).image
      == Expected(ResizedImage(img, columns, rows), optim, canDelete)
  {
    ResizedRecord(img, columns, rows);
  }

  /** The normalisation of the resized record is ready for the web. */
  lemma ExpectedResizedForWeb(img: Image, columns: nat, rows: nat, optim: bool, canDelete: bool)
    requires img.width > 0 && img.height > 0
    ensures ResizedForWeb(img, Expected(ResizedImage(img, columns, rows), optim, canDelete),
                          columns, TargetRows(columns, rows, img.width, img.height), optim)
  {
    var resized := ResizedImage(img, columns, rows);
    ExpectedObservations(resized, optim, canDelete);
    SupportSurvivesEncoderOptions(img.options);
  }

  /** What betterResize leaves, whatever branch it takes. */
  lemma BetterResizeFinalState(img: Image, columns: nat, rows: nat, optim: bool, canDelete: bool)
    requires img.width > 0 && img.height > 0
    ensures ResizedForWeb(img, BetterResize(img, columns, rows, optim, canDelete).image,
                          columns, TargetRows(columns, rows, img.width, img.height), optim)
  {
    BetterResizeImage(img, columns, rows, optim, canDelete);
    ExpectedResizedForWeb(img, columns, rows, optim, canDelete);
  }

  /** betterResize on a record that stands for an engine state leaves one. */
  lemma BetterResizeKeepsCanonical(img: Image, columns: nat, rows: nat, optim: bool, canDelete: bool)
    requires img.width > 0 && img.height > 0 && Canonical(img)
    ensures Canonical(BetterResize(img, columns, rows, optim, canDelete).image)
  {
    BetterResizeImage(img, columns, rows, optim, canDelete);
    ExpectedKeepsCanonical(ResizedImage(img, columns, rows), optim, canDelete);
  }

  /** Setting the encoder options keeps the filter support. */
  lemma SupportSurvivesEncoderOptions(m: map<OptionKey, string>)
    ensures var out := WithEncoderOptions(m[FilterSupport := SupportValue]);
      FilterSupport in out && out[FilterSupport] == "2.0"
  {
  }

  /** The shape of a betterResize trace `t` whose resize sits at `k`: the filter
      support first; `resize` at `k` and no other resize; a sample exactly when
      `sampled`; after `k` only normalisation commands; a strip, as the last
      command, exactly when `optim` is false. */
  predicate TraceShape(t: seq<Op>, k: nat, resize: Op, sampled: bool, optim: bool, listing: seq<string>)
  {
    && k < |t|
    && t[0] == SetOption(FilterSupport, "2.0")
    && t[k] == resize
    && (forall i :: 0 <= i < |t| && t[i].Resize? ==> i == k)
    && ((exists i :: 0 <= i < |t| && t[i].Sample?) <==> sampled)
    && (forall i :: k < i < |t| ==> NormalizationCommand(t[i], optim, listing))
    && (Strip in t <==> !optim)
    && t[|t| - 1] == (if optim then SetColorspace(SRGB) else Strip)
  }

  /** Head commands that end with the resize, followed by normalisation
      commands, make a trace of that shape. */
  lemma ConcatTraceShape(head: seq<Op>, tail: seq<Op>, sampled: bool, optim: bool, listing: seq<string>)
    requires |head| > 0 && head[0] == SetOption(FilterSupport, "2.0") && head[|head| - 1].Resize?
    requires forall i :: 0 <= i < |head| - 1 ==> !head[i].Resize?
    requires (exists i :: 0 <= i < |head| && head[i].Sample?) <==> sampled
    requires Strip !in head
    requires forall op :: op in tail ==> NormalizationCommand(op, optim, listing)
    requires |tail| > 0 && (Strip in tail <==> !optim)
    requires tail[|tail| - 1] == (if optim then SetColorspace(SRGB) else Strip)
    ensures TraceShape(head + tail, |head| - 1, head[|head| - 1], sampled, optim, listing)
  {
    var t := head + tail;
    var k := |head| - 1;
    forall i | k < i < |t|
      ensures NormalizationCommand(t[i], optim, listing)
    {
      assert t[i] == tail[i - |head|] && tail[i - |head|] in tail;
    }
    forall i | 0 <= i < |t| && t[i].Resize?
      ensures i == k
    {
    }
    if exists i :: 0 <= i < |t| && t[i].Sample? {
      var i :| 0 <= i < |t| && t[i].Sample?;
      assert head[i].Sample?;
    }
    if sampled {
      var i :| 0 <= i < |head| && head[i].Sample?;
      assert t[i].Sample?;
    }
    assert t[|t| - 1] == tail[|tail| - 1];
  }

  /** The commands betterResize issues: the filter support first; exactly one
      resize, to the requested size with rows inferred when 0, issued after at
      most one sample; a sample exactly on the sample-first branch; after the
      resize only normalisation commands with the source's arguments, over the
      profiles the image had on entry; a strip, as the last command, exactly
      when `optim` is false. */
  lemma BetterResizeTrace(img: Image, columns: nat, rows: nat, optim: bool, canDelete: bool)
    requires img.width > 0 && img.height > 0
    ensures TraceShape(BetterResize(img, columns, rows, optim, canDelete).trace,
                       |ResizeOps(columns, rows, img.width, img.height)|,
                       FinalResize(columns, TargetRows(columns, rows, img.width, img.height)),
                       Choose(columns, rows, img.width, img.height) == SampleFirst,
                       optim, img.profiles)
  {
    var head := HeadOps(columns, rows, img.width, img.height);
    var tail := NormalizeOps(img.alpha, img.profiles, optim, canDelete);
    TraceSplits(img, columns, rows, optim, canDelete);
    NormalizeOpsArguments(img.alpha, img.profiles, optim, canDelete);
    NormalizeOpsContents(img.alpha, img.profiles, optim, canDelete);
    HeadShape(columns, rows, img.width, img.height);
    ConcatTraceShape(head, tail, Choose(columns, rows, img.width, img.height) == SampleFirst, optim, img.profiles);
  }

  /** The head commands: the filter support, then the resize commands, of
      which only the last resizes and a sample occurs exactly on the
      sample-first branch. */
  lemma HeadShape(columns: nat, rows: nat, width: nat, height: nat)
    requires width > 0 && height > 0
    ensures var h := HeadOps(columns, rows, width, height);
      && |h| == |ResizeOps(columns, rows, width, height)| + 1
      && (forall i :: 0 <= i < |h| - 1 ==> !h[i].Resize?)
      && ((exists i :: 0 <= i < |h| && h[i].Sample?) <==> Choose(columns, rows, width, height) == SampleFirst)
      && Strip !in h
  {
    var h := HeadOps(columns, rows, width, height);
    var r := ResizeOps(columns, rows, width, height);
    forall i | 1 <= i < |h|
      ensures h[i] == r[i - 1]
    {
    }
    if exists i :: 0 <= i < |r| && r[i].Sample? {
      var i :| 0 <= i < |r| && r[i].Sample?;
      assert h[i + 1].Sample?;
    }
    if exists i :: 0 <= i < |h| && h[i].Sample? {
      var i :| 0 <= i < |h| && h[i].Sample?;
      assert r[i - 1].Sample?;
    }
  }

  /** Resizing a betterResize result again with the same request leaves the
      record unchanged, provided the result is not empty. */
  lemma BetterResizeIdempotent(img: Image, columns: nat, rows: nat, optim: bool, canDelete: bool)
    requires img.width > 0 && img.height > 0
    requires columns > 0 && TargetRows(columns, rows, img.width, img.height) > 0
    ensures var once := BetterResize(img, columns, rows, optim, canDelete).image;
      BetterResize(once, columns, rows, optim, canDelete).image == once
  {
    var resized := ResizedImage(img, columns, rows);
    var once := BetterResize(img, columns, rows, optim, canDelete).image;
    BetterResizeImage(img, columns, rows, optim, canDelete);
    ResizedAgain(img, columns, rows, optim, canDelete);
    BetterResizeImage(once, columns, rows, optim, canDelete);
    ExpectedIdempotent(resized, optim, canDelete);
  }

  /** A betterResize result already has the requested size and filter support. */
  lemma ResizedAgain(img: Image, columns: nat, rows: nat, optim: bool, canDelete: bool)
    requires img.width > 0 && img.height > 0
    requires columns > 0 && TargetRows(columns, rows, img.width, img.height) > 0
    ensures var once := Expected(ResizedImage(img, columns, rows), optim, canDelete);
      once.width > 0 && once.height > 0 && ResizedImage(once, columns, rows) == once
  {
    var target := TargetRows(columns, rows, img.width, img.height);
    var once := Expected(ResizedImage(img, columns, rows), optim, canDelete);
    SameRequestSameRows(columns, rows, target, img.width, img.height);
    SupportSurvivesEncoderOptions(img.options);
    assert once.options[FilterSupport := SupportValue] == once.options;
  }

  /** A request on an image already at the requested size asks for the same rows. */
  lemma SameRequestSameRows(columns: nat, rows: nat, target: nat, width: nat, height: nat)
    requires width > 0 && height > 0 && columns > 0
    requires target == TargetRows(columns, rows, width, height)
    ensures TargetRows(columns, rows, columns, target) == target
  {
  }
}
