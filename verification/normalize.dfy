/**
 The normalisation that betterResize applies after resizing: opaque alpha when
 the engine reports no alpha channel, depth 8, no interlace (set twice), removal of every
 profile but icc/icm, clearing of nine thumbnail/comment properties, an unsharp
 mask chosen by `optim`, posterize, quality 82, five encoder options, sRGB, and
 a final strip only when `optim` is false.
 */
module Normalize {
  import opened Engine

  /** Profiles the loop keeps. */
  const KeptProfiles: set<string> := {"icc", "icm"}

  /** Properties deleted (or blanked when the engine cannot delete), in order. */
  const ClearedProperties: seq<PropertyName> := [
    Comment, ThumbUri, ThumbMTime, ThumbSize, ThumbMimetype,
    Software, ThumbImageWidth, ThumbImageHeight, ThumbDocumentPages]

  /** The same names, as a set. */
  const ClearedNames: set<PropertyName> := set n | n in ClearedProperties

  /** The bit depth set before the profile loop. */
  const OutputDepth: nat := 8
  /** The posterize levels, applied without dither. */
  const PosterizeLevels: nat := 136
  /** The compression quality. */
  const OutputQuality: nat := 82

  /** The unsharp mask for each optimisation intent. */
  function Sharpening(optim: bool): (op: Op)
    ensures op.UnsharpMask? && op.radius == 0.25
    ensures optim ==> op.sigma == 0.08 && op.amount == 8.3 && op.threshold == 0.045
    ensures !optim ==> op.sigma == 0.25 && op.amount == 8.0 && op.threshold == 0.065
  {
    if optim then UnsharpMask(0.25, 0.08, 8.3, 0.045)
    else UnsharpMask(0.25, 0.25, 8.0, 0.065)
  }

  /** The encoder options, in the order they are set. */
  function EncoderOptionOps(): seq<Op>
  {
    [ SetOption(JpegFancyUpsampling, "off"),
      SetOption(PngCompressionFilter, "5"),
      SetOption(PngCompressionLevel, "9"),
      SetOption(PngCompressionStrategy, "1"),
      SetOption(PngExcludeChunk, "all") ]
  }

  /** The option map once the encoder options are set. */
  function WithEncoderOptions(m: map<OptionKey, string>): map<OptionKey, string>
  {
    m[JpegFancyUpsampling := "off"][PngCompressionFilter := "5"][PngCompressionLevel := "9"]
     [PngCompressionStrategy := "1"][PngExcludeChunk := "all"]
  }

  /** The alpha step: opaque when, and only when, the engine reports no alpha
      channel. */
  function AlphaOps(alpha: AlphaChannel): (ops: seq<Op>)
    ensures |ops| <= 1
    ensures ops == [SetAlphaChannel(Opaque)] <==> !HasAlphaChannel(alpha)
    ensures HasAlphaChannel(alpha) ==> ops == []
  {
    if !HasAlphaChannel(alpha) then [SetAlphaChannel(Opaque)] else []
  }

  /** The alpha a record has after the alpha step. */
  function NormalizedAlpha(alpha: AlphaChannel): AlphaChannel
  {
    if !HasAlphaChannel(alpha) then Opaque else alpha
  }

  /** A deactivated channel reads as none, so the normalisation issues the
      opaque command for it and leaves the alpha opaque. */
  lemma DeactivatedAlphaBecomesOpaque(img: Image, optim: bool, canDelete: bool)
    requires img.alpha == Deactivate
    ensures SetAlphaChannel(Opaque) == NormalizeOps(img.alpha, img.profiles, optim, canDelete)[0]
    ensures Expected(img, optim, canDelete).alpha == Opaque
  {
  }

  /** Keys of a listing the profile loop removes. */
  function Dropped(keys: seq<string>): set<string>
  {
    set k | k in keys && k !in KeptProfiles
  }

  /** The profile loop over the engine's listing `keys`: one removal per key
      other than icc and icm, in listing order. */
  function ProfileOps(keys: seq<string>): (ops: seq<Op>)
    ensures |ops| <= |keys|
    ensures forall i :: 0 <= i < |ops| ==> ops[i].RemoveProfile? && ops[i].name in Dropped(keys)
    ensures forall k :: k in Dropped(keys) ==> RemoveProfile(k) in ops
  {
    if |keys| == 0 then []
    else
      var rest := ProfileOps(keys[1..]);
      assert forall k :: k in Dropped(keys[1..]) ==> k in Dropped(keys);
      assert forall k :: k in Dropped(keys) && k != keys[0] ==> k in Dropped(keys[1..]);
      if keys[0] in KeptProfiles then rest else [RemoveProfile(keys[0])] + rest
  }

  /** Running the profile loop drops exactly the removed keys and touches nothing else. */
  lemma {:induction false} RunProfileOps(img: Image, keys: seq<string>)
    ensures Run(img, ProfileOps(keys)) == img.(profiles := Without(img.profiles, Dropped(keys)))
    decreases |keys|
  {
    var goal := img.(profiles := Without(img.profiles, Dropped(keys)));
    if |keys| == 0 {
      assert Run(img, ProfileOps(keys)) == goal by {
        assert Dropped(keys) == {};
        WithoutAbsent(img.profiles, {});
      }
    } else if keys[0] in KeptProfiles {
      var rest := keys[1..];
      assert Run(img, ProfileOps(keys)) == goal by {
        DroppedCons(keys);
        assert ProfileOps(keys) == ProfileOps(rest);
        assert Dropped(keys) == Dropped(rest);
        RunProfileOps(img, rest);
      }
    } else {
      var k, rest := keys[0], keys[1..];
      var next := img.(profiles := Without(img.profiles, {k}));
      assert Run(img, ProfileOps(keys)) == goal by {
        DroppedCons(keys);
        assert ProfileOps(keys) == [RemoveProfile(k)] + ProfileOps(rest);
        RunRemoveThen(img, k, ProfileOps(rest));
        RunProfileOps(next, rest);
        WithoutWithout(img.profiles, {k}, Dropped(rest));
      }
    }
  }

  /** A removal followed by more commands runs the removal first. */
  lemma RunRemoveThen(img: Image, k: string, tail: seq<Op>)
    ensures Run(img, [RemoveProfile(k)] + tail) == Run(img.(profiles := Without(img.profiles, {k})), tail)
  {
    var next := img.(profiles := Without(img.profiles, {k}));
    assert Apply(img, RemoveProfile(k)) == next;
    RunCons(img, RemoveProfile(k), tail);
  }

  /** The keys a non-empty listing drops: its head unless kept, and those of its tail. */
  lemma DroppedCons(keys: seq<string>)
    requires |keys| > 0
    ensures Dropped(keys) == (if keys[0] in KeptProfiles then {} else {keys[0]}) + Dropped(keys[1..])
  {
  }

  /** After the profile loop over the record's own listing, the profiles left
      are exactly the listed ones named icc or icm. */
  lemma ProfileLoopKeepsOnlyColorProfiles(img: Image)
    ensures var out := Run(img, ProfileOps(img.profiles));
      && out.(profiles := img.profiles) == img
      && (forall k :: k in out.profiles <==> k in img.profiles && (k == "icc" || k == "icm"))
      && RemoveProfile("icc") !in ProfileOps(img.profiles)
      && RemoveProfile("icm") !in ProfileOps(img.profiles)
  {
    RunProfileOps(img, img.profiles);
    WithoutContains(img.profiles, Dropped(img.profiles));
    var ops := ProfileOps(img.profiles);
    assert forall i :: 0 <= i < |ops| ==> ops[i].name !in KeptProfiles;
  }

  /** Each removal in `ops`, issued from `img` on, names a profile the record
      holds at that moment; the engine fails on a removal that finds none. */
  predicate RemovalsFindProfile(img: Image, ops: seq<Op>)
    decreases |ops|
  {
    |ops| == 0
    || ((ops[0].RemoveProfile? ==> ops[0].name in img.profiles)
        && RemovalsFindProfile(Apply(img, ops[0]), ops[1..]))
  }

  /** A loop over distinct keys the record holds finds each profile it removes. */
  lemma {:induction false} ProfileOpsFindProfiles(img: Image, keys: seq<string>)
    requires Distinct(keys)
    requires forall k :: k in keys ==> k in img.profiles
    ensures RemovalsFindProfile(img, ProfileOps(keys))
    decreases |keys|
  {
    if |keys| > 0 {
      var k, rest := keys[0], keys[1..];
      assert Distinct(rest);
      if k in KeptProfiles {
        assert ProfileOps(keys) == ProfileOps(rest);
        ProfileOpsFindProfiles(img, rest);
      } else {
        var next := img.(profiles := Without(img.profiles, {k}));
        var ops := ProfileOps(keys);
        assert ops == [RemoveProfile(k)] + ProfileOps(rest);
        assert ops[1..] == ProfileOps(rest);
        assert Apply(img, ops[0]) == next;
        WithoutContains(img.profiles, {k});
        assert k !in rest;
        ProfileOpsFindProfiles(next, rest);
      }
    }
  }

  /** On a record that stands for an engine state, the profile loop over its
      own listing never removes a profile that is already gone. */
  lemma ProfileLoopFindsEveryProfile(img: Image)
    requires Canonical(img)
    ensures RemovalsFindProfile(img, ProfileOps(img.profiles))
  {
    ProfileOpsFindProfiles(img, img.profiles);
  }

  /** A listing with a repeated key, which no engine state has, makes the loop
      remove that key twice, and the second removal finds nothing. */
  lemma RepeatedListingRemovesTwice(img: Image)
    requires img.profiles == ["exif", "exif"]
    ensures ProfileOps(img.profiles) == [RemoveProfile("exif"), RemoveProfile("exif")]
    ensures !RemovalsFindProfile(img, ProfileOps(img.profiles))
  {
    var ops := ProfileOps(img.profiles);
    assert img.profiles[1..] == ["exif"];
    assert ["exif"][1..] == [];
    assert ops == [RemoveProfile("exif"), RemoveProfile("exif")];
    var next := Apply(img, ops[0]);
    WithoutContains(img.profiles, {"exif"});
    assert "exif" !in next.profiles;
  }

  /** The property step for names `names`: delete each one, or, when the engine
      cannot delete properties, set each one to the empty string. */
  function PropertyOps(names: seq<PropertyName>, canDelete: bool): (ops: seq<Op>)
    ensures |ops| == |names|
    ensures forall i :: 0 <= i < |ops| ==>
      (if canDelete then ops[i] == DeleteProperty(names[i]) else ops[i] == SetProperty(names[i], ""))
  {
    if |names| == 0 then []
    else [if canDelete then DeleteProperty(names[0]) else SetProperty(names[0], "")]
         + PropertyOps(names[1..], canDelete)
  }

  /** The property map after the names in `names` are deleted or blanked. */
  function Cleared(m: map<PropertyName, string>, names: set<PropertyName>, canDelete: bool): map<PropertyName, string>
  {
    if canDelete then m - names else m + map n | n in names :: ""
  }

  /** Clearing the same names twice is clearing them once. */
  lemma ClearedTwice(m: map<PropertyName, string>, names: set<PropertyName>, canDelete: bool)
    ensures Cleared(Cleared(m, names, canDelete), names, canDelete) == Cleared(m, names, canDelete)
  {
  }

  /** Running the property step is clearing the names in the property map. */
  lemma {:induction false} RunPropertyOps(img: Image, names: seq<PropertyName>, canDelete: bool)
    ensures Run(img, PropertyOps(names, canDelete))
      == img.(properties := Cleared(img.properties, (set n | n in names), canDelete))
    decreases |names|
  {
    var goal := img.(properties := Cleared(img.properties, (set n | n in names), canDelete));
    if |names| == 0 {
      assert Run(img, PropertyOps(names, canDelete)) == goal by {
        assert (set n | n in names) == {};
        assert Cleared(img.properties, {}, canDelete) == img.properties;
      }
    } else {
      var n0 := names[0];
      var op := if canDelete then DeleteProperty(n0) else SetProperty(n0, "");
      var rest := set n | n in names[1..];
      var next := img.(properties := if canDelete then img.properties - {n0} else img.properties[n0 := ""]);
      assert Run(img, PropertyOps(names, canDelete)) == goal by {
        assert names == [n0] + names[1..];
        assert (set n | n in names) == {n0} + rest;
        assert PropertyOps(names, canDelete) == [op] + PropertyOps(names[1..], canDelete);
        RunPropertyThen(img, n0, canDelete, PropertyOps(names[1..], canDelete));
        RunPropertyOps(next, names[1..], canDelete);
        ClearedCons(img.properties, n0, rest, canDelete);
      }
    }
  }

  /** One property command followed by more commands runs that command first. */
  lemma RunPropertyThen(img: Image, n0: PropertyName, canDelete: bool, tail: seq<Op>)
    ensures Run(img, [if canDelete then DeleteProperty(n0) else SetProperty(n0, "")] + tail)
      == Run(img.(properties := if canDelete then img.properties - {n0} else img.properties[n0 := ""]), tail)
  {
  }

  /** Clearing one name and then a set is clearing their union. */
  lemma ClearedCons(m: map<PropertyName, string>, n0: PropertyName, rest: set<PropertyName>, canDelete: bool)
    ensures Cleared(if canDelete then m - {n0} else m[n0 := ""], rest, canDelete)
         == Cleared(m, {n0} + rest, canDelete)
  {
  }

  /** Deleting and blanking read the same: each cleared name reads as empty and
      every other property keeps its presence and value. */
  lemma ClearedPropertiesReadEmpty(img: Image, canDelete: bool)
    ensures var out := Run(img, PropertyOps(ClearedProperties, canDelete));
      && out.(properties := img.properties) == img
      && PropertiesCleared(img, out, ClearedNames)
  {
    RunPropertyOps(img, ClearedProperties, canDelete);
  }

  /** The steps before the profile loop: alpha, depth 8, no interlace. */
  function PrepareOps(alpha: AlphaChannel): seq<Op>
  {
    AlphaOps(alpha) + [SetDepth(OutputDepth), SetInterlace(NoInterlace)]
  }

  /** Sharpening, posterize without dither and compression quality. */
  function SharpenOps(optim: bool): seq<Op>
  {
    [Sharpening(optim), Posterize(PosterizeLevels, false), SetCompressionQuality(OutputQuality)]
  }

  /** The second interlace reset, sRGB, and the strip when `optim` is false. */
  function ClosingOps(optim: bool): seq<Op>
  {
    [SetInterlace(NoInterlace), SetColorspace(SRGB)] + (if optim then [] else [Strip])
  }

  /** The commands after the property step. */
  function FinishOps(optim: bool): seq<Op>
  {
    SharpenOps(optim) + EncoderOptionOps() + ClosingOps(optim)
  }

  /** The normalisation commands for an image whose alpha reads `alpha` and
      whose profile listing, at the time of the loop, is `listing`. */
  function NormalizeOps(alpha: AlphaChannel, listing: seq<string>, optim: bool, canDelete: bool): (t: seq<Op>)
    ensures |t| == |AlphaOps(alpha)| + |ProfileOps(listing)| + |ClearedProperties| + (if optim then 12 else 13)
  {
    PrepareOps(alpha) + ProfileOps(listing) + PropertyOps(ClearedProperties, canDelete) + FinishOps(optim)
  }

  /** The normalisation of `img`: the commands, with the profile listing read
      after the preparation step as the source reads it, and the record they leave. */
  function Normalize(img: Image, optim: bool, canDelete: bool): (r: Outcome)
    ensures r.trace == NormalizeOps(img.alpha, img.profiles, optim, canDelete)
    ensures r.image == Expected(img, optim, canDelete)
  {
    var listing := Run(img, PrepareOps(img.alpha)).profiles;
    RunPrepareOps(img);
    RunNormalizeOps(img, optim, canDelete);
    var trace := NormalizeOps(img.alpha, listing, optim, canDelete);
    Outcome(trace, Run(img, trace))
  }

  /** The record a normalisation should leave, stated field by field. */
  function Expected(img: Image, optim: bool, canDelete: bool): Image
  {
    var cleared := Cleared(img.properties, ClearedNames, canDelete);
    img.(
      alpha := NormalizedAlpha(img.alpha),
      depth := OutputDepth,
      interlace := NoInterlace,
      profiles := if optim then Without(img.profiles, Dropped(img.profiles)) else [],
      properties := if optim then cleared else cleared - StrippedProperties,
      options := WithEncoderOptions(img.options),
      quality := OutputQuality,
      colorspace := SRGB)
  }

  /** The preparation step sets the alpha by the no-channel rule, depth 8
      and no interlace, and touches nothing else. */
  lemma RunPrepareOps(img: Image)
    ensures Run(img, PrepareOps(img.alpha))
      == img.(alpha := NormalizedAlpha(img.alpha), depth := OutputDepth, interlace := NoInterlace)
  {
    var tail := [SetDepth(OutputDepth), SetInterlace(NoInterlace)];
    var a := Run(img, AlphaOps(img.alpha));
    RunAppend(img, AlphaOps(img.alpha), tail);
    if !HasAlphaChannel(img.alpha) {
      RunSingle(img, SetAlphaChannel(Opaque));
    }
    assert a == img.(alpha := NormalizedAlpha(img.alpha));
    RunCons(a, SetDepth(OutputDepth), [SetInterlace(NoInterlace)]);
    RunSingle(Apply(a, SetDepth(OutputDepth)), SetInterlace(NoInterlace));
  }

  /** Sharpening and posterize leave the record; the quality becomes 82. */
  lemma RunSharpenOps(img: Image, optim: bool)
    ensures Run(img, SharpenOps(optim)) == img.(quality := OutputQuality)
  {
    var p := Posterize(PosterizeLevels, false);
    var q := SetCompressionQuality(OutputQuality);
    RunCons(img, Sharpening(optim), [p, q]);
    assert Apply(img, Sharpening(optim)) == img;
    RunCons(img, p, [q]);
    RunSingle(img, q);
  }

  /** The encoder option commands set the five options and nothing else. */
  lemma RunEncoderOptionOps(img: Image)
    ensures Run(img, EncoderOptionOps()) == img.(options := WithEncoderOptions(img.options))
  {
  }

  /** The closing commands set no interlace and sRGB; without `optim` the strip
      also drops every profile and the comment and date properties. */
  lemma RunClosingOps(img: Image, optim: bool)
    ensures Run(img, ClosingOps(optim))
      == (var set2 := img.(interlace := NoInterlace, colorspace := SRGB);
          if optim then set2 else set2.(profiles := [], properties := img.properties - StrippedProperties))
  {
    var i1 := Apply(img, SetInterlace(NoInterlace));
    var tail := if optim then [] else [Strip];
    RunCons(img, SetInterlace(NoInterlace), [SetColorspace(SRGB)] + tail);
    RunCons(i1, SetColorspace(SRGB), tail);
    if !optim {
      RunSingle(Apply(i1, SetColorspace(SRGB)), Strip);
    }
  }

  /** The commands after the property step leave the record as `Expected` says. */
  lemma RunFinishOps(img: Image, optim: bool)
    ensures Run(img, FinishOps(optim))
      == (var set2 := img.(quality := OutputQuality, options := WithEncoderOptions(img.options),
                           interlace := NoInterlace, colorspace := SRGB);
          if optim then set2 else set2.(profiles := [], properties := img.properties - StrippedProperties))
  {
    RunAppend(img, SharpenOps(optim) + EncoderOptionOps(), ClosingOps(optim));
    RunAppend(img, SharpenOps(optim), EncoderOptionOps());
    RunSharpenOps(img, optim);
    RunEncoderOptionOps(img.(quality := OutputQuality));
    RunClosingOps(img.(quality := OutputQuality, options := WithEncoderOptions(img.options)), optim);
  }

  /** Running the normalisation commands leaves exactly the `Expected` record. */
  lemma RunNormalizeOps(img: Image, optim: bool, canDelete: bool)
    ensures Run(img, NormalizeOps(img.alpha, img.profiles, optim, canDelete)) == Expected(img, optim, canDelete)
  {
    var prepare := PrepareOps(img.alpha);
    var profiles := ProfileOps(img.profiles);
    var props := PropertyOps(ClearedProperties, canDelete);
    var finish := FinishOps(optim);
    var prepared := Run(img, prepare);
    RunPrepareOps(img);
    var profiled := Run(prepared, profiles);
    RunProfileOps(prepared, img.profiles);
    var cleared := Run(profiled, props);
    RunPropertyOps(profiled, ClearedProperties, canDelete);
    RunFinishOps(cleared, optim);
    RunAppend(img, prepare, profiles);
    RunAppend(img, prepare + profiles, props);
    RunAppend(img, prepare + profiles + props, finish);
  }

  /** What a caller of the normalisation can observe: alpha opaque exactly when
      no channel was reported, depth 8, no interlace, quality 82, sRGB, the encoder
      options set; with `optim`, only icc/icm profiles left and the nine
      properties reading empty with the others unchanged; without it, no
      profiles, the nine properties and the date properties reading empty, the
      comment and date properties gone, and the others unchanged. */
  lemma NormalizeObservations(img: Image, optim: bool, canDelete: bool)
    ensures var out := Normalize(img, optim, canDelete).image;
      && out.width == img.width && out.height == img.height
      && (!HasAlphaChannel(img.alpha) ==> out.alpha == Opaque)
      && (HasAlphaChannel(img.alpha) ==> out.alpha == img.alpha)
      && out.depth == 8 && out.interlace == NoInterlace && out.quality == 82 && out.colorspace == SRGB
      && EncoderOptionsSet(out.options)
      && (optim ==>
            && (forall k :: k in out.profiles <==> k in img.profiles && (k == "icc" || k == "icm"))
            && PropertiesCleared(img, out, ClearedNames))
      && (!optim ==>
            && out.profiles == []
            && PropertiesCleared(img, out, ClearedNames + StrippedProperties)
            && (forall n :: n in StrippedProperties ==> n !in out.properties))
  {
    ExpectedObservations(img, optim, canDelete);
  }

  /** The five encoder options hold the values betterResize sets. */
  predicate EncoderOptionsSet(options: map<OptionKey, string>)
  {
    && JpegFancyUpsampling in options && options[JpegFancyUpsampling] == "off"
    && PngCompressionFilter in options && options[PngCompressionFilter] == "5"
    && PngCompressionLevel in options && options[PngCompressionLevel] == "9"
    && PngCompressionStrategy in options && options[PngCompressionStrategy] == "1"
    && PngExcludeChunk in options && options[PngExcludeChunk] == "all"
  }

  /** The names in `names` read as empty in `after`; every other property keeps
      its presence and value from `before`. */
  ghost predicate PropertiesCleared(before: Image, after: Image, names: set<PropertyName>)
  {
    && (forall n :: n in names ==> PropertyValue(after, n) == "")
    && (forall n :: n !in names ==>
          (n in after.properties <==> n in before.properties) && PropertyValue(after, n) == PropertyValue(before, n))
  }

  /** The `Expected` record has the encoder options set, and the profiles and
      properties a caller of the normalisation observes. */
  lemma ExpectedObservations(img: Image, optim: bool, canDelete: bool)
    ensures var out := Expected(img, optim, canDelete);
      && EncoderOptionsSet(out.options)
      && (optim ==>
            && (forall k :: k in out.profiles <==> k in img.profiles && (k == "icc" || k == "icm"))
            && PropertiesCleared(img, out, ClearedNames))
      && (!optim ==>
            && PropertiesCleared(img, out, ClearedNames + StrippedProperties)
            && (forall n :: n in StrippedProperties ==> n !in out.properties))
  {
    if optim {
      WithoutContains(img.profiles, Dropped(img.profiles));
    }
  }

  /** Normalising a normalised record changes nothing further. */
  lemma NormalizeIdempotent(img: Image, optim: bool, canDelete: bool)
    ensures var once := Normalize(img, optim, canDelete).image;
      Normalize(once, optim, canDelete).image == once
  {
    ExpectedIdempotent(img, optim, canDelete);
  }

  /** `Expected` is a fixed point of itself. */
  lemma ExpectedIdempotent(img: Image, optim: bool, canDelete: bool)
    ensures var once := Expected(img, optim, canDelete);
      Expected(once, optim, canDelete) == once
  {
    var once := Expected(img, optim, canDelete);
    if optim {
      WithoutContains(img.profiles, Dropped(img.profiles));
      assert Dropped(once.profiles) == {};
      WithoutAbsent(once.profiles, {});
      ClearedTwice(img.properties, ClearedNames, canDelete);
    } else {
      StrippedClearedTwice(img.properties, canDelete);
    }
    assert WithEncoderOptions(once.options) == once.options;
  }


  /** Clearing the nine names and dropping the stripped ones is a fixed point. */
  lemma StrippedClearedTwice(m: map<PropertyName, string>, canDelete: bool)
    ensures var once := Cleared(m, ClearedNames, canDelete) - StrippedProperties;
      Cleared(once, ClearedNames, canDelete) - StrippedProperties == once
  {
  }

  /** Normalising a record that stands for an engine state gives one again. */
  lemma ExpectedKeepsCanonical(img: Image, optim: bool, canDelete: bool)
    requires Canonical(img)
    ensures Canonical(Expected(img, optim, canDelete))
  {
    var out := Expected(img, optim, canDelete);
    if optim {
      WithoutDistinct(img.profiles, Dropped(img.profiles));
    }
    forall k | k in out.options && k.OtherOption?
      ensures !SpelledAs(k.key, OptionSpellings)
    {
      assert k in img.options;
    }
    forall n | n in out.properties && n.OtherProperty?
      ensures !SpelledAs(n.name, PropertySpellings)
    {
      assert n in img.properties;
    }
  }

  /** A command of the normalisation trace with the arguments the source
      passes: opaque alpha, depth 8, no interlace, removal of a listed profile
      other than icc/icm, deletion or blanking of one of the nine properties,
      the unsharp mask chosen by `optim`, posterize to 136 levels without
      dither, quality 82, one of the five encoder options, sRGB, and strip only
      when `optim` is false. */
  predicate NormalizationCommand(op: Op, optim: bool, listing: seq<string>)
  {
    match op
    case SetAlphaChannel(a) => a == Opaque
    case SetDepth(d) => d == OutputDepth
    case SetInterlace(i) => i == NoInterlace
    case RemoveProfile(k) => k in listing && k !in KeptProfiles
    case DeleteProperty(n) => n in ClearedProperties
    case SetProperty(n, v) => n in ClearedProperties && v == ""
    case UnsharpMask(_, _, _, _) => op == Sharpening(optim)
    case Posterize(levels, dither) => levels == PosterizeLevels && !dither
    case SetCompressionQuality(q) => q == OutputQuality
    case SetOption(_, _) => op in EncoderOptionOps()
    case SetColorspace(cs) => cs == SRGB
    case Strip => !optim
    case Resize(_, _, _, _) => false
    case Sample(_, _) => false
  }

  /** Every command of `ops` is a normalisation command. */
  predicate AllCommands(ops: seq<Op>, optim: bool, listing: seq<string>)
  {
    forall op :: op in ops ==> NormalizationCommand(op, optim, listing)
  }

  /** A concatenation holds only normalisation commands when both parts do. */
  lemma AllCommandsConcat(a: seq<Op>, b: seq<Op>, optim: bool, listing: seq<string>)
    ensures AllCommands(a + b, optim, listing) <==> AllCommands(a, optim, listing) && AllCommands(b, optim, listing)
  {
  }

  /** The preparation commands are normalisation commands. */
  lemma PrepareCommands(alpha: AlphaChannel, optim: bool, listing: seq<string>)
    ensures AllCommands(PrepareOps(alpha), optim, listing)
  {
  }

  /** The profile loop's removals are normalisation commands. */
  lemma ProfileCommands(listing: seq<string>, optim: bool)
    ensures AllCommands(ProfileOps(listing), optim, listing)
  {
  }

  /** The property commands are normalisation commands. */
  lemma PropertyCommands(canDelete: bool, optim: bool, listing: seq<string>)
    ensures AllCommands(PropertyOps(ClearedProperties, canDelete), optim, listing)
  {
  }

  /** The commands after the property step are normalisation commands. */
  lemma FinishCommands(optim: bool, listing: seq<string>)
    ensures AllCommands(FinishOps(optim), optim, listing)
  {
  }

  /** Every command of the normalisation trace is a normalisation command with
      the source's arguments; in particular it never resizes or samples. */
  lemma NormalizeOpsArguments(alpha: AlphaChannel, listing: seq<string>, optim: bool, canDelete: bool)
    ensures forall op :: op in NormalizeOps(alpha, listing, optim, canDelete) ==> NormalizationCommand(op, optim, listing)
  {
    var a, b, c, d := PrepareOps(alpha), ProfileOps(listing), PropertyOps(ClearedProperties, canDelete), FinishOps(optim);
    PrepareCommands(alpha, optim, listing);
    ProfileCommands(listing, optim);
    PropertyCommands(canDelete, optim, listing);
    FinishCommands(optim, listing);
    AllCommandsConcat(a, b, optim, listing);
    AllCommandsConcat(a + b, c, optim, listing);
    AllCommandsConcat(a + b + c, d, optim, listing);
    assert AllCommands(NormalizeOps(alpha, listing, optim, canDelete), optim, listing);
  }

  /** Membership in a concatenation of four parts. */
  lemma InConcat(x: Op, a: seq<Op>, b: seq<Op>, c: seq<Op>, d: seq<Op>)
    ensures x in a + b + c + d <==> x in a || x in b || x in c || x in d
  {
  }

  /** The steps before the profile loop: depth 8 always, opaque alpha exactly
      when no channel is reported, no strip, and last the interlace reset. */
  lemma PrepareContents(alpha: AlphaChannel)
    ensures var p := PrepareOps(alpha);
      && SetDepth(8) in p && Strip !in p
      && (SetAlphaChannel(Opaque) in p <==> !HasAlphaChannel(alpha))
      && |p| > 0 && p[|p| - 1] == SetInterlace(NoInterlace)
      && forall op :: op in p ==> !MetadataCommand(op)
  {
  }

  /** The profile and property steps issue neither alpha nor strip commands. */
  lemma MiddleHasNoAlphaOrStrip(listing: seq<string>, canDelete: bool)
    ensures SetAlphaChannel(Opaque) !in ProfileOps(listing) && Strip !in ProfileOps(listing)
    ensures SetAlphaChannel(Opaque) !in PropertyOps(ClearedProperties, canDelete)
    ensures Strip !in PropertyOps(ClearedProperties, canDelete)
  {
  }

  /** The finishing commands: the unsharp mask, posterize, quality and sRGB
      always, no alpha command, a strip only when `optim` is false, and last
      either sRGB or the strip. */
  lemma FinishContents(optim: bool)
    ensures var f := FinishOps(optim);
      && Sharpening(optim) in f && Posterize(136, false) in f
      && SetCompressionQuality(82) in f && SetColorspace(SRGB) in f
      && SetAlphaChannel(Opaque) !in f
      && (Strip in f <==> !optim)
      && |f| > 8 && f[8] == SetInterlace(NoInterlace)
      && f[|f| - 1] == (if optim then SetColorspace(SRGB) else Strip)
  {
  }

  /** The commands the normalisation trace always or conditionally contains:
      opaque alpha exactly when no channel was reported, depth 8, the unsharp
      mask chosen by `optim`, posterize, quality 82 and sRGB always, and a strip,
      as the last command, exactly when `optim` is false (sRGB is last otherwise). */
  lemma NormalizeOpsContents(alpha: AlphaChannel, listing: seq<string>, optim: bool, canDelete: bool)
    ensures var t := NormalizeOps(alpha, listing, optim, canDelete);
      && (SetAlphaChannel(Opaque) in t <==> !HasAlphaChannel(alpha))
      && SetDepth(8) in t
      && (optim ==> UnsharpMask(0.25, 0.08, 8.3, 0.045) in t)
      && (!optim ==> UnsharpMask(0.25, 0.25, 8.0, 0.065) in t)
      && Posterize(136, false) in t
      && SetCompressionQuality(82) in t
      && SetColorspace(SRGB) in t
      && (Strip in t <==> !optim)
      && t[|t| - 1] == (if optim then SetColorspace(SRGB) else Strip)
  {
    var a, b, c, d := PrepareOps(alpha), ProfileOps(listing), PropertyOps(ClearedProperties, canDelete), FinishOps(optim);
    var t := a + b + c + d;
    assert NormalizeOps(alpha, listing, optim, canDelete) == t;
    FinishContents(optim);
    MiddleHasNoAlphaOrStrip(listing, canDelete);
    PrepareContents(alpha);
    InConcat(SetAlphaChannel(Opaque), a, b, c, d);
    InConcat(Strip, a, b, c, d);
    InConcat(SetDepth(8), a, b, c, d);
    InConcat(Sharpening(optim), a, b, c, d);
    InConcat(Posterize(136, false), a, b, c, d);
    InConcat(SetCompressionQuality(82), a, b, c, d);
    InConcat(SetColorspace(SRGB), a, b, c, d);
    assert t[|t| - 1] == d[|d| - 1];
  }

  /** A command that removes a profile or deletes or sets a property. */
  predicate MetadataCommand(op: Op)
  {
    op.RemoveProfile? || op.DeleteProperty? || op.SetProperty?
  }

  /** Two interlace resets in `t` enclose every metadata command of `t`. */
  predicate InterlaceBracketed(t: seq<Op>)
  {
    exists first, second ::
      && 0 <= first < second < |t|
      && t[first] == SetInterlace(NoInterlace) && t[second] == SetInterlace(NoInterlace)
      && forall i :: 0 <= i < |t| && MetadataCommand(t[i]) ==> first < i < second
  }

  /** When the parts before and after `b + c` hold no metadata command, the
      last command before it and the ninth after it enclose every metadata
      command of the whole. */
  lemma EnclosedByInterlace(p: seq<Op>, b: seq<Op>, c: seq<Op>, f: seq<Op>)
    requires |p| > 0 && p[|p| - 1] == SetInterlace(NoInterlace)
    requires |f| > 8 && f[8] == SetInterlace(NoInterlace)
    requires forall op :: op in p ==> !MetadataCommand(op)
    requires forall op :: op in f ==> !MetadataCommand(op)
    ensures InterlaceBracketed(p + b + c + f)
  {
    var t := p + b + c + f;
    var first, second := |p| - 1, |p| + |b| + |c| + 8;
    assert t[first] == SetInterlace(NoInterlace);
    assert t[second] == f[8];
    forall i | 0 <= i < |t| && MetadataCommand(t[i])
      ensures first < i < second
    {
    }
  }

  /** No metadata command among the finishing commands. */
  lemma FinishHasNoMetadata(optim: bool)
    ensures forall op :: op in FinishOps(optim) ==> !MetadataCommand(op)
  {
  }

  /** The two interlace resets enclose every profile and property command. */
  lemma NormalizeOpsInterlaceBrackets(alpha: AlphaChannel, listing: seq<string>, optim: bool, canDelete: bool)
    ensures InterlaceBracketed(NormalizeOps(alpha, listing, optim, canDelete))
  {
    var p, b, c, f := PrepareOps(alpha), ProfileOps(listing), PropertyOps(ClearedProperties, canDelete), FinishOps(optim);
    FinishContents(optim);
    FinishHasNoMetadata(optim);
    PrepareContents(alpha);
    EnclosedByInterlace(p, b, c, f);
  }
}
