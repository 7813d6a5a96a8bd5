/**
 The raster engine that Respimg extends (Imagick), reduced to the part of its
 state that betterResize reads or writes. Pixels are not modelled: a command
 that only changes pixels (unsharp mask, posterize) leaves the record as it is,
 and resize/sample only change the recorded size.
 */
module Engine {

  /** The alpha-channel mode of the image: `Undefined` when it was never set,
      otherwise the mode it was last set to. The engine does not report the
      mode; it only reports whether a channel is present (`HasAlphaChannel`). */
  datatype AlphaChannel = Undefined | Activate | Deactivate | Opaque | Transparent

  /** Whether the engine reports an alpha channel: an undefined or a
      deactivated channel reads as none. */
  predicate HasAlphaChannel(alpha: AlphaChannel)
  {
    alpha != Undefined && alpha != Deactivate
  }

  /** Interlace schemes used when the image is written. */
  datatype Interlace = UndefinedInterlace | NoInterlace | LineInterlace | PlaneInterlace | PartitionInterlace

  /** Colorspaces the object can be set to. */
  datatype Colorspace = UndefinedColorspace | RGB | SRGB | Gray | CMYK

  /** Resampling kernels the engine's resize accepts. */
  datatype Filter =
    | Point | Box | Triangle | Hermite | Hanning | Hamming | Blackman | Gaussian
    | Quadratic | Cubic | Catrom | Mitchell | Lanczos | Bessel | Sinc

  /** Object options betterResize sets, by the key the engine spells; any
      other key is `OtherOption`. */
  datatype OptionKey =
    | FilterSupport            // filter:support
    | JpegFancyUpsampling      // jpeg:fancy-upsampling
    | PngCompressionFilter     // png:compression-filter
    | PngCompressionLevel      // png:compression-level
    | PngCompressionStrategy   // png:compression-strategy
    | PngExcludeChunk          // png:exclude-chunk
    | OtherOption(key: string)

  /** Image properties betterResize clears, by the name the engine spells; any
      other property is `OtherProperty`. */
  datatype PropertyName =
    | Comment              // comment
    | ThumbUri             // Thumb::URI
    | ThumbMTime           // Thumb::MTime
    | ThumbSize            // Thumb::Size
    | ThumbMimetype        // Thumb::Mimetype
    | Software             // software
    | ThumbImageWidth      // Thumb::Image::Width
    | ThumbImageHeight     // Thumb::Image::Height
    | ThumbDocumentPages   // Thumb::Document::Pages
    | DateCreate           // date:create
    | DateModify           // date:modify
    | OtherProperty(name: string)

  /** The spellings `OptionKey` names. */
  const OptionSpellings: set<string> := {
    "filter:support", "jpeg:fancy-upsampling", "png:compression-filter",
    "png:compression-level", "png:compression-strategy", "png:exclude-chunk"}

  /** The spellings `PropertyName` names. */
  const PropertySpellings: set<string> := {
    "comment", "Thumb::URI", "Thumb::MTime", "Thumb::Size", "Thumb::Mimetype",
    "software", "Thumb::Image::Width", "Thumb::Image::Height",
    "Thumb::Document::Pages", "date:create", "date:modify"}

  /** The properties the engine's strip deletes besides the profiles. */
  const StrippedProperties: set<PropertyName> := {Comment, DateCreate, DateModify}

  /** One engine call, with the arguments it was issued with. */
  datatype Op =
    | SetOption(key: OptionKey, value: string)
    | Sample(columns: nat, rows: nat)
    | Resize(columns: nat, rows: nat, filter: Filter, blur: real)
    | SetAlphaChannel(alpha: AlphaChannel)
    | SetDepth(depth: nat)
    | SetInterlace(scheme: Interlace)
    | RemoveProfile(name: string)
    | DeleteProperty(property: PropertyName)
    | SetProperty(property: PropertyName, value: string)
    | UnsharpMask(radius: real, sigma: real, amount: real, threshold: real)
    | Posterize(levels: nat, dither: bool)
    | SetCompressionQuality(quality: nat)
    | SetColorspace(colorspace: Colorspace)
    | Strip

  /** The engine state: current size, alpha, depth, interlace, the embedded
      profiles in the order the engine lists them, the image properties, the
      object options, the compression quality and the colorspace. */
  datatype Image = Image(
    width: nat,
    height: nat,
    alpha: AlphaChannel,
    depth: nat,
    interlace: Interlace,
    profiles: seq<string>,
    properties: map<PropertyName, string>,
    options: map<OptionKey, string>,
    quality: nat,
    colorspace: Colorspace)

  /** `c` with an ASCII capital turned into its small letter. */
  function LowerChar(c: char): char
  {
    if 'A' <= c <= 'Z' then (c as int + 32) as char else c
  }

  /** `s` with its ASCII capitals turned into small letters. */
  function Lower(s: string): string
  {
    if |s| == 0 then [] else [LowerChar(s[0])] + Lower(s[1..])
  }

  /** `name` is one of `spellings` when letter case is ignored, as the engine
      compares names. */
  predicate SpelledAs(name: string, spellings: set<string>)
  {
    exists s :: s in spellings && Lower(s) == Lower(name)
  }

  /** No key occurs twice in `s`, letter case ignored. */
  predicate Distinct(s: seq<string>)
  {
    forall i, j :: 0 <= i < j < |s| ==> Lower(s[i]) != Lower(s[j])
  }

  /** A record that stands for an engine state. The engine keeps profiles,
      properties and options by name, ignoring letter case. So no profile is
      listed twice in any case, and a key or name spelled, in any case, like
      one of the named ones is that one, never an `OtherOption` or
      `OtherProperty`. */
  predicate Canonical(img: Image)
  {
    && Distinct(img.profiles)
    && (forall k :: k in img.options ==> !(k.OtherOption? && SpelledAs(k.key, OptionSpellings)))
    && (forall n :: n in img.properties ==> !(n.OtherProperty? && SpelledAs(n.name, PropertySpellings)))
  }

  /** The commands an operation issued, in order, and the record they leave. */
  datatype Outcome = Outcome(trace: seq<Op>, image: Image)

  /** The keys of `s`, in order, except those in `drop`. */
  function Without(s: seq<string>, drop: set<string>): seq<string>
  {
    if |s| == 0 then []
    else (if s[0] in drop then [] else [s[0]]) + Without(s[1..], drop)
  }

  /** `Without` keeps exactly the keys of `s` outside `drop`. */
  lemma {:induction false} WithoutContains(s: seq<string>, drop: set<string>)
    ensures forall k :: k in Without(s, drop) <==> k in s && k !in drop
  {
    if |s| > 0 {
      WithoutContains(s[1..], drop);
      assert s == [s[0]] + s[1..];
    }
  }

  /** Dropping `a` and then `b` is dropping both at once. */
  lemma {:induction false} WithoutWithout(s: seq<string>, a: set<string>, b: set<string>)
    ensures Without(Without(s, a), b) == Without(s, a + b)
  {
    if |s| > 0 {
      WithoutWithout(s[1..], a, b);
      var rest := Without(s[1..], a);
      if s[0] in a {
        assert Without(s, a) == rest;
      } else {
        assert Without(s, a) == [s[0]] + rest;
        assert (Without(s, a))[1..] == rest;
      }
    }
  }

  /** A property spelled `Software` is the engine's `software` property, so a
      record holding it as an `OtherProperty` stands for no engine state. */
  lemma CapitalisedSoftwareNotCanonical(img: Image)
    requires OtherProperty("Software") in img.properties
    ensures !Canonical(img)
  {
    assert Lower("software") == Lower("Software");
    assert SpelledAs("Software", PropertySpellings);
  }

  /** Dropping keys from a listing without repeats leaves one without repeats. */
  lemma {:induction false} WithoutDistinct(s: seq<string>, drop: set<string>)
    requires Distinct(s)
    ensures Distinct(Without(s, drop))
  {
    if |s| > 0 {
      var rest := Without(s[1..], drop);
      WithoutDistinct(s[1..], drop);
      WithoutContains(s[1..], drop);
      var w := (if s[0] in drop then [] else [s[0]]) + rest;
      assert Without(s, drop) == w;
      forall i, j | 0 <= i < j < |w|
        ensures Lower(w[i]) != Lower(w[j])
      {
        if s[0] !in drop && i == 0 {
          assert w[j] == rest[j - 1];
          assert w[j] in s[1..];
          var m :| 0 <= m < |s[1..]| && s[1..][m] == w[j];
          assert s[m + 1] == w[j];
        }
      }
    }
  }

  /** Dropping keys that do not occur changes nothing. */
  lemma {:induction false} WithoutAbsent(s: seq<string>, drop: set<string>)
    requires forall k :: k in s ==> k !in drop
    ensures Without(s, drop) == s
  {
    if |s| > 0 {
      WithoutAbsent(s[1..], drop);
      assert [s[0]] + s[1..] == s;
    }
  }

  /** The value a property reads as: an absent property reads as empty. */
  function PropertyValue(img: Image, name: PropertyName): string
  {
    if name in img.properties then img.properties[name] else ""
  }

  /** The effect of one engine call on the record. */
  function Apply(img: Image, op: Op): (r: Image)
    ensures !(op.Resize? || op.Sample?) ==> r.width == img.width && r.height == img.height
    ensures !op.SetOption? ==> r.options == img.options
    ensures !(op.RemoveProfile? || op.Strip?) ==> r.profiles == img.profiles
    ensures op.UnsharpMask? || op.Posterize? ==> r == img
  {
    match op
    case SetOption(k, v) => img.(options := img.options[k := v])
    case Sample(c, r) => img.(width := c, height := r)
    case Resize(c, r, _, _) => img.(width := c, height := r)
    case SetAlphaChannel(a) => img.(alpha := a)
    case SetDepth(d) => img.(depth := d)
    case SetInterlace(i) => img.(interlace := i)
    case RemoveProfile(k) => img.(profiles := Without(img.profiles, {k}))
    case DeleteProperty(n) => img.(properties := img.properties - {n})
    case SetProperty(n, v) => img.(properties := img.properties[n := v])
    case UnsharpMask(_, _, _, _) => img
    case Posterize(_, _) => img
    case SetCompressionQuality(q) => img.(quality := q)
    case SetColorspace(cs) => img.(colorspace := cs)
    case Strip => img.(profiles := [], properties := img.properties - StrippedProperties)
  }

  /** The record after the calls in `ops`, issued in order. Only a resize or
      a sample changes the size, and only an option command the options. */
  function Run(img: Image, ops: seq<Op>): (r: Image)
    ensures (forall i :: 0 <= i < |ops| ==> !ops[i].Resize? && !ops[i].Sample?)
      ==> r.width == img.width && r.height == img.height
    ensures (forall i :: 0 <= i < |ops| ==> !ops[i].SetOption?) ==> r.options == img.options
    decreases |ops|
  {
    if |ops| == 0 then img else Run(Apply(img, ops[0]), ops[1..])
  }

  /** Issuing `a` then `b` is issuing `a + b`. */
  lemma {:induction false} RunAppend(img: Image, a: seq<Op>, b: seq<Op>)
    ensures Run(img, a + b) == Run(Run(img, a), b)
    decreases |a|
  {
    if |a| > 0 {
      assert (a + b)[0] == a[0];
      assert (a + b)[1..] == a[1..] + b;
      RunAppend(Apply(img, a[0]), a[1..], b);
    } else {
      assert a + b == b;
    }
  }

  /** A call followed by more calls runs the first call first. */
  lemma RunCons(img: Image, op: Op, tail: seq<Op>)
    ensures Run(img, [op] + tail) == Run(Apply(img, op), tail)
  {
  }

  /** A single call runs as `Apply`. */
  lemma RunSingle(img: Image, op: Op)
    ensures Run(img, [op]) == Apply(img, op)
  {
  }
}
