/** The backbone selector of models/backbone.py: checking a configuration
    (architecture name, input shape, pretrained weights), deriving the effective
    trainable flag, and dispatching the name to one of three feature extractors.
    The Keras applications themselves are represented by an architecture tag. */
module Backbone {
  import opened Wrappers

  /** The three Keras applications the selector can build. */
  datatype Arch = DenseNet121 | MobileNetV3Small | EfficientNetB0

  /** The names the constructor accepts, in the order it lists them. */
  const SupportedNames: seq<string> := ["densenet121", "mobilenetv3", "effnetb0"]

  /** The only pretrained-weights identifier accepted besides `None`. */
  const ImageNet: string := "imagenet"

  /** Why construction fails: the three assertions, in the order they are checked. */
  datatype ConfigError =
    | UnknownBackbone(name: string)
    | InputShapeNotRank3(inputShape: seq<int>)
    | UnsupportedWeights(weights: string)

  predicate IsUpper(c: char)
  {
    'A' <= c <= 'Z'
  }

  /** Python's `str.lower()`, on ASCII letters. */
  function Lower(s: string): (r: string)
    ensures |r| == |s|
  {
    if s == [] then []
    else
      var c := if IsUpper(s[0]) then (s[0] as int + 32) as char else s[0];
      [c] + Lower(s[1..])
  }

  /** Lower-casing maps each capital to its lower-case letter and keeps every
      other character. */
  lemma {:induction false} LowerAt(s: string, i: nat)
    requires i < |s|
    ensures !IsUpper(s[i]) ==> Lower(s)[i] == s[i]
    ensures IsUpper(s[i]) ==> Lower(s)[i] as int == s[i] as int + 32
    ensures !IsUpper(Lower(s)[i])
  {
    if i > 0 {
      LowerAt(s[1..], i - 1);
    }
  }

  /** Lower-casing leaves a string without capitals as it is. */
  lemma LowerKeepsLowerCase(s: string)
    requires forall i :: 0 <= i < |s| ==> !IsUpper(s[i])
    ensures Lower(s) == s
  {
    forall i | 0 <= i < |s| ensures Lower(s)[i] == s[i] { LowerAt(s, i); }
  }

  /** Lower-casing twice is lower-casing once. */
  lemma LowerIdempotent(s: string)
    ensures Lower(Lower(s)) == Lower(s)
  {
    forall i | 0 <= i < |s| ensures !IsUpper(Lower(s)[i]) { LowerAt(s, i); }
    LowerKeepsLowerCase(Lower(s));
  }

  /** The lower-case name the dispatch matches for each architecture. */
  function NameOf(arch: Arch): string
  {
    match arch
    case DenseNet121 => "densenet121"
    case MobileNetV3Small => "mobilenetv3"
    case EfficientNetB0 => "effnetb0"
  }

  /** `import_backbone`'s if/elif chain on `name.lower()`: the architecture whose
      name is the lower-cased `name`, or `None` when there is none. */
  function ArchFor(name: string): (arch: Option<Arch>)
    ensures arch.Some? ==> NameOf(arch.value) == Lower(name)
    ensures arch.None? <==> Lower(name) !in SupportedNames
  {
    var n := Lower(name);
    if n == "densenet121" then Some(DenseNet121)
    else if n == "mobilenetv3" then Some(MobileNetV3Small)
    else if n == "effnetb0" then Some(EfficientNetB0)
    else None
  }

  /** Each architecture is reached from its own name: the dispatch and `NameOf`
      are inverse to each other. */
  lemma ArchForNameOf(arch: Arch)
    ensures ArchFor(NameOf(arch)) == Some(arch)
  {
    var n := NameOf(arch);
    assert forall i :: 0 <= i < |n| ==> !IsUpper(n[i]);
    LowerKeepsLowerCase(n);
    assert Lower(n) == n;
  }

  /** The dispatch ignores case: "DenseNet121" reaches the same architecture as
      "densenet121". */
  lemma ArchForIgnoresCase(name: string)
    ensures ArchFor(Lower(name)) == ArchFor(name)
  {
    LowerIdempotent(name);
  }

  /** The three assertions of the constructor, all passing. */
  predicate ValidConfig(name: string, inputShape: seq<int>, weights: Option<string>)
  {
    && name in SupportedNames
    && |inputShape| == 3
    && (weights == None || weights == Some(ImageNet))
  }

  /** The assertion the constructor fails on, if any: the name first, then the
      input shape, then the weights. */
  function ValidationError(name: string, inputShape: seq<int>, weights: Option<string>): (err: Option<ConfigError>)
    ensures err.None? <==> ValidConfig(name, inputShape, weights)
    ensures name !in SupportedNames ==> err == Some(UnknownBackbone(name))
    ensures name in SupportedNames && |inputShape| != 3 ==> err == Some(InputShapeNotRank3(inputShape))
    ensures name in SupportedNames && |inputShape| == 3 && weights.Some? && weights.value != ImageNet ==>
              err == Some(UnsupportedWeights(weights.value))
    ensures err.Some? && err.value.UnknownBackbone? ==> name !in SupportedNames
    ensures err.Some? && err.value.InputShapeNotRank3? ==> name in SupportedNames && |inputShape| != 3
    ensures err.Some? && err.value.UnsupportedWeights? ==>
              name in SupportedNames && |inputShape| == 3 && weights.Some? && weights.value != ImageNet
  {
    if name !in SupportedNames then Some(UnknownBackbone(name))
    else if |inputShape| != 3 then Some(InputShapeNotRank3(inputShape))
    else if weights.Some? && weights.value != ImageNet then Some(UnsupportedWeights(weights.value))
    else None
  }

  /** The trainable flag the backbone gets: the requested one when pretrained
      weights are loaded, and always true for randomly initialised weights. */
  function EffectiveTrainable(weights: Option<string>, trainable: bool): (r: bool)
    ensures r <==> trainable || weights.None?
  {
    if weights.Some? then trainable else true
  }

  /** A name that passes validation is already lower case and always reaches an
      architecture: the `None` branch of the dispatch is dead after validation. */
  lemma ValidatedNameDispatches(name: string, inputShape: seq<int>, weights: Option<string>)
    requires ValidConfig(name, inputShape, weights)
    ensures ArchFor(name).Some? && NameOf(ArchFor(name).value) == name
  {
    if name == "densenet121" {
      ArchForNameOf(DenseNet121);
    } else if name == "mobilenetv3" {
      ArchForNameOf(MobileNetV3Small);
    } else {
      ArchForNameOf(EfficientNetB0);
    }
  }

  /** A Keras application built without its classification head (`include_top=False`). */
  class Extractor {
    const arch: Arch
    const weights: Option<string>
    const inputShape: seq<int>
    const includeTop: bool
    var trainable: bool

    /** A freshly built Keras model is trainable. */
    constructor (arch: Arch, weights: Option<string>, inputShape: seq<int>)
      ensures this.arch == arch && this.weights == weights && this.inputShape == inputShape
      ensures !includeTop && trainable
    {
      this.arch := arch;
      this.weights := weights;
      this.inputShape := inputShape;
      includeTop := false;
      trainable := true;
    }
  }

  class Backbone {
    const backboneName: string
    const inputShape: seq<int>
    const backboneWeights: Option<string>
    const backboneTrainable: bool
    var model: Extractor?

    /** `Backbone(name, input_shape, weights, trainable)` once its assertions have
        passed: stores the arguments, derives the trainable flag, builds the model
        and hands it the flag. */
    constructor (name: string, inputShape: seq<int>, weights: Option<string>, trainable: bool)
      requires ValidConfig(name, inputShape, weights)
      ensures backboneName == name && this.inputShape == inputShape && backboneWeights == weights
      ensures backboneTrainable == EffectiveTrainable(weights, trainable)
      ensures model != null && fresh(model)
      ensures NameOf(model.arch) == name && model.weights == weights && model.inputShape == inputShape
      ensures !model.includeTop && model.trainable == backboneTrainable
    {
      backboneName := name;
      this.inputShape := inputShape;
      backboneWeights := weights;
      if weights.Some? {
        backboneTrainable := trainable;
      } else {
        backboneTrainable := true;
      }
      new;
      ValidatedNameDispatches(name, inputShape, weights);
      model := ImportBackbone();
      if model != null {
        model.trainable := backboneTrainable;
      }
    }

    /** `import_backbone`: builds the architecture the name dispatches to, with the
        stored weights and input shape, or nothing when the name matches none. */
    method ImportBackbone() returns (m: Extractor?)
      ensures m == null <==> ArchFor(backboneName).None?
      ensures m != null ==> fresh(m) && Some(m.arch) == ArchFor(backboneName)
      ensures m != null ==> m.weights == backboneWeights && m.inputShape == inputShape
      ensures m != null ==> !m.includeTop && m.trainable
    {
      match ArchFor(backboneName)
      case Some(arch) =>
        m := new Extractor(arch, backboneWeights, inputShape);
      case None =>
        m := null;
    }
  }

  /** Calling `Backbone(name, input_shape, weights, trainable)`: fails with the first
      assertion that does not hold, building nothing, and otherwise returns a
      backbone whose model is never missing. */
  method NewBackbone(name: string, inputShape: seq<int>, weights: Option<string>, trainable: bool)
    returns (r: Result<Backbone, ConfigError>)
    ensures r.Err? <==> !ValidConfig(name, inputShape, weights)
    ensures r.Err? ==> ValidationError(name, inputShape, weights) == Some(r.error)
    ensures r.Ok? ==> fresh(r.value) && r.value.backboneName == name && r.value.inputShape == inputShape
    ensures r.Ok? ==> r.value.backboneWeights == weights
    ensures r.Ok? ==> r.value.backboneTrainable == (trainable || weights.None?)
    ensures r.Ok? ==> r.value.model != null && fresh(r.value.model)
    ensures r.Ok? ==> NameOf(r.value.model.arch) == name && r.value.model.weights == weights
    ensures r.Ok? ==> r.value.model.inputShape == inputShape && !r.value.model.includeTop
    ensures r.Ok? ==> r.value.model.trainable == r.value.backboneTrainable
  {
    match ValidationError(name, inputShape, weights)
    case Some(e) =>
      r := Err(e);
    case None =>
      var b := new Backbone(name, inputShape, weights, trainable);
      r := Ok(b);
  }
}
