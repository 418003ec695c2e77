/** The dataset builder of utils/dataset.py: where a sample's class label and
    image codec come from, how the label is one-hot encoded, which processing
    stages an image goes through, and in which order the files are visited.

    Images are described symbolically, by the stages that produced them; the
    filesystem (directory listing and glob) and the random generator behind the
    shuffle are inputs. */
module Dataset {
  import opened Wrappers
  import opened Strings

  /** The two decoders `decode_image` chooses between. */
  datatype Codec = PNG | JPEG

  /** Height and width an image is resized to (`target_size`, `target_shape`). */
  datatype Size = Size(height: nat, width: nat)

  const DefaultTargetSize: Size := Size(224, 224)

  /** An image, recorded as the stages that produced it: decoding the bytes of
      `file` with `codec` (three channels), resizing, the external training
      augmentation, and the division by 255. */
  datatype Image =
    | Decoded(codec: Codec, file: string)
    | Resized(source: Image, size: Size)
    | Augmented(source: Image)
    | Scaled(source: Image)

  /** A processing stage applied after decoding. */
  datatype Stage = Resize(size: Size) | Augment | Scale

  /** The decoding an image started from. */
  function Origin(img: Image): (r: Image)
    ensures r.Decoded?
  {
    match img
    case Decoded(_, _) => img
    case Resized(source, _) => Origin(source)
    case Augmented(source) => Origin(source)
    case Scaled(source) => Origin(source)
  }

  /** The stages applied to the decoded image, first to last. */
  function Stages(img: Image): seq<Stage>
  {
    match img
    case Decoded(_, _) => []
    case Resized(source, size) => Stages(source) + [Resize(size)]
    case Augmented(source) => Stages(source) + [Augment]
    case Scaled(source) => Stages(source) + [Scale]
  }

  /** An image is determined by its decoding and its list of stages, so a contract
      on both pins the image down. */
  lemma {:induction false} SameHistory(a: Image, b: Image)
    requires Origin(a) == Origin(b) && Stages(a) == Stages(b)
    ensures a == b
  {
    match a
    case Decoded(_, _) =>
      assert !b.Decoded? ==> |Stages(b)| > 0;
    case Resized(source, _) =>
      assert !b.Decoded?;
      assert Stages(source) == Stages(a)[..|Stages(a)| - 1] == Stages(b.source);
      SameHistory(source, b.source);
    case Augmented(source) =>
      assert !b.Decoded?;
      assert Stages(source) == Stages(a)[..|Stages(a)| - 1] == Stages(b.source);
      SameHistory(source, b.source);
    case Scaled(source) =>
      assert !b.Decoded?;
      assert Stages(source) == Stages(a)[..|Stages(a)| - 1] == Stages(b.source);
      SameHistory(source, b.source);
  }

  /** One element of the decoded or processed stream: an image and its one-hot label. */
  datatype Sample = Sample(image: Image, encoded: seq<int>)

  /** Taking the label of a path with no parent directory segment fails (TensorFlow
      raises when the element is produced). */
  datatype DecodeError = NoParentDirectory(path: string)

  type Element = Result<Sample, DecodeError>

  // ---------------------------------------------------------------------------
  // decode_image
  // ---------------------------------------------------------------------------

  /** The class label of a file: the second-to-last `/`-separated segment of its
      path, i.e. the name of its parent directory. */
  function LabelOf(path: string): (className: Option<string>)
    ensures className.Some? <==> '/' in path
    ensures className.Some? ==> '/' !in className.value
  {
    var parts := Split(path, '/');
    if |parts| < 2 then None else Some(parts[|parts| - 2])
  }

  /** A file stored as `<dir>/<className>/<file>`, or as `<className>/<file>`, is labelled
      with the name of the directory that holds it, whatever `dir` is. */
  lemma LabelOfParent(dir: string, className: string, file: string)
    requires '/' !in className && '/' !in file
    ensures LabelOf(dir + "/" + className + "/" + file) == Some(className)
    ensures LabelOf(className + "/" + file) == Some(className)
  {
    SplitAppend(dir, '/', className);
    SplitAppend(dir + "/" + className, '/', file);
    SplitAppend(className, '/', file);
  }

  /** The extension of a file: the last `.`-separated segment of its path. It is
      the longest dot-free suffix of the path, and the whole path when there is
      no dot at all. */
  function ExtensionOf(path: string): (ext: string)
    ensures '.' !in ext
    ensures |ext| <= |path| && path[|path| - |ext|..] == ext
    ensures '.' !in path ==> ext == path
    ensures '.' in path ==> |ext| < |path| && path[|path| - |ext| - 1] == '.'
  {
    var parts := Split(path, '.');
    LastSegment(path, '.');
    parts[|parts| - 1]
  }

  /** A file named `<stem>.<ext>` has extension `ext`, whatever dots `stem` holds. */
  lemma ExtensionOfName(stem: string, ext: string)
    requires '.' !in ext
    ensures ExtensionOf(stem + "." + ext) == ext
  {
    SplitAppend(stem, '.', ext);
  }

  /** The decoder for an extension: JPEG exactly for "jpeg" and "jpg", PNG for
      "png" and, as a fallback, for every other extension. Never fails. */
  function CodecFor(ext: string): (codec: Codec)
    ensures codec == JPEG <==> ext == "jpeg" || ext == "jpg"
    ensures ext == "png" ==> codec == PNG
  {
    if ext == "png" then PNG
    else if ext == "jpeg" || ext == "jpg" then JPEG
    else PNG
  }

  /** `tf.cast(label == labels, tf.float32)`: the element-wise equality test of the
      label against the label list, with 1 for equal and 0 otherwise. */
  function OneHot(className: string, labels: seq<string>): (v: seq<int>)
    ensures |v| == |labels|
    ensures forall i :: 0 <= i < |v| ==> (v[i] == 1 <==> labels[i] == className)
    ensures forall i :: 0 <= i < |v| ==> (v[i] == 0 <==> labels[i] != className)
  {
    seq(|labels|, i requires 0 <= i < |labels| => if labels[i] == className then 1 else 0)
  }

  function Sum(v: seq<int>): int
  {
    if v == [] then 0 else v[0] + Sum(v[1..])
  }

  /** The entries of the encoded label add up to the number of times the label
      occurs in the label list. */
  lemma {:induction false} OneHotSum(className: string, labels: seq<string>)
    ensures Sum(OneHot(className, labels)) == multiset(labels)[className]
  {
    if labels != [] {
      OneHotSum(className, labels[1..]);
      assert OneHot(className, labels)[1..] == OneHot(className, labels[1..]);
      assert labels == [labels[0]] + labels[1..];
    }
  }

  /** Against a list of distinct labels the encoding is one-hot exactly when the
      label is listed, and all zeros when it is not. */
  lemma OneHotOfDistinct(className: string, labels: seq<string>)
    requires Distinct(labels)
    ensures Sum(OneHot(className, labels)) == (if className in labels then 1 else 0)
    ensures className !in labels ==> forall i :: 0 <= i < |labels| ==> OneHot(className, labels)[i] == 0
  {
    OneHotSum(className, labels);
    DistinctCounts(labels, className);
  }

  /** Against distinct labels, the single 1 stands at the label's own position. */
  lemma OneHotPosition(className: string, labels: seq<string>, k: nat)
    requires Distinct(labels)
    requires k < |labels| && labels[k] == className
    ensures forall i :: 0 <= i < |labels| ==> OneHot(className, labels)[i] == (if i == k then 1 else 0)
  {
    forall i | 0 <= i < |labels| && i != k ensures labels[i] != className {
      if i < k { assert labels[i] != labels[k]; } else { assert labels[k] != labels[i]; }
    }
  }

  /** `decode_image(path, labels)`: the image decoded with the codec the extension
      selects, and the one-hot encoding of the parent directory's name. */
  function DecodeImage(path: string, labels: seq<string>): (r: Element)
    ensures r.Err? <==> '/' !in path
  {
    match LabelOf(path)
    case None => Err(NoParentDirectory(path))
    case Some(className) => Ok(Sample(Decoded(CodecFor(ExtensionOf(path)), path), OneHot(className, labels)))
  }

  /** For a file laid out as `<root>/<className>/<stem>.<ext>`, decoding picks the codec
      from `ext` and encodes `className`; against a distinct label list that holds
      `className` the encoded label has a single 1, at the label's position. */
  lemma DecodeImageOfLayout(root: string, className: string, stem: string, ext: string, labels: seq<string>)
    requires '/' !in className && '/' !in stem && '/' !in ext && '.' !in ext
    ensures var path := root + "/" + className + "/" + stem + "." + ext;
            DecodeImage(path, labels) == Ok(Sample(Decoded(CodecFor(ext), path), OneHot(className, labels)))
    ensures Distinct(labels) && className in labels ==>
              Sum(DecodeImage(root + "/" + className + "/" + stem + "." + ext, labels).value.encoded) == 1
  {
    var path := root + "/" + className + "/" + stem + "." + ext;
    assert path == root + "/" + className + "/" + (stem + "." + ext);
    LabelOfParent(root, className, stem + "." + ext);
    assert path == (root + "/" + className + "/" + stem) + "." + ext;
    ExtensionOfName(root + "/" + className + "/" + stem, ext);
    if Distinct(labels) && className in labels {
      OneHotOfDistinct(className, labels);
    }
  }

  // ---------------------------------------------------------------------------
  // process_image and aug_fn
  // ---------------------------------------------------------------------------

  /** How many times the external augmentation was applied to produce `img`: the
      `Augment` entries of its stage list. */
  function AugmentationCount(img: Image): nat
  {
    multiset(Stages(img))[Augment]
  }

  /** `aug_fn`: the training-only gate in front of the external augmentation. */
  function AugFn(image: Image, isTraining: bool): (r: Image)
    ensures !isTraining ==> r == image
    ensures Origin(r) == Origin(image)
    ensures Stages(r) == Stages(image) + (if isTraining then [Augment] else [])
    ensures AugmentationCount(r) == AugmentationCount(image) + (if isTraining then 1 else 0)
  {
    if isTraining then Augmented(image) else image
  }

  /** `process_image`: resize, augment when training, scale by 1/255; the label
      passes through untouched. */
  function ProcessImage(image: Image, labelEncoded: seq<int>, targetSize: Size := DefaultTargetSize,
                        isTraining: bool := false): (r: Sample)
    ensures r.encoded == labelEncoded
    ensures r.image.Scaled?
    ensures Origin(r.image) == Origin(image)
    ensures Stages(r.image) == Stages(image) + [Resize(targetSize)] + (if isTraining then [Augment] else []) + [Scale]
    ensures AugmentationCount(r.image) == AugmentationCount(image) + (if isTraining then 1 else 0)
    ensures !isTraining ==> r.image == Scaled(Resized(image, targetSize))
    ensures isTraining ==> r.image == Scaled(Augmented(Resized(image, targetSize)))
  {
    var img := Resized(image, targetSize);
    var img := AugFn(img, isTraining);
    Sample(Scaled(img), labelEncoded)
  }

  // ---------------------------------------------------------------------------
  // The shuffle and the two `map` stages
  // ---------------------------------------------------------------------------

  /** `tf.random.shuffle` on the file list, driven by the generator's draws: each
      step moves the file at position `draw % remaining` to the front of the
      result (missing draws count as 0). */
  function Shuffle(files: seq<string>, draws: seq<nat>): (r: seq<string>)
    ensures multiset(r) == multiset(files)
    decreases |files|
  {
    if files == [] then []
    else
      var draw := if draws == [] then 0 else draws[0];
      var k := if draw < |files| then draw else draw % |files|;
      var rest := files[..k] + files[k + 1..];
      assert files == files[..k] + [files[k]] + files[k + 1..];
      [files[k]] + Shuffle(rest, if draws == [] then [] else draws[1..])
  }

  /** Taking the file at position `k` out of the list takes exactly one copy of it
      out of the multiset of files. */
  lemma RemoveAt(files: seq<string>, k: nat)
    requires k < |files|
    ensures multiset(files[..k] + files[k + 1..]) == multiset(files) - multiset{files[k]}
  {
    assert files == files[..k] + [files[k]] + files[k + 1..];
  }

  /** A draw that names position `k` moves the file at `k` to the front, ahead of
      the shuffle of the others. */
  lemma ShuffleStep(files: seq<string>, k: nat, draws: seq<nat>, p: seq<string>)
    requires k < |files| && p != [] && files[k] == p[0]
    requires Shuffle(files[..k] + files[k + 1..], draws) == p[1..]
    ensures Shuffle(files, [k] + draws) == p
  {
    assert ([k] + draws)[1..] == draws;
    assert [p[0]] + p[1..] == p;
  }

  /** The position of the first occurrence of `x` in `s`. */
  function IndexOf(s: seq<string>, x: string): (k: nat)
    requires x in s
    ensures k < |s| && s[k] == x
  {
    if s[0] == x then 0 else 1 + IndexOf(s[1..], x)
  }

  /** A rearrangement of a non-empty file list is non-empty, and its first file is
      one of the files. */
  lemma FirstOfRearrangement(files: seq<string>, p: seq<string>)
    requires multiset(p) == multiset(files) && files != []
    ensures p != [] && p[0] in files
  {
    assert |p| == |multiset(p)| == |multiset(files)|;
    assert p[0] in multiset(p);
  }

  /** Taking the same file out of both lists keeps them rearrangements of each other. */
  lemma RestOfRearrangement(files: seq<string>, p: seq<string>, k: nat)
    requires multiset(p) == multiset(files)
    requires k < |files| && p != [] && files[k] == p[0]
    ensures multiset(p[1..]) == multiset(files[..k] + files[k + 1..])
  {
    RemoveAt(files, k);
    assert p == [p[0]] + p[1..];
  }

  /** The draw that brings `p`'s first file to the front: its position among the
      files. The other files stay a rearrangement of the rest of `p`. */
  function FirstDraw(files: seq<string>, p: seq<string>): (k: nat)
    requires multiset(p) == multiset(files) && files != []
    ensures k < |files| && p != [] && files[k] == p[0]
    ensures multiset(p[1..]) == multiset(files[..k] + files[k + 1..])
  {
    FirstOfRearrangement(files, p);
    var k := IndexOf(files, p[0]);
    RestOfRearrangement(files, p, k);
    k
  }

  /** Draws under which the shuffle puts `files` into the order `p`. */
  function DrawsFor(files: seq<string>, p: seq<string>): seq<nat>
    requires multiset(p) == multiset(files)
    decreases |files|
  {
    if files == [] then []
    else
      var k := FirstDraw(files, p);
      [k] + DrawsFor(files[..k] + files[k + 1..], p[1..])
  }

  /** The shuffle model is not narrower than "some permutation": every
      rearrangement `p` of the files comes out, under the draws `DrawsFor(files, p)`. */
  lemma {:induction false} EveryOrderReachable(files: seq<string>, p: seq<string>)
    requires multiset(p) == multiset(files)
    ensures Shuffle(files, DrawsFor(files, p)) == p
    decreases |files|
  {
    if files == [] {
      assert |p| == |multiset(p)| == 0;
    } else {
      var k := FirstDraw(files, p);
      var rest := files[..k] + files[k + 1..];
      EveryOrderReachable(rest, p[1..]);
      ShuffleStep(files, k, DrawsFor(rest, p[1..]), p);
    }
  }

  /** `ds.map(partial(decode_image, labels=labels))` on a file list. */
  function DecodeAll(files: seq<string>, labels: seq<string>): (r: seq<Element>)
    ensures |r| == |files|
    ensures forall i :: 0 <= i < |files| ==> (r[i].Err? <==> '/' !in files[i])
    ensures forall i :: 0 <= i < |files| && r[i].Ok? ==>
              r[i].value.image == Decoded(CodecFor(ExtensionOf(files[i])), files[i])
  {
    seq(|files|, i requires 0 <= i < |files| => DecodeImage(files[i], labels))
  }

  /** `decode_ds.map(partial(process_image, ...))`: a failed element stays failed. */
  function ProcessAll(decoded: seq<Element>, targetSize: Size, isTraining: bool): (r: seq<Element>)
    ensures |r| == |decoded|
    ensures forall i :: 0 <= i < |decoded| && decoded[i].Err? ==> r[i] == decoded[i]
    ensures forall i :: 0 <= i < |decoded| && decoded[i].Ok? ==>
              && r[i].Ok?
              && r[i].value.encoded == decoded[i].value.encoded
              && Origin(r[i].value.image) == Origin(decoded[i].value.image)
              && Stages(r[i].value.image) == Stages(decoded[i].value.image) + [Resize(targetSize)]
                   + (if isTraining then [Augment] else []) + [Scale]
  {
    seq(|decoded|, i requires 0 <= i < |decoded| =>
      match decoded[i]
      case Ok(s) => Ok(ProcessImage(s.image, s.encoded, targetSize, isTraining))
      case Err(e) => Err(e))
  }

  /** What the fully processed stream holds, element by element: one element per
      file in visiting order, failing exactly for a path without a parent
      directory, otherwise carrying the file's one-hot label and an image the
      augmentation touched once in training mode and never otherwise. */
  lemma ProcessedStream(files: seq<string>, labels: seq<string>, targetSize: Size, isTraining: bool)
    ensures var out := ProcessAll(DecodeAll(files, labels), targetSize, isTraining);
            && |out| == |files|
            && (forall i :: 0 <= i < |files| ==> (out[i].Err? <==> '/' !in files[i]))
            && (forall i :: 0 <= i < |files| && out[i].Ok? ==>
                  && out[i].value.encoded == OneHot(LabelOf(files[i]).value, labels)
                  && AugmentationCount(out[i].value.image) == (if isTraining then 1 else 0))
  {
  }

  // ---------------------------------------------------------------------------
  // The Dataset class
  // ---------------------------------------------------------------------------

  /** What the class keeps in `ds`: a `tf.data` stream of file paths after
      `read_files`, and the stream of processed samples after `map_files`. */
  datatype Pipeline = Files(paths: seq<string>) | Samples(elements: seq<Element>)

  /** `tf.data.AUTOTUNE`, the one non-positive `num_parallel_calls` a parallel
      `map` accepts. */
  const Autotune: int := -1

  /** `tf.image.resize` converts the target size to int32. */
  const Int32Limit: int := 0x8000_0000

  /** Why building the dataset raises inside `map_files`, in the order the failures
      arise:
      - the glob matched no file: the empty list becomes a float32 tensor, and
        `map` rejects `decode_image` while tracing it, because `tf.io.read_file`
        accepts only a string path;
      - `num_parallel_calls` is neither positive nor `AUTOTUNE`: the parallel
        `map` refuses it;
      - a target dimension does not fit in int32: `tf.image.resize` rejects it
        while `process_image` is traced. */
  datatype BuildError =
    | NoMatchingFiles
    | InvalidParallelism(numParallelCalls: int)
    | TargetSizeOutOfRange(targetShape: Size)

  predicate ValidParallelism(numParallelCalls: int)
  {
    numParallelCalls > 0 || numParallelCalls == Autotune
  }

  predicate FitsInt32(size: Size)
  {
    size.height < Int32Limit && size.width < Int32Limit
  }

  /** The error `map_files` raises on the file list `files`, if any. */
  function BuildErrorOf(files: seq<string>, numParallelCalls: int, targetShape: Size): (err: Option<BuildError>)
    ensures err.None? <==> files != [] && ValidParallelism(numParallelCalls) && FitsInt32(targetShape)
    ensures files == [] ==> err == Some(NoMatchingFiles)
    ensures files != [] && !ValidParallelism(numParallelCalls) ==> err == Some(InvalidParallelism(numParallelCalls))
    ensures files != [] && ValidParallelism(numParallelCalls) && !FitsInt32(targetShape) ==>
              err == Some(TargetSizeOutOfRange(targetShape))
    ensures err.Some? && err.value.InvalidParallelism? ==> files != [] && !ValidParallelism(numParallelCalls)
    ensures err.Some? && err.value.TargetSizeOutOfRange? ==>
              files != [] && ValidParallelism(numParallelCalls) && !FitsInt32(targetShape)
  {
    if files == [] then Some(NoMatchingFiles)
    else if !ValidParallelism(numParallelCalls) then Some(InvalidParallelism(numParallelCalls))
    else if !FitsInt32(targetShape) then Some(TargetSizeOutOfRange(targetShape))
    else None
  }

  class Dataset {
    const path: string
    const extensionType: string
    const numParallelCalls: int
    const randomSeed: int
    const isTraining: bool
    const targetShape: Size
    const shuffle: bool
    const labels: seq<string>
    var ds: Pipeline
    var decodeDs: seq<Element>

    /** `Dataset(path, extension_type, num_parallel_calls, random_seed=1,
        is_training=False, target_shape=(224, 224))`. `listing` is what
        `tf.io.gfile.listdir(path)` returns, `globbed` what the glob for
        `<path>/<any directory>/<any name>.<extension_type>` returns, and `draws` the random
        generator's output for the shuffle. The source raises when `map_files`
        fails (`BuildErrorOf`); `NewDataset` models that call. */
    constructor (path: string, extensionType: string, numParallelCalls: int,
                 listing: seq<string>, globbed: seq<string>, draws: seq<nat>,
                 randomSeed: int := 1, isTraining: bool := false, targetShape: Size := DefaultTargetSize)
      requires BuildErrorOf(globbed, numParallelCalls, targetShape).None?
      ensures this.path == path && this.extensionType == extensionType
      ensures this.numParallelCalls == numParallelCalls && this.randomSeed == randomSeed
      ensures this.isTraining == isTraining && this.targetShape == targetShape
      ensures shuffle <==> randomSeed > 0
      ensures labels == Sort(listing) && Sorted(labels) && multiset(labels) == multiset(listing)
      ensures decodeDs == DecodeAll(if shuffle then Shuffle(globbed, draws) else globbed, labels)
      ensures ds == Samples(ProcessAll(decodeDs, targetShape, isTraining))
    {
      this.path := path;
      this.extensionType := extensionType;
      this.numParallelCalls := numParallelCalls;
      this.randomSeed := randomSeed;
      this.isTraining := isTraining;
      this.targetShape := targetShape;
      if randomSeed > 0 {
        shuffle := true;
      } else {
        shuffle := false;
      }
      labels := Sort(listing);
      new;
      ds := ReadFiles(globbed, draws);
      var decoded := MapFiles();
      decodeDs := decoded.value;
    }

    /** `read_files`: the globbed files, in glob order without shuffling and
        rearranged by the shuffle otherwise; the same files either way. */
    method ReadFiles(globbed: seq<string>, draws: seq<nat>) returns (r: Pipeline)
      ensures r.Files?
      ensures multiset(r.paths) == multiset(globbed) && |r.paths| == |globbed|
      ensures !shuffle ==> r.paths == globbed
      ensures shuffle ==> r.paths == Shuffle(globbed, draws)
    {
      var files := globbed;
      if shuffle {
        files := Shuffle(files, draws);
      }
      assert |multiset(files)| == |multiset(globbed)|;
      r := Files(files);
    }

    /** `map_files`: decodes the file stream against the labels, replaces `ds` with
        the processed stream and returns the decoded one. It raises, leaving `ds`
        as it was, with the error `BuildErrorOf` names. */
    method MapFiles() returns (r: Result<seq<Element>, BuildError>)
      requires ds.Files?
      modifies this`ds
      ensures r.Err? <==> BuildErrorOf(old(ds).paths, numParallelCalls, targetShape).Some?
      ensures r.Err? ==> Some(r.error) == BuildErrorOf(old(ds).paths, numParallelCalls, targetShape) && ds == old(ds)
      ensures r.Ok? ==> r.value == DecodeAll(old(ds).paths, labels)
      ensures r.Ok? ==> ds == Samples(ProcessAll(r.value, targetShape, isTraining))
    {
      var err := BuildErrorOf(ds.paths, numParallelCalls, targetShape);
      if err.Some? {
        return Err(err.value);
      }
      var decoded := DecodeAll(ds.paths, labels);
      ds := Samples(ProcessAll(decoded, targetShape, isTraining));
      r := Ok(decoded);
    }
  }

  /** Calling `Dataset(...)`: fails exactly when `map_files` raises on the globbed
      files, with that error, and otherwise returns the dataset the constructor
      builds. */
  method NewDataset(path: string, extensionType: string, numParallelCalls: int,
                    listing: seq<string>, globbed: seq<string>, draws: seq<nat>,
                    randomSeed: int := 1, isTraining: bool := false, targetShape: Size := DefaultTargetSize)
    returns (r: Result<Dataset, BuildError>)
    ensures r.Err? <==> BuildErrorOf(globbed, numParallelCalls, targetShape).Some?
    ensures r.Err? ==> Some(r.error) == BuildErrorOf(globbed, numParallelCalls, targetShape)
    ensures r.Ok? ==> fresh(r.value) && r.value.path == path && r.value.extensionType == extensionType
    ensures r.Ok? ==> r.value.shuffle == (randomSeed > 0) && r.value.labels == Sort(listing)
    ensures r.Ok? ==> r.value.numParallelCalls == numParallelCalls && r.value.randomSeed == randomSeed
    ensures r.Ok? ==> r.value.isTraining == isTraining && r.value.targetShape == targetShape
    ensures r.Ok? ==> r.value.decodeDs == DecodeAll(if r.value.shuffle then Shuffle(globbed, draws) else globbed, r.value.labels)
    ensures r.Ok? ==> r.value.ds == Samples(ProcessAll(r.value.decodeDs, targetShape, isTraining))
  {
    var err := BuildErrorOf(globbed, numParallelCalls, targetShape);
    if err.Some? {
      return Err(err.value);
    }
    var d := new Dataset(path, extensionType, numParallelCalls, listing, globbed, draws,
                         randomSeed, isTraining, targetShape);
    r := Ok(d);
  }

  /** A built dataset, as its contract fixes it: the processed stream has one
      element per globbed file; without shuffling the files keep the glob order;
      with distinct directory entries the labels are distinct too; an evaluation
      dataset never reaches the augmentation. */
  lemma BuiltDataset(d: Dataset, listing: seq<string>, globbed: seq<string>, draws: seq<nat>)
    requires d.labels == Sort(listing)
    requires d.decodeDs == DecodeAll(if d.shuffle then Shuffle(globbed, draws) else globbed, d.labels)
    requires d.ds == Samples(ProcessAll(d.decodeDs, d.targetShape, d.isTraining))
    ensures |d.ds.elements| == |globbed|
    ensures !d.shuffle ==> forall i :: 0 <= i < |globbed| ==> d.decodeDs[i] == DecodeImage(globbed[i], d.labels)
    ensures Distinct(listing) ==> Distinct(d.labels)
    ensures !d.isTraining ==>
              forall i :: 0 <= i < |d.ds.elements| && d.ds.elements[i].Ok? ==>
                AugmentationCount(d.ds.elements[i].value.image) == 0
  {
    var files := if d.shuffle then Shuffle(globbed, draws) else globbed;
    assert |multiset(files)| == |multiset(globbed)|;
    ProcessedStream(files, d.labels, d.targetShape, d.isTraining);
    if Distinct(listing) {
      DistinctPermutation(listing, d.labels);
    }
  }
}
