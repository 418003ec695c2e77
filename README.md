# Image-classification harness: dataset labelling and backbone selection

This project models the decision logic of a small image-classification harness
built on TensorFlow/Keras, and proves properties of it in Dafny.

The harness has two parts that hold logic of their own.

- **The dataset builder** (`utils/dataset.py`). It lists a root directory that
  holds one sub-directory per class. The sorted listing becomes the label list.
  It globs the image files and shuffles them when the random seed is positive.
  For each file it then:
  - takes the class label from the parent directory segment of the path;
  - picks the PNG or JPEG decoder from the extension;
  - one-hot encodes the label against the label list;
  - resizes the image, augments it when training, and scales it by 1/255.
- **The backbone selector** (`models/backbone.py`). It checks a configuration:
  - the name is one of `densenet121`, `mobilenetv3` and `effnetb0`;
  - the input shape has three entries;
  - the weights are `None` or `"imagenet"`.
  It derives the trainable flag (forced on without pretrained weights). It then
  dispatches the lower-cased name to one of three Keras applications.

Modules, one per file:

- `Wrappers` (`wrappers.dfy`): `Option` and `Result`.
- `Strings` (`strings.dfy`): `Split`/`Join` on a one-character separator, keeping
  empty segments as Python and `tf.strings.split` do. Also Python's lexicographic
  order on strings and `sorted` as an insertion sort.
- `Dataset` (`dataset.dfy`): `decode_image`, `process_image`, `aug_fn`, the
  shuffle, and the `Dataset` class with its constructor, `read_files` and
  `map_files`.
- `Backbone` (`backbone.dfy`): the validation, the trainable rule, the dispatch,
  the `Backbone` class and the Keras model it builds (`Extractor`).

How the model stands in for what it cannot see:

- Images are symbolic. An `Image` records the stages that produced it:
  - `Decoded(codec, file)`;
  - `Resized`;
  - `Augmented`, the external `train_transforms`;
  - `Scaled`, the division by 255.

  `Origin` and `Stages` read an image back as its decoding plus the list of
  stages applied to it. Contracts are stated on that list.
- The directory listing, the glob result and the random generator's draws are
  constructor parameters.
- `tf.random.shuffle` is a Fisher–Yates shuffle driven by those draws. It always
  yields a permutation, and every permutation arises for some draws
  (`EveryOrderReachable`).
- A one-hot label is a `seq<int>` of 0s and 1s.
- A Python `None` is `Option.None`. A failed assertion is a `Result.Err`.
- `get_ds`, `get_decode_ds` and the `backbone` property only read a field. They
  are the fields `ds`, `decodeDs` and `model`.

Behaviour of the code that the model keeps:

- The label list is the sorted listing of *every* entry of the root directory,
  not only its sub-directories.
- The label is the immediate parent directory of a file, whatever the depth.
- An unknown extension silently falls back to PNG.
- Construction raises inside `map_files` in three cases, checked in this order:
  - the glob matches no file: the empty list becomes a float32 tensor that
    `decode_image` cannot read as paths;
  - `num_parallel_calls` is neither positive nor `AUTOTUNE` (-1);
  - a target dimension does not fit in int32.

  `NewDataset` returns the first of these errors (`BuildErrorOf`), and the class
  constructor requires that none applies.
- The dispatch keeps its `None` branch. It is proved unreachable after validation
  rather than removed.

## Model

| member | source | states |
|---|---|---|
| `Strings.Split` | utils/dataset.py:13-14 | splitting always yields at least one segment, and no segment holds the separator; a string without the separator is its own single segment, and one with it yields at least two |
| `Strings.JoinSplit` | utils/dataset.py:13-14 | splitting loses nothing: joining the segments with the separator gives back the original string |
| `Strings.SplitAppend` | utils/dataset.py:13-14 | appending a separator and a separator-free tail to a string appends exactly that tail as one more segment |
| `Strings.LastSegment` | utils/dataset.py:14 | the last segment is a suffix of the string, and when the string holds a separator, a separator stands right before that suffix |
| `Strings.Sort` | utils/dataset.py:64 | `sorted(listing)`: the result is in Python's lexicographic order and is a permutation of the listing (same multiset) |
| `Strings.DistinctPermutation` | utils/dataset.py:64 | a rearrangement of distinct directory entries is distinct, so the sorted label list has no duplicates |
| `Dataset.LabelOf` | utils/dataset.py:13 | a label exists exactly when the path holds a `/` (at least two segments), and the label holds no `/` |
| `Dataset.LabelOfParent` | utils/dataset.py:13 | for `<dir>/<label>/<file>` and for `<label>/<file>`, the label is the parent directory's name, whatever `dir` holds |
| `Dataset.ExtensionOf` | utils/dataset.py:14 | the extension is the longest dot-free suffix of the path: it ends the path, is preceded by a `.` when the path has one, and is the whole path when it has none |
| `Dataset.ExtensionOfName` | utils/dataset.py:14 | a file named `<stem>.<ext>` with a dot-free `ext` has extension `ext`, whatever dots the stem holds |
| `Dataset.CodecFor` | utils/dataset.py:16-23 | JPEG exactly for `jpeg` and `jpg`; PNG for `png` and for every other extension; total |
| `Dataset.OneHot` | utils/dataset.py:25 | the encoding has one entry per label, and entry i is 1 iff label i equals the file's label, 0 otherwise |
| `Dataset.OneHotSum` | utils/dataset.py:25 | the entries add up to the number of occurrences of the label in the label list |
| `Dataset.OneHotOfDistinct` | utils/dataset.py:25 | against distinct labels the entries sum to 1 iff the label is listed, and the vector is all zeros when it is not |
| `Dataset.OneHotPosition` | utils/dataset.py:25 | against distinct labels the single 1 stands at the label's own position and every other entry is 0 |
| `Dataset.DecodeImage` | utils/dataset.py:11-26 | decoding fails exactly for a path without a parent directory segment |
| `Dataset.DecodeImageOfLayout` | utils/dataset.py:11-26 | a file `<root>/<label>/<stem>.<ext>` is decoded with the codec `ext` selects and carries the one-hot encoding of `label`, summing to 1 when the label list is distinct and holds `label` |
| `Dataset.SameHistory` | utils/dataset.py:11-33 | an image is determined by the decoding it started from and the list of stages applied to it, so a contract on both fixes the image |
| `Dataset.AugFn` | utils/dataset.py:36-40 | outside training the image is returned unchanged; in training exactly one augmentation stage is appended to the image's history |
| `Dataset.ProcessImage` | utils/dataset.py:29-33 | the label passes through unchanged; the image keeps its decoding, and its stage list grows by a resize to the target size, then an augmentation in training mode only, then the scaling; in both modes the resize always happens |
| `Dataset.Shuffle` | utils/dataset.py:72-73 | the shuffled file list is a permutation of the globbed list (same multiset of paths) |
| `Dataset.EveryOrderReachable` | utils/dataset.py:72-73 | every permutation of the globbed list is produced by the shuffle for suitable random draws |
| `Dataset.DecodeAll` | utils/dataset.py:79 | the decoded stream has one element per file, in file order; an element fails exactly when its path has no `/`, and otherwise is the file decoded with the codec of its extension |
| `Dataset.ProcessAll` | utils/dataset.py:80 | the processed stream has one element per decoded one; a failed element stays the same failure; a decoded sample keeps its label and decoding and gains resize, training-only augmentation and scaling |
| `Dataset.ProcessedStream` | utils/dataset.py:78-81 | the processed stream has one element per file; an element fails exactly when its path has no parent segment; otherwise it carries the file's one-hot label and was augmented once in training mode and never otherwise |
| `Dataset.BuildErrorOf` | utils/dataset.py:78-80 | `map_files` raises exactly when the file list is empty, `num_parallel_calls` is neither positive nor -1, or a target dimension exceeds int32; each error is reported exactly when it is the first of these to apply |
| `Dataset.Dataset.constructor` | utils/dataset.py:49-67 | when `map_files` does not raise (the source raises otherwise, see `NewDataset`): stores the arguments; `shuffle` is true iff `random_seed > 0`; the labels are the sorted listing; `decodeDs` is the decode of the file order and `ds` its processed stream |
| `Dataset.Dataset.ReadFiles` | utils/dataset.py:69-76 | without shuffling the file list is the glob result unchanged; with shuffling it is the shuffle of it; either way the same multiset of paths, so the same number of files |
| `Dataset.Dataset.MapFiles` | utils/dataset.py:78-81 | fails, leaving `ds` unchanged, exactly when `BuildErrorOf` names an error, and with that error; otherwise returns the decoded stream of the file list and replaces `ds` with the processed stream of it |
| `Dataset.NewDataset` | utils/dataset.py:49-81 | calling `Dataset(...)` fails exactly when `map_files` raises on the globbed files, with the first applicable error; otherwise it yields a fresh dataset with the constructor's state |
| `Dataset.BuiltDataset` | utils/dataset.py:58-81 | a built dataset has one processed element per globbed file, keeps glob order without shuffling, has distinct labels when the listing is distinct, and never reaches the augmentation in evaluation mode |
| `Backbone.Lower` | models/backbone.py:28 | the ASCII lower-casing keeps the length; its per-character behaviour is stated by `LowerAt` |
| `Backbone.LowerAt` | models/backbone.py:28 | lower-casing maps each ASCII capital to its lower-case letter, keeps every other character, and leaves no capital |
| `Backbone.LowerIdempotent` | models/backbone.py:28 | lower-casing an already lower-cased name changes nothing |
| `Backbone.ArchFor` | models/backbone.py:26-52 | a name reaches the architecture whose name is its lower-cased form, and reaches `None` exactly when its lower-cased form is none of the three names |
| `Backbone.ArchForNameOf` | models/backbone.py:28-49 | each of the three architectures is reached from its own name |
| `Backbone.ArchForIgnoresCase` | models/backbone.py:28-43 | the dispatch gives the same result for a name and its lower-cased form |
| `Backbone.ValidationError` | models/backbone.py:7-13 | the configuration is accepted exactly when the name is one of the three, the shape has 3 entries and the weights are `None` or `"imagenet"`; each error is reported exactly when its own assertion is the first to fail (name, then shape, then weights), carrying the offending value |
| `Backbone.EffectiveTrainable` | models/backbone.py:16-19 | the flag equals the requested one when weights are given and is true whenever weights are `None` |
| `Backbone.ValidatedNameDispatches` | models/backbone.py:7-51 | every validated name is already lower case and dispatches to the architecture of that name, so the `None` branch is unreachable |
| `Backbone.Extractor.constructor` | models/backbone.py:30-49 | a built Keras application keeps the architecture, weights and input shape, has no classification head and starts trainable |
| `Backbone.Backbone.constructor` | models/backbone.py:5-23 | once the three assertions pass: stores name, input shape and weights unchanged, derives the trainable flag, and ends with a model of the named architecture that carries that flag (Keras's own construction errors are not modelled) |
| `Backbone.Backbone.ImportBackbone` | models/backbone.py:26-52 | builds a fresh model of the dispatched architecture with the stored weights and shape, and returns nothing exactly when the dispatch gives `None` |
| `Backbone.NewBackbone` | models/backbone.py:5-52 | the result is an error exactly when one of the three assertions fails, carrying the first failing assertion's error; when all three pass it stores the arguments, and its model is a fresh headless extractor of the named architecture with the requested weights and input shape, carrying the effective trainable flag |

## Left out

- File I/O: `tf.io.read_file`, `tf.io.gfile.listdir` and `tf.io.gfile.glob` are
  foreign filesystem calls. The listing and the glob result are inputs. The glob
  pattern built with `os.path.join` is not part of this model.
- The image codecs, `tf.image.resize` and the division by 255 are library
  numerics. Images are symbolic, so pixel values and the `[0, 1]` range are not
  stated.
- The augmentation collaborator `train_transforms` and its `tf.numpy_function`
  wrapper `aug_process` are foreign code. Only the `is_training` gate is
  modelled, as the `Augmented` stage.
- `NewDataset`, `MapFiles` and the `Dataset` constructor: `num_parallel_calls=None`
  (a sequential `map`) is not modelled, because the argument is an `int`. Argument
  checks inside TensorFlow kernels other than the three `BuildErrorOf` names are not
  modelled either.
- `tf.data` laziness and execution (`map` parallelism with `num_parallel_calls`,
  cache, batch, prefetch) are framework internals. A stream is modelled as the
  finite sequence of its elements; a failing element is an `Err` in place.
- `Shuffle`: `tf.random.set_seed` and the generator's global state are not
  modelled. The draws are a free input, so "the same seed gives the same order"
  is not stated.
- `DecodeImage`: unreadable or corrupt files (an I/O error at iteration time) are
  not modelled; only the missing-parent-directory failure is.
- `Lower`, `LowerAt`: model Python's `str.lower()` on ASCII capitals only. No non-ASCII
  character lower-cases to a plain string that the three dispatched names could
  match, so the dispatch outcome is unaffected.
- `NewBackbone`: only the three assertions of the constructor are modelled as
  failures. The Keras application constructors raise errors of their own, and
  these are not modelled: an input smaller than 32×32, a channel count other than
  3 with `"imagenet"` weights, and a failed weight download. Building an
  `Extractor` is taken to succeed, so `Ok` means "the three assertions pass", not
  "the call returns".
- Keras model construction, pretrained-weight downloads and the real `.trainable`
  attribute are foreign. A model is an `Extractor` holding an architecture tag
  and a mutable `trainable` flag.
- The input shape is a `seq<int>`. Keras also admits `None` entries; the source
  checks only the length.
- Python's `-O` flag strips `assert` statements, which would disable the
  backbone validation. The model follows the default interpreter behaviour.
- `evaluation.py` is orchestration: a test-mode dataset, cache/batch/prefetch,
  and a model loaded from a fixed path. It has no logic of its own.
- The `__main__` demonstration blocks of both files.
