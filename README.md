# Orange3 ImageNets widgets, modelled in Dafny

This project models the image add-on for the Orange data-mining toolkit, in Dafny. The add-on has seven widgets:

- **Image Augmenter** fans every loadable image row out into N randomly augmented copies. It writes each copy to a fresh `aug_<uuid>.png` in a save folder and emits a table of the copies whose image column points at that folder.
- **Image Preprocessor** runs every existing image through grayscale, resize and min-max normalisation (each when enabled) and a cast to 8 bits. It writes the result under an output folder at the same relative path, then re-points the image column's `origin` there.
- **ImageNet Classify** feeds every existing image, resized to 224 x 224 and scaled to [0, 1], to a Keras model. It then appends a "Prediction" meta column whose values are the distinct predicted class names, in sorted order.
- **ImageNet Builder** edits a list of layer dictionaries: add, move, delete (never below two layers), clear, load a prebuilt template, edit one parameter. After each edit it saves the list as a setting and builds and sends a Keras `Sequential` model from it.
- **Load ImageNet** loads a model from an `.h5` file, or from a JSON architecture plus the `<name>_weights.h5` beside it. It remembers the file as a setting and reloads it on start-up.
- **Save ImageNet** saves the model as `.h5`, or writes its architecture as JSON. It appends the missing extension and remembers the directory of the file.
- `image_table_variables` finds the first image-tagged meta column of a table and its `origin`.

Module layout, one Dafny module per source file plus shared modules:

| module | file | models |
|---|---|---|
| `ImageTable` | image_table.dfy | `util/image_table.py` |
| `ImageAugmenter` | augmenter.dfy | `widgets/ow_image_augmenter.py` |
| `ImagePreprocessor` | preprocessor.dfy | `widgets/ow_image_preprocessor.py` |
| `ImageNetClassify` | classify.dfy | `widgets/ow_imagenet_classify.py` |
| `ImageNetBuilder` | builder.dfy | `widgets/ow_imagenet_builder.py` |
| `LoadImageNet` | load.dfy | `widgets/ow_load_imagenet.py` |
| `SaveImageNet` | save.dfy | `widgets/ow_save_imagenet.py` |
| `Tables` | tables.dfy | Orange tables: a domain of meta `Variable` objects (a class, because the widgets mutate a variable's `attributes` in place) and rows |
| `Images` | images.dfy | an image as its source file plus the list of stages applied to it |
| `Keras` | keras.dfy | layer dictionaries, layers and models, opaque beyond how they were made |
| `Paths` | paths.dfy | `os.path.join`, `dirname`, `splitext`, `str.endswith` |
| `Progress` | progress.dfy | the progress-bar percentages and events |
| `Selection` | selection.dfy | the positions of the rows a loop processes |
| `StringOrder` | string_order.dfy | `sorted(set(...))` on strings |
| `Wrappers` | wrappers.dfy | `Option`, `Result` |

Each widget is a `class` whose fields are the widget's settings and state. Its handlers are methods with `modifies` clauses. Every loop in the source is a `while` or `for` loop with invariants. Each long-running operation (augment, preprocess, classify) is a method whose postcondition ties its whole effect to a ghost predicate (`Outcome`). That predicate is stated with specification functions (`Schedule`, `Classified`, `Predictions`, `Positions`). Lemmas prove what the source promises about those functions.

Side effects that cannot be observed in Dafny are ghost state:
- the files written (`Write` records);
- the directories created;
- the progress-bar events;
- the models sent;
- the warnings shown.

The outside world comes in as parameters (an exception is a `Result`/`Option` error value):
- `onDisk` stands for `os.path.exists`;
- `loads` says whether `load_img` succeeds;
- `saveError(t)` gives the exception `aug_img.save` raises when it saves the `t`-th file of a run, if any;
- `decodes` says whether `cv2.imread` decodes a file (it returns None otherwise);
- `uuid(t)` stands for the t-th `uuid4().hex`;
- `predict` stands for the network: it gives the most likely class index, or the exception `model.predict` raises (a Keras `ValueError` for an image of a shape the network does not take);
- `accepts` says whether a Keras layer class exists and takes the given keyword arguments;
- `canWrite` says whether writing a file succeeds;
- `Loaders` holds the model-loading calls.

## Model

| member | source | states |
|---|---|---|
| ImageTable.FirstImageIndex | orangecontrib/imagenets/util/image_table.py:7-11 | the position found is an image-tagged meta column, no earlier column is image-tagged, and there is no position exactly when no column is |
| ImageTable.ImageTableVariables | orangecontrib/imagenets/util/image_table.py:3-15 | raises "No variable with type "image"" exactly when no meta column is image-tagged; otherwise returns the first such column's index and that column's `origin` attribute (possibly absent) |
| ImageTable.PresentPositions | orangecontrib/imagenets/widgets/ow_image_preprocessor.py:35-38 | a row is processed by the loop exactly when it is a row of the table and `os.path.exists(join(origin, rel_path))` holds for its image cell; the processed rows are listed in increasing order |
| ImageTable.UnreadableStop | orangecontrib/imagenets/widgets/ow_image_preprocessor.py:37-46 | the loop stops at the first row whose file exists but does not decode, and every existing file before it decodes |
| Tables.IndexOf | orangecontrib/imagenets/util/image_table.py:14 | `metas.index(v)`: the first position holding v, and none exactly when v is absent |
| Tables.WellFormedHasColumn | orangecontrib/imagenets/widgets/ow_image_preprocessor.py:37 | in a well-formed table every row has a cell for every meta column, so `row.metas[index]` is defined |
| Tables.Variable.constructor | orangecontrib/imagenets/widgets/ow_imagenet_classify.py:97 | a new variable holds exactly the given name, values and attributes |
| ImageAugmenter.ImageAugmenter.constructor | orangecontrib/imagenets/widgets/ow_image_augmenter.py:26-42 | the settings defaults: folder "/home/chris/Downloads/test", 2 copies, zoom, flip and rotate on, the rest off, no input |
| ImageAugmenter.ImageAugmenter.SelectFolder | orangecontrib/imagenets/widgets/ow_image_augmenter.py:135-139 | a chosen folder replaces the save folder; a cancelled dialog keeps it |
| ImageAugmenter.ImageAugmenter.SetAugmentCount | orangecontrib/imagenets/widgets/ow_image_augmenter.py:141-142 | the count becomes the spin-box value |
| ImageAugmenter.ImageAugmenter.SetFlag | orangecontrib/imagenets/widgets/ow_image_augmenter.py:144-146 | exactly the named check box takes the new value; the other six are unchanged |
| ImageAugmenter.ImageAugmenter.SetData | orangecontrib/imagenets/widgets/ow_image_augmenter.py:148-151 | the input table is remembered |
| ImageAugmenter.LastImageIndex | orangecontrib/imagenets/widgets/ow_image_augmenter.py:177-182 | the scan's `image_col` is the LAST image-tagged meta column (the loop has no break): image-tagged, none after it, absent exactly when none is tagged |
| ImageAugmenter.ScanImageVariables | orangecontrib/imagenets/widgets/ow_image_augmenter.py:177-182 | every image-tagged meta variable's origin becomes the save folder and nothing else changes; returns the last such variable and the origin it had before |
| ImageAugmenter.VariantStageOrder | orangecontrib/imagenets/widgets/ow_image_augmenter.py:153-162 | each copy is its source file's generator draw, then a radius-2 blur if enabled, then N(0, 15) noise if enabled, in that order and nothing more |
| ImageAugmenter.ScheduledPairs | orangecontrib/imagenets/widgets/ow_image_augmenter.py:198-213 | (row, variant) is produced exactly when the row is in the table, the origin is present, `load_img` accepts `join(origin, rel_path)`, and the variant is below the count |
| ImageAugmenter.ScheduleStep | orangecontrib/imagenets/widgets/ow_image_augmenter.py:200-223 | one more row extends the output order by that row's variants when it loads, and by nothing when it is skipped |
| ImageAugmenter.ScheduleLength | orangecontrib/imagenets/widgets/ow_image_augmenter.py:200-223 | a run produces exactly `count` outputs per loaded row |
| ImageAugmenter.ScheduleMembers | orangecontrib/imagenets/widgets/ow_image_augmenter.py:200-223 | (row, variant) is produced if and only if the row exists and loads and the variant is below the count |
| ImageAugmenter.ScheduleOrdered | orangecontrib/imagenets/widgets/ow_image_augmenter.py:200-223 | outputs come row by row, and the variants of a row in order |
| ImageAugmenter.ScheduleRange | orangecontrib/imagenets/widgets/ow_image_augmenter.py:200-223 | every produced pair names a row of the table and a variant below the count |
| ImageAugmenter.ScheduleProgress | orangecontrib/imagenets/widgets/ow_image_augmenter.py:224 | the progress values `(i * K + j) / (N * K) * 100` of a run are all in [0, 100) and strictly increase |
| ImageAugmenter.FileNameInjective | orangecontrib/imagenets/widgets/ow_image_augmenter.py:217 | different identifiers give different `aug_<id>.png` names |
| ImageAugmenter.FileNameRelative | orangecontrib/imagenets/widgets/ow_image_augmenter.py:217 | an augmented file name never starts with '/', so joining it keeps it inside the save folder |
| ImageAugmenter.WrittenPathsDistinct | orangecontrib/imagenets/widgets/ow_image_augmenter.py:213-223 | with fresh identifiers, no two files of a run share a path |
| ImageAugmenter.SaveVariant | orangecontrib/imagenets/widgets/ow_image_augmenter.py:214-222 | one pass of the inner loop: the exception is that of this save; when there is none, the new row copies the source row with only its image cell set to the fresh name `aug_<uuid>.png`, and the file under the folder holds the drawn variant |
| ImageAugmenter.AugmentRow | orangecontrib/imagenets/widgets/ow_image_augmenter.py:213-224 | the inner loop: output j copies the row with only its image cell replaced by the next fresh name, and its file holds that draw's variant; the loop stops at the first save that raises, and `raised` is that exception, otherwise it makes all `count` outputs; every save before the stop succeeded |
| ImageAugmenter.AugmentedExtend | orangecontrib/imagenets/widgets/ow_image_augmenter.py:200-223 | appending one row's outputs, or the first of them, keeps the outputs and files in step with the output order |
| ImageAugmenter.SchedulePrefix | orangecontrib/imagenets/widgets/ow_image_augmenter.py:198-223 | the outputs of the first rows are a prefix of the run's output order, so a run that stops early has made a prefix of it |
| ImageAugmenter.AugmentRows | orangecontrib/imagenets/widgets/ow_image_augmenter.py:198-224 | the outer loop: skips the rows that fail to load, and produces the variant rows and files of the others in output order until a save raises; what it made is a prefix of the full output order, every save in it succeeded, and it raises exactly when that prefix is short, with the next save's exception |
| ImageAugmenter.AugmentTable | orangecontrib/imagenets/widgets/ow_image_augmenter.py:198-229 | a save that raises ends the run with the files made so far, the bar open and no table sent; otherwise, for a domain with attribute columns, `Table.from_numpy` raises after every file is written; otherwise the output table has the input's domain and exactly the augmented rows, and progress is opened, set once per output and closed |
| ImageAugmenter.Run | orangecontrib/imagenets/widgets/ow_image_augmenter.py:165-229 | no table, an empty one, or no folder gives "No image data or folder selected." and nothing else; no image column gives "No image column detected." with the bar opened and closed; an absent origin makes the first row's `os.path.join` raise, in the `try` and again in its `except` handler, so the exception escapes with the bar open and no output; otherwise the row loop's outcome, as `AugmentTable` states it; image columns are re-pointed once the first guard passes |
| ImageAugmenter.OutcomeSize | orangecontrib/imagenets/widgets/ow_image_augmenter.py:200-229 | a run that raises nothing emits count x (loaded rows) rows, writes as many files and shows two more progress events; its domain has no attribute columns |
| ImageAugmenter.OutcomeStopsAtFailedSave | orangecontrib/imagenets/widgets/ow_image_augmenter.py:213-224 | when output k is the first whose save raises, the run escapes with that exception after exactly k files, sends no table and never closes the bar |
| ImageAugmenter.RowStopped | orangecontrib/imagenets/widgets/ow_image_augmenter.py:213-224 | when a save raises inside a loaded row, the outputs made so far are exactly the first ones of the run's order, fewer than all of them, and the exception is that of the next save |
| ImageAugmenter.WrittenSaved | orangecontrib/imagenets/widgets/ow_image_augmenter.py:219 | every file of a run was written by a save that raised nothing |
| ImageAugmenter.ImageAugmenter.GenerateAugmentations | orangecontrib/imagenets/widgets/ow_image_augmenter.py:165-229 | the widget's error, output, progress, files and escaping exception after the button, as `Run` states them for the settings read at the start and the given save outcomes; earlier progress and files are kept |
| ImagePreprocessor.ImagePreprocessor.constructor | orangecontrib/imagenets/widgets/ow_image_preprocessor.py:70-79 | the settings defaults (no grayscale, resize to 224 x 224, no normalisation), "Waiting for input..." and no input or folder |
| ImagePreprocessor.ImagePreprocessor.SettingsChanged | orangecontrib/imagenets/widgets/ow_image_preprocessor.py:163-165 | exactly the named setting takes the new value, and the preview is refreshed as `ShowPreviewImage` states |
| ImagePreprocessor.ImagePreprocessor.SelectFolder | orangecontrib/imagenets/widgets/ow_image_preprocessor.py:167-171 | a chosen folder becomes the output folder and starts a run as `Outcome` states it; a cancelled dialog changes nothing |
| ImagePreprocessor.ImagePreprocessor.SetData | orangecontrib/imagenets/widgets/ow_image_preprocessor.py:173-177 | the input is remembered, no run starts, and the preview is refreshed as `ShowPreviewImage` states |
| ImagePreprocessor.ImagePreprocessor.ShowPreviewImage | orangecontrib/imagenets/widgets/ow_image_preprocessor.py:215-231 | without a table or with an empty one the info label becomes "No data" and nothing is raised; otherwise the label is kept and "No variable with type "image"" escapes exactly when no meta column is image-tagged |
| ImagePreprocessor.PreprocessedStages | orangecontrib/imagenets/widgets/ow_image_preprocessor.py:39-46 | the written image is the source file through exactly the enabled stages, grayscale, resize and normalise, in that order, then the 8-bit cast |
| ImagePreprocessor.PreprocessedRecords | orangecontrib/imagenets/widgets/ow_image_preprocessor.py:39-46 | the pipeline keeps the source file and records the enabled stages in order |
| ImagePreprocessor.SkipRow | orangecontrib/imagenets/widgets/ow_image_preprocessor.py:36-38 | a row whose file is missing writes, emits and creates nothing |
| ImagePreprocessor.RowsStep | orangecontrib/imagenets/widgets/ow_image_preprocessor.py:35-52 | a row that is missing or decodes does not stop the loop |
| ImagePreprocessor.RowsStop | orangecontrib/imagenets/widgets/ow_image_preprocessor.py:35-46 | where the loop ends, at the end of the table or at a present row that does not decode, that row is the first to stop it and the files, progress and directories are those of the present rows before it |
| ImagePreprocessor.ProcessRow | orangecontrib/imagenets/widgets/ow_image_preprocessor.py:39-52 | a present row that decodes writes its preprocessed image and moves the loop on by one row |
| ImagePreprocessor.OutDirs | orangecontrib/imagenets/widgets/ow_image_preprocessor.py:47-48 | one output directory per written file |
| ImagePreprocessor.CreatedDistinct | orangecontrib/imagenets/widgets/ow_image_preprocessor.py:49-50 | no directory is created twice |
| ImagePreprocessor.CreatedMissing | orangecontrib/imagenets/widgets/ow_image_preprocessor.py:49-50 | only directories that were missing are created |
| ImagePreprocessor.CreatedCovers | orangecontrib/imagenets/widgets/ow_image_preprocessor.py:47-51 | every file's directory existed or is created before the file is written |
| ImagePreprocessor.WriteRow | orangecontrib/imagenets/widgets/ow_image_preprocessor.py:39-52 | a present row that gets past decoding writes its image under the output folder at its own relative path and emits `int(100 * (i + 1) / total)`; its directory is created only when it is missing |
| ImagePreprocessor.ProcessRows | orangecontrib/imagenets/widgets/ow_image_preprocessor.py:33-52 | the loop writes one file and one progress value per present row, in row order, up to the first present row whose file does not decode; there it raises (OpenCV's empty-input error when grayscale or resize is on, otherwise the AttributeError of `None.astype`), and it raises nothing when there is no such row; the directories created are exactly the missing output directories, each the first time a file needs it, in order |
| ImagePreprocessor.PreprocessWorker.constructor | orangecontrib/imagenets/widgets/ow_image_preprocessor.py:21-30 | the worker stores the table, folder, settings and the resolved column and origin |
| ImagePreprocessor.NewWorker | orangecontrib/imagenets/widgets/ow_image_preprocessor.py:21-30 | creating a worker raises "No variable with type "image"" exactly when there is no image column; otherwise it binds the first image column and its origin |
| ImagePreprocessor.PreprocessWorker.Run | orangecontrib/imagenets/widgets/ow_image_preprocessor.py:32-56 | an absent origin with some rows raises at the first join and touches nothing; a file that does not decode raises at its row, after the earlier rows' files; only a run that reaches the end sends every row on and re-points the image column's origin to the output folder |
| ImagePreprocessor.Preprocess | orangecontrib/imagenets/widgets/ow_image_preprocessor.py:179-199 | nothing happens without data or folder; a worker that raises leaves the bar open, with the progress and files of the rows before it (no image column, absent origin, or a file that does not decode); otherwise "Preprocessing complete.", the table sent, one progress value per present row, and the image column re-pointed |
| ImagePreprocessor.WorkerOutcome | orangecontrib/imagenets/widgets/ow_image_preprocessor.py:179-199 | what the worker returns, emits, writes and creates decides the widget's outcome: an absent origin with rows, or a file that does not decode, leaves the bar open with that exception; otherwise the table is sent and the bar closed |
| ImagePreprocessor.ImagePreprocessor.TryPreprocess | orangecontrib/imagenets/widgets/ow_image_preprocessor.py:179-199 | the widget's state after a run, as `Outcome` states it for the current settings; earlier progress, files and directories are kept |
| ImageNetClassify.ClassifyInputStages | orangecontrib/imagenets/widgets/ow_imagenet_classify.py:41-43 | the model sees the row's own file, resized to 224 x 224 and then scaled, and nothing else |
| ImageNetClassify.FirstFailingRow | orangecontrib/imagenets/widgets/ow_imagenet_classify.py:36-45 | the first row where the loop raises is the first whose file exists and either does not decode, or makes `model.predict` raise, or has a class with no name; no row raises exactly when every existing file decodes, is classified and has a named class |
| ImageNetClassify.Classified | orangecontrib/imagenets/widgets/ow_imagenet_classify.py:36-47 | the classified rows are row positions of the table |
| ImageNetClassify.Predictions | orangecontrib/imagenets/widgets/ow_imagenet_classify.py:44-46 | one prediction per classified row |
| ImageNetClassify.SkipStep | orangecontrib/imagenets/widgets/ow_imagenet_classify.py:37-40 | a row whose file is missing leaves the results and progress as they were |
| ImageNetClassify.ClassifyStep | orangecontrib/imagenets/widgets/ow_imagenet_classify.py:41-47 | a row whose file decodes, which the model classifies and whose class has a name appends that name and its progress value |
| ImageNetClassify.LoopStops | orangecontrib/imagenets/widgets/ow_imagenet_classify.py:36-49 | where the loop ends it has classified exactly the present rows before the first failing row (a present row fails when its file does not decode, `model.predict` raises on it, or its class has no name); it raised exactly when some row fails, and then at the first one |
| ImageNetClassify.ClassifyRows | orangecontrib/imagenets/widgets/ow_imagenet_classify.py:33-49 | the loop raises exactly when some present row fails, with the exception of the first such row: OpenCV's empty-input error when its file does not decode, else the exception of `model.predict` when it raises, otherwise no class variable or an index with no name; otherwise it returns the predictions of the present rows, in order, with their progress values |
| ImageNetClassify.ClassifyWorker.constructor | orangecontrib/imagenets/widgets/ow_imagenet_classify.py:15-18 | the worker holds the model and the table |
| ImageNetClassify.Work | orangecontrib/imagenets/widgets/ow_imagenet_classify.py:20-49 | without an image column `metas.index(None)` raises before any row; an absent origin raises at the first row; otherwise the loop's outcome over the first image column, which raises at the first existing file that does not decode, makes `model.predict` raise or has no class name |
| ImageNetClassify.ClassifyWorker.Run | orangecontrib/imagenets/widgets/ow_imagenet_classify.py:20-49 | the list the worker sends, or its exception, and the progress values it emits, as `Work` states them |
| ImageNetClassify.Broadcast | orangecontrib/imagenets/widgets/ow_imagenet_classify.py:98 | `add_column` accepts one cell per row or a single cell for all rows, and raises otherwise |
| ImageNetClassify.AnnotatedFacts | orangecontrib/imagenets/widgets/ow_imagenet_classify.py:98 | adding the column keeps the table well formed and every row with its old values; row k's new last meta value is cell k |
| ImageNetClassify.Classify | orangecontrib/imagenets/widgets/ow_imagenet_classify.py:86-101 | nothing happens without both model and data; a worker exception (no image column, absent origin, a file that does not decode, `model.predict` raising, a class with no name) or a length mismatch leaves the bar open; otherwise a fresh "Prediction" variable whose values are the sorted distinct predictions, the annotated table and "Classification complete." |
| ImageNetClassify.ImageNetClassify.constructor | orangecontrib/imagenets/widgets/ow_imagenet_classify.py:68-74 | no inputs and "Waiting for input..." |
| ImageNetClassify.ImageNetClassify.TryClassify | orangecontrib/imagenets/widgets/ow_imagenet_classify.py:86-101 | the widget's state after a classification, as `Outcome` states it; earlier progress is kept |
| ImageNetClassify.ImageNetClassify.SetModel | orangecontrib/imagenets/widgets/ow_imagenet_classify.py:76-79 | the model is remembered, the data kept, and a classification attempted |
| ImageNetClassify.ImageNetClassify.SetData | orangecontrib/imagenets/widgets/ow_imagenet_classify.py:81-84 | the data is remembered, the model kept, and a classification attempted |
| ImageNetClassify.ClassifiedRowsFacts | orangecontrib/imagenets/widgets/ow_imagenet_classify.py:36-47 | when no row raises, the classified rows are exactly the rows whose file exists, in increasing order |
| ImageNetClassify.ClassifiedLabels | orangecontrib/imagenets/widgets/ow_imagenet_classify.py:44-46 | when no row raises, the model classifies the k-th classified row and the k-th prediction is the class variable's name for its index |
| ImageNetClassify.ResultsAligned | orangecontrib/imagenets/widgets/ow_imagenet_classify.py:36-47 | there is one prediction per row if and only if every row's file exists, and then prediction k belongs to row k |
| ImageNetClassify.ClassifyProgress | orangecontrib/imagenets/widgets/ow_imagenet_classify.py:47 | progress values stay in [0, 100] and never decrease; with no exception they end at 100 exactly when the last row's file exists |
| ImageNetClassify.PredictionValues | orangecontrib/imagenets/widgets/ow_imagenet_classify.py:97 | the "Prediction" values are the distinct predictions, each once, strictly sorted, and each is a value of the class variable |
| StringOrder.SortedSetFacts | orangecontrib/imagenets/widgets/ow_imagenet_classify.py:97 | `sorted(set(s))` is strictly sorted and holds exactly the elements of s |
| StringOrder.InsertFacts | orangecontrib/imagenets/widgets/ow_imagenet_classify.py:97 | inserting into a strictly sorted list keeps it strictly sorted and adds exactly that element |
| StringOrder.StrictlySortedUnique | orangecontrib/imagenets/widgets/ow_imagenet_classify.py:97 | two strictly sorted lists with the same elements are equal |
| StringOrder.SortedSetCharacterised | orangecontrib/imagenets/widgets/ow_imagenet_classify.py:97 | `sorted(set(s))` is the only strictly sorted list with the elements of s |
| StringOrder.StrictlySortedDistinct | orangecontrib/imagenets/widgets/ow_imagenet_classify.py:97 | a strictly sorted list has no repeated element |
| StringOrder.LessIrreflexive | orangecontrib/imagenets/widgets/ow_imagenet_classify.py:97 | Python's string order: no string is below itself |
| StringOrder.LessTransitive | orangecontrib/imagenets/widgets/ow_imagenet_classify.py:97 | Python's string order is transitive |
| StringOrder.LessTotal | orangecontrib/imagenets/widgets/ow_imagenet_classify.py:97 | any two different strings are ordered one way or the other |
| StringOrder.LessAsymmetric | orangecontrib/imagenets/widgets/ow_imagenet_classify.py:97 | never both a < b and b < a |
| Progress.IntPercentBounds | orangecontrib/imagenets/widgets/ow_imagenet_classify.py:47 | `int(100 * (i + 1) / total)` is in [0, 100], and is 100 exactly at the last row |
| Progress.IntPercentMonotone | orangecontrib/imagenets/widgets/ow_image_preprocessor.py:52 | a later row never shows a smaller percentage |
| Progress.RealPercentBounds | orangecontrib/imagenets/widgets/ow_image_augmenter.py:224 | `(i * K + j) / (N * K) * 100` for a row and variant in range is in [0, 100) |
| Progress.RealPercentIncreasing | orangecontrib/imagenets/widgets/ow_image_augmenter.py:224 | a later (row, variant) shows a strictly larger percentage |
| Progress.PercentagesFacts | orangecontrib/imagenets/widgets/ow_image_preprocessor.py:52 | the progress values of the present rows are in [0, 100], never decrease, and end at 100 exactly when the last row is present |
| Progress.PrefixPercentagesFacts | orangecontrib/imagenets/widgets/ow_imagenet_classify.py:47 | the same for the present rows before any stopping row |
| Selection.PositionsStep | orangecontrib/imagenets/widgets/ow_image_preprocessor.py:36-38 | one more row adds its position exactly when it is processed |
| Selection.PositionsMembers | orangecontrib/imagenets/widgets/ow_image_preprocessor.py:36-38 | a position is listed if and only if that row is processed |
| Selection.PositionsIncreasing | orangecontrib/imagenets/widgets/ow_image_preprocessor.py:36-38 | processed rows are listed in increasing order |
| Selection.PositionsLength | orangecontrib/imagenets/widgets/ow_image_preprocessor.py:36-38 | as many positions as processed rows |
| Selection.PositionsAll | orangecontrib/imagenets/widgets/ow_imagenet_classify.py:37-40 | every row is listed exactly when every row is processed, and then position k is k |
| Selection.FirstTrue | orangecontrib/imagenets/widgets/ow_imagenet_classify.py:44-45 | the first row that raises: it raises, none before it does, absent exactly when none does |
| Selection.StopAt | orangecontrib/imagenets/widgets/ow_imagenet_classify.py:36-47 | the loop's stopping row: nothing before it raises, and it is inside the table exactly when some row raises |
| Images.ApplyRecords | orangecontrib/imagenets/widgets/ow_image_preprocessor.py:39-46 | running stages keeps the source file and records exactly those stages in order |
| Images.ApplyInjective | orangecontrib/imagenets/widgets/ow_image_preprocessor.py:39-46 | two pipelines give the same image only for the same file and stages |
| Images.ImageDetermined | orangecontrib/imagenets/widgets/ow_image_preprocessor.py:39-46 | an image is determined by its source file and its stages |
| ImageNetBuilder.DefaultConfig | orangecontrib/imagenets/widgets/ow_imagenet_builder.py:266-279 | a new layer dictionary names its type; an unknown type gets only its "type" entry |
| ImageNetBuilder.LayerFor | orangecontrib/imagenets/widgets/ow_imagenet_builder.py:121-124 | `add_layer` uses the 10-way softmax Dense output exactly for a default Dense, and `default_config` otherwise |
| ImageNetBuilder.InsertIndex | orangecontrib/imagenets/widgets/ow_imagenet_builder.py:126-127 | the insert position is in the list, and is the top exactly when asked or when the list has at most one layer |
| ImageNetBuilder.AddedFacts | orangecontrib/imagenets/widgets/ow_imagenet_builder.py:121-130 | adding grows the list by exactly the new layer, at the top when asked or empty, otherwise just before the last layer, which stays last |
| ImageNetBuilder.MovedFacts | orangecontrib/imagenets/widgets/ow_imagenet_builder.py:197-202 | an in-range move exchanges two layers and leaves the others in place (same multiset); an out-of-range move changes nothing |
| ImageNetBuilder.SwapMultiset | orangecontrib/imagenets/widgets/ow_imagenet_builder.py:200 | exchanging two entries keeps the same layers |
| ImageNetBuilder.MovedBack | orangecontrib/imagenets/widgets/ow_imagenet_builder.py:197-202 | moving a layer back where it came from restores the list |
| ImageNetBuilder.DeletedFacts | orangecontrib/imagenets/widgets/ow_imagenet_builder.py:204-210 | deleting removes that layer and no other, keeping the rest in order |
| ImageNetBuilder.ClearedAsWrittenOrder | orangecontrib/imagenets/widgets/ow_imagenet_builder.py:117-119 | as written, clearing leaves [Dense output, Rescaling]: Rescaling ends up last |
| ImageNetBuilder.ClearedOrder | orangecontrib/imagenets/widgets/ow_imagenet_builder.py:111-119 | the corrected clear leaves [Rescaling, Dense output], and a later add below the top keeps the Dense output last |
| ImageNetBuilder.PrebuiltFacts | orangecontrib/imagenets/widgets/ow_imagenet_builder.py:13-41 | every template layer names its type, and every template except "None" ends in the 10-way softmax output |
| ImageNetBuilder.BuiltFacts | orangecontrib/imagenets/widgets/ow_imagenet_builder.py:225-232 | a model is built exactly when every dictionary is buildable, with one layer per dictionary, in order, of the named class, the other entries as keyword arguments |
| ImageNetBuilder.BuildKerasModel | orangecontrib/imagenets/widgets/ow_imagenet_builder.py:225-232 | the loop builds exactly that model, or fails at the first dictionary that cannot be built |
| ImageNetBuilder.UpdateParamFacts | orangecontrib/imagenets/widgets/ow_imagenet_builder.py:212-214 | editing a parameter changes that one entry of that one layer and nothing else |
| ImageNetBuilder.ImageNetBuilder.constructor | orangecontrib/imagenets/widgets/ow_imagenet_builder.py:234-241 | start-up takes the saved list when it decodes and every layer names its type, and otherwise falls back to the corrected cleared network (see "## Findings") |
| ImageNetBuilder.ImageNetBuilder.LoadSavedConfig | orangecontrib/imagenets/widgets/ow_imagenet_builder.py:234-241 | the same, as a handler, with the models sent |
| ImageNetBuilder.ImageNetBuilder.UpdateModelConfig | orangecontrib/imagenets/widgets/ow_imagenet_builder.py:216-223 | the setting becomes the list and the model built from it is sent |
| ImageNetBuilder.ImageNetBuilder.AddLayer | orangecontrib/imagenets/widgets/ow_imagenet_builder.py:121-130 | the list after `add_layer`, saved and sent |
| ImageNetBuilder.ImageNetBuilder.ClearLayers | orangecontrib/imagenets/widgets/ow_imagenet_builder.py:111-119 | the corrected clear: the list becomes [Rescaling, Dense output], and two models are sent |
| ImageNetBuilder.ImageNetBuilder.ClearLayersAsWritten | orangecontrib/imagenets/widgets/ow_imagenet_builder.py:111-119 | the clear as written: the list becomes [Dense output, Rescaling] |
| ImageNetBuilder.ImageNetBuilder.MoveLayer | orangecontrib/imagenets/widgets/ow_imagenet_builder.py:197-202 | the list after the move; saved and sent only when the move is in range |
| ImageNetBuilder.ImageNetBuilder.DeleteLayer | orangecontrib/imagenets/widgets/ow_imagenet_builder.py:204-210 | with at most two layers, a warning and no change; otherwise that layer is removed, saved and sent |
| ImageNetBuilder.ImageNetBuilder.UpdateParam | orangecontrib/imagenets/widgets/ow_imagenet_builder.py:212-214 | the edited parameter is set in that layer, saved and sent |
| ImageNetBuilder.ImageNetBuilder.LoadPrebuiltModel | orangecontrib/imagenets/widgets/ow_imagenet_builder.py:260-264 | a known template replaces the list, which is saved and sent; an unknown name changes nothing |
| LoadImageNet.H5Attempt | orangecontrib/imagenets/widgets/ow_load_imagenet.py:48-53 | a model is stored and sent exactly when `load_model` succeeds; otherwise its error is shown |
| LoadImageNet.JsonAttemptFacts | orangecontrib/imagenets/widgets/ow_load_imagenet.py:65-73 | sent exactly when the file is read, the architecture built and the weights loaded; when only the weights fail, the unweighted architecture is already stored but not sent |
| LoadImageNet.JsonWeightsFile | orangecontrib/imagenets/widgets/ow_load_imagenet.py:62-70 | a sent JSON model carries weights from the file named by the JSON path's root plus "_weights.h5" |
| Paths.WeightsPathShape | orangecontrib/imagenets/widgets/ow_load_imagenet.py:62 | the weights path ends in "_weights.h5" and keeps the JSON path up to its extension |
| Paths.WeightsPathExample | orangecontrib/imagenets/widgets/ow_load_imagenet.py:62 | "a/b.json" loads its weights from "a/b_weights.h5" |
| Paths.SplitextParts | orangecontrib/imagenets/widgets/ow_load_imagenet.py:62 | `splitext` cuts the path in two; the extension is empty or a dot-led tail of the last component |
| Paths.LastIndexOf | orangecontrib/imagenets/widgets/ow_load_imagenet.py:62 | the last occurrence of a character, or -1 |
| LoadImageNet.StartupLoad | orangecontrib/imagenets/widgets/ow_load_imagenet.py:33-37 | start-up reloads exactly when a file is remembered and its kind is "h5" or "json" |
| LoadImageNet.LoadImageNet.constructor | orangecontrib/imagenets/widgets/ow_load_imagenet.py:24-37 | start-up reloads the remembered file with the loader of its kind, and otherwise keeps the settings with no model |
| LoadImageNet.LoadImageNet.LoadH5 | orangecontrib/imagenets/widgets/ow_load_imagenet.py:44-53 | the file, its directory and "h5" are remembered even when loading fails; then the model is stored and sent, or the error shown and the old model kept |
| LoadImageNet.LoadImageNet.LoadJson | orangecontrib/imagenets/widgets/ow_load_imagenet.py:60-73 | the same for a JSON file and its weights |
| LoadImageNet.LoadImageNet.LoadH5Dialog | orangecontrib/imagenets/widgets/ow_load_imagenet.py:39-42 | the dialog opens at the remembered directory; a chosen file is loaded, a cancelled dialog changes nothing |
| LoadImageNet.LoadImageNet.LoadJsonDialog | orangecontrib/imagenets/widgets/ow_load_imagenet.py:55-58 | the same for JSON |
| Paths.DirnamePrefix | orangecontrib/imagenets/widgets/ow_load_imagenet.py:45 | `os.path.dirname` is a prefix of the path, and empty for a path without '/' |
| Paths.DirnameExamples | orangecontrib/imagenets/widgets/ow_save_imagenet.py:45 | the directory of "a/b.json" is "a", of "/m.h5" is "/" |
| Paths.StripTrailingSlashes | orangecontrib/imagenets/widgets/ow_save_imagenet.py:45 | the path without its trailing slashes |
| Paths.JoinShape | orangecontrib/imagenets/widgets/ow_image_preprocessor.py:47-51 | `os.path.join(a, b)` ends with b; it is b for an absolute b and otherwise extends a |
| Paths.JoinInjective | orangecontrib/imagenets/widgets/ow_image_augmenter.py:217-218 | within one directory, distinct relative names give distinct paths |
| Paths.WithSuffixEnds | orangecontrib/imagenets/widgets/ow_save_imagenet.py:41-43 | after the extension rule the name ends with the extension |
| Paths.WithSuffixAppendsIffMissing | orangecontrib/imagenets/widgets/ow_save_imagenet.py:41-43 | the extension is appended exactly when it is missing |
| Paths.WithSuffixIdempotent | orangecontrib/imagenets/widgets/ow_save_imagenet.py:41-43 | applying the extension rule twice is the same as once |
| SaveImageNet.SaveTarget | orangecontrib/imagenets/widgets/ow_save_imagenet.py:40-43 | a cancelled dialog saves nothing; otherwise the file ends with the extension, starts with the chosen name, and equals it exactly when the extension was present |
| SaveImageNet.SaveTargetIdempotent | orangecontrib/imagenets/widgets/ow_save_imagenet.py:41-43 | choosing the file a save wrote saves to that same file again |
| SaveImageNet.RememberedDirectory | orangecontrib/imagenets/widgets/ow_save_imagenet.py:45 | the remembered directory is a prefix of the file written |
| SaveImageNet.SaveImageNet.constructor | orangecontrib/imagenets/widgets/ow_save_imagenet.py:19-24 | the stored directory and no model |
| SaveImageNet.SaveImageNet.SetModel | orangecontrib/imagenets/widgets/ow_save_imagenet.py:31-33 | the model is remembered |
| SaveImageNet.SaveImageNet.SaveAsH5 | orangecontrib/imagenets/widgets/ow_save_imagenet.py:35-45 | without a model, "No model to save." and no dialog; otherwise the dialog opens at the remembered directory and a chosen name writes one .h5 file and remembers its directory, or raises and changes nothing |
| SaveImageNet.SaveImageNet.SaveAsJson | orangecontrib/imagenets/widgets/ow_save_imagenet.py:47-58 | the same for the JSON architecture file |

## Left out

- The Qt user interface is not modelled: layouts, buttons, spin boxes, previews (`show_preview`, `augment_image`), the builder's `_rebuild_ui` and info-label styling. Handlers are methods that take the dialog's answer as a parameter.
- Threads and signals are not modelled: each worker runs to the end inside the handler that starts it, and `progress` and `finished` become ghost event lists.
- Pixel operations are opaque: the Keras generator, PIL blur, numpy noise and OpenCV calls are recorded as stages of an `Image`, and random draws are numbered.
- `uuid4`, `os.path.exists`, `load_img`, `load_model`, `model_from_json`, `load_weights`, `model.save`, `open` and `model.predict` are parameters of the operations that call them.
- The file system is a snapshot taken as the run starts (`onDisk`); the files and directories a run adds are tracked as ghost lists, not fed back into `onDisk`.
- ImagePreprocessor.ProcessRows: `os.makedirs` is modelled as creating the one output directory of a file; the intermediate parent directories it also creates are not tracked.
- ImageNetBuilder.ImageNetBuilder.LoadPrebuiltModel: the source copies the template list shallowly, so a later parameter edit also changes the shared template dictionaries; the model treats layer dictionaries as values, so that aliasing is not captured.
- The builder's `model_config` setting is JSON text in the source; the model holds the list it encodes, and JSON encoding and decoding are not modelled (an undecodable setting is `None`).
- The builder's model export buttons (`_export_model_h5`, `_export_model_json`) are not modelled; they save like the Save widget, whose file rules are modelled.
- The train-and-score widget is not part of this model.
- ImageNetClassify.Classify: only a discrete class variable is modelled (its value names); a continuous class variable's `str_val` is not.
- ImageNetClassify.Broadcast: `add_column` is modelled as accepting one cell per row or a single cell; other numpy broadcasting shapes are not modelled.
- Exception texts are the Python messages, shortened for numpy's broadcast error, for OpenCV's empty-input error (to its assertion code) and for `Table.from_numpy`'s column error (without the counts); where several exceptions could arise only the modelled ones appear.
- ImageNetBuilder.ImageNetBuilder.constructor: falls back to the corrected clear, giving [Rescaling, Dense(10, softmax)]; the program falls back to `clear_layers` as written (line 241), giving [Dense(10, softmax), Rescaling], which is what `ClearLayersAsWritten` states.
- ImageNetBuilder.ImageNetBuilder.LoadSavedConfig: the same fallback to the corrected clear; the program sends `Built([Rescaling])` and then `Built([Dense, Rescaling])`, as `ClearLayersAsWritten` states, where this member sends `Built([Dense])` and then `Built([Rescaling, Dense])`.
- Tables: attribute (feature) values are not modelled; a domain records only how many attribute columns it has, which is what the augmenter's `Table.from_numpy` call depends on.
- ImageAugmenter.AugmentTable: of `Table.from_numpy`'s checks only the attribute-column count is modelled; its checks on the class-value array and on the meta array of an empty result are not.
- ImageAugmenter.AugmentRow: a save that raises is taken to leave no file behind. Whether a save raises is given per output number, not computed from the path and the disk.
- ImagePreprocessor.ProcessRows: `cv2.imwrite` reports a failed write by returning False, which the source ignores; it raises `cv2.error` for an extension with no encoder, and `os.makedirs` raises on a permission error; these exceptions would end the run, but the model treats every write and directory creation the loop reaches as succeeding.
- Progress.RealPercentBounds: works over exact reals; the source's percentage is an IEEE double, whose rounding is not modelled.
- Progress.RealPercentIncreasing: works over exact reals, so two close percentages that a double would round together are still ordered.
- ImageAugmenter.ScheduleProgress: states its bounds and strict increase over exact reals, not doubles.
- The widgets' `error()` messages are never cleared in the source either; the model keeps the last one.
- SaveImageNet.SaveImageNet.SaveAsJson: a failure while writing the JSON text can leave a partial file in the source; the model records no file then.
- LoadImageNet.LoadImageNet.LoadJson: `load_weights` changes the model object in place; the model returns a new `Weighted` value instead, so an object shared with an earlier output is not seen to change.
- ImageNetBuilder.ImageNetBuilder.MoveLayer, DeleteLayer and UpdateParam require a position of the drawn list, which is what the buttons pass.
- ImagePreprocessor.ImagePreprocessor.ShowPreviewImage: the two preview pictures and the "Error loading preview" text that the `try` block sets are not modelled; only the info label and the exception that escapes are.
- Tables.IndexOf: compares variables by identity, while Python's `metas.index` compares with Orange's name-based `Variable.__eq__`. The augmenter operations that use it (`ImageAugmenter.ScanImageVariables`, `ImageAugmenter.Run` and `ImageAugmenter.ImageAugmenter.GenerateAugmentations`) require the meta variables to be distinct objects, and the two comparisons agree only when the meta columns also have distinct names; tables with two meta columns of the same name are not modelled.
- ImageNetClassify.Work: the worker's own search loop (lines 25-30 of the classify widget) is modelled by `ImageTableVariables`, which has the same first-match behaviour; a table without an image column gives the `metas.index(None)` error.
- The augmenter's "Could not load" console message is not modelled; with an absent origin the source raises while building it, and that exception is modelled.
- The widgets' status messages are not modelled.

## Findings

| source | as written | input that shows it | evidently intended | confidence | as-written member | corrected member |
|---|---|---|---|---|---|---|
| orangecontrib/imagenets/widgets/ow_imagenet_builder.py:117-119 | `clear_layers` adds Rescaling at the top of the empty list, then the default Dense "before the last layer", which is before Rescaling: the list is [Dense(10, softmax), Rescaling], with Rescaling as the output | the Clear button, or start-up with a saved setting that does not decode or has a layer without "type" | [Rescaling, Dense(10, softmax)]: the input rescaling first and the softmax output last | not executed | ImageNetBuilder.ClearedAsWrittenOrder | ImageNetBuilder.ClearedOrder |

The corrected clear is `ImageNetBuilder.ImageNetBuilder.ClearLayers`, and the constructor and `LoadSavedConfig` fall back to it. The as-written handler remains as `ImageNetBuilder.ImageNetBuilder.ClearLayersAsWritten`; it is what the program's start-up fallback runs (see "## Left out").
