# smacpy, modelled in Dafny

smacpy is a "simple-minded audio classifier". `Smacpy.__init__` reads every
training WAV file into a matrix of MFCC frames. It stacks all the frames and
computes each column's mean and inverse standard deviation (an inverse of 1
where the deviation is 0). It normalises every file's frames with those
statistics, pools the normalised frames per class label and fits one
10-component full-covariance GMM per label. `classify` normalises the
frames of one file, sums the log-likelihood every GMM gives them and returns
the label of the strictly best score. It returns `''` when no score beats
-9e99. `file_to_features` refuses a missing file, a file with more than one
channel and a sample rate other than 44100. Otherwise it cuts the samples
into whole frames of 1024 in order, drops the last partial frame, and keeps
coefficients 1 to 13 of each frame's cepstrum. The script part of smacpy.py
labels a training file by the part of its basename before the split
character. The housekeeping script custom.py has two passes over `wavs`:
- It moves every file f of every sub-folder d up into `wavs` as
  `d + "_" + f`, with each `_` of f changed to `x`. It removes each folder
  once the folder is empty.
- It converts every `.mp3` of the listing it took at the start into a `.wav`.

The project has three modules:

- `Smacpy` (smacpy.dfy) covers the classifier.
  - Feature extraction: `FileToFeatures` is a loop proved against the
    function `Frames`.
  - Statistics: `InvertStds` updates an `array` in place.
  - Normalisation: `Normalise`, with its inverse `Denormalise`.
  - Training: the loops `Aggregate` and `FitGmms` pool the frames by label
    and fit the GMMs. `Train` models `__init__` and ties the trained `Model`
    to the predicate `TrainedFrom`.
  - Classification: `Classify` is the argmax loop, proved against
    `IsBestLabel`.
- `SmacpyScript` (smacpy_script.dfy) covers the label rule of the script:
  `Basename`, `FirstPiece` (the first piece of `str.split`) and `ClassLabel`.
- `Custom` (custom.dfy) covers custom.py.
  - Each step of the script is a function on a map from the names in `wavs`
    to entries (files of bytes, directories of entries).
  - The class `Workspace` holds that map as a field. Its method `Run` performs
    the script step by step, with the same nested loops, and is proved to
    reach the state the function `Script` describes.

The numerical engines are parameters of the operations that use them:
- `cepstrum` stands for Hamming window + FFT + mel warping + MFCC of one
  frame.
- `colMean` and `colStd` stand for `np.mean` / `np.std` along axis 0, one
  column at a time.
- `logLik` stands for one frame's value of `gmm.eval`.
- `toWav` stands for pydub's MP3 decode + WAV export.

The file system also enters as parameters:
- `files` maps a path to a sound file's channels, sample rate and samples.
- The iteration orders of the Python dictionaries and of `os.listdir` are
  explicit sequences, or the parameter `listdir`.

## Model

| member | source | states |
|---|---|---|
| Smacpy.ReadFrames | smacpy.py:119-120 | a read of n samples at pos returns the next min(n, remaining) samples of the stream, in order |
| Smacpy.Coefficients | smacpy.py:129-130 | the kept coefficients are c[1..] cut to at most 13, each equal to the cepstrum coefficient one place later |
| Smacpy.FramesCount | smacpy.py:116-122 | a stream of L samples yields exactly floor(L / 1024) frames; the partial tail is dropped |
| Smacpy.FramesInOrder | smacpy.py:119-134 | frame k is the coefficients of samples [1024k, 1024(k+1)): frames come in stream order and never overlap |
| Smacpy.ShortStreamHasNoFrames | smacpy.py:120-122 | a stream shorter than one frame gives an empty feature matrix, not an error |
| Smacpy.MissingFileRaisesNameError | smacpy.py:111 | as written, a missing file raises NameError for the undefined name `path` instead of the intended ValueError |
| Smacpy.MissingFileReportsPath | smacpy.py:111-114 | the corrected check reports the missing path, and agrees with the code as written on every existing file |
| Smacpy.FileToFeatures | smacpy.py:108-139 | fails exactly when the file is missing, not mono, or not at 44100 Hz, with that error; otherwise returns floor(L/1024) feature rows, row k from frame k |
| Smacpy.InvStd | smacpy.py:64-68 | a deviation of 0 gives 1.0; any other deviation s gives r with r * s == 1; never 0 |
| Smacpy.InvertedStds | smacpy.py:63-68 | the inverted vector has the same length, each entry obeys the InvStd rule and none is 0 |
| Smacpy.InvertStds | smacpy.py:64-68 | the in-place loop leaves the array equal to the inverted deviations of its old contents |
| Smacpy.Normalise | smacpy.py:90-92 | normalised data keeps the number of rows and the width of the statistics |
| Smacpy.NormaliseWithStats | smacpy.py:62-92 | an entry is (x - mean) / std, or x - mean where std is 0 |
| Smacpy.NormaliseRoundTrip | smacpy.py:90-92 | normalising with the trained statistics is undone by Denormalise: no information is lost |
| Smacpy.NormalisedColumnSum | smacpy.py:90-92 | a normalised column sums to (column sum - n * mean) * invstd |
| Smacpy.NormalisedMeanIsZero | smacpy.py:61-92 | when the means are the column means of the data, every normalised column of that data sums to 0 |
| Smacpy.ConcatConforms | smacpy.py:61 | stacking matrices of one width gives a matrix of that width |
| Smacpy.PoolIsGather | smacpy.py:70-78 | the pooled dictionary has a key exactly for each training label, and each label's value is that label's frames gathered in file order |
| Smacpy.PoolAt | smacpy.py:75-78 | for one label: it is a key iff it is a training label, and its value is the gathered frames |
| Smacpy.GatherOfAbsentLabel | smacpy.py:75-78 | a label no file carries gathers no frames |
| Smacpy.GatherCount | smacpy.py:76-78 | a label's pooled matrix has as many rows as its files have frames together |
| Smacpy.GatherRows | smacpy.py:73-78 | every pooled row of a label comes from a file of that label, and every row of such a file is pooled |
| Smacpy.NormaliseAll | smacpy.py:72-74 | normalising every file keeps each file's frame count and gives the statistics' width |
| Smacpy.NormaliseKeepsFrameCount | smacpy.py:74 | normalisation does not change how many frames a label pools |
| Smacpy.Aggregate | smacpy.py:70-78 | the pooling loop builds Pool of the normalised files: keys are the labels, values the gathered normalised frames |
| Smacpy.FitGmms | smacpy.py:80-86 | one GMM per pooled label, with 10 components and full covariance, fitted on that label's pooled frames |
| Smacpy.ExtractAll | smacpy.py:58 | when extraction succeeds there is one feature matrix per training file |
| Smacpy.ExtractAllStopsAtFailure | smacpy.py:58 | the first file that fails ends extraction, with that file's error |
| Smacpy.ExtractAllPerFile | smacpy.py:58 | extraction succeeds exactly when every training file can be read, and then matrix k is the features of file k joined below the folder |
| Smacpy.ExtractFeatures | smacpy.py:58 | the extraction loop computes ExtractAll |
| Smacpy.Train | smacpy.py:50-88 | propagates the first extraction error; empty training data or unstackable shapes are errors; it succeeds exactly when every file is read and the matrices stack, and then the model holds the column statistics of all frames and one GMM per training label, each fitted on that label's normalised frames |
| Smacpy.FitModel | smacpy.py:61-86 | once the matrices stack, training always yields a model: the column statistics of all frames, and one GMM per label fitted on that label's normalised frames, as many frames as that label's files hold |
| Smacpy.FittedFrameCounts | smacpy.py:74-86 | a GMM fitted on a label's pooled normalised frames sees as many frames as the label's files hold |
| Smacpy.ScoreAppend | smacpy.py:101-102 | the score of stacked frames is the sum of the scores of the parts |
| Smacpy.ScoreIgnoresFrameOrder | smacpy.py:101-102 | swapping two blocks of frames does not change a score |
| Smacpy.BestLabelIsUnique | smacpy.py:98-106 | the label classify chooses is determined by the scores |
| Smacpy.Classify | smacpy.py:94-106 | propagates extraction errors and refuses features the statistics cannot normalise; it returns a label exactly on the remaining files, and the label is '' when no score beats -9e99, or else the first visited label whose score is maximal (at least every score, strictly above every earlier one) |
| SmacpyScript.Basename | smacpy.py:160 | the basename is the suffix after the last '/', holding no '/' |
| SmacpyScript.BasenameOfJoin | smacpy.py:160 | the basename of folder/name is name when name holds no '/' |
| SmacpyScript.FirstPiece | smacpy.py:160 | the first piece of split is the prefix before the first occurrence of the separator, or the whole string when there is none |
| SmacpyScript.FirstPieceAtChar | smacpy.py:160 | with a one-character separator c, the piece holds no c and stops at the first c |
| SmacpyScript.ClassLabelSplitsAtFirstChar | smacpy.py:150-160 | the label is the basename's prefix before the first split character, or the whole basename |
| SmacpyScript.EmptyCharsplitIsRefused | smacpy.py:160 | an empty split string is an error (Python's ValueError), not a label |
| Custom.ReplaceUnderscores | custom.py:28 | same length, every '_' becomes 'x', every other character stays, no '_' remains |
| Custom.ReplaceUnderscoresIsIdempotent | custom.py:28 | replacing twice is replacing once |
| Custom.ReplaceUnderscoresMayCollide | custom.py:28-30 | "a_b" and "axb" get the same new name |
| Custom.FlatName | custom.py:30 | the new name is the folder, '_', then the replaced file name |
| Custom.FlatNameIsNotFolder | custom.py:30 | a file never moves onto its own folder's name |
| Custom.FlatNameRecoversFolder | custom.py:30 | when the folder name holds no '_', the part of the new name before its first '_' is the folder |
| Custom.FlatNameHasNoSlash | custom.py:30 | the new name is a plain name in wavs |
| Custom.FlatNameKeepsWavExtension | custom.py:28-30 | a .wav file stays a .wav file |
| Custom.FlattenedFileIsLabelledByFolder | custom.py:28-30 | smacpy with the default '_' labels a flattened file by its old folder |
| Custom.WavName | custom.py:38-40 | the exported name keeps all but the last four characters and ends in ".wav" |
| Custom.Mp3NameIsStemAndExtension | custom.py:38-40 | stem + ".mp3" is converted to stem + ".wav" |
| Custom.WavNameIsInjective | custom.py:40 | two MP3 names never export to the same WAV name |
| Custom.MoveOutStep | custom.py:27-32 | one move: the file takes its new name with its content, the folder keeps the rest of its listing or is removed when empty, nothing else changes |
| Custom.MoveOutShape | custom.py:27-32 | the names of wavs after one move, and the rest of the folder's listing |
| Custom.MoveOutMoved | custom.py:30 | after one move the file is under its new name with its content |
| Custom.MoveOutKeepsChildren | custom.py:30-32 | the files left in the folder keep their contents |
| Custom.FlatNamesSplit | custom.py:27-30 | the set of new names of a listing is that of its head plus that of its tail |
| Custom.FlattenFolderEffect | custom.py:20-32 | flattening a folder removes it iff its listing is non-empty, adds the new names, and leaves every other name of wavs as it was |
| Custom.FlattenFolderKeys | custom.py:27-32 | the names of wavs after flattening one folder |
| Custom.FlattenFolderUnchanged | custom.py:27-32 | names that are neither the folder nor a new name are untouched |
| Custom.FlattenFolderKeepsContents | custom.py:27-30 | when the new names are distinct, every file of the folder ends up under its new name with its content |
| Custom.DistinctFlatNamesTail | custom.py:27-30 | distinct new names stay distinct on the rest of the listing, and the head's new name is not among them |
| Custom.KeepsContentAt | custom.py:27-30 | file i of the listing ends up under its new name with its content |
| Custom.FlattenAllSkipsFiles | custom.py:17-34 | a listing of plain files flattens nothing |
| Custom.EmptyFolderIsKept | custom.py:21-23 | an empty sub-folder is left in place |
| Custom.ConvertAllEffect | custom.py:36-40 | after conversion the names are the old ones plus the WAV names of the listing's MP3s, and every other name keeps its content |
| Custom.ConvertedNamesComeFromListing | custom.py:11-40 | an MP3 name outside the listing has no converted name |
| Custom.MovedMp3IsNotConverted | custom.py:11-40 | an MP3 not in the listing taken at line 11, such as one just moved out of a sub-folder, is not converted in the same run |
| Custom.Workspace.constructor | custom.py:8-9 | the workspace holds whether wavs exists and what it contains |
| Custom.Workspace.Rename | custom.py:30 | the rename succeeds or fails as RenameOut says and leaves its state |
| Custom.Workspace.RemoveIfEmptyDir | custom.py:31-32 | the folder is removed exactly when its listing is empty |
| Custom.Workspace.ExportWav | custom.py:39-40 | the export succeeds or fails as Export says and leaves its state |
| Custom.Workspace.FlattenFolderIn | custom.py:27-32 | the inner loop reaches the state FlattenFolder describes, stopping at the first call that raises |
| Custom.Workspace.FlattenAllIn | custom.py:17-34 | the outer loop reaches the state FlattenAll describes |
| Custom.Workspace.ConvertAllIn | custom.py:36-40 | the MP3 loop over the listing of line 11 reaches the state ConvertAll describes |
| Custom.Workspace.Run | custom.py:8-55 | the nested loops of the script reach the state Script describes, and report whether any call raised |

## Left out

- The MFCC computation (Hamming window, FFT, mel warping, `getMFCCs`) is the parameter `cepstrum`. MFCC.py is not part of this model.
- The mean and standard deviation are the parameters `colMean` and `colStd`. How numpy computes them in floating point is not modelled.
- GMM fitting and evaluation (sklearn) are not modelled. A `Gmm` records its component count, its covariance type and the data it was fitted on. `logLik` gives each frame's log-likelihood.
- Floating point is modelled as `real`, and samples are read as real numbers, with no float32 rounding.
- Sndfile's own failures (an unreadable or unsupported file) and its `RuntimeError` at line 135 are not modelled. A file is present or absent in `files`, and a read at the end of a stream returns fewer samples.
- The verbose `print` calls, `argparse`, `glob`, `os.path.relpath`, the testing pass and the accuracy count of the script are left out. So is the "Found no files" RuntimeError of line 164.
- Smacpy.Train: the model reports `ShapeMismatch` for any training file with no frames and for any two widths that differ.
- Smacpy.Train: a file with no frames is `np.array([])` of shape (0,), which `np.vstack` takes as a row of width 0. The source raises in `np.vstack` only when that row meets 13-wide rows. When every training file is empty, stacking succeeds there and the failure comes later, inside sklearn's `GMM.fit` (line 86). The model reports `ShapeMismatch` in both cases.
- Smacpy.FileToFeatures: a missing file gives the corrected `PathNotFound`. The code as written raises NameError there (see "## Findings"); `CheckSoundFileAsWritten` models that.
- Smacpy.Train: sklearn's failure on too few frames for 10 components is not modelled. The code has no check for too few frames, so the model has none either.
- Smacpy.Classify: the code has no check that training has run. With no GMMs the model returns '' as the code does. A file with no frames is `ShapeMismatch`, the shape error the normalisation raises.
- Smacpy.Classify: numpy's broadcasting at line 92 is not modelled. A feature matrix of shape (n, 1) is broadcast against 13-wide statistics, and the source returns a label; the model requires the features to have the statistics' width (`Classifiable`), so it reports `ShapeMismatch` there.
- Dictionary and directory orders are not fixed by Python 2 or the OS. They are explicit sequences: the order of `trainingdata`, the `order` of the GMM labels, and the parameter `listdir`.
- Custom.Workspace.Run: `os.makedirs` of line 53 is modelled as creating an empty `wavs`. The path of the script (lines 4-5) is not used and is left out.
- Custom: the pydub decoder is the parameter `toWav`. A decode failure is not modelled; only a missing MP3 or a directory in the way of the export fails.
- Custom: raised exceptions end the run. The model reports them as `ok == false`, with the state the earlier calls left.

## Findings

| source | as written | input that shows it | evidently intended | confidence | as-written member | corrected member |
|---|---|---|---|---|---|---|
| smacpy.py:111 | the message formats `path`, a name not defined in `file_to_features`, so a missing file raises NameError | any `wavpath` that is not a file | raise ValueError("path <wavpath> not found") | not executed | Smacpy.MissingFileRaisesNameError | Smacpy.MissingFileReportsPath |
