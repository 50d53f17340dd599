/**
 * The Smacpy classifier of smacpy.py: framing of a mono sound file into
 * cepstral feature vectors, the normalisation statistics, per-label pooling
 * of normalised features, one mixture model per label, and the
 * maximum-likelihood choice of a label.
 *
 * The numeric engines are parameters of the operations that use them:
 *  - cepstrum: Hamming window, FFT magnitude, mel warping and MFCC engine of
 *    one 1024-sample chunk (coefficient 0 first);
 *  - colMean, colStd: np.mean / np.std of one column of the pooled matrix;
 *  - logLik: the per-frame log-likelihood that gmm.eval reports.
 */
module Smacpy {

  datatype Result<T, E> = Ok(value: T) | Err(error: E)

  /** Settings at the top of smacpy.py and literals of the class. */
  const FrameLen: nat := 1024
  const Fs: real := 44100.0
  const NumCoeffs: nat := 13
  const NComponents: nat := 10
  const InitialBestLL: real := -9e99

  type Frame = seq<real>
  type Vector = seq<real>
  type Matrix = seq<Vector>

  /** What Sndfile reports about an opened file, and its samples. */
  datatype SoundFile = SoundFile(channels: int, samplerate: real, samples: seq<real>)

  /** The exceptions the classifier raises. */
  datatype Error =
    | UndefinedName(name: string)              // NameError
    | PathNotFound(path: string)               // ValueError: path not found
    | MultipleChannels(channels: int)          // ValueError: mono audio required
    | WrongSampleRate(wanted: real, got: real) // ValueError: wanted sample rate
    | NoTrainingData                           // ValueError from np.vstack of nothing
    | ShapeMismatch                            // ValueError from np.vstack / broadcasting
    | EmptySeparator                           // ValueError from str.split('')

  function Min(a: int, b: int): int { if a <= b then a else b }

  /** Every row of the matrix has width d. */
  predicate Conforms(m: Matrix, d: nat)
  {
    forall r :: 0 <= r < |m| ==> |m[r]| == d
  }

  // ---------------------------------------------------------------------
  // Reading and framing (file_to_features)
  // ---------------------------------------------------------------------

  /** read_frames(n) after pos samples were consumed: the next n samples,
      or all that remain when fewer than n are left. */
  function ReadFrames(samples: seq<real>, pos: nat, n: nat): (chunk: seq<real>)
    requires pos <= |samples|
    ensures |chunk| == Min(n, |samples| - pos)
    ensures chunk == samples[pos..pos + |chunk|]
  {
    if pos + n <= |samples| then samples[pos..pos + n] else samples[pos..]
  }

  /** melCepstrum[1:][:13]: coefficient 0 is dropped and at most the next
      NumCoeffs are kept, in order. */
  function Coefficients(c: seq<real>): (v: Vector)
    ensures |v| == if |c| == 0 then 0 else Min(|c| - 1, NumCoeffs)
    ensures forall k :: 0 <= k < |v| ==> v[k] == c[k + 1]
  {
    if |c| <= 1 then [] else c[1..Min(|c|, NumCoeffs + 1)]
  }

  /** The feature vectors of a sample stream: one per full chunk, in order;
      a short final chunk ends the stream. */
  function Frames(samples: seq<real>, cepstrum: Frame -> seq<real>): Matrix
    decreases |samples|
  {
    if |samples| < FrameLen then []
    else [Coefficients(cepstrum(samples[..FrameLen]))] + Frames(samples[FrameLen..], cepstrum)
  }

  /** The k-th full chunk of a sample stream. */
  function Chunk(samples: seq<real>, k: nat): Frame
    requires (k + 1) * FrameLen <= |samples|
  {
    samples[k * FrameLen..(k + 1) * FrameLen]
  }

  /** L samples give exactly floor(L / 1024) feature vectors. */
  lemma {:induction false} FramesCount(samples: seq<real>, cepstrum: Frame -> seq<real>)
    ensures |Frames(samples, cepstrum)| == |samples| / FrameLen
    decreases |samples|
  {
    if |samples| >= FrameLen {
      FramesCount(samples[FrameLen..], cepstrum);
    }
  }

  /** Vector k is built from chunk k: the vectors keep the temporal order. */
  lemma {:induction false} FramesInOrder(samples: seq<real>, cepstrum: Frame -> seq<real>, k: nat)
    requires k < |samples| / FrameLen
    ensures (k + 1) * FrameLen <= |samples|
    ensures |Frames(samples, cepstrum)| == |samples| / FrameLen
    ensures Frames(samples, cepstrum)[k] == Coefficients(cepstrum(Chunk(samples, k)))
    decreases |samples|
  {
    FramesCount(samples, cepstrum);
    if k > 0 {
      var rest := samples[FrameLen..];
      FramesInOrder(rest, cepstrum, k - 1);
      assert Chunk(rest, k - 1) == Chunk(samples, k);
    }
  }

  /** A stream shorter than one chunk gives no vectors and no error. */
  lemma ShortStreamHasNoFrames(samples: seq<real>, cepstrum: Frame -> seq<real>)
    requires |samples| < FrameLen
    ensures Frames(samples, cepstrum) == []
  {
  }

  /** Lines 111-114 with the evidently intended message: a missing path, a
      file with other than one channel, and a sample rate other than Fs
      are rejected, in that order, before anything is read. */
  function CheckSoundFile(files: map<string, SoundFile>, wavpath: string): Result<SoundFile, Error>
  {
    if wavpath !in files then Err(PathNotFound(wavpath))
    else if files[wavpath].channels != 1 then Err(MultipleChannels(files[wavpath].channels))
    else if files[wavpath].samplerate != Fs then Err(WrongSampleRate(Fs, files[wavpath].samplerate))
    else Ok(files[wavpath])
  }

  /** Lines 111-114 as written: the message of line 111 formats the name
      `path`, which is not defined in file_to_features, so a missing file
      raises NameError instead of the ValueError. */
  function CheckSoundFileAsWritten(files: map<string, SoundFile>, wavpath: string): Result<SoundFile, Error>
  {
    if wavpath !in files then Err(UndefinedName("path"))
    else CheckSoundFile(files, wavpath)
  }

  lemma MissingFileRaisesNameError(files: map<string, SoundFile>, wavpath: string)
    requires wavpath !in files
    ensures CheckSoundFileAsWritten(files, wavpath) == Err(UndefinedName("path"))
    ensures CheckSoundFileAsWritten(files, wavpath) != Err(PathNotFound(wavpath))
  {
  }

  lemma MissingFileReportsPath(files: map<string, SoundFile>, wavpath: string)
    requires wavpath !in files
    ensures CheckSoundFile(files, wavpath) == Err(PathNotFound(wavpath))
    ensures forall other :: other in files ==> CheckSoundFileAsWritten(files, other) == CheckSoundFile(files, other)
  {
  }

  /** file_to_features as a value: the format checks, then the framing. */
  function FeaturesOf(files: map<string, SoundFile>, wavpath: string, cepstrum: Frame -> seq<real>): Result<Matrix, Error>
  {
    match CheckSoundFile(files, wavpath)
    case Err(e) => Err(e)
    case Ok(sf) => Ok(Frames(sf.samples, cepstrum))
  }

  /** file_to_features: reads the file chunk by chunk until a chunk comes
      back short, turning every full chunk into one feature vector. */
  method FileToFeatures(files: map<string, SoundFile>, wavpath: string, cepstrum: Frame -> seq<real>)
      returns (r: Result<Matrix, Error>)
    ensures r == FeaturesOf(files, wavpath, cepstrum)
    ensures wavpath !in files ==> r == Err(PathNotFound(wavpath))
    ensures r.Ok? <==> wavpath in files && files[wavpath].channels == 1 && files[wavpath].samplerate == Fs
    ensures r.Ok? ==> |r.value| == |files[wavpath].samples| / FrameLen
    ensures r.Ok? ==> forall k :: 0 <= k < |r.value| ==>
              (k + 1) * FrameLen <= |files[wavpath].samples| &&
              r.value[k] == Coefficients(cepstrum(Chunk(files[wavpath].samples, k)))
  {
    if wavpath !in files { return Err(PathNotFound(wavpath)); }
    var sf := files[wavpath];
    if sf.channels != 1 { return Err(MultipleChannels(sf.channels)); }
    if sf.samplerate != Fs { return Err(WrongSampleRate(Fs, sf.samplerate)); }
    var samples := sf.samples;
    var features: Matrix := [];
    var pos: nat := 0;
    while true
      invariant pos <= |samples|
      invariant features + Frames(samples[pos..], cepstrum) == Frames(samples, cepstrum)
      decreases |samples| - pos
    {
      var chunk := ReadFrames(samples, pos, FrameLen);
      if |chunk| != FrameLen {
        break;
      }
      assert samples[pos..][..FrameLen] == chunk;
      assert samples[pos..][FrameLen..] == samples[pos + FrameLen..];
      features := features + [Coefficients(cepstrum(chunk))];
      pos := pos + FrameLen;
    }
    assert Frames(samples[pos..], cepstrum) == [];
    assert features == features + [];
    r := Ok(features);
    FramesCount(samples, cepstrum);
    forall k | 0 <= k < |features|
      ensures (k + 1) * FrameLen <= |samples| && features[k] == Coefficients(cepstrum(Chunk(samples, k)))
    {
      FramesInOrder(samples, cepstrum, k);
    }
  }

  // ---------------------------------------------------------------------
  // Normalisation statistics (__init__ lines 60-68) and __normalise
  // ---------------------------------------------------------------------

  /** The zero-variance rule: a standard deviation of 0 gives 1.0, any other
      value its reciprocal, so nothing is divided by zero. */
  function InvStd(std: real): (r: real)
    ensures std == 0.0 ==> r == 1.0
    ensures std != 0.0 ==> r * std == 1.0
    ensures r != 0.0
  {
    if std == 0.0 then 1.0 else 1.0 / std
  }

  /** What the loop of lines 64-68 leaves in self.invstds. */
  function InvertedStds(stds: Vector): (r: Vector)
    ensures |r| == |stds|
    ensures forall i :: 0 <= i < |r| ==> r[i] != 0.0
    ensures forall i :: 0 <= i < |r| ==> stds[i] == 0.0 ==> r[i] == 1.0
    ensures forall i :: 0 <= i < |r| ==> stds[i] != 0.0 ==> r[i] * stds[i] == 1.0
  {
    seq(|stds|, i requires 0 <= i < |stds| => InvStd(stds[i]))
  }

  /** Lines 64-68: every standard deviation is replaced in place by its
      inverse; the length does not change. */
  method InvertStds(a: array<real>)
    modifies a
    ensures a[..] == InvertedStds(old(a[..]))
  {
    var i := 0;
    while i < a.Length
      invariant 0 <= i <= a.Length
      invariant forall k :: 0 <= k < i ==> a[k] == InvStd(old(a[k]))
      invariant forall k :: i <= k < a.Length ==> a[k] == old(a[k])
    {
      if a[i] == 0.0 {
        a[i] := 1.0;
      } else {
        a[i] := 1.0 / a[i];
      }
      i := i + 1;
    }
  }

  /** __normalise: (data - means) * invstds, broadcast over the rows. */
  function Normalise(data: Matrix, means: Vector, invstds: Vector): (r: Matrix)
    requires |means| == |invstds| && Conforms(data, |means|)
    ensures |r| == |data| && Conforms(r, |means|)
  {
    seq(|data|, row requires 0 <= row < |data| =>
      seq(|means|, i requires 0 <= i < |means| => (data[row][i] - means[i]) * invstds[i]))
  }

  /** The inverse of __normalise, for statistics with no zero inverse. */
  function Denormalise(data: Matrix, means: Vector, invstds: Vector): (r: Matrix)
    requires |means| == |invstds| && Conforms(data, |means|)
    requires forall i :: 0 <= i < |invstds| ==> invstds[i] != 0.0
    ensures |r| == |data| && Conforms(r, |means|)
  {
    seq(|data|, row requires 0 <= row < |data| =>
      seq(|means|, i requires 0 <= i < |means| => data[row][i] / invstds[i] + means[i]))
  }

  /** With the statistics of lines 62-68, a dimension of zero variance is
      only mean-centred, and any other is divided by its deviation. */
  lemma NormaliseWithStats(data: Matrix, means: Vector, stds: Vector, row: nat, i: nat)
    requires |means| == |stds| && Conforms(data, |means|)
    requires row < |data| && i < |means|
    ensures Normalise(data, means, InvertedStds(stds))[row][i] ==
              if stds[i] == 0.0 then data[row][i] - means[i] else (data[row][i] - means[i]) / stds[i]
  {
    var inv := InvertedStds(stds);
    if stds[i] != 0.0 {
      assert inv[i] == 1.0 / stds[i];
    }
  }

  /** Normalising loses nothing: the statistics of lines 62-68 never have
      a zero inverse, so the training data can be recovered. */
  lemma NormaliseRoundTrip(data: Matrix, means: Vector, stds: Vector)
    requires |means| == |stds| && Conforms(data, |means|)
    ensures Denormalise(Normalise(data, means, InvertedStds(stds)), means, InvertedStds(stds)) == data
  {
    var inv := InvertedStds(stds);
    var back := Denormalise(Normalise(data, means, inv), means, inv);
    forall row | 0 <= row < |data|
      ensures back[row] == data[row]
    {
      forall i | 0 <= i < |means|
        ensures back[row][i] == data[row][i]
      {
        var x := data[row][i];
        assert Normalise(data, means, inv)[row][i] == (x - means[i]) * inv[i];
        assert back[row][i] == (x - means[i]) * inv[i] / inv[i] + means[i];
      }
    }
  }

  /** Sum of column i of a matrix. */
  function ColumnSum(m: Matrix, i: nat): real
    requires forall r :: 0 <= r < |m| ==> i < |m[r]|
    decreases |m|
  {
    if |m| == 0 then 0.0 else ColumnSum(m[..|m| - 1], i) + m[|m| - 1][i]
  }

  /** Normalising a column shifts its sum by the mean and scales it. */
  lemma {:induction false} NormalisedColumnSum(data: Matrix, means: Vector, invstds: Vector, i: nat)
    requires |means| == |invstds| && Conforms(data, |means|) && i < |means|
    ensures ColumnSum(Normalise(data, means, invstds), i) ==
              (ColumnSum(data, i) - |data| as real * means[i]) * invstds[i]
    decreases |data|
  {
    if |data| > 0 {
      var n := |data|;
      var front := data[..n - 1];
      NormalisedColumnSum(front, means, invstds, i);
      assert Normalise(data, means, invstds)[..n - 1] == Normalise(front, means, invstds);
    }
  }

  /** Dimension i of the normalised training data has mean 0 when means[i]
      is the mean of dimension i of the raw data. */
  lemma {:induction false} NormalisedMeanIsZero(data: Matrix, means: Vector, invstds: Vector, i: nat)
    requires |means| == |invstds| && Conforms(data, |means|) && i < |means|
    requires |data| > 0 && means[i] == ColumnSum(data, i) / |data| as real
    ensures ColumnSum(Normalise(data, means, invstds), i) == 0.0
  {
    NormalisedColumnSum(data, means, invstds, i);
    MeanCancels(ColumnSum(data, i), |data| as real, invstds[i], means[i]);
  }

  lemma MeanCancels(s: real, n: real, inv: real, m: real)
    requires n > 0.0 && m == s / n
    ensures (s - n * m) * inv == 0.0
  {
    assert n * m == s;
  }

  // ---------------------------------------------------------------------
  // Per-label pooling and the model bank (__init__ lines 70-86)
  // ---------------------------------------------------------------------

  /** One entry of the trainingdata dictionary: wavpath -> label. */
  datatype TrainingItem = TrainingItem(wavpath: string, classLabel: string)

  /** GMM(n_components=10, cvtype='full') fitted on a matrix; the fitted
      parameters are represented by the data they were fitted on. */
  datatype Gmm = Gmm(nComponents: nat, fullCovariance: bool, fittedOn: Matrix)

  /** The trained classifier: self.means, self.invstds and self.gmms. */
  datatype Model = Model(means: Vector, invstds: Vector, gmms: map<string, Gmm>)

  function Fit(data: Matrix): Gmm
  {
    Gmm(NComponents, true, data)
  }

  function Labels(items: seq<TrainingItem>): seq<string>
  {
    seq(|items|, k requires 0 <= k < |items| => items[k].classLabel)
  }

  /** np.vstack of a sequence of matrices. */
  function Concat(ms: seq<Matrix>): Matrix
    decreases |ms|
  {
    if |ms| == 0 then [] else Concat(ms[..|ms| - 1]) + ms[|ms| - 1]
  }

  lemma {:induction false} ConcatConforms(ms: seq<Matrix>, d: nat)
    requires forall k :: 0 <= k < |ms| ==> Conforms(ms[k], d)
    ensures Conforms(Concat(ms), d)
    decreases |ms|
  {
    if |ms| > 0 {
      ConcatConforms(ms[..|ms| - 1], d);
    }
  }

  /** The dictionary the loop of lines 71-78 builds: label -> rows of its
      files, appended in iteration order. */
  function Pool(labels: seq<string>, mats: seq<Matrix>): map<string, Matrix>
    requires |labels| == |mats|
    decreases |labels|
  {
    if |labels| == 0 then map[]
    else
      var agg := Pool(labels[..|labels| - 1], mats[..|mats| - 1]);
      var cls := labels[|labels| - 1];
      var normed := mats[|mats| - 1];
      if cls !in agg then agg[cls := normed] else agg[cls := agg[cls] + normed]
  }

  /** Reference for pooling: the rows of the files carrying label l,
      concatenated in file order. */
  function Gather(labels: seq<string>, mats: seq<Matrix>, l: string): Matrix
    requires |labels| == |mats|
    decreases |labels|
  {
    if |labels| == 0 then []
    else
      Gather(labels[..|labels| - 1], mats[..|mats| - 1], l) +
      (if labels[|labels| - 1] == l then mats[|mats| - 1] else [])
  }

  /** Sum of the frame counts of the files carrying label l. */
  function FrameCount(labels: seq<string>, mats: seq<Matrix>, l: string): nat
    requires |labels| == |mats|
    decreases |labels|
  {
    if |labels| == 0 then 0
    else
      FrameCount(labels[..|labels| - 1], mats[..|mats| - 1], l) +
      (if labels[|labels| - 1] == l then |mats[|mats| - 1]| else 0)
  }

  /** The pooled dictionary has exactly the training labels as keys, and
      each label's entry is the concatenation of its files' rows. */
  lemma PoolIsGather(labels: seq<string>, mats: seq<Matrix>)
    requires |labels| == |mats|
    ensures forall l :: l in Pool(labels, mats) <==> l in labels
    ensures forall l :: l in Pool(labels, mats) ==> Pool(labels, mats)[l] == Gather(labels, mats, l)
  {
    forall l
      ensures l in Pool(labels, mats) <==> l in labels
      ensures l in Pool(labels, mats) ==> Pool(labels, mats)[l] == Gather(labels, mats, l)
    {
      PoolAt(labels, mats, l);
    }
  }

  lemma {:induction false} PoolAt(labels: seq<string>, mats: seq<Matrix>, l: string)
    requires |labels| == |mats|
    ensures l in Pool(labels, mats) <==> l in labels
    ensures l in Pool(labels, mats) ==> Pool(labels, mats)[l] == Gather(labels, mats, l)
    decreases |labels|
  {
    if |labels| > 0 {
      var n := |labels|;
      var fl, fm := labels[..n - 1], mats[..n - 1];
      PoolAt(fl, fm, l);
      assert labels == fl + [labels[n - 1]];
      if l !in fl {
        GatherOfAbsentLabel(fl, fm, l);
      }
    }
  }

  lemma {:induction false} GatherOfAbsentLabel(labels: seq<string>, mats: seq<Matrix>, l: string)
    requires |labels| == |mats| && l !in labels
    ensures Gather(labels, mats, l) == []
    decreases |labels|
  {
    if |labels| > 0 {
      GatherOfAbsentLabel(labels[..|labels| - 1], mats[..|mats| - 1], l);
    }
  }

  /** Each label's row count is the sum of the frame counts of its files. */
  lemma {:induction false} GatherCount(labels: seq<string>, mats: seq<Matrix>, l: string)
    requires |labels| == |mats|
    ensures |Gather(labels, mats, l)| == FrameCount(labels, mats, l)
    decreases |labels|
  {
    if |labels| > 0 {
      GatherCount(labels[..|labels| - 1], mats[..|mats| - 1], l);
    }
  }

  /** Every pooled row of label l is a row of a file labelled l, and every
      row of a file labelled l is pooled under l. */
  lemma {:induction false} GatherRows(labels: seq<string>, mats: seq<Matrix>, l: string)
    requires |labels| == |mats|
    ensures forall row :: row in Gather(labels, mats, l) ==>
              exists k :: 0 <= k < |labels| && labels[k] == l && row in mats[k]
    ensures forall k, row :: 0 <= k < |labels| && labels[k] == l && row in mats[k] ==>
              row in Gather(labels, mats, l)
    decreases |labels|
  {
    if |labels| > 0 {
      var n := |labels|;
      GatherRows(labels[..n - 1], mats[..n - 1], l);
      var front := Gather(labels[..n - 1], mats[..n - 1], l);
      var last := if labels[n - 1] == l then mats[n - 1] else [];
      assert Gather(labels, mats, l) == front + last;
      forall row | row in Gather(labels, mats, l)
        ensures exists k :: 0 <= k < n && labels[k] == l && row in mats[k]
      {
        if row in front {
          var k :| 0 <= k < n - 1 && labels[..n - 1][k] == l && row in mats[..n - 1][k];
          assert labels[k] == l && row in mats[k];
        } else {
          assert labels[n - 1] == l && row in mats[n - 1];
        }
      }
      forall k, row | 0 <= k < n && labels[k] == l && row in mats[k]
        ensures row in Gather(labels, mats, l)
      {
        if k < n - 1 {
          assert labels[..n - 1][k] == l && row in mats[..n - 1][k];
        }
      }
    }
  }

  /** The normalised matrix of every training file (line 74). */
  function NormaliseAll(all: seq<Matrix>, means: Vector, invstds: Vector): (r: seq<Matrix>)
    requires |means| == |invstds|
    requires forall k :: 0 <= k < |all| ==> Conforms(all[k], |means|)
    ensures |r| == |all|
    ensures forall k :: 0 <= k < |all| ==> |r[k]| == |all[k]| && Conforms(r[k], |means|)
  {
    seq(|all|, k requires 0 <= k < |all| => Normalise(all[k], means, invstds))
  }

  /** Normalisation keeps every file's frame count, hence every label's. */
  lemma {:induction false} NormaliseKeepsFrameCount(labels: seq<string>, all: seq<Matrix>, means: Vector, invstds: Vector, l: string)
    requires |labels| == |all| && |means| == |invstds|
    requires forall k :: 0 <= k < |all| ==> Conforms(all[k], |means|)
    ensures FrameCount(labels, NormaliseAll(all, means, invstds), l) == FrameCount(labels, all, l)
    decreases |labels|
  {
    if |labels| > 0 {
      var n := |labels|;
      NormaliseKeepsFrameCount(labels[..n - 1], all[..n - 1], means, invstds, l);
      assert NormaliseAll(all, means, invstds)[..n - 1] == NormaliseAll(all[..n - 1], means, invstds);
    }
  }

  /** Lines 71-78: normalises each file's features and appends them to the
      entry of its label. */
  method Aggregate(labels: seq<string>, all: seq<Matrix>, means: Vector, invstds: Vector)
      returns (agg: map<string, Matrix>)
    requires |labels| == |all| && |means| == |invstds|
    requires forall k :: 0 <= k < |all| ==> Conforms(all[k], |means|)
    ensures agg == Pool(labels, NormaliseAll(all, means, invstds))
    ensures forall l :: l in agg <==> l in labels
    ensures forall l :: l in agg ==> agg[l] == Gather(labels, NormaliseAll(all, means, invstds), l)
  {
    ghost var normedAll := NormaliseAll(all, means, invstds);
    agg := map[];
    var i := 0;
    while i < |all|
      invariant 0 <= i <= |all|
      invariant agg == Pool(labels[..i], normedAll[..i])
    {
      var cls := labels[i];
      var normed := Normalise(all[i], means, invstds);
      assert labels[..i + 1][..i] == labels[..i] && normedAll[..i + 1][..i] == normedAll[..i];
      if cls !in agg {
        agg := agg[cls := normed];
      } else {
        agg := agg[cls := agg[cls] + normed];
      }
      i := i + 1;
    }
    assert labels[..i] == labels && normedAll[..i] == normedAll;
    PoolIsGather(labels, normedAll);
  }

  /** Lines 81-86: one GMM per pooled label, fitted on that label's rows;
      the dictionary order of the loop does not matter. */
  method FitGmms(agg: map<string, Matrix>) returns (gmms: map<string, Gmm>)
    ensures gmms.Keys == agg.Keys
    ensures forall l :: l in gmms ==> gmms[l] == Gmm(NComponents, true, agg[l])
  {
    gmms := map[];
    var todo := agg.Keys;
    while todo != {}
      invariant todo <= agg.Keys
      invariant gmms.Keys == agg.Keys - todo
      invariant forall l :: l in gmms ==> gmms[l] == Fit(agg[l])
      decreases |todo|
    {
      var cls :| cls in todo;
      gmms := gmms[cls := Fit(agg[cls])];
      todo := todo - {cls};
    }
  }

  // ---------------------------------------------------------------------
  // Training (__init__)
  // ---------------------------------------------------------------------

  /** os.path.join(a, b) for two POSIX path parts. */
  function JoinPath(a: string, b: string): string
  {
    if |b| > 0 && b[0] == '/' then b
    else if a == [] || a[|a| - 1] == '/' then a + b
    else a + "/" + b
  }

  /** Line 58: the features of every training file, in dictionary order;
      the first file that fails aborts with its error. */
  function ExtractAll(files: map<string, SoundFile>, wavfolder: string, items: seq<TrainingItem>,
                      cepstrum: Frame -> seq<real>): (r: Result<seq<Matrix>, Error>)
    ensures r.Ok? ==> |r.value| == |items|
    decreases |items|
  {
    if |items| == 0 then Ok([])
    else
      match ExtractAll(files, wavfolder, items[..|items| - 1], cepstrum)
      case Err(e) => Err(e)
      case Ok(ms) =>
        match FeaturesOf(files, JoinPath(wavfolder, items[|items| - 1].wavpath), cepstrum)
        case Err(e) => Err(e)
        case Ok(m) => Ok(ms + [m])
  }

  /** Once a file fails, the whole extraction fails with its error. */
  lemma {:induction false} ExtractAllStopsAtFailure(files: map<string, SoundFile>, wavfolder: string,
                                                    items: seq<TrainingItem>, cepstrum: Frame -> seq<real>, i: nat)
    requires i <= |items| && ExtractAll(files, wavfolder, items[..i], cepstrum).Err?
    ensures ExtractAll(files, wavfolder, items, cepstrum) == ExtractAll(files, wavfolder, items[..i], cepstrum)
    decreases |items| - i
  {
    if i < |items| {
      assert items[..i + 1][..i] == items[..i];
      ExtractAllStopsAtFailure(files, wavfolder, items, cepstrum, i + 1);
    } else {
      assert items[..i] == items;
    }
  }

  /** Extraction succeeds exactly when every file can be read, and then
      matrix k is the features of training file k. */
  lemma {:induction false} ExtractAllPerFile(files: map<string, SoundFile>, wavfolder: string,
                                             items: seq<TrainingItem>, cepstrum: Frame -> seq<real>)
    ensures ExtractAll(files, wavfolder, items, cepstrum).Ok? <==>
              forall k :: 0 <= k < |items| ==> FeaturesOf(files, JoinPath(wavfolder, items[k].wavpath), cepstrum).Ok?
    ensures ExtractAll(files, wavfolder, items, cepstrum).Ok? ==>
              forall k :: 0 <= k < |items| ==>
                ExtractAll(files, wavfolder, items, cepstrum).value[k] ==
                FeaturesOf(files, JoinPath(wavfolder, items[k].wavpath), cepstrum).value
    decreases |items|
  {
    var n := |items|;
    if n > 0 {
      ExtractAllPerFile(files, wavfolder, items[..n - 1], cepstrum);
      assert forall k :: 0 <= k < n - 1 ==> items[..n - 1][k] == items[k];
    }
  }

  /** Line 58 as a loop over the training dictionary. */
  method ExtractFeatures(files: map<string, SoundFile>, wavfolder: string, items: seq<TrainingItem>,
                         cepstrum: Frame -> seq<real>) returns (r: Result<seq<Matrix>, Error>)
    ensures r == ExtractAll(files, wavfolder, items, cepstrum)
  {
    var all: seq<Matrix> := [];
    var i := 0;
    while i < |items|
      invariant 0 <= i <= |items|
      invariant ExtractAll(files, wavfolder, items[..i], cepstrum) == Ok(all)
    {
      var m := FileToFeatures(files, JoinPath(wavfolder, items[i].wavpath), cepstrum);
      assert items[..i + 1][..i] == items[..i];
      if m.Err? {
        ExtractAllStopsAtFailure(files, wavfolder, items, cepstrum, i + 1);
        return Err(m.error);
      }
      all := all + [m.value];
      i := i + 1;
    }
    assert items[..i] == items;
    r := Ok(all);
  }

  /** What np.vstack (line 61) accepts of the training matrices: at least
      one, none empty, all of the same width. */
  predicate Stackable(all: seq<Matrix>)
  {
    |all| > 0 && |all[0]| > 0 &&
    forall k :: 0 <= k < |all| ==> |all[k]| > 0 && Conforms(all[k], |all[0][0]|)
  }

  function Width(all: seq<Matrix>): nat
    requires Stackable(all)
  {
    |all[0][0]|
  }

  /** Column i of a matrix (one dimension across all frames). */
  function Column(m: Matrix, i: nat): seq<real>
    requires forall r :: 0 <= r < |m| ==> i < |m[r]|
  {
    seq(|m|, r requires 0 <= r < |m| => m[r][i])
  }

  /** The whole state __init__ leaves: the statistics of the pooled data
      (lines 61-68) and one GMM per label on that label's normalised rows
      (lines 71-86). */
  ghost predicate TrainedFrom(model: Model, labels: seq<string>, all: seq<Matrix>,
                              colMean: seq<real> -> real, colStd: seq<real> -> real)
    requires Stackable(all) && |labels| == |all|
  {
    var d := Width(all);
    ConcatConforms(all, d);
    var pooled := Concat(all);
    && |model.means| == d && |model.invstds| == d
    && (forall i :: 0 <= i < d ==> model.means[i] == colMean(Column(pooled, i)))
    && (forall i :: 0 <= i < d ==> model.invstds[i] == InvStd(colStd(Column(pooled, i))))
    && (forall l :: l in model.gmms <==> l in labels)
    && (forall l :: l in model.gmms ==>
          model.gmms[l] == Fit(Gather(labels, NormaliseAll(all, model.means, model.invstds), l)))
  }

  /** Smacpy.__init__: extracts, stacks, computes the statistics, pools the
      normalised features per label and fits one GMM per label. */
  method Train(files: map<string, SoundFile>, wavfolder: string, trainingdata: seq<TrainingItem>,
               cepstrum: Frame -> seq<real>, colMean: seq<real> -> real, colStd: seq<real> -> real)
      returns (r: Result<Model, Error>)
    ensures var ex := ExtractAll(files, wavfolder, trainingdata, cepstrum);
      && (ex.Err? ==> r == Err(ex.error))
      && (ex.Ok? && |trainingdata| == 0 ==> r == Err(NoTrainingData))
      && (ex.Ok? && |trainingdata| > 0 && !Stackable(ex.value) ==> r == Err(ShapeMismatch))
      && (r.Ok? ==>
            ex.Ok? && Stackable(ex.value) &&
            TrainedFrom(r.value, Labels(trainingdata), ex.value, colMean, colStd))
    ensures r.Ok? <==>
              ExtractAll(files, wavfolder, trainingdata, cepstrum).Ok? &&
              Stackable(ExtractAll(files, wavfolder, trainingdata, cepstrum).value)
    ensures r.Ok? ==> forall l :: l in r.value.gmms <==> l in Labels(trainingdata)
    ensures r.Ok? ==> forall l :: l in r.value.gmms ==>
              |r.value.gmms[l].fittedOn| ==
              FrameCount(Labels(trainingdata), ExtractAll(files, wavfolder, trainingdata, cepstrum).value, l)
  {
    var ex := ExtractFeatures(files, wavfolder, trainingdata, cepstrum);
    if ex.Err? {
      return Err(ex.error);
    }
    var all := ex.value;
    if |all| == 0 {
      return Err(NoTrainingData);
    }
    if !Stackable(all) {
      return Err(ShapeMismatch);
    }
    var model := FitModel(Labels(trainingdata), all, colMean, colStd);
    r := Ok(model);
  }

  /** Lines 61-86 once every file is read and the matrices stack: the
      statistics, the pooling and one GMM per label always succeed. */
  method FitModel(labels: seq<string>, all: seq<Matrix>, colMean: seq<real> -> real, colStd: seq<real> -> real)
      returns (model: Model)
    requires Stackable(all) && |labels| == |all|
    ensures TrainedFrom(model, labels, all, colMean, colStd)
    ensures forall l :: l in model.gmms <==> l in labels
    ensures forall l :: l in model.gmms ==> |model.gmms[l].fittedOn| == FrameCount(labels, all, l)
  {
    var d := Width(all);
    ConcatConforms(all, d);
    var pooled := Concat(all);
    var means := seq(d, i requires 0 <= i < d => colMean(Column(pooled, i)));
    var a := new real[d](i requires 0 <= i < d => colStd(Column(pooled, i)));
    InvertStds(a);
    var invstds := a[..];
    var agg := Aggregate(labels, all, means, invstds);
    var gmms := FitGmms(agg);
    model := Model(means, invstds, gmms);
    FittedFrameCounts(labels, all, means, invstds, gmms);
  }

  /** Each label's GMM is fitted on as many frames as that label's files hold. */
  lemma FittedFrameCounts(labels: seq<string>, all: seq<Matrix>, means: Vector, invstds: Vector,
                          gmms: map<string, Gmm>)
    requires |labels| == |all| && |means| == |invstds|
    requires forall k :: 0 <= k < |all| ==> Conforms(all[k], |means|)
    requires forall l :: l in gmms ==> gmms[l].fittedOn == Gather(labels, NormaliseAll(all, means, invstds), l)
    ensures forall l :: l in gmms ==> |gmms[l].fittedOn| == FrameCount(labels, all, l)
  {
    forall l | l in gmms
      ensures |gmms[l].fittedOn| == FrameCount(labels, all, l)
    {
      GatherCount(labels, NormaliseAll(all, means, invstds), l);
      NormaliseKeepsFrameCount(labels, all, means, invstds, l);
    }
  }

  // ---------------------------------------------------------------------
  // Classification (classify)
  // ---------------------------------------------------------------------

  /** np.sum(gmm.eval(features)[0]): the total log-likelihood of the frames,
      each frame scored on its own. */
  function Score(g: Gmm, features: Matrix, logLik: (Gmm, Vector) -> real): real
    decreases |features|
  {
    if |features| == 0 then 0.0
    else Score(g, features[..|features| - 1], logLik) + logLik(g, features[|features| - 1])
  }

  /** The score of two runs of frames is the sum of their scores. */
  lemma {:induction false} ScoreAppend(g: Gmm, a: Matrix, b: Matrix, logLik: (Gmm, Vector) -> real)
    ensures Score(g, a + b, logLik) == Score(g, a, logLik) + Score(g, b, logLik)
    decreases |b|
  {
    if |b| == 0 {
      assert a + b == a;
    } else {
      var n := |b|;
      ScoreAppend(g, a, b[..n - 1], logLik);
      assert (a + b)[..|a + b| - 1] == a + b[..n - 1];
    }
  }

  /** The score treats a file as a bag of frames: their order is irrelevant. */
  lemma ScoreIgnoresFrameOrder(g: Gmm, a: Matrix, b: Matrix, logLik: (Gmm, Vector) -> real)
    ensures Score(g, a + b, logLik) == Score(g, b + a, logLik)
  {
    ScoreAppend(g, a, b, logLik);
    ScoreAppend(g, b, a, logLik);
  }

  /** The score of every label, in the order the labels are visited. */
  function Scores(model: Model, order: seq<string>, features: Matrix, logLik: (Gmm, Vector) -> real): seq<real>
    requires forall k :: 0 <= k < |order| ==> order[k] in model.gmms
  {
    seq(|order|, k requires 0 <= k < |order| => Score(model.gmms[order[k]], features, logLik))
  }

  /** Index k holds a maximal score and no earlier index ties with it. */
  predicate FirstMaximal(scores: seq<real>, k: nat)
    requires k < |scores|
  {
    && (forall j :: 0 <= j < |scores| ==> scores[j] <= scores[k])
    && (forall j :: 0 <= j < k ==> scores[j] < scores[k])
  }

  /** The choice classify makes: '' when no score beats -9e99, otherwise
      the first label that reaches the maximal score. */
  ghost predicate IsBestLabel(order: seq<string>, scores: seq<real>, best: string)
    requires |scores| == |order|
  {
    if forall k :: 0 <= k < |scores| ==> scores[k] <= InitialBestLL then best == ""
    else exists k :: 0 <= k < |order| && order[k] == best && FirstMaximal(scores, k)
  }

  /** The choice is determined by the scores: classifying twice against the
      same model gives the same label. */
  lemma BestLabelIsUnique(order: seq<string>, scores: seq<real>, a: string, b: string)
    requires |scores| == |order|
    requires IsBestLabel(order, scores, a) && IsBestLabel(order, scores, b)
    ensures a == b
  {
    if !forall k :: 0 <= k < |scores| ==> scores[k] <= InitialBestLL {
      var i :| 0 <= i < |order| && order[i] == a && FirstMaximal(scores, i);
      var j :| 0 <= j < |order| && order[j] == b && FirstMaximal(scores, j);
      assert i == j;
    }
  }

  /** Features a trained model can normalise: the broadcast of line 92
      needs at least one frame, each of the statistics' width. */
  predicate Classifiable(features: Matrix, d: nat)
  {
    |features| > 0 && Conforms(features, d)
  }

  /** classify: the running best score over the labels, replaced only on a
      strictly greater score. `order` is the order in which the GMM
      dictionary is visited. */
  method Classify(model: Model, order: seq<string>, files: map<string, SoundFile>, wavpath: string,
                  cepstrum: Frame -> seq<real>, logLik: (Gmm, Vector) -> real)
      returns (r: Result<string, Error>)
    requires |model.means| == |model.invstds|
    requires forall l :: l in order <==> l in model.gmms
    ensures var fe := FeaturesOf(files, wavpath, cepstrum);
      && (fe.Err? ==> r == Err(fe.error))
      && (fe.Ok? && !Classifiable(fe.value, |model.means|) ==> r == Err(ShapeMismatch))
      && (r.Ok? ==>
            fe.Ok? && Classifiable(fe.value, |model.means|) &&
            IsBestLabel(order, Scores(model, order, Normalise(fe.value, model.means, model.invstds), logLik), r.value))
    ensures r.Ok? <==>
              FeaturesOf(files, wavpath, cepstrum).Ok? &&
              Classifiable(FeaturesOf(files, wavpath, cepstrum).value, |model.means|)
  {
    var fe := FileToFeatures(files, wavpath, cepstrum);
    if fe.Err? {
      return Err(fe.error);
    }
    if !Classifiable(fe.value, |model.means|) {
      return Err(ShapeMismatch);
    }
    var features := Normalise(fe.value, model.means, model.invstds);
    ghost var scores := Scores(model, order, features, logLik);
    var bestlabel := "";
    var bestll := InitialBestLL;
    ghost var bestIdx := -1;
    var i := 0;
    while i < |order|
      invariant 0 <= i <= |order|
      invariant -1 <= bestIdx < i
      invariant bestIdx == -1 ==>
                  bestlabel == "" && bestll == InitialBestLL &&
                  forall k :: 0 <= k < i ==> scores[k] <= InitialBestLL
      invariant bestIdx >= 0 ==>
                  order[bestIdx] == bestlabel && scores[bestIdx] == bestll &&
                  bestll > InitialBestLL &&
                  (forall k :: 0 <= k < i ==> scores[k] <= bestll) &&
                  (forall k :: 0 <= k < bestIdx ==> scores[k] < bestll)
    {
      var cls := order[i];
      var ll := Score(model.gmms[cls], features, logLik);
      if ll > bestll {
        bestll := ll;
        bestlabel := cls;
        bestIdx := i;
      }
      i := i + 1;
    }
    if bestIdx >= 0 {
      assert FirstMaximal(scores, bestIdx);
    }
    r := Ok(bestlabel);
  }
}
