/**
 * The dataset consumer: the load dispatch on NF with its fatal error path,
 * the horizontal concatenation of the four feature planes, the binary and the
 * multiclass label encodings, and the un-shuffled 80/20 prefix split that
 * `train_and_test` applies before handing the data to the classifier.
 */
module TrainAndTest {
  import opened Options
  import GenData

  // ---------------------------------------------------------------------------
  // The 80/20 prefix split
  // ---------------------------------------------------------------------------

  /** `int(0.8 * samples)`: the number of leading rows used for training. */
  function TrainCount(samples: nat): (ntrain: nat)
    ensures ntrain <= samples
    // ntrain is the largest count whose share does not exceed four fifths
    ensures 5 * ntrain <= 4 * samples < 5 * (ntrain + 1)
  {
    4 * samples / 5
  }

  /** A batch of 100 samples trains on 80 and tests on 20. */
  lemma HundredSamplesSplit()
    ensures TrainCount(100) == 80 && 100 - TrainCount(100) == 20
  {
  }

  /** Python's `s[:k]`: the first k elements, or all of them when s is shorter. */
  function Take<T>(s: seq<T>, k: nat): (r: seq<T>)
    ensures |r| == if k <= |s| then k else |s|
    ensures forall j :: 0 <= j < |r| ==> r[j] == s[j]
  {
    if k <= |s| then s[..k] else s
  }

  /** Python's `s[k:]`: everything after the first k elements, or nothing when s is shorter. */
  function Drop<T>(s: seq<T>, k: nat): (r: seq<T>)
    ensures |r| == if k <= |s| then |s| - k else 0
    ensures forall j :: 0 <= j < |r| ==> k + j < |s| && r[j] == s[k + j]
  {
    if k <= |s| then s[k..] else []
  }

  /** Cutting `s[:k]` and `s[k:]` at the same index puts the pieces back together. */
  lemma TakeDrop<T>(s: seq<T>, k: nat)
    ensures Take(s, k) + Drop(s, k) == s
  {
  }

  /** The four slices `train_and_test` builds. */
  datatype Split<T, U> = Split(xTrain: seq<T>, xTest: seq<T>, yTrain: seq<U>, yTest: seq<U>)

  /** Both inputs are cut at `int(0.8 * X.shape[0])`, without shuffling. */
  function TrainTestSplit<T, U>(x: seq<T>, y: seq<U>): (r: Split<T, U>)
    // a partition of each input, training part first
    ensures r.xTrain + r.xTest == x && r.yTrain + r.yTest == y
    ensures |r.xTrain| == TrainCount(|x|)
    ensures |r.xTest| == |x| - TrainCount(|x|)
    // with as many labels as rows, row j of each part keeps its own label
    ensures |x| == |y| ==> |r.yTrain| == |r.xTrain| && |r.yTest| == |r.xTest|
    ensures |x| == |y| ==> forall j :: 0 <= j < |r.xTrain| ==> r.xTrain[j] == x[j] && r.yTrain[j] == y[j]
    ensures |x| == |y| ==> forall j :: 0 <= j < |r.xTest| ==>
      r.xTest[j] == x[TrainCount(|x|) + j] && r.yTest[j] == y[TrainCount(|x|) + j]
  {
    var ntrain := TrainCount(|x|);
    TakeDrop(x, ntrain);
    TakeDrop(y, ntrain);
    Split(Take(x, ntrain), Drop(x, ntrain), Take(y, ntrain), Drop(y, ntrain))
  }

  // ---------------------------------------------------------------------------
  // The feature matrix
  // ---------------------------------------------------------------------------

  /** `np.hstack` of two matrices; None when the row counts differ and numpy raises. */
  function HStack(a: seq<seq<real>>, b: seq<seq<real>>): (r: Option<seq<seq<real>>>)
    ensures r.Some? <==> |a| == |b|
    ensures r.Some? ==> |r.value| == |a|
    // each row starts with the row of a and continues with the row of b
    ensures r.Some? ==> forall j :: 0 <= j < |a| ==>
      |r.value[j]| == |a[j]| + |b[j]| && r.value[j][..|a[j]|] == a[j] && r.value[j][|a[j]|..] == b[j]
  {
    if |a| != |b| then None
    else
      var rows := seq(|a|, j requires 0 <= j < |a| => a[j] + b[j]);
      assert forall j :: 0 <= j < |a| ==> rows[j][..|a[j]|] == a[j] && rows[j][|a[j]|..] == b[j];
      Some(rows)
  }

  /** `DATA`: the four planes side by side, in the order magEx, phEx, magEy, phEy. */
  function FeatureMatrix(ds: GenData.Dataset): (r: Option<seq<seq<real>>>)
    ensures r.Some? <==> |ds.magEx| == |ds.phEx| == |ds.magEy| == |ds.phEy|
    ensures r.Some? ==> |r.value| == |ds.magEx|
  {
    match HStack(ds.magEx, ds.phEx)
    case None => None
    case Some(d1) =>
      match HStack(d1, ds.magEy)
      case None => None
      case Some(d2) => HStack(d2, ds.phEy)
  }

  /**
   * With planes of width p, a row of DATA has length 4p and its four
   * consecutive segments are the four planes of the same sample.
   */
  lemma FeatureRowLayout(ds: GenData.Dataset, j: nat, p: nat)
    requires FeatureMatrix(ds).Some? && j < |ds.magEx|
    requires |ds.magEx[j]| == p && |ds.phEx[j]| == p && |ds.magEy[j]| == p && |ds.phEy[j]| == p
    ensures var row := FeatureMatrix(ds).value[j];
      && |row| == 4 * p
      && row[..p] == ds.magEx[j]
      && row[p..2 * p] == ds.phEx[j]
      && row[2 * p..3 * p] == ds.magEy[j]
      && row[3 * p..] == ds.phEy[j]
  {
  }

  // ---------------------------------------------------------------------------
  // Label encodings
  // ---------------------------------------------------------------------------

  /** `TE_TM == 'E'`: the binary target, one flag per sample. */
  function BinaryLabels(mode: seq<char>): (y: seq<bool>)
    ensures |y| == |mode|
  {
    seq(|mode|, j requires 0 <= j < |mode| => mode[j] == 'E')
  }

  /** A binary label is set exactly for the TE samples and cleared exactly for the TM ones. */
  lemma BinaryLabelMeansTE(mode: seq<char>, j: nat)
    requires j < |mode| && (mode[j] == 'E' || mode[j] == 'M')
    ensures BinaryLabels(mode)[j] <==> mode[j] == GenData.Label(GenData.TE)
    ensures !BinaryLabels(mode)[j] <==> mode[j] == GenData.Label(GenData.TM)
  {
  }

  /** `10 * m + n`: the multiclass target for one sample. */
  function ClassLabel(m: int, n: int): (c: int)
    // an accepted mode gets a two-digit label with no zero digit
    ensures 1 <= m <= 3 && 1 <= n <= 3 ==> 11 <= c <= 33 && c % 10 != 0
  {
    10 * m + n
  }

  /** Reading a class label back as (tens, units). */
  function DecodeClass(c: int): (int, int)
  {
    (c / 10, c % 10)
  }

  /** For a one-digit n the class label decodes back to (m, n). */
  lemma DecodeClassLabel(m: int, n: int)
    requires 0 <= n <= 9
    ensures DecodeClass(ClassLabel(m, n)) == (m, n)
  {
  }

  /** Different (m, n) pairs with one-digit n never share a class label. */
  lemma ClassLabelInjective(m: int, n: int, m': int, n': int)
    requires 0 <= n <= 9 && 0 <= n' <= 9
    requires ClassLabel(m, n) == ClassLabel(m', n')
    ensures m == m' && n == n'
  {
  }

  /** The nine class labels of the accepted modes (m, n) in {1, 2, 3} x {1, 2, 3}. */
  const ModeClasses: set<int> := {11, 12, 13, 21, 22, 23, 31, 32, 33}

  /** For accepted indices the multiclass label takes exactly the nine values of ModeClasses. */
  lemma ClassLabelsOfValidModes()
    ensures (set m: int, n: int | 1 <= m <= 3 && 1 <= n <= 3 :: ClassLabel(m, n)) == ModeClasses
  {
    var labels := set m: int, n: int | 1 <= m <= 3 && 1 <= n <= 3 :: ClassLabel(m, n);
    forall c | c in labels
      ensures c in ModeClasses
    {
      var m: int, n: int :| 1 <= m <= 3 && 1 <= n <= 3 && c == ClassLabel(m, n);
      assert m == 1 || m == 2 || m == 3;
      assert n == 1 || n == 2 || n == 3;
    }
    forall c | c in ModeClasses
      ensures c in labels
    {
      var m, n := c / 10, c % 10;
      assert ClassLabel(m, n) == c;
      assert 1 <= m <= 3 && 1 <= n <= 3;
    }
  }

  /** Length of a numpy elementwise result; None when the shapes cannot be broadcast. */
  function BroadcastLength(la: nat, lb: nat): (r: Option<nat>)
    ensures r.Some? <==> la == lb || la == 1 || lb == 1
    ensures r.Some? && la == lb ==> r.value == la
  {
    if la == lb then Some(la)
    else if la == 1 then Some(lb)
    else if lb == 1 then Some(la)
    else None
  }

  /** Element j of a broadcast operand: the only element of a length-1 vector, else element j. */
  function Broadcast(s: seq<int>, j: nat): int
    requires |s| == 1 || j < |s|
  {
    if |s| == 1 then s[0] else s[j]
  }

  /** `10 * ms + ns` on the two index vectors, with numpy's broadcasting rule. */
  function MulticlassLabels(ms: seq<int>, ns: seq<int>): (y: Option<seq<int>>)
    ensures y.Some? <==> BroadcastLength(|ms|, |ns|).Some?
    ensures y.Some? && |ms| == |ns| ==>
      |y.value| == |ms| && forall j :: 0 <= j < |ms| ==> y.value[j] == ClassLabel(ms[j], ns[j])
  {
    match BroadcastLength(|ms|, |ns|)
    case None => None
    case Some(len) =>
      Some(seq(len, j requires 0 <= j < len => ClassLabel(Broadcast(ms, j), Broadcast(ns, j))))
  }

  // ---------------------------------------------------------------------------
  // Loading the generator's output
  // ---------------------------------------------------------------------------

  /** Why no dataset is available: a fatal message for NF = 0..4, an unbound name otherwise. */
  datatype LoadError = Unavailable(message: string) | NotLoaded

  /** The file read for each NF, in the dispatch's own order. */
  function LoadFile(nf: int, snrText: string): (f: Option<string>)
    ensures f.Some? <==> 0 <= nf <= 4
  {
    if nf == 0 then Some("control_" + snrText + ".npy")
    else if nf == 1 then Some("uniform_" + snrText + ".npy")
    else if nf == 2 then Some("exponential_" + snrText + ".npy")
    else if nf == 3 then Some("normal_" + snrText + ".npy")
    else if nf == 4 then Some("correlated_" + snrText + ".npy")
    else None
  }

  /** The decimal digit of a one-digit number. */
  function Digit(d: int): (c: char)
    requires 0 <= d <= 9
    ensures c as int - '0' as int == d
  {
    "0123456789"[d]
  }

  /**
   * The subject of the failure message for each noise model. It names the same
   * model as the file: it starts with the file prefix capitalised, then a space.
   */
  function DataName(k: GenData.NoiseModel): (s: string)
    ensures |s| > |GenData.NamePrefix(k)|
    ensures s[0] as int == GenData.NamePrefix(k)[0] as int - 32
    ensures forall j :: 1 <= j < |GenData.NamePrefix(k)| ==> s[j] == GenData.NamePrefix(k)[j]
    ensures s[|GenData.NamePrefix(k)|] == ' '
  {
    match k
    case Control => "Control data"
    case Uniform => "Uniform noise data"
    case Exponential => "Exponential noise data"
    case Normal => "Normal noise data"
    case Correlated => "Correlated noise data"
  }

  /** The text between the subject and the NF digit in every failure message. */
  const RerunAdvice: string := " unavailable. Try running gen_data_final.py with NF="

  /**
   * The message raised when the file for NF cannot be loaded, e.g.
   * "Uniform noise data unavailable. Try running gen_data_final.py with NF=1".
   */
  function UnavailableMessage(nf: int): (msg: string)
    requires 0 <= nf <= 4
    // the message ends with the advice to rerun the generator with the same NF
    ensures |msg| > |RerunAdvice|
    ensures msg[|msg| - |RerunAdvice| - 1..|msg| - 1] == RerunAdvice && msg[|msg| - 1] == Digit(nf)
  {
    var subject := DataName(GenData.NoiseBranch(nf).value);
    assert (subject + RerunAdvice + [Digit(nf)])[|subject|..|subject| + |RerunAdvice|] == RerunAdvice;
    subject + RerunAdvice + [Digit(nf)]
  }

  /** Different NF values fail with different messages. */
  lemma UnavailableMessageInjective(nf: int, nf': int)
    requires 0 <= nf <= 4 && 0 <= nf' <= 4
    requires UnavailableMessage(nf) == UnavailableMessage(nf')
    ensures nf == nf'
  {
  }

  /** The consumer reads exactly the file the generator writes for the same NF and SNR text. */
  lemma LoadFileIsSavedFile(nf: int, snrText: string)
    requires 0 <= nf <= 4
    ensures LoadFile(nf, snrText) == Some(GenData.SavedFile(GenData.OutputName(nf, snrText).value))
  {
  }

  /**
   * The dispatch at the top of the main program: for NF = 0..4 the named file is
   * loaded or its message is raised; for any other NF no file is read and the
   * dictionary stays unbound.
   */
  function Load(nf: int, snrText: string, files: map<string, GenData.Dataset>): (r: Result<GenData.Dataset, LoadError>)
    ensures !(0 <= nf <= 4) <==> r == Err(NotLoaded)
    ensures 0 <= nf <= 4 && LoadFile(nf, snrText).value in files ==> r == Ok(files[LoadFile(nf, snrText).value])
    ensures 0 <= nf <= 4 && LoadFile(nf, snrText).value !in files ==> r == Err(Unavailable(UnavailableMessage(nf)))
  {
    match LoadFile(nf, snrText)
    case None => Err(NotLoaded)
    case Some(f) => if f in files then Ok(files[f]) else Err(Unavailable(UnavailableMessage(nf)))
  }

  /** What the generator saves under NF, the consumer loads back unchanged under the same NF. */
  lemma LoadAfterSave(nf: int, snrText: string, files: map<string, GenData.Dataset>, ds: GenData.Dataset)
    requires 0 <= nf <= 4
    ensures GenData.Save(nf, snrText, files, ds).Some?
    ensures Load(nf, snrText, GenData.Save(nf, snrText, files, ds).value) == Ok(ds)
  {
  }

  /** Saving under one NF does not make another NF's load succeed with that dataset or fail. */
  lemma LoadOtherAfterSave(nf: int, nf': int, snrText: string, files: map<string, GenData.Dataset>, ds: GenData.Dataset)
    requires 0 <= nf <= 4 && 0 <= nf' <= 4 && nf != nf'
    ensures Load(nf', snrText, GenData.Save(nf, snrText, files, ds).value) == Load(nf', snrText, files)
  {
    LoadFileIsSavedFile(nf, snrText);
    LoadFileIsSavedFile(nf', snrText);
    var name, name' := GenData.OutputName(nf, snrText).value, GenData.OutputName(nf', snrText).value;
    if name + ".npy" == name' + ".npy" {
      assert name == (name + ".npy")[..|name|] == (name' + ".npy")[..|name'|] == name';
      GenData.OutputNameInjective(nf, nf', snrText);
    }
  }

  // ---------------------------------------------------------------------------
  // The generator's output as the classifier sees it
  // ---------------------------------------------------------------------------

  /**
   * Over the slots a generation run filled, the multiclass label is one of the
   * nine ModeClasses and the binary label is set exactly for the TE records.
   */
  lemma GeneratedLabels(cfg: GenData.Config, numSamples: nat, ints: seq<int>, noise: seq<GenData.NoiseTerms>,
                        ds: GenData.Dataset)
    requires GenData.Sized(ds, numSamples)
    requires GenData.Stored(GenData.Generated(cfg, numSamples, ints, noise).records, ds)
    ensures |GenData.Generated(cfg, numSamples, ints, noise).records| <= numSamples
    ensures var records := GenData.Generated(cfg, numSamples, ints, noise).records;
      && MulticlassLabels(ds.m, ds.n).Some?
      && forall j :: 0 <= j < |records| ==>
           && MulticlassLabels(ds.m, ds.n).value[j] in ModeClasses
           && (BinaryLabels(ds.mode)[j] <==> records[j].family == GenData.TE)
  {
    var records := GenData.Generated(cfg, numSamples, ints, noise).records;
    GenData.GeneratedProperties(cfg, numSamples, ints, noise);
    ClassLabelsOfValidModes();
    forall j | 0 <= j < |records|
      ensures MulticlassLabels(ds.m, ds.n).value[j] in ModeClasses
      ensures BinaryLabels(ds.mode)[j] <==> records[j].family == GenData.TE
    {
      assert GenData.Holds(ds, j, records[j]);
      assert GenData.ValidModes(records[j]);
      var m, n := ds.m[j], ds.n[j];
      assert ClassLabel(m, n) in (set m: int, n: int | 1 <= m <= 3 && 1 <= n <= 3 :: ClassLabel(m, n));
    }
  }
}
