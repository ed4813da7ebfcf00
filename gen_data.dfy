/**
 * The dataset generator for rectangular-waveguide mode images: a rejection-sampling
 * loop that draws mode indices (m, n) and a mode family, discards degenerate
 * candidates, adds the selected noise model to the synthesised field and stores
 * one normalised feature record per accepted candidate, in acceptance order.
 *
 * The floating-point physics (field equations, mean magnitude, normalisation) is
 * passed in as opaque functions; the random source is passed in as streams of draws.
 */
module GenData {
  import opened Options

  /** The signal-to-noise ratio the noise terms are divided by. */
  const Snr: real := 0.01

  /** Mode family: transverse electric (label 'E') or transverse magnetic (label 'M'). */
  datatype Family = TE | TM

  /** The five noise models selected by the integer NF = 0..4. */
  datatype NoiseModel = Control | Uniform | Exponential | Normal | Correlated

  datatype Complex = Complex(re: real, im: real)

  /** The two transverse field components over the flattened pixel grid. */
  datatype Field = Field(ex: seq<Complex>, ey: seq<Complex>)

  /** The four real noise planes: real and imaginary parts for Ex and for Ey. */
  datatype NoiseTerms = NoiseTerms(rx: seq<real>, ix: seq<real>, ry: seq<real>, iy: seq<real>)

  /** The four normalised feature planes stored per sample. */
  datatype Features = Features(magEx: seq<real>, phEx: seq<real>, magEy: seq<real>, phEy: seq<real>)

  /**
   * The floating-point part of the pipeline, left uninterpreted:
   * `synth` is the TE/TM field synthesis from (m, n, family),
   * `meanAbs` is the mean magnitude of one field component,
   * `normalise` turns a noisy field into the four feature planes.
   */
  datatype Physics = Physics(
    synth: (int, int, Family) -> Field,
    meanAbs: seq<Complex> -> real,
    normalise: Field -> Features)

  /** A generator run's configuration: the noise selector NF and the physics. */
  datatype Config = Config(nf: int, phys: Physics)

  /** What one accepted candidate contributes to the dataset. */
  datatype Record = Record(m: int, n: int, family: Family, features: Features)

  /** The dictionary the generator saves: four plane matrices and three label vectors. */
  datatype Dataset = Dataset(
    magEx: seq<seq<real>>, phEx: seq<seq<real>>,
    magEy: seq<seq<real>>, phEy: seq<seq<real>>,
    mode: seq<char>, m: seq<int>, n: seq<int>)

  // ---------------------------------------------------------------------------
  // Draws, labels and the noise dispatch
  // ---------------------------------------------------------------------------

  /** `rng.integers(bound)`, reading one element of the draw stream. */
  function IntegerDraw(draw: int, bound: int): (v: int)
    requires bound > 0
    ensures 0 <= v < bound
    ensures 0 <= draw < bound ==> v == draw
  {
    draw % bound
  }

  /** The family chosen by the selector draw: 0 selects TE, 1 selects TM. */
  function SelectFamily(select: int): (f: Family)
    ensures f == TE <==> select == 0
  {
    if select == 0 then TE else TM
  }

  /** The one-character label written into the `mode` array. */
  function Label(f: Family): (c: char)
    ensures c == 'E' <==> f == TE
    ensures c == 'M' <==> f == TM
  {
    match f
    case TE => 'E'
    case TM => 'M'
  }

  /** A candidate is discarded by the index check exactly when m < 1 or n < 1. */
  predicate IndexRejected(m: int, n: int)
  {
    m < 1 || n < 1
  }

  /**
   * The noise branch taken for selector `nf`; None when no branch matches,
   * in which case the noise variables are never bound.
   */
  function NoiseBranch(nf: int): (k: Option<NoiseModel>)
    ensures k.Some? <==> 0 <= nf <= 4
    ensures k == Some(Control) <==> nf == 0
  {
    if nf == 0 then Some(Control)
    else if nf == 1 then Some(Uniform)
    else if nf == 2 then Some(Exponential)
    else if nf == 3 then Some(Normal)
    else if nf == 4 then Some(Correlated)
    else None
  }

  /** The selector value of a noise model, the inverse of NoiseBranch. */
  function Selector(k: NoiseModel): (nf: int)
    ensures 0 <= nf <= 4
    ensures NoiseBranch(nf) == Some(k)
  {
    match k
    case Control => 0
    case Uniform => 1
    case Exponential => 2
    case Normal => 3
    case Correlated => 4
  }

  lemma NoiseBranchSelector(nf: int)
    requires 0 <= nf <= 4
    ensures Selector(NoiseBranch(nf).value) == nf
  {
  }

  // ---------------------------------------------------------------------------
  // Noise injection
  // ---------------------------------------------------------------------------

  function Zeros(len: nat): (z: seq<real>)
    ensures |z| == len && forall k :: 0 <= k < len ==> z[k] == 0.0
  {
    seq(len, _ => 0.0)
  }

  /** Element k of a noise plane; planes always match the field's shape in the generator. */
  function At(s: seq<real>, k: nat): real
  {
    if k < |s| then s[k] else 0.0
  }

  /** One noisy component: clean + scale * (re + j*im) / Snr, element by element. */
  function Inject(clean: seq<Complex>, scale: real, re: seq<real>, im: seq<real>): (r: seq<Complex>)
    ensures |r| == |clean|
    // wherever the planes cover the field, the noise term (re + j*im) / Snr is added scaled by `scale`
    ensures forall k :: 0 <= k < |clean| && k < |re| && k < |im| ==>
      r[k] == Complex(clean[k].re + scale * re[k] / Snr, clean[k].im + scale * im[k] / Snr)
  {
    var r := seq(|clean|, k requires 0 <= k < |clean| =>
      Complex(clean[k].re + scale * (At(re, k) / Snr), clean[k].im + scale * (At(im, k) / Snr)));
    assert forall k :: 0 <= k < |clean| && k < |re| && k < |im| ==> At(re, k) == re[k] && At(im, k) == im[k];
    r
  }

  /** The control branch: four zero planes shaped like Ex. */
  function ControlNoise(clean: Field): (nt: NoiseTerms)
    ensures nt.rx == nt.ix == nt.ry == nt.iy == Zeros(|clean.ex|)
  {
    var z := Zeros(|clean.ex|);
    NoiseTerms(z, z, z, z)
  }

  /** Both components with their noise added, each scaled by its own mean magnitude. */
  function Noisy(phys: Physics, clean: Field, nt: NoiseTerms): (f: Field)
    ensures |f.ex| == |clean.ex| && |f.ey| == |clean.ey|
    // Ex receives (rx, ix) scaled by the mean magnitude of Ex, Ey receives (ry, iy) scaled by that of Ey
    ensures forall k :: 0 <= k < |clean.ex| && k < |nt.rx| && k < |nt.ix| ==>
      f.ex[k] == Complex(clean.ex[k].re + phys.meanAbs(clean.ex) * nt.rx[k] / Snr,
                         clean.ex[k].im + phys.meanAbs(clean.ex) * nt.ix[k] / Snr)
    ensures forall k :: 0 <= k < |clean.ey| && k < |nt.ry| && k < |nt.iy| ==>
      f.ey[k] == Complex(clean.ey[k].re + phys.meanAbs(clean.ey) * nt.ry[k] / Snr,
                         clean.ey[k].im + phys.meanAbs(clean.ey) * nt.iy[k] / Snr)
  {
    Field(Inject(clean.ex, phys.meanAbs(clean.ex), nt.rx, nt.ix),
          Inject(clean.ey, phys.meanAbs(clean.ey), nt.ry, nt.iy))
  }

  /** Adding all-zero noise planes leaves a component unchanged. */
  lemma InjectZero(clean: seq<Complex>, scale: real, len: nat)
    ensures Inject(clean, scale, Zeros(len), Zeros(len)) == clean
  {
  }

  /** The record of an accepted candidate with the given noise planes. */
  function Sample(phys: Physics, m: int, n: int, family: Family, nt: NoiseTerms): (r: Record)
    ensures r.m == m && r.n == n && r.family == family
    // with the control branch's zero planes the record holds the clean field's features
    ensures nt == ControlNoise(phys.synth(m, n, family)) ==> NoiseFree(phys, r)
  {
    var clean := phys.synth(m, n, family);
    InjectZero(clean.ex, phys.meanAbs(clean.ex), |clean.ex|);
    InjectZero(clean.ey, phys.meanAbs(clean.ey), |clean.ex|);
    assert Noisy(phys, clean, ControlNoise(clean)) == clean;
    Record(m, n, family, phys.normalise(Noisy(phys, phys.synth(m, n, family), nt)))
  }

  /** A record whose features are those of the synthesised field with no noise added. */
  predicate NoiseFree(phys: Physics, r: Record)
  {
    r.features == phys.normalise(phys.synth(r.m, r.n, r.family))
  }

  // ---------------------------------------------------------------------------
  // One pass of the try block, and the loop as a recursive specification
  // ---------------------------------------------------------------------------

  /** How one iteration of the loop ends. */
  datatype Attempt =
    | OutOfDraws                                       // the finite stream ran out
    | Discarded(used: nat)                             // an exception reached the `except`
    | Accepted(used: nat, usedNoise: nat, rec: Record) // slot i filled, i incremented

  predicate ValidModes(r: Record)
  {
    1 <= r.m <= 3 && 1 <= r.n <= 3
  }

  /**
   * One iteration of the try block, reading integer draws from `ints` at `pos`
   * and noise planes from `noise` at `noisePos`.
   */
  function Try(cfg: Config, ints: seq<int>, noise: seq<NoiseTerms>, pos: nat, noisePos: nat): (a: Attempt)
    ensures a.Discarded? ==> 2 <= a.used <= 3 && pos + a.used <= |ints|
    ensures a.Accepted? ==> a.used == 3 && pos + 3 <= |ints| && (a.usedNoise == 1 ==> noisePos < |noise|)
  {
    if pos + 2 > |ints| then OutOfDraws
    else
      var m := IntegerDraw(ints[pos], 4);
      var n := IntegerDraw(ints[pos + 1], 4);
      if IndexRejected(m, n) then Discarded(2)
      else if pos + 3 > |ints| then OutOfDraws
      else
        var family := SelectFamily(IntegerDraw(ints[pos + 2], 2));
        match NoiseBranch(cfg.nf)
        case None => Discarded(3)
        case Some(Control) =>
          Accepted(3, 0, Sample(cfg.phys, m, n, family, ControlNoise(cfg.phys.synth(m, n, family))))
        case Some(_) =>
          if noisePos < |noise| then Accepted(3, 1, Sample(cfg.phys, m, n, family, noise[noisePos]))
          else OutOfDraws
  }

  /**
   * The rules one iteration follows: the index check, the number of draws each
   * outcome consumes, the family selection and the zero-noise control case.
   */
  lemma TryRules(cfg: Config, ints: seq<int>, noise: seq<NoiseTerms>, pos: nat, noisePos: nat)
    // the index check: discarded after two draws exactly when m < 1 or n < 1
    ensures Try(cfg, ints, noise, pos, noisePos) == Discarded(2) <==>
      pos + 2 <= |ints| && IndexRejected(IntegerDraw(ints[pos], 4), IntegerDraw(ints[pos + 1], 4))
    // a third draw is consumed only when the indices pass; without a noise branch it still fails
    ensures Try(cfg, ints, noise, pos, noisePos) == Discarded(3) <==>
      pos + 3 <= |ints| && !IndexRejected(IntegerDraw(ints[pos], 4), IntegerDraw(ints[pos + 1], 4))
      && NoiseBranch(cfg.nf).None?
    ensures var a := Try(cfg, ints, noise, pos, noisePos);
      a.Accepted? ==>
      && a.rec.m == IntegerDraw(ints[pos], 4) && a.rec.n == IntegerDraw(ints[pos + 1], 4)
      && ValidModes(a.rec)
      && (a.rec.family == TE <==> IntegerDraw(ints[pos + 2], 2) == 0)
      && NoiseBranch(cfg.nf).Some?
      && a.usedNoise == (if cfg.nf == 0 then 0 else 1)
    ensures var a := Try(cfg, ints, noise, pos, noisePos);
      a.Accepted? && cfg.nf == 0 ==> NoiseFree(cfg.phys, a.rec)
    // an iteration fails only when a stream it still has to read from is exhausted
    ensures Try(cfg, ints, noise, pos, noisePos).OutOfDraws? <==>
      || pos + 2 > |ints|
      || (!IndexRejected(IntegerDraw(ints[pos], 4), IntegerDraw(ints[pos + 1], 4))
          && (pos + 3 > |ints| || (1 <= cfg.nf <= 4 && noisePos >= |noise|)))
    // a pair passing the check is accepted whenever NF selects a branch and the draws suffice
    ensures Try(cfg, ints, noise, pos, noisePos).Accepted? <==>
      && pos + 3 <= |ints|
      && !IndexRejected(IntegerDraw(ints[pos], 4), IntegerDraw(ints[pos + 1], 4))
      && NoiseBranch(cfg.nf).Some?
      && (cfg.nf == 0 || noisePos < |noise|)
    // the accepted record is built from the control planes for NF = 0, from noise set noisePos otherwise
    ensures var a := Try(cfg, ints, noise, pos, noisePos);
      a.Accepted? && cfg.nf == 0 ==>
      a.rec == Sample(cfg.phys, a.rec.m, a.rec.n, a.rec.family, ControlNoise(cfg.phys.synth(a.rec.m, a.rec.n, a.rec.family)))
    ensures var a := Try(cfg, ints, noise, pos, noisePos);
      a.Accepted? && 1 <= cfg.nf <= 4 ==>
      noisePos < |noise| && a.rec == Sample(cfg.phys, a.rec.m, a.rec.n, a.rec.family, noise[noisePos])
  {
  }

  /** The loop state: stream positions, the filled slots (as records) and the discard count s. */
  datatype Gen = Gen(pos: nat, noisePos: nat, records: seq<Record>, discards: nat)

  /** The state after an iteration that ended with attempt `a`; None when the draws ran out. */
  function Apply(g: Gen, a: Attempt): (r: Option<Gen>)
    ensures r.None? <==> a.OutOfDraws?
    // `s += 1`: the discard count advances and the filled slots stay as they were
    ensures a.Discarded? ==>
      r.value.records == g.records && r.value.discards == g.discards + 1
      && r.value.pos == g.pos + a.used && r.value.noisePos == g.noisePos
    // `i += 1`: the record fills the next slot and the earlier slots stay as they were
    ensures a.Accepted? ==>
      && |r.value.records| == |g.records| + 1 && r.value.records[..|g.records|] == g.records
      && r.value.records[|g.records|] == a.rec && r.value.discards == g.discards
      && r.value.pos == g.pos + a.used && r.value.noisePos == g.noisePos + a.usedNoise
  {
    match a
    case OutOfDraws => None
    case Discarded(u) => Some(g.(pos := g.pos + u, discards := g.discards + 1))
    case Accepted(u, v, rec) => Some(Gen(g.pos + u, g.noisePos + v, g.records + [rec], g.discards))
  }

  /** One loop iteration on the state; None when the draws run out. */
  function Next(cfg: Config, ints: seq<int>, noise: seq<NoiseTerms>, g: Gen): (r: Option<Gen>)
    ensures r.None? <==> Try(cfg, ints, noise, g.pos, g.noisePos).OutOfDraws?
    // the loop can only get stuck on an exhausted stream
    ensures r.None? <==>
      || g.pos + 2 > |ints|
      || (!IndexRejected(IntegerDraw(ints[g.pos], 4), IntegerDraw(ints[g.pos + 1], 4))
          && (g.pos + 3 > |ints| || (1 <= cfg.nf <= 4 && g.noisePos >= |noise|)))
    ensures r.Some? ==> g.pos < r.value.pos <= |ints|
    // exactly one of the two counters advances by one
    ensures r.Some? ==>
      || (r.value.records == g.records && r.value.discards == g.discards + 1)
      || (r.value.discards == g.discards && |r.value.records| == |g.records| + 1
          && r.value.records[..|g.records|] == g.records)
  {
    TryRules(cfg, ints, noise, g.pos, g.noisePos);
    Apply(g, Try(cfg, ints, noise, g.pos, g.noisePos))
  }

  /** The `while i < num_samples` loop, from state g, stopping early only when the draws run out. */
  function Run(cfg: Config, ints: seq<int>, noise: seq<NoiseTerms>, target: nat, g: Gen): (r: Gen)
    // the loop ends with at most `target` records, and with fewer only when the next iteration cannot run
    ensures |g.records| <= target ==> |r.records| <= target
    ensures |g.records| <= target && |r.records| < target ==> Next(cfg, ints, noise, r).None?
    decreases |ints| - g.pos
  {
    if |g.records| >= target then g
    else
      match Next(cfg, ints, noise, g)
      case None => g
      case Some(g') => Run(cfg, ints, noise, target, g')
  }

  /** One unfolding of the loop, for an iteration that ended with attempt `a`. */
  lemma RunUnfold(cfg: Config, ints: seq<int>, noise: seq<NoiseTerms>, target: nat, g: Gen, a: Attempt)
    requires |g.records| < target && a == Try(cfg, ints, noise, g.pos, g.noisePos)
    ensures Apply(g, a).None? <==> a.OutOfDraws?
    ensures Apply(g, a).None? ==> Next(cfg, ints, noise, g).None? && Run(cfg, ints, noise, target, g) == g
    ensures Apply(g, a).Some? ==> Run(cfg, ints, noise, target, g) == Run(cfg, ints, noise, target, Apply(g, a).value)
  {
  }

  /** Filled slots are never changed again and the discard count never decreases. */
  lemma {:induction false} RunKeepsFilledSlots(cfg: Config, ints: seq<int>, noise: seq<NoiseTerms>, target: nat, g: Gen)
    ensures |g.records| <= |Run(cfg, ints, noise, target, g).records|
    ensures Run(cfg, ints, noise, target, g).records[..|g.records|] == g.records
    ensures g.discards <= Run(cfg, ints, noise, target, g).discards
    decreases |ints| - g.pos
  {
    if |g.records| < target {
      match Next(cfg, ints, noise, g)
      case None =>
      case Some(g') =>
        RunKeepsFilledSlots(cfg, ints, noise, target, g');
        var f := Run(cfg, ints, noise, target, g');
        assert f.records[..|g.records|] == f.records[..|g'.records|][..|g.records|];
    }
  }

  /** Every accepted record has mode indices in 1..3. */
  lemma {:induction false} RunAcceptsValidModes(cfg: Config, ints: seq<int>, noise: seq<NoiseTerms>, target: nat, g: Gen)
    requires forall k :: 0 <= k < |g.records| ==> ValidModes(g.records[k])
    ensures forall k :: 0 <= k < |Run(cfg, ints, noise, target, g).records| ==>
      ValidModes(Run(cfg, ints, noise, target, g).records[k])
    decreases |ints| - g.pos
  {
    if |g.records| < target {
      TryRules(cfg, ints, noise, g.pos, g.noisePos);
      match Next(cfg, ints, noise, g)
      case None =>
      case Some(g') => RunAcceptsValidModes(cfg, ints, noise, target, g');
    }
  }

  /** Outside NF = 0..4 no candidate is ever accepted: every one passing the index check is discarded. */
  lemma {:induction false} RunAcceptsNothingWithoutNoiseBranch(cfg: Config, ints: seq<int>, noise: seq<NoiseTerms>, target: nat, g: Gen)
    requires NoiseBranch(cfg.nf).None?
    ensures Run(cfg, ints, noise, target, g).records == g.records
    decreases |ints| - g.pos
  {
    if |g.records| < target {
      TryRules(cfg, ints, noise, g.pos, g.noisePos);
      match Next(cfg, ints, noise, g)
      case None =>
      case Some(g') => RunAcceptsNothingWithoutNoiseBranch(cfg, ints, noise, target, g');
    }
  }

  /** With NF = 0 every stored record holds the features of the clean synthesised field. */
  lemma {:induction false} RunControlIsNoiseFree(cfg: Config, ints: seq<int>, noise: seq<NoiseTerms>, target: nat, g: Gen)
    requires cfg.nf == 0
    requires forall k :: 0 <= k < |g.records| ==> NoiseFree(cfg.phys, g.records[k])
    ensures forall k :: 0 <= k < |Run(cfg, ints, noise, target, g).records| ==>
      NoiseFree(cfg.phys, Run(cfg, ints, noise, target, g).records[k])
    decreases |ints| - g.pos
  {
    if |g.records| < target {
      TryRules(cfg, ints, noise, g.pos, g.noisePos);
      match Next(cfg, ints, noise, g)
      case None =>
      case Some(g') => RunControlIsNoiseFree(cfg, ints, noise, target, g');
    }
  }

  /**
   * Draw accounting for NF = 0..4: each discard consumed two integer draws, each
   * accepted record three, and the noise stream one per record unless NF = 0.
   */
  predicate DrawsAccounted(cfg: Config, g: Gen)
  {
    && g.pos == 2 * g.discards + 3 * |g.records|
    && g.noisePos == (if cfg.nf == 0 then 0 else |g.records|)
  }

  lemma {:induction false} RunAccountsDraws(cfg: Config, ints: seq<int>, noise: seq<NoiseTerms>, target: nat, g: Gen)
    requires NoiseBranch(cfg.nf).Some?
    requires DrawsAccounted(cfg, g)
    ensures DrawsAccounted(cfg, Run(cfg, ints, noise, target, g))
    decreases |ints| - g.pos
  {
    if |g.records| < target {
      TryRules(cfg, ints, noise, g.pos, g.noisePos);
      match Next(cfg, ints, noise, g)
      case None =>
      case Some(g') =>
        assert DrawsAccounted(cfg, g');
        RunAccountsDraws(cfg, ints, noise, target, g');
    }
  }

  /** The state after the whole loop, started at i = s = 0. */
  function Generated(cfg: Config, numSamples: nat, ints: seq<int>, noise: seq<NoiseTerms>): Gen
  {
    Run(cfg, ints, noise, numSamples, Gen(0, 0, [], 0))
  }

  /** What the finished loop guarantees, gathered from the lemmas about Run. */
  lemma GeneratedProperties(cfg: Config, numSamples: nat, ints: seq<int>, noise: seq<NoiseTerms>)
    ensures var f := Generated(cfg, numSamples, ints, noise);
      && |f.records| <= numSamples
      && (|f.records| < numSamples ==> Next(cfg, ints, noise, f).None?)
      && (forall k :: 0 <= k < |f.records| ==> ValidModes(f.records[k]))
      && (NoiseBranch(cfg.nf).None? ==> f.records == [])
      && (cfg.nf == 0 ==> forall k :: 0 <= k < |f.records| ==> NoiseFree(cfg.phys, f.records[k]))
      && (NoiseBranch(cfg.nf).Some? ==> DrawsAccounted(cfg, f))
  {
    var g := Gen(0, 0, [], 0);
    RunAcceptsValidModes(cfg, ints, noise, numSamples, g);
    if NoiseBranch(cfg.nf).None? {
      RunAcceptsNothingWithoutNoiseBranch(cfg, ints, noise, numSamples, g);
    }
    if cfg.nf == 0 {
      RunControlIsNoiseFree(cfg, ints, noise, numSamples, g);
    }
    if NoiseBranch(cfg.nf).Some? {
      RunAccountsDraws(cfg, ints, noise, numSamples, g);
    }
  }

  // ---------------------------------------------------------------------------
  // The dataset and the imperative generator
  // ---------------------------------------------------------------------------

  /** All seven arrays of the dataset have `len` entries. */
  predicate Sized(ds: Dataset, len: nat)
  {
    && |ds.magEx| == len && |ds.phEx| == len && |ds.magEy| == len && |ds.phEy| == len
    && |ds.mode| == len && |ds.m| == len && |ds.n| == len
  }

  /** Slot j of the dataset holds record r. */
  predicate Holds(ds: Dataset, j: nat, r: Record)
  {
    && j < |ds.m| && j < |ds.n| && j < |ds.mode|
    && j < |ds.magEx| && j < |ds.phEx| && j < |ds.magEy| && j < |ds.phEy|
    && ds.m[j] == r.m && ds.n[j] == r.n && ds.mode[j] == Label(r.family)
    && ds.magEx[j] == r.features.magEx && ds.phEx[j] == r.features.phEx
    && ds.magEy[j] == r.features.magEy && ds.phEy[j] == r.features.phEy
  }

  /** The first |records| slots of the dataset hold `records`, in order. */
  predicate Stored(records: seq<Record>, ds: Dataset)
  {
    forall j :: 0 <= j < |records| ==> Holds(ds, j, records[j])
  }

  /** Slots at or above |records| can change without disturbing the stored records. */
  lemma StoredPrefix(records: seq<Record>, ds: Dataset, ds': Dataset)
    requires Stored(records, ds)
    requires |records| <= |ds.m| && |records| <= |ds.n| && |records| <= |ds.mode|
    requires |records| <= |ds.magEx| && |records| <= |ds.phEx| && |records| <= |ds.magEy| && |records| <= |ds.phEy|
    requires Sized(ds', |ds'.m|) && Sized(ds, |ds.m|) && |ds'.m| == |ds.m|
    requires var k := |records|;
      && ds'.m[..k] == ds.m[..k] && ds'.n[..k] == ds.n[..k] && ds'.mode[..k] == ds.mode[..k]
      && ds'.magEx[..k] == ds.magEx[..k] && ds'.phEx[..k] == ds.phEx[..k]
      && ds'.magEy[..k] == ds.magEy[..k] && ds'.phEy[..k] == ds.phEy[..k]
    ensures Stored(records, ds')
  {
  }

  /** Filling the next slot with a record extends what is stored. */
  lemma StoredAppend(records: seq<Record>, ds: Dataset, rec: Record)
    requires Stored(records, ds) && Holds(ds, |records|, rec)
    ensures Stored(records + [rec], ds)
  {
  }

  /**
   * One pass of the try block on slot i of the preallocated arrays: draws the
   * candidate, writes its indices and label, and on acceptance its feature planes.
   * Slots below i are left as they were.
   */
  method TryCandidate(cfg: Config, ints: seq<int>, noise: seq<NoiseTerms>, pos: nat, noisePos: nat, i: nat,
                 magEx: array<seq<real>>, phEx: array<seq<real>>, magEy: array<seq<real>>, phEy: array<seq<real>>,
                      mode: array<char>, modeM: array<int>, modeN: array<int>)
    returns (a: Attempt)
    requires i < magEx.Length && i < phEx.Length && i < magEy.Length && i < phEy.Length
    requires i < mode.Length && i < modeM.Length && i < modeN.Length
    requires magEx != phEx && magEx != magEy && magEx != phEy && phEx != magEy && phEx != phEy && magEy != phEy
    requires modeM != modeN
    modifies magEx, phEx, magEy, phEy, mode, modeM, modeN
    ensures a == Try(cfg, ints, noise, pos, noisePos)
    ensures modeM[..i] == old(modeM[..i]) && modeN[..i] == old(modeN[..i]) && mode[..i] == old(mode[..i])
    ensures magEx[..i] == old(magEx[..i]) && phEx[..i] == old(phEx[..i])
    ensures magEy[..i] == old(magEy[..i]) && phEy[..i] == old(phEy[..i])
    // slots above i are not touched either
    ensures modeM[i + 1..] == old(modeM[i + 1..]) && modeN[i + 1..] == old(modeN[i + 1..]) && mode[i + 1..] == old(mode[i + 1..])
    ensures magEx[i + 1..] == old(magEx[i + 1..]) && phEx[i + 1..] == old(phEx[i + 1..])
    ensures magEy[i + 1..] == old(magEy[i + 1..]) && phEy[i + 1..] == old(phEy[i + 1..])
    // the drawn indices are written at slot i even when the check then rejects them
    ensures !a.OutOfDraws? ==> modeM[i] == IntegerDraw(ints[pos], 4) && modeN[i] == IntegerDraw(ints[pos + 1], 4)
    ensures a.Accepted? ==>
      && modeM[i] == a.rec.m && modeN[i] == a.rec.n && mode[i] == Label(a.rec.family)
      && magEx[i] == a.rec.features.magEx && phEx[i] == a.rec.features.phEx
      && magEy[i] == a.rec.features.magEy && phEy[i] == a.rec.features.phEy
  {
    if pos + 2 > |ints| {
      return OutOfDraws;
    }
    var m := IntegerDraw(ints[pos], 4);
    var n := IntegerDraw(ints[pos + 1], 4);
    // the indices are written before the check; a rejected pair is overwritten later
    modeM[i] := m;
    modeN[i] := n;
    if IndexRejected(m, n) {
      return Discarded(2);
    }
    if pos + 3 > |ints| {
      return OutOfDraws;
    }
    var family := SelectFamily(IntegerDraw(ints[pos + 2], 2));
    mode[i] := Label(family);
    var clean := cfg.phys.synth(m, n, family);
    var branch := NoiseBranch(cfg.nf);
    if branch.None? {
      // the noise planes are never bound, so the noise step raises and is caught
      return Discarded(3);
    }
    var nt, used;
    if branch.value == Control {
      nt, used := ControlNoise(clean), 0;
    } else if noisePos < |noise| {
      nt, used := noise[noisePos], 1;
    } else {
      return OutOfDraws;
    }
    var features := cfg.phys.normalise(Noisy(cfg.phys, clean, nt));
    magEx[i] := features.magEx;
    phEx[i] := features.phEx;
    magEy[i] := features.magEy;
    phEy[i] := features.phEy;
    a := Accepted(3, used, Record(m, n, family, features));
  }

  /**
   * One pass of the `while` body: the try block on slot i, then `i += 1` on
   * success or `s += 1` in the except clause. The ghost state g tracks the loop.
   */
  method Step(cfg: Config, numSamples: nat, ints: seq<int>, noise: seq<NoiseTerms>, pos: nat, noisePos: nat, i: nat, s: nat, ghost g: Gen,
              magEx: array<seq<real>>, phEx: array<seq<real>>, magEy: array<seq<real>>, phEy: array<seq<real>>,
              mode: array<char>, modeM: array<int>, modeN: array<int>)
    returns (outOfDraws: bool, pos': nat, noisePos': nat, i': nat, s': nat, ghost g': Gen)
    requires magEx.Length == phEx.Length == magEy.Length == phEy.Length == mode.Length == modeM.Length == modeN.Length == numSamples
    requires magEx != phEx && magEx != magEy && magEx != phEy && phEx != magEy && phEx != phEy && magEy != phEy
    requires modeM != modeN
    requires pos == g.pos && noisePos == g.noisePos && s == g.discards && i == |g.records| < numSamples
    requires pos <= |ints|
    requires Stored(g.records, Dataset(magEx[..], phEx[..], magEy[..], phEy[..], mode[..], modeM[..], modeN[..]))
    modifies magEx, phEx, magEy, phEy, mode, modeM, modeN
    ensures pos' == g'.pos && noisePos' == g'.noisePos && s' == g'.discards && i' == |g'.records| <= numSamples
    ensures pos' <= |ints|
    ensures Run(cfg, ints, noise, numSamples, g') == Run(cfg, ints, noise, numSamples, g)
    ensures outOfDraws ==> Next(cfg, ints, noise, g').None?
    ensures Stored(g'.records, Dataset(magEx[..], phEx[..], magEy[..], phEy[..], mode[..], modeM[..], modeN[..]))
    ensures outOfDraws || pos < pos'
    ensures outOfDraws ==> pos' == pos
    // exactly one iteration of the loop's specification: none when the draws ran out
    ensures outOfDraws ==> g' == g && Next(cfg, ints, noise, g).None?
    ensures !outOfDraws ==> Next(cfg, ints, noise, g) == Some(g')
  {
    ghost var before := Dataset(magEx[..], phEx[..], magEy[..], phEy[..], mode[..], modeM[..], modeN[..]);
    var a := TryCandidate(cfg, ints, noise, pos, noisePos, i, magEx, phEx, magEy, phEy, mode, modeM, modeN);
    ghost var after := Dataset(magEx[..], phEx[..], magEy[..], phEy[..], mode[..], modeM[..], modeN[..]);
    RunUnfold(cfg, ints, noise, numSamples, g, a);
    StoredPrefix(g.records, before, after);
    outOfDraws, pos', noisePos', i', s', g' := false, pos, noisePos, i, s, g;
    match a {
      case OutOfDraws =>
        outOfDraws := true;
      case Discarded(used) =>
        s', pos' := s + 1, pos + used;
        g' := Apply(g, a).value;
      case Accepted(used, usedNoise, rec) =>
        StoredAppend(g.records, after, rec);
        i', pos', noisePos' := i + 1, pos + used, noisePos + usedNoise;
        g' := Apply(g, a).value;
    }
  }

  /**
   * The generation loop over preallocated per-sample arrays. Returns the saved
   * dictionary, the number i of filled slots and the discard count s.
   */
  method Generate(cfg: Config, numSamples: nat, ints: seq<int>, noise: seq<NoiseTerms>)
    returns (ds: Dataset, i: nat, s: nat)
    ensures Sized(ds, numSamples)
    ensures i == |Generated(cfg, numSamples, ints, noise).records|
    ensures s == Generated(cfg, numSamples, ints, noise).discards
    ensures Stored(Generated(cfg, numSamples, ints, noise).records, ds)
    ensures i < numSamples ==> Next(cfg, ints, noise, Generated(cfg, numSamples, ints, noise)).None?
  {
    var magEx := new seq<real>[numSamples];
    var phEx := new seq<real>[numSamples];
    var magEy := new seq<real>[numSamples];
    var phEy := new seq<real>[numSamples];
    var mode := new char[numSamples];
    var modeM := new int[numSamples];
    var modeN := new int[numSamples];
    i, s := 0, 0;
    var pos, noisePos := 0, 0;
    var outOfDraws := false;
    ghost var g := Gen(0, 0, [], 0);
    while i < numSamples && !outOfDraws
      invariant pos == g.pos && noisePos == g.noisePos && s == g.discards && i == |g.records| <= numSamples
      invariant pos <= |ints|
      invariant Run(cfg, ints, noise, numSamples, g) == Generated(cfg, numSamples, ints, noise)
      invariant outOfDraws ==> Next(cfg, ints, noise, g).None?
      invariant Stored(g.records, Dataset(magEx[..], phEx[..], magEy[..], phEy[..], mode[..], modeM[..], modeN[..]))
      decreases |ints| - pos, if outOfDraws then 0 else 1
    {
      outOfDraws, pos, noisePos, i, s, g := Step(cfg, numSamples, ints, noise, pos, noisePos, i, s, g, magEx, phEx, magEy, phEy, mode, modeM, modeN);
    }
    assert Run(cfg, ints, noise, numSamples, g) == g;
    ds := Dataset(magEx[..], phEx[..], magEy[..], phEy[..], mode[..], modeM[..], modeN[..]);
  }

  /**
   * Once the loop has filled every slot, each stored mode index lies in 1..3:
   * a rejected index written at slot i is always overwritten by the next accepted one.
   */
  lemma CompletedModesValid(cfg: Config, numSamples: nat, ints: seq<int>, noise: seq<NoiseTerms>, ds: Dataset)
    requires Sized(ds, numSamples)
    requires Stored(Generated(cfg, numSamples, ints, noise).records, ds)
    requires |Generated(cfg, numSamples, ints, noise).records| == numSamples
    ensures forall j :: 0 <= j < numSamples ==> 1 <= ds.m[j] <= 3 && 1 <= ds.n[j] <= 3
  {
    var records := Generated(cfg, numSamples, ints, noise).records;
    GeneratedProperties(cfg, numSamples, ints, noise);
    forall j | 0 <= j < numSamples
      ensures 1 <= ds.m[j] <= 3 && 1 <= ds.n[j] <= 3
    {
      assert Holds(ds, j, records[j]) && ValidModes(records[j]);
    }
  }

  // ---------------------------------------------------------------------------
  // Output file name and saving
  // ---------------------------------------------------------------------------

  /** The file-name prefix of each noise model. */
  function NamePrefix(k: NoiseModel): (p: string)
    // lower-case letters only, so the "_" after it in a file name is the first one
    ensures |p| >= 6 && forall j :: 0 <= j < |p| ==> 'a' <= p[j] <= 'z'
  {
    match k
    case Control => "control"
    case Uniform => "uniform"
    case Exponential => "exponential"
    case Normal => "normal"
    case Correlated => "correlated"
  }

  /** The name the dataset is saved under; None when NF selects no branch and `name` stays unbound. */
  function OutputName(nf: int, snrText: string): (name: Option<string>)
    ensures name.Some? <==> 0 <= nf <= 4
    ensures name.Some? ==> name.value == NamePrefix(NoiseBranch(nf).value) + "_" + snrText
  {
    if nf == 0 then Some("control_" + snrText)
    else if nf == 1 then Some("uniform_" + snrText)
    else if nf == 2 then Some("exponential_" + snrText)
    else if nf == 3 then Some("normal_" + snrText)
    else if nf == 4 then Some("correlated_" + snrText)
    else None
  }

  /** The first and third letters tell the five prefixes apart. */
  lemma NamePrefixDistinct(k: NoiseModel, k': NoiseModel)
    requires NamePrefix(k)[0] == NamePrefix(k')[0] && NamePrefix(k)[2] == NamePrefix(k')[2]
    ensures k == k'
  {
  }

  /** Different noise selectors never save under the same name. */
  lemma OutputNameInjective(nf: int, nf': int, snrText: string)
    requires OutputName(nf, snrText).Some?
    requires OutputName(nf, snrText) == OutputName(nf', snrText)
    ensures nf == nf'
  {
    var k, k' := NoiseBranch(nf).value, NoiseBranch(nf').value;
    var name := OutputName(nf, snrText).value;
    assert name[0] == NamePrefix(k)[0] && name[2] == NamePrefix(k)[2] by {
      assert name == NamePrefix(k) + ("_" + snrText);
    }
    assert name[0] == NamePrefix(k')[0] && name[2] == NamePrefix(k')[2] by {
      assert name == NamePrefix(k') + ("_" + snrText);
    }
    NamePrefixDistinct(k, k');
    assert Selector(k) == nf;
  }

  /** `np.save` appends the archive extension to the name. */
  function SavedFile(name: string): (f: string)
    ensures |f| == |name| + 4 && f[..|name|] == name && f[|name|..] == ".npy"
  {
    name + ".npy"
  }

  /**
   * Saving into a store of files: for NF = 0..4 the dataset is written under its name;
   * otherwise nothing is written and the final report fails on the unbound name.
   */
  function Save(nf: int, snrText: string, files: map<string, Dataset>, ds: Dataset): (r: Option<map<string, Dataset>>)
    ensures r.Some? <==> 0 <= nf <= 4
    ensures r.Some? ==>
      SavedFile(OutputName(nf, snrText).value) in r.value && r.value[SavedFile(OutputName(nf, snrText).value)] == ds
    ensures r.Some? ==> forall f :: f in files && f != SavedFile(OutputName(nf, snrText).value) ==>
      f in r.value && r.value[f] == files[f]
    // and no file other than the target appears
    ensures r.Some? ==> r.value.Keys == files.Keys + {SavedFile(OutputName(nf, snrText).value)}
  {
    match OutputName(nf, snrText)
    case None => None
    case Some(name) => Some(files[SavedFile(name) := ds])
  }
}
