# Waveguide mode dataset: generator loop and consumer bookkeeping

This project models the discrete control logic of a two-script pipeline.
The first script builds a dataset of rectangular-waveguide mode images.
The second trains a nearest-neighbour classifier on it.

- `gen_data.dfy` (module `GenData`) models the generator's rejection-sampling loop.
  Each iteration draws mode indices `m, n` from {0..3}. A pair with `m < 1 or n < 1`
  raises and is counted in the discard counter `s`. Otherwise a family selector is drawn:
  0 gives TE (label `'E'`), 1 gives TM (label `'M'`). Then the noise branch chosen by `NF`
  is applied, and the normalised feature planes are written into slot `i` of seven
  preallocated arrays. The module also models the `NF` noise dispatch and the
  `NF`-to-file-name dispatch used when saving.
- `train_and_test.dfy` (module `TrainAndTest`) models the consumer:
  - the `NF` load dispatch and its fatal messages;
  - `np.hstack` of the four planes into the feature matrix `DATA`;
  - the binary label `mode == 'E'` and the multiclass label `10*m + n`;
  - the un-shuffled 80/20 prefix split in `train_and_test`.
- `options.dfy` (module `Options`) holds the `Option` and `Result` types used for error paths.

Modelling choices:

- **Random source.** It is two input streams. `ints` holds the results of `rng.integers`,
  and `IntegerDraw` reduces each draw modulo the bound. `noise` holds one set of four noise
  planes per accepted sample when `NF` is 1..4. Because every draw is a free input,
  any interleaving of the generator's integer and noise draws can be represented.
- **Physics is opaque.** Field synthesis, the mean magnitude and the normalisation are
  uninterpreted function fields of `Physics`.
- **Noise injection** (`clean + mean|clean| * (r + j*i) / SNR`) is written out on exact reals.
- **The loop.** `Try` specifies one iteration and `Run` specifies the whole loop.
  `Generate` is the loop over arrays, proved equal to `Run`. `TryCandidate` is the try block
  writing slot `i`. `Step` is one pass of the `while` body, with its `i += 1` / `s += 1`.
- **The file system** is a map from file names to datasets.
  File names carry the SNR as text, `'{}'.format(SNR)`, which is `"0.01"` in both scripts.

## Model

| member | source | states |
|---|---|---|
| GenData.IntegerDraw | gen_data_final.py:74-75 | a draw lies in 0..bound-1, and a draw already in range is taken unchanged |
| GenData.SelectFamily | gen_data_final.py:85-92 | the family is TE exactly when the selector draw is 0 |
| GenData.Label | gen_data_final.py:86-93 | the stored label is 'E' exactly for TE and 'M' exactly for TM |
| GenData.NoiseBranch | gen_data_final.py:99-123 | a noise branch exists exactly for NF in 0..4, and it is the control branch exactly for NF = 0 |
| GenData.Selector | gen_data_final.py:99-123 | every noise model has a selector in 0..4 that dispatches back to it |
| GenData.NoiseBranchSelector | gen_data_final.py:99-123 | for NF in 0..4, the dispatch followed by its selector gives NF back |
| GenData.ControlNoise | gen_data_final.py:99-103 | the control branch gives four all-zero planes shaped like Ex |
| GenData.Inject | gen_data_final.py:124-127 | element k of the noisy component is the clean element plus scale·(re[k] + j·im[k])/SNR, and the shape is kept |
| GenData.Noisy | gen_data_final.py:124-127 | Ex gets (rx, ix) scaled by the mean magnitude of the clean Ex, Ey gets (ry, iy) scaled by that of the clean Ey |
| GenData.InjectZero | gen_data_final.py:124-127 | adding all-zero noise planes leaves a field component unchanged |
| GenData.Sample | gen_data_final.py:99-131 | an accepted record carries the drawn m, n and family; with the control branch's zero planes its features are those of the clean synthesised field |
| GenData.Try | gen_data_final.py:73-131 | a discarded iteration used 2 or 3 integer draws and an accepted one used 3, all within the stream; a noise set is consumed only when one is left |
| GenData.TryRules | gen_data_final.py:74-127 | discarded after 2 draws iff `m < 1 or n < 1`; discarded after 3 draws iff the indices pass but NF selects no branch; an accepted record carries the drawn indices in 1..3 and is TE iff the selector is 0; with NF = 0 it is noise-free; the iteration runs out of draws iff a stream it must still read is exhausted; a pair passing the check is accepted iff NF is in 0..4 and the draws suffice; the accepted record uses the zero planes for NF = 0 and noise set `noisePos` for NF 1..4, so record j uses noise set j |
| GenData.Apply | gen_data_final.py:72-141 | a discard gives `s += 1` with the filled slots unchanged; an acceptance gives `i += 1` with the record in the next slot and the earlier slots unchanged; both advance the draw positions by what was used |
| GenData.Next | gen_data_final.py:72-141 | an iteration fails exactly when fewer than 2 integer draws are left, or the pair passes the check and the third draw or the noise set for NF 1..4 is missing; otherwise it advances the draw position and exactly one counter, keeping the earlier records |
| GenData.Run | gen_data_final.py:72-141 | the loop ends with at most num_samples records, and with fewer only when the next iteration cannot run, i.e. a stream is exhausted |
| GenData.RunKeepsFilledSlots | gen_data_final.py:76-138 | records already stored are never changed again, and the discard count never decreases |
| GenData.RunAcceptsValidModes | gen_data_final.py:83-84 | every accepted record has m and n in 1..3 |
| GenData.RunAcceptsNothingWithoutNoiseBranch | gen_data_final.py:99-141 | for NF outside 0..4 no candidate is ever accepted |
| GenData.RunControlIsNoiseFree | gen_data_final.py:99-131 | for NF = 0 every stored record holds the clean field's features |
| GenData.RunAccountsDraws | gen_data_final.py:74-123 | for NF in 0..4, the integer draws used are 2 per discard plus 3 per record, and the noise sets used are one per record unless NF = 0 |
| GenData.GeneratedProperties | gen_data_final.py:68-141 | the finished loop satisfies all of the above, starting from i = s = 0 |
| GenData.StoredPrefix | gen_data_final.py:76-131 | writes at or above slot \|records\| leave the stored records intact |
| GenData.StoredAppend | gen_data_final.py:128-138 | filling slot \|records\| with a record stores one more record, in order |
| GenData.TryCandidate | gen_data_final.py:73-131 | the try block's outcome is `Try`; only slot i of the seven arrays changes; the drawn indices are written at slot i whenever two draws were available; on acceptance slot i holds the record's indices, label and four planes |
| GenData.Step | gen_data_final.py:72-141 | one pass of the loop body performs exactly one iteration of the specification (`Next`), or none when the draws ran out; the filled prefix and the counters stay in step with it |
| GenData.Generate | gen_data_final.py:61-155 | the returned dictionary has num_samples entries per array; i and s are the record and discard counts of the loop's specification; its first i slots hold those records in acceptance order; it stops short only when the draws ran out |
| GenData.CompletedModesValid | gen_data_final.py:74-138 | once every slot is filled, every stored m and n lies in 1..3 |
| GenData.NamePrefix | gen_data_final.py:158-172 | each file prefix is at least six lower-case letters, so the "_" after it is the first one in the name |
| GenData.OutputName | gen_data_final.py:158-172 | a name exists exactly for NF in 0..4, namely the noise model's prefix, "_" and the SNR text |
| GenData.NamePrefixDistinct | gen_data_final.py:158-172 | the five file prefixes are told apart by their first and third letters |
| GenData.OutputNameInjective | gen_data_final.py:158-172 | different NF values never save under the same name |
| GenData.SavedFile | gen_data_final.py:158-172 | `np.save` writes the name followed by exactly ".npy" |
| GenData.Save | gen_data_final.py:157-172 | for NF in 0..4 the dataset is stored under its name plus ".npy" and no other file changes; otherwise nothing is saved |
| TrainAndTest.TrainCount | train_and_test.py:37-38 | ntrain is at most samples and is the largest count with 5·ntrain ≤ 4·samples |
| TrainAndTest.HundredSamplesSplit | train_and_test.py:37-38 | 100 samples split into 80 for training and 20 for testing |
| TrainAndTest.Take | train_and_test.py:40-42 | `s[:k]` has min(k, \|s\|) elements, the leading ones of s |
| TrainAndTest.Drop | train_and_test.py:41-43 | `s[k:]` has the remaining elements, in order |
| TrainAndTest.TakeDrop | train_and_test.py:40-43 | cutting at the same index and concatenating gives the input back |
| TrainAndTest.TrainTestSplit | train_and_test.py:36-43 | each input is split into training part then test part; the training part has TrainCount rows; with equal lengths, row j of each part keeps its own label, and test rows are offset by ntrain |
| TrainAndTest.HStack | train_and_test.py:109-111 | defined iff the row counts agree; each row is the row of the first matrix followed by the row of the second |
| TrainAndTest.FeatureMatrix | train_and_test.py:109-111 | DATA exists iff the four planes have the same number of rows, and it has that many rows |
| TrainAndTest.FeatureRowLayout | train_and_test.py:109-111 | with planes of width p, a row has length 4p and its segments [0,p), [p,2p), [2p,3p), [3p,4p) are magEx, phEx, magEy and phEy of the same sample |
| TrainAndTest.BinaryLabels | train_and_test.py:113 | one flag per sample |
| TrainAndTest.BinaryLabelMeansTE | train_and_test.py:113 | a flag is set exactly for the TE label and cleared exactly for the TM label |
| TrainAndTest.ClassLabel | train_and_test.py:114 | for m, n in 1..3 the label `10*m + n` is a two-digit number from 11 to 33 with a non-zero last digit |
| TrainAndTest.DecodeClassLabel | train_and_test.py:114 | for n in 0..9, `10*m + n` decodes back to (m, n) |
| TrainAndTest.ClassLabelInjective | train_and_test.py:114 | for n, n' in 0..9, equal class labels mean equal (m, n) |
| TrainAndTest.ClassLabelsOfValidModes | train_and_test.py:114 | over m, n in 1..3 the class labels are exactly {11,12,13,21,22,23,31,32,33} |
| TrainAndTest.BroadcastLength | train_and_test.py:114 | numpy combines two vectors iff their lengths are equal or one of them is 1 |
| TrainAndTest.MulticlassLabels | train_and_test.py:114 | defined iff the lengths broadcast; with equal lengths, element j is `10*ms[j] + ns[j]` |
| TrainAndTest.LoadFile | train_and_test.py:67-96 | a file is read exactly for NF in 0..4 |
| TrainAndTest.Digit | train_and_test.py:72 | the character of a one-digit number encodes that number |
| TrainAndTest.DataName | train_and_test.py:67-96 | the subject of each message is the file prefix of the same noise model, capitalised and followed by a space |
| TrainAndTest.UnavailableMessage | train_and_test.py:67-96 | every failure message ends with " unavailable. Try running gen_data_final.py with NF=" followed by that NF's digit |
| TrainAndTest.UnavailableMessageInjective | train_and_test.py:67-96 | different NF values fail with different messages |
| TrainAndTest.LoadFileIsSavedFile | train_and_test.py:67-96 | for NF in 0..4 the consumer reads exactly the file name the generator writes |
| TrainAndTest.Load | train_and_test.py:66-99 | for NF in 0..4: the stored dataset when its file exists, else that NF's message; for other NF: no dataset |
| TrainAndTest.LoadAfterSave | train_and_test.py:67-96 | loading under NF after the generator saved under NF gives back the saved dataset |
| TrainAndTest.LoadOtherAfterSave | train_and_test.py:67-96 | saving under one NF does not change what another NF loads |
| TrainAndTest.GeneratedLabels | train_and_test.py:113-114 | over the generator's filled slots the multiclass labels are among the nine values, and the binary label is set exactly for TE records |

## Left out

- Field equations for TE/TM, `kc` and `beta` (gen_data_final.py:78-97): complex floating-point trigonometry. `Physics.synth` is an uninterpreted function of (m, n, family).
- The uniform, exponential, normal and speckle noise distributions and the pyspeckle call (gen_data_final.py:104-123). These are randomness and a foreign library, so the planes come from the `noise` input stream. Only the branch each NF selects is modelled.
- Magnitude and phase normalisation (gen_data_final.py:128-131), with its NaN or division-by-zero case for an all-zero component. This is floating point, so it is `Physics.normalise`. The mean magnitude is `Physics.meanAbs`.
- Progress timing and printing (gen_data_final.py:132-137, 147, 173; the messages in train_and_test.py): wall-clock time and console output.
- `np.save`, `np.load` and pickling. Files are a map from names to datasets. The directories differ: "./../results" in the generator, "./results" in the consumer. They are not modelled, because which one is meant depends on where each script is started. Any load failure is modelled as the file being absent.
- The classifier: `KNeighborsClassifier`, `GridSearchCV` and `accuracy_score` (train_and_test.py:45-60). `train_and_test` is modelled up to the four slices it hands to sklearn.
- GenData.IntegerDraw: a stream element is reduced modulo the bound. This does not model numpy's uniform distribution.
- GenData.Generate: the source loop runs until `num_samples` records exist, and does not terminate when every candidate fails, e.g. for NF outside 0..4. The model takes finite draw streams, so it also stops when a stream runs out. Its postcondition states that an early stop happens only then.
- GenData.Generate: `mode_m` and `mode_n` are float arrays in the source. They are integers here.
- TrainAndTest.MulticlassLabels: the labels are integers rather than the floats numpy computes from the float index arrays.
- TrainAndTest.TrainCount: `int(0.8*samples)` is floating-point arithmetic. It is modelled as floor(4·samples/5). The two agree while 0.8·samples is computed without an error reaching an integer boundary. This was not proved for the float product.
- TrainAndTest.HStack: the row widths of numpy's two-dimensional arrays are not constrained. `FeatureRowLayout` takes the plane width as a hypothesis.
- GenData.At: a noise plane shorter or longer than the field is padded with zeros or cut. In the source numpy would raise at gen_data_final.py:126 and the bare `except` would count a discard. The generator's own noise planes always have the field's shape, so the model does not constrain the lengths in the `noise` stream.
- The `.item()` unwrapping and the numpy dtype of the `mode` array are not modelled. The `mode` array is one character per sample.
