# Video authenticity scorer, modelled in Dafny

This project models `SimpleDeepfakeDetector` in `dfpipeline.py`. The detector scores a decoded video, meaning its frame sequence plus an optional audio track, with three heuristics:

- **facial stability**: on every tenth frame, how consistent the areas of the faces detected in that frame are, averaged over those frames (a frame with a single face scores 1);
- **spectral regularity**: the dispersion-to-mean ratio of each sampled frame's log-magnitude spectrum;
- **audio-visual correlation**: the absolute Pearson correlation between normalised audio energy and normalised frame-to-frame motion.

It fuses the three with the weights 0.4, 0.3 and 0.3 into a final score. From that score it derives a verdict (`Real` when strictly above 0.7), a confidence of `|s - 0.5| * 2`, and the ordered list of components scoring below 0.7.

Modelling choices:

- **Scores are `Floats.Float`.** A score is either a finite value or NaN. Finite values are exact `real`s, so float rounding is abstracted away. NaN is kept because the source really produces it, and because NaN changes the report: `NaN > 0.7` and `NaN < 0.7` are both false.
- **Where NaN comes from.** The source produces NaN in two places:
  - the `0 / 0` of an all-zero spectrum;
  - `np.corrcoef` of a zero-variance series, which covers a static clip and a two-frame clip when the audio has at least `len(frames) - 1` samples.
- **Frames are a type parameter `F`.** The model never looks inside a frame.
- **External capabilities are total functions.** Face detection, standard deviation, the log-spectrum, the mean absolute frame difference and Pearson correlation are fields of `Detector.Primitives`. The facts the proofs need about them are the predicates `StdSound`, `SpectrumSound` and `PearsonSound`, which lemmas take as preconditions. Those facts are:
  - a standard deviation is non-negative, and it is 0 on a constant series;
  - `log(|z| + 1)` is never negative;
  - a correlation is NaN or lies in [-1, 1], and it is NaN on a zero-variance series.
- **The score dict is an insertion-ordered association list** (`Fusion.Bundle`). `scores[c] = v` is `Fusion.Put`. Python's `sum` and the anomaly comprehension walk the dict in insertion order, and so does the model.
- **The two frame-sampling analysers are methods.** Each has a loop over `frames[::10]` that appends to a local list. Each is proved equal to a specification function (`FacialScore`, `FrequencyScore`), and the lemmas are stated about those functions.
- **The audio-visual analyser and fusion are functions.** The audio-visual analyser's `try` block is `Correlate`, which returns a `Result`. Its `Failure` value names the step that raised. The outer function collapses every failure to 0.5.

Behaviour of `dfpipeline.py` worth knowing:

- **The facial score is not bounded below.** It is at most 1, but it is negative when the face areas' spread exceeds their mean.
- **The stride (10) and the weights are hard-coded.**
- **Zero-mean spectra are not skipped.** The spectral analyser keeps a frame whose spectrum mean is 0, and that frame scores NaN.
- **Static clips with enough audio score NaN.** A clip of at least two frames, all identical, with at least `len(frames) - 1` audio samples raises nothing, but its audio-visual score is NaN rather than a number. With a single frame, `np.min([])` raises (dfpipeline.py:81); with fewer audio samples, `np.corrcoef` raises (dfpipeline.py:84). Either way the score falls back to 0.5.
- **Short audio falls back to 0.5.** Audio shorter than the motion series is not padded. `np.corrcoef` raises on the length mismatch, and the score falls back to 0.5.

## Model

| member | source | states |
|---|---|---|
| `Sampling.StrideSample` | dfpipeline.py:37 | `frames[::10]` has ceil(n/10) entries and its k-th entry is frame 10k |
| `Sampling.SampledIndices` | dfpipeline.py:54 | a frame is visited exactly when its index is a multiple of 10, and then it sits at position i/10 of the sample |
| `Sampling.SampleOnlySeesStride` | dfpipeline.py:37 | two clips that agree on frames 0, 10, 20, … have the same sample |
| `Stats.Min` | dfpipeline.py:80-81 | `min()` of a non-empty series is one of its values and a lower bound of all of them |
| `Stats.Max` | dfpipeline.py:80-81 | `max()` of a non-empty series is one of its values and an upper bound of all of them |
| `Stats.Normalize` | dfpipeline.py:80-81 | min-max normalisation keeps the series' length |
| `Stats.NormalizeInUnit` | dfpipeline.py:80-81 | with the `+1e-6` guard every normalised value lies in [0, 1) |
| `Stats.NormalizeConstant` | dfpipeline.py:80-81 | a series normalises to all zeros if and only if it is constant, so a constant series never divides by zero |
| `Stats.NormalizeMonotone` | dfpipeline.py:80-81 | normalisation preserves the order of any two values, in both directions |
| `Stats.Mean` | dfpipeline.py:44-48 | `np.mean` of a non-empty series lies between any lower and any upper bound of the series |
| `Stats.SumF` | dfpipeline.py:63 | the sum of a list of floats is NaN exactly when one of its entries is NaN |
| `Stats.MeanF` | dfpipeline.py:63 | `np.mean` of a non-empty list of floats is NaN exactly when one of its entries is NaN |
| `Stats.MeanZeroIff` | dfpipeline.py:44 | a non-empty series of non-negative values has mean 0 exactly when every value is 0 |
| `FacialAnalysis.Areas` | dfpipeline.py:42 | one area per detected face, each non-negative |
| `FacialAnalysis.FrameScore` | dfpipeline.py:38-46 | a sampled frame contributes a score exactly when some detected face has a positive area; no face, or only zero-area faces, contribute nothing |
| `FacialAnalysis.Collected` | dfpipeline.py:35-46 | `facial_scores` after the loop holds at most one score per sampled frame, and one for each frame when every sampled frame yields one |
| `FacialAnalysis.AnalyzeFaceMovement` | dfpipeline.py:33-48 | the loop over every tenth frame returns the mean of the scores collected, or exactly 0.5 when none was, the specification function `FacialScore` |
| `FacialAnalysis.CollectedEmpty` | dfpipeline.py:41-46 | nothing is collected exactly when no sampled frame has a face with non-zero mean area |
| `FacialAnalysis.NoFacesIsNeutral` | dfpipeline.py:41-48 | with no face in any sampled frame the facial score is exactly 0.5 |
| `FacialAnalysis.FrameScoreAtMostOne` | dfpipeline.py:41-46 | a collected per-frame score `1 - std/mean` is at most 1, because areas are non-negative and std is non-negative |
| `FacialAnalysis.FacialAtMostOne` | dfpipeline.py:45-48 | the facial score is at most 1 |
| `FacialAnalysis.FacialOnlySeesStride` | dfpipeline.py:37 | the facial score depends only on frames 0, 10, 20, … |
| `FacialAnalysis.UniformFacesScoreOne` | dfpipeline.py:41-48 | a non-empty clip whose sampled frames all show faces of one positive area scores exactly 1 |
| `FrequencyAnalysis.FrameScore` | dfpipeline.py:55-60 | for a non-negative spectrum, a sampled frame scores NaN exactly when its spectrum has no non-zero value |
| `FrequencyAnalysis.Collected` | dfpipeline.py:52-61 | `freq_scores` after the loop holds exactly one score per sampled frame, in order, each the frame's own score |
| `FrequencyAnalysis.AnalyzeFrequencyDomain` | dfpipeline.py:50-63 | the loop over every tenth frame returns the mean of one score per sampled frame, or exactly 0.5 for an empty clip, the specification function `FrequencyScore` |
| `FrequencyAnalysis.ZeroMeanIsZeroOverZero` | dfpipeline.py:59-60 | a non-empty spectrum with mean 0 has std 0, so the unguarded ratio is 0/0 (NaN) |
| `FrequencyAnalysis.FrequencyShape` | dfpipeline.py:54-63 | 0.5 exactly for an empty clip, otherwise the mean of ceil(n/10) per-frame scores, NaN if one sampled frame's score is NaN |
| `FrequencyAnalysis.FrameScoreAtMostOne` | dfpipeline.py:59-60 | a finite per-frame spectral score is at most 1 |
| `FrequencyAnalysis.FrequencyAtMostOne` | dfpipeline.py:54-63 | a finite spectral score is at most 1, with no lower bound |
| `FrequencyAnalysis.FrequencyOnlySeesStride` | dfpipeline.py:54 | the spectral score depends only on frames 0, 10, 20, … |
| `AudioVisualAnalysis.AudioEnergy` | dfpipeline.py:71-72 | one non-negative energy per audio sample |
| `AudioVisualAnalysis.FrameDiffs` | dfpipeline.py:74-77 | the motion series has `len(frames) - 1` entries, none for an empty clip |
| `AudioVisualAnalysis.Take` | dfpipeline.py:85 | `xs[:n]` has `min(n, len(xs))` entries, a prefix of `xs` |
| `AudioVisualAnalysis.Correlate` | dfpipeline.py:70-89 | the try block raises exactly on empty audio, fewer than two frames, or audio shorter than the motion series; otherwise its absolute correlation is NaN or non-negative |
| `AudioVisualAnalysis.AudioVisualScore` | dfpipeline.py:65-92 | exactly 0.5 without audio, with fewer than two frames, or with audio shorter than the motion series; a finite score is never negative |
| `AudioVisualAnalysis.CorrelateFailsIff` | dfpipeline.py:72-81 | the first step to raise is `min()` of the energy series exactly when the audio is empty, and `min()` of the motion series exactly when there is audio but fewer than two frames |
| `AudioVisualAnalysis.CorrelateSucceeds` | dfpipeline.py:74-89 | otherwise both aligned series have `len(frames) - 1` entries, the audio one is the truncated normalised energy, and the score is the absolute correlation |
| `AudioVisualAnalysis.SeriesInUnit` | dfpipeline.py:79-81 | both normalised series lie in [0, 1) |
| `AudioVisualAnalysis.AudioVisualInUnit` | dfpipeline.py:84-89 | a finite audio-visual score lies in [0, 1] |
| `AudioVisualAnalysis.StaticClipIsNaN` | dfpipeline.py:74-89 | at least two identical frames with at least `len(frames) - 1` audio samples do not raise (the epsilon guard holds), but the correlation of the all-zero motion series is NaN, and so is the score; with fewer frames or samples the try block raises and the score is 0.5 |
| `AudioVisualAnalysis.TwoFrameClipIsNaN` | dfpipeline.py:74-89 | a two-frame clip with audio has a one-value motion series and scores NaN |
| `Fusion.Put` | dfpipeline.py:27-29 | `scores[c] = v` overwrites the existing entry in place, keeping every key and its position, and changes no other value |
| `Fusion.Standard` | dfpipeline.py:15-19 | the score dict literal lists the keys facial, frequency, audio_visual in that order |
| `Fusion.WeightedSum` | dfpipeline.py:98-100 | the weighted sum is NaN exactly when one score is NaN, and non-negative when every score is |
| `Fusion.Confidence` | dfpipeline.py:107 | the confidence is NaN exactly when the score is, never negative otherwise, and in [0, 1] for a score in [0, 1] |
| `Fusion.Anomalies` | dfpipeline.py:108 | a component is listed exactly when its score is below 0.7 |
| `Fusion.CalculateFinalScore` | dfpipeline.py:94-110 | the bundle is returned unchanged; the verdict is `Real` exactly when the final score is above 0.7; the confidence is NaN exactly when the score is; the anomalies are exactly the components below 0.7 |
| `Fusion.StandardFinalScore` | dfpipeline.py:96-100 | the final score is `0.4 facial + 0.3 frequency + 0.3 audio_visual`, and NaN when a component is NaN |
| `Fusion.StandardReport` | dfpipeline.py:96-107 | for the three components the final score is `0.4 facial + 0.3 frequency + 0.3 audio_visual`, the confidence is `|score - 0.5| * 2` of it, and the verdict is real exactly when it exceeds 0.7; a NaN component gives a NaN score and confidence and a likely-deepfake verdict |
| `Fusion.FinalScoreInUnit` | dfpipeline.py:96-100 | components in [0, 1] give a final score in [0, 1] |
| `Fusion.ConfidenceFacts` | dfpipeline.py:107 | the confidence is `|s - 0.5| * 2`, which is 0 at 0.5, 0.4 at 0.7 and 1 at 1.0 |
| `Fusion.StandardAnomalies` | dfpipeline.py:108 | the anomalies are exactly the components below 0.7, in the order facial, frequency, audio_visual |
| `Fusion.AnomaliesExample` | dfpipeline.py:15-19 | {0.9, 0.6, 0.65} gives anomalies [frequency, audio_visual] and final score 0.735, judged real |
| `Fusion.ThresholdIsStrict` | dfpipeline.py:106 | a final score of exactly 0.7 is judged a likely deepfake with confidence 0.4, and 0.7 is not an anomaly |
| `Fusion.NaNComponent` | dfpipeline.py:98-108 | a NaN component gives a NaN final score and confidence and a likely-deepfake verdict, and is not listed as an anomaly |
| `Pipeline.ScoreVideo` | dfpipeline.py:14-31 | the report lists facial, frequency, audio_visual in that order; the final score is `0.4 facial + 0.3 frequency + 0.3 audio_visual` of the three analysers, NaN exactly when the spectral or audio-visual score is; a clip without audio always flags audio_visual |
| `Pipeline.ProcessVideo` | dfpipeline.py:14-31 | the dict always holds exactly the keys facial, frequency, audio_visual in that order, each overwritten once with its analyser's score, and the report is their fusion |
| `Pipeline.UniformFacesWithoutAudio` | dfpipeline.py:14-31 | constant faces in every sampled frame and no audio give facial 1, audio_visual 0.5, final `0.55 + 0.3 frequency`, real exactly when the spectral score exceeds 0.5 |
| `Pipeline.NoFacesNoAudioNeverReal` | dfpipeline.py:14-31 | with no face in any sampled frame and no audio the final score is at most 0.65, never real, and facial and audio_visual are anomalies |
| `Pipeline.StaticClipWithAudio` | dfpipeline.py:65-110 | a static clip of at least two frames with at least `len(frames) - 1` audio samples is reported as a likely deepfake with NaN final score and confidence, and audio_visual is not flagged |
| `Pipeline.OnlyStrideFramesReachVisualScores` | dfpipeline.py:37-63 | the report depends on the visual analysers only through frames 0, 10, 20, … |

## Left out

- Video decoding is not modelled. That covers `VideoFileClip` and `iter_frames` (dfpipeline.py:22-24). The model starts from the decoded frames and the optional audio track. A failure there propagates out of `process_video` in the source, and the model does not represent it.
- A failing `to_soundarray` (dfpipeline.py:71) is not modelled. It sits inside the `try` block, so in the source it gives an audio-visual score of 0.5. The model's audio is an already decoded array of samples, so it cannot fail there.
- Empty frames are not modelled. In the source an empty frame raises in `cv2.cvtColor` (dfpipeline.py:38, 55) and the error propagates out of `process_video`. The model's abstract spectrum may be empty, and such a frame then scores NaN.
- Loading the face cascade is not modelled (dfpipeline.py:8-12). The detector handle is the `detectFaces` field of `Detector.Primitives`.
- The numeric primitives are parameters. They are grayscale conversion, face detection, `np.std`, `fft2` / `fftshift` / log-magnitude, the pixel-level frame difference and `np.corrcoef`. Only the facts in `StdSound`, `SpectrumSound` and `PearsonSound` are assumed about them.
- `analyze_video` (dfpipeline.py:114-117) only builds a detector and calls `process_video`. In the model it is `Pipeline.ProcessVideo` with a chosen `Primitives` value.
- Float rounding and infinities are not modelled. For example, 0.4 + 0.3 + 0.3 is not exactly 1.0 in floats. A zero-mean spectrum scores NaN directly. `FrequencyAnalysis.ZeroMeanIsZeroOverZero` shows that the source divides 0 by 0 there when the primitives are sound.
- The uint8 wrap-around in `frames[i + 1] - frames[i]` is inside the abstract frame difference and is not modelled.
- Non-finite audio samples are not modelled. Audio samples are finite reals.
- `FrequencyAnalysis.FrequencyAtMostOne`: only an upper bound is proved. The spectral score has no lower bound, because the source does not clamp.
- `FacialAnalysis.FacialAtMostOne`: only an upper bound is proved. The facial score is negative when the areas' spread exceeds their mean.
- The rest of the repository is not part of this model: the upload UI, the database, the report document, the language-model summary and the translation service.
