# NameItPlease screen logic in Dafny

NameItPlease is a one-screen camera app. A tap captures a photo and runs it
through four image classifiers: ResNet50, VGG16, NASNetMobile and MobileNet.
Each classifier's top two predictions appear in its own region of the screen.
This project models the part of the view controller that is pure logic:

- `Identifier`: MobileNet's label post-processing (`processMobileNetIdentifier`).
  It strips everything up to and including the first space.
- `Collection`: the `subscript(safe:)` extension and the `prefix(_:)` it is
  used with.
- `Ranking`: the observations sorted by descending confidence, keeping the
  first two. `IsTopTwo` states what any admissible sort promises, whatever
  order it gives equal confidences.
- `Presenter`: the classification completion handler. It turns the
  observations into the two result-label texts.
- `Controller`: the screen as a value. It holds the `isStopped` toggle, whether
  the capture session runs, and a map from each of the four models to its
  region (title, two result labels, stack hidden, spinner animating). The
  handlers are pure functions: `startWaiting`, `stopWaiting`,
  `stopWaiting(for:)`, `resetResultLabels`, the tap handler, the capture
  completion and `performPrediction`.

Abstractions:
- Confidences are integers.
- A formatted result `"%@ (%.3f%%)"` is the text `Shown(identifier, confidence)`.
- A title with its latency `" %.2fs"` is `Timed(name, elapsed)`. The elapsed
  time is a non-negative parameter, as the absolute value of the measured
  interval is.
- Inference is an input, `Prediction`, with four outcomes:
  - `ImageUnavailable`: no image data, or the data did not decode.
  - `ModelUnavailable`: the model could not be wrapped for Vision.
  - `InferenceFailed`: `perform` threw.
  - `Classified`: a list of observations.
- The still capture is an input, `Capture`: it fails, or it yields an image
  with one outcome per model. In the program the image data and its decoding
  are shared by all four predictions, so `ImageUnavailable` holds for all four
  models or for none. `Captured` allows the outcomes to differ; the lemmas
  quantify over all outcomes, so they cover the shared case too.

Behaviour of the code worth knowing:
- After a failed capture the code calls `stopWaiting()`, which does not reset
  the labels. It also leaves `isStopped` set while the camera runs again, so
  the next tap takes the resume branch and does not capture
  (`Controller.CaptureFailureThenTap`).
- With exactly one observation the region shows that result next to `"?"`
  (`Controller.PredictionOutcomes`).
- When the model cannot be wrapped, the region only stops waiting and keeps
  its labels. When the image is unavailable, `performPrediction` returns
  without stopping the spinner, so that region stays busy.
- The sort is `sorted(by: {$0.confidence > $1.confidence})`, which compares
  confidences only and promises no order among equal confidences. The contracts hold for every tie-break.

## Model

| member | source | states |
|---|---|---|
| Collection.SafeGet | NameItPlease/Collection+SafeAccess.swift:12-15 | total lookup: `Some` exactly when the index is one of the collection's indices, and then it holds the element at that index; `None` otherwise, including negative indices |
| Collection.Prefix | NameItPlease/ViewController.swift:306 | `prefix(n)` keeps min(n, count) elements, and they are the collection's first ones |
| Collection.SafeGetOfPrefix | NameItPlease/Collection+SafeAccess.swift:13-14 | safe lookup on a prefix agrees with safe lookup on the whole collection below the cut and finds nothing at or past it |
| Collection.SecondOfTwoPrefix | NameItPlease/ViewController.swift:319-328 | index 1 of the top-2 prefix is present exactly when the prefix has two elements, which is exactly when there are at least two observations |
| Collection.FirstOfPrefix | NameItPlease/ViewController.swift:309 | `first` of a non-empty prefix is the collection's first element, and it is absent only for an empty collection |
| Identifier.FirstIndexOf | NameItPlease/ViewController.swift:347 | `firstIndex(of:)` is absent exactly when the character does not occur; otherwise it is a position holding the character with no earlier occurrence |
| Identifier.ProcessMobileNetIdentifier | NameItPlease/ViewController.swift:346-353 | no space: the identifier comes back unchanged; a space: the result is strictly shorter and the input is `head + " " + result` with a space-free head |
| Identifier.SplitAtFirstSpace | NameItPlease/ViewController.swift:347-349 | any split `head + " " + tail` with a space-free head determines the result as the tail |
| Identifier.ProcessedIsSuffix | NameItPlease/ViewController.swift:347-349 | the processed identifier is always a suffix of the raw one |
| Identifier.ExampleIdentifiers | NameItPlease/ViewController.swift:346-353 | "123 tabby cat" becomes "tabby cat"; "tabby" stays "tabby" |
| Ranking.Insert | NameItPlease/ViewController.swift:306 | inserting into a descending sequence keeps it descending and adds exactly that observation |
| Ranking.SortByConfidence | NameItPlease/ViewController.swift:306 | the sort's result is in descending confidence and is a permutation of the observations |
| Ranking.TopOfSorted | NameItPlease/ViewController.swift:306 | the first two of any descending permutation form a top two |
| Ranking.TopTwo | NameItPlease/ViewController.swift:306 | sort-then-`prefix(2)` keeps min(2, n) observations; the first is an observation no other exceeds; the second is another one that nothing except the first exceeds |
| Ranking.TopTwoConfidencesAgree | NameItPlease/ViewController.swift:306 | two top-two selections of the same observations agree on every confidence, so ties can change only which equally confident observation is shown |
| Ranking.TopTwoOrderIndependent | NameItPlease/ViewController.swift:306 | the kept confidences do not depend on the order in which inference returned the observations |
| Models.Name | NameItPlease/ViewController.swift:45-50 | `ModelEnum.rawValue`: a non-empty title, and "MobileNet" names exactly the MobileNet model |
| Models.NamesDistinct | NameItPlease/ViewController.swift:45-50 | two models have the same title exactly when they are the same model |
| Models.AllModelsListed | NameItPlease/ViewController.swift:45-50 | the four models are all the models there are |
| Presenter.DisplayIdentifier | NameItPlease/ViewController.swift:311-315 | the other three models display the raw identifier; MobileNet displays exactly `processMobileNetIdentifier` of it, a suffix of the raw one, equal to it without a space and strictly shorter with one (the same choice is made at lines 321-325) |
| Presenter.ShownAs | NameItPlease/ViewController.swift:316 | a formatted result carries the observation's own confidence and its displayed identifier: the raw one for the other three models, exactly `processMobileNetIdentifier` of it for MobileNet, in every case a suffix of the raw one (the same format is used at line 326) |
| Presenter.ResultTexts | NameItPlease/ViewController.swift:302-330 | top label is "?" exactly when there are no observations; second is "?" exactly when there are fewer than two; otherwise the labels show a top two of the observations |
| Presenter.OtherModelsShowRawObservations | NameItPlease/ViewController.swift:309-326 | for ResNet50, VGG16 and NASNetMobile each shown result is literally one of the observations, raw identifier included |
| Presenter.MobileNetShowsProcessedObservations | NameItPlease/ViewController.swift:309-326 | for MobileNet each shown result is an observation with its identifier post-processed |
| Presenter.ResultTextsOrderIndependent | NameItPlease/ViewController.swift:306-328 | reordering the observations changes neither which labels show "?" nor the shown confidences |
| Presenter.RankingExample | NameItPlease/ViewController.swift:302-330 | confidences 20, 90, 50 show the 90 on top and the 50 second |
| Controller.PredictRegion | NameItPlease/ViewController.swift:286-343 | unavailable image: region untouched; unwrappable model: region idle, labels kept; inference failure: bare name and "An error occurred" twice, idle; results: timed title, the result texts, idle |
| Controller.StartWaiting | NameItPlease/ViewController.swift:160-176 | all four regions hide their results and spin; no text changes |
| Controller.StopWaitingFor | NameItPlease/ViewController.swift:185-204 | region m shows its results and stops spinning; every other region and the toggle are unchanged |
| Controller.StopWaiting | NameItPlease/ViewController.swift:178-183 | all four regions go idle with their texts unchanged |
| Controller.ResetResultLabels | NameItPlease/ViewController.swift:206-222 | every region shows its model name, "Top prediction" and "Second best prediction"; busy flags are kept |
| Controller.StartScanning | NameItPlease/ViewController.swift:127-139 | the camera session runs; regions and toggle are unchanged |
| Controller.StopScanning | NameItPlease/ViewController.swift:141-146 | the camera session stops; regions and toggle are unchanged |
| Controller.ViewDidLoad | NameItPlease/ViewController.swift:60-69 | whatever the storyboard held, the screen starts not stopped, not scanning, all regions idle with placeholders |
| Controller.Tap | NameItPlease/ViewController.swift:226-282 | every tap flips `isStopped`; while stopped the camera resumes and all regions show placeholders; otherwise all regions go busy with texts kept |
| Controller.Predict | NameItPlease/ViewController.swift:286-343 | a prediction changes only its own model's region, as `PredictRegion` describes |
| Controller.CaptureCompleted | NameItPlease/ViewController.swift:234-277 | failure: camera running, all regions idle with texts kept; success: camera stopped and each region is its own model's prediction applied to it |
| Controller.StepKeepsCoherent | NameItPlease/ViewController.swift:160-204 | every handler keeps "results visible exactly when the spinner is not" in each region |
| Controller.RunFromCoherent | NameItPlease/ViewController.swift:160-204 | any sequence of events, in any order, keeps that exclusivity |
| Controller.RunKeepsCoherent | NameItPlease/ViewController.swift:60-69 | from the loaded screen, the exclusivity holds after every run of events |
| Controller.RunTogglesOnTaps | NameItPlease/ViewController.swift:281 | after a run, `isStopped` is its initial value flipped once per tap |
| Controller.ResumeForgetsHistory | NameItPlease/ViewController.swift:227-229 | a resume tap gives the same texts in every region, whatever the screen showed before |
| Controller.ResetIdempotent | NameItPlease/ViewController.swift:206-222 | resetting twice is resetting once |
| Controller.PredictionsCommute | NameItPlease/ViewController.swift:249-275 | predictions for two different models commute, so the fixed issue order ResNet50, VGG16, NASNetMobile, MobileNet is immaterial |
| Controller.PredictionOutcomes | NameItPlease/ViewController.swift:298-343 | an inference that ran or threw leaves its region idle with exactly one shape: two results, one result and "?", "?" twice, or the error text twice; an unwrappable model leaves the region idle with its previous texts, possibly an earlier photo's results under their timed title; an unavailable image leaves the region as it was |
| Controller.ResumeKeepsSpinners | NameItPlease/ViewController.swift:226-282 | two taps with no capture completing in between leave every region busy: the resume tap resets the labels but not the spinners |
| Controller.CaptureFailureThenTap | NameItPlease/ViewController.swift:238-245 | after a failed capture the toggle stays set while the camera runs, and the next tap resets the labels instead of capturing |

## Left out

- Capture session setup, the preview layer, orientation mapping and the notification observers: hardware and platform plumbing. `scanning` stands for the session running.
- The camera permission request: `Appeared` is the event for "access granted". A denial produces no event.
- Model loading, `VNCoreMLModel`, `VNImageRequestHandler.perform` and `CIImage` decoding: foreign calls. Their outcomes are the `Prediction` input.
- The `availableModels` lookup with `filter`/`first!`, and the `fatalError` paths: a failed downcast of the request's results and a failed camera input. These are program aborts, not screen states.
- Floating-point confidences, the `"%.3f%%"` and `" %.2fs"` formatting, and wall-clock timing: confidences are integers, and the formatted texts are `Shown` and `Timed`.
- Which of several equally confident observations is shown: the platform sort leaves this open. The model's insertion sort is one admissible choice, and every contract holds for any choice.
- `DispatchQueue.main.async`, console `print`s and the platform event loop. Events are applied one at a time in any order.
- `imageData`: the stored photo is not part of the state. Whether it was present and decodable is folded into `ImageUnavailable`.
- Swift `String` indexing by grapheme cluster: identifiers are sequences of `char`, and the search is for the single character `' '`.
- A tap while scanning when the still-image output has no video connection: no capture is requested, so no `CaptureDone` event follows. The regions stay busy, across the next (resume) tap too, until a later capture completes (`Controller.ResumeKeepsSpinners`).
