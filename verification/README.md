# Frame pipeline control logic of the face-detection desktop app

This project models, in Dafny, the control logic of the application's
real-time pipeline: the `VideoThread` worker that reads camera frames,
runs detection when asked, keeps a timed benchmark session and hands each
processed frame to the GUI through a one-slot queue, and the decision logic
of the detectors around their opaque OpenCV calls (CPU/GPU mode
negotiation, the padded face crop and the gender gate, gender label
selection, and the parsing of YOLO output rows into labelled boxes).

Layout, one module per component:

- `wrappers.dfy` — `Option`, used where the code lets an exception escape.
- `numeric.dfy` — Python's `int()` on floats (truncation toward zero), numpy's
  `argmax` (first maximum) and Python slice lengths.
- `image.dfy` — frames (only their shape matters) and rectangles.
- `channel.dfy` — the `queue.Queue(maxsize)` between the worker and the GUI, as a
  class, plus the drop-if-full publish policy and replays of publish/take
  interleavings.
- `gender.dfy` — `GenderDetector`: enablement and `predict_gender`.
- `objects.dfy` — `ObjectDetector`: threshold filtering, centre-to-corner box
  conversion, the parallel `boxes`/`confidences`/`class_ids` lists, and the result
  assembly over the NMS selection.
- `faces.dfy` — `FaceDetector`: `check_cuda`, `set_mode`, the face crop clamp,
  the gender gate, the `faces_data` loop and the per-frame report.
- `benchmark.dfy` — `get_benchmark_results` as averages over the samples.
- `video_thread.dfy` — `VideoThread`: one loop iteration as the pure `Iterate`
  and as the state-changing `Step`, runs of iterations, and the controls.

Camera reads, clock readings, detector answers, network outputs and the NMS
selection are parameters. Latencies, times and rates are exact `real`s.

Behaviour of the code worth noting, which the model keeps:

- A benchmark session closes only when the elapsed time is strictly greater
  than the duration (threading_manager.py:53). It stays open at exactly the
  duration.
- The queue publish is drop-newest. When the slot is taken, the new item is
  discarded and the unread older item stays (threading_manager.py:66-67).
- `get_benchmark_results` also returns `(0, 0)` for a non-empty session whose
  latencies sum to 0. So `(0, 0)` does not mean "no samples".
- `check_cuda` leaves `gpu_available` unchanged when the device count is 0 or
  less (detection.py:149). It is false after construction only because the
  constructor sets it first.
- Exceptions raised inside `detect` are not caught anywhere on the worker's
  path. In the code they end the thread; they do not degrade to an empty result.

## Model

| member | source | states |
|---|---|---|
| Numeric.Trunc | detection.py:101-108 | `int()` on a float truncates toward zero: the result is within 1 of the value and never farther from 0 |
| Numeric.ArgMax | detection.py:96-98 | the index of a maximum score, and the first such index |
| Numeric.TruncUnique | detection.py:101-108 | at most one integer is the truncation of a value, so the truncation property pins `int()` |
| Numeric.SliceLen | detection.py:209 | a slice of an axis never selects more than the axis holds; in-range bounds give `stop - start`, reversed ones nothing; a negative stop counts from the end (`n + stop`), and one below `-n` selects nothing |
| Channel.Offer | threading_manager.py:66-67 | publishing into a full queue leaves it unchanged (drop-newest); otherwise the item goes to the back; the size bound is preserved |
| Channel.ReplayWithinCapacity | main.py:24 | under any interleaving of publishes and takes, a bounded queue never holds more than its capacity |
| Channel.ReplayOnlyPublished | threading_manager.py:66-67 | every queued item was there initially or was published |
| Channel.SingleSlotDropsNewest | threading_manager.py:66-67 | with capacity 1, a second publish without a take is dropped and the first item remains; after a take the next publish lands |
| Channel.FrameQueue.constructor | main.py:24 | a new queue is empty with the given maxsize |
| Channel.FrameQueue.IsFull | threading_manager.py:66 | `full()` holds exactly for a bounded queue at capacity |
| Channel.FrameQueue.IsEmpty | gui_cv2.py:39 | `empty()` holds exactly when nothing is queued |
| Channel.FrameQueue.Put | threading_manager.py:67 | `put` on a queue with room appends at the back and keeps the size bound |
| Channel.FrameQueue.GetNowait | gui_cv2.py:40 | `get_nowait` returns and removes the oldest item, or reports empty and changes nothing |
| Gender.NewGenderDetector | detection.py:8-19 | gender detection is enabled, with a network, exactly when the feature flag is on and the model files exist |
| Gender.PredictGender | detection.py:21-35 | the label is always Male, Female, Unknown or Error; Unknown exactly when disabled or without a network; Error when the forward pass raises; Error for an empty `preds` or an empty first row; otherwise `GENDER_LIST[argmax(preds[0])]`, or Error when the argmax is past the list |
| Gender.TwoClassChoice | detection.py:29-30 | with a working two-class network the higher score wins, and a tie goes to Male |
| Objects.NewObjectDetector | detection.py:38-74 | object detection is enabled, with a network and the class names, exactly when the flag is on and the files exist |
| Objects.BoxOf | detection.py:101-108 | a row's box has width and height `int(fraction * size)`, and its corner is `int(centre - size/2)` for the truncated scaled centre, all truncated toward zero |
| Objects.Corner | detection.py:107-108 | the box corner is `centre - size/2` truncated toward zero |
| Objects.CornerExamples | detection.py:107-108 | a corner at -2.5 becomes -2 (not the floor -3) and one at 7.5 becomes 7 |
| Objects.Decode | detection.py:96-110 | a row's class is the first highest score among `detection[5:]` and its confidence is that score |
| Objects.Kept | detection.py:95-112 | one layer yields at most one candidate per row, each with confidence strictly above 0.3 |
| Objects.CandidatesOf | detection.py:94-112 | every candidate of the nested output has confidence strictly above 0.3 |
| Objects.KeptAppend | detection.py:95-112 | rows are judged independently: filtering distributes over concatenation |
| Objects.CandidatesAreKeptRows | detection.py:94-112 | the candidates are exactly the passing rows of the flattened output, in order |
| Objects.KeptAll | detection.py:99-112 | when every row passes, every row becomes a candidate, in order |
| Objects.KeptNone | detection.py:99 | when no row passes, there are no candidates |
| Objects.ParseLayer | detection.py:95-112 | the inner loop appends exactly the layer's candidates to the three lists, keeping them parallel |
| Objects.ParseOutputs | detection.py:89-112 | `boxes`, `confidences` and `class_ids` have equal length and are the boxes, scores and classes of the candidates, in order |
| Objects.Assembled | detection.py:117-123 | one labelled detection per selected index, in selection order, taken from the parallel lists; it fails exactly when some index or class id is out of range |
| Objects.AssembleResults | detection.py:117-123 | the results loop computes exactly that assembly |
| Objects.ObjectResults | detection.py:76-125 | nothing when disabled or without a network; otherwise it succeeds exactly when every index the NMS selection returns names a candidate with a known class |
| Objects.ResultsLabelSelected | detection.py:115-123 | with the detector enabled, result k is `(classes[class_id], confidence, box)` of the k-th selected candidate, and every result scores above 0.3 |
| Objects.Detect | detection.py:76-125 | nothing when disabled or without a network; otherwise the NMS selection of the parsed candidates, all with confidence above 0.3 |
| Faces.PaddedCrop | detection.py:203-207 | the crop stays inside the frame (`0 <= x1`, `x2 <= width`, same for y); each bound is the face padded by exactly 10 where there is room and the frame edge (0, width or height) where there is not; it covers the face where the face is inside the frame |
| Faces.CropSize | detection.py:209-211 | `face_img.size` is positive exactly when the crop has rows, columns and channels |
| Faces.GenderGate | detection.py:211 | the gate opens exactly for a face wider and taller than 20 whose padded crop is non-empty on both axes in a frame with channels |
| Faces.GateNeedsSize | detection.py:209-211 | the gate only opens for faces wider and taller than 20 whose crop is non-empty on both axes |
| Faces.GateOpensInsideFrame | detection.py:209-211 | a face larger than 20 by 20 whose corner lies inside the frame always passes the gate |
| Faces.FaceEntryOf | detection.py:201-215 | an entry keeps the unpadded rectangle; a face through the gate gets `predict_gender` of its padded crop, any other Unknown; so the gender is not Unknown exactly when the gate passes and the classifier is usable |
| Faces.LabelFaces | detection.py:200-215 | `faces_data` has one entry per face rectangle, in the same order |
| Faces.FaceDetector.constructor | detection.py:128-144 | a new detector is in CPU mode; the GPU is available exactly when a device exists and the CUDA cascade builds |
| Faces.FaceDetector.CheckCuda | detection.py:146-156 | availability becomes true only with a device count above 0 and a CUDA cascade; with no CUDA module it becomes false; with no device it is unchanged |
| Faces.FaceDetector.SetMode | detection.py:158-165 | GPU mode is engaged and returned exactly when requested, available and backed by a cascade; never when unavailable; `set_mode(false)` always gives CPU |
| Faces.FaceDetector.Detect | detection.py:167-226 | the report holds the labelled faces and the object results; latency is the elapsed time in milliseconds; object-detector failures propagate |
| Benchmark.Averages | threading_manager.py:86-91 | `(0, 0)` without samples; otherwise mean latency times count is the sum, and fps times mean latency is 1000 when the mean is positive, 0 otherwise; `(0, 0)` exactly when empty or summing to 0 |
| Benchmark.MeanWithinSamples | threading_manager.py:89 | the mean latency lies within any lower and upper bound of the samples |
| Benchmark.RateWithinSamples | threading_manager.py:89-90 | for positive sample bounds, the reported rate lies between `1000/hi` and `1000/lo` |
| Benchmark.PositiveSamplesReport | threading_manager.py:87-91 | positive latencies always give a positive mean latency and rate |
| Benchmark.ThreeSampleExample | threading_manager.py:89-91 | samples 10, 20, 30 give `(50, 20)` |
| Pipeline.Fps | threading_manager.py:61-63 | fps is 0 before the first processed frame, and otherwise the reciprocal of the frame interval |
| Pipeline.Iterate | threading_manager.py:27-67 | a failed read changes nothing; the detector runs exactly when detection or a benchmark is active, else the result is empty with latency 0; an active session gains exactly that frame's latency; the session closes only when elapsed strictly exceeds duration; the published flag is the post-check one; `prev_frame_time` becomes the frame's time |
| Pipeline.BenchmarkStarted | threading_manager.py:80-84 | starting a benchmark activates a fresh session with the given duration and start time and no earlier samples, whatever ran before |
| Pipeline.Run | threading_manager.py:27-67 | over any run the loop never starts a session, never changes the controls, and only appends samples, at most one per frame |
| Pipeline.WindowCollects | threading_manager.py:51-54 | while frames arrive within the window, the session stays active and gains exactly one sample per frame, in order |
| Pipeline.WindowCloses | threading_manager.py:51-54 | the first frame past the window closes the session and its own sample is kept |
| Pipeline.AutoCloseExample | threading_manager.py:51-54 | a 1-second session with a frame every 100 ms is still active after 10 frames and closes on the 11th, with 11 samples |
| Pipeline.RestartDiscardsSamples | threading_manager.py:80-91 | after a restart and one frame, the results reflect that frame alone |
| Pipeline.VideoThread.constructor | threading_manager.py:8-17 | a new thread is running, with detection and benchmark off and no samples |
| Pipeline.VideoThread.Step | threading_manager.py:27-67 | one iteration moves the fields as `Iterate` says and publishes its item only when the queue is not full |
| Pipeline.VideoThread.StartDetection | threading_manager.py:74-75 | sets `detection_active` and nothing else |
| Pipeline.VideoThread.StopDetection | threading_manager.py:77-78 | clears `detection_active` and nothing else |
| Pipeline.VideoThread.StartBenchmark | threading_manager.py:80-84 | resets the session as `BenchmarkStarted` says |
| Pipeline.VideoThread.GetBenchmarkResults | threading_manager.py:86-91 | `(0, 0)` without samples; mean latency times count is the sum; fps times mean latency is 1000 when the mean is positive, and fps is 0 otherwise |
| Pipeline.VideoThread.Stop | threading_manager.py:93-94 | clears `running` and nothing else |

## Left out

- Camera I/O (`cv2.VideoCapture`, its settings, `read`, `release`) is not modelled. A read is a success flag and an opaque frame passed to `Step`.
- Threads are not modelled: thread start, the `join` in `stop`, the visibility of flags across threads, and the queue's locking. The endless `while self.running` loop is modelled as a sequence of `Step` calls (`Run`), not as a method.
- Clock reads are parameters. Each iteration gets one reading, used both by the benchmark check (threading_manager.py:53) and by the FPS computation (line 61); the code reads the clock twice.
- Pipeline.VideoThread.Step and Pipeline.Iterate: require that a processed frame's clock reading differs from the previous one. The code would raise `ZeroDivisionError` at threading_manager.py:62 in that case.
- Pipeline.Run: requires readings that increase strictly from frame to frame, which is stronger than what one iteration needs.
- `start_benchmark`'s default duration of 10 seconds (threading_manager.py:80) is not modelled: `StartBenchmark` always takes the duration explicitly.
- Floating point is not modelled: latencies, times, rates and scores are exact reals, and the 0.3 threshold is compared exactly.
- DNN and cascade inference are not modelled: `readNet`, `blobFromImage`, `forward`, `detectMultiScale`, and the CUDA `GpuMat` path with its fallback to the CPU cascade (detection.py:179-197). The face rectangles, the gender network's answer and the YOLO output rows are inputs. `NMSBoxes` is a given function from boxes and scores to indices.
- Exceptions inside `detect` are not modelled on the worker's side. `Step` takes a successful report. In `Objects.Detect` and `Faces.FaceDetector.Detect`, the `IndexError` of the results loop is modelled as `None`, but the thread ending because of it is not.
- Objects.Detect: requires every YOLO output row to have more than 5 columns. Shorter rows would make numpy raise in the parsing loop.
- Channel.FrameQueue.Put: requires room in the queue. Python's blocking `put` on a full queue is not modelled, because the only producer checks `full()` first.
- Loading model files and the class-names file from disk (detection.py:12-19, 48-74) is not modelled; only the resulting enabled/loaded flags are.
- The `cpu_cascade.empty()` check (detection.py:134-135) is not modelled; it only prints a message.
- `print` messages are not modelled.
- The GUI front-ends (gui.py, gui_cv2.py), the database wrapper (db.py), asset download and packaging (setup_data.py, build_app.py) and the debug scripts are not part of this model.
- config.py is not part of this model. Its `GENDER_LIST` (config.py:41) is inlined as `Gender.GenderList`, and its two feature flags become the parameters of `NewGenderDetector` and `NewObjectDetector`. The padding of 10, the 20-pixel gate and the 0.3 threshold are literals in detection.py (lines 203, 211 and 99). main.py contributes only the queue capacity of 1.
