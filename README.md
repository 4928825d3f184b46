# Queue-occupancy counter of the smart-queue person detector

This project models the part of the person-detection script that is the
script's own logic rather than a call into the inference engine or the video
library:

- the queue tracker (`Queue` in `person_detect.py`): an ordered list of
  rectangular queue regions, appended to one at a time. For each frame it
  produces an occupancy tally. The tally maps every 1-based queue identifier
  to the number of detection boxes whose horizontal extent lies strictly
  inside that region's horizontal extent. Vertical coordinates are never
  consulted, and one box may count toward several queues;
- the "queue full" rule of the per-frame report: a queue is full when its
  count is at least `max_people`;
- the layer-support check run before a model is loaded: every layer of the
  network must be among the layers the device reports as supported.

`queues.dfy` (module `Queues`) holds the boxes, the regions, the specification
functions `CountIn` and `Tally`, the class `Queue` with the methods that update
and read it, and the lemmas about the tally. `layers.dfy` (module `Layers`)
holds the layer-support check. The class `Queue` keeps the source's mutable
list as a `seq<Region>` field. `CheckCoords` keeps the source's nested loops
and is proved equal to the specification function `Tally`. The lemmas state
what the tally means: what one box adds, the strict boundaries, how it agrees
with an index-set definition, that vertical coordinates do not matter, its
bounds, and how it changes when a queue is added.

## Model

| member | source | states |
|---|---|---|
| Queues.Queue.constructor | person_detect.py:33-34 | a new tracker has no queue regions |
| Queues.Queue.AddQueue | person_detect.py:37-38 | the region is appended at the end; earlier regions and their order are unchanged, nothing is validated or de-duplicated |
| Queues.Queue.CheckCoords | person_detect.py:48-54 | the returned tally equals `Tally(queues, coords)`: keys exactly 1..number of queues, each the count of boxes strictly inside that region horizontally; the queue list is not modified (no `modifies` clause) |
| Queues.InQueue | person_detect.py:52 | a box counting toward a region never sits on the region's left or right edge; a well-formed box (xmin <= xmax) only fits a region at least 2 pixels wide; y coordinates are not consulted |
| Queues.QueueFull | person_detect.py:211 | "queue full" is reported when the count is at least `max_people`; a limit of 0 or less makes every queue full, and with a positive limit a full queue is never empty |
| Queues.CountIn | person_detect.py:50-53 | a queue's count is never more than the number of boxes |
| Queues.Tally | person_detect.py:49-53 | the keys are exactly the identifiers 1..number of queues, and every count is at most the number of boxes |
| Queues.CountConcat | person_detect.py:50-53 | counting is additive over the frame's boxes: the count for a concatenated box list is the sum of the two counts |
| Queues.CountIsHitCount | person_detect.py:50-53 | a queue's count equals the size of the set of box positions whose box counts toward that queue |
| Queues.TallyAddBox | person_detect.py:51-53 | one more box raises queue k's count by one if its xmin is strictly greater than the region's x_min and its xmax strictly less than the region's x_max, and leaves it unchanged otherwise |
| Queues.BoundaryNotCounted | person_detect.py:52 | a box whose xmin equals the region's x_min, or whose xmax equals its x_max, does not change the region's count |
| Queues.OverlapCountsTwice | person_detect.py:50-53 | a box strictly inside two regions' horizontal extents raises both counts |
| Queues.TallyNoQueues | person_detect.py:49 | with no queues configured the tally is the empty map |
| Queues.CountIgnoresVertical | person_detect.py:52 | boxes and a region that agree on their x coordinates give the same count whatever their y coordinates |
| Queues.TallyIgnoresVertical | person_detect.py:49-53 | the whole tally depends only on the x coordinates of the boxes and regions |
| Queues.TallyAfterAddQueue | person_detect.py:37-38 | after a region is added, earlier queues keep their identifiers and counts, and the new one gets identifier n + 1 |
| Queues.SumCountsBound | person_detect.py:49-53 | n counts each at most c sum to at most n * c |
| Queues.TallyTotalBound | person_detect.py:49-53 | the counts over all queues sum to at most (number of queues) * (number of boxes) |
| Queues.FullStaysFull | person_detect.py:209-211 | a queue whose count is at least `max_people` is still full when more boxes are detected in the frame |
| Queues.ThreeQueueScenario | person_detect.py:33-54 | three regions and two boxes, one strictly inside region 1 and one straddling its right edge, give the tally {1: 1, 2: 0, 3: 0} |
| Layers.Unsupported | person_detect.py:19-22 | the reported layers are exactly the network's layers that are not in the supported set, and there are no more of them than layers |
| Layers.LayerSupportChecker | person_detect.py:11-25 | the result is true exactly when every layer is in the supported set (so true for no layers); the reported layers are the unsupported ones, in order, with the walk going on past the first unsupported layer |

## Left out

- The device query `core.query_nework(net, dev)` (person_detect.py:17) and `net.layers.keys()` (line 16) are inputs: the supported set and the sequence of layer names.
- Layers.LayerSupportChecker: describes the function with the query result supplied as an input. The source spells the query `query_nework` (person_detect.py:17), while the engine object `IECore()` (line 73) provides `query_network`. As written, line 17 therefore raises `AttributeError` before the loop runs. The error propagates through `load_model` (line 97) and `main` (line 162), which has no handler there, so the run ends before any frame. The model does not capture this failure.
- The console messages of `layer_support_checker` are modelled only as the sequence of layers they name (`reported`). Their text and the success message are left out because they are output only.
- `Queue.get_queues` (person_detect.py:41-45) is left out because it only slices numpy image arrays.
- `PersonDetect` (model loading, inference, `preprocess_input`, `preprocess_outputs`, `draw_outputs`) is left out. It is made of calls into OpenVINO and OpenCV, plus floating-point thresholding and scaling of an opaque tensor.
- `main` and the argument parsing are left out. They do video I/O, `np.load` of the queue parameters, wall-clock timing, the stats file, exception logging and text drawing. Only the queue-full comparison at line 211 is modelled, as `QueueFull`; the `int(max_people)` conversion, which fails on a non-numeric argument, is left out.
- The colour constants of `PersonDetect` are left out because they are fixed drawing configuration.
- Boxes and regions are modelled as records of four unbounded integers. The source accepts any indexable value, and a malformed one raises an exception there; that path is not modelled.
