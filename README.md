# Accuracy and precision monitor for a 3D RTLS tag — Dafny model

`accuracy_precision_loc.py` watches the positions an RTLS tag reports over
MQTT and compares them with a known reference point. This project models its
sequential core:

- the sample buffer `points`, a 3 x N array of x, y and z series that grows by
  one column per accepted message and is emptied by `clear_histograms`
  (module `Samples` for the value, module `Buffer` for the class that holds it);
- the message callback `on_mqtt_message`: the tag id is the topic's suffix
  after the first `bsp_`, the payload is split on `,`, its first three fields
  are converted with `float`, and the sample is kept only for the reference
  tag (modules `Text` and `Messages`);
- the mode-bin loop of `update_histogram`, which highlights every bin of
  maximum count and reports the last of them with the accuracy
  `|centre - reference|` (module `Histogram`);
- the accuracy-to-hue mapping of `get_accuracy_color` (module `AccuracyColor`);
- the argument checks of `main` (module `CommandLine`).

Coordinates are `real`. Python's `float(text)` is a parameter of type
`string -> Option<real>` (an abstract partial parser), so every statement
holds whichever strings it accepts. The bin counts and edges produced by
`graph.hist` are inputs. A bar's width is taken to be its bin's width,
`edges[i+1] - edges[i]`, which is what the histogram draws for one data set.

Exceptions of the callback are outcomes of `Messages.Deliver`: `NoMarker`
(`topic.index('bsp_')` raises ValueError), `MissingField(i)` (`data[i]`
raises IndexError) and `NotANumber(i)` (`float(data[i])` raises
ValueError). The conversions run left to right, so the outcome names the first
field that is missing or not a number. A message for another tag is never
parsed, so a malformed payload on another tag's topic raises nothing.

The source's tie-break among bins of equal maximum count is kept as written:
each such bin overwrites the reported interval and accuracy, so the LAST one
is reported.

## Model

| member | source | states |
|---|---|---|
| `Text.Split` | accuracy_precision_loc.py:78 | `payload.split(',')` gives at least one field, no field holds a comma, and a comma-free string is its own single field |
| `Text.JoinSplit` | accuracy_precision_loc.py:78 | joining the fields of a split with commas gives back the payload: the split loses nothing |
| `Text.SplitJoin` | accuracy_precision_loc.py:78 | splitting the comma-join of comma-free fields gives back exactly those fields |
| `Text.IndexOf` | accuracy_precision_loc.py:79 | `str.index`: the result is a position where the pattern occurs and no earlier position has it; None (ValueError) exactly when it occurs nowhere |
| `Messages.TagIdOf` | accuracy_precision_loc.py:79 | the tag id is the text after the first `bsp_` of the topic; there is none exactly when the topic has no `bsp_` |
| `Messages.TagIdOfTopic` | accuracy_precision_loc.py:73-79 | for a topic made of a `bsp_`-free prefix, `bsp_` and an id, the tag id is that id |
| `Messages.ParseCoordinates` | accuracy_precision_loc.py:82 | a sample is produced iff there are at least three fields and the first three convert, and then its coordinates are those three values; otherwise the outcome names the first missing or non-numeric field, all fields before it converting |
| `Messages.Deliver` | accuracy_precision_loc.py:76-82 | a topic without `bsp_` raises, a different tag id is ignored (the outcome carries that id), and only the reference tag's messages are parsed; the first field is never missing |
| `Messages.DeliverWellFormed` | accuracy_precision_loc.py:73-82 | a message `…bsp_<tagRef>` with payload `x,y,z` of convertible fields records exactly the sample (x, y, z) |
| `Messages.Apply` | accuracy_precision_loc.py:80-82 | only a recorded sample changes `points`, by one appended column; every other outcome, the raising ones included, leaves it unchanged |
| `Messages.Ingest` | accuracy_precision_loc.py:76-86 | the callback applied to each message in turn, going on after a message that raises (see "## Left out"); it keeps the series aligned and adds at most one sample per message |
| `Messages.IngestRecords` | accuracy_precision_loc.py:76-82 | running the callback over a stream of messages keeps the three series aligned and adds, after the samples already held, exactly the recorded messages' samples in arrival order |
| `Messages.IngestAllRecorded` | accuracy_precision_loc.py:76-82 | when every message is recorded, N messages add N samples |
| `Samples.Empty` | accuracy_precision_loc.py:53 | the initial `points` is aligned and holds no samples |
| `Samples.Appended` | accuracy_precision_loc.py:82 | `np.append(..., axis=1)` grows each series by one, keeps what each held before and puts x, y and z last in their series; alignment is preserved |
| `Samples.Columns` | accuracy_precision_loc.py:53 | the samples of an aligned array, one per column, in order |
| `Samples.FromColumnsOfColumns` | accuracy_precision_loc.py:53 | reading the columns of an aligned array and rebuilding it gives the same array |
| `Samples.ColumnsOfFromColumns` | accuracy_precision_loc.py:53 | building an array from samples and reading its columns gives those samples |
| `Samples.ColumnsOfAppended` | accuracy_precision_loc.py:82 | a sample is never partially recorded: the column view after an append is the old one followed by that sample |
| `Samples.AxesDrawn` | accuracy_precision_loc.py:231-236 | the redraw loop's three guards as written, the z guard testing `len(points[1])`; for aligned series they equal the guards on each axis's own series, and all three axes are drawn exactly when a sample is held |
| `Buffer.SampleBuffer.Size` | accuracy_precision_loc.py:231 | `len(points[0])` is the number of samples held |
| `Buffer.SampleBuffer.constructor` | accuracy_precision_loc.py:53 | the buffer starts aligned and empty |
| `Buffer.SampleBuffer.Append` | accuracy_precision_loc.py:81-82 | keeps the three series aligned and adds exactly one column, the given sample, after the old ones |
| `Buffer.SampleBuffer.Clear` | accuracy_precision_loc.py:202-205 | leaves the three series empty whatever they held; the new state does not depend on the old one, so clearing twice equals clearing once |
| `Buffer.SampleBuffer.OnMessage` | accuracy_precision_loc.py:76-82 | the callback's outcome is Deliver's; a recorded sample is appended, and every other outcome, in particular every one that raises, leaves `points` unchanged |
| `Histogram.Abs` | accuracy_precision_loc.py:183 | `abs` is nonnegative and is the value or its negation |
| `Histogram.MaxCount` | accuracy_precision_loc.py:179 | `max(n)` is one of the counts and no count exceeds it |
| `Histogram.LastModeUnique` | accuracy_precision_loc.py:178-183 | there is only one last bin of maximum count, so the reported bin is determined by the counts |
| `Histogram.SelectModeBin` | accuracy_precision_loc.py:177-185 | every bin of maximum count is highlighted and no other; the reported bin is the last of them; its interval is `[edges[k], edges[k+1]]` and its accuracy is the distance from that bin's centre to the reference; nothing is reported when there are no bins |
| `Histogram.BinCentres` | accuracy_precision_loc.py:174 | `bincenters` has one entry per bin, and each lies inside its bin when the edges increase |
| `Histogram.ModeCentreIsBinCentre` | accuracy_precision_loc.py:174-183 | the centre `bin + width/2` in the accuracy reported by SelectModeBin is that bin's entry of `bincenters`, inside the bin when its edges increase |
| `Histogram.AccuracyWithinHalfWidth` | accuracy_precision_loc.py:174-183 | when the reference lies inside bin k, the distance from that bin's centre to it is at most half the bin width |
| `AccuracyColor.Hue` | accuracy_precision_loc.py:188-197 | hue 0 above 0.6, otherwise `120·(1 − accuracy/0.6)`; within [0, 120] for a nonnegative accuracy; 0 exactly from 0.6 on and 120 exactly at 0 |
| `AccuracyColor.HueNonIncreasing` | accuracy_precision_loc.py:194-197 | a worse accuracy never gives a greener hue |
| `AccuracyColor.HueContinuousAtMaxVal` | accuracy_precision_loc.py:190-197 | for a ≤ b, 0 ≤ hue(a) − hue(b) ≤ (120/0.6)·(b − a): the hue is Lipschitz over all reals, so the two branches join continuously at 0.6 |
| `AccuracyColor.HueHalfway` | accuracy_precision_loc.py:190-197 | example: hue(0.3) = 60, halfway between green and red |
| `AccuracyColor.HueFraction` | accuracy_precision_loc.py:198 | the fraction `hue/360` handed to the colour conversion lies in [0, 1/3] for a nonnegative accuracy |
| `CommandLine.Main` | accuracy_precision_loc.py:214-246 | a count other than four raises ValueError with the usage message; four arguments with a non-numeric coordinate return 2; otherwise set-up proceeds with tag `argv[0]` and the three converted coordinates as reference point |
| `CommandLine.BadArgumentsNeverConnect` | accuracy_precision_loc.py:214-220 | neither argument error reaches the connection set-up |

## Left out

- Network I/O and threads: the MQTT client, its connect callback and `loop_forever`, the reader thread and `points_mutex`. The lock makes append and clear atomic, so they are sequential methods here; no interleaving is modelled.
- Messages.Ingest: goes on to the next message after one that raises. The MQTT library (paho-mqtt) does not swallow an exception from `on_message` by default, so in the program the exception leaves `client.loop_forever`, the daemon reader thread ends and no further sample is ingested after the first message that raises (a topic without `bsp_`, or a malformed payload for the reference tag). That library is not part of this model, so `Messages.Ingest` and `Messages.IngestRecords` describe the callback applied to every message, which matches the program only up to the first raising message.
- The UTF-8 decoding of the payload: messages carry text, so a payload that fails to decode is not modelled.
- `listen_udp`: dead code, since the transport is fixed to MQTT; it also reads an undefined `bufferSize` and records the tag id as x.
- The histogram binning of `graph.hist` and the resolution `np.std`: library numerics over floats; counts and edges are inputs of `Histogram.SelectModeBin`.
- `colorsys.hls_to_rgb`: a library colour conversion; only the hue is modelled.
- Rendering and UI: figure set-up, titles and labels, the redraw loop's drawing and timing (its guards are `Samples.AxesDrawn`), the 'c' key binding that calls `clear_histograms`.
- `on_new_point`: a random-sample simulator that is never started.
- Floating-point rounding: coordinates, widths and accuracies are real numbers; NaN and infinities are not representable.
- `CommandLine.Main`: the exit status of the process after the uncaught ValueError, and the status after the window is closed, are decided by the interpreter and the UI loop, not modelled. It also leaves out the default argument list (`argv=None` becomes `sys.argv[1:]`): the caller passes the arguments. The message written to the error stream, and the exception details printed, by the `except` branch before `return 2` are output only and not modelled.
- `Histogram.SelectModeBin`: a bar's width is taken as its bin's width; `n` holds integer counts.
