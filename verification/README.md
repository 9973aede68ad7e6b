# Sweeping-lines core in Dafny

This project models the two pieces of logic behind the LightningChart "sweeping
line" real-world example.

- **The multi-channel sample codec** (module `Codec`, `codec.dfy`). The producer's
  `encodeMultiChannelArrXY` packs n channels of (x[], y[]) into one flat buffer
  laid out as `[n, count_0 .. count_{n-1}, x_0.., y_0.., x_1.., y_1.., ...]`. The
  consumer's `decodeMultiChannelArrXY` walks that buffer back into per-channel
  slices.
  - The encoder is a method over an `array<int>`. It is allocated up front and
    filled in place: header slots in a loop, then data blocks through `SetAt`
    (the model of `TypedArray.set`) while a cursor advances.
  - The decoder is a method with a running cursor.
  - Both are proved against the specification functions `Frame` and `Decoded`.
    The layout lemmas and the round trip are proved about those functions.
- **The sweeping-window update** (module `Sweep`, `sweep.dfy`).
  - The consumer's `handleIncomingData` folds every channel's timestamps onto
    `[0, 10000)` with `%`.
  - It counts false-to-true edges of `x < prevPosX` and then takes one of three
    branches: discard, split-and-swap, or append.
  - It replaces the one-point highlight of each channel.
  - Finally it moves the shared head position `prevPosX` to the largest last
    folded timestamp.
  - A channel is a class `ChannelView` holding references to `Series` objects.
    A completed sweep exchanges the `seriesLeft` and `seriesRight` references.
  - The whole consumer state is the class `Sweeper`. It holds the channels and
    the shared `prevPosX`.
  - Each method is proved against the pure step function `ChannelStep` and the
    fold `HeadPosition`. The per-branch properties are lemmas about those.

Float32 buffer elements and timestamps are modelled as exact integers. Timestamps
are non-negative, so JavaScript's `%` and Dafny's `%` agree.

Behaviour of the code that is easy to miss, and that the model keeps:

- `prevPosX` is one variable shared by all channels (frontend/index.js:113, 202).
- The new head position is the largest *last* folded timestamp over the
  channels, or 0 when there is none (frontend/index.js:119, 134).
- On one sweep the code cuts at the first folded value `<= prevPosX` and keeps
  `slice(0, i)` and `slice(i + 1)`, so the sample at the cut is drawn in neither
  series (frontend/index.js:157-164). `Sweep.SingleWrapExample` shows it for
  head 9000 and batch `[9500, 9800, 200, 600]`: the sample at 200 is dropped.
- Edges are counted with `x < prevPosX`, but the cut uses `x <= prevPosX`
  (frontend/index.js:140, 159). When a batch starts exactly at the head, the cut
  lands on index 0. The finished sweep then gains nothing, and the new left
  series starts with the pre-wrap samples, out of order. `Sweep.HeadTieExample`
  shows it for head 5000 and batch `[5000, 6000, 100]`: the left series becomes
  6000 followed by 100.
- The decoder has no bounds check, so `Codec.Decode` requires `Codec.WellFormed`
  (frontend/index.js:225-242).

## Model

| member | source | states |
|---|---|---|
| Codec.SampleCounts | backend/index.js:57 | One count per channel, each equal to the length of that channel's x-array. |
| Codec.Offset | backend/index.js:73 | Every data block starts after the `1 + n` header slots. |
| Codec.PayloadLength | backend/index.js:58-68 | For paired channels the data block holds exactly `2 * sum of counts` elements. |
| Codec.FrameHeader | backend/index.js:56-72 | The frame is `1 + n + 2 * sum of counts` long. Element 0 is n. Element `1 + i` is channel i's x-array length. |
| Codec.FrameChannelAt | backend/index.js:73-79 | Channel i's x-values sit at `1 + n + 2 * (counts before i)`. Its y-values follow them with the same length. The next channel starts right after them. |
| Codec.EmptyChannelNoShift | backend/index.js:74-79 | A channel without samples adds nothing to the data block, and the next channel starts where it would have. |
| Codec.SetAt | backend/index.js:75 | `msg.set(src, offset)`: the slots from offset hold src and every other slot is unchanged. |
| Codec.WriteHeader | backend/index.js:69-72 | After the header loop, the first `1 + n` slots are the channel count and the sample counts, and every later slot is unchanged. |
| Codec.WriteChannel | backend/index.js:74-79 | One step of the encoder's walk. The cursor moves by `2 * count` and stays within the buffer. The written prefix is the header plus the data of the channels so far, and every slot past the new cursor is unchanged. |
| Codec.Encode | backend/index.js:55-81 | The buffer is newly allocated, has length `1 + n + 2 * sum of counts` and holds exactly the frame. The cursor ends at the buffer's end, so every slot is written once. Requires each channel's y-array to be as long as its x-array. |
| Codec.ChannelAt | frontend/index.js:235-237 | Both slices cut at a cursor have the declared count of elements. |
| Codec.Walk | frontend/index.js:233-240 | The cursor walk yields one record per count. |
| Codec.WalkAt | frontend/index.js:233-240 | Record k of a walk consists of the two slices of `counts[k]` elements at `cursor + 2 * (counts before k)`. |
| Codec.DecodedShape | frontend/index.js:227-240 | A well-formed buffer decodes to `dataFlat[0]` records. Record ch has `dataFlat[1 + ch]` x- and y-values, sliced consecutively after the header. |
| Codec.Decode | frontend/index.js:225-242 | The cursor loop computes exactly `Decoded(dataFlat)`, for every buffer whose declared counts fit. |
| Codec.RoundTrip | frontend/index.js:225-242 | The frame of any paired batch is well formed and decodes to that batch, including channels without samples. |
| Codec.RoundTripAt | frontend/index.js:233-239 | Channel by channel: record ch of the decoded frame is channel ch of the batch. |
| Codec.EncodeDecode | backend/index.js:55-81 | Decoding what `Encode` wrote gives back the batch. |
| Codec.OneChannelExample | backend/index.js:55-81 | One channel of three samples encodes to `[1, 3, 0, 1, 2, 5, 6, 7]`. |
| Codec.EmptyChannelExample | backend/index.js:50 | `[[ [],[] ], [ [1],[9] ]]` encodes to `[2, 0, 1, 1, 9]`, and that buffer decodes back to both channels. |
| Sweep.Normalized | frontend/index.js:129-132 | Folded timestamps keep the batch's length and lie in `[0, xViewMs)`. |
| Sweep.NormalizeTimestamps | frontend/index.js:129-132 | The folding loop computes `Normalized`. |
| Sweep.CountFullSweeps | frontend/index.js:137-145 | The loop with a running `signPrev`, starting from false, counts exactly the false-to-true edges of `x < prevPosX` (`FullSweeps`). |
| Sweep.NoSweepIff | frontend/index.js:137-145 | No sweep is counted if and only if no folded value is below `prevPosX`. |
| Sweep.SplitIndex | frontend/index.js:157-164 | The split index is the first index whose value is `<= prevPosX`, or the length when there is none. |
| Sweep.FindSplit | frontend/index.js:157-164 | The scan with `break` returns `SplitIndex`. |
| Sweep.SweepHasSplit | frontend/index.js:153-164 | When a sweep was counted, the split index lies inside the batch. |
| Sweep.StepDiscard | frontend/index.js:147-152 | More than one sweep: both series are emptied and the draw orders are untouched. |
| Sweep.StepAppend | frontend/index.js:178-181 | No sweep: every folded value is at least `prevPosX`. The left series gains the whole folded batch in order, and the right series is unchanged. |
| Sweep.StepSplit | frontend/index.js:153-177 | One sweep: the split index i exists. The old left series plus the samples before i becomes the right series. The new left series holds only the samples after i. The draw orders become 0, 1, 2. |
| Sweep.SingleWrapExample | frontend/index.js:153-177 | With the head at 9000, `[9500, 9800, 200, 600]` appends `[9500, 9800]` to the finished sweep and starts the new one with `[600]` only. |
| Sweep.HeadTieExample | frontend/index.js:137-164 | With the head at 5000, `[5000, 6000, 100]` counts one sweep but cuts at index 0: the finished sweep gains nothing and the new left series holds 6000 before 100. |
| Sweep.StepHighlight | frontend/index.js:184-187 | After every batch the highlight is exactly the last folded point. |
| Sweep.StepInWindow | frontend/index.js:129-187 | The update keeps every drawn point on the sweeping axis `[0, xViewMs)`. |
| Sweep.StepPointCount | frontend/index.js:147-181 | Points held afterwards: old plus the batch with no sweep; old left plus the batch minus the dropped sample with one sweep; none past more than one sweep. |
| Sweep.HeadPosition | frontend/index.js:119-134 | The head position stays on the sweeping axis. |
| Sweep.HeadPositionIsMax | frontend/index.js:134 | The head position is at least every channel's last folded timestamp, and equals 0 or one of them. |
| Sweep.HeadPositionStep | frontend/index.js:134 | One more channel makes the head `Math.max(posX, last)`. |
| Sweep.ChannelView.constructor | frontend/index.js:63-102 | A fresh channel: four distinct, empty series; draw orders right 0, overlay 1, left 2. |
| Sweep.ChannelView.Update | frontend/index.js:121-187 | The channel's new state is `ChannelStep` of its old state, and the returned value is the batch's last folded timestamp. |
| Sweep.ChannelView.Draw | frontend/index.js:137-181 | Counting the sweeps and taking the matching branch yields `Drawn` of the old state, swapping the references only on one sweep. |
| Sweep.ChannelView.DiscardBoth | frontend/index.js:147-152 | Both line series are cleared and nothing else changes. |
| Sweep.ChannelView.CompleteSweep | frontend/index.js:153-177 | The split, finish and swap yield `Swapped` of the old state, and the two references are exchanged. |
| Sweep.ChannelView.FinishSweepAndSwap | frontend/index.js:165-177 | The left series gains the current sweep. Left and right exchange references. The draw orders become right 0, overlay 1, left 2. The new left series is cleared and then holds the next sweep. |
| Sweep.ChannelView.HighlightLast | frontend/index.js:184-187 | The highlight is cleared and holds the one given point. |
| Sweep.Sweeper.constructor | frontend/index.js:37-113 | `chartCount` channels whose series are all newly allocated and pairwise disjoint, every channel empty with draw orders 0, 1, 2, and `prevPosX` 0. |
| Sweep.Sweeper.UpdateChannel | frontend/index.js:121-187 | Updating channel iCh steps that channel and leaves every other channel's state unchanged. |
| Sweep.Sweeper.UpdateChannels | frontend/index.js:119-188 | The loop over the channels steps each one against the old head position and returns `HeadPosition` of the batch. |
| Sweep.Sweeper.HandleIncomingData | frontend/index.js:117-203 | Every channel steps by `ChannelStep` against the old `prevPosX`. Afterwards `prevPosX` is the head position, the largest last folded timestamp or 0. |

## Left out

- Chart and series construction, theming and axis setup (frontend/index.js:28-106). The lcjs series are reduced to `Series` point buffers with a draw order. The overlay rectangle and the point-highlight series are `Series` objects too.
- The initial draw orders of the series (right 0, overlay 1, left 2, highlight 3). They are assumed from the creation order, because lcjs assigns them.
- WebSocket setup, the handshake and the message handlers (frontend/index.js:19-26, 208-213; backend/index.js:1-18). This is I/O.
- The producer tick (backend/index.js:20-43). It depends on timers, `performance.now()`, `Math.random()` and a floating-point sample count.
- The overlay rectangle's dimensions (frontend/index.js:190-200). x1 is 0 and x2 is `posX + xViewMs * 0.03`. The margin is floating point, and the y-extent is read from the foreign axis.
- The FPS counter (frontend/index.js:248-269). This is UI timing.
- Float32 rounding of the stored values. Elements are exact integers.
- Codec.Decode: the precondition `WellFormed` excludes three kinds of buffer, and the code checks none of them. A negative channel count makes `new Array` throw. A negative sample count moves the cursor backwards. Declared counts that overrun the buffer make `subarray` clamp silently.
- Codec.Decode: `subarray` views that share the received buffer are modelled as copied slices. Aliasing between records is not captured.
- Sweep.ChannelView.Update: channels with no samples, mismatched x/y lengths or negative timestamps are excluded by `ValidBatch`. The code reads index `newDataPointsCount - 1` and would misbehave on an empty channel.
- Sweep.Sweeper.HandleIncomingData: requires at least as many decoded records as there are channels, as the code indexes `dataAllChannels[iCh]` for every channel.
