/**
 * The multi-channel (x, y) sample codec of the LightningChart data-transfer
 * helper: a batch of channels is packed into one flat buffer laid out as
 *
 *   [n, count_0 .. count_{n-1}, x_0.., y_0.., x_1.., y_1.., ...]
 *
 * and walked back into per-channel slices on the receiving side.
 * Buffer elements (Float32 in the program) are modelled as exact integers.
 */
module Codec {

  /** One channel's samples: timestamps and values, meant to be of equal length. */
  datatype Channel = Channel(xs: seq<int>, ys: seq<int>)

  /** Every channel has as many y-values as x-values. */
  predicate Paired(batch: seq<Channel>)
  {
    forall i :: 0 <= i < |batch| ==> |batch[i].ys| == |batch[i].xs|
  }

  /** The sum of a sequence, as the encoder's `reduce((prev, cur) => prev + cur, 0)`. */
  function Sum(s: seq<int>): int
  {
    if s == [] then 0 else s[0] + Sum(s[1..])
  }

  /** Non-negative numbers have a non-negative sum. */
  lemma {:induction false} SumNonNegative(s: seq<nat>)
    ensures Sum(s) >= 0
  {
    if s != [] {
      SumNonNegative(s[1..]);
    }
  }

  lemma {:induction false} SumSplit(a: seq<int>, b: seq<int>)
    ensures Sum(a + b) == Sum(a) + Sum(b)
  {
    if a == [] {
      assert a + b == b;
    } else {
      assert (a + b)[1..] == a[1..] + b;
      SumSplit(a[1..], b);
    }
  }

  /** Sum of a prefix one element longer. */
  lemma {:induction false} SumPrefixStep(s: seq<int>, i: nat)
    requires i < |s|
    ensures Sum(s[..i + 1]) == Sum(s[..i]) + s[i]
  {
    assert s[..i + 1] == s[..i] + [s[i]];
    SumSplit(s[..i], [s[i]]);
  }

  /** A prefix of non-negative numbers sums to no more than the whole. */
  lemma {:induction false} SumPrefixBound(s: seq<nat>, i: nat)
    requires i <= |s|
    ensures 0 <= Sum(s[..i]) <= Sum(s)
  {
    assert s == s[..i] + s[i..];
    SumSplit(s[..i], s[i..]);
    SumNonNegative(s[..i]);
    SumNonNegative(s[i..]);
  }

  /** Per-channel sample counts, each taken from the channel's x-array only. */
  function SampleCounts(batch: seq<Channel>): (counts: seq<nat>)
    ensures |counts| == |batch|
    ensures forall i :: 0 <= i < |batch| ==> counts[i] == |batch[i].xs|
  {
    if batch == [] then [] else [|batch[0].xs|] + SampleCounts(batch[1..])
  }

  /** The data block: every channel's x-values followed by its y-values, channel by channel. */
  function Payload(batch: seq<Channel>): seq<int>
  {
    if batch == [] then [] else batch[0].xs + batch[0].ys + Payload(batch[1..])
  }

  /** The data block holds twice as many elements as the counts add up to. */
  lemma {:induction false} PayloadLength(batch: seq<Channel>)
    requires Paired(batch)
    ensures |Payload(batch)| == 2 * Sum(SampleCounts(batch))
  {
    if batch != [] {
      assert SampleCounts(batch)[1..] == SampleCounts(batch[1..]);
      assert Paired(batch[1..]);
      PayloadLength(batch[1..]);
    }
  }

  lemma {:induction false} PayloadSplit(a: seq<Channel>, b: seq<Channel>)
    ensures Payload(a + b) == Payload(a) + Payload(b)
  {
    if a == [] {
      assert a + b == b;
    } else {
      assert (a + b)[1..] == a[1..] + b;
      PayloadSplit(a[1..], b);
    }
  }

  /** The header: the channel count, then one sample count per channel. */
  function Header(batch: seq<Channel>): seq<int>
  {
    [|batch|] + SampleCounts(batch)
  }

  /** The whole wire frame of a batch. */
  function Frame(batch: seq<Channel>): seq<int>
  {
    Header(batch) + Payload(batch)
  }

  /** Where channel i's x-values start in the frame. */
  function Offset(batch: seq<Channel>, i: nat): (o: int)
    requires i <= |batch|
    ensures o >= 1 + |batch|
  {
    SumNonNegative(SampleCounts(batch)[..i]);
    1 + |batch| + 2 * Sum(SampleCounts(batch)[..i])
  }

  /**
   * The frame is exactly 1 + n + 2 * (sum of counts) long; element 0 holds
   * the channel count and element 1 + i channel i's count, taken from its x-array.
   */
  lemma {:induction false} FrameHeader(batch: seq<Channel>)
    requires Paired(batch)
    ensures |Frame(batch)| == 1 + |batch| + 2 * Sum(SampleCounts(batch))
    ensures Frame(batch)[0] == |batch|
    ensures forall i :: 0 <= i < |batch| ==> Frame(batch)[1 + i] == |batch[i].xs|
  {
    PayloadLength(batch);
    var h := Header(batch);
    assert Frame(batch)[..|h|] == h;
  }

  /** The payload of a prefix one channel longer. */
  lemma {:induction false} PayloadPrefixStep(batch: seq<Channel>, i: nat)
    requires i < |batch|
    ensures Payload(batch[..i + 1]) == Payload(batch[..i]) + batch[i].xs + batch[i].ys
  {
    assert batch[..i + 1] == batch[..i] + [batch[i]];
    PayloadSplit(batch[..i], [batch[i]]);
  }

  /** The data block around channel i: earlier channels, channel i, later channels. */
  lemma {:induction false} PayloadAround(batch: seq<Channel>, i: nat)
    requires i < |batch|
    ensures Payload(batch) == Payload(batch[..i]) + batch[i].xs + batch[i].ys + Payload(batch[i + 1..])
  {
    assert batch == batch[..i + 1] + batch[i + 1..];
    PayloadSplit(batch[..i + 1], batch[i + 1..]);
    PayloadPrefixStep(batch, i);
  }

  /** The data of the channels before i is 2 * (their counts) long. */
  lemma {:induction false} PayloadPrefixLength(batch: seq<Channel>, i: nat)
    requires Paired(batch)
    requires i <= |batch|
    ensures |Payload(batch[..i])| == 2 * Sum(SampleCounts(batch)[..i])
  {
    assert Paired(batch[..i]);
    assert SampleCounts(batch[..i]) == SampleCounts(batch)[..i];
    PayloadLength(batch[..i]);
  }

  /**
   * Channel i's x-values sit at Offset(batch, i) and its y-values follow
   * them immediately, with the same length.
   */
  lemma {:induction false} FrameChannelAt(batch: seq<Channel>, i: nat)
    requires Paired(batch)
    requires i < |batch|
    ensures Offset(batch, i) + 2 * |batch[i].xs| == Offset(batch, i + 1) <= |Frame(batch)|
    ensures Frame(batch)[Offset(batch, i)..Offset(batch, i) + |batch[i].xs|] == batch[i].xs
    ensures Frame(batch)[Offset(batch, i) + |batch[i].xs|..Offset(batch, i + 1)] == batch[i].ys
  {
    var ch := batch[i];
    var pre := Header(batch) + Payload(batch[..i]);
    var post := Payload(batch[i + 1..]);
    FrameAround(batch, i);
    CursorStep(batch, i);
    SlicesOf(pre, ch.xs, ch.ys, post);
  }

  /** The frame cut around channel i: everything before it is Offset(batch, i) long. */
  lemma {:induction false} FrameAround(batch: seq<Channel>, i: nat)
    requires Paired(batch)
    requires i < |batch|
    ensures Frame(batch) == (Header(batch) + Payload(batch[..i])) + batch[i].xs + batch[i].ys + Payload(batch[i + 1..])
    ensures |Header(batch) + Payload(batch[..i])| == Offset(batch, i)
  {
    PayloadPrefixLength(batch, i);
    PayloadAround(batch, i);
  }

  /** The two middle parts of a four-part sequence, recovered by slicing. */
  lemma {:induction false} SlicesOf(pre: seq<int>, a: seq<int>, b: seq<int>, post: seq<int>)
    ensures (pre + a + b + post)[|pre|..|pre| + |a|] == a
    ensures (pre + a + b + post)[|pre| + |a|..|pre| + |a| + |b|] == b
  {
    var f := pre + a + b + post;
    assert forall k :: 0 <= k < |a| ==> f[|pre|..|pre| + |a|][k] == a[k];
    assert forall k :: 0 <= k < |b| ==> f[|pre| + |a|..|pre| + |a| + |b|][k] == b[k];
  }

  /** A channel without samples adds its count field to the header and nothing to the data. */
  lemma {:induction false} EmptyChannelNoShift(batch: seq<Channel>, i: nat)
    requires Paired(batch)
    requires i < |batch| && batch[i].xs == []
    ensures Payload(batch) == Payload(batch[..i] + batch[i + 1..])
    ensures Offset(batch, i + 1) == Offset(batch, i)
  {
    PayloadAround(batch, i);
    PayloadSplit(batch[..i], batch[i + 1..]);
    var ch := batch[i];
    assert ch.ys == [];
    var p := Payload(batch[..i]);
    assert p + ch.xs + ch.ys == p;
    SumPrefixStep(SampleCounts(batch), i);
  }

  /**
   * TypedArray.set: copies src into msg starting at offset and leaves
   * every other slot as it was.
   */
  method SetAt(msg: array<int>, src: seq<int>, offset: nat)
    requires offset + |src| <= msg.Length
    modifies msg
    ensures msg[..offset + |src|] == old(msg[..offset]) + src
    ensures msg[offset + |src|..] == old(msg[offset + |src|..])
  {
    for k := 0 to |src|
      invariant msg[..offset + k] == old(msg[..offset]) + src[..k]
      invariant msg[offset + k..] == old(msg[offset + k..])
    {
      msg[offset + k] := src[k];
      assert src[..k + 1] == src[..k] + [src[k]];
    }
  }

  /**
   * Packs a batch into one buffer allocated up front: the header slots are
   * written in a loop, then each channel's x- and y-blocks are copied while a
   * cursor advances; the cursor ends exactly at the end of the buffer.
   */
  method Encode(dataAllChannels: seq<Channel>) returns (msg: array<int>)
    requires Paired(dataAllChannels)
    ensures msg.Length == 1 + |dataAllChannels| + 2 * Sum(SampleCounts(dataAllChannels))
    ensures msg[..] == Frame(dataAllChannels)
    ensures fresh(msg)
  {
    var channelCount := |dataAllChannels|;
    var channelSampleCounts := SampleCounts(dataAllChannels);
    var totalSampleCount := Sum(channelSampleCounts);
    var metaDataNumbers := 1 + channelCount;
    SumNonNegative(channelSampleCounts);
    msg := new int[metaDataNumbers + totalSampleCount * 2];
    WriteHeader(msg, dataAllChannels);
    var iMsg: nat := metaDataNumbers;
    for i := 0 to channelCount
      invariant iMsg == metaDataNumbers + 2 * Sum(channelSampleCounts[..i])
      invariant iMsg <= msg.Length
      invariant msg[..iMsg] == Header(dataAllChannels) + Payload(dataAllChannels[..i])
    {
      WriteChannel(msg, dataAllChannels, i, iMsg);
      iMsg := iMsg + 2 * channelSampleCounts[i];
    }
    assert channelSampleCounts[..channelCount] == channelSampleCounts;
    assert dataAllChannels[..channelCount] == dataAllChannels;
    assert msg[..] == msg[..iMsg];
  }

  /** Writes the channel count into slot 0 and channel i's sample count into slot 1 + i. */
  method WriteHeader(msg: array<int>, dataAllChannels: seq<Channel>)
    requires 1 + |dataAllChannels| <= msg.Length
    modifies msg
    ensures msg[..1 + |dataAllChannels|] == Header(dataAllChannels)
    ensures msg[1 + |dataAllChannels|..] == old(msg[1 + |dataAllChannels|..])
  {
    var channelCount := |dataAllChannels|;
    var channelSampleCounts := SampleCounts(dataAllChannels);
    msg[0] := channelCount;
    for i := 0 to channelCount
      invariant msg[..1 + i] == Header(dataAllChannels)[..1 + i]
      invariant msg[1 + i..] == old(msg[1 + i..])
    {
      msg[1 + i] := channelSampleCounts[i];
    }
  }

  /** One step of the encoder's walk: channel i's x-block then y-block at the cursor. */
  method WriteChannel(msg: array<int>, dataAllChannels: seq<Channel>, i: nat, iMsg: nat)
    requires Paired(dataAllChannels) && i < |dataAllChannels|
    requires msg.Length == 1 + |dataAllChannels| + 2 * Sum(SampleCounts(dataAllChannels))
    requires iMsg == 1 + |dataAllChannels| + 2 * Sum(SampleCounts(dataAllChannels)[..i])
    requires iMsg <= msg.Length
    requires msg[..iMsg] == Header(dataAllChannels) + Payload(dataAllChannels[..i])
    modifies msg
    ensures iMsg + 2 * |dataAllChannels[i].xs| == 1 + |dataAllChannels| + 2 * Sum(SampleCounts(dataAllChannels)[..i + 1])
    ensures iMsg + 2 * |dataAllChannels[i].xs| <= msg.Length
    ensures msg[..iMsg + 2 * |dataAllChannels[i].xs|] == Header(dataAllChannels) + Payload(dataAllChannels[..i + 1])
    ensures msg[iMsg + 2 * |dataAllChannels[i].xs|..] == old(msg[iMsg + 2 * |dataAllChannels[i].xs|..])
  {
    var chData := dataAllChannels[i];
    var c := |chData.xs|;
    CursorStep(dataAllChannels, i);
    SetAt(msg, chData.xs, iMsg);
    SetAt(msg, chData.ys, iMsg + c);
    PayloadPrefixStep(dataAllChannels, i);
    AppendAssoc(Header(dataAllChannels), Payload(dataAllChannels[..i]), chData.xs, chData.ys);
  }

  lemma {:induction false} AppendAssoc(h: seq<int>, p: seq<int>, a: seq<int>, b: seq<int>)
    ensures h + p + a + b == h + (p + a + b)
  {
  }

  /** The cursor moves past channel i by twice its count and stays within the frame. */
  lemma {:induction false} CursorStep(batch: seq<Channel>, i: nat)
    requires Paired(batch) && i < |batch|
    ensures |batch[i].ys| == |batch[i].xs|
    ensures Sum(SampleCounts(batch)[..i + 1]) == Sum(SampleCounts(batch)[..i]) + |batch[i].xs|
    ensures Sum(SampleCounts(batch)[..i + 1]) <= Sum(SampleCounts(batch))
  {
    var counts := SampleCounts(batch);
    SumPrefixStep(counts, i);
    SumPrefixBound(counts, i + 1);
  }

  /**
   * The layout fits the buffer: a non-negative channel count, that many
   * non-negative sample counts, and room for all their samples.
   */
  predicate WellFormed(dataFlat: seq<int>)
  {
    |dataFlat| >= 1 && 0 <= dataFlat[0] && 1 + dataFlat[0] <= |dataFlat|
    && (forall i :: 1 <= i <= dataFlat[0] ==> dataFlat[i] >= 0)
    && 1 + dataFlat[0] + 2 * Sum(dataFlat[1..1 + dataFlat[0]]) <= |dataFlat|
  }

  /** The channel whose c x-values start at cursor o and whose c y-values follow them. */
  function ChannelAt(dataFlat: seq<int>, o: nat, c: nat): (ch: Channel)
    requires o + 2 * c <= |dataFlat|
    ensures |ch.xs| == |ch.ys| == c
  {
    Channel(dataFlat[o..o + c], dataFlat[o + c..o + 2 * c])
  }

  /** The decoder's walk: from the cursor, each count takes two consecutive slices. */
  function Walk(dataFlat: seq<int>, counts: seq<nat>, cursor: nat): (data: seq<Channel>)
    requires cursor + 2 * Sum(counts) <= |dataFlat|
    ensures |data| == |counts|
    decreases |counts|
  {
    if counts == [] then []
    else
      var c := counts[0];
      SumNonNegative(counts[1..]);
      [ChannelAt(dataFlat, cursor, c)] + Walk(dataFlat, counts[1..], cursor + 2 * c)
  }

  /** The channels a well-formed buffer decodes to. */
  function Decoded(dataFlat: seq<int>): seq<Channel>
    requires WellFormed(dataFlat)
  {
    Walk(dataFlat, dataFlat[1..1 + dataFlat[0]], 1 + dataFlat[0])
  }

  /**
   * Reads the channel count from element 0 and the counts after it, then
   * walks a cursor over the data, cutting two slices of count elements per channel.
   */
  method Decode(dataFlat: seq<int>) returns (data: seq<Channel>)
    requires WellFormed(dataFlat)
    ensures data == Decoded(dataFlat)
  {
    var channelCount := dataFlat[0];
    var channelSampleCounts := dataFlat[1..1 + channelCount];
    data := [];
    var iData: nat := 1 + channelCount;
    for ch := 0 to channelCount
      invariant iData == 1 + channelCount + 2 * Sum(dataFlat[1..1 + ch])
      invariant data == Decoded(dataFlat)[..ch]
    {
      DecodedShape(dataFlat, ch);
      var chSamplesCount := channelSampleCounts[ch];
      var xValues := dataFlat[iData..iData + chSamplesCount];
      iData := iData + chSamplesCount;
      var yValues := dataFlat[iData..iData + chSamplesCount];
      iData := iData + chSamplesCount;
      data := data + [Channel(xValues, yValues)];
      CountsPrefixStep(dataFlat, ch);
    }
  }

  /** The counts before channel ch + 1 add channel ch's count to those before ch. */
  lemma {:induction false} CountsPrefixStep(dataFlat: seq<int>, ch: nat)
    requires 1 + ch < |dataFlat|
    ensures Sum(dataFlat[1..2 + ch]) == Sum(dataFlat[1..1 + ch]) + dataFlat[1 + ch]
  {
    SumPrefixStep(dataFlat[1..], ch);
    assert dataFlat[1..][..ch + 1] == dataFlat[1..2 + ch];
    assert dataFlat[1..][..ch] == dataFlat[1..1 + ch];
  }

  /** Channel k of a walk: two slices of counts[k] elements at cursor + 2 * (counts before k). */
  lemma {:induction false} WalkAt(dataFlat: seq<int>, counts: seq<nat>, cursor: nat, k: nat)
    requires cursor + 2 * Sum(counts) <= |dataFlat|
    requires k < |counts|
    ensures 0 <= Sum(counts[..k])
    ensures cursor + 2 * Sum(counts[..k]) + 2 * counts[k] <= |dataFlat|
    ensures Walk(dataFlat, counts, cursor)[k] == ChannelAt(dataFlat, cursor + 2 * Sum(counts[..k]), counts[k])
  {
    SumNonNegative(counts[..k]);
    WalkCons(dataFlat, counts, cursor);
    if k == 0 {
      assert counts[..0] == [];
    } else {
      var rest, next := counts[1..], cursor + 2 * counts[0];
      WalkAt(dataFlat, rest, next, k - 1);
      assert counts[..k] == [counts[0]] + rest[..k - 1];
      assert Sum(counts[..k]) == counts[0] + Sum(rest[..k - 1]);
    }
  }

  /** A walk over at least one count takes the first channel's slices, then walks on. */
  lemma {:induction false} WalkCons(dataFlat: seq<int>, counts: seq<nat>, cursor: nat)
    requires cursor + 2 * Sum(counts) <= |dataFlat|
    requires counts != []
    ensures 0 <= Sum(counts[1..]) && cursor + 2 * counts[0] + 2 * Sum(counts[1..]) <= |dataFlat|
    ensures Walk(dataFlat, counts, cursor)
         == [ChannelAt(dataFlat, cursor, counts[0])] + Walk(dataFlat, counts[1..], cursor + 2 * counts[0])
  {
    SumNonNegative(counts[1..]);
  }

  /**
   * A well-formed buffer decodes to exactly dataFlat[0] channels; channel ch
   * has dataFlat[1 + ch] x-values and as many y-values, sliced consecutively
   * after the header with the cursor advanced by twice each earlier count.
   */
  lemma {:induction false} DecodedShape(dataFlat: seq<int>, ch: nat)
    requires WellFormed(dataFlat)
    requires ch < dataFlat[0]
    ensures |Decoded(dataFlat)| == dataFlat[0]
    ensures 0 <= dataFlat[1 + ch] && 0 <= Sum(dataFlat[1..1 + ch])
    ensures 1 + dataFlat[0] + 2 * Sum(dataFlat[1..1 + ch]) + 2 * dataFlat[1 + ch] <= |dataFlat|
    ensures Decoded(dataFlat)[ch] == ChannelAt(dataFlat, 1 + dataFlat[0] + 2 * Sum(dataFlat[1..1 + ch]), dataFlat[1 + ch])
  {
    var n := dataFlat[0];
    var counts := dataFlat[1..1 + n];
    assert Decoded(dataFlat) == Walk(dataFlat, counts, 1 + n);
    WalkAt(dataFlat, counts, 1 + n, ch);
    assert counts[..ch] == dataFlat[1..1 + ch];
    assert counts[ch] == dataFlat[1 + ch];
  }

  /**
   * Round trip: the frame of any batch whose channels pair their arrays is
   * well formed and decodes to that batch, channel by channel, including
   * channels without samples.
   */
  lemma {:induction false} RoundTrip(batch: seq<Channel>)
    requires Paired(batch)
    ensures WellFormed(Frame(batch))
    ensures Decoded(Frame(batch)) == batch
  {
    var f := Frame(batch);
    var n := |batch|;
    FrameHeader(batch);
    assert f[1..1 + n] == SampleCounts(batch);
    assert WellFormed(f);
    forall ch | 0 <= ch < n
      ensures Decoded(f)[ch] == batch[ch]
    {
      RoundTripAt(batch, ch);
    }
  }

  /** Channel ch of the decoded frame is channel ch of the batch. */
  lemma {:induction false} RoundTripAt(batch: seq<Channel>, ch: nat)
    requires Paired(batch)
    requires WellFormed(Frame(batch))
    requires ch < |batch|
    ensures Decoded(Frame(batch))[ch] == batch[ch]
  {
    FrameCounts(batch, ch);
    FrameChannelAt(batch, ch);
    DecodedAt(Frame(batch), ch, Offset(batch, ch), batch[ch]);
  }

  /**
   * Record ch of a well-formed buffer is the channel whose x- and y-values
   * are the two slices found where the header's counts place them.
   */
  lemma {:induction false} DecodedAt(dataFlat: seq<int>, ch: nat, o: nat, channel: Channel)
    requires WellFormed(dataFlat) && ch < dataFlat[0]
    requires o == 1 + dataFlat[0] + 2 * Sum(dataFlat[1..1 + ch])
    requires dataFlat[1 + ch] == |channel.xs|
    requires o + 2 * |channel.xs| <= |dataFlat|
    requires dataFlat[o..o + |channel.xs|] == channel.xs
    requires dataFlat[o + |channel.xs|..o + 2 * |channel.xs|] == channel.ys
    ensures Decoded(dataFlat)[ch] == channel
  {
    DecodedShape(dataFlat, ch);
    ChannelAtSlices(dataFlat, o, |channel.xs|, channel);
  }

  /** A channel whose arrays are the two slices at o is the channel read there. */
  lemma {:induction false} ChannelAtSlices(dataFlat: seq<int>, o: nat, c: nat, channel: Channel)
    requires o + 2 * c <= |dataFlat|
    requires dataFlat[o..o + c] == channel.xs && dataFlat[o + c..o + 2 * c] == channel.ys
    ensures ChannelAt(dataFlat, o, c) == channel
  {
  }

  /** The counts stored before channel ch in the frame are the first ch sample counts. */
  lemma {:induction false} FrameCounts(batch: seq<Channel>, ch: nat)
    requires ch < |batch|
    ensures Frame(batch)[0] == |batch|
    ensures Frame(batch)[1..1 + ch] == SampleCounts(batch)[..ch]
    ensures Frame(batch)[1 + ch] == |batch[ch].xs|
  {
    var h := Header(batch);
    assert Frame(batch)[..|h|] == h;
    assert h[1..1 + ch] == SampleCounts(batch)[..ch];
  }

  /** Decoding what the encoder wrote gives back the batch. */
  method EncodeDecode(batch: seq<Channel>) returns (decoded: seq<Channel>)
    requires Paired(batch)
    ensures decoded == batch
  {
    var msg := Encode(batch);
    RoundTrip(batch);
    decoded := Decode(msg[..]);
  }

  /** One channel of three samples encodes to eight elements. */
  lemma {:induction false} OneChannelExample()
    ensures Frame([Channel([0, 1, 2], [5, 6, 7])]) == [1, 3, 0, 1, 2, 5, 6, 7]
  {
  }

  /** An empty channel followed by a one-sample channel. */
  lemma {:induction false} EmptyChannelExample()
    ensures Frame([Channel([], []), Channel([1], [9])]) == [2, 0, 1, 1, 9]
    ensures WellFormed([2, 0, 1, 1, 9])
    ensures Decoded([2, 0, 1, 1, 9]) == [Channel([], []), Channel([1], [9])]
  {
    RoundTrip([Channel([], []), Channel([1], [9])]);
  }
}
