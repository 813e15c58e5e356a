/** MixSound: one mixing pass per audio period. Inside the mixer lock every
    playing buffer is asked for up to one period of frames, which are scaled
    by the buffer's volume and summed into a 32-bit accumulator; finished
    buffers are swap-removed in place. Outside the lock the accumulator is
    scaled by the master volume, saturated to 16 bits and packed low byte
    first. */
module MixEngine {
  import opened Types
  import opened Collections
  import opened SoundSource
  import opened MixerState

  /** The largest magnitude of a 16-bit sample, and so of a sample scaled by
      a volume of magnitude at most 1. */
  const FullScale: int := 0x8000

  /** The most buffers whose scaled samples always fit the 32-bit
      accumulator: MaxBuffers * FullScale < 2^31. */
  const MaxBuffers: int := 0xFFFF

  /** The output saturation bound (MixSound clamps to +-32767). */
  const OutputLimit: int := 32767

  /** An accumulator entry this small can take one more scaled sample
      without leaving the 32-bit range. */
  const Headroom: int := 0x7FFF_FFFF - FullScale

  /** static_cast<Si32>(static_cast<float>(x) * volume), with the float
      product taken as the exact real product. */
  function Scale(x: Si16, volume: real): int
  {
    Trunc(x as real * volume)
  }

  /** A volume of magnitude at most 1 never makes a sample louder. */
  lemma ScaleBound(x: Si16, volume: real)
    requires -1.0 <= volume <= 1.0
    ensures -FullScale <= Scale(x, volume) <= FullScale
  {
    var r := x as real * volume;
    if x >= 0 {
      MulBound(x as real, volume);
    } else {
      MulBound(-(x as real), volume);
      assert -(x as real) * volume == -r;
    }
    assert -(FullScale as real) <= r <= FullScale as real;
    TruncBounds(r, FullScale);
  }

  lemma MulNonNegative(a: real, b: real)
    requires 0.0 <= a && 0.0 <= b
    ensures 0.0 <= a * b
  {
  }

  lemma MulBound(a: real, volume: real)
    requires 0.0 <= a && -1.0 <= volume <= 1.0
    ensures -a <= a * volume <= a
  {
    MulNonNegative(a, 1.0 - volume);
    assert a * (1.0 - volume) == a - a * volume;
    MulNonNegative(a, 1.0 + volume);
    assert a * (1.0 + volume) == a + a * volume;
  }

  /** The frames StreamOut hands back for buffer b: at most one period. */
  function Pull(lib: Library, period: nat, b: SoundBuffer): (chunk: seq<Frame>)
    ensures |chunk| <= period
  {
    lib.stream(b.sound, b.nextPosition, period)
  }

  /** Buffer b after its frames were mixed: the cursor moved by the number
      of frames produced; sound and volume are kept. */
  function Advance(lib: Library, period: nat, b: SoundBuffer): (b': SoundBuffer)
    ensures b'.sound == b.sound && b'.volume == b.volume
    ensures b'.nextPosition - b.nextPosition == |Pull(lib, period, b)| <= period
  {
    b.(nextPosition := b.nextPosition + |Pull(lib, period, b)|)
  }

  /** A buffer is dropped in this pass when its cursor reaches the sound's
      duration or the source produced no frame. */
  predicate Finished(lib: Library, period: nat, b: SoundBuffer)
  {
    Advance(lib, period, b).nextPosition == lib.duration(b.sound) || |Pull(lib, period, b)| == 0
  }

  /** What a chunk mixed at the given volume adds to accumulator entry k:
      the scaled interleaved sample for k below twice the chunk length,
      nothing beyond. */
  function ChunkAt(chunk: seq<Frame>, volume: real, k: nat): int
  {
    if k < 2 * |chunk| then Scale(Interleaved(chunk, k), volume) else 0
  }

  function Contribution(lib: Library, period: nat, k: nat): SoundBuffer -> int
  {
    (b: SoundBuffer) => ChunkAt(Pull(lib, period, b), b.volume, k)
  }

  /** Reference value of accumulator entry k after a pass over buffers:
      the sum of every buffer's contribution, in any order. */
  function MixAt(lib: Library, period: nat, buffers: seq<SoundBuffer>, k: nat): int
  {
    SumOf(buffers, Contribution(lib, period, k))
  }

  function FinishedOf(lib: Library, period: nat, id: SoundId): SoundBuffer -> int
  {
    (b: SoundBuffer) => if b.sound == id && Finished(lib, period, b) then 1 else 0
  }

  /** The number of buffers of instance id that a pass drops. */
  function FinishedCount(lib: Library, period: nat, buffers: seq<SoundBuffer>, id: SoundId): int
  {
    SumOf(buffers, FinishedOf(lib, period, id))
  }

  function Surviving(lib: Library, period: nat): SoundBuffer -> Option<SoundBuffer>
  {
    (b: SoundBuffer) => if Finished(lib, period, b) then None else Some(Advance(lib, period, b))
  }

  /** Reference list of the buffers left after a pass: the unfinished ones,
      advanced, in their original order. */
  function Survivors(lib: Library, period: nat, buffers: seq<SoundBuffer>): seq<SoundBuffer>
  {
    FilterMap(buffers, Surviving(lib, period))
  }

  /** What keeps the signed 32-bit accumulator from overflowing: few enough
      buffers and volumes of magnitude at most 1. */
  predicate FitsAccumulator(buffers: seq<SoundBuffer>)
  {
    && |buffers| <= MaxBuffers
    && forall i :: 0 <= i < |buffers| ==> -1.0 <= buffers[i].volume <= 1.0
  }

  /** The inner loop of the pass: frame i of the chunk, scaled, is added to
      entries 2i and 2i+1; entries past the chunk are left alone. */
  method AddChunk(acc: seq<Si32>, chunk: seq<Frame>, volume: real) returns (acc': seq<Si32>)
    requires 2 * |chunk| <= |acc|
    requires -1.0 <= volume <= 1.0
    requires forall k :: 0 <= k < |acc| ==> -Headroom <= acc[k] <= Headroom
    ensures |acc'| == |acc|
    ensures forall k :: 0 <= k < 2 * |chunk| ==> acc'[k] == acc[k] + Scale(Interleaved(chunk, k), volume)
    ensures forall k :: 2 * |chunk| <= k < |acc| ==> acc'[k] == acc[k]
  {
    acc' := acc;
    var i := 0;
    while i < |chunk|
      invariant 0 <= i <= |chunk|
      invariant |acc'| == |acc|
      invariant forall k :: 0 <= k < 2 * i ==> acc'[k] == acc[k] + Scale(Interleaved(chunk, k), volume)
      invariant forall k :: 2 * i <= k < |acc| ==> acc'[k] == acc[k]
    {
      var left := Scale(chunk[i].left, volume);
      var right := Scale(chunk[i].right, volume);
      ScaleBound(chunk[i].left, volume);
      ScaleBound(chunk[i].right, volume);
      assert Interleaved(chunk, 2 * i) == chunk[i].left;
      assert Interleaved(chunk, 2 * i + 1) == chunk[i].right;
      acc' := acc'[2 * i := acc[2 * i] + left][2 * i + 1 := acc[2 * i + 1] + right];
      i := i + 1;
    }
  }

  lemma ChunkAtBound(chunk: seq<Frame>, volume: real, k: nat)
    requires -1.0 <= volume <= 1.0
    ensures -FullScale <= ChunkAt(chunk, volume, k) <= FullScale
  {
    if k < 2 * |chunk| {
      ScaleBound(Interleaved(chunk, k), volume);
    }
  }

  /** What the locked loop of MixSound keeps. The buffers before idx are the
      survivors produced so far, advanced; those from idx on are buffers of
      the pass not yet asked for frames; pulls lists, in call order, the
      buffers already asked. The accumulator and the play counters hold
      exactly the share of the buffers in pulls. */
  ghost predicate MixInvariant(lib: Library, period: nat, m: Mixer, cur: seq<SoundBuffer>,
                               playing: map<SoundId, int>, acc: seq<Si32>,
                               pulls: seq<SoundBuffer>, idx: nat)
  {
    && MixShape(period, m, cur, acc, pulls, idx)
    && MixAccumulated(lib, period, m, cur, acc, |pulls|, idx)
    && MixSurvived(lib, period, m, cur, idx)
    && MixCounted(lib, period, m, cur, playing, idx)
  }

  ghost predicate MixShape(period: nat, m: Mixer, cur: seq<SoundBuffer>, acc: seq<Si32>,
                           pulls: seq<SoundBuffer>, idx: nat)
  {
    && idx <= |cur|
    && |acc| == 2 * period
    && multiset(pulls) + multiset(cur[idx..]) == multiset(m.buffers)
    && |pulls| + (|cur| - idx) == |m.buffers|
    && (forall j :: idx <= j < |cur| ==> -1.0 <= cur[j].volume <= 1.0)
  }

  ghost predicate MixAccumulated(lib: Library, period: nat, m: Mixer, cur: seq<SoundBuffer>,
                                 acc: seq<Si32>, pulled: nat, idx: nat)
    requires idx <= |cur| && |acc| == 2 * period
  {
    && (forall k :: 0 <= k < 2 * period ==>
          acc[k] + MixAt(lib, period, cur[idx..], k) == MixAt(lib, period, m.buffers, k))
    && (forall k :: 0 <= k < 2 * period ==> -FullScale * pulled <= acc[k] <= FullScale * pulled)
  }

  ghost predicate MixSurvived(lib: Library, period: nat, m: Mixer, cur: seq<SoundBuffer>, idx: nat)
    requires idx <= |cur|
  {
    multiset(cur[..idx]) + multiset(Survivors(lib, period, cur[idx..]))
    == multiset(Survivors(lib, period, m.buffers))
  }

  ghost predicate MixCounted(lib: Library, period: nat, m: Mixer, cur: seq<SoundBuffer>,
                             playing: map<SoundId, int>, idx: nat)
    requires idx <= |cur|
  {
    forall id :: PlayCount(playing, id) - FinishedCount(lib, period, cur[idx..], id)
                 == PlayCount(m.playing, id) - FinishedCount(lib, period, m.buffers, id)
  }

  lemma MixInvariantInit(lib: Library, period: nat, m: Mixer, acc: seq<Si32>)
    requires FitsAccumulator(m.buffers)
    requires |acc| == 2 * period && forall k :: 0 <= k < |acc| ==> acc[k] == 0
    ensures MixInvariant(lib, period, m, m.buffers, m.playing, acc, [], 0)
  {
    assert m.buffers[..0] == [] && m.buffers[0..] == m.buffers;
  }

  /** The accumulator after adding one buffer's chunk. */
  ghost predicate AddedChunk(period: nat, acc: seq<Si32>, acc': seq<Si32>, lib: Library, b: SoundBuffer)
  {
    && |acc| == |acc'| == 2 * period
    && forall k :: 0 <= k < 2 * period ==>
         acc'[k] == acc[k] + ChunkAt(Pull(lib, period, b), b.volume, k)
  }

  lemma RemoveShape(period: nat, m: Mixer, cur: seq<SoundBuffer>, acc: seq<Si32>, acc': seq<Si32>,
                    pulls: seq<SoundBuffer>, idx: nat)
    requires MixShape(period, m, cur, acc, pulls, idx) && idx < |cur| && |acc'| == |acc|
    ensures MixShape(period, m, SwapRemove(cur, idx), acc', pulls + [cur[idx]], idx)
  {
    var r := SwapRemove(cur, idx);
    forall j | idx <= j < |r|
      ensures -1.0 <= r[j].volume <= 1.0
    {
      SwapRemoveFrom(cur, idx, j);
    }
    var tail := cur[idx..];
    assert tail == [cur[idx]] + cur[idx + 1..];
    assert multiset(pulls + [cur[idx]]) == multiset(pulls) + multiset{cur[idx]};
  }

  lemma RemoveAccumulated(lib: Library, period: nat, m: Mixer, cur: seq<SoundBuffer>,
                          acc: seq<Si32>, acc': seq<Si32>, pulled: nat, idx: nat)
    requires idx < |cur| && |acc| == 2 * period
    requires -1.0 <= cur[idx].volume <= 1.0
    requires MixAccumulated(lib, period, m, cur, acc, pulled, idx)
    requires AddedChunk(period, acc, acc', lib, cur[idx])
    ensures MixAccumulated(lib, period, m, SwapRemove(cur, idx), acc', pulled + 1, idx)
  {
    var b := cur[idx];
    var tail := cur[idx..];
    assert tail[1..] == cur[idx + 1..];
    var r := SwapRemove(cur, idx);
    forall k | 0 <= k < 2 * period
      ensures acc'[k] + MixAt(lib, period, r[idx..], k) == MixAt(lib, period, m.buffers, k)
      ensures -FullScale * (pulled + 1) <= acc'[k] <= FullScale * (pulled + 1)
    {
      SumOfPermutation(r[idx..], tail[1..], Contribution(lib, period, k));
      ChunkAtBound(Pull(lib, period, b), b.volume, k);
    }
  }

  lemma RemoveSurvived(lib: Library, period: nat, m: Mixer, cur: seq<SoundBuffer>, idx: nat)
    requires idx < |cur| && Finished(lib, period, cur[idx])
    requires MixSurvived(lib, period, m, cur, idx)
    ensures MixSurvived(lib, period, m, SwapRemove(cur, idx), idx)
  {
    var tail := cur[idx..];
    assert tail[1..] == cur[idx + 1..];
    var r := SwapRemove(cur, idx);
    FilterMapPermutation(r[idx..], tail[1..], Surviving(lib, period));
  }

  lemma RemoveCounted(lib: Library, period: nat, m: Mixer, cur: seq<SoundBuffer>,
                      playing: map<SoundId, int>, idx: nat)
    requires idx < |cur| && Finished(lib, period, cur[idx])
    requires MixCounted(lib, period, m, cur, playing, idx)
    ensures MixCounted(lib, period, m, SwapRemove(cur, idx), DecPlaying(playing, cur[idx].sound), idx)
  {
    var b := cur[idx];
    var tail := cur[idx..];
    assert tail[1..] == cur[idx + 1..];
    var r := SwapRemove(cur, idx);
    forall id
      ensures PlayCount(DecPlaying(playing, b.sound), id) - FinishedCount(lib, period, r[idx..], id)
              == PlayCount(m.playing, id) - FinishedCount(lib, period, m.buffers, id)
    {
      SumOfPermutation(r[idx..], tail[1..], FinishedOf(lib, period, id));
      assert FinishedCount(lib, period, tail, id)
             == FinishedOf(lib, period, id)(b) + FinishedCount(lib, period, tail[1..], id);
      assert FinishedOf(lib, period, id)(b) == if id == b.sound then 1 else 0;
      assert PlayCount(DecPlaying(playing, b.sound), id)
             == PlayCount(playing, id) - (if id == b.sound then 1 else 0);
    }
  }

  lemma KeepShape(lib: Library, period: nat, m: Mixer, cur: seq<SoundBuffer>, acc: seq<Si32>,
                  acc': seq<Si32>, pulls: seq<SoundBuffer>, idx: nat)
    requires MixShape(period, m, cur, acc, pulls, idx) && idx < |cur| && |acc'| == |acc|
    ensures MixShape(period, m, cur[idx := Advance(lib, period, cur[idx])], acc', pulls + [cur[idx]], idx + 1)
  {
    var c := cur[idx := Advance(lib, period, cur[idx])];
    assert c[idx + 1..] == cur[idx + 1..];
    var tail := cur[idx..];
    assert tail == [cur[idx]] + cur[idx + 1..];
    assert multiset(pulls + [cur[idx]]) == multiset(pulls) + multiset{cur[idx]};
  }

  lemma KeepAccumulated(lib: Library, period: nat, m: Mixer, cur: seq<SoundBuffer>,
                        acc: seq<Si32>, acc': seq<Si32>, pulled: nat, idx: nat)
    requires idx < |cur| && |acc| == 2 * period
    requires -1.0 <= cur[idx].volume <= 1.0
    requires MixAccumulated(lib, period, m, cur, acc, pulled, idx)
    requires AddedChunk(period, acc, acc', lib, cur[idx])
    ensures MixAccumulated(lib, period, m, cur[idx := Advance(lib, period, cur[idx])], acc', pulled + 1, idx + 1)
  {
    var b := cur[idx];
    var tail := cur[idx..];
    assert tail[1..] == cur[idx + 1..];
    var c := cur[idx := Advance(lib, period, b)];
    assert c[idx + 1..] == cur[idx + 1..];
    forall k | 0 <= k < 2 * period
      ensures -FullScale * (pulled + 1) <= acc'[k] <= FullScale * (pulled + 1)
    {
      ChunkAtBound(Pull(lib, period, b), b.volume, k);
    }
  }

  lemma KeepSurvived(lib: Library, period: nat, m: Mixer, cur: seq<SoundBuffer>, idx: nat)
    requires idx < |cur| && !Finished(lib, period, cur[idx])
    requires MixSurvived(lib, period, m, cur, idx)
    ensures MixSurvived(lib, period, m, cur[idx := Advance(lib, period, cur[idx])], idx + 1)
  {
    var b := cur[idx];
    var tail := cur[idx..];
    assert tail[1..] == cur[idx + 1..];
    var c := cur[idx := Advance(lib, period, b)];
    assert c[idx + 1..] == cur[idx + 1..];
    assert c[..idx + 1] == cur[..idx] + [Advance(lib, period, b)];
    assert Survivors(lib, period, tail) == [Advance(lib, period, b)] + Survivors(lib, period, tail[1..]);
  }

  lemma KeepCounted(lib: Library, period: nat, m: Mixer, cur: seq<SoundBuffer>,
                    playing: map<SoundId, int>, idx: nat)
    requires idx < |cur| && !Finished(lib, period, cur[idx])
    requires MixCounted(lib, period, m, cur, playing, idx)
    ensures MixCounted(lib, period, m, cur[idx := Advance(lib, period, cur[idx])], playing, idx + 1)
  {
    var b := cur[idx];
    var tail := cur[idx..];
    assert tail[1..] == cur[idx + 1..];
    var c := cur[idx := Advance(lib, period, b)];
    assert c[idx + 1..] == cur[idx + 1..];
    forall id
      ensures FinishedCount(lib, period, tail, id) == FinishedCount(lib, period, tail[1..], id)
    {
      assert FinishedCount(lib, period, tail, id)
             == FinishedOf(lib, period, id)(b) + FinishedCount(lib, period, tail[1..], id);
    }
  }

  /** The locked part of MixSound: one StreamOut call per buffer, the
      scaled frames summed into the accumulator, finished buffers dropped by
      swap-remove without advancing the index (MixSound decrements its
      unsigned index, which wraps at 0, before the loop increments it). */
  method MixPass(lib: Library, period: nat, m: Mixer)
    returns (m': Mixer, mix: seq<Si32>, pulls: seq<SoundBuffer>)
    requires FitsAccumulator(m.buffers)
    ensures |mix| == 2 * period
    ensures forall k :: 0 <= k < 2 * period ==> mix[k] == MixAt(lib, period, m.buffers, k)
    ensures multiset(pulls) == multiset(m.buffers)
    ensures multiset(m'.buffers) == multiset(Survivors(lib, period, m.buffers))
    ensures forall id :: PlayCount(m'.playing, id)
                         == PlayCount(m.playing, id) - FinishedCount(lib, period, m.buffers, id)
    ensures m'.masterVolume == m.masterVolume
    ensures Consistent(m) ==> Consistent(m')
  {
    var acc: seq<Si32> := seq(2 * period, _ => 0);
    var cur := m.buffers;
    var playing := m.playing;
    pulls := [];
    var idx := 0;
    MixInvariantInit(lib, period, m, acc);
    while idx < |cur|
      invariant MixInvariant(lib, period, m, cur, playing, acc, pulls, idx)
      decreases |cur| - idx
    {
      var b := cur[idx];
      var chunk := Pull(lib, period, b);
      RoomForChunk(lib, period, m, cur, acc, pulls, idx);
      var acc' := AddChunk(acc, chunk, b.volume);
      assert AddedChunk(period, acc, acc', lib, b);
      var advanced := b.(nextPosition := b.nextPosition + |chunk|);
      assert advanced == Advance(lib, period, b);
      if advanced.nextPosition == lib.duration(b.sound) || |chunk| == 0 {
        RemoveStep(lib, period, m, cur, playing, acc, acc', pulls, idx);
        playing := DecPlaying(playing, b.sound);
        cur := SwapRemove(cur, idx);
      } else {
        KeepStep(lib, period, m, cur, playing, acc, acc', pulls, idx);
        cur := cur[idx := advanced];
        idx := idx + 1;
      }
      acc := acc';
      pulls := pulls + [b];
    }
    m' := m.(buffers := cur, playing := playing);
    MixInvariantDone(lib, period, m, m', acc, pulls, idx);
    mix := acc;
  }

  /** Before a buffer is mixed, every accumulator entry has room for one
      more scaled sample. */
  lemma RoomForChunk(lib: Library, period: nat, m: Mixer, cur: seq<SoundBuffer>,
                     acc: seq<Si32>, pulls: seq<SoundBuffer>, idx: nat)
    requires FitsAccumulator(m.buffers)
    requires MixShape(period, m, cur, acc, pulls, idx) && idx < |cur|
    requires MixAccumulated(lib, period, m, cur, acc, |pulls|, idx)
    ensures -1.0 <= cur[idx].volume <= 1.0
    ensures 2 * |Pull(lib, period, cur[idx])| <= |acc|
    ensures forall k :: 0 <= k < |acc| ==> -Headroom <= acc[k] <= Headroom
  {
    assert |pulls| < MaxBuffers;
    assert FullScale * |pulls| <= Headroom;
  }

  lemma RemoveStep(lib: Library, period: nat, m: Mixer, cur: seq<SoundBuffer>,
                   playing: map<SoundId, int>, acc: seq<Si32>, acc': seq<Si32>,
                   pulls: seq<SoundBuffer>, idx: nat)
    requires MixInvariant(lib, period, m, cur, playing, acc, pulls, idx)
    requires idx < |cur| && Finished(lib, period, cur[idx])
    requires AddedChunk(period, acc, acc', lib, cur[idx])
    ensures MixInvariant(lib, period, m, SwapRemove(cur, idx), DecPlaying(playing, cur[idx].sound),
                         acc', pulls + [cur[idx]], idx)
  {
    RemoveShape(period, m, cur, acc, acc', pulls, idx);
    RemoveAccumulated(lib, period, m, cur, acc, acc', |pulls|, idx);
    RemoveSurvived(lib, period, m, cur, idx);
    RemoveCounted(lib, period, m, cur, playing, idx);
  }

  lemma KeepStep(lib: Library, period: nat, m: Mixer, cur: seq<SoundBuffer>,
                 playing: map<SoundId, int>, acc: seq<Si32>, acc': seq<Si32>,
                 pulls: seq<SoundBuffer>, idx: nat)
    requires MixInvariant(lib, period, m, cur, playing, acc, pulls, idx)
    requires idx < |cur| && !Finished(lib, period, cur[idx])
    requires AddedChunk(period, acc, acc', lib, cur[idx])
    ensures MixInvariant(lib, period, m, cur[idx := Advance(lib, period, cur[idx])], playing,
                         acc', pulls + [cur[idx]], idx + 1)
  {
    KeepShape(lib, period, m, cur, acc, acc', pulls, idx);
    KeepAccumulated(lib, period, m, cur, acc, acc', |pulls|, idx);
    KeepSurvived(lib, period, m, cur, idx);
    KeepCounted(lib, period, m, cur, playing, idx);
  }

  /** When every buffer has been asked, the invariant is the pass's contract. */
  lemma MixInvariantDone(lib: Library, period: nat, m: Mixer, m': Mixer, acc: seq<Si32>,
                         pulls: seq<SoundBuffer>, idx: nat)
    requires idx == |m'.buffers| && m'.masterVolume == m.masterVolume
    requires MixInvariant(lib, period, m, m'.buffers, m'.playing, acc, pulls, idx)
    ensures |acc| == 2 * period
    ensures forall k :: 0 <= k < 2 * period ==> acc[k] == MixAt(lib, period, m.buffers, k)
    ensures multiset(pulls) == multiset(m.buffers)
    ensures multiset(m'.buffers) == multiset(Survivors(lib, period, m.buffers))
    ensures forall id :: PlayCount(m'.playing, id)
                         == PlayCount(m.playing, id) - FinishedCount(lib, period, m.buffers, id)
    ensures Consistent(m) ==> Consistent(m')
  {
    var cur := m'.buffers;
    assert cur[..idx] == cur && cur[idx..] == [];
    if Consistent(m) {
      PassKeepsConsistent(lib, period, m, m');
    }
  }

  /** Each instance loses from its buffers exactly the ones the pass drops. */
  lemma {:induction false} SurvivorsOccurrences(lib: Library, period: nat, s: seq<SoundBuffer>, id: SoundId)
    ensures Occurrences(Survivors(lib, period, s), id)
            == Occurrences(s, id) - FinishedCount(lib, period, s, id)
  {
    if |s| > 0 {
      SurvivorsOccurrences(lib, period, s[1..], id);
      var head := if Finished(lib, period, s[0]) then [] else [Advance(lib, period, s[0])];
      assert Survivors(lib, period, s) == head + Survivors(lib, period, s[1..]);
      SumOfConcat(head, Survivors(lib, period, s[1..]), OfInstance(id));
    }
  }

  /** A pass lowers each instance's counter by the number of its buffers it
      drops, which keeps the counters consistent. */
  lemma PassKeepsConsistent(lib: Library, period: nat, m: Mixer, m': Mixer)
    requires Consistent(m)
    requires multiset(m'.buffers) == multiset(Survivors(lib, period, m.buffers))
    requires forall id :: PlayCount(m'.playing, id)
                          == PlayCount(m.playing, id) - FinishedCount(lib, period, m.buffers, id)
    ensures Consistent(m')
  {
    forall id
      ensures PlayCount(m'.playing, id) == Occurrences(m'.buffers, id)
    {
      SumOfPermutation(m'.buffers, Survivors(lib, period, m.buffers), OfInstance(id));
      SurvivorsOccurrences(lib, period, m.buffers, id);
    }
  }

  /** A buffer is in the list after a pass exactly when it is the advanced
      form of an unfinished buffer from before the pass. */
  lemma SurvivorsMember(lib: Library, period: nat, s: seq<SoundBuffer>, b: SoundBuffer)
    ensures b in Survivors(lib, period, s)
            <==> exists i :: 0 <= i < |s| && !Finished(lib, period, s[i]) && b == Advance(lib, period, s[i])
  {
    FilterMapMember(s, Surviving(lib, period), b);
    if b in Survivors(lib, period, s) {
      var i :| 0 <= i < |s| && Surviving(lib, period)(s[i]) == Some(b);
      assert !Finished(lib, period, s[i]) && b == Advance(lib, period, s[i]);
    }
    if exists i :: 0 <= i < |s| && !Finished(lib, period, s[i]) && b == Advance(lib, period, s[i]) {
      var i :| 0 <= i < |s| && !Finished(lib, period, s[i]) && b == Advance(lib, period, s[i]);
      assert Surviving(lib, period)(s[i]) == Some(b);
    }
  }

  // ---------------------------------------------------------------------
  // Output stage (outside the lock)

  /** std::min(std::max(val, -32767.0f), 32767.0f). */
  function Clamp(r: real): real
  {
    if r < -(OutputLimit as real) then -(OutputLimit as real)
    else if OutputLimit as real < r then OutputLimit as real
    else r
  }

  /** One output sample: the accumulated value times the master volume,
      saturated and truncated to 16 bits. */
  function OutputSample(mixed: int, master: real): (s: Si16)
    ensures -OutputLimit <= s <= OutputLimit
  {
    TruncBounds(Clamp(mixed as real * master), OutputLimit);
    Trunc(Clamp(mixed as real * master))
  }

  /** Saturation, not wrap-around: a loud sample sticks at the bound of its
      own sign, a quiet one is only truncated, and the sign never flips. */
  lemma OutputSampleSaturates(mixed: int, master: real)
    ensures mixed as real * master >= OutputLimit as real ==> OutputSample(mixed, master) == OutputLimit
    ensures mixed as real * master <= -(OutputLimit as real) ==> OutputSample(mixed, master) == -OutputLimit
    ensures -(OutputLimit as real) <= mixed as real * master <= OutputLimit as real
            ==> OutputSample(mixed, master) == Trunc(mixed as real * master)
    ensures OutputSample(mixed, master) > 0 ==> mixed as real * master > 0.0
    ensures OutputSample(mixed, master) < 0 ==> mixed as real * master < 0.0
  {
  }

  /** res & 0xff. */
  function LowByte(s: Si16): Ui8
  {
    s % 0x100
  }

  /** (res >> 8) & 0xff, with the arithmetic right shift of a signed value. */
  function HighByte(s: Si16): Ui8
  {
    (s / 0x100) % 0x100
  }

  /** Reading two bytes, low byte first, as a signed 16-bit value. */
  function DecodeLE(lo: Ui8, hi: Ui8): Si16
  {
    var u := lo + 0x100 * hi;
    if u >= 0x8000 then u - 0x10000 else u
  }

  /** Packing then reading back gives the sample. */
  lemma DecodeEncode(s: Si16)
    ensures DecodeLE(LowByte(s), HighByte(s)) == s
  {
  }

  /** Every byte pair is the packing of the value it reads as. */
  lemma EncodeDecode(lo: Ui8, hi: Ui8)
    ensures LowByte(DecodeLE(lo, hi)) == lo && HighByte(DecodeLE(lo, hi)) == hi
  {
  }

  /** The output loop: sample i goes to bytes 2i (low) and 2i+1 (high). */
  method Pack(mix: seq<int>, master: real) returns (out: seq<Ui8>)
    ensures |out| == 2 * |mix|
    ensures forall i :: 0 <= i < |mix| ==>
              DecodeLE(out[2 * i], out[2 * i + 1]) == OutputSample(mix[i], master)
  {
    out := [];
    var i := 0;
    while i < |mix|
      invariant 0 <= i <= |mix|
      invariant |out| == 2 * i
      invariant forall j :: 0 <= j < i ==>
                  DecodeLE(out[2 * j], out[2 * j + 1]) == OutputSample(mix[j], master)
    {
      var res := OutputSample(mix[i], master);
      DecodeEncode(res);
      out := out + [LowByte(res), HighByte(res)];
      i := i + 1;
    }
  }

  /** MixSound: the locked pass followed by the output stage. */
  method MixSound(lib: Library, period: nat, m: Mixer)
    returns (m': Mixer, out: seq<Ui8>, pulls: seq<SoundBuffer>)
    requires FitsAccumulator(m.buffers)
    ensures |out| == 4 * period
    ensures forall i :: 0 <= i < 2 * period ==>
              DecodeLE(out[2 * i], out[2 * i + 1])
              == OutputSample(MixAt(lib, period, m.buffers, i), m.masterVolume)
    ensures m.buffers == [] || m.masterVolume == 0.0 ==> forall j :: 0 <= j < |out| ==> out[j] == 0
    ensures multiset(pulls) == multiset(m.buffers)
    ensures multiset(m'.buffers) == multiset(Survivors(lib, period, m.buffers))
    ensures forall id :: PlayCount(m'.playing, id)
                         == PlayCount(m.playing, id) - FinishedCount(lib, period, m.buffers, id)
    ensures m'.masterVolume == m.masterVolume
    ensures Consistent(m) ==> Consistent(m')
  {
    var mix;
    m', mix, pulls := MixPass(lib, period, m);
    out := Pack(mix, m.masterVolume);
    if m.buffers == [] || m.masterVolume == 0.0 {
      forall i | 0 <= i < 2 * period
        ensures DecodeLE(out[2 * i], out[2 * i + 1]) == 0
      {
      }
      SilentBytes(out);
    }
  }

  /** Byte pairs that all read as 0 are all zero bytes. */
  lemma SilentBytes(out: seq<Ui8>)
    requires |out| % 2 == 0
    requires forall i :: 0 <= i < |out| / 2 ==> DecodeLE(out[2 * i], out[2 * i + 1]) == 0
    ensures forall j :: 0 <= j < |out| ==> out[j] == 0
  {
    forall j | 0 <= j < |out|
      ensures out[j] == 0
    {
      var i := j / 2;
      assert 0 <= i < |out| / 2 && (j == 2 * i || j == 2 * i + 1);
      EncodeDecode(out[2 * i], out[2 * i + 1]);
    }
  }

  /** One buffer at full volume and master volume 1 passes its samples
      through unchanged, except that -32768 is saturated to -32767; entries
      past the frames it produced stay silent. */
  lemma SingleBufferPassesThrough(lib: Library, period: nat, b: SoundBuffer, k: nat)
    requires b.volume == 1.0
    ensures var chunk := Pull(lib, period, b);
            OutputSample(MixAt(lib, period, [b], k), 1.0)
            == if k < 2 * |chunk| then
                 (if Interleaved(chunk, k) < -OutputLimit then -OutputLimit else Interleaved(chunk, k))
               else 0
  {
    var chunk := Pull(lib, period, b);
    assert [b][1..] == [];
    assert MixAt(lib, period, [b], k)
           == Contribution(lib, period, k)([b][0]) + SumOf([b][1..], Contribution(lib, period, k));
    assert MixAt(lib, period, [b], k) == ChunkAt(chunk, 1.0, k);
    if k < 2 * |chunk| {
      var x := Interleaved(chunk, k);
      assert x as real * 1.0 == x as real;
      TruncOfInt(x);
      assert MixAt(lib, period, [b], k) == x;
    }
  }
}
