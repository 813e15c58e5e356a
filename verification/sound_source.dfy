/** The sample source the mixer consumes (easy::Sound). Its decoding is not
    part of this model: a source is known only by its instance id, its
    duration in frames and a StreamOut function bounded by the request. */
module SoundSource {
  import opened Types

  /** Identity of a sound instance; the mixer compares sounds by instance. */
  type SoundId = nat

  /** One stereo frame: a left and a right 16-bit sample. */
  datatype Frame = Frame(left: Si16, right: Si16)

  /** StreamOut(id, position, n): the frames of sound id from frame position
      on, never more than the n frames asked for. */
  type StreamFn = f: (SoundId, nat, nat) -> seq<Frame>
    | forall id, pos, n :: |f(id, pos, n)| <= n
    witness (id: SoundId, pos: nat, n: nat) => []

  /** Every sound instance the mixer may see: DurationSamples and StreamOut. */
  datatype Library = Library(duration: SoundId -> int, stream: StreamFn)

  /** Sample j of a chunk laid out interleaved (left, right, left, ...). */
  function Interleaved(chunk: seq<Frame>, j: nat): Si16
    requires j < 2 * |chunk|
  {
    var f := chunk[j / 2];
    if j % 2 == 0 then f.left else f.right
  }
}
