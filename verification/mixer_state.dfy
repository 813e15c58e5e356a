/** The shared mixer state (SoundMixerState) and the playback-control entry
    points that change it under the mixer lock: StartSoundBuffer,
    StopSoundBuffer, SetMasterVolume and GetMasterVolume. Each locked
    operation is one atomic step on the state. */
module MixerState {
  import opened Collections
  import opened SoundSource

  /** One playing sound: its source instance, its volume and the next frame
      the mixer will ask the source for. */
  datatype SoundBuffer = SoundBuffer(sound: SoundId, volume: real, nextPosition: nat)

  /** The mixer state together with the play counters (IncPlaying /
      DecPlaying) of the sound instances; an instance missing from the map
      has count 0. */
  datatype Mixer = Mixer(masterVolume: real, buffers: seq<SoundBuffer>, playing: map<SoundId, int>)

  /** The master volume the mixer starts with (0.7f). */
  const InitialMasterVolume: real := 0.7

  function PlayCount(playing: map<SoundId, int>, id: SoundId): int
  {
    if id in playing then playing[id] else 0
  }

  function IncPlaying(playing: map<SoundId, int>, id: SoundId): map<SoundId, int>
  {
    playing[id := PlayCount(playing, id) + 1]
  }

  function DecPlaying(playing: map<SoundId, int>, id: SoundId): map<SoundId, int>
  {
    playing[id := PlayCount(playing, id) - 1]
  }

  /** 1 for a buffer of instance id, 0 otherwise. */
  function OfInstance(id: SoundId): SoundBuffer -> int
  {
    (b: SoundBuffer) => if b.sound == id then 1 else 0
  }

  /** The number of buffers that play instance id. */
  function Occurrences(buffers: seq<SoundBuffer>, id: SoundId): int
  {
    SumOf(buffers, OfInstance(id))
  }

  /** Keeps the buffers of every instance other than id. */
  function NotOfInstance(id: SoundId): SoundBuffer -> Option<SoundBuffer>
  {
    (b: SoundBuffer) => if b.sound == id then None else Some(b)
  }

  /** The buffers that do not play instance id, in their original order. */
  function Without(buffers: seq<SoundBuffer>, id: SoundId): seq<SoundBuffer>
  {
    FilterMap(buffers, NotOfInstance(id))
  }

  /** Every instance's play counter equals the number of buffers playing it. */
  ghost predicate Consistent(m: Mixer)
  {
    forall id :: PlayCount(m.playing, id) == Occurrences(m.buffers, id)
  }

  /** The mixer before any sound is started, with every play counter at 0. */
  function Initial(): (m: Mixer)
    ensures m.masterVolume == InitialMasterVolume && m.buffers == []
    ensures Consistent(m)
  {
    Mixer(InitialMasterVolume, [], map[])
  }

  /** StartSoundBuffer: one more buffer at the end, at frame 0, and the
      instance's play counter up by one. */
  function Start(m: Mixer, sound: SoundId, volume: real): (m': Mixer)
    ensures m'.buffers == m.buffers + [SoundBuffer(sound, volume, 0)]
    ensures PlayCount(m'.playing, sound) == PlayCount(m.playing, sound) + 1
    ensures forall id :: id != sound ==> PlayCount(m'.playing, id) == PlayCount(m.playing, id)
    ensures m'.masterVolume == m.masterVolume
  {
    m.(buffers := m.buffers + [SoundBuffer(sound, volume, 0)],
       playing := IncPlaying(m.playing, sound))
  }

  /** StopSoundBuffer: the swap-remove loop over the buffers. After a
      removal the same index is examined again (StopSoundBuffer decrements
      its unsigned index, which wraps at 0, before the loop increments it). */
  method Stop(m: Mixer, sound: SoundId) returns (m': Mixer)
    ensures forall i :: 0 <= i < |m'.buffers| ==> m'.buffers[i].sound != sound
    ensures multiset(m'.buffers) == multiset(Without(m.buffers, sound))
    ensures PlayCount(m'.playing, sound) == PlayCount(m.playing, sound) - Occurrences(m.buffers, sound)
    ensures forall id :: id != sound ==> PlayCount(m'.playing, id) == PlayCount(m.playing, id)
    ensures m'.masterVolume == m.masterVolume
    ensures Occurrences(m.buffers, sound) == 0 ==> m' == m
    ensures Consistent(m) ==> Consistent(m')
  {
    var cur := m.buffers;
    var playing := m.playing;
    var idx := 0;
    while idx < |cur|
      invariant idx <= |cur|
      invariant StopFrom(sound, cur, playing, idx) == StopFrom(sound, m.buffers, m.playing, 0)
      decreases |cur| - idx
    {
      if cur[idx].sound == sound {
        playing := DecPlaying(playing, sound);
        cur := SwapRemove(cur, idx);
      } else {
        idx := idx + 1;
      }
    }
    m' := m.(buffers := cur, playing := playing);
    StopInvariantInit(m, sound);
    StopFromMeets(m, sound, m.buffers, m.playing, 0);
    StopInvariantDone(m, m', sound, idx);
  }

  /** The buffers and counters Stop's loop ends with when it starts at idx
      with the given buffers and counters. */
  function StopFrom(sound: SoundId, cur: seq<SoundBuffer>, playing: map<SoundId, int>,
                    idx: nat): (seq<SoundBuffer>, map<SoundId, int>)
    requires idx <= |cur|
    decreases |cur| - idx
  {
    if idx == |cur| then (cur, playing)
    else if cur[idx].sound == sound then
      StopFrom(sound, SwapRemove(cur, idx), DecPlaying(playing, sound), idx)
    else
      StopFrom(sound, cur, playing, idx + 1)
  }

  /** Run to the end, Stop's loop leaves its invariant holding with every
      buffer examined. */
  lemma {:induction false} StopFromMeets(m: Mixer, sound: SoundId, cur: seq<SoundBuffer>,
                                         playing: map<SoundId, int>, idx: nat)
    requires StopInvariant(m, sound, cur, playing, idx)
    ensures StopInvariant(m, sound, StopFrom(sound, cur, playing, idx).0,
                          StopFrom(sound, cur, playing, idx).1,
                          |StopFrom(sound, cur, playing, idx).0|)
    decreases |cur| - idx
  {
    if idx < |cur| {
      StopStep(m, sound, cur, playing, idx);
      if cur[idx].sound == sound {
        StopFromMeets(m, sound, SwapRemove(cur, idx), DecPlaying(playing, sound), idx);
      } else {
        StopFromMeets(m, sound, cur, playing, idx + 1);
      }
    }
  }

  lemma StopInvariantInit(m: Mixer, sound: SoundId)
    ensures StopInvariant(m, sound, m.buffers, m.playing, 0)
  {
    assert m.buffers[..0] == [] && m.buffers[0..] == m.buffers;
  }

  /** When every buffer has been examined, the invariant is Stop's contract. */
  lemma StopInvariantDone(m: Mixer, m': Mixer, sound: SoundId, idx: nat)
    requires m'.masterVolume == m.masterVolume && idx == |m'.buffers|
    requires StopInvariant(m, sound, m'.buffers, m'.playing, idx)
    ensures forall i :: 0 <= i < |m'.buffers| ==> m'.buffers[i].sound != sound
    ensures multiset(m'.buffers) == multiset(Without(m.buffers, sound))
    ensures PlayCount(m'.playing, sound) == PlayCount(m.playing, sound) - Occurrences(m.buffers, sound)
    ensures forall id :: id != sound ==> PlayCount(m'.playing, id) == PlayCount(m.playing, id)
    ensures Occurrences(m.buffers, sound) == 0 ==> m' == m
    ensures Consistent(m) ==> Consistent(m')
  {
    var cur := m'.buffers;
    assert cur[..idx] == cur && cur[idx..] == [];
    forall i | 0 <= i < |cur|
      ensures cur[i].sound != sound
    {
      if cur[i].sound == sound {
        OccurrencesPositive(cur, i, sound);
      }
    }
    forall id | id != sound
      ensures PlayCount(m'.playing, id) == PlayCount(m.playing, id)
    {
      assert id in m'.playing <==> id in m'.playing - {sound};
      assert id in m.playing <==> id in m.playing - {sound};
    }
    if Consistent(m) {
      WithoutKeepsConsistent(m, m', sound);
    }
  }

  /** What Stop's loop keeps: the buffers before idx are the kept ones seen
      so far, those from idx on are still to be examined, and the counter of
      the stopped instance went down once per buffer removed. */
  ghost predicate StopInvariant(m: Mixer, sound: SoundId, cur: seq<SoundBuffer>,
                                playing: map<SoundId, int>, idx: nat)
  {
    && idx <= |cur|
    && StopKept(m, sound, cur, idx)
    && StopCounted(m, sound, cur, playing, idx)
    && (Occurrences(m.buffers, sound) == 0 ==> cur == m.buffers && playing == m.playing)
  }

  ghost predicate StopKept(m: Mixer, sound: SoundId, cur: seq<SoundBuffer>, idx: nat)
    requires idx <= |cur|
  {
    && Occurrences(cur[..idx], sound) == 0
    && multiset(cur[..idx]) + multiset(Without(cur[idx..], sound)) == multiset(Without(m.buffers, sound))
  }

  ghost predicate StopCounted(m: Mixer, sound: SoundId, cur: seq<SoundBuffer>,
                              playing: map<SoundId, int>, idx: nat)
    requires idx <= |cur|
  {
    && PlayCount(playing, sound) - Occurrences(cur[idx..], sound)
       == PlayCount(m.playing, sound) - Occurrences(m.buffers, sound)
    && playing - {sound} == m.playing - {sound}
  }

  /** One iteration of Stop keeps its invariant, whether it removes or keeps. */
  lemma StopStep(m: Mixer, sound: SoundId, cur: seq<SoundBuffer>,
                 playing: map<SoundId, int>, idx: nat)
    requires StopInvariant(m, sound, cur, playing, idx)
    requires idx < |cur|
    ensures cur[idx].sound == sound ==>
              StopInvariant(m, sound, SwapRemove(cur, idx), DecPlaying(playing, sound), idx)
    ensures cur[idx].sound != sound ==> StopInvariant(m, sound, cur, playing, idx + 1)
  {
    if cur[idx].sound == sound {
      StopRemoveStep(m, sound, cur, playing, idx);
    } else {
      StopKeepStep(m, sound, cur, playing, idx);
    }
  }

  lemma StopRemoveStep(m: Mixer, sound: SoundId, cur: seq<SoundBuffer>,
                       playing: map<SoundId, int>, idx: nat)
    requires StopInvariant(m, sound, cur, playing, idx)
    requires idx < |cur| && cur[idx].sound == sound
    ensures StopInvariant(m, sound, SwapRemove(cur, idx), DecPlaying(playing, sound), idx)
  {
    OccurrencesPositive(cur, idx, sound);
    StopRemoveKept(m, sound, cur, idx);
    StopRemoveCounted(m, sound, cur, playing, idx);
  }

  lemma StopRemoveKept(m: Mixer, sound: SoundId, cur: seq<SoundBuffer>, idx: nat)
    requires idx < |cur| && cur[idx].sound == sound
    requires StopKept(m, sound, cur, idx)
    ensures StopKept(m, sound, SwapRemove(cur, idx), idx)
  {
    var tail := cur[idx..];
    assert tail[1..] == cur[idx + 1..];
    var r := SwapRemove(cur, idx);
    FilterMapPermutation(r[idx..], tail[1..], NotOfInstance(sound));
    assert Without(tail, sound) == Without(tail[1..], sound);
  }

  lemma StopRemoveCounted(m: Mixer, sound: SoundId, cur: seq<SoundBuffer>,
                          playing: map<SoundId, int>, idx: nat)
    requires idx < |cur| && cur[idx].sound == sound
    requires StopCounted(m, sound, cur, playing, idx)
    ensures StopCounted(m, sound, SwapRemove(cur, idx), DecPlaying(playing, sound), idx)
  {
    var tail := cur[idx..];
    assert tail[1..] == cur[idx + 1..];
    var r := SwapRemove(cur, idx);
    SumOfPermutation(r[idx..], tail[1..], OfInstance(sound));
    assert Occurrences(tail, sound) == 1 + Occurrences(tail[1..], sound);
    assert DecPlaying(playing, sound) - {sound} == playing - {sound};
  }

  lemma StopKeepStep(m: Mixer, sound: SoundId, cur: seq<SoundBuffer>,
                     playing: map<SoundId, int>, idx: nat)
    requires StopInvariant(m, sound, cur, playing, idx)
    requires idx < |cur| && cur[idx].sound != sound
    ensures StopInvariant(m, sound, cur, playing, idx + 1)
  {
    var tail := cur[idx..];
    assert tail[1..] == cur[idx + 1..];
    assert cur[..idx + 1] == cur[..idx] + [cur[idx]];
    SumOfConcat(cur[..idx], [cur[idx]], OfInstance(sound));
    assert Without(tail, sound) == [cur[idx]] + Without(tail[1..], sound);
    assert Occurrences(tail, sound) == Occurrences(tail[1..], sound);
  }

  /** Removing every buffer of one instance, and lowering that instance's
      counter by their number, keeps the counters consistent. */
  lemma WithoutKeepsConsistent(m: Mixer, m': Mixer, sound: SoundId)
    requires Consistent(m)
    requires multiset(m'.buffers) == multiset(Without(m.buffers, sound))
    requires PlayCount(m'.playing, sound) == PlayCount(m.playing, sound) - Occurrences(m.buffers, sound)
    requires forall id :: id != sound ==> PlayCount(m'.playing, id) == PlayCount(m.playing, id)
    ensures Consistent(m')
  {
    forall id
      ensures PlayCount(m'.playing, id) == Occurrences(m'.buffers, id)
    {
      SumOfPermutation(m'.buffers, Without(m.buffers, sound), OfInstance(id));
      OccurrencesWithout(m.buffers, sound, id);
    }
  }

  /** SetMasterVolume: stores the value as given, without clamping. */
  function SetMasterVolume(m: Mixer, volume: real): (m': Mixer)
    ensures m'.buffers == m.buffers && m'.playing == m.playing
  {
    m.(masterVolume := volume)
  }

  /** GetMasterVolume. */
  function GetMasterVolume(m: Mixer): real
  {
    m.masterVolume
  }

  /** The master volume read back is the last one set, unclamped, and
      setting it changes nothing else. */
  lemma GetAfterSet(m: Mixer, volume: real)
    ensures GetMasterVolume(SetMasterVolume(m, volume)) == volume
    ensures Consistent(m) ==> Consistent(SetMasterVolume(m, volume))
  {
  }

  lemma {:induction false} OccurrencesPositive(s: seq<SoundBuffer>, i: nat, id: SoundId)
    requires i < |s| && s[i].sound == id
    ensures Occurrences(s[i..], id) >= 1 && Occurrences(s, id) >= 1
  {
    OccurrencesNonNegative(s[i..][1..], id);
    assert s == s[..i] + s[i..];
    SumOfConcat(s[..i], s[i..], OfInstance(id));
    OccurrencesNonNegative(s[..i], id);
  }

  lemma {:induction false} OccurrencesNonNegative(s: seq<SoundBuffer>, id: SoundId)
    ensures Occurrences(s, id) >= 0
  {
    if |s| > 0 {
      OccurrencesNonNegative(s[1..], id);
    }
  }

  /** Removing the buffers of one instance leaves none of it and every
      other instance's buffers untouched. */
  lemma {:induction false} OccurrencesWithout(s: seq<SoundBuffer>, sound: SoundId, id: SoundId)
    ensures Occurrences(Without(s, sound), id) == if id == sound then 0 else Occurrences(s, id)
  {
    if |s| > 0 {
      OccurrencesWithout(s[1..], sound, id);
      var head := if s[0].sound == sound then [] else [s[0]];
      assert Without(s, sound) == head + Without(s[1..], sound);
      SumOfConcat(head, Without(s[1..], sound), OfInstance(id));
    }
  }

  /** A buffer survives Stop exactly when it plays another instance. */
  lemma WithoutMember(s: seq<SoundBuffer>, sound: SoundId, b: SoundBuffer)
    ensures b in Without(s, sound) <==> b in s && b.sound != sound
  {
    FilterMapMember(s, NotOfInstance(sound), b);
  }

  /** Starting a sound keeps every counter equal to its number of buffers. */
  lemma {:induction false} StartKeepsConsistent(m: Mixer, sound: SoundId, volume: real)
    requires Consistent(m)
    ensures Consistent(Start(m, sound, volume))
    ensures Occurrences(Start(m, sound, volume).buffers, sound) == Occurrences(m.buffers, sound) + 1
  {
    var m' := Start(m, sound, volume);
    forall id
      ensures Occurrences(m'.buffers, id) == Occurrences(m.buffers, id) + (if id == sound then 1 else 0)
    {
      SumOfConcat(m.buffers, [SoundBuffer(sound, volume, 0)], OfInstance(id));
    }
  }
}
