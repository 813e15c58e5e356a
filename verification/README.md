# Arctic engine: software sound mixer and Windows key mapping

This project models two pieces of the Arctic engine in Dafny and proves
properties of them.

The first piece is the software mixer of the Raspberry Pi sound backend. The
mixer state holds a master volume and a list of sound buffers. Each buffer has
a sound instance, a volume and a playback cursor. The model covers:

- StartSoundBuffer, StopSoundBuffer, SetMasterVolume and GetMasterVolume, each
  one atomic step on that state;
- MixSound, one mixing pass per audio period. Every buffer is asked for up to
  one period of frames. The frames are scaled by the buffer's volume and summed
  into a signed 32-bit accumulator. Finished buffers are swap-removed. The
  accumulator is then scaled by the master volume, saturated to 16 bits and
  packed little-endian;
- SoundPlayerImpl's Initialize / Deinitialize guard.

The sound instances' play counters (IncPlaying / DecPlaying) are part of the
state. The invariant `Consistent` says that every counter equals the number of
buffers playing that instance.

The second piece is the Windows keyboard path. TranslateKeyCode maps a Win32
virtual-key code to the engine's KeyCode, and OnKey turns one key event into
one keyboard input message.

Modules, one per file:

- `Types`: fixed-width integers and the truncating float-to-int cast.
- `Collections`: sums, filter-maps and swap-remove over sequences, with their
  permutation lemmas.
- `SoundSource`: the sound source as the mixer sees it: a duration and a
  StreamOut function.
- `MixerState`: the shared state and the locked control operations.
- `MixEngine`: the mixing pass and the output stage.
- `SoundPlayer`: the Initialize / Deinitialize guard.
- `KeyInput`: key translation and key messages.

The mixing pass and StopSoundBuffer are methods with loops, like the source.
Each is checked against an order-independent reference:

- `MixAt` is the sum of every buffer's contribution to one accumulator entry.
- `Survivors` is the list of unfinished buffers, advanced, in their original
  order.
- `Without` is the list of buffers of every other instance.

Swap-removal reorders the buffers. So the buffer lists are compared as
multisets, and each sum is shown not to depend on the order of its summands.

## Model

| member | source | states |
|---|---|---|
| Collections.SwapRemove | engine/arctic_platform_pi_sound.cpp:117-122 | Overwriting slot i with the last element and dropping the last leaves one element fewer. Everything before i is untouched, and from i on the elements are those that followed i, as a multiset: exactly the one element at i is gone. |
| MixerState.Initial | engine/arctic_platform_pi_sound.cpp:94-98 | The mixer starts with master volume 0.7, no buffers and consistent play counters. |
| MixerState.Start | engine/arctic_platform_pi_sound.cpp:101-109 | A started sound is appended as the last buffer, at frame 0 and with its volume. Only that instance's play counter changes, and it goes up by one. The master volume is unchanged. |
| MixerState.StartKeepsConsistent | engine/arctic_platform_pi_sound.cpp:101-109 | Starting a sound keeps every play counter equal to its number of buffers. The started instance gains exactly one buffer. |
| MixerState.Stop | engine/arctic_platform_pi_sound.cpp:111-126 | Afterwards no buffer plays the stopped instance. The remaining buffers are those of every other instance, as a multiset. The instance's counter drops once per removed buffer, and other counters are unchanged. If the instance was not playing, nothing changes. Consistency is preserved. |
| MixerState.StopFromMeets | engine/arctic_platform_pi_sound.cpp:113-125 | The swap-remove loop keeps its invariant to the end. That invariant says the examined prefix holds no buffer of the instance, and the prefix plus the unexamined rest still hold exactly the other instances' buffers. |
| MixerState.OccurrencesWithout | engine/arctic_platform_pi_sound.cpp:111-126 | Removing one instance's buffers leaves none of that instance, and every other instance keeps its number of buffers. |
| MixerState.WithoutMember | engine/arctic_platform_pi_sound.cpp:111-126 | A buffer is kept by Stop exactly when it was present and plays another instance. |
| MixerState.WithoutKeepsConsistent | engine/arctic_platform_pi_sound.cpp:111-126 | Removing an instance's buffers and lowering its counter by their number keeps every counter consistent. |
| MixerState.SetMasterVolume | engine/arctic_platform_pi_sound.cpp:128-131 | Setting the master volume leaves the buffers and the play counters untouched. |
| MixerState.GetAfterSet | engine/arctic_platform_pi_sound.cpp:128-136 | GetMasterVolume reads back exactly the last value SetMasterVolume stored, with no clamping, and setting it keeps consistency. |
| Types.Trunc | engine/arctic_platform_pi_sound.cpp:175-178 | The float-to-int cast truncates toward zero: the result is the integer between the value and zero that is less than one away from the value. |
| Types.TruncBounds | engine/arctic_platform_pi_sound.cpp:175-178 | Truncation stays within any symmetric bound on its argument, and never flips the sign. |
| MixEngine.ScaleBound | engine/arctic_platform_pi_sound.cpp:175-178 | A 16-bit sample scaled by a volume of magnitude at most 1 has magnitude at most 32768. |
| MixEngine.Pull | engine/arctic_platform_pi_sound.cpp:170-172 | StreamOut never returns more frames than the one period asked for. |
| MixEngine.Advance | engine/arctic_platform_pi_sound.cpp:174-180 | Mixing a buffer moves its cursor by exactly the number of frames produced. Sound and volume are kept. |
| MixEngine.AddChunk | engine/arctic_platform_pi_sound.cpp:174-180 | Frame i of a chunk, scaled by the volume, is added to accumulator entries 2i (left) and 2i+1 (right). Entries past the chunk are unchanged. |
| MixEngine.MixPass | engine/arctic_platform_pi_sound.cpp:155-192 | Each accumulator entry equals the sum over all buffers of their scaled samples, in any order. Every buffer is pulled exactly once. The remaining buffers are the unfinished ones, advanced, as a multiset. Each counter drops by the number of its instance's finished buffers. Consistency is preserved. |
| MixEngine.SurvivorsOccurrences | engine/arctic_platform_pi_sound.cpp:182-190 | An instance keeps all its buffers except the ones the pass finishes. |
| MixEngine.PassKeepsConsistent | engine/arctic_platform_pi_sound.cpp:182-190 | Lowering each counter by its finished buffers keeps the counters consistent with the surviving buffers. |
| MixEngine.SurvivorsMember | engine/arctic_platform_pi_sound.cpp:182-190 | A buffer survives a pass exactly when it is the advanced form of a buffer that did not reach its duration and did produce frames. |
| MixEngine.OutputSample | engine/arctic_platform_pi_sound.cpp:196-197 | An output sample never exceeds 32767 in magnitude. |
| MixEngine.OutputSampleSaturates | engine/arctic_platform_pi_sound.cpp:196-197 | A scaled value at or beyond the bound sticks at +-32767 of its own sign. A value within the bound is only truncated. The sign never flips, so there is no wrap-around. |
| MixEngine.DecodeEncode | engine/arctic_platform_pi_sound.cpp:198-199 | Reading the two output bytes, low byte first, as a signed 16-bit value gives back the sample. |
| MixEngine.EncodeDecode | engine/arctic_platform_pi_sound.cpp:198-199 | Every byte pair is the packing of the value it reads as, so the packing is a bijection. |
| MixEngine.Pack | engine/arctic_platform_pi_sound.cpp:194-200 | The output has two bytes per accumulator entry. Bytes 2i and 2i+1 read back as the saturated, master-scaled entry i. |
| MixEngine.MixSound | engine/arctic_platform_pi_sound.cpp:155-201 | The output has four bytes per frame of the period. Each byte pair reads back as the saturated, master-scaled sum of every buffer's contribution. With no buffers, or a master volume of 0, every byte is 0. The buffer and counter effects are those of the pass. |
| MixEngine.SilentBytes | engine/arctic_platform_pi_sound.cpp:198-199 | Byte pairs that all read as 0 are all zero bytes. |
| MixEngine.SingleBufferPassesThrough | engine/arctic_platform_pi_sound.cpp:174-199 | One buffer at volume 1 with master volume 1 reproduces its samples, except that -32768 becomes -32767. Entries past the frames produced are 0. |
| SoundPlayer.Step | engine/arctic_platform_pi_sound.cpp:371-385 | Initialize starts the mixer exactly when the player is stopped. Deinitialize stops it exactly when the player is running. After the call, the player is running exactly when the call was Initialize. |
| SoundPlayer.RunAlternates | engine/arctic_platform_pi_sound.cpp:371-385 | From a stopped player, any sequence of calls starts and stops the mixer alternately, beginning with a start. The player is running exactly when the number of actions is odd. |
| SoundPlayer.RepeatIsNoOp | engine/arctic_platform_pi_sound.cpp:371-385 | Repeating Initialize or Deinitialize has no effect. |
| KeyInput.TranslateKeyCode | engine/arctic_platform_windows.cpp:81-190 | The letters, digits, F1-F12 and numpad digits map to the key at the same offset in their run of the engine's key codes, checked before the switch. Every other virtual key goes to the switch table (SwitchKey), whose default is kKeyUnknown; the table's entries are pinned down by the three lemmas below. |
| KeyInput.TranslateReachesEveryKey | engine/arctic_platform_windows.cpp:81-190 | Every key code other than kKeyUnknown is produced, from its own virtual key. |
| KeyInput.TranslateIsInjective | engine/arctic_platform_windows.cpp:81-190 | A recognised key code comes from exactly one virtual key: the translation is one-to-one. |
| KeyInput.UnknownExactlyWhenUnlisted | engine/arctic_platform_windows.cpp:81-190 | A virtual key maps to kKeyUnknown exactly when no key code comes from it. |
| KeyInput.OnKey | engine/arctic_platform_windows.cpp:192-199 | Exactly one keyboard message is pushed, after the existing ones, which are untouched. It carries the translated key. Its state is 1 exactly for a press and 2 exactly for a release. |
| KeyInput.OnKeyIdentifiesKey | engine/arctic_platform_windows.cpp:192-199 | The pushed message carries kKeyUnknown exactly when no key code comes from the virtual key; otherwise its key code is the one whose virtual key it is. |

Notes on the code as modelled:

- StopSoundBuffer and MixSound decrement their unsigned index after a removal.
  At index 0 this wraps, and the loop's increment brings it back to 0. Either
  way the same index is examined again, and that is how both loops are modelled.
- MixSound drops a buffer only when its cursor equals the sound's duration
  after the pass, or when StreamOut produced no frame. A short but non-empty
  read does not drop it.
- One buffer at volume 1 with master volume 1 reproduces its samples, except
  that a sample of -32768 comes out as -32767, because the output clamp of
  MixSound is -32767..32767 (engine/arctic_platform_pi_sound.cpp:197).
  `MixEngine.SingleBufferPassesThrough` states this.

## Left out

- ALSA device handling, the sound thread, the period and buffer timing and the
  asynchronous callback (`engine/arctic_platform_pi_sound.cpp` after line 201,
  except Initialize / Deinitialize): device I/O and threads. StartSoundMixer and
  StopSoundMixer appear only as the actions `StartMixer` / `StopMixer`.
- GetDeviceList: it enumerates ALSA device hints, which is device I/O.
- The mixer mutex and the `do_quit` atomic: each locked operation is modelled as
  one atomic step.
- Floating-point rounding: volumes and products are exact reals, so 0.7f is
  0.7. Only the truncating cast to an integer is modelled.
- The internals of easy::Sound (decoding, IncPlaying / DecPlaying storage,
  StreamOut's copy into the temporary buffer). A source is an abstract
  duration and an abstract StreamOut bounded by the frames requested. The
  counters are a map in the mixer state.
- The 32-bit `next_position` cursor is an unbounded natural, because its
  overflow needs more than 2^31 frames of one sound.
- MixEngine.MixPass: requires at most 65535 buffers and every volume within
  [-1, 1]. Otherwise the 32-bit accumulator can overflow, which is undefined
  behaviour in the source.
- MixEngine.MixSound: carries the same requirement as MixEngine.MixPass, for the
  same reason.
- The rest of the Windows platform file (window creation, the message pump
  and OpenGL setup), and the WM_PAINT case that falls through into the
  key handling: window-system I/O.
- The engine's KeyCode enumeration header is not part of this model. Key codes
  are a datatype whose four contiguous runs are one constructor each, carrying
  the offset. The virtual-key values are the public Win32 ones.
- easy_sprite.h and the EGL platform file are not part of this model.
