# Atari800MacX core bridge and preference model, in Dafny

Atari800MacX runs the Atari 800 emulator inside a macOS front end. This project
models three parts of it:

- **The public C interface, `Atari800Core.h`** (module `CoreApi`). It defines:
  - the machine-model enumeration;
  - the active-low joystick direction codes, where each closed switch clears one bit of a nibble;
  - drive slots 1–8;
  - the disk-activity LED status ranges: 0 is off, 1–9 is a read and 10–18 is a write.
- **Its implementation, `Atari800Core.c`** (module `CoreBridge`). This is a class `Bridge` that holds:
  - the bridge's own state: staged stick nibbles, staged trigger levels and the four-bytes-per-pixel frame buffer (bytes red, green, blue, alpha);
  - the emulator globals the bridge reads or writes: the held-key slot, the PIA port bytes, the GTIA trigger registers, the palette, the indexed screen, the drive table, the speed, sound and display settings, and the LED status and sector.

  Every call into the emulator engine is appended to a ghost trace `calls`. The engine's results come in as parameters of the method that receives them.
- **The Swift `PreferenceModel`** (module `Preferences`). `PreferenceModel` is a class with one field per published property. `UserDefaults` is a class holding a `map` from keys to integer, boolean or double values. `load()` overwrites the fields from the store. `save()` writes twelve entries into it.

The palette conversion is a `while` loop over the byte buffer. It is proved equal to a recursive specification, `ArgbImage`. Lemmas about `ArgbImage` then give the byte layout of every pixel and show that alpha is always 0xFF. Load and save are proved against two pure functions, `Loaded` and `Saved`. The lemmas about those functions establish the round-trip and normalisation properties.

Where the comments (in the header, or in the C file itself) and the C code disagree, the model follows the code:

- **Machine model timing.** `SetMachineModel` calls the engine's machine re-initialisation immediately. The header says the change takes effect at the next cold reset.
- **Frame buffer.** The code has a single frame buffer. The header claims double-buffering.
- **Pixel byte order.** The header calls the frame buffer ARGB8888, and the comment above the conversion says each pixel is written as `0xFFRRGGBB`. The code writes each pixel's bytes as red, green, blue, then 0xFF (Atari800Core.c:80-83). The model follows the code.
- **Mount result.** The header says mounting a disk returns 1 on success and 0 on failure. The bridge returns the engine's mount result unchanged (Atari800Core.c:182). It is the only engine result the bridge does not map to 1 or 0.
- **Console keys.** The C file's comments speak of the console-key register and a console bit-clear (Atari800Core.c:294-302). The code instead makes `ConsoleKeyDown` and `ConsoleKeyUp` write the same held-key slot as `KeyDown` and `KeyUp`. `ConsoleKeyUp` clears that slot whatever key it is given.

## Model

| member | source | states |
|---|---|---|
| CoreApi.MachineModel.Value | apps/fuji-foundation/atari800-MacOSX/src/Atari800MacX/Atari800Core.h:28-32 | the model values are 0, 1 and 2; 0 is exactly the 400/800 and 1 exactly the XL/XE |
| CoreApi.MachineModelOf | apps/fuji-foundation/atari800-MacOSX/src/Atari800MacX/Atari800Core.h:28-32 | an integer names a model exactly when it is 0..2, and the named model has that value |
| CoreApi.MachineModelRoundTrip | apps/fuji-foundation/atari800-MacOSX/src/Atari800MacX/Atari800Core.h:28-32 | every model survives the trip through its integer value, so the three values are distinct |
| CoreApi.Switch.Mask | apps/fuji-foundation/atari800-MacOSX/src/Atari800MacX/Atari800Core.h:157-162 | each switch owns a single nonzero bit of the low nibble |
| CoreApi.JoyDirection.Code | apps/fuji-foundation/atari800-MacOSX/src/Atari800MacX/Atari800Core.h:157-167 | every direction code is at most 0x0F, and a switch's bit is clear exactly when that direction closes the switch (active low) |
| CoreApi.JoyDirectionOf | apps/fuji-foundation/atari800-MacOSX/src/Atari800MacX/Atari800Core.h:157-167 | a nibble that decodes to a direction is that direction's code |
| CoreApi.JoyDirectionRoundTrip | apps/fuji-foundation/atari800-MacOSX/src/Atari800MacX/Atari800Core.h:157-167 | decoding a direction's code gives the direction back |
| CoreApi.JoyCodesDistinct | apps/fuji-foundation/atari800-MacOSX/src/Atari800MacX/Atari800Core.h:157-167 | the nine direction codes are pairwise distinct |
| CoreApi.CardinalsClearOneBit | apps/fuji-foundation/atari800-MacOSX/src/Atari800MacX/Atari800Core.h:157-162 | centre is 0x0F, and Up, Down, Left and Right each clear exactly the bit of their own switch (bits 0, 1, 2, 3) |
| CoreApi.DiagonalsAreAndOfCardinals | apps/fuji-foundation/atari800-MacOSX/src/Atari800MacX/Atari800Core.h:159-166 | each diagonal is the bitwise AND of its two cardinals |
| CoreApi.NibbleMaskKeepsCodes | apps/fuji-foundation/atari800-MacOSX/src/Atari800MacX/Atari800Core.h:157-167 | the bridge's `& 0x0F` is the identity on every direction code |
| CoreApi.LedActivityOf | apps/fuji-foundation/atari800-MacOSX/src/Atari800MacX/Atari800Core.h:231-233 | 0 reads as off, 1–9 as a read and 10–18 as a write, and the ranges are disjoint; a read or write names a unit 1..9 |
| CoreApi.LedRoundTrip | apps/fuji-foundation/atari800-MacOSX/src/Atari800MacX/Atari800Core.h:231-233 | the LED status values 0..18 and the activities they report correspond one to one |
| CoreBridge.StickNibble | atari800-MacOSX/src/Atari800MacX/Atari800Core.c:289 | the staged stick is a nibble congruent to the direction modulo 16, and equals the direction when the direction is already a nibble |
| CoreBridge.StickNibbleOfDirection | atari800-MacOSX/src/Atari800MacX/Atari800Core.c:289 | staging a direction enumerator stores exactly its code |
| CoreBridge.TriggerLevel | atari800-MacOSX/src/Atari800MacX/Atari800Core.c:290 | the trigger level is 0 exactly when fire is pressed (nonzero) and 1 exactly when released |
| CoreBridge.PortByte | atari800-MacOSX/src/Atari800MacX/Atari800Core.c:115-116 | when both sticks are nibbles, the low nibble of the port byte is the even port's stick and the high nibble the odd port's |
| CoreBridge.PortBytes | atari800-MacOSX/src/Atari800MacX/Atari800Core.c:115-116 | two port bytes for four sticks; when all sticks are nibbles, each stick is recovered from its own nibble: sticks 0 and 1 from the first byte, sticks 2 and 3 from the second |
| CoreBridge.Normalise | atari800-MacOSX/src/Atari800MacX/Atari800Core.c:322-344 | a boolean setter or an engine result always yields 0 or 1, and 1 exactly for a nonzero input |
| CoreBridge.CartridgeResult | atari800-MacOSX/src/Atari800MacX/Atari800Core.c:209-217 | cartridge insertion reports 1 exactly when the engine's result is non-negative, and 0 otherwise |
| CoreBridge.TvSystemFor | atari800-MacOSX/src/Atari800MacX/Atari800Core.c:350-353 | mode 1 selects PAL and every other mode selects NTSC |
| CoreBridge.PixelBytes | atari800-MacOSX/src/Atari800MacX/Atari800Core.c:79-83 | a palette entry becomes four bytes whose first three reassemble its low 24 bits (R, G, B) and whose fourth is 0xFF |
| CoreBridge.ArgbImage | atari800-MacOSX/src/Atari800MacX/Atari800Core.c:68-86 | the converted image has four bytes per indexed pixel |
| CoreBridge.ArgbImageAt | atari800-MacOSX/src/Atari800MacX/Atari800Core.c:78-85 | bytes 4i..4i+3 of the image are the palette entry of pixel i, in R, G, B, A order |
| CoreBridge.ArgbImageOpaque | atari800-MacOSX/src/Atari800MacX/Atari800Core.c:83 | every alpha byte of the image is 0xFF |
| CoreBridge.Bridge.constructor | atari800-MacOSX/src/Atari800MacX/Atari800Core.c:47-59 | sticks start centred (0x0F) and triggers released (1), with no frame buffer; the bridge's arrays are freshly allocated |
| CoreBridge.Bridge.EnsureArgbBuffer | atari800-MacOSX/src/Atari800MacX/Atari800Core.c:61-66 | an existing buffer is kept, so the call is idempotent; a missing one is allocated fresh when allocation succeeds and stays null when it fails |
| CoreBridge.Bridge.ConvertScreenToArgb | atari800-MacOSX/src/Atari800MacX/Atari800Core.c:70-86 | with both buffers present, the output buffer becomes `ArgbImage` of the whole screen under the palette; with no screen it is unchanged |
| CoreBridge.Bridge.GetFrameBuffer | atari800-MacOSX/src/Atari800MacX/Atari800Core.c:168-173 | returns the current buffer (possibly null) and always reports 384 by 240 |
| CoreBridge.Bridge.Initialize | atari800-MacOSX/src/Atari800MacX/Atari800Core.c:92-108 | returns 1 exactly when engine initialisation succeeded and a buffer exists, otherwise 0; a failed engine start allocates nothing, and any new buffer is freshly allocated |
| CoreBridge.Bridge.RunFrame | atari800-MacOSX/src/Atari800MacX/Atari800Core.c:110-129 | pushes the staged sticks as two port bytes and the staged triggers unchanged before the engine frame, so the frame call records exactly those registers; it leaves the staged input as it was, converts the rendered frame and then advances the LED |
| CoreBridge.Bridge.PushStagedInput | atari800-MacOSX/src/Atari800MacX/Atari800Core.c:115-120 | port bytes are sticks 1:0 and 3:2 packed high:low, and the four trigger registers equal the staged triggers |
| CoreBridge.Bridge.EngineFrame | atari800-MacOSX/src/Atari800MacX/Atari800Core.c:122 | one engine frame call, which records the port and trigger registers it reads and leaves the rendered indices in the screen |
| CoreBridge.Bridge.WarmReset | atari800-MacOSX/src/Atari800MacX/Atari800Core.c:131-134 | exactly one warm-start call to the engine |
| CoreBridge.Bridge.ColdReset | atari800-MacOSX/src/Atari800MacX/Atari800Core.c:136-139 | exactly one cold-start call to the engine |
| CoreBridge.Bridge.Shutdown | atari800-MacOSX/src/Atari800MacX/Atari800Core.c:141-147 | one call of the engine's exit routine with argument 0, then the buffer is left null |
| CoreBridge.Bridge.SetMachineModel | atari800-MacOSX/src/Atari800MacX/Atari800Core.c:153-157 | sets the machine type to the model's value, then re-initialises the machine immediately |
| CoreBridge.Bridge.GetMachineModel | atari800-MacOSX/src/Atari800MacX/Atari800Core.c:159-162 | returns the engine's machine type unchecked |
| CoreBridge.Bridge.IsDiskMounted | atari800-MacOSX/src/Atari800MacX/Atari800Core.c:191-196 | 1 exactly for a slot in 1..8 whose status is neither off nor no-disk, else 0 |
| CoreBridge.Bridge.GetDiskPath | atari800-MacOSX/src/Atari800MacX/Atari800Core.c:198-203 | a path exactly when the slot is mounted, and then it is that slot's filename |
| CoreBridge.Bridge.MountDisk | atari800-MacOSX/src/Atari800MacX/Atari800Core.c:179-183 | a slot outside 1..8 returns 0 and touches neither the drive table nor the engine; otherwise one read-write mount call, whose result is returned unchanged (not normalised to 0 or 1) and which changes only that slot |
| CoreBridge.Bridge.UnmountDisk | atari800-MacOSX/src/Atari800MacX/Atari800Core.c:185-189 | a slot outside 1..8 changes nothing; otherwise one dismount call, which changes only that slot |
| CoreBridge.Bridge.InsertCartridge | atari800-MacOSX/src/Atari800MacX/Atari800Core.c:209-212 | one auto-reboot insert call, reporting 1 exactly for a non-negative engine result |
| CoreBridge.Bridge.InsertCartridge2 | atari800-MacOSX/src/Atari800MacX/Atari800Core.c:214-217 | one second-cartridge insert call, reporting 1 exactly for a non-negative engine result |
| CoreBridge.Bridge.RemoveCartridge | atari800-MacOSX/src/Atari800MacX/Atari800Core.c:219-222 | exactly one auto-reboot remove call |
| CoreBridge.Bridge.RemoveCartridge2 | atari800-MacOSX/src/Atari800MacX/Atari800Core.c:224-227 | exactly one second-cartridge remove call |
| CoreBridge.Bridge.MountCassette | atari800-MacOSX/src/Atari800MacX/Atari800Core.c:233-236 | one cassette insert call, reporting 1 exactly for a nonzero engine result |
| CoreBridge.Bridge.UnmountCassette | atari800-MacOSX/src/Atari800MacX/Atari800Core.c:238-241 | exactly one cassette remove call |
| CoreBridge.Bridge.LoadExecutable | atari800-MacOSX/src/Atari800MacX/Atari800Core.c:247-250 | one binary-load call, reporting 1 exactly for a nonzero engine result |
| CoreBridge.Bridge.SaveState | atari800-MacOSX/src/Atari800MacX/Atari800Core.c:256-259 | one verbose save-state call in mode "wb", reporting 1 exactly for a nonzero engine result |
| CoreBridge.Bridge.LoadState | atari800-MacOSX/src/Atari800MacX/Atari800Core.c:261-264 | one read-state call in mode "rb", reporting 1 exactly for a nonzero engine result |
| CoreBridge.Bridge.KeyDown | atari800-MacOSX/src/Atari800MacX/Atari800Core.c:270-273 | the held-key slot becomes the key |
| CoreBridge.Bridge.KeyUp | atari800-MacOSX/src/Atari800MacX/Atari800Core.c:275-278 | the held-key slot becomes "no key" |
| CoreBridge.Bridge.ConsoleKeyDown | atari800-MacOSX/src/Atari800MacX/Atari800Core.c:300-305 | a console key goes into the same held-key slot |
| CoreBridge.Bridge.ConsoleKeyUp | atari800-MacOSX/src/Atari800MacX/Atari800Core.c:307-311 | the held-key slot becomes "no key" whatever the argument |
| CoreBridge.Bridge.JoystickUpdate | atari800-MacOSX/src/Atari800MacX/Atari800Core.c:284-291 | a port outside 0..3 changes nothing; otherwise only that port's stick (the direction's low nibble) and trigger (active low) change |
| CoreBridge.Bridge.SetSpeed | atari800-MacOSX/src/Atari800MacX/Atari800Core.c:317-320 | the speed multiplier is stored as given |
| CoreBridge.Bridge.SetSpeedLimitEnabled | atari800-MacOSX/src/Atari800MacX/Atari800Core.c:322-325 | the speed limit flag becomes 0 or 1, 1 exactly for a nonzero argument |
| CoreBridge.Bridge.SetAudioEnabled | atari800-MacOSX/src/Atari800MacX/Atari800Core.c:331-334 | the sound flag becomes 0 or 1, 1 exactly for a nonzero argument |
| CoreBridge.Bridge.SetAudioVolume | atari800-MacOSX/src/Atari800MacX/Atari800Core.c:336-339 | the volume is stored as given |
| CoreBridge.Bridge.SetStereoEnabled | atari800-MacOSX/src/Atari800MacX/Atari800Core.c:341-344 | the stereo flag becomes 0 or 1, 1 exactly for a nonzero argument |
| CoreBridge.Bridge.SetTVMode | atari800-MacOSX/src/Atari800MacX/Atari800Core.c:350-353 | one TV-mode call: PAL for mode 1, NTSC for any other mode |
| CoreBridge.Bridge.SetArtifactingMode | atari800-MacOSX/src/Atari800MacX/Atari800Core.c:355-359 | the artifacting mode is stored unchecked, then the engine updates its artifacting |
| CoreBridge.Bridge.ApplyPreferences | atari800-MacOSX/src/Atari800MacX/Atari800Core.c:365-368 | exactly one commit of the preference struct |
| CoreBridge.Bridge.GetDiskLEDStatus | atari800-MacOSX/src/Atari800MacX/Atari800Core.c:374-377 | returns the engine's LED status |
| CoreBridge.Bridge.GetDiskLEDSector | atari800-MacOSX/src/Atari800MacX/Atari800Core.c:379-382 | returns the engine's LED sector |
| CoreBridge.StagedInputPersistsAcrossFrames | atari800-MacOSX/src/Atari800MacX/Atari800Core.c:110-129 | input staged once is seen by the engine in two frames with no new update: both frame calls carry the same registers, with Up in port 0's nibble and port 0's trigger pressed |
| CoreBridge.FirstFrameSession | atari800-MacOSX/src/Atari800MacX/Atari800Core.c:49-50 | a bridge built and initialised runs its first frame with every stick centred (port bytes 0xFF) and every trigger released, and a mount on slot 9 returns 0 without an engine call |
| Common.Option.GetOr | atari800-MacOSX/src/Atari800MacX/PreferenceModel.swift:62-63 | Swift's `??`: the wrapped value if present, else the fallback |
| Preferences.VideoMode.RawValue | atari800-MacOSX/src/Atari800MacX/PreferenceModel.swift:14-17 | NTSC is 0 and PAL is 1 |
| Preferences.VideoModeOf | atari800-MacOSX/src/Atari800MacX/PreferenceModel.swift:14-17 | a raw value names a video mode exactly when it is 0 or 1, and that mode has that raw value |
| Preferences.ScalingMode.RawValue | atari800-MacOSX/src/Atari800MacX/PreferenceModel.swift:22-25 | normal is 0 and scanline is 1 |
| Preferences.ScalingModeOf | atari800-MacOSX/src/Atari800MacX/PreferenceModel.swift:22-25 | a raw value names a scaling mode exactly when it is 0 or 1, and that mode has that raw value |
| Preferences.RawValueRoundTrip | atari800-MacOSX/src/Atari800MacX/PreferenceModel.swift:14-25 | both enumerations survive the trip through their raw values |
| Preferences.ReadersReturnStoredOrDefault | atari800-MacOSX/src/Atari800MacX/PreferenceModel.swift:62-74 | a missing key reads as 0, false and 0.0, and a freshly set value reads back as itself |
| Preferences.Loaded | atari800-MacOSX/src/Atari800MacX/PreferenceModel.swift:60-75 | after a load the video mode is PAL exactly when the stored TV mode is 1, the scaling mode is scanline exactly when the stored scale mode is 1, the scanline flag follows the scaling mode and brightness is untouched |
| Preferences.Written | atari800-MacOSX/src/Atari800MacX/PreferenceModel.swift:78-92 | save writes exactly the twelve persisted keys |
| Preferences.Saved | atari800-MacOSX/src/Atari800MacX/PreferenceModel.swift:78-92 | after a save the store holds its old keys plus the twelve persisted ones; the persisted keys hold the written values and every other key is unchanged |
| Preferences.SaveThenLoad | atari800-MacOSX/src/Atari800MacX/PreferenceModel.swift:60-92 | save followed by load restores all twelve persisted fields, derives the scanline flag from the scaling mode and leaves brightness as the loading model had it |
| Preferences.LoadThenSaveNormalisesModes | atari800-MacOSX/src/Atari800MacX/PreferenceModel.swift:62-63 | an out-of-range TV mode loads as NTSC and an out-of-range scale mode as normal, so a later save stores only 0 or 1 for both |
| Preferences.RawIntegersPassThrough | atari800-MacOSX/src/Atari800MacX/PreferenceModel.swift:68-72 | the machine model and the artifacting mode load as whatever integers are stored, and save as whatever integers the settings hold, with no range check either way |
| Preferences.LoadEmptyStore | atari800-MacOSX/src/Atari800MacX/PreferenceModel.swift:60-75 | loading from any store that holds none of the persisted keys, whatever other keys it holds, turns every flag off and reads both numbers as 0 and the volume as 0.0, which differs from the initialiser defaults |
| Preferences.PreferenceModel.constructor | atari800-MacOSX/src/Atari800MacX/PreferenceModel.swift:35-55 | a fresh model holds the declared defaults: NTSC, normal scaling, XL/XE, speed limit on, BASIC disabled, sound on, stereo off, artifacting 0 |
| Preferences.PreferenceModel.Load | atari800-MacOSX/src/Atari800MacX/PreferenceModel.swift:60-75 | the model's properties become `Loaded` of the store, with the model's own brightness kept |
| Preferences.PreferenceModel.Save | atari800-MacOSX/src/Atari800MacX/PreferenceModel.swift:78-92 | the store becomes `Saved` of its previous contents and the model's current properties |
| Preferences.DefaultsSurviveSaveAndLoad | atari800-MacOSX/src/Atari800MacX/PreferenceModel.swift:35-92 | a fresh model saved and reloaded by another fresh model reads back exactly the defaults |

## Left out

- **Engine internals are left out.** This covers engine initialisation, frame emulation, the LED state machine, disk mount and dismount, cartridge, cassette, binary loading, save states, the preference commit and the TV mode switch. Each appears only as an entry in the ghost call trace. Its result is a parameter of the bridge method: `engineOk`, `ret`, `sioResult`, or the drive slot after the call. Image-format validation and the save-state layout are not visible, so no round trip is stated for them.
- CoreBridge.Bridge.MountDisk does not promise the header's 1-or-0 result. That holds only if the engine's `SIO_Mount` returns 0 or 1, because the bridge passes its result through unchanged.
- CoreBridge.Bridge.MountDisk and UnmountDisk assume the engine's mount and dismount change only the addressed drive slot.
- CoreBridge.Bridge.EngineFrame models a frame only as rendering a new indexed screen. The engine's other per-frame effects, including any change to the held key or the staged registers, are not modelled.
- The engine loads the palette and sets up the indexed screen during initialisation. The model instead gives both to the `Bridge` constructor; `Initialize` sets neither.
- CoreBridge.Bridge.constructor assumes no key is held when the bridge is loaded. The held-key slot is an engine global whose initial value is not part of this model. "No key" is taken as -1, the engine's `AKEY_NONE` (akey.h is not part of this model).
- CoreBridge.Bridge.constructor gives the port and trigger registers, the speed and sound settings and the LED arbitrary placeholder values. The engine's own start-up values are not part of this model, and no contract depends on them.
- CoreBridge.Bridge.SetMachineModel assumes the engine's machine type afterwards is the value passed in.
- **Threads are left out.** This covers the emulation thread, the header's promised double-buffering and any publication of the frame buffer.
- CoreBridge.Bridge.GetDiskPath returns the filename as a value. The C function returns a pointer into the engine's filename table. A path read before a remount therefore shows the new name afterwards in C; this aliasing is not modelled.
- CoreBridge.Bridge.GetFrameBuffer always reports the width and height. The C function's NULL checks on its out-pointers are not modelled.
- **Floating-point values are opaque.** Speed, volume and brightness are 64-bit patterns passed through without arithmetic.
- Preferences.IntegerFor, BoolFor and DoubleFor assume a missing key or a value of another kind reads as 0, false or 0.0. Foundation's conversions between kinds, such as a stored string read as an integer, are not modelled.
- **Preference keys.** `PreferenceKeys.h` is not part of this model. The twelve keys are a datatype, and so they are assumed to be distinct.
- Preferences.PreferenceModel.Save writes the twelve entries in one map union, not as twelve separate `set` calls. The keys are distinct, so the final store is the same; the intermediate stores are not modelled.
- **Not modelled:** the GUI views, the panel coordinator, the about box, the Metal view, the key mapper and the Objective-C engine facade.
