/** The C bridge between the host GUI and the emulation engine: staged
    joystick and key input, the per-frame push of that input into the
    engine's hardware registers, the palette conversion of the indexed screen
    into a 4-byte-per-pixel buffer, disk-slot bookkeeping and the small
    normalising setters.

    Engine routines are not part of this model. Each call the bridge makes
    into the engine is appended to the ghost trace `calls`, and whatever such
    a call returns or leaves behind is a parameter of the bridge operation
    that makes it. */
module CoreBridge {
  import opened Common
  import opened CoreApi

  // ---------------------------------------------------------------------
  // Constants
  // ---------------------------------------------------------------------

  /** `Screen_WIDTH` and `Screen_HEIGHT`. */
  const FrameWidth: int := 384
  const FrameHeight: int := 240
  const FramePixels: int := FrameWidth * FrameHeight
  /** Four output bytes per pixel. */
  const FrameBytes: int := FramePixels * 4

  /** `AKEY_NONE`, the "no key held" code of the engine's key table. */
  const AkeyNone: int := -1

  // ---------------------------------------------------------------------
  // Engine vocabulary
  // ---------------------------------------------------------------------

  /** The engine's TV standards. */
  datatype TvSystem = TvNtsc | TvPal

  /** The engine's per-drive status. */
  datatype DriveStatus = SioOff | SioNoDisk | SioReadOnly | SioReadWrite

  /** One drive slot of the engine: `SIO_drive_status[i]` and `SIO_filename[i]`. */
  datatype DriveSlot = DriveSlot(status: DriveStatus, filename: string)

  /** The engine routines the bridge calls, with the arguments it passes. */
  datatype EngineCall =
    | Initialise
    | Frame(ports: seq<bv8>, trigs: seq<bv8>)
    | LedFrame
    | Warmstart
    | Coldstart
    | Exit(arg: int)
    | SetMachineType(machineType: int)
    | InitialiseMachine
    | SioMount(drive: int, path: string, readOnly: bool)
    | SioDismount(drive: int)
    | CartridgeInsertAutoReboot(path: string)
    | CartridgeInsertSecond(path: string)
    | CartridgeRemoveAutoReboot
    | CartridgeRemoveSecond
    | CassetteInsert(path: string)
    | CassetteRemove
    | BinaryLoad(path: string)
    | SaveAtariState(path: string, mode: string, verbose: int)
    | ReadAtariState(path: string, mode: string)
    | SetTvMode(tv: TvSystem)
    | UpdateArtifacting
    | CommitPrefs

  // ---------------------------------------------------------------------
  // Value mappings
  // ---------------------------------------------------------------------

  /** `(unsigned char)(direction & 0x0F)`: the low nibble of a C int. On a
      two's-complement int the low four bits are the Euclidean remainder
      modulo 16, whatever the sign. */
  function StickNibble(direction: int): (c: bv8)
    ensures c <= 0x0F
    ensures 0 <= direction <= 0x0F ==> c as int == direction
    ensures (direction - c as int) % 16 == 0
  {
    (direction % 16) as bv8
  }

  /** Staging an enumerator stores its own code. */
  lemma StickNibbleOfDirection(d: JoyDirection)
    ensures StickNibble(d.Code() as int) == d.Code()
  {
  }

  /** `fire ? 0 : 1`: GTIA trigger levels are active low. */
  function TriggerLevel(fire: int): (t: bv8)
    ensures t == 0 <==> FirePressed(fire)
    ensures t == 1 <==> !FirePressed(fire)
  {
    if fire != 0 then 0 else 1
  }

  /** `(unsigned char)((high << 4) | low)`: two sticks packed into one PIA
      port byte, the odd port in the high nibble. Shifting within eight bits
      drops what the cast to `unsigned char` drops. When both sticks are
      nibbles, each can be recovered from the byte. */
  function PortByte(low: bv8, high: bv8): (p: bv8)
    ensures low <= 0x0F && high <= 0x0F ==> p & 0x0F == low && p >> 4 == high
  {
    (high << 4) | low
  }

  /** The two PIA port bytes for the four staged sticks. */
  function PortBytes(sticks: seq<bv8>): (p: seq<bv8>)
    requires |sticks| == JoyPorts
    ensures |p| == 2
    ensures (forall k :: 0 <= k < JoyPorts ==> sticks[k] <= 0x0F) ==>
      && p[0] & 0x0F == sticks[0] && p[0] >> 4 == sticks[1]
      && p[1] & 0x0F == sticks[2] && p[1] >> 4 == sticks[3]
  {
    [PortByte(sticks[0], sticks[1]), PortByte(sticks[2], sticks[3])]
  }

  /** `x ? 1 : 0`: the boolean setters and the engine's BOOL results. */
  function Normalise(x: int): (b: int)
    ensures b == 0 || b == 1
    ensures b == 1 <==> x != 0
  {
    if x != 0 then 1 else 0
  }

  /** Cartridge insertion reports a negative error or a non-negative type. */
  function CartridgeResult(ret: int): (r: int)
    ensures r == 0 || r == 1
    ensures r == 1 <==> ret >= 0
  {
    if ret >= 0 then 1 else 0
  }

  /** `mode == 1 ? PAL : NTSC`. */
  function TvSystemFor(mode: int): (tv: TvSystem)
    ensures tv == TvPal <==> mode == 1
    ensures tv == TvNtsc <==> mode != 1
  {
    if mode == 1 then TvPal else TvNtsc
  }

  /** A drive holds a disk when it is attached read-only or read-write. */
  predicate HoldsDisk(s: DriveStatus) {
    s.SioReadOnly? || s.SioReadWrite?
  }

  // ---------------------------------------------------------------------
  // Palette conversion
  // ---------------------------------------------------------------------

  /** The four output bytes of one palette entry `0x00RRGGBB`: red, green,
      blue and an opaque alpha. */
  function PixelBytes(rgb: bv32): (p: seq<bv8>)
    ensures |p| == 4 && p[3] == 0xFF
    ensures ((p[0] as bv32) << 16) | ((p[1] as bv32) << 8) | (p[2] as bv32) == rgb & 0x00FF_FFFF
  {
    [((rgb >> 16) & 0xFF) as bv8, ((rgb >> 8) & 0xFF) as bv8, (rgb & 0xFF) as bv8, 0xFF]
  }

  /** The converted image of an indexed screen: each index looked up in the
      256-entry palette and expanded to its four bytes, in screen order. */
  function ArgbImage(src: seq<bv8>, palette: seq<bv32>): (r: seq<bv8>)
    requires |palette| == 256
    ensures |r| == 4 * |src|
    decreases |src|
  {
    if src == [] then []
    else ArgbImage(src[..|src| - 1], palette) + PixelBytes(palette[src[|src| - 1] as int])
  }

  /** Bytes `4i .. 4i+3` of the image are pixel `i`'s palette entry. */
  lemma {:induction false} ArgbImageAt(src: seq<bv8>, palette: seq<bv32>, i: int)
    requires |palette| == 256
    requires 0 <= i < |src|
    ensures ArgbImage(src, palette)[4 * i .. 4 * i + 4] == PixelBytes(palette[src[i] as int])
  {
    var init := src[..|src| - 1];
    if i < |src| - 1 {
      ArgbImageAt(init, palette, i);
      assert init[i] == src[i];
    }
  }

  /** Every fourth byte of the image, the alpha channel, is 0xFF. */
  lemma ArgbImageOpaque(src: seq<bv8>, palette: seq<bv32>)
    requires |palette| == 256
    ensures forall k :: 0 <= k < 4 * |src| && k % 4 == 3 ==> ArgbImage(src, palette)[k] == 0xFF
  {
    forall k | 0 <= k < 4 * |src| && k % 4 == 3
      ensures ArgbImage(src, palette)[k] == 0xFF
    {
      var i := k / 4;
      ArgbImageAt(src, palette, i);
      assert ArgbImage(src, palette)[k] == ArgbImage(src, palette)[4 * i .. 4 * i + 4][3];
    }
  }

  // ---------------------------------------------------------------------
  // The bridge and the engine state it touches
  // ---------------------------------------------------------------------

  class Bridge {
    // State owned by the bridge.
    /** `s_stick`: staged stick nibble per port. */
    var stick: array<bv8>
    /** `s_trig`: staged trigger level per port. */
    var trig: array<bv8>
    /** `s_argb_buffer`: the converted frame, or null. */
    var argb: array?<bv8>

    // Engine state the bridge reads or writes.
    /** `INPUT_key_code`: the single held-key slot. */
    var keyCode: int
    /** `PIA_PORT_input`: two stick nibbles per byte. */
    var portInput: array<bv8>
    /** `GTIA_TRIG`: trigger level per port. */
    var gtiaTrig: array<bv8>
    /** `colortable`: the 256-entry palette, `0x00RRGGBB` per entry. */
    var colortable: array<bv32>
    /** `Screen_atari`: one palette index per pixel, or null. */
    var screen: array?<bv8>
    /** The drive table, slot `d` at index `d - 1`. */
    var drives: seq<DriveSlot>
    var speedLimit: int
    var soundEnabled: int
    var stereoEnabled: int
    var emulationSpeed: Double
    var soundVolume: Double
    var artifMode: int
    var machineType: int
    var ledStatus: int
    var ledSector: int
    /** Every engine routine called so far, in order. */
    ghost var calls: seq<EngineCall>

    /** The byte arrays are pairwise distinct objects. */
    ghost predicate Separate()
      reads this
    {
      && stick != trig && stick != portInput && stick != gtiaTrig
      && trig != portInput && trig != gtiaTrig && portInput != gtiaTrig
      && screen != stick && screen != trig && screen != portInput && screen != gtiaTrig
      && argb != stick && argb != trig && argb != portInput && argb != gtiaTrig
      && (argb != null ==> argb != screen)
    }

    /** Sizes of the tables and the staging invariant: every staged stick is
        a nibble and every staged trigger is 0 or 1. */
    ghost predicate Valid()
      reads this, stick, trig
    {
      && Separate()
      && stick.Length == JoyPorts && trig.Length == JoyPorts
      && portInput.Length == 2 && gtiaTrig.Length == JoyPorts
      && colortable.Length == 256
      && (screen != null ==> screen.Length == FramePixels)
      && (argb != null ==> argb.Length == FrameBytes)
      && |drives| == MaxDrives
      && (forall k :: 0 <= k < JoyPorts ==> stick[k] <= 0x0F)
      && (forall k :: 0 <= k < JoyPorts ==> trig[k] <= 1)
    }

    /** The bridge as loaded: sticks centred, triggers released, no frame
        buffer, no key held; the engine's palette, screen, drive table and
        machine type as given. */
    constructor (palette: array<bv32>, indexed: array?<bv8>, table: seq<DriveSlot>, machine: int)
      requires palette.Length == 256
      requires indexed != null ==> indexed.Length == FramePixels
      requires |table| == MaxDrives
      ensures Valid()
      ensures stick[..] == [0x0F, 0x0F, 0x0F, 0x0F] && trig[..] == [1, 1, 1, 1]
      ensures argb == null && keyCode == AkeyNone
      ensures colortable == palette && screen == indexed && drives == table
      ensures machineType == machine && calls == []
      ensures fresh(stick) && fresh(trig) && fresh(portInput) && fresh(gtiaTrig)
    {
      stick := new bv8[4](_ => 0x0F);
      trig := new bv8[4](_ => 1);
      argb := null;
      keyCode := AkeyNone;
      // The engine's own start-up values for the registers, the settings and
      // the LED are not part of this model; the ones below are placeholders
      // that no contract depends on.
      portInput := new bv8[2];
      gtiaTrig := new bv8[4](_ => 1);
      colortable := palette;
      screen := indexed;
      drives := table;
      speedLimit, soundEnabled, stereoEnabled := 1, 1, 0;
      emulationSpeed, soundVolume := DoubleOne, DoubleOne;
      artifMode, machineType := 0, machine;
      ledStatus, ledSector := 0, 0;
      calls := [];
      new;
      assert stick[..] == [0x0F, 0x0F, 0x0F, 0x0F];
      assert trig[..] == [1, 1, 1, 1];
    }

    // -------------------------------------------------------------------
    // Frame buffer
    // -------------------------------------------------------------------

    /** `ensure_argb_buffer`: allocate only when there is no buffer yet
        (`mallocOk` is whether the allocation succeeds). */
    method EnsureArgbBuffer(mallocOk: bool)
      requires Valid()
      modifies this`argb
      ensures Valid()
      ensures old(argb) != null ==> argb == old(argb)
      ensures old(argb) == null && mallocOk ==> argb != null && fresh(argb)
      ensures old(argb) == null && !mallocOk ==> argb == null
    {
      if argb == null && mallocOk {
        argb := new bv8[FrameBytes];
      }
    }

    /** `convert_screen_to_argb`: with both buffers present, the output is
        the palette image of the screen; otherwise nothing changes. */
    method ConvertScreenToArgb()
      requires Valid()
      modifies argb
      ensures Valid()
      ensures argb != null && screen != null ==> argb[..] == ArgbImage(screen[..], colortable[..])
      ensures argb != null && screen == null ==> argb[..] == old(argb[..])
    {
      if argb == null || screen == null {
        return;
      }
      var src, dst := screen, argb;
      ghost var palette := colortable[..];
      var n := FramePixels;
      var i, o := 0, 0;
      while i < n
        invariant 0 <= i <= n && o == 4 * i
        invariant dst[..o] == ArgbImage(src[..i], palette)
      {
        var rgb := colortable[src[i] as int];
        dst[o] := ((rgb >> 16) & 0xFF) as bv8;
        dst[o + 1] := ((rgb >> 8) & 0xFF) as bv8;
        dst[o + 2] := (rgb & 0xFF) as bv8;
        dst[o + 3] := 0xFF;
        assert dst[..o + 4] == dst[..o] + PixelBytes(rgb);
        assert src[..i + 1][..i] == src[..i];
        o := o + 4;
        i := i + 1;
      }
      assert src[..n] == src[..];
      assert dst[..o] == dst[..];
    }

    /** `Atari800Core_GetFrameBuffer`: the current buffer and the fixed
        frame size. */
    method GetFrameBuffer() returns (buffer: array?<bv8>, width: int, height: int)
      ensures buffer == argb
      ensures width == 384 && height == 240
    {
      buffer, width, height := argb, FrameWidth, FrameHeight;
    }

    // -------------------------------------------------------------------
    // Lifecycle
    // -------------------------------------------------------------------

    /** `Atari800Core_Initialize`: success needs both the engine's start-up
        (`engineOk`) and a frame buffer. */
    method Initialize(engineOk: bool, mallocOk: bool) returns (r: int)
      requires Valid()
      modifies this`argb, this`calls
      ensures Valid()
      ensures calls == old(calls) + [Initialise]
      ensures r == 1 <==> engineOk && argb != null
      ensures r == 0 || r == 1
      ensures !engineOk ==> argb == old(argb)
      ensures engineOk && old(argb) != null ==> argb == old(argb)
      ensures engineOk && old(argb) == null ==> (argb != null <==> mallocOk)
      ensures argb != old(argb) ==> fresh(argb)
    {
      calls := calls + [Initialise];
      if !engineOk {
        return 0;
      }
      EnsureArgbBuffer(mallocOk);
      r := if argb != null then 1 else 0;
    }

    /** `Atari800Core_RunFrame`: push the staged input into the registers,
        run one engine frame (which leaves `rendered` in the screen), convert
        the screen, and advance the LED (which reports `led` and `sector`).
        The staged input itself is left as it was. */
    method RunFrame(rendered: seq<bv8>, led: int, sector: int)
      requires Valid()
      requires |rendered| == FramePixels
      modifies this`calls, this`ledStatus, this`ledSector, portInput, gtiaTrig, screen, argb
      ensures Valid()
      ensures portInput[..] == PortBytes(stick[..])
      ensures gtiaTrig[..] == trig[..]
      ensures stick[..] == old(stick[..]) && trig[..] == old(trig[..])
      ensures screen != null ==> screen[..] == rendered
      ensures argb != null && screen != null ==> argb[..] == ArgbImage(rendered, colortable[..])
      ensures argb != null && screen == null ==> argb[..] == old(argb[..])
      ensures calls == old(calls) + [Frame(PortBytes(old(stick[..])), old(trig[..])), LedFrame]
      ensures ledStatus == led && ledSector == sector
    {
      PushStagedInput();
      EngineFrame(rendered);
      ConvertScreenToArgb();
      calls := calls + [LedFrame];
      ledStatus, ledSector := led, sector;
    }

    /** The register push at the start of a frame: sticks 0 and 1 into the
        first port byte, sticks 2 and 3 into the second, triggers copied. */
    method PushStagedInput()
      requires Valid()
      modifies portInput, gtiaTrig
      ensures Valid()
      ensures portInput[..] == PortBytes(stick[..])
      ensures gtiaTrig[..] == trig[..]
    {
      portInput[0] := PortByte(stick[0], stick[1]);
      portInput[1] := PortByte(stick[2], stick[3]);
      gtiaTrig[0] := trig[0];
      gtiaTrig[1] := trig[1];
      gtiaTrig[2] := trig[2];
      gtiaTrig[3] := trig[3];
      assert portInput[..] == PortBytes(stick[..]);
      assert gtiaTrig[..] == trig[..];
    }

    /** The engine's frame, which reads the port and trigger registers as
        they stand and leaves `rendered` in the indexed screen. */
    method EngineFrame(rendered: seq<bv8>)
      requires Valid()
      requires |rendered| == FramePixels
      modifies this`calls, screen
      ensures Valid()
      ensures screen != null ==> screen[..] == rendered
      ensures calls == old(calls) + [Frame(old(portInput[..]), old(gtiaTrig[..]))]
    {
      calls := calls + [Frame(portInput[..], gtiaTrig[..])];
      if screen != null {
        forall i | 0 <= i < screen.Length {
          screen[i] := rendered[i];
        }
        assert screen[..] == rendered;
      }
    }

    /** `Atari800Core_WarmReset`. */
    method WarmReset()
      modifies this`calls
      ensures calls == old(calls) + [Warmstart]
    {
      calls := calls + [Warmstart];
    }

    /** `Atari800Core_ColdReset`. */
    method ColdReset()
      modifies this`calls
      ensures calls == old(calls) + [Coldstart]
    {
      calls := calls + [Coldstart];
    }

    /** `Atari800Core_Shutdown`: the buffer is released and null afterwards. */
    method Shutdown()
      requires Valid()
      modifies this`argb, this`calls
      ensures Valid()
      ensures argb == null
      ensures calls == old(calls) + [Exit(0)]
    {
      calls := calls + [Exit(0)];
      argb := null;
    }

    // -------------------------------------------------------------------
    // Machine configuration
    // -------------------------------------------------------------------

    /** `Atari800Core_SetMachineModel`: the engine's machine type becomes the
        model's value and the machine is re-initialised at once. */
    method SetMachineModel(model: MachineModel)
      modifies this`calls, this`machineType
      ensures machineType == model.Value()
      ensures calls == old(calls) + [SetMachineType(model.Value()), InitialiseMachine]
    {
      calls := calls + [SetMachineType(model.Value())];
      machineType := model.Value();
      calls := calls + [InitialiseMachine];
    }

    /** `Atari800Core_GetMachineModel`: the engine's machine type, unchecked. */
    method GetMachineModel() returns (m: int)
      ensures m == machineType
    {
      m := machineType;
    }

    // -------------------------------------------------------------------
    // Disk drives
    // -------------------------------------------------------------------

    /** `Atari800Core_IsDiskMounted`: 1 exactly for a drive slot in range
        whose drive holds a disk. */
    function IsDiskMounted(drive: int): (r: int)
      reads this
      requires |drives| == MaxDrives
      ensures r == 0 || r == 1
      ensures r == 1 <==> IsDriveSlot(drive) && HoldsDisk(drives[drive - 1].status)
    {
      if drive < 1 || drive > MaxDrives then 0
      else if drives[drive - 1].status != SioOff && drives[drive - 1].status != SioNoDisk then 1
      else 0
    }

    /** `Atari800Core_GetDiskPath`: the slot's file name when a disk is
        mounted, NULL otherwise. */
    function GetDiskPath(drive: int): (p: Option<string>)
      reads this
      requires |drives| == MaxDrives
      ensures p.Some? <==> IsDiskMounted(drive) == 1
      ensures p.Some? ==> p.value == drives[drive - 1].filename
    {
      if drive < 1 || drive > MaxDrives then None
      else if IsDiskMounted(drive) == 0 then None
      else Some(drives[drive - 1].filename)
    }

    /** `Atari800Core_MountDisk`: out of range, 0 and no engine call;
        otherwise the engine mounts read-write, its result (`sioResult`) is
        returned as is, and the slot becomes what the engine leaves there
        (`after`). */
    method MountDisk(drive: int, path: string, sioResult: int, after: DriveSlot) returns (r: int)
      requires |drives| == MaxDrives
      modifies this`drives, this`calls
      ensures |drives| == MaxDrives
      ensures !IsDriveSlot(drive) ==> r == 0 && drives == old(drives) && calls == old(calls)
      ensures IsDriveSlot(drive) ==> r == sioResult
      ensures IsDriveSlot(drive) ==> drives == old(drives)[drive - 1 := after]
      ensures IsDriveSlot(drive) ==> calls == old(calls) + [SioMount(drive, path, false)]
    {
      if drive < 1 || drive > MaxDrives {
        return 0;
      }
      calls := calls + [SioMount(drive, path, false)];
      drives := drives[drive - 1 := after];
      r := sioResult;
    }

    /** `Atari800Core_UnmountDisk`: out of range, a no-op; otherwise the
        engine dismounts and the slot becomes what it leaves there. */
    method UnmountDisk(drive: int, after: DriveSlot)
      requires |drives| == MaxDrives
      modifies this`drives, this`calls
      ensures |drives| == MaxDrives
      ensures !IsDriveSlot(drive) ==> drives == old(drives) && calls == old(calls)
      ensures IsDriveSlot(drive) ==> drives == old(drives)[drive - 1 := after]
      ensures IsDriveSlot(drive) ==> calls == old(calls) + [SioDismount(drive)]
    {
      if drive < 1 || drive > MaxDrives {
        return;
      }
      calls := calls + [SioDismount(drive)];
      drives := drives[drive - 1 := after];
    }

    // -------------------------------------------------------------------
    // Cartridges, cassette, executables, save states
    // -------------------------------------------------------------------

    /** `Atari800Core_InsertCartridge`: primary slot, with automatic reboot. */
    method InsertCartridge(path: string, ret: int) returns (r: int)
      modifies this`calls
      ensures r == CartridgeResult(ret)
      ensures calls == old(calls) + [CartridgeInsertAutoReboot(path)]
    {
      calls := calls + [CartridgeInsertAutoReboot(path)];
      r := CartridgeResult(ret);
    }

    /** `Atari800Core_InsertCartridge2`: pass-through slot, no reboot. */
    method InsertCartridge2(path: string, ret: int) returns (r: int)
      modifies this`calls
      ensures r == CartridgeResult(ret)
      ensures calls == old(calls) + [CartridgeInsertSecond(path)]
    {
      calls := calls + [CartridgeInsertSecond(path)];
      r := CartridgeResult(ret);
    }

    /** `Atari800Core_RemoveCartridge`. */
    method RemoveCartridge()
      modifies this`calls
      ensures calls == old(calls) + [CartridgeRemoveAutoReboot]
    {
      calls := calls + [CartridgeRemoveAutoReboot];
    }

    /** `Atari800Core_RemoveCartridge2`. */
    method RemoveCartridge2()
      modifies this`calls
      ensures calls == old(calls) + [CartridgeRemoveSecond]
    {
      calls := calls + [CartridgeRemoveSecond];
    }

    /** `Atari800Core_MountCassette`. */
    method MountCassette(path: string, ret: int) returns (r: int)
      modifies this`calls
      ensures r == Normalise(ret)
      ensures calls == old(calls) + [CassetteInsert(path)]
    {
      calls := calls + [CassetteInsert(path)];
      r := Normalise(ret);
    }

    /** `Atari800Core_UnmountCassette`. */
    method UnmountCassette()
      modifies this`calls
      ensures calls == old(calls) + [CassetteRemove]
    {
      calls := calls + [CassetteRemove];
    }

    /** `Atari800Core_LoadExecutable`. */
    method LoadExecutable(path: string, ret: int) returns (r: int)
      modifies this`calls
      ensures r == Normalise(ret)
      ensures calls == old(calls) + [BinaryLoad(path)]
    {
      calls := calls + [BinaryLoad(path)];
      r := Normalise(ret);
    }

    /** `Atari800Core_SaveState`: written in mode "wb", verbosely. */
    method SaveState(path: string, ret: int) returns (r: int)
      modifies this`calls
      ensures r == Normalise(ret)
      ensures calls == old(calls) + [SaveAtariState(path, "wb", 1)]
    {
      calls := calls + [SaveAtariState(path, "wb", 1)];
      r := Normalise(ret);
    }

    /** `Atari800Core_LoadState`: read in mode "rb". */
    method LoadState(path: string, ret: int) returns (r: int)
      modifies this`calls
      ensures r == Normalise(ret)
      ensures calls == old(calls) + [ReadAtariState(path, "rb")]
    {
      calls := calls + [ReadAtariState(path, "rb")];
      r := Normalise(ret);
    }

    // -------------------------------------------------------------------
    // Keyboard and joystick
    // -------------------------------------------------------------------

    /** `Atari800Core_KeyDown`: the held-key slot becomes `akey`. */
    method KeyDown(akey: int)
      modifies this`keyCode
      ensures keyCode == akey
    {
      keyCode := akey;
    }

    /** `Atari800Core_KeyUp`: the held-key slot is cleared. */
    method KeyUp()
      modifies this`keyCode
      ensures keyCode == AkeyNone
    {
      keyCode := AkeyNone;
    }

    /** `Atari800Core_ConsoleKeyDown`: console keys share the held-key slot. */
    method ConsoleKeyDown(key: int)
      modifies this`keyCode
      ensures keyCode == key
    {
      keyCode := key;
    }

    /** `Atari800Core_ConsoleKeyUp`: clears the slot whatever `key` is. */
    method ConsoleKeyUp(key: int)
      modifies this`keyCode
      ensures keyCode == AkeyNone
    {
      keyCode := AkeyNone;
    }

    /** `Atari800Core_JoystickUpdate`: a port outside 0..3 changes nothing;
        otherwise only that port's stick and trigger are restaged. */
    method JoystickUpdate(port: int, direction: int, fire: int)
      requires Valid()
      modifies stick, trig
      ensures Valid()
      ensures !IsJoyPort(port) ==> stick[..] == old(stick[..]) && trig[..] == old(trig[..])
      ensures IsJoyPort(port) ==> stick[..] == old(stick[..])[port := StickNibble(direction)]
      ensures IsJoyPort(port) ==> trig[..] == old(trig[..])[port := TriggerLevel(fire)]
    {
      if port < 0 || port > 3 {
        return;
      }
      stick[port] := StickNibble(direction);
      trig[port] := TriggerLevel(fire);
    }

    // -------------------------------------------------------------------
    // Speed, audio, display, preferences, LED
    // -------------------------------------------------------------------

    /** `Atari800Core_SetSpeed`: stored as given. */
    method SetSpeed(multiplier: Double)
      modifies this`emulationSpeed
      ensures emulationSpeed == multiplier
    {
      emulationSpeed := multiplier;
    }

    /** `Atari800Core_SetSpeedLimitEnabled`: stores exactly 0 or 1. */
    method SetSpeedLimitEnabled(enabled: int)
      modifies this`speedLimit
      ensures speedLimit == Normalise(enabled)
    {
      speedLimit := Normalise(enabled);
    }

    /** `Atari800Core_SetAudioEnabled`: stores exactly 0 or 1. */
    method SetAudioEnabled(enabled: int)
      modifies this`soundEnabled
      ensures soundEnabled == Normalise(enabled)
    {
      soundEnabled := Normalise(enabled);
    }

    /** `Atari800Core_SetAudioVolume`: stored as given. */
    method SetAudioVolume(volume: Double)
      modifies this`soundVolume
      ensures soundVolume == volume
    {
      soundVolume := volume;
    }

    /** `Atari800Core_SetStereoEnabled`: stores exactly 0 or 1. */
    method SetStereoEnabled(enabled: int)
      modifies this`stereoEnabled
      ensures stereoEnabled == Normalise(enabled)
    {
      stereoEnabled := Normalise(enabled);
    }

    /** `Atari800Core_SetTVMode`: 1 selects PAL, every other value NTSC. */
    method SetTVMode(mode: int)
      modifies this`calls
      ensures calls == old(calls) + [SetTvMode(TvSystemFor(mode))]
    {
      calls := calls + [SetTvMode(if mode == 1 then TvPal else TvNtsc)];
    }

    /** `Atari800Core_SetArtifactingMode`: stored unchecked, then applied. */
    method SetArtifactingMode(mode: int)
      modifies this`artifMode, this`calls
      ensures artifMode == mode
      ensures calls == old(calls) + [UpdateArtifacting]
    {
      artifMode := mode;
      calls := calls + [UpdateArtifacting];
    }

    /** `Atari800Core_ApplyPreferences`. */
    method ApplyPreferences()
      modifies this`calls
      ensures calls == old(calls) + [CommitPrefs]
    {
      calls := calls + [CommitPrefs];
    }

    /** `Atari800Core_GetDiskLEDStatus`. */
    method GetDiskLEDStatus() returns (s: int)
      ensures s == ledStatus
    {
      s := ledStatus;
    }

    /** `Atari800Core_GetDiskLEDSector`. */
    method GetDiskLEDSector() returns (s: int)
      ensures s == ledSector
    {
      s := ledSector;
    }
  }

  // ---------------------------------------------------------------------
  // Scenarios
  // ---------------------------------------------------------------------

  /** Staging Up with fire on port 0 and running two frames without a new
      update: the engine sees the same registers in both frames, with Up in
      port 0's nibble and port 0's trigger pressed. */
  method StagedInputPersistsAcrossFrames(b: Bridge, first: seq<bv8>, second: seq<bv8>)
    returns (seen: EngineCall)
    requires b.Valid()
    requires |first| == FramePixels && |second| == FramePixels
    modifies b, b.stick, b.trig, b.portInput, b.gtiaTrig, b.screen, b.argb
    ensures b.Valid()
    ensures seen.Frame? && |seen.ports| == 2 && |seen.trigs| == JoyPorts
    ensures seen.ports[0] & 0x0F == JoyUp.Code() && seen.trigs[0] == 0
    ensures b.calls == old(b.calls) + [seen, LedFrame, seen, LedFrame]
  {
    b.JoystickUpdate(0, JoyUp.Code() as int, 1);
    seen := Frame(PortBytes(b.stick[..]), b.trig[..]);
    b.RunFrame(first, 0, 0);
    b.RunFrame(second, 0, 0);
  }

  /** A session from load: the bridge built and initialised runs its first
      frame with every stick centred and every trigger released, and a mount
      on a slot past the last drive is refused without an engine call. */
  method FirstFrameSession(palette: array<bv32>, indexed: array?<bv8>, table: seq<DriveSlot>,
                           rendered: seq<bv8>, path: string, after: DriveSlot)
    returns (b: Bridge, first: EngineCall, mounted: int)
    requires palette.Length == 256
    requires indexed != null ==> indexed.Length == FramePixels
    requires |table| == MaxDrives && |rendered| == FramePixels
    modifies indexed
    ensures first == Frame([0xFF, 0xFF], [1, 1, 1, 1])
    ensures b.calls == [Initialise, first, LedFrame]
    ensures mounted == 0 && b.drives == table
  {
    b := new Bridge(palette, indexed, table, 1);
    var ok := b.Initialize(true, true);
    first := Frame(PortBytes(b.stick[..]), b.trig[..]);
    b.RunFrame(rendered, 0, 0);
    mounted := b.MountDisk(MaxDrives + 1, path, 1, after);
  }
}
