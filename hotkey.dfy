/**
 * HotkeyManager.swift: the macOS double Command+C detector.  A global key-down
 * monitor passes every event to `handleKeyEvent`, which keeps the time of the
 * last unpaired Command+C and fires when the next one follows within 0.5 s.
 * Times are integer milliseconds since 1970; the monitor and the handler
 * closure are reduced to whether they are installed and which handler it is.
 */
module Hotkey {
  import opened Common

  const DoubleCTimeoutMs: int := 500
  /** The virtual key code of the C key. */
  const KeyCodeC: int := 8
  const FourCharModulus: int := 0x1_0000_0000

  /** The parts of an NSEvent the detector reads. */
  datatype KeyEvent = KeyEvent(command: bool, keyCode: int)

  /** A registered handler closure, by identity. */
  datatype Handler = Handler(id: nat)

  /** The detector's decision for one Command+C and the new `lastCmdCTime`. */
  datatype Press = Press(fired: bool, last: int)

  /** One Command+C at `now`: a pair within the timeout (inclusive) fires and
      resets the stored time to 0; otherwise `now` is stored. */
  function PressAt(last: int, now: int): (p: Press)
    ensures p.fired <==> now - last <= DoubleCTimeoutMs
    ensures p.fired ==> p.last == 0
    ensures !p.fired ==> p.last == now
  {
    if now - last <= DoubleCTimeoutMs then Press(true, 0) else Press(false, now)
  }

  /** The number of activations over a run of Command+C presses. */
  function Activations(last: int, presses: seq<int>): nat
    decreases |presses|
  {
    if presses == [] then 0
    else
      var p := PressAt(last, presses[0]);
      (if p.fired then 1 else 0) + Activations(p.last, presses[1..])
  }

  /** With every clock reading above 0.5 s, the press right after a reset (at
      start or after firing) never fires, so at most every second press fires. */
  lemma {:induction false} ActivationsBound(last: int, presses: seq<int>)
    requires forall i :: 0 <= i < |presses| ==> presses[i] > DoubleCTimeoutMs
    ensures 2 * Activations(last, presses) <= |presses| + (if last == 0 then 0 else 1)
    decreases |presses|
  {
    if presses != [] {
      var p := PressAt(last, presses[0]);
      var rest := presses[1..];
      assert forall i :: 0 <= i < |rest| ==> rest[i] == presses[i + 1];
      ActivationsBound(p.last, rest);
      if p.fired && rest != [] {
        assert !PressAt(0, rest[0]).fired;
      }
    }
  }

  /** Three presses within half a second, starting from a reset, activate once. */
  lemma TriplePressActivatesOnce(t1: int, t2: int, t3: int)
    requires DoubleCTimeoutMs < t1 <= t2 <= t3 <= t1 + DoubleCTimeoutMs
    ensures Activations(0, [t1, t2, t3]) == 1
  {
    assert [t1, t2, t3][1..] == [t2, t3];
    assert [t2, t3][1..] == [t3];
    assert [t3][1..] == [];
    assert Activations(0, [t3]) == 0;
    assert Activations(t1, [t2, t3]) == 1;
  }

  class HotkeyManager {
    /** The handler closure, if any. */
    var handler: Option<Handler>
    /** `eventMonitor != nil` */
    var monitorInstalled: bool
    var lastCmdCTime: int

    constructor ()
      ensures handler == None && !monitorInstalled && lastCmdCTime == 0
    {
      handler := None;
      monitorInstalled := false;
      lastCmdCTime := 0;
    }

    /** `isRegistered` */
    predicate IsRegistered()
      reads this
    {
      monitorInstalled
    }

    /** `registerHotkey`: a no-op while registered (the first handler stays);
        otherwise installs the handler and the monitor. */
    method RegisterHotkey(h: Handler)
      modifies this`handler, this`monitorInstalled
      ensures old(IsRegistered()) ==> handler == old(handler) && IsRegistered()
      ensures !old(IsRegistered()) ==> handler == Some(h) && IsRegistered()
    {
      if IsRegistered() {
        return;
      }
      handler := Some(h);
      monitorInstalled := true;
    }

    /** `unregisterHotkey`: removes the monitor if any and drops the handler. */
    method UnregisterHotkey()
      modifies this`handler, this`monitorInstalled
      ensures !IsRegistered() && handler == None
    {
      if monitorInstalled {
        monitorInstalled := false;
      }
      handler := None;
    }

    /** `handleKeyEvent` at clock reading `now`: anything but Command with key code
        8 is ignored; a Command+C is decided by `PressAt`. `fired` means the
        handler, if still set, is dispatched to the main queue. */
    method HandleKeyEvent(event: KeyEvent, now: int) returns (fired: bool)
      modifies this`lastCmdCTime
      ensures !(event.command && event.keyCode == KeyCodeC) ==> !fired && lastCmdCTime == old(lastCmdCTime)
      ensures event.command && event.keyCode == KeyCodeC ==>
        Press(fired, lastCmdCTime) == PressAt(old(lastCmdCTime), now)
    {
      if !(event.command && event.keyCode == KeyCodeC) {
        return false;
      }
      if now - lastCmdCTime <= DoubleCTimeoutMs {
        fired := true;
        lastCmdCTime := 0;
      } else {
        fired := false;
        lastCmdCTime := now;
      }
    }
  }

  /** Registering twice keeps the first handler; unregistering twice is harmless. */
  method RegistrationLifecycle(manager: HotkeyManager, first: Handler, second: Handler)
    requires !manager.IsRegistered()
    modifies manager
    ensures !manager.IsRegistered() && manager.handler == None
  {
    manager.RegisterHotkey(first);
    manager.RegisterHotkey(second);
    assert manager.handler == Some(first);
    manager.UnregisterHotkey();
    manager.UnregisterHotkey();
  }

  // ---------------------------------------------------------------------
  // fourCharCodeFrom

  type Byte = x: int | 0 <= x < 256

  /** The UTF-8 bytes of a string given character by character. */
  function Utf8(chars: seq<seq<Byte>>): seq<Byte> {
    if chars == [] then [] else Utf8(chars[..|chars| - 1]) + chars[|chars| - 1]
  }

  /** The bytes read as one big-endian number. */
  function BigEndian(bytes: seq<Byte>): nat {
    if bytes == [] then 0 else BigEndian(bytes[..|bytes| - 1]) * 256 + bytes[|bytes| - 1]
  }

  /** `fourCharCodeFrom`: 0 unless the string has four characters; otherwise the
      UTF-8 bytes shifted into a UInt32, so only the low 32 bits of their
      big-endian value remain. */
  function FourCharCode(chars: seq<seq<Byte>>): (code: nat)
    ensures code < FourCharModulus
  {
    if |chars| != 4 then 0 else BigEndian(Utf8(chars)) % FourCharModulus
  }

  /** `(code << 8) | byte` on a UInt32: the bits shifted out are lost and the new
      low byte is free, so the or is an addition. */
  lemma ShiftInStep(x: nat, b: Byte)
    ensures ((x % FourCharModulus) * 256) % FourCharModulus + b == (x * 256 + b) % FourCharModulus
  {
    var q, r := x / FourCharModulus, x % FourCharModulus;
    var a, c := r / 0x100_0000, r % 0x100_0000;
    assert r * 256 == a * FourCharModulus + c * 256;
    ModulusOf(r * 256, a, c * 256);
    assert x * 256 + b == (q * 256 + a) * FourCharModulus + (c * 256 + b);
    ModulusOf(x * 256 + b, q * 256 + a, c * 256 + b);
  }

  /** The remainder is the part below the modulus in any such decomposition. */
  lemma ModulusOf(y: int, k: int, t: int)
    requires 0 <= t < FourCharModulus && y == k * FourCharModulus + t
    ensures y % FourCharModulus == t
  {
  }

  /** The loop of `fourCharCodeFrom` over `string.utf8`. */
  method FourCharCodeFrom(chars: seq<seq<Byte>>) returns (code: nat)
    ensures code == FourCharCode(chars)
  {
    if |chars| != 4 {
      return 0;
    }
    var bytes := Utf8(chars);
    code := 0;
    for i := 0 to |bytes|
      invariant code == BigEndian(bytes[..i]) % FourCharModulus
    {
      assert bytes[..i + 1][..i] == bytes[..i];
      ShiftInStep(BigEndian(bytes[..i]), bytes[i]);
      code := (code * 256) % FourCharModulus + bytes[i];
    }
    assert bytes[..|bytes|] == bytes;
  }

  /** Four single-byte (ASCII) characters pack as b0·2^24 + b1·2^16 + b2·2^8 + b3. */
  lemma FourAsciiCharacters(b0: Byte, b1: Byte, b2: Byte, b3: Byte)
    ensures FourCharCode([[b0], [b1], [b2], [b3]]) == b0 * 0x100_0000 + b1 * 0x1_0000 + b2 * 0x100 + b3
  {
    var c1: seq<seq<Byte>> := [[b0]];
    var c2 := c1 + [[b1]];
    var c3 := c2 + [[b2]];
    var c4 := c3 + [[b3]];
    assert c1[..0] == [] && c2[..1] == c1 && c3[..2] == c2 && c4[..3] == c3;
    assert Utf8(c1) == [b0];
    assert Utf8(c2) == [b0, b1];
    assert Utf8(c3) == [b0, b1, b2];
    assert Utf8(c4) == [b0, b1, b2, b3];
    var bytes: seq<Byte> := [b0, b1, b2, b3];
    assert bytes[..3] == [b0, b1, b2];
    assert bytes[..3][..2] == [b0, b1];
    assert bytes[..3][..2][..1] == [b0];
    assert bytes[..3][..2][..1][..0] == [];
    assert BigEndian([b0]) == b0;
    assert BigEndian([b0, b1]) == b0 * 0x100 + b1;
    assert BigEndian([b0, b1, b2]) == b0 * 0x1_0000 + b1 * 0x100 + b2;
    assert c4 == [[b0], [b1], [b2], [b3]];
  }

  /** The signature of the hot key id: "PLMo" is 0x504C4D6F. */
  lemma HotKeySignature()
    ensures FourCharCode([['P' as int], ['L' as int], ['M' as int], ['o' as int]]) == 0x504C4D6F
  {
    FourAsciiCharacters('P' as int, 'L' as int, 'M' as int, 'o' as int);
  }
}
