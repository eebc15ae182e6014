/**
 * Translation of Windows keyboard messages to engine key events: the
 * virtual-key table, the "U+XXXX" key identifier, the modifier bits read
 * from the keyboard state, and the flags of a key event.
 */
module WindowsKeyHandler {
  import opened Types
  import opened KeyCodes
  import SkyrimKeyHandler

  // Windows virtual-key codes and keystroke flags used by the event builder
  const VK_TAB: int := 0x09
  const VK_RETURN: int := 0x0D
  const VK_SHIFT: int := 0x10
  const VK_CONTROL: int := 0x11
  const VK_MENU: int := 0x12
  const VK_ESCAPE: int := 0x1B
  const VK_SPACE: int := 0x20
  const VK_PRIOR: int := 0x21
  const VK_NEXT: int := 0x22
  const VK_LWIN: int := 0x5B
  const VK_RWIN: int := 0x5C
  const VK_NUMPAD0: int := 0x60
  const VK_DIVIDE: int := 0x6F
  const VK_F1: int := 0x70
  const VK_F24: int := 0x87
  const KF_EXTENDED: bv16 := 0x0100
  const KF_REPEAT: bv16 := 0x4000

  // Modifier bits of an engine key event
  const MOD_ALT: bv32 := 1
  const MOD_CTRL: bv32 := 2
  const MOD_META: bv32 := 4
  const MOD_SHIFT: bv32 := 8

  /** The virtual keys listed in the translation table. */
  predicate IsListedVirtualKey(vk: u32) {
    vk == 0x08 || vk == 0x09 || vk == 0x0C || vk == 0x0D || (0x10 <= vk <= 0x14) ||
    vk == 0x1B || vk == 0x20 || (0x23 <= vk <= 0x2F) ||
    (0x30 <= vk <= 0x39) || (0x41 <= vk <= 0x5A) ||
    vk == 0x5B || vk == 0x5C || vk == 0x5D || vk == 0x5F ||
    (0x60 <= vk <= 0x6F) || (0x70 <= vk <= 0x87) || vk == 0x90 || vk == 0x91 ||
    (0xA0 <= vk <= 0xA5) || (0xBA <= vk <= 0xC0) || (0xDB <= vk <= 0xDE)
  }

  /**
   * `WinKeyToUltralightKey`, as written: Page Up (VK_PRIOR) and Page Down
   * (VK_NEXT) are missing from the table.
   */
  function WinKeyToUltralightKeyAsWritten(vk: u32): (key: int)
    // every listed key keeps its number, since the engine numbers keys like Windows
    ensures key == if IsListedVirtualKey(vk) then vk as int else GK_UNKNOWN
    ensures '0' as int <= vk <= '9' as int ==> key == GK_0 + (vk - '0' as int)
    ensures 'A' as int <= vk <= 'Z' as int ==> key == GK_A + (vk - 'A' as int)
    ensures VK_F1 <= vk <= VK_F24 ==> key == GK_F1 + (vk - VK_F1)
  {
    match vk
    case 0x08 => GK_BACK
    case 0x09 => GK_TAB
    case 0x0C => GK_CLEAR
    case 0x0D => GK_RETURN
    case 0x10 => GK_SHIFT
    case 0x11 => GK_CONTROL
    case 0x12 => GK_MENU
    case 0x13 => GK_PAUSE
    case 0x14 => GK_CAPITAL
    case 0x1B => GK_ESCAPE
    case 0x20 => GK_SPACE
    case 0x23 => GK_END
    case 0x24 => GK_HOME
    case 0x25 => GK_LEFT
    case 0x26 => GK_UP
    case 0x27 => GK_RIGHT
    case 0x28 => GK_DOWN
    case 0x29 => GK_SELECT
    case 0x2A => GK_PRINT
    case 0x2B => GK_EXECUTE
    case 0x2C => GK_SNAPSHOT
    case 0x2D => GK_INSERT
    case 0x2E => GK_DELETE
    case 0x2F => GK_HELP
    case 0x30 => GK_0
    case 0x31 => GK_1
    case 0x32 => GK_2
    case 0x33 => GK_3
    case 0x34 => GK_4
    case 0x35 => GK_5
    case 0x36 => GK_6
    case 0x37 => GK_7
    case 0x38 => GK_8
    case 0x39 => GK_9
    case 0x41 => GK_A
    case 0x42 => GK_B
    case 0x43 => GK_C
    case 0x44 => GK_D
    case 0x45 => GK_E
    case 0x46 => GK_F
    case 0x47 => GK_G
    case 0x48 => GK_H
    case 0x49 => GK_I
    case 0x4A => GK_J
    case 0x4B => GK_K
    case 0x4C => GK_L
    case 0x4D => GK_M
    case 0x4E => GK_N
    case 0x4F => GK_O
    case 0x50 => GK_P
    case 0x51 => GK_Q
    case 0x52 => GK_R
    case 0x53 => GK_S
    case 0x54 => GK_T
    case 0x55 => GK_U
    case 0x56 => GK_V
    case 0x57 => GK_W
    case 0x58 => GK_X
    case 0x59 => GK_Y
    case 0x5A => GK_Z
    case 0x5B => GK_LWIN
    case 0x5C => GK_RWIN
    case 0x5D => GK_APPS
    case 0x5F => GK_SLEEP
    case 0x60 => GK_NUMPAD0
    case 0x61 => GK_NUMPAD1
    case 0x62 => GK_NUMPAD2
    case 0x63 => GK_NUMPAD3
    case 0x64 => GK_NUMPAD4
    case 0x65 => GK_NUMPAD5
    case 0x66 => GK_NUMPAD6
    case 0x67 => GK_NUMPAD7
    case 0x68 => GK_NUMPAD8
    case 0x69 => GK_NUMPAD9
    case 0x6A => GK_MULTIPLY
    case 0x6B => GK_ADD
    case 0x6C => GK_SEPARATOR
    case 0x6D => GK_SUBTRACT
    case 0x6E => GK_DECIMAL
    case 0x6F => GK_DIVIDE
    case 0x70 => GK_F1
    case 0x71 => GK_F2
    case 0x72 => GK_F3
    case 0x73 => GK_F4
    case 0x74 => GK_F5
    case 0x75 => GK_F6
    case 0x76 => GK_F7
    case 0x77 => GK_F8
    case 0x78 => GK_F9
    case 0x79 => GK_F10
    case 0x7A => GK_F11
    case 0x7B => GK_F12
    case 0x7C => GK_F13
    case 0x7D => GK_F14
    case 0x7E => GK_F15
    case 0x7F => GK_F16
    case 0x80 => GK_F17
    case 0x81 => GK_F18
    case 0x82 => GK_F19
    case 0x83 => GK_F20
    case 0x84 => GK_F21
    case 0x85 => GK_F22
    case 0x86 => GK_F23
    case 0x87 => GK_F24
    case 0x90 => GK_NUMLOCK
    case 0x91 => GK_SCROLL
    case 0xA0 => GK_LSHIFT
    case 0xA1 => GK_RSHIFT
    case 0xA2 => GK_LCONTROL
    case 0xA3 => GK_RCONTROL
    case 0xA4 => GK_LMENU
    case 0xA5 => GK_RMENU
    case 0xBA => GK_OEM_1
    case 0xBB => GK_OEM_PLUS
    case 0xBC => GK_OEM_COMMA
    case 0xBD => GK_OEM_MINUS
    case 0xBE => GK_OEM_PERIOD
    case 0xBF => GK_OEM_2
    case 0xC0 => GK_OEM_3
    case 0xDB => GK_OEM_4
    case 0xDC => GK_OEM_5
    case 0xDD => GK_OEM_6
    case 0xDE => GK_OEM_7
    case _ => GK_UNKNOWN
  }

  /**
   * Page Up and Page Down, which the game's scan-code table does translate,
   * are lost by the Windows table as written.
   */
  lemma PageKeysLostAsWritten()
    ensures SkyrimKeyHandler.ConvertScanCode(0xC9) == GK_PRIOR
    ensures SkyrimKeyHandler.ConvertScanCode(0xD1) == GK_NEXT
    ensures WinKeyToUltralightKeyAsWritten(VK_PRIOR) == GK_UNKNOWN
    ensures WinKeyToUltralightKeyAsWritten(VK_NEXT) == GK_UNKNOWN
  {
  }

  /** `WinKeyToUltralightKeyCorrected` with the table completed by Page Up and Page Down. */
  function WinKeyToUltralightKeyCorrected(vk: u32): (key: int)
    ensures key == if IsListedVirtualKey(vk) || vk == VK_PRIOR || vk == VK_NEXT then vk as int else GK_UNKNOWN
    ensures '0' as int <= vk <= '9' as int ==> key == GK_0 + (vk - '0' as int)
    ensures 'A' as int <= vk <= 'Z' as int ==> key == GK_A + (vk - 'A' as int)
    ensures VK_F1 <= vk <= VK_F24 ==> key == GK_F1 + (vk - VK_F1)
  {
    if vk == VK_PRIOR then GK_PRIOR
    else if vk == VK_NEXT then GK_NEXT
    else WinKeyToUltralightKeyAsWritten(vk)
  }

  /**
   * With the completed table, every key the game's scan-code table produces
   * is also recognised when it arrives as a Windows virtual key, unchanged.
   */
  lemma WindowsTableCoversScanCodeKeys(code: u32)
    requires SkyrimKeyHandler.ConvertScanCode(code) != 0
    ensures WinKeyToUltralightKeyCorrected(SkyrimKeyHandler.ConvertScanCode(code) as u32) == SkyrimKeyHandler.ConvertScanCode(code)
  {
  }

  // ----- "U+%04X" key identifiers -----

  function HexDigit(d: nat): (c: char)
    requires d < 16
  {
    if d < 10 then ('0' as int + d) as char else ('A' as int + d - 10) as char
  }

  predicate IsUpperHexDigit(c: char) {
    '0' <= c <= '9' || 'A' <= c <= 'F'
  }

  function HexDigitValue(c: char): (d: nat)
    requires IsUpperHexDigit(c)
    ensures d < 16 && HexDigit(d) == c
  {
    if c <= '9' then c as int - '0' as int else c as int - 'A' as int + 10
  }

  /** Upper-case hexadecimal digits of `n`, most significant first, no leading zeros. */
  function Hex(n: nat): (s: string)
    decreases n
  {
    if n < 16 then [HexDigit(n)] else Hex(n / 16) + [HexDigit(n % 16)]
  }

  /** `printf`'s `%0<width>X`: left-padded with zeros to at least `width` characters. */
  function ZeroPad(s: string, width: nat): (r: string)
    ensures |r| == if |s| >= width then |s| else width
    ensures r[|r| - |s|..] == s
  {
    if |s| >= width then s else Zeros(width - |s|) + s
  }

  /** The value of a string of upper-case hexadecimal digits. */
  function HexValue(s: string): nat
    requires forall i :: 0 <= i < |s| ==> IsUpperHexDigit(s[i])
  {
    if s == [] then 0 else 16 * HexValue(s[..|s| - 1]) + HexDigitValue(s[|s| - 1])
  }

  /**
   * `GetUltralightKeyIdentifier`: "U+" then `%04X` of the key (a 32-bit
   * `int`, printed as unsigned): at least four upper-case hexadecimal
   * digits that read back as the key's unsigned value.
   */
  function GetUltralightKeyIdentifier(key: int): (id: string)
    requires -0x8000_0000 <= key < 0x8000_0000
    ensures |id| >= 6 && id[..2] == "U+"
    ensures forall i :: 2 <= i < |id| ==> IsUpperHexDigit(id[i])
    ensures HexValue(id[2..]) == if key < 0 then key + 0x1_0000_0000 else key
  {
    var digits := ZeroPad(Hex(if key < 0 then key + 0x1_0000_0000 else key), 4);
    PaddedHexValue(if key < 0 then key + 0x1_0000_0000 else key);
    assert ("U+" + digits)[2..] == digits;
    "U+" + digits
  }

  /** `%04X` of `n` is at least four upper-case hexadecimal digits that read back as `n`. */
  lemma PaddedHexValue(n: nat)
    ensures |ZeroPad(Hex(n), 4)| >= 4
    ensures forall i :: 0 <= i < |ZeroPad(Hex(n), 4)| ==> IsUpperHexDigit(ZeroPad(Hex(n), 4)[i])
    ensures HexValue(ZeroPad(Hex(n), 4)) == n
  {
    var h := Hex(n);
    var k := if |h| >= 4 then 0 else 4 - |h|;
    HexValueOfHex(n);
    HexValueLeadingZeros(k, h);
    assert ZeroPad(h, 4) == Zeros(k) + h;
  }

  lemma {:induction false} HexIsUpperHex(n: nat)
    ensures |Hex(n)| >= 1
    ensures forall i :: 0 <= i < |Hex(n)| ==> IsUpperHexDigit(Hex(n)[i])
    ensures n < 0x100 ==> |Hex(n)| <= 2
    ensures n < 0x1000 ==> |Hex(n)| <= 3
    ensures n < 0x10000 ==> |Hex(n)| <= 4
    decreases n
  {
    if n >= 16 {
      HexIsUpperHex(n / 16);
    }
  }

  lemma {:induction false} HexValueOfHex(n: nat)
    ensures forall i :: 0 <= i < |Hex(n)| ==> IsUpperHexDigit(Hex(n)[i])
    ensures HexValue(Hex(n)) == n
    decreases n
  {
    HexIsUpperHex(n);
    if n >= 16 {
      HexValueOfHex(n / 16);
      var s := Hex(n);
      assert s[..|s| - 1] == Hex(n / 16);
    }
  }

  function Zeros(k: nat): (z: string)
    ensures |z| == k && forall i :: 0 <= i < k ==> z[i] == '0'
  {
    seq(k, _ => '0')
  }

  lemma {:induction false} HexValueOfZeros(k: nat)
    ensures forall i :: 0 <= i < k ==> IsUpperHexDigit(Zeros(k)[i])
    ensures HexValue(Zeros(k)) == 0
  {
    if k > 0 {
      HexValueOfZeros(k - 1);
      assert Zeros(k)[..k - 1] == Zeros(k - 1);
    }
  }

  /** Leading zeros do not change the value of a hexadecimal string. */
  lemma {:induction false} HexValueLeadingZeros(k: nat, s: string)
    requires forall i :: 0 <= i < |s| ==> IsUpperHexDigit(s[i])
    ensures forall i :: 0 <= i < k + |s| ==> IsUpperHexDigit((Zeros(k) + s)[i])
    ensures HexValue(Zeros(k) + s) == HexValue(s)
    decreases |s|
  {
    var z := Zeros(k);
    HexValueOfZeros(k);
    if s == [] {
      assert z + s == z;
    } else {
      HexValueLeadingZeros(k, s[..|s| - 1]);
      assert (z + s)[..|z + s| - 1] == z + s[..|s| - 1];
    }
  }

  /**
   * For every 16-bit key code the identifier is "U+" followed by exactly four
   * upper-case hexadecimal digits, and those digits read back as the key.
   */
  lemma {:induction false} KeyIdentifierRoundTrip(key: int)
    requires 0 <= key < 0x10000
    ensures |GetUltralightKeyIdentifier(key)| == 6
    ensures GetUltralightKeyIdentifier(key)[..2] == "U+"
    ensures forall i :: 2 <= i < 6 ==> IsUpperHexDigit(GetUltralightKeyIdentifier(key)[i])
    ensures HexValue(GetUltralightKeyIdentifier(key)[2..]) == key
  {
    HexIsUpperHex(key);
    HexValueOfHex(key);
    var h := Hex(key);
    var k := 4 - |h|;
    assert ZeroPad(h, 4) == Zeros(k) + h;
    HexValueLeadingZeros(k, h);
    assert GetUltralightKeyIdentifier(key)[2..] == Zeros(k) + h;
  }

  // ----- key events -----

  /** `ultralight::KeyEvent::Type` */
  datatype KeyEventType = RawKeyDown | KeyDown | KeyUp | Char

  /** The fields of an engine key event that the handler fills in. */
  datatype KeyEvent = KeyEvent(
    eventType: KeyEventType,
    modifiers: bv32,
    virtualKeyCode: int,
    keyIdentifier: string,
    text: string,
    unmodifiedText: string,
    isKeypad: bool,
    isAutoRepeat: bool,
    isSystemKey: bool)

  /**
   * `GetUltralightModifiers`: starts from no modifiers and adds one bit for
   * each modifier key that `down` (the keys the keyboard state reports as
   * pressed) contains.
   */
  method GetUltralightModifiers(down: set<int>) returns (modifiers: bv32)
    ensures (modifiers & MOD_ALT != 0) == (VK_MENU in down)
    ensures (modifiers & MOD_CTRL != 0) == (VK_CONTROL in down)
    ensures (modifiers & MOD_SHIFT != 0) == (VK_SHIFT in down)
    ensures (modifiers & MOD_META != 0) == (VK_LWIN in down || VK_RWIN in down)
    ensures modifiers & !(MOD_ALT | MOD_CTRL | MOD_SHIFT | MOD_META) == 0
  {
    modifiers := 0;
    if VK_MENU in down {
      modifiers := modifiers | MOD_ALT;
    }
    if VK_CONTROL in down {
      modifiers := modifiers | MOD_CTRL;
    }
    if VK_SHIFT in down {
      modifiers := modifiers | MOD_SHIFT;
    }
    if VK_LWIN in down || VK_RWIN in down {
      modifiers := modifiers | MOD_META;
    }
  }

  /** `HIWORD(lParam)`: bits 16..31 of the message parameter. */
  function HiWord(lParam: u64): bv16 {
    ((lParam / 0x1_0000) % 0x1_0000) as bv16
  }

  /**
   * `CreateKeyEvent`: builds a key event from a keyboard message. The
   * virtual key is truncated to 32 bits and translated by the table as
   * written, so Page Up and Page Down arrive as the unknown key; the
   * identifier and both text fields are left empty.
   */
  method CreateKeyEvent(eventType: KeyEventType, wParam: u64, lParam: u64, down: set<int>) returns (ev: KeyEvent)
    ensures ev.eventType == eventType
    ensures ev.virtualKeyCode == WinKeyToUltralightKeyAsWritten((wParam % U32_LIMIT) as u32)
    ensures ev.keyIdentifier == "" && ev.text == "" && ev.unmodifiedText == ""
    ensures (ev.modifiers & MOD_ALT != 0) == (VK_MENU in down)
    ensures (ev.modifiers & MOD_CTRL != 0) == (VK_CONTROL in down)
    ensures (ev.modifiers & MOD_SHIFT != 0) == (VK_SHIFT in down)
    ensures (ev.modifiers & MOD_META != 0) == (VK_LWIN in down || VK_RWIN in down)
    ensures ev.isAutoRepeat == (HiWord(lParam) & KF_REPEAT != 0)
    ensures ev.isKeypad == (HiWord(lParam) & KF_EXTENDED != 0 || VK_NUMPAD0 <= wParam <= VK_DIVIDE)
    ensures ev.isSystemKey <==>
      VK_MENU in down &&
      (wParam == VK_TAB || wParam == VK_ESCAPE || wParam == VK_RETURN || wParam == VK_SPACE || VK_F1 <= wParam <= VK_F24)
  {
    var modifiers := GetUltralightModifiers(down);
    var hi := HiWord(lParam);
    var systemKey := modifiers & MOD_ALT != 0 &&
      (wParam == VK_TAB || wParam == VK_ESCAPE || wParam == VK_RETURN || wParam == VK_SPACE ||
       (VK_F1 <= wParam <= VK_F24));
    ev := KeyEvent(
      eventType,
      modifiers,
      WinKeyToUltralightKeyAsWritten((wParam % U32_LIMIT) as u32),
      "",
      "",
      "",
      hi & KF_EXTENDED == KF_EXTENDED || (VK_NUMPAD0 <= wParam <= VK_DIVIDE),
      hi & KF_REPEAT == KF_REPEAT,
      systemKey);
  }
}
