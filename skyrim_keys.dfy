/**
 * Translation of the game's DirectInput scan codes to the engine's key codes.
 */
module SkyrimKeyHandler {
  import opened Types
  import opened KeyCodes

  /** The scan codes the translation table knows; every other code translates to 0. */
  predicate IsListedScanCode(code: u32) {
    (0x01 <= code <= 0x53) || code == 0x57 || code == 0x58 || code == 0xB7 || code == 0xC5 ||
    code == 0xC7 || code == 0xC8 || code == 0xC9 || code == 0xCB || code == 0xCD ||
    code == 0xCF || code == 0xD0 || code == 0xD1 || code == 0xD2 || code == 0xD3
  }

  /** `ConvertSkyrimDXScanCodeToUltralight` */
  function ConvertScanCode(code: u32): (key: int)
    // the table is total on its listed codes and 0 exactly off them
    ensures key != 0 <==> IsListedScanCode(code)
    ensures key == 0 || GK_BACK <= key <= GK_OEM_7
    // top-row digits 1..9 in order, then 0
    ensures 0x02 <= code <= 0x0A ==> key == GK_1 + (code - 0x02)
    ensures code == 0x0B ==> key == GK_0
    // function keys F1..F10 in order, then F11 and F12 after the keypad
    ensures 0x3B <= code <= 0x44 ==> key == GK_F1 + (code - 0x3B)
    ensures code == 0x57 ==> key == GK_F11
    ensures code == 0x58 ==> key == GK_F12
    // keypad rows 7-8-9, 4-5-6, 1-2-3, then 0 and the decimal point
    ensures 0x47 <= code <= 0x49 ==> key == GK_NUMPAD7 + (code - 0x47)
    ensures 0x4B <= code <= 0x4D ==> key == GK_NUMPAD4 + (code - 0x4B)
    ensures 0x4F <= code <= 0x51 ==> key == GK_NUMPAD1 + (code - 0x4F)
    ensures code == 0x52 ==> key == GK_NUMPAD0
    ensures code == 0x4A ==> key == GK_SUBTRACT
    ensures code == 0x4E ==> key == GK_ADD
    ensures code == 0x53 ==> key == GK_DECIMAL
    // the extended navigation block lands on the navigation keys
    ensures 0xC7 <= code <= 0xD3 && key != 0 ==> GK_PRIOR <= key <= GK_DELETE
  {
    match code
    case 0x01 => GK_ESCAPE
    case 0x02 => GK_1
    case 0x03 => GK_2
    case 0x04 => GK_3
    case 0x05 => GK_4
    case 0x06 => GK_5
    case 0x07 => GK_6
    case 0x08 => GK_7
    case 0x09 => GK_8
    case 0x0A => GK_9
    case 0x0B => GK_0
    case 0x0C => GK_OEM_MINUS
    case 0x0D => GK_OEM_PLUS
    case 0x0E => GK_BACK
    case 0x0F => GK_TAB
    case 0x10 => GK_Q
    case 0x11 => GK_W
    case 0x12 => GK_E
    case 0x13 => GK_R
    case 0x14 => GK_T
    case 0x15 => GK_Y
    case 0x16 => GK_U
    case 0x17 => GK_I
    case 0x18 => GK_O
    case 0x19 => GK_P
    case 0x1A => GK_OEM_4
    case 0x1B => GK_OEM_6
    case 0x1C => GK_RETURN
    case 0x1D => GK_LCONTROL
    case 0x1E => GK_A
    case 0x1F => GK_S
    case 0x20 => GK_D
    case 0x21 => GK_F
    case 0x22 => GK_G
    case 0x23 => GK_H
    case 0x24 => GK_J
    case 0x25 => GK_K
    case 0x26 => GK_L
    case 0x27 => GK_OEM_1
    case 0x28 => GK_OEM_7
    case 0x29 => GK_OEM_3
    case 0x2A => GK_LSHIFT
    case 0x2B => GK_OEM_5
    case 0x2C => GK_Z
    case 0x2D => GK_X
    case 0x2E => GK_C
    case 0x2F => GK_V
    case 0x30 => GK_B
    case 0x31 => GK_N
    case 0x32 => GK_M
    case 0x33 => GK_OEM_COMMA
    case 0x34 => GK_OEM_PERIOD
    case 0x35 => GK_OEM_2
    case 0x36 => GK_RSHIFT
    case 0x37 => GK_MULTIPLY
    case 0x38 => GK_LMENU
    case 0x39 => GK_SPACE
    case 0x3A => GK_CAPITAL
    case 0x3B => GK_F1
    case 0x3C => GK_F2
    case 0x3D => GK_F3
    case 0x3E => GK_F4
    case 0x3F => GK_F5
    case 0x40 => GK_F6
    case 0x41 => GK_F7
    case 0x42 => GK_F8
    case 0x43 => GK_F9
    case 0x44 => GK_F10
    case 0x45 => GK_NUMLOCK
    case 0x46 => GK_SCROLL
    case 0x47 => GK_NUMPAD7
    case 0x48 => GK_NUMPAD8
    case 0x49 => GK_NUMPAD9
    case 0x4A => GK_SUBTRACT
    case 0x4B => GK_NUMPAD4
    case 0x4C => GK_NUMPAD5
    case 0x4D => GK_NUMPAD6
    case 0x4E => GK_ADD
    case 0x4F => GK_NUMPAD1
    case 0x50 => GK_NUMPAD2
    case 0x51 => GK_NUMPAD3
    case 0x52 => GK_NUMPAD0
    case 0x53 => GK_DECIMAL
    case 0x57 => GK_F11
    case 0x58 => GK_F12
    case 0xB7 => GK_SNAPSHOT
    case 0xC5 => GK_PAUSE
    case 0xC7 => GK_HOME
    case 0xC8 => GK_UP
    case 0xC9 => GK_PRIOR
    case 0xCB => GK_LEFT
    case 0xCD => GK_RIGHT
    case 0xCF => GK_END
    case 0xD0 => GK_DOWN
    case 0xD1 => GK_NEXT
    case 0xD2 => GK_INSERT
    case 0xD3 => GK_DELETE
    case _ => 0
  }
}
