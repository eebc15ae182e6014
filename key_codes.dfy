/**
 * The engine's key codes (the `GK_*` constants the key handlers return).
 * The engine numbers its keys exactly like the Windows virtual-key codes,
 * so each constant below is the value of the Windows key of the same name.
 * The key-code header itself is not part of this model.
 */
module KeyCodes {
  const GK_UNKNOWN: int := 0x00
  const GK_BACK: int := 0x08
  const GK_TAB: int := 0x09
  const GK_CLEAR: int := 0x0C
  const GK_RETURN: int := 0x0D
  const GK_SHIFT: int := 0x10
  const GK_CONTROL: int := 0x11
  const GK_MENU: int := 0x12
  const GK_PAUSE: int := 0x13
  const GK_CAPITAL: int := 0x14
  const GK_ESCAPE: int := 0x1B
  const GK_SPACE: int := 0x20
  const GK_PRIOR: int := 0x21
  const GK_NEXT: int := 0x22
  const GK_END: int := 0x23
  const GK_HOME: int := 0x24
  const GK_LEFT: int := 0x25
  const GK_UP: int := 0x26
  const GK_RIGHT: int := 0x27
  const GK_DOWN: int := 0x28
  const GK_SELECT: int := 0x29
  const GK_PRINT: int := 0x2A
  const GK_EXECUTE: int := 0x2B
  const GK_SNAPSHOT: int := 0x2C
  const GK_INSERT: int := 0x2D
  const GK_DELETE: int := 0x2E
  const GK_HELP: int := 0x2F

  const GK_0: int := 0x30
  const GK_1: int := 0x31
  const GK_2: int := 0x32
  const GK_3: int := 0x33
  const GK_4: int := 0x34
  const GK_5: int := 0x35
  const GK_6: int := 0x36
  const GK_7: int := 0x37
  const GK_8: int := 0x38
  const GK_9: int := 0x39

  const GK_A: int := 0x41
  const GK_B: int := 0x42
  const GK_C: int := 0x43
  const GK_D: int := 0x44
  const GK_E: int := 0x45
  const GK_F: int := 0x46
  const GK_G: int := 0x47
  const GK_H: int := 0x48
  const GK_I: int := 0x49
  const GK_J: int := 0x4A
  const GK_K: int := 0x4B
  const GK_L: int := 0x4C
  const GK_M: int := 0x4D
  const GK_N: int := 0x4E
  const GK_O: int := 0x4F
  const GK_P: int := 0x50
  const GK_Q: int := 0x51
  const GK_R: int := 0x52
  const GK_S: int := 0x53
  const GK_T: int := 0x54
  const GK_U: int := 0x55
  const GK_V: int := 0x56
  const GK_W: int := 0x57
  const GK_X: int := 0x58
  const GK_Y: int := 0x59
  const GK_Z: int := 0x5A

  const GK_LWIN: int := 0x5B
  const GK_RWIN: int := 0x5C
  const GK_APPS: int := 0x5D
  const GK_SLEEP: int := 0x5F

  const GK_NUMPAD0: int := 0x60
  const GK_NUMPAD1: int := 0x61
  const GK_NUMPAD2: int := 0x62
  const GK_NUMPAD3: int := 0x63
  const GK_NUMPAD4: int := 0x64
  const GK_NUMPAD5: int := 0x65
  const GK_NUMPAD6: int := 0x66
  const GK_NUMPAD7: int := 0x67
  const GK_NUMPAD8: int := 0x68
  const GK_NUMPAD9: int := 0x69
  const GK_MULTIPLY: int := 0x6A
  const GK_ADD: int := 0x6B
  const GK_SEPARATOR: int := 0x6C
  const GK_SUBTRACT: int := 0x6D
  const GK_DECIMAL: int := 0x6E
  const GK_DIVIDE: int := 0x6F

  const GK_F1: int := 0x70
  const GK_F2: int := 0x71
  const GK_F3: int := 0x72
  const GK_F4: int := 0x73
  const GK_F5: int := 0x74
  const GK_F6: int := 0x75
  const GK_F7: int := 0x76
  const GK_F8: int := 0x77
  const GK_F9: int := 0x78
  const GK_F10: int := 0x79
  const GK_F11: int := 0x7A
  const GK_F12: int := 0x7B
  const GK_F13: int := 0x7C
  const GK_F14: int := 0x7D
  const GK_F15: int := 0x7E
  const GK_F16: int := 0x7F
  const GK_F17: int := 0x80
  const GK_F18: int := 0x81
  const GK_F19: int := 0x82
  const GK_F20: int := 0x83
  const GK_F21: int := 0x84
  const GK_F22: int := 0x85
  const GK_F23: int := 0x86
  const GK_F24: int := 0x87

  const GK_NUMLOCK: int := 0x90
  const GK_SCROLL: int := 0x91

  const GK_LSHIFT: int := 0xA0
  const GK_RSHIFT: int := 0xA1
  const GK_LCONTROL: int := 0xA2
  const GK_RCONTROL: int := 0xA3
  const GK_LMENU: int := 0xA4
  const GK_RMENU: int := 0xA5

  const GK_OEM_1: int := 0xBA
  const GK_OEM_PLUS: int := 0xBB
  const GK_OEM_COMMA: int := 0xBC
  const GK_OEM_MINUS: int := 0xBD
  const GK_OEM_PERIOD: int := 0xBE
  const GK_OEM_2: int := 0xBF
  const GK_OEM_3: int := 0xC0
  const GK_OEM_4: int := 0xDB
  const GK_OEM_5: int := 0xDC
  const GK_OEM_6: int := 0xDD
  const GK_OEM_7: int := 0xDE
}
