/** The Linux input-event codes (include/uapi/linux/input-event-codes.h) that
    the driver names through python-evdev's ecodes. Only the codes the driver
    uses appear; the names are the header's own. */
module Ecodes {
  const KEY_ESC := 1
  const KEY_1 := 2
  const KEY_2 := 3
  const KEY_3 := 4
  const KEY_4 := 5
  const KEY_5 := 6
  const KEY_6 := 7
  const KEY_7 := 8
  const KEY_8 := 9
  const KEY_9 := 10
  const KEY_0 := 11
  const KEY_MINUS := 12
  const KEY_EQUAL := 13
  const KEY_BACKSPACE := 14
  const KEY_TAB := 15
  const KEY_Q := 16
  const KEY_W := 17
  const KEY_E := 18
  const KEY_R := 19
  const KEY_T := 20
  const KEY_Y := 21
  const KEY_U := 22
  const KEY_I := 23
  const KEY_O := 24
  const KEY_P := 25
  const KEY_LEFTBRACE := 26
  const KEY_RIGHTBRACE := 27
  const KEY_ENTER := 28
  const KEY_LEFTCTRL := 29
  const KEY_A := 30
  const KEY_S := 31
  const KEY_D := 32
  const KEY_F := 33
  const KEY_G := 34
  const KEY_H := 35
  const KEY_J := 36
  const KEY_K := 37
  const KEY_L := 38
  const KEY_SEMICOLON := 39
  const KEY_APOSTROPHE := 40
  const KEY_GRAVE := 41
  const KEY_LEFTSHIFT := 42
  const KEY_BACKSLASH := 43
  const KEY_Z := 44
  const KEY_X := 45
  const KEY_C := 46
  const KEY_V := 47
  const KEY_B := 48
  const KEY_N := 49
  const KEY_M := 50
  const KEY_COMMA := 51
  const KEY_DOT := 52
  const KEY_SLASH := 53
  const KEY_RIGHTSHIFT := 54
  const KEY_LEFTALT := 56
  const KEY_SPACE := 57
  const KEY_RO := 89
  const KEY_RIGHTCTRL := 97
  const KEY_RIGHTALT := 100
  const KEY_YEN := 124
  const KEY_LEFTMETA := 125
  const KEY_RIGHTMETA := 126

  const BTN_LEFT := 0x110
  const BTN_RIGHT := 0x111
  const BTN_MIDDLE := 0x112
}
