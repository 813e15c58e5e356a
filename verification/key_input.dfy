/** Keyboard input on Windows: TranslateKeyCode maps a Win32 virtual-key
    code to the engine's KeyCode, and OnKey turns one key event into one
    keyboard InputMessage. Virtual-key values are the public Win32 ones. */
module KeyInput {
  import opened Collections

  type LetterOffset = i: int | 0 <= i < 26
  type DigitOffset = i: int | 0 <= i < 10
  type FunctionOffset = i: int | 0 <= i < 12

  /** The engine's key codes that TranslateKeyCode can produce. The four
      contiguous runs of the engine's enumeration are one constructor each,
      carrying the offset from the first key of the run (kKeyA, kKey0,
      kKeyF1, kKeyNumpad0). */
  datatype KeyCode =
    | KeyLetter(letter: LetterOffset)
    | KeyDigit(digit: DigitOffset)
    | KeyFunction(number: FunctionOffset)
    | KeyNumpad(digit: DigitOffset)
    | KeyLeft
    | KeyRight
    | KeyUp
    | KeyDown
    | KeyBackspace
    | KeyTab
    | KeyEnter
    | KeyHome
    | KeyEnd
    | KeyPageUp
    | KeyPageDown
    | KeyShift
    | KeyLeftShift
    | KeyRightShift
    | KeyControl
    | KeyLeftControl
    | KeyRightControl
    | KeyAlt
    | KeyLeftAlt
    | KeyRightAlt
    | KeyEscape
    | KeySpace
    | KeyPause
    | KeyNumLock
    | KeyScrollLock
    | KeyCapsLock
    | KeyPrintScreen
    | KeyInsert
    | KeyDelete
    | KeyNumpadSlash
    | KeyNumpadAsterisk
    | KeyNumpadMinus
    | KeyNumpadPlus
    | KeyNumpadPeriod
    | KeyComma
    | KeyPeriod
    | KeyMinus
    | KeyEquals
    | KeySemicolon
    | KeySlash
    | KeyGraveAccent
    | KeyLeftSquareBracket
    | KeyBackslash
    | KeyRightSquareBracket
    | KeyApostrophe
    | KeySectionSign
    | KeyUnknown

  // Win32 virtual-key codes.
  const VK_A: int := 0x41
  const VK_Z: int := 0x5A
  const VK_0: int := 0x30
  const VK_9: int := 0x39
  const VK_F1: int := 0x70
  const VK_F12: int := 0x7B
  const VK_NUMPAD0: int := 0x60
  const VK_NUMPAD9: int := 0x69
  const VK_LEFT: int := 0x25
  const VK_RIGHT: int := 0x27
  const VK_UP: int := 0x26
  const VK_DOWN: int := 0x28
  const VK_BACK: int := 0x08
  const VK_TAB: int := 0x09
  const VK_RETURN: int := 0x0D
  const VK_HOME: int := 0x24
  const VK_END: int := 0x23
  const VK_PRIOR: int := 0x21
  const VK_NEXT: int := 0x22
  const VK_SHIFT: int := 0x10
  const VK_LSHIFT: int := 0xA0
  const VK_RSHIFT: int := 0xA1
  const VK_CONTROL: int := 0x11
  const VK_LCONTROL: int := 0xA2
  const VK_RCONTROL: int := 0xA3
  const VK_MENU: int := 0x12
  const VK_LMENU: int := 0xA4
  const VK_RMENU: int := 0xA5
  const VK_ESCAPE: int := 0x1B
  const VK_SPACE: int := 0x20
  const VK_PAUSE: int := 0x13
  const VK_NUMLOCK: int := 0x90
  const VK_SCROLL: int := 0x91
  const VK_CAPITAL: int := 0x14
  const VK_SNAPSHOT: int := 0x2C
  const VK_INSERT: int := 0x2D
  const VK_DELETE: int := 0x2E
  const VK_DIVIDE: int := 0x6F
  const VK_MULTIPLY: int := 0x6A
  const VK_SUBTRACT: int := 0x6D
  const VK_ADD: int := 0x6B
  const VK_DECIMAL: int := 0x6E
  const VK_OEM_COMMA: int := 0xBC
  const VK_OEM_PERIOD: int := 0xBE
  const VK_OEM_MINUS: int := 0xBD
  const VK_OEM_PLUS: int := 0xBB
  const VK_OEM_1: int := 0xBA
  const VK_OEM_2: int := 0xBF
  const VK_OEM_3: int := 0xC0
  const VK_OEM_4: int := 0xDB
  const VK_OEM_5: int := 0xDC
  const VK_OEM_6: int := 0xDD
  const VK_OEM_7: int := 0xDE
  const VK_OEM_8: int := 0xDF

  /** TranslateKeyCode: the four ranges first, then the table of single
      keys, and kKeyUnknown for everything else. WPARAM is unsigned. */
  function TranslateKeyCode(w: nat): (key: KeyCode)
    ensures VK_A <= w <= VK_Z ==> key == KeyLetter(w - VK_A)
    ensures VK_0 <= w <= VK_9 ==> key == KeyDigit(w - VK_0)
    ensures VK_F1 <= w <= VK_F12 ==> key == KeyFunction(w - VK_F1)
    ensures VK_NUMPAD0 <= w <= VK_NUMPAD9 ==> key == KeyNumpad(w - VK_NUMPAD0)
    ensures !(VK_A <= w <= VK_Z || VK_0 <= w <= VK_9 || VK_F1 <= w <= VK_F12 || VK_NUMPAD0 <= w <= VK_NUMPAD9)
            ==> key == SwitchKey(w)
  {
    if VK_A <= w <= VK_Z then KeyLetter(w - VK_A)
    else if VK_0 <= w <= VK_9 then KeyDigit(w - VK_0)
    else if VK_F1 <= w <= VK_F12 then KeyFunction(w - VK_F1)
    else if VK_NUMPAD0 <= w <= VK_NUMPAD9 then KeyNumpad(w - VK_NUMPAD0)
    else SwitchKey(w)
  }

  /** The switch statement of TranslateKeyCode, with its default. */
  function SwitchKey(w: nat): KeyCode
  {
    if w == VK_LEFT then KeyLeft
    else if w == VK_RIGHT then KeyRight
    else if w == VK_UP then KeyUp
    else if w == VK_DOWN then KeyDown
    else if w == VK_BACK then KeyBackspace
    else if w == VK_TAB then KeyTab
    else if w == VK_RETURN then KeyEnter
    else if w == VK_HOME then KeyHome
    else if w == VK_END then KeyEnd
    else if w == VK_PRIOR then KeyPageUp
    else if w == VK_NEXT then KeyPageDown
    else if w == VK_SHIFT then KeyShift
    else if w == VK_LSHIFT then KeyLeftShift
    else if w == VK_RSHIFT then KeyRightShift
    else if w == VK_CONTROL then KeyControl
    else if w == VK_LCONTROL then KeyLeftControl
    else if w == VK_RCONTROL then KeyRightControl
    else if w == VK_MENU then KeyAlt
    else if w == VK_LMENU then KeyLeftAlt
    else if w == VK_RMENU then KeyRightAlt
    else if w == VK_ESCAPE then KeyEscape
    else if w == VK_SPACE then KeySpace
    else if w == VK_PAUSE then KeyPause
    else if w == VK_NUMLOCK then KeyNumLock
    else if w == VK_SCROLL then KeyScrollLock
    else if w == VK_CAPITAL then KeyCapsLock
    else if w == VK_SNAPSHOT then KeyPrintScreen
    else if w == VK_INSERT then KeyInsert
    else if w == VK_DELETE then KeyDelete
    else if w == VK_DIVIDE then KeyNumpadSlash
    else if w == VK_MULTIPLY then KeyNumpadAsterisk
    else if w == VK_SUBTRACT then KeyNumpadMinus
    else if w == VK_ADD then KeyNumpadPlus
    else if w == VK_DECIMAL then KeyNumpadPeriod
    else if w == VK_OEM_COMMA then KeyComma
    else if w == VK_OEM_PERIOD then KeyPeriod
    else if w == VK_OEM_MINUS then KeyMinus
    else if w == VK_OEM_PLUS then KeyEquals
    else if w == VK_OEM_1 then KeySemicolon
    else if w == VK_OEM_2 then KeySlash
    else if w == VK_OEM_3 then KeyGraveAccent
    else if w == VK_OEM_4 then KeyLeftSquareBracket
    else if w == VK_OEM_5 then KeyBackslash
    else if w == VK_OEM_6 then KeyRightSquareBracket
    else if w == VK_OEM_7 then KeyApostrophe
    else if w == VK_OEM_8 then KeySectionSign
    else KeyUnknown
  }

  /** The virtual key each code comes from; KeyUnknown has none. */
  function VirtualKeyOf(key: KeyCode): Option<nat>
  {
    match key
    case KeyLetter(i) => Some(VK_A + i)
    case KeyDigit(i) => Some(VK_0 + i)
    case KeyFunction(i) => Some(VK_F1 + i)
    case KeyNumpad(i) => Some(VK_NUMPAD0 + i)
    case KeyLeft => Some(VK_LEFT)
    case KeyRight => Some(VK_RIGHT)
    case KeyUp => Some(VK_UP)
    case KeyDown => Some(VK_DOWN)
    case KeyBackspace => Some(VK_BACK)
    case KeyTab => Some(VK_TAB)
    case KeyEnter => Some(VK_RETURN)
    case KeyHome => Some(VK_HOME)
    case KeyEnd => Some(VK_END)
    case KeyPageUp => Some(VK_PRIOR)
    case KeyPageDown => Some(VK_NEXT)
    case KeyShift => Some(VK_SHIFT)
    case KeyLeftShift => Some(VK_LSHIFT)
    case KeyRightShift => Some(VK_RSHIFT)
    case KeyControl => Some(VK_CONTROL)
    case KeyLeftControl => Some(VK_LCONTROL)
    case KeyRightControl => Some(VK_RCONTROL)
    case KeyAlt => Some(VK_MENU)
    case KeyLeftAlt => Some(VK_LMENU)
    case KeyRightAlt => Some(VK_RMENU)
    case KeyEscape => Some(VK_ESCAPE)
    case KeySpace => Some(VK_SPACE)
    case KeyPause => Some(VK_PAUSE)
    case KeyNumLock => Some(VK_NUMLOCK)
    case KeyScrollLock => Some(VK_SCROLL)
    case KeyCapsLock => Some(VK_CAPITAL)
    case KeyPrintScreen => Some(VK_SNAPSHOT)
    case KeyInsert => Some(VK_INSERT)
    case KeyDelete => Some(VK_DELETE)
    case KeyNumpadSlash => Some(VK_DIVIDE)
    case KeyNumpadAsterisk => Some(VK_MULTIPLY)
    case KeyNumpadMinus => Some(VK_SUBTRACT)
    case KeyNumpadPlus => Some(VK_ADD)
    case KeyNumpadPeriod => Some(VK_DECIMAL)
    case KeyComma => Some(VK_OEM_COMMA)
    case KeyPeriod => Some(VK_OEM_PERIOD)
    case KeyMinus => Some(VK_OEM_MINUS)
    case KeyEquals => Some(VK_OEM_PLUS)
    case KeySemicolon => Some(VK_OEM_1)
    case KeySlash => Some(VK_OEM_2)
    case KeyGraveAccent => Some(VK_OEM_3)
    case KeyLeftSquareBracket => Some(VK_OEM_4)
    case KeyBackslash => Some(VK_OEM_5)
    case KeyRightSquareBracket => Some(VK_OEM_6)
    case KeyApostrophe => Some(VK_OEM_7)
    case KeySectionSign => Some(VK_OEM_8)
    case KeyUnknown => None
  }

  /** Every code other than KeyUnknown is produced, from its own virtual key.
      The switch table is taken in three groups to keep each proof small. */
  lemma TranslateReachesEveryKey(key: KeyCode)
    ensures key == KeyUnknown <==> VirtualKeyOf(key) == None
    ensures key != KeyUnknown ==> TranslateKeyCode(VirtualKeyOf(key).value) == key
  {
    if IsModifierOrEditing(key) {
      SwitchReachesFirstKeys(key);
    } else if IsLockOrKeypad(key) {
      SwitchReachesMiddleKeys(key);
    } else if !(key.KeyLetter? || key.KeyDigit? || key.KeyFunction? || key.KeyNumpad? || key == KeyUnknown) {
      SwitchReachesLastKeys(key);
    }
  }

  /** The first half of the switch table: cursor, editing and modifier keys. */
  predicate IsModifierOrEditing(key: KeyCode)
  {
    || key.KeyLeft? || key.KeyRight? || key.KeyUp? || key.KeyDown?
    || key.KeyBackspace? || key.KeyTab? || key.KeyEnter? || key.KeyHome?
    || key.KeyEnd? || key.KeyPageUp? || key.KeyPageDown? || key.KeyShift?
    || key.KeyLeftShift? || key.KeyRightShift? || key.KeyControl?
    || key.KeyLeftControl? || key.KeyRightControl? || key.KeyAlt?
    || key.KeyLeftAlt? || key.KeyRightAlt? || key.KeyEscape? || key.KeySpace?
  }

  lemma SwitchReachesFirstKeys(key: KeyCode)
    requires IsModifierOrEditing(key)
    ensures VirtualKeyOf(key).Some?
    ensures var w := VirtualKeyOf(key).value;
            && !(VK_A <= w <= VK_Z || VK_0 <= w <= VK_9 || VK_F1 <= w <= VK_F12 || VK_NUMPAD0 <= w <= VK_NUMPAD9)
            && SwitchKey(w) == key
  {
  }

  /** The middle of the switch table: lock, system and keypad operator keys. */
  predicate IsLockOrKeypad(key: KeyCode)
  {
    || key.KeyPause? || key.KeyNumLock? || key.KeyScrollLock? || key.KeyCapsLock?
    || key.KeyPrintScreen? || key.KeyInsert? || key.KeyDelete?
    || key.KeyNumpadSlash? || key.KeyNumpadAsterisk? || key.KeyNumpadMinus?
    || key.KeyNumpadPlus? || key.KeyNumpadPeriod?
  }

  lemma SwitchReachesMiddleKeys(key: KeyCode)
    requires IsLockOrKeypad(key)
    ensures VirtualKeyOf(key).Some?
    ensures var w := VirtualKeyOf(key).value;
            && !(VK_A <= w <= VK_Z || VK_0 <= w <= VK_9 || VK_F1 <= w <= VK_F12 || VK_NUMPAD0 <= w <= VK_NUMPAD9)
            && SwitchKey(w) == key
  {
  }

  /** The rest of the switch table: the punctuation (OEM) keys. */
  lemma SwitchReachesLastKeys(key: KeyCode)
    requires !key.KeyLetter? && !key.KeyDigit? && !key.KeyFunction? && !key.KeyNumpad?
    requires key != KeyUnknown && !IsModifierOrEditing(key) && !IsLockOrKeypad(key)
    ensures VirtualKeyOf(key).Some?
    ensures var w := VirtualKeyOf(key).value;
            && !(VK_A <= w <= VK_Z || VK_0 <= w <= VK_9 || VK_F1 <= w <= VK_F12 || VK_NUMPAD0 <= w <= VK_NUMPAD9)
            && SwitchKey(w) == key
  {
  }

  /** No two virtual keys share a code: a recognised key is the one its code
      comes from. The switch table is taken in three ranges of virtual keys. */
  lemma TranslateIsInjective(w: nat)
    ensures TranslateKeyCode(w) != KeyUnknown ==> VirtualKeyOf(TranslateKeyCode(w)) == Some(w)
  {
    if !(VK_A <= w <= VK_Z || VK_0 <= w <= VK_9 || VK_F1 <= w <= VK_F12 || VK_NUMPAD0 <= w <= VK_NUMPAD9) {
      if w <= VK_SPACE {
        SwitchIsInjectiveBelow(w);
      } else if w < VK_NUMLOCK {
        SwitchIsInjectiveBetween(w);
      } else {
        SwitchIsInjectiveAbove(w);
      }
    }
  }

  lemma SwitchIsInjectiveBelow(w: nat)
    requires w <= VK_SPACE
    ensures SwitchKey(w) != KeyUnknown ==> VirtualKeyOf(SwitchKey(w)) == Some(w)
  {
  }

  lemma SwitchIsInjectiveBetween(w: nat)
    requires VK_SPACE < w < VK_NUMLOCK
    ensures SwitchKey(w) != KeyUnknown ==> VirtualKeyOf(SwitchKey(w)) == Some(w)
  {
  }

  lemma SwitchIsInjectiveAbove(w: nat)
    requires w >= VK_NUMLOCK
    ensures SwitchKey(w) != KeyUnknown ==> VirtualKeyOf(SwitchKey(w)) == Some(w)
  {
  }

  /** A virtual key maps to KeyUnknown exactly when no code comes from it. */
  lemma UnknownExactlyWhenUnlisted(w: nat)
    ensures TranslateKeyCode(w) == KeyUnknown <==> forall key :: VirtualKeyOf(key) != Some(w)
  {
    if TranslateKeyCode(w) == KeyUnknown {
      forall key
        ensures VirtualKeyOf(key) != Some(w)
      {
        TranslateReachesEveryKey(key);
      }
    } else {
      TranslateIsInjective(w);
    }
  }

  datatype InputKind = Keyboard | Mouse

  /** One input event; keyState is 1 for a press and 2 for a release. */
  datatype InputMessage = InputMessage(kind: InputKind, key: KeyCode, keyState: int)

  const KeyStateDown: int := 1
  const KeyStateUp: int := 2

  /** OnKey: pushes exactly one keyboard message for the translated key. */
  function OnKey(queue: seq<InputMessage>, w: nat, isDown: bool): (queue': seq<InputMessage>)
    ensures |queue'| == |queue| + 1 && queue'[..|queue|] == queue
    ensures queue'[|queue|].kind == Keyboard
    ensures queue'[|queue|].key == TranslateKeyCode(w)
    ensures queue'[|queue|].keyState == KeyStateDown <==> isDown
    ensures queue'[|queue|].keyState == KeyStateUp <==> !isDown
  {
    queue + [InputMessage(Keyboard, TranslateKeyCode(w), if isDown then KeyStateDown else KeyStateUp)]
  }

  /** The pushed message identifies the physical key: it carries kKeyUnknown
      exactly when no code comes from the virtual key, and otherwise the one
      code whose virtual key it is. */
  lemma OnKeyIdentifiesKey(queue: seq<InputMessage>, w: nat, isDown: bool)
    ensures var msg := OnKey(queue, w, isDown)[|queue|];
            && (msg.key == KeyUnknown <==> forall key :: VirtualKeyOf(key) != Some(w))
            && (msg.key != KeyUnknown ==> VirtualKeyOf(msg.key) == Some(w))
  {
    UnknownExactlyWhenUnlisted(w);
    TranslateIsInjective(w);
  }
}
