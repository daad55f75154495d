/** What the two `GlobalInputListener` versions share: the Win32 constants
    they use, the hook structure's point, the semantic events they raise, and
    the keyboard dispatch, which both versions write identically. */
module WinUser {
  import opened Common

  const WH_KEYBOARD_LL: int := 13
  const WH_MOUSE_LL: int := 14

  const WM_KEYDOWN: int := 0x0100
  const WM_KEYUP: int := 0x0101
  const WM_MOUSEMOVE: int := 0x0200
  const WM_LBUTTONDOWN: int := 0x0201

  /** The `pt` field of the mouse hook structure, in screen pixels. */
  datatype PixelPoint = PixelPoint(x: int, y: int)

  datatype InputEvent =
    | KeyDown(vkCode: int)
    | KeyUp(vkCode: int)
    | MouseDown(point: PixelPoint)
    | MouseMoved(point: PixelPoint)

  /** The call every hook procedure returns through:
      `CallNextHookEx(IntPtr.Zero, code, wParam, lParam)`, with the
      procedure's own arguments. Its result is the procedure's result. */
  datatype NextHookCall = CallNextHookEx(code: int, wParam: int)

  /** The events `KeyboardProc` raises for one callback: none for a negative
      code, `KeyDown` or `KeyUp` for those two messages, none otherwise. */
  function KeyboardDispatch(code: int, message: int, vkCode: int): (events: seq<InputEvent>)
    ensures |events| <= 1
    ensures events == [KeyDown(vkCode)] <==> code >= 0 && message == WM_KEYDOWN
    ensures events == [KeyUp(vkCode)] <==> code >= 0 && message == WM_KEYUP
    ensures events == [] <==> code < 0 || (message != WM_KEYDOWN && message != WM_KEYUP)
  {
    if code < 0 then []
    else if message == WM_KEYDOWN then [KeyDown(vkCode)]
    else if message == WM_KEYUP then [KeyUp(vkCode)]
    else []
  }

  /** The optional `IInputMaskingService`: `None` is null, which masks nothing. */
  predicate Masked(inputMask: Option<PixelPoint -> bool>, point: PixelPoint) {
    inputMask.Some? && inputMask.value(point)
  }
}
