/** `Outlines.Inspection.GlobalInputListener`: low-level keyboard and mouse
    hooks. This version raises only `KeyDown`, `KeyUp` and `MouseDown`, and
    masks only the button press.

    The Win32 calls become parameters and logs: the handles that
    `SetWindowsHookEx` returns are arguments of `RegisterToInputEvents`, the
    hook ids it is asked to install are appended to `installed`, the handles
    passed to `UnhookWindowsHookEx` are appended to `unhooked`, the events
    raised to subscribers are appended to `raised`, and each hook procedure
    returns the `CallNextHookEx` call it ends with. */
module InspectionInput {
  import opened Common
  import opened WinUser

  /** The events `MouseProc` raises for one callback: `MouseDown` for an
      unmasked left-button press, nothing for any other message. */
  function MouseDispatch(inputMask: Option<PixelPoint -> bool>, code: int, message: int, point: PixelPoint): (events: seq<InputEvent>)
    ensures |events| <= 1
    ensures events == [MouseDown(point)] <==> code >= 0 && message == WM_LBUTTONDOWN && !Masked(inputMask, point)
    ensures events == [] <==> !(code >= 0 && message == WM_LBUTTONDOWN && !Masked(inputMask, point))
  {
    if code < 0 then []
    else if message == WM_LBUTTONDOWN then
      if !Masked(inputMask, point) then [MouseDown(point)] else []
    else []
  }

  class GlobalInputListener {
    const inputMaskingService: Option<PixelPoint -> bool>
    var keyboardHookProc: bool    // the delegate field is non-null
    var mouseHookProc: bool
    var keyboardHookPtr: int      // 0 is IntPtr.Zero
    var mouseHookPtr: int
    var raised: seq<InputEvent>
    var unhooked: seq<int>
    var installed: seq<int>       // hook ids passed to SetWindowsHookEx

    constructor(inputMaskingService: Option<PixelPoint -> bool>)
      ensures this.inputMaskingService == inputMaskingService
      ensures !keyboardHookProc && !mouseHookProc && keyboardHookPtr == 0 && mouseHookPtr == 0
      ensures raised == [] && unhooked == [] && installed == []
    {
      this.inputMaskingService := inputMaskingService;
      keyboardHookProc, mouseHookProc := false, false;
      keyboardHookPtr, mouseHookPtr := 0, 0;
      raised, unhooked, installed := [], [], [];
    }

    /** Creates both delegates and stores the handles the OS returns for the
        keyboard and the mouse hook (0 when installation fails). Handles held
        before are overwritten, not unhooked. */
    method RegisterToInputEvents(keyboardHandle: int, mouseHandle: int)
      modifies this
      ensures keyboardHookProc && mouseHookProc
      ensures keyboardHookPtr == keyboardHandle && mouseHookPtr == mouseHandle
      ensures installed == old(installed) + [WH_KEYBOARD_LL, WH_MOUSE_LL]
      ensures raised == old(raised) && unhooked == old(unhooked)
    {
      keyboardHookProc := true;
      mouseHookProc := true;
      keyboardHookPtr := keyboardHandle;
      mouseHookPtr := mouseHandle;
      installed := installed + [WH_KEYBOARD_LL, WH_MOUSE_LL];
    }

    /** Unhooks the mouse hook, then the keyboard hook, each only when its
        handle is non-zero; a delegate is released only together with its
        handle. */
    method UnregisterFromInputEvents()
      modifies this
      ensures mouseHookPtr == 0 && keyboardHookPtr == 0
      ensures unhooked == old(unhooked)
        + (if old(mouseHookPtr) != 0 then [old(mouseHookPtr)] else [])
        + (if old(keyboardHookPtr) != 0 then [old(keyboardHookPtr)] else [])
      ensures mouseHookProc == (old(mouseHookProc) && old(mouseHookPtr) == 0)
      ensures keyboardHookProc == (old(keyboardHookProc) && old(keyboardHookPtr) == 0)
      ensures raised == old(raised) && installed == old(installed)
      // idempotent: once both handles are zero, a further call changes nothing
      ensures old(mouseHookPtr) == 0 && old(keyboardHookPtr) == 0 ==>
        unhooked == old(unhooked) && mouseHookProc == old(mouseHookProc) && keyboardHookProc == old(keyboardHookProc)
    {
      if mouseHookPtr != 0 {
        unhooked := unhooked + [mouseHookPtr];
        mouseHookPtr := 0;
        mouseHookProc := false;
      }
      if keyboardHookPtr != 0 {
        unhooked := unhooked + [keyboardHookPtr];
        keyboardHookPtr := 0;
        keyboardHookProc := false;
      }
    }

    /** `vkCode` is the first field of the keyboard hook structure. */
    method KeyboardProc(code: int, wParam: int, vkCode: int) returns (next: NextHookCall)
      modifies this`raised
      ensures next == CallNextHookEx(code, wParam)
      ensures raised == old(raised) + KeyboardDispatch(code, wParam, vkCode)
    {
      if code < 0 {
        return CallNextHookEx(code, wParam);
      }
      var message := wParam;
      if message == WM_KEYDOWN {
        raised := raised + [KeyDown(vkCode)];
      } else if message == WM_KEYUP {
        raised := raised + [KeyUp(vkCode)];
      }
      return CallNextHookEx(code, wParam);
    }

    /** `point` is the `pt` field of the mouse hook structure; this version
        reads it only for a button press. */
    method MouseProc(code: int, wParam: int, point: PixelPoint) returns (next: NextHookCall)
      modifies this`raised
      ensures next == CallNextHookEx(code, wParam)
      ensures raised == old(raised) + MouseDispatch(inputMaskingService, code, wParam, point)
    {
      if code < 0 {
        return CallNextHookEx(code, wParam);
      }
      var message := wParam;
      if message == WM_LBUTTONDOWN {
        var cursorPos := point;
        if inputMaskingService.None? || !inputMaskingService.value(cursorPos) {
          raised := raised + [MouseDown(cursorPos)];
        }
      }
      return CallNextHookEx(code, wParam);
    }

    /** `GetCursorPos` reports success and a position; on failure the
        result is `Point.Empty`, the origin. */
    function GetCursorPosition(succeeded: bool, cursorPos: PixelPoint): (p: PixelPoint)
      ensures succeeded ==> p == cursorPos
      ensures !succeeded ==> p == PixelPoint(0, 0)
    {
      if succeeded then cursorPos else PixelPoint(0, 0)
    }

    /** `(GetKeyState(vkCode) & 0x8000) != 0`, where `keyState` is the
        16-bit result, sign-extended to 32 bits before the mask: the key is
        down exactly when the state is negative. */
    function IsKeyDown(keyState: int): (down: bool)
      requires -0x8000 <= keyState < 0x8000
      ensures down <==> keyState < 0
    {
      var bits := if keyState < 0 then keyState + 0x1_0000_0000 else keyState;
      assert keyState < 0 ==> bits / 0x8000 == 0x1_FFFF;
      assert keyState >= 0 ==> bits / 0x8000 == 0;
      (bits / 0x8000) % 2 == 1
    }
  }

  /** A press on a masked point raises nothing; the same press with no
      mask raises exactly one `MouseDown`. */
  lemma MaskSuppressesMouseDown(inputMask: PixelPoint -> bool, code: int, point: PixelPoint)
    requires code >= 0 && inputMask(point)
    ensures MouseDispatch(Some(inputMask), code, WM_LBUTTONDOWN, point) == []
    ensures MouseDispatch(None, code, WM_LBUTTONDOWN, point) == [MouseDown(point)]
  {
  }
}
