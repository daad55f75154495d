/** `Outlines.GlobalInputListener`: the version of the low-level hooks that
    also raises `MouseMoved`. It reads the mouse hook structure for every
    message and tests the mask first, so a masked point suppresses both the
    move and the button press. Win32 calls are modelled as in
    `InspectionInput`. */
module OutlinesInput {
  import opened Common
  import opened WinUser
  import InspectionInput

  /** The events `MouseProc` raises for one callback: for an unmasked
      point, `MouseMoved` for a move and `MouseDown` for a left-button press;
      nothing otherwise. */
  function MouseDispatch(inputMask: Option<PixelPoint -> bool>, code: int, message: int, point: PixelPoint): (events: seq<InputEvent>)
    ensures |events| <= 1
    ensures events == [MouseMoved(point)] <==> code >= 0 && message == WM_MOUSEMOVE && !Masked(inputMask, point)
    ensures events == [MouseDown(point)] <==> code >= 0 && message == WM_LBUTTONDOWN && !Masked(inputMask, point)
    ensures events == [] <==>
      code < 0 || Masked(inputMask, point) || (message != WM_MOUSEMOVE && message != WM_LBUTTONDOWN)
  {
    if code < 0 || Masked(inputMask, point) then []
    else if message == WM_MOUSEMOVE then [MouseMoved(point)]
    else if message == WM_LBUTTONDOWN then [MouseDown(point)]
    else []
  }

  class GlobalInputListener {
    const inputMaskingService: Option<PixelPoint -> bool>
    var keyboardHookProc: bool    // the delegate field is non-null
    var mouseHookProc: bool
    var keyboardHookPtr: int      // 0 is IntPtr.Zero
    var mouseHookPtr: int
    var raised: seq<InputEvent>
    var unhooked: seq<int>
    var installed: seq<int>       // hook ids passed to SetWindowsHookEx

    constructor(inputMaskingService: Option<PixelPoint -> bool>)
      ensures this.inputMaskingService == inputMaskingService
      ensures !keyboardHookProc && !mouseHookProc && keyboardHookPtr == 0 && mouseHookPtr == 0
      ensures raised == [] && unhooked == [] && installed == []
    {
      this.inputMaskingService := inputMaskingService;
      keyboardHookProc, mouseHookProc := false, false;
      keyboardHookPtr, mouseHookPtr := 0, 0;
      raised, unhooked, installed := [], [], [];
    }

    /** Creates both delegates and stores the handles the OS returns for the
        keyboard and the mouse hook (0 when installation fails). Handles held
        before are overwritten, not unhooked. */
    method RegisterToInputEvents(keyboardHandle: int, mouseHandle: int)
      modifies this
      ensures keyboardHookProc && mouseHookProc
      ensures keyboardHookPtr == keyboardHandle && mouseHookPtr == mouseHandle
      ensures installed == old(installed) + [WH_KEYBOARD_LL, WH_MOUSE_LL]
      ensures raised == old(raised) && unhooked == old(unhooked)
    {
      keyboardHookProc := true;
      mouseHookProc := true;
      keyboardHookPtr := keyboardHandle;
      mouseHookPtr := mouseHandle;
      installed := installed + [WH_KEYBOARD_LL, WH_MOUSE_LL];
    }

    /** Unhooks the mouse hook, then the keyboard hook, each only when its
        handle is non-zero; a delegate is released only together with its
        handle. */
    method UnregisterFromInputEvents()
      modifies this
      ensures mouseHookPtr == 0 && keyboardHookPtr == 0
      ensures unhooked == old(unhooked)
        + (if old(mouseHookPtr) != 0 then [old(mouseHookPtr)] else [])
        + (if old(keyboardHookPtr) != 0 then [old(keyboardHookPtr)] else [])
      ensures mouseHookProc == (old(mouseHookProc) && old(mouseHookPtr) == 0)
      ensures keyboardHookProc == (old(keyboardHookProc) && old(keyboardHookPtr) == 0)
      ensures raised == old(raised) && installed == old(installed)
      // idempotent: once both handles are zero, a further call changes nothing
      ensures old(mouseHookPtr) == 0 && old(keyboardHookPtr) == 0 ==>
        unhooked == old(unhooked) && mouseHookProc == old(mouseHookProc) && keyboardHookProc == old(keyboardHookProc)
    {
      if mouseHookPtr != 0 {
        unhooked := unhooked + [mouseHookPtr];
        mouseHookPtr := 0;
        mouseHookProc := false;
      }
      if keyboardHookPtr != 0 {
        unhooked := unhooked + [keyboardHookPtr];
        keyboardHookPtr := 0;
        keyboardHookProc := false;
      }
    }

    /** `vkCode` is the first field of the keyboard hook structure. */
    method KeyboardProc(code: int, wParam: int, vkCode: int) returns (next: NextHookCall)
      modifies this`raised
      ensures next == CallNextHookEx(code, wParam)
      ensures raised == old(raised) + KeyboardDispatch(code, wParam, vkCode)
    {
      if code < 0 {
        return CallNextHookEx(code, wParam);
      }
      var message := wParam;
      if message == WM_KEYDOWN {
        raised := raised + [KeyDown(vkCode)];
      } else if message == WM_KEYUP {
        raised := raised + [KeyUp(vkCode)];
      }
      return CallNextHookEx(code, wParam);
    }

    /** `point` is the `pt` field of the mouse hook structure. */
    method MouseProc(code: int, wParam: int, point: PixelPoint) returns (next: NextHookCall)
      modifies this`raised
      ensures next == CallNextHookEx(code, wParam)
      ensures raised == old(raised) + MouseDispatch(inputMaskingService, code, wParam, point)
    {
      if code < 0 {
        return CallNextHookEx(code, wParam);
      }
      var message := wParam;
      var cursorPos := point;
      if inputMaskingService.None? || !inputMaskingService.value(cursorPos) {
        if message == WM_MOUSEMOVE {
          raised := raised + [MouseMoved(cursorPos)];
        } else if message == WM_LBUTTONDOWN {
          raised := raised + [MouseDown(cursorPos)];
        }
      }
      return CallNextHookEx(code, wParam);
    }
  }

  /** A masked point raises neither a move nor a press; with no mask each
      raises exactly one event. */
  lemma MaskSuppressesMouseEvents(inputMask: PixelPoint -> bool, code: int, message: int, point: PixelPoint)
    requires code >= 0 && inputMask(point)
    requires message == WM_MOUSEMOVE || message == WM_LBUTTONDOWN
    ensures MouseDispatch(Some(inputMask), code, message, point) == []
    ensures |MouseDispatch(None, code, message, point)| == 1
  {
  }

  /** The two versions agree on left-button presses, and differ on moves:
      this version raises `MouseMoved` for an unmasked move, the other
      version raises nothing for any move. */
  lemma VersionsCompared(inputMask: Option<PixelPoint -> bool>, code: int, message: int, point: PixelPoint)
    ensures message == WM_LBUTTONDOWN ==>
      MouseDispatch(inputMask, code, message, point) == InspectionInput.MouseDispatch(inputMask, code, message, point)
    ensures message == WM_MOUSEMOVE ==>
      && InspectionInput.MouseDispatch(inputMask, code, message, point) == []
      && (MouseDispatch(inputMask, code, message, point) == [] <==> code < 0 || Masked(inputMask, point))
  {
  }
}
