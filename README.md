# Outlines inspector core, modelled in Dafny

Outlines lets a user point at any on-screen UI element and see its bounds, text and process drawn as an overlay. This project models the logic at the centre of that:

- **Hit test** (`LiveElements`): `LiveElementProvider` walks the UI Automation tree depth-first from the desktop. It prunes every element whose bounding rectangle does not contain the point. It skips children that are off-screen or that are the inspector's own window (named "Outlines" in any letter case, with control type Window). It returns the deepest element found by the first matching child. The live tree is an immutable datatype. Each node says whether reading its bounds throws and whether `FindAll` on its children throws.
- **Coordinate conversion** (`Coordinates`): `CachedCoordinateConverter` maps screen space to the overlay's local space and back. Local = (screen − origin) / 1.5, where the origin is the top-left of the tree root's bounding rectangle. Sizes ignore the origin. A rectangle converts its top-left as a point and its size as a size.
- **Distance outline** (`Distances`): a guide line between two points. It holds the midpoint, the length and whether it is vertical.
- **Dimensions label** (`Dimensions`): the "width x height" text and where its 100 × 35 box goes. The box goes below the element if its bottom-centre point lies on the monitor. Otherwise it goes above the element if its top-left point lies on the monitor. Otherwise it goes inside the element, along the bottom edge. Only these single points are tested, not the whole box.
- **Global input hooks** (`InspectionInput`, `OutlinesInput`, sharing `WinUser`): the two versions of `GlobalInputListener`. Both register and unregister a low-level keyboard hook and mouse hook, and both decode each callback into at most one event. The `Outlines.Inspection` version raises only key events and left-button presses. The `Outlines` version also raises mouse moves, and its input mask suppresses both moves and presses. Every callback forwards to the next hook, provided no event handler or mask throws.
- **Properties view models** (`AppProperties`, `OutlinesAppProperties`): each setter stores a new value and raises `PropertyChanged` only when the value differs. An update re-reads the selection through the setters in order. The notifications raised are kept as a log of property names.

Shared modules: `Common` (Option, Result, Outcome, the exceptions thrown), `Geometry` (WPF `Point`, `Size`, `Rect` over `real`, with `Rect.Contains` inclusive on all four edges and false for `Rect.Empty`), `Elements` (the element snapshots as opaque values).

Behaviour of the code worth knowing:

- A failed query makes the element itself the answer (Outlines/LiveElementProvider.cs:57-59), and the walk stops there without moving on to later siblings. The failed query can be reading the element's bounds, or a `FindAll` on the children of an element that contains the point. The inner `catch` around each child (Outlines/LiveElementProvider.cs:46-54) never fires, because the recursive call catches everything itself.
- `UnregisterFromInputEvents` clears a hook delegate only together with a non-zero handle.
- `RegisterToInputEvents` stores whatever handle `SetWindowsHookEx` returns, zero included, and raises nothing.
- The dimensions label asks the screen helper for the monitor at the element's local top-left (OutlinesApp/ViewModels/DimensionsViewModel.cs:45).

## Model

| member | source | states |
|---|---|---|
| Geometry.Rect.Contains | Outlines/LiveElementProvider.cs:38 | a rect contains a point iff it is not `Rect.Empty` and the point lies within it, all four edges inclusive |
| Geometry.NewSize | OutlinesApp/Services/CachedCoordinateConverter.cs:29 | `new Size` succeeds iff both extents are non-negative, else throws ArgumentException |
| Geometry.NewRect | OutlinesApp/Services/CachedCoordinateConverter.cs:41 | `new Rect(point, size)` is empty iff the size is empty, else has that top-left and size |
| LiveElements.FilterCondition | Outlines/LiveElementProvider.cs:16-18 | the condition built in the constructor matches an element iff it is on-screen and not (named "Outlines" ignoring case and of control type Window) |
| LiveElements.ContainingElement | Outlines/LiveElementProvider.cs:27-60 | the walk from a non-null element: null iff its bounds are readable and exclude the point; an unreadable element is itself the answer; any answer is reached along a path of filtered, point-containing elements and has no filtered child that contains the point unless its own query failed |
| LiveElements.FirstMatch | Outlines/LiveElementProvider.cs:43-55 | the loop over filtered children yields nothing iff no filtered child may contain the point; otherwise its answer is reached through some filtered child and is deepest |
| LiveElements.GetContainingElement | Outlines/LiveElementProvider.cs:29-32 | a null root gives null; otherwise as `ContainingElement` |
| LiveElements.TryGetElementFromPoint | Outlines/LiveElementProvider.cs:21-25 | starting at the desktop, the element handed to the properties provider is null iff the desktop's readable bounds exclude the point, and is otherwise reached from the desktop |
| LiveElements.FirstHitWins | Outlines/LiveElementProvider.cs:44-52 | the answer is the result of the first filtered child, in enumeration order, whose walk yields an element |
| LiveElements.LaterSiblingsIgnored | Outlines/LiveElementProvider.cs:49-52 | once some child yields an element, appending more siblings does not change the answer |
| LiveElements.ReachedMayHit | Outlines/LiveElementProvider.cs:36-41 | the element a walk ends at either has unreadable bounds or contains the point |
| LiveElements.ReachedBelowIsCandidate | Outlines/LiveElementProvider.cs:43 | every element reached below the start passed the filter |
| LiveElements.FilteredElementsNeverReturned | Outlines/LiveElementProvider.cs:16-18 | the answer is the root or an element that is neither off-screen nor the inspector's own window |
| LiveElements.AnswerIsFixedPoint | Outlines/LiveElementProvider.cs:34-59 | walking again from the answer returns the answer |
| LiveElements.ReachedHasNoFailures | Outlines/LiveElementProvider.cs:34-57 | an element reached in a tree where no query fails has no failing query below it either |
| LiveElements.DeepestContainingElement | Outlines/LiveElementProvider.cs:36-59 | when no query fails, the answer's rect contains the point and no filtered child of the answer contains it |
| LiveElements.UnreadableSiblingWins | Outlines/LiveElementProvider.cs:43-59 | example: an "OUTLINES" window is skipped, and an unreadable later sibling is answered before a pane that contains the point |
| Coordinates.CachedCoordinateConverter.RootPosition | OutlinesApp/Services/CachedCoordinateConverter.cs:9 | the origin is the top-left corner of the tree root's bounding rectangle |
| Coordinates.CachedCoordinateConverter.PointFromScreen | OutlinesApp/Services/CachedCoordinateConverter.cs:17-20 | the local point maps back to the screen point under `PointToScreen` |
| Coordinates.CachedCoordinateConverter.PointToScreen | OutlinesApp/Services/CachedCoordinateConverter.cs:22-25 | subtracting the root position from the screen point and dividing by 1.5 gives back the local point |
| Coordinates.CachedCoordinateConverter.SizeFromScreen | OutlinesApp/Services/CachedCoordinateConverter.cs:27-30 | succeeds iff the size is a valid non-empty size (else ArgumentException), and `SizeToScreen` restores it |
| Coordinates.CachedCoordinateConverter.SizeToScreen | OutlinesApp/Services/CachedCoordinateConverter.cs:32-35 | succeeds iff the size is valid and non-empty; each extent divided by 1.5 gives back the local extent |
| Coordinates.CachedCoordinateConverter.RectFromScreen | OutlinesApp/Services/CachedCoordinateConverter.cs:37-42 | succeeds iff the rect is valid and not `Rect.Empty` (else ArgumentException), and `RectToScreen` restores it |
| Coordinates.CachedCoordinateConverter.RectToScreen | OutlinesApp/Services/CachedCoordinateConverter.cs:44-49 | succeeds iff the rect is valid and non-empty; its top-left is the converted top-left point and its extent is the converted size |
| Coordinates.NewCachedCoordinateConverter | OutlinesApp/Services/CachedCoordinateConverter.cs:12-15 | the converter keeps the tree it is given; the scale is the constant 1.5 |
| Coordinates.RootIsLocalOrigin | OutlinesApp/Services/CachedCoordinateConverter.cs:9-25 | the root's top-left corner maps to the local origin and back, and the root rectangle converts to one whose top-left is the origin |
| Coordinates.PointRoundTrips | OutlinesApp/Services/CachedCoordinateConverter.cs:17-25 | point conversion round-trips in both directions |
| Coordinates.SizeRoundTrips | OutlinesApp/Services/CachedCoordinateConverter.cs:27-35 | size conversion round-trips in both directions for every valid non-empty size |
| Coordinates.RectRoundTrips | OutlinesApp/Services/CachedCoordinateConverter.cs:37-49 | rect conversion round-trips in both directions for every valid non-empty rect |
| Coordinates.ContainmentPreserved | OutlinesApp/Services/CachedCoordinateConverter.cs:37-42 | a screen rect contains a screen point iff the converted rect contains the converted point |
| Coordinates.CornersConvertAsPoints | OutlinesApp/Services/CachedCoordinateConverter.cs:37-42 | converting top-left and size independently maps the bottom-right corner as a point |
| Distances.NewDistanceOutline | Outlines/DistanceOutline.cs:15-23 | start, end and both role flags are stored as passed; the midpoint is equidistant from both ends on each axis; the distance is non-negative and its square is dx² + dy² |
| Distances.DistanceOutline.IsVertical | Outlines/DistanceOutline.cs:11 | vertical iff the end point lies on the vertical line through the start point |
| Distances.LengthIsUnique | Outlines/DistanceOutline.cs:22 | the distance is determined by the two points |
| Distances.RoleFlagsDoNotAffectGeometry | Outlines/DistanceOutline.cs:19-22 | the role flags change neither midpoint, distance nor verticality |
| Distances.VerticalMidPoint | Outlines/DistanceOutline.cs:11-21 | the line is vertical iff the midpoint's X equals the start's X |
| Distances.Examples | Outlines/DistanceOutline.cs:11-22 | (0,0)→(0,6) is vertical with midpoint (0,3); (0,0)→(4,0) has distance 4 and is not vertical |
| Dimensions.ContainerLayout | OutlinesApp/ViewModels/DimensionsViewModel.cs:40-61 | the box is 100 × 35 with left edge at centre X − 50; Below (top = element bottom) iff (centre X, bottom + 35) is on the monitor; else Above (top = element top − 35) iff that top-left is on the monitor; else Inside (top = bottom − 35) |
| Dimensions.DimensionsViewModel.Init | OutlinesApp/ViewModels/DimensionsViewModel.cs:31-33 | the constructor stores its three collaborators; the properties hold their defaults until initialised |
| Dimensions.DimensionsViewModel.DimensionsText | OutlinesApp/ViewModels/DimensionsViewModel.cs:19 | the text is the formatted width, then " x ", then the formatted height of the screen bounding rect |
| Dimensions.DimensionsViewModel.InitializeContainerRect | OutlinesApp/ViewModels/DimensionsViewModel.cs:37-62 | throws ArgumentException for an empty element rect, NullReferenceException for a null screen helper, ArgumentException for an empty monitor rect; otherwise `TextPlacement` and `ContainerRect` are exactly `ContainerLayout` of the local rects |
| Dimensions.NewDimensionsViewModel | OutlinesApp/ViewModels/DimensionsViewModel.cs:25-35 | a null element or converter throws ArgumentNullException naming the first null argument; with both present, an empty element or monitor rect throws ArgumentException from the converter, a null screen helper throws NullReferenceException at its first use, and otherwise construction succeeds with the layout rule applied |
| Dimensions.ContainerCenteredOnElement | OutlinesApp/ViewModels/DimensionsViewModel.cs:40-41 | the box is horizontally centred on the element whatever the placement |
| Dimensions.InsideStaysWithinElement | OutlinesApp/ViewModels/DimensionsViewModel.cs:56-57 | an Inside box lies within the element's vertical extent when the element is at least 35 tall |
| Dimensions.OutsidePlacementsTouchTheElement | OutlinesApp/ViewModels/DimensionsViewModel.cs:41-53 | a Below box starts at the element's bottom edge and an Above box ends at its top edge |
| Dimensions.DimensionsTextIsUnambiguous | OutlinesApp/ViewModels/DimensionsViewModel.cs:19 | when the number rendering never emits a space, two equal labels render equal widths and equal heights; with an injective rendering, the two elements have the same width and height |
| WinUser.KeyboardDispatch | Outlines.Inspection/GlobalInputListener.cs:101-122 | at most one event: KeyDown(vk) iff code ≥ 0 and WM_KEYDOWN, KeyUp(vk) iff code ≥ 0 and WM_KEYUP, nothing otherwise |
| InspectionInput.MouseDispatch | Outlines.Inspection/GlobalInputListener.cs:124-145 | at most one event: MouseDown(pt) iff code ≥ 0, WM_LBUTTONDOWN and pt not masked; moves and all else raise nothing |
| InspectionInput.GlobalInputListener.constructor | Outlines.Inspection/GlobalInputListener.cs:67-70 | keeps the optional mask; no hook, no delegate, nothing raised |
| InspectionInput.GlobalInputListener.RegisterToInputEvents | Outlines.Inspection/GlobalInputListener.cs:72-83 | both delegates set; hook ids WH_KEYBOARD_LL then WH_MOUSE_LL requested; both handles stored as the OS returned them, earlier handles overwritten |
| InspectionInput.GlobalInputListener.UnregisterFromInputEvents | Outlines.Inspection/GlobalInputListener.cs:85-99 | unhooks mouse then keyboard, only non-zero handles; both handles zero afterwards; a delegate released only with its handle; idempotent |
| InspectionInput.GlobalInputListener.KeyboardProc | Outlines.Inspection/GlobalInputListener.cs:101-122 | appends `KeyboardDispatch` to the raised events and always returns through the next hook with its own arguments |
| InspectionInput.GlobalInputListener.MouseProc | Outlines.Inspection/GlobalInputListener.cs:124-145 | appends `MouseDispatch` to the raised events and always returns through the next hook |
| InspectionInput.GlobalInputListener.GetCursorPosition | Outlines.Inspection/GlobalInputListener.cs:147-150 | the OS position on success, (0,0) when the query fails |
| InspectionInput.GlobalInputListener.IsKeyDown | Outlines.Inspection/GlobalInputListener.cs:152-156 | bit 0x8000 of the sign-extended key state is set iff the state is negative |
| InspectionInput.MaskSuppressesMouseDown | Outlines.Inspection/GlobalInputListener.cs:134-141 | a press on a masked point raises nothing; with no mask it raises exactly one MouseDown |
| OutlinesInput.MouseDispatch | Outlines/GlobalInputListener.cs:126-151 | at most one event: MouseMoved(pt) iff code ≥ 0, WM_MOUSEMOVE and unmasked; MouseDown(pt) iff code ≥ 0, WM_LBUTTONDOWN and unmasked; nothing otherwise |
| OutlinesInput.GlobalInputListener.constructor | Outlines/GlobalInputListener.cs:69-72 | keeps the optional mask; no hook, no delegate, nothing raised |
| OutlinesInput.GlobalInputListener.RegisterToInputEvents | Outlines/GlobalInputListener.cs:74-85 | both delegates set; hook ids WH_KEYBOARD_LL then WH_MOUSE_LL requested; both handles stored as the OS returned them, earlier handles overwritten |
| OutlinesInput.GlobalInputListener.UnregisterFromInputEvents | Outlines/GlobalInputListener.cs:87-101 | unhooks mouse then keyboard, only non-zero handles; both handles zero afterwards; a delegate released only with its handle; idempotent |
| OutlinesInput.GlobalInputListener.KeyboardProc | Outlines/GlobalInputListener.cs:103-124 | appends `KeyboardDispatch` to the raised events and always returns through the next hook |
| OutlinesInput.GlobalInputListener.MouseProc | Outlines/GlobalInputListener.cs:126-151 | appends `MouseDispatch` to the raised events and always returns through the next hook |
| OutlinesInput.MaskSuppressesMouseEvents | Outlines/GlobalInputListener.cs:137-148 | a masked point suppresses both moves and presses; with no mask each raises exactly one event |
| OutlinesInput.VersionsCompared | Outlines/GlobalInputListener.cs:126-151 | both versions treat presses alike; only this version raises moves, and only for unmasked points |
| AppProperties.ShownFor | Outlines.App/ViewModels/PropertiesViewModel.cs:71-73 | an update stores the selection and its nested text and process values, or nulls when nothing is selected |
| AppProperties.Notifications | Outlines.App/ViewModels/PropertiesViewModel.cs:69-74 | at most three notifications, in setter order; each property is named iff its value changes; none iff nothing changes |
| AppProperties.PropertiesViewModel.constructor | Outlines.App/ViewModels/PropertiesViewModel.cs:61-66 | stores the service and shows its selection; no notification reaches anyone |
| AppProperties.PropertiesViewModel.SetElementProperties | Outlines.App/ViewModels/PropertiesViewModel.cs:15-22 | stores the value; raises "ElementProperties" iff it differs |
| AppProperties.PropertiesViewModel.SetTextProperties | Outlines.App/ViewModels/PropertiesViewModel.cs:29-36 | stores the value; raises "TextProperties" iff it differs |
| AppProperties.PropertiesViewModel.SetProcessProperties | Outlines.App/ViewModels/PropertiesViewModel.cs:43-50 | stores the value; raises "ProcessProperties" iff it differs |
| AppProperties.PropertiesViewModel.OnSelectedElementChanged | Outlines.App/ViewModels/PropertiesViewModel.cs:69-74 | shows the service's selection afterwards and raises exactly `Notifications` of the change; a repeated update raises nothing |
| AppProperties.NewPropertiesViewModel | Outlines.App/ViewModels/PropertiesViewModel.cs:55-60 | a null service throws ArgumentNullException("outlinesService"); any other service yields a view model showing its selection with no notification raised |
| OutlinesAppProperties.Notifications | OutlinesApp/ViewModels/PropertiesViewModel.cs:48-52 | at most two notifications, element before text; each named iff its value changes |
| OutlinesAppProperties.PropertiesViewModel.constructor | OutlinesApp/ViewModels/PropertiesViewModel.cs:40-46 | stores the service and its selected element and text properties; no notification reaches anyone |
| OutlinesAppProperties.PropertiesViewModel.SetElementProperties | OutlinesApp/ViewModels/PropertiesViewModel.cs:14-21 | stores the value; raises "ElementProperties" iff it differs |
| OutlinesAppProperties.PropertiesViewModel.SetTextProperties | OutlinesApp/ViewModels/PropertiesViewModel.cs:28-35 | stores the value; raises "TextProperties" iff it differs |
| OutlinesAppProperties.PropertiesViewModel.OnSelectedElementChanged | OutlinesApp/ViewModels/PropertiesViewModel.cs:48-52 | stores the service's selected element and text and raises exactly `Notifications` of the change; a repeated update raises nothing |

## Left out

- Win32 calls (`SetWindowsHookEx`, `UnhookWindowsHookEx`, `CallNextHookEx`, `GetModuleHandle`, `GetCursorPos`, `GetKeyState`) and `Marshal` reads are not executed. Their results are arguments, and the calls made are recorded: the hook ids requested, the unhooked handles in order, and each callback's `CallNextHookEx` call.
- The OS hook thread, the concurrency of callbacks with `UnregisterFromInputEvents`, and the OS's guarantee that an unhooked procedure is never called again are not modelled. The model shows only that both handles are zero after unregistering.
- Event subscription (`+=` on `SelectedElementChanged`, `KeyDown`, `MouseDown` and the others) and WPF data binding are not modelled. The logs hold what is raised. Whether a handler is attached is not tracked, except during construction, when none can be.
- `PropertiesProvider.GetElementProperties` belongs to another component. `TryGetElementFromPoint` returns the element it would be handed.
- Floating point is modelled as `real`. There is no rounding, NaN or infinity. `Rect.Empty` and `Size.Empty` are separate constructors instead of infinite values.
- Coordinates.CachedCoordinateConverter.PointFromScreen: requires a root with a non-empty bounding rectangle, because `Rect.Empty`'s top-left is (+∞, +∞) and has no `real` value. The same holds for every converter member that uses the origin, and for `Dimensions.DimensionsViewModel.InitializeContainerRect` and `Dimensions.NewDimensionsViewModel`.
- InspectionInput.GlobalInputListener.KeyboardProc: assumes the `KeyDown` and `KeyUp` handlers do not throw. In the code they run before `CallNextHookEx` (Outlines.Inspection/GlobalInputListener.cs:114-121), and nothing catches their exceptions, so a throwing handler skips forwarding. In the model, raising an event is an append that cannot fail, so "always returns through the next hook" holds only under this assumption.
- InspectionInput.GlobalInputListener.MouseProc: assumes the `MouseDown` handlers and `IsInInputMask` do not throw, for the same reason (Outlines.Inspection/GlobalInputListener.cs:137-144).
- OutlinesInput.GlobalInputListener.KeyboardProc: assumes the key handlers do not throw, as for the other version.
- OutlinesInput.GlobalInputListener.MouseProc: assumes the `MouseMoved` and `MouseDown` handlers and `IsInInputMask` do not throw (Outlines/GlobalInputListener.cs:137-150).
- Dimensions.DimensionsViewModel: the coordinate converter is fixed to `CachedCoordinateConverter`, while the code accepts any `ICoordinateConverter` (OutlinesApp/ViewModels/DimensionsViewModel.cs:16, :25). The `ArgumentException` for an empty element or monitor rect therefore comes from that converter's `RectFromScreen`, not from the view model. Another converter could behave differently.
- Coordinates.NewCachedCoordinateConverter: a null tree is not modelled. The source would throw NullReferenceException only at first use.
- Distances.NewDistanceOutline: takes the length that `Vector.Length` computes as an argument. Its requires states that this argument is the non-negative square root of dx² + dy², because Dafny's reals have no square root.
- Dimensions.DimensionsViewModel.DimensionsText: takes the culture's double-to-string formatting as a function argument, and requires the non-empty bounding rect that a successfully constructed view model always has.
- `IScreenHelper.GetDisplayRect` (the monitor lookup) is a caller-supplied function. The model records that it is queried at the element's local top-left, as the code does.
- The `Point` extension methods `Subtract`, `Divide`, `Multiply` and `Add` are not part of this model. They are taken to work component-wise.
- LiveElements.EqualsIgnoreCase folds only the letters A–Z. Case-insensitive matching of other characters by UI Automation is not modelled.
- Element, text and process property objects are opaque values. Each carries an identity handle, so `!=` between them behaves like reference inequality.
- AppProperties.OutlinesService and OutlinesAppProperties.OutlinesService stand in for the `IOutlinesService` interfaces. They hold only the selection the view models read.
- OutlinesAppProperties.PropertiesViewModel.constructor: its service parameter is non-null by type. The source has no null check and would throw NullReferenceException on a null service.
- Outlines/IUiTreeService.cs, OutlinesApp/App.xaml.cs and Outlines.App/Windows/OverlayWindow.xaml.cs are not part of this model. They hold an interface without logic, start-up file I/O, and foreign window calls.
