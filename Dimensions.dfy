/** `DimensionsViewModel`: the "width x height" label of a selected element
    and where its 100 x 35 box goes, in the overlay's local space. The
    monitor lookup (`IScreenHelper.GetDisplayRect`) is a function supplied
    by the caller; a null screen helper is `None`. */
module Dimensions {
  import opened Common
  import opened Geometry
  import opened Elements
  import opened Coordinates

  datatype DimensionsTextPlacement = Below | Above | Inside

  const ContainerRectWidth: int := 100
  const ContainerRectHeight: int := 35

  /** Where the label box goes and which rule placed it. */
  datatype Layout = Layout(placement: DimensionsTextPlacement, containerRect: Rect)

  /** The placement rule of `InitializeContainerRect`, given the element and
      monitor rectangles already in local space. Below is preferred, then
      Above, then Inside. `ContainerRectWidth / 2` is integer division. */
  function ContainerLayout(localElementRect: Rect, localMonitorRect: Rect): (layout: Layout)
    requires localElementRect.Rect?
    ensures var centerX := localElementRect.x + localElementRect.width / 2.0;
      && layout.containerRect.Rect?
      && layout.containerRect.x == centerX - 50.0
      && layout.containerRect.width == 100.0 && layout.containerRect.height == 35.0
      && (layout.placement == Below <==> localMonitorRect.Contains(Point(centerX, localElementRect.Bottom() + 35.0)))
      && (layout.placement == Above <==>
            !localMonitorRect.Contains(Point(centerX, localElementRect.Bottom() + 35.0)) &&
            localMonitorRect.Contains(Point(centerX - 50.0, localElementRect.y - 35.0)))
      && (layout.placement == Below ==> layout.containerRect.y == localElementRect.Bottom())
      && (layout.placement == Above ==> layout.containerRect.y == localElementRect.y - 35.0)
      && (layout.placement == Inside ==> layout.containerRect.y == localElementRect.Bottom() - 35.0)
  {
    var centerX := localElementRect.x + localElementRect.width / 2.0;
    var left := centerX - (ContainerRectWidth / 2) as real;
    var size := Size(ContainerRectWidth as real, ContainerRectHeight as real);
    if localMonitorRect.Contains(Point(centerX, localElementRect.Bottom() + ContainerRectHeight as real)) then
      Layout(Below, NewRect(Point(left, localElementRect.Bottom()), size))
    else if localMonitorRect.Contains(Point(left, localElementRect.y - ContainerRectHeight as real)) then
      Layout(Above, NewRect(Point(left, localElementRect.y - ContainerRectHeight as real), size))
    else
      Layout(Inside, NewRect(Point(left, localElementRect.Bottom() - ContainerRectHeight as real), size))
  }

  class DimensionsViewModel {
    const elementProperties: ElementProperties
    const coordinateConverter: CachedCoordinateConverter
    const screenHelper: Option<Point -> Rect>
    var textPlacement: DimensionsTextPlacement
    var containerRect: Rect

    /** The field assignments of the constructor; the properties keep their
        default values until `InitializeContainerRect` runs. */
    constructor Init(elementProperties: ElementProperties, coordinateConverter: CachedCoordinateConverter, screenHelper: Option<Point -> Rect>)
      ensures this.elementProperties == elementProperties
      ensures this.coordinateConverter == coordinateConverter
      ensures this.screenHelper == screenHelper
      ensures textPlacement == Below && containerRect == Rect(0.0, 0.0, 0.0, 0.0)
    {
      this.elementProperties := elementProperties;
      this.coordinateConverter := coordinateConverter;
      this.screenHelper := screenHelper;
      textPlacement := Below;
      containerRect := Rect(0.0, 0.0, 0.0, 0.0);
    }

    /** `$"{Width} x {Height}"` of the element's screen bounding rectangle;
        `format` is the culture's rendering of a double. */
    function DimensionsText(format: real -> string): (text: string)
      requires elementProperties.boundingRect.Rect?
      ensures var w, h := format(elementProperties.boundingRect.width), format(elementProperties.boundingRect.height);
        |text| == |w| + 3 + |h| && text[..|w|] == w && text[|w|..|w| + 3] == " x " && text[|w| + 3..] == h
    {
      format(elementProperties.boundingRect.width) + " x " + format(elementProperties.boundingRect.height)
    }

    /** Converts the element rectangle to local space, asks the screen helper
        for the monitor at the local top-left, converts that too, and then
        places the label box: Below, else Above, else Inside. */
    method InitializeContainerRect() returns (outcome: Outcome)
      requires coordinateConverter.Valid()
      modifies this
      ensures var localElementRect := coordinateConverter.RectFromScreen(elementProperties.boundingRect);
        && (localElementRect.Err? ==> outcome == Fail(ArgumentException))
        && (localElementRect.Ok? && screenHelper.None? ==> outcome == Fail(NullReferenceException))
        && (localElementRect.Ok? && screenHelper.Some? ==>
              var localMonitorRect := coordinateConverter.RectFromScreen(screenHelper.value(localElementRect.value.TopLeft()));
              && (localMonitorRect.Err? ==> outcome == Fail(ArgumentException))
              && (localMonitorRect.Ok? ==>
                    outcome == Pass &&
                    Layout(textPlacement, containerRect) == ContainerLayout(localElementRect.value, localMonitorRect.value)))
    {
      var converted := coordinateConverter.RectFromScreen(elementProperties.boundingRect);
      if converted.Err? {
        return Fail(converted.error);
      }
      var localElementRect := converted.value;
      var localElementCenterX := localElementRect.x + localElementRect.width / 2.0;
      var containerRectTopLeft := Point(localElementCenterX - (ContainerRectWidth / 2) as real, localElementRect.Bottom());
      var containerRectBottomCenter := Point(localElementCenterX, containerRectTopLeft.y + ContainerRectHeight as real);
      textPlacement := Below;

      if screenHelper.None? {
        return Fail(NullReferenceException);
      }
      var monitorRect := screenHelper.value(localElementRect.TopLeft());
      var convertedMonitor := coordinateConverter.RectFromScreen(monitorRect);
      if convertedMonitor.Err? {
        return Fail(convertedMonitor.error);
      }
      var localMonitorRect := convertedMonitor.value;
      if !localMonitorRect.Contains(containerRectBottomCenter) {
        // Below would leave the screen: try above the outline.
        containerRectTopLeft := containerRectTopLeft.(y := localElementRect.y - ContainerRectHeight as real);
        textPlacement := Above;
        if !localMonitorRect.Contains(containerRectTopLeft) {
          // Neither fits: inside the outline, along its bottom edge.
          containerRectTopLeft := containerRectTopLeft.(y := localElementRect.Bottom() - ContainerRectHeight as real);
          textPlacement := Inside;
        }
      }
      containerRect := NewRect(containerRectTopLeft, Size(ContainerRectWidth as real, ContainerRectHeight as real));
      return Pass;
    }
  }

  /** The constructor: null checks in argument order (the screen helper is
      not checked), then `InitializeContainerRect`, whose exception escapes. */
  method NewDimensionsViewModel(
    elementProperties: Option<ElementProperties>,
    coordinateConverter: Option<CachedCoordinateConverter>,
    screenHelper: Option<Point -> Rect>)
    returns (r: Result<DimensionsViewModel>)
    requires coordinateConverter.Some? ==> coordinateConverter.value.Valid()
    ensures elementProperties.None? ==> r == Err(ArgumentNullException("elementProperties"))
    ensures elementProperties.Some? && coordinateConverter.None? ==> r == Err(ArgumentNullException("coordinateConverter"))
    // with both arguments present, the outcome is that of InitializeContainerRect
    ensures elementProperties.Some? && coordinateConverter.Some? ==>
      var converter, element := coordinateConverter.value, elementProperties.value;
      var localElementRect := converter.RectFromScreen(element.boundingRect);
      && (localElementRect.Err? ==> r == Err(ArgumentException))
      && (localElementRect.Ok? && screenHelper.None? ==> r == Err(NullReferenceException))
      && (localElementRect.Ok? && screenHelper.Some? ==>
            var localMonitorRect := converter.RectFromScreen(screenHelper.value(localElementRect.value.TopLeft()));
            && (localMonitorRect.Err? ==> r == Err(ArgumentException))
            && (localMonitorRect.Ok? ==> r.Ok?))
    ensures r.Ok? ==>
      && fresh(r.value)
      && elementProperties == Some(r.value.elementProperties)
      && coordinateConverter == Some(r.value.coordinateConverter)
      && r.value.screenHelper == screenHelper
      && var converter, element := r.value.coordinateConverter, r.value.elementProperties;
         && screenHelper.Some?
         && converter.RectFromScreen(element.boundingRect).Ok?
         && var localElementRect := converter.RectFromScreen(element.boundingRect).value;
            && converter.RectFromScreen(screenHelper.value(localElementRect.TopLeft())).Ok?
            && Layout(r.value.textPlacement, r.value.containerRect) ==
                 ContainerLayout(localElementRect, converter.RectFromScreen(screenHelper.value(localElementRect.TopLeft())).value)
  {
    if elementProperties.None? || coordinateConverter.None? {
      return Err(ArgumentNullException(if elementProperties.None? then "elementProperties" else "coordinateConverter"));
    }
    var vm := new DimensionsViewModel.Init(elementProperties.value, coordinateConverter.value, screenHelper);
    var outcome := vm.InitializeContainerRect();
    if outcome.Fail? {
      return Err(outcome.error);
    }
    return Ok(vm);
  }

  /** The label box is never moved sideways: it stays centred on the
      element, and only its top edge depends on the rule chosen. */
  lemma ContainerCenteredOnElement(localElementRect: Rect, localMonitorRect: Rect)
    requires localElementRect.Rect?
    ensures var c := ContainerLayout(localElementRect, localMonitorRect).containerRect;
      c.Rect? && c.x + c.width / 2.0 == localElementRect.x + localElementRect.width / 2.0
  {
  }

  /** Inside placement keeps the box within the element's vertical extent
      whenever the element is at least as tall as the box. */
  lemma InsideStaysWithinElement(localElementRect: Rect, localMonitorRect: Rect)
    requires localElementRect.Rect? && localElementRect.height >= 35.0
    requires ContainerLayout(localElementRect, localMonitorRect).placement == Inside
    ensures var c := ContainerLayout(localElementRect, localMonitorRect).containerRect;
      c.Rect? && localElementRect.y <= c.y && c.y + c.height == localElementRect.Bottom()
  {
  }

  /** Below and Above boxes never overlap the element's interior: Below
      starts at its bottom edge and Above ends at its top edge. */
  lemma OutsidePlacementsTouchTheElement(localElementRect: Rect, localMonitorRect: Rect)
    requires localElementRect.Rect?
    ensures var l := ContainerLayout(localElementRect, localMonitorRect);
      && (l.placement == Below ==> l.containerRect.y == localElementRect.Bottom())
      && (l.placement == Above ==> l.containerRect.y + l.containerRect.height == localElementRect.y)
  {
  }

  /** When the culture's rendering of a number never contains a space, two
      view models showing the same label show elements whose widths render
      alike and whose heights render alike; with a rendering that tells all
      numbers apart, the two elements have the same width and height. */
  lemma DimensionsTextIsUnambiguous(vm1: DimensionsViewModel, vm2: DimensionsViewModel, format: real -> string)
    requires vm1.elementProperties.boundingRect.Rect? && vm2.elementProperties.boundingRect.Rect?
    requires forall x: real, i :: 0 <= i < |format(x)| ==> format(x)[i] != ' '
    requires vm1.DimensionsText(format) == vm2.DimensionsText(format)
    ensures var r1, r2 := vm1.elementProperties.boundingRect, vm2.elementProperties.boundingRect;
      format(r1.width) == format(r2.width) && format(r1.height) == format(r2.height)
    ensures (forall x: real, y: real :: format(x) == format(y) ==> x == y) ==>
      var r1, r2 := vm1.elementProperties.boundingRect, vm2.elementProperties.boundingRect;
      r1.width == r2.width && r1.height == r2.height
  {
    var r1, r2 := vm1.elementProperties.boundingRect, vm2.elementProperties.boundingRect;
    LabelIsUnambiguous(format(r1.width), format(r1.height), format(r2.width), format(r2.height));
  }

  /** A "w x h" label whose width text has no space determines both texts. */
  lemma LabelIsUnambiguous(w1: string, h1: string, w2: string, h2: string)
    requires forall i :: 0 <= i < |w1| ==> w1[i] != ' '
    requires forall i :: 0 <= i < |w2| ==> w2[i] != ' '
    requires w1 + " x " + h1 == w2 + " x " + h2
    ensures w1 == w2 && h1 == h2
  {
    var t := w1 + " x " + h1;
    FirstSpaceEndsWidth(w1, h1);
    FirstSpaceEndsWidth(w2, h2);
    assert |w1| == |w2|;
    assert w1 == t[..|w1|] == w2;
    assert h1 == t[|w1| + 3..] == h2;
  }

  /** In a label whose width text has no space, the first space follows the width text. */
  lemma FirstSpaceEndsWidth(w: string, h: string)
    requires forall i :: 0 <= i < |w| ==> w[i] != ' '
    ensures (w + " x " + h)[|w|] == ' '
    ensures forall i :: 0 <= i < |w| ==> (w + " x " + h)[i] != ' '
  {
    var t := w + " x " + h;
    forall i | 0 <= i < |w|
      ensures t[i] != ' '
    {
      assert t[i] == w[i];
    }
  }
}
