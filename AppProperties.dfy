/** `Outlines.App.ViewModels.PropertiesViewModel`: shows the selected
    element's properties and its nested text and process properties. Each
    private setter stores a new value and raises `PropertyChanged` only when
    the value differs; the notifications raised are appended to
    `propertyChanged`, by property name. */
module AppProperties {
  import opened Common
  import opened Elements

  /** The part of `IOutlinesService` the view model reads: the current
      selection, which the rest of the application changes. */
  class OutlinesService {
    var selectedElementProperties: Option<ElementProperties>

    constructor(selectedElementProperties: Option<ElementProperties>)
      ensures this.selectedElementProperties == selectedElementProperties
    {
      this.selectedElementProperties := selectedElementProperties;
    }
  }

  const ElementPropertiesName: string := "ElementProperties"
  const TextPropertiesName: string := "TextProperties"
  const ProcessPropertiesName: string := "ProcessProperties"

  /** The position of each property's setter in an update. */
  function SetterOrder(name: string): int {
    if name == ElementPropertiesName then 0
    else if name == TextPropertiesName then 1
    else if name == ProcessPropertiesName then 2
    else 3
  }

  /** The three values the view model exposes. */
  datatype Shown = Shown(element: Option<ElementProperties>, text: Option<TextProperties>, process: Option<ProcessProperties>)

  /** What an update stores for a selection: the selection itself and, via
      `?.`, its nested values, or null when nothing is selected. */
  function ShownFor(selection: Option<ElementProperties>): (shown: Shown)
    ensures shown.element == selection
    ensures selection.None? ==> shown.text.None? && shown.process.None?
    ensures selection.Some? ==>
      shown.text == selection.value.textProperties && shown.process == selection.value.processProperties
  {
    match selection
    case None => Shown(None, None, None)
    case Some(e) => Shown(selection, e.textProperties, e.processProperties)
  }

  /** The notifications an update from `before` to `after` raises. */
  function Notifications(before: Shown, after: Shown): (names: seq<string>)
    ensures |names| <= 3
    ensures ElementPropertiesName in names <==> before.element != after.element
    ensures TextPropertiesName in names <==> before.text != after.text
    ensures ProcessPropertiesName in names <==> before.process != after.process
    ensures names == [] <==> before == after
    ensures forall i, j :: 0 <= i < j < |names| ==> SetterOrder(names[i]) < SetterOrder(names[j])
  {
    (if before.element != after.element then [ElementPropertiesName] else [])
    + (if before.text != after.text then [TextPropertiesName] else [])
    + (if before.process != after.process then [ProcessPropertiesName] else [])
  }

  class PropertiesViewModel {
    const outlinesService: OutlinesService
    var elementProperties: Option<ElementProperties>
    var textProperties: Option<TextProperties>
    var processProperties: Option<ProcessProperties>
    var propertyChanged: seq<string>

    function Current(): Shown
      reads this
    {
      Shown(elementProperties, textProperties, processProperties)
    }

    /** The constructor after its null check. No handler can be attached to
        `PropertyChanged` yet, so its three setter calls notify nobody. */
    constructor(outlinesService: OutlinesService)
      ensures this.outlinesService == outlinesService
      ensures Current() == ShownFor(outlinesService.selectedElementProperties)
      ensures propertyChanged == []
    {
      this.outlinesService := outlinesService;
      var shown := ShownFor(outlinesService.selectedElementProperties);
      elementProperties := shown.element;
      textProperties := shown.text;
      processProperties := shown.process;
      propertyChanged := [];
    }

    method SetElementProperties(value: Option<ElementProperties>)
      modifies this`elementProperties, this`propertyChanged
      ensures elementProperties == value
      ensures propertyChanged == old(propertyChanged) + (if value != old(elementProperties) then [ElementPropertiesName] else [])
    {
      if value != elementProperties {
        elementProperties := value;
        propertyChanged := propertyChanged + [ElementPropertiesName];
      }
    }

    method SetTextProperties(value: Option<TextProperties>)
      modifies this`textProperties, this`propertyChanged
      ensures textProperties == value
      ensures propertyChanged == old(propertyChanged) + (if value != old(textProperties) then [TextPropertiesName] else [])
    {
      if value != textProperties {
        textProperties := value;
        propertyChanged := propertyChanged + [TextPropertiesName];
      }
    }

    method SetProcessProperties(value: Option<ProcessProperties>)
      modifies this`processProperties, this`propertyChanged
      ensures processProperties == value
      ensures propertyChanged == old(propertyChanged) + (if value != old(processProperties) then [ProcessPropertiesName] else [])
    {
      if value != processProperties {
        processProperties := value;
        propertyChanged := propertyChanged + [ProcessPropertiesName];
      }
    }

    /** Re-reads the selection through the three setters, in order. */
    method OnSelectedElementChanged()
      modifies this`elementProperties, this`textProperties, this`processProperties, this`propertyChanged
      ensures Current() == ShownFor(outlinesService.selectedElementProperties)
      ensures propertyChanged == old(propertyChanged) + Notifications(old(Current()), Current())
      // a repeated update with an unchanged selection raises nothing
      ensures old(Current()) == ShownFor(outlinesService.selectedElementProperties) ==> propertyChanged == old(propertyChanged)
    {
      var selection := outlinesService.selectedElementProperties;
      SetElementProperties(selection);
      SetTextProperties(if selection.Some? then selection.value.textProperties else None);
      SetProcessProperties(if selection.Some? then selection.value.processProperties else None);
    }
  }

  /** The constructor: a null service throws before anything else. */
  method NewPropertiesViewModel(outlinesService: OutlinesService?) returns (r: Result<PropertiesViewModel>)
    ensures outlinesService == null <==> r == Err(ArgumentNullException("outlinesService"))
    ensures outlinesService != null ==> r.Ok?
    ensures r.Ok? ==>
      && fresh(r.value)
      && r.value.outlinesService == outlinesService
      && r.value.Current() == ShownFor(outlinesService.selectedElementProperties)
      && r.value.propertyChanged == []
  {
    if outlinesService == null {
      return Err(ArgumentNullException("outlinesService"));
    }
    var vm := new PropertiesViewModel(outlinesService);
    return Ok(vm);
  }
}
