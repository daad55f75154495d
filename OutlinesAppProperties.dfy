/** `OutlinesApp.ViewModels.PropertiesViewModel`: the two-property version.
    It reads the selected element and the selected text properties from the
    service separately, and has no null check: the service is dereferenced
    at once, so a null service is excluded by its type. */
module OutlinesAppProperties {
  import opened Common
  import opened Elements

  /** The part of `IOutlinesService` the view model reads. */
  class OutlinesService {
    var selectedElementProperties: Option<ElementProperties>
    var selectedTextProperties: Option<TextProperties>

    constructor(selectedElementProperties: Option<ElementProperties>, selectedTextProperties: Option<TextProperties>)
      ensures this.selectedElementProperties == selectedElementProperties
      ensures this.selectedTextProperties == selectedTextProperties
    {
      this.selectedElementProperties := selectedElementProperties;
      this.selectedTextProperties := selectedTextProperties;
    }
  }

  const ElementPropertiesName: string := "ElementProperties"
  const TextPropertiesName: string := "TextProperties"

  /** The notifications an update raises: one per property whose value
      changes, element before text. */
  function Notifications(
    oldElement: Option<ElementProperties>, oldText: Option<TextProperties>,
    newElement: Option<ElementProperties>, newText: Option<TextProperties>): (names: seq<string>)
    ensures |names| <= 2
    ensures ElementPropertiesName in names <==> oldElement != newElement
    ensures TextPropertiesName in names <==> oldText != newText
    ensures names == [] <==> oldElement == newElement && oldText == newText
    ensures |names| == 2 ==> names == [ElementPropertiesName, TextPropertiesName]
  {
    (if oldElement != newElement then [ElementPropertiesName] else [])
    + (if oldText != newText then [TextPropertiesName] else [])
  }

  class PropertiesViewModel {
    const outlinesService: OutlinesService
    var elementProperties: Option<ElementProperties>
    var textProperties: Option<TextProperties>
    var propertyChanged: seq<string>

    /** No handler can be attached to `PropertyChanged` during construction,
        so the two setter calls notify nobody. */
    constructor(outlinesService: OutlinesService)
      ensures this.outlinesService == outlinesService
      ensures elementProperties == outlinesService.selectedElementProperties
      ensures textProperties == outlinesService.selectedTextProperties
      ensures propertyChanged == []
    {
      this.outlinesService := outlinesService;
      elementProperties := outlinesService.selectedElementProperties;
      textProperties := outlinesService.selectedTextProperties;
      propertyChanged := [];
    }

    method SetElementProperties(value: Option<ElementProperties>)
      modifies this`elementProperties, this`propertyChanged
      ensures elementProperties == value
      ensures propertyChanged == old(propertyChanged) + (if value != old(elementProperties) then [ElementPropertiesName] else [])
    {
      if value != elementProperties {
        elementProperties := value;
        propertyChanged := propertyChanged + [ElementPropertiesName];
      }
    }

    method SetTextProperties(value: Option<TextProperties>)
      modifies this`textProperties, this`propertyChanged
      ensures textProperties == value
      ensures propertyChanged == old(propertyChanged) + (if value != old(textProperties) then [TextPropertiesName] else [])
    {
      if value != textProperties {
        textProperties := value;
        propertyChanged := propertyChanged + [TextPropertiesName];
      }
    }

    method OnSelectedElementChanged()
      modifies this`elementProperties, this`textProperties, this`propertyChanged
      ensures elementProperties == outlinesService.selectedElementProperties
      ensures textProperties == outlinesService.selectedTextProperties
      ensures propertyChanged == old(propertyChanged)
        + Notifications(old(elementProperties), old(textProperties), elementProperties, textProperties)
      // a repeated update with an unchanged service raises nothing
      ensures old(elementProperties) == outlinesService.selectedElementProperties &&
              old(textProperties) == outlinesService.selectedTextProperties ==>
        propertyChanged == old(propertyChanged)
    {
      SetElementProperties(outlinesService.selectedElementProperties);
      SetTextProperties(outlinesService.selectedTextProperties);
    }
  }
}
