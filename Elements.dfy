/** Snapshots of inspected elements. They are reference types in the program;
    here each carries a `handle` that stands for its identity, so two
    snapshots are equal exactly when the program would hold the same object. */
module Elements {
  import opened Common
  import opened Geometry

  datatype TextProperties = TextProperties(handle: nat)

  datatype ProcessProperties = ProcessProperties(handle: nat)

  datatype ElementProperties = ElementProperties(
    handle: nat,
    boundingRect: Rect,
    textProperties: Option<TextProperties>,
    processProperties: Option<ProcessProperties>)

  /** A node of the in-memory mirror of the inspected tree. */
  datatype UiTreeNode = UiTreeNode(elementProperties: ElementProperties, children: seq<UiTreeNode>)
}
