/** Point-to-element hit test of `LiveElementProvider`: a depth-first walk of
    the UI Automation tree that returns the deepest element containing a point.

    The live tree becomes an immutable value. The two native queries a node
    answers during the walk, its bounding rectangle and its filtered children
    (`FindAll`), can throw when the element vanishes; each node says whether
    each query throws. */
module LiveElements {
  import opened Common
  import opened Geometry

  /** `ControlType.Window.Id` in UI Automation. */
  const WindowControlTypeId: int := 50032

  /** The inspector's own window title, excluded from the walk. */
  const InspectorWindowName: string := "Outlines"

  datatype AutomationElement = AutomationElement(
    name: string,
    controlTypeId: int,
    isOffscreen: bool,
    boundingRectangle: Rect,
    boundsFail: bool,         // reading `Current.BoundingRectangle` throws
    children: seq<AutomationElement>,
    findAllFail: bool)        // `FindAll(TreeScope.Children, ...)` throws

  /** Case folding of the Latin letters A-Z. */
  function FoldCase(c: char): (f: char)
    ensures 'A' <= c <= 'Z' ==> f as int == c as int + 32
    ensures !('A' <= c <= 'Z') ==> f == c
  {
    if 'A' <= c <= 'Z' then (c as int + 32) as char else c
  }

  predicate EqualsIgnoreCase(a: string, b: string) {
    |a| == |b| && forall i :: 0 <= i < |a| ==> FoldCase(a[i]) == FoldCase(b[i])
  }

  /** UI Automation property conditions, as `FindAll` evaluates them. */
  datatype Condition =
    | And(left: Condition, right: Condition)
    | Not(operand: Condition)
    | NameIs(name: string, ignoreCase: bool)
    | ControlTypeIs(id: int)
    | IsOffscreenIs(offscreen: bool)

  predicate Matches(c: Condition, e: AutomationElement) {
    match c
    case And(l, r) => Matches(l, e) && Matches(r, e)
    case Not(o) => !Matches(o, e)
    case NameIs(n, ignoreCase) => if ignoreCase then EqualsIgnoreCase(e.name, n) else e.name == n
    case ControlTypeIs(id) => e.controlTypeId == id
    case IsOffscreenIs(b) => e.isOffscreen == b
  }

  /** The condition the provider's constructor builds: not the inspector's
      own window (name "Outlines" in any case and control type Window), and
      not off-screen. */
  function FilterCondition(): (c: Condition)
    ensures forall e :: Matches(c, e) <==>
      !e.isOffscreen && !(EqualsIgnoreCase(e.name, InspectorWindowName) && e.controlTypeId == WindowControlTypeId)
  {
    var inspectorWindow := And(NameIs(InspectorWindowName, true), ControlTypeIs(WindowControlTypeId));
    assert forall e :: Matches(inspectorWindow, e) <==>
      EqualsIgnoreCase(e.name, InspectorWindowName) && e.controlTypeId == WindowControlTypeId;
    And(Not(inspectorWindow), IsOffscreenIs(false))
  }

  /** A child that `FindAll` returns for the walk. */
  predicate IsCandidate(e: AutomationElement) {
    Matches(FilterCondition(), e)
  }

  /** Whether the walk may stop at `e`: its bounds could not be read, or
      they contain the point. */
  predicate MayHit(e: AutomationElement, point: Point) {
    e.boundsFail || e.boundingRectangle.Contains(point)
  }

  /** The walk from `n` can end at `r`: every node passed on the way had
      readable bounds containing the point and readable children, each step
      goes to a candidate child, and `r` itself may be hit. */
  ghost predicate Reaches(n: AutomationElement, r: AutomationElement, point: Point)
    decreases n
  {
    || (r == n && MayHit(n, point))
    || (&& !n.boundsFail && n.boundingRectangle.Contains(point) && !n.findAllFail
        && exists i :: 0 <= i < |n.children| && IsCandidate(n.children[i]) && Reaches(n.children[i], r, point))
  }

  /** No candidate child of `e` can be hit, unless a query of `e` failed. */
  predicate Deepest(e: AutomationElement, point: Point) {
    e.boundsFail || e.findAllFail ||
    forall i :: 0 <= i < |e.children| && IsCandidate(e.children[i]) ==> !MayHit(e.children[i], point)
  }

  /** `GetContainingElement` on a non-null element. A failed query lands in
      the outer catch, which returns the element itself. */
  function ContainingElement(e: AutomationElement, point: Point): (found: Option<AutomationElement>)
    decreases e
    ensures found.None? <==> !MayHit(e, point)
    ensures e.boundsFail ==> found == Some(e)
    ensures found.Some? ==> Reaches(e, found.value, point) && Deepest(found.value, point)
  {
    if e.boundsFail then Some(e)
    else if !e.boundingRectangle.Contains(point) then None
    else if e.findAllFail then Some(e)
    else
      match FirstMatch(e.children, point)
      case Some(m) => Some(m)
      case None => Some(e)
  }

  /** The `foreach` over the filtered children: the first child whose walk
      yields an element wins, later siblings are not consulted. */
  function FirstMatch(children: seq<AutomationElement>, point: Point): (found: Option<AutomationElement>)
    decreases children
    ensures found.None? <==> forall i :: 0 <= i < |children| && IsCandidate(children[i]) ==> !MayHit(children[i], point)
    ensures found.Some? ==>
      && Deepest(found.value, point)
      && exists i :: 0 <= i < |children| && IsCandidate(children[i]) && Reaches(children[i], found.value, point)
  {
    if children == [] then None
    else if !IsCandidate(children[0]) then
      var rest := FirstMatch(children[1..], point);
      assert forall i :: 1 <= i < |children| ==> children[i] == children[1..][i - 1];
      rest
    else
      match ContainingElement(children[0], point)
      case Some(m) => Some(m)
      case None =>
        var rest := FirstMatch(children[1..], point);
        assert forall i :: 1 <= i < |children| ==> children[i] == children[1..][i - 1];
        rest
  }

  /** `GetContainingElement(rootElement, point)`. */
  function GetContainingElement(root: Option<AutomationElement>, point: Point): (found: Option<AutomationElement>)
    ensures root.None? ==> found.None?
    ensures root.Some? ==> (found.None? <==> !MayHit(root.value, point))
    ensures found.Some? ==> Reaches(root.value, found.value, point) && Deepest(found.value, point)
  {
    match root
    case None => None
    case Some(e) => ContainingElement(e, point)
  }

  /** `TryGetElementFromPoint`: the walk starts at the desktop root, which is
      never null; the result is what is handed to the properties provider. */
  function TryGetElementFromPoint(desktop: AutomationElement, point: Point): (handed: Option<AutomationElement>)
    ensures handed.None? <==> !desktop.boundsFail && !desktop.boundingRectangle.Contains(point)
    ensures handed.Some? ==> Reaches(desktop, handed.value, point)
  {
    GetContainingElement(Some(desktop), point)
  }

  /** Given the first candidate child whose walk yields an element, the
      `foreach` returns exactly that child's result. */
  lemma {:induction false} FirstHitWins(children: seq<AutomationElement>, point: Point, k: nat)
    requires k < |children| && IsCandidate(children[k]) && ContainingElement(children[k], point).Some?
    requires forall j :: 0 <= j < k && IsCandidate(children[j]) ==> ContainingElement(children[j], point).None?
    ensures FirstMatch(children, point) == ContainingElement(children[k], point)
  {
    if k > 0 {
      assert children[1..][k - 1] == children[k];
      forall j | 0 <= j < k - 1 && IsCandidate(children[1..][j])
        ensures ContainingElement(children[1..][j], point).None?
      {
        assert children[1..][j] == children[j + 1];
      }
      FirstHitWins(children[1..], point, k - 1);
    }
  }

  /** Once a prefix of the children yields an element, siblings after it
      are never consulted. */
  lemma {:induction false} LaterSiblingsIgnored(children: seq<AutomationElement>, later: seq<AutomationElement>, point: Point)
    requires FirstMatch(children, point).Some?
    ensures FirstMatch(children + later, point) == FirstMatch(children, point)
  {
    assert (children + later)[0] == children[0];
    assert (children + later)[1..] == children[1..] + later;
    if IsCandidate(children[0]) && ContainingElement(children[0], point).Some? {
    } else {
      LaterSiblingsIgnored(children[1..], later, point);
    }
  }

  /** The element a walk ends at may itself be hit. */
  lemma {:induction false} ReachedMayHit(n: AutomationElement, r: AutomationElement, point: Point)
    requires Reaches(n, r, point)
    ensures MayHit(r, point)
    decreases n
  {
    if !(r == n && MayHit(n, point)) {
      var i :| 0 <= i < |n.children| && IsCandidate(n.children[i]) && Reaches(n.children[i], r, point);
      ReachedMayHit(n.children[i], r, point);
    }
  }

  /** Every element the walk reaches below its start passed the filter: it
      is on screen and is not the inspector's own window. */
  lemma {:induction false} ReachedBelowIsCandidate(n: AutomationElement, r: AutomationElement, point: Point)
    requires Reaches(n, r, point) && r != n
    ensures IsCandidate(r)
    decreases n
  {
    var i :| 0 <= i < |n.children| && IsCandidate(n.children[i]) && Reaches(n.children[i], r, point);
    if r != n.children[i] {
      ReachedBelowIsCandidate(n.children[i], r, point);
    }
  }

  /** The answer is the root itself or an element that is neither
      off-screen nor a window named "Outlines" in any letter case. */
  lemma FilteredElementsNeverReturned(root: AutomationElement, point: Point)
    ensures var found := GetContainingElement(Some(root), point);
      found.Some? && found.value != root ==>
        !found.value.isOffscreen &&
        !(EqualsIgnoreCase(found.value.name, InspectorWindowName) && found.value.controlTypeId == WindowControlTypeId)
  {
    var found := GetContainingElement(Some(root), point);
    if found.Some? && found.value != root {
      ReachedBelowIsCandidate(root, found.value, point);
    }
  }

  /** Resolving again from the answer gives the answer: it is a fixed point
      of the walk. */
  lemma AnswerIsFixedPoint(root: AutomationElement, point: Point)
    requires ContainingElement(root, point).Some?
    ensures var r := ContainingElement(root, point).value; ContainingElement(r, point) == Some(r)
  {
    var r := ContainingElement(root, point).value;
    ReachedMayHit(root, r, point);
    if !r.boundsFail && !r.findAllFail {
      assert FirstMatch(r.children, point).None?;
    }
  }

  /** No query anywhere in the tree throws. */
  ghost predicate NoFailures(n: AutomationElement)
    decreases n
  {
    !n.boundsFail && !n.findAllFail && forall i :: 0 <= i < |n.children| ==> NoFailures(n.children[i])
  }

  lemma {:induction false} ReachedHasNoFailures(n: AutomationElement, r: AutomationElement, point: Point)
    requires NoFailures(n) && Reaches(n, r, point)
    ensures NoFailures(r)
    decreases n
  {
    if !(r == n && MayHit(n, point)) {
      var i :| 0 <= i < |n.children| && IsCandidate(n.children[i]) && Reaches(n.children[i], r, point);
      ReachedHasNoFailures(n.children[i], r, point);
    }
  }

  /** When no query fails, the answer's rectangle contains the point and no
      candidate child of the answer does: the answer is the deepest match. */
  lemma DeepestContainingElement(root: AutomationElement, point: Point)
    requires NoFailures(root)
    ensures var found := ContainingElement(root, point);
      found.Some? ==>
        && found.value.boundingRectangle.Contains(point)
        && forall i :: 0 <= i < |found.value.children| && IsCandidate(found.value.children[i]) ==>
             !found.value.children[i].boundingRectangle.Contains(point)
  {
    var found := ContainingElement(root, point);
    if found.Some? {
      ReachedHasNoFailures(root, found.value, point);
      ReachedMayHit(root, found.value, point);
      var r := found.value;
      forall i | 0 <= i < |r.children| && IsCandidate(r.children[i])
        ensures !r.children[i].boundingRectangle.Contains(point)
      {
        assert !MayHit(r.children[i], point);
      }
    }
  }

  /** A desktop holding, in this order, a window titled "OUTLINES", a
      button whose bounds cannot be read, and a pane. At a point inside the
      pane the inspector's window is skipped and the unreadable button is
      the answer: the walk never reaches the pane. */
  lemma UnreadableSiblingWins()
    ensures var desktop := AutomationElement("Desktop", 50033, false, Rect(0.0, 0.0, 100.0, 100.0), false, [
        AutomationElement("OUTLINES", WindowControlTypeId, false, Rect(0.0, 0.0, 100.0, 100.0), false, [], false),
        AutomationElement("OK", 50000, false, EmptyRect, true, [], false),
        AutomationElement("Pane", 50033, false, Rect(10.0, 10.0, 20.0, 20.0), false, [], false)], false);
      GetContainingElement(Some(desktop), Point(15.0, 15.0)) == Some(desktop.children[1])
  {
    var desktop := AutomationElement("Desktop", 50033, false, Rect(0.0, 0.0, 100.0, 100.0), false, [
        AutomationElement("OUTLINES", WindowControlTypeId, false, Rect(0.0, 0.0, 100.0, 100.0), false, [], false),
        AutomationElement("OK", 50000, false, EmptyRect, true, [], false),
        AutomationElement("Pane", 50033, false, Rect(10.0, 10.0, 20.0, 20.0), false, [], false)], false);
    assert EqualsIgnoreCase(desktop.children[0].name, InspectorWindowName) by {
      assert desktop.children[0].name == ['O', 'U', 'T', 'L', 'I', 'N', 'E', 'S'];
    }
    var point := Point(15.0, 15.0);
    assert !IsCandidate(desktop.children[0]);
    assert IsCandidate(desktop.children[1]);
    assert desktop.children[1..][0] == desktop.children[1];
    assert FirstMatch(desktop.children[1..], point) == Some(desktop.children[1]);
    assert FirstMatch(desktop.children, point) == Some(desktop.children[1]);
  }
}
