/** The state of a plot item and its transitions.

    An item is an immutable `ItemState`; every mutator of the item is a pure
    function returning a `Step`: the state after the call together with the
    ordered list of calls the item made on its owning plot while executing it.
    What the plot does with those calls (re-sorting by z, repainting, legend
    layout) is outside the model; only the calls themselves are recorded. */
module PlotItem {

  import opened Options
  import opened PlotItemFlags

  /** Identity of a plot widget. Two handles denote the same plot exactly when
      they are equal; a null plot pointer is `None`. */
  type PlotHandle = nat

  /** The item's title; only compared for equality. */
  type Title = string

  // The axis identifiers of `QwtPlot::Axis`, in that enumeration's order.
  const yLeft: int := 0
  const yRight: int := 1
  const xBottom: int := 2
  const xTop: int := 3

  /** The two ids an item accepts as its x axis. */
  predicate IsXAxis(axis: int)
  {
    axis == xBottom || axis == xTop
  }

  /** The two ids an item accepts as its y axis. */
  predicate IsYAxis(axis: int)
  {
    axis == yLeft || axis == yRight
  }

  /** A `QSize`. */
  datatype Size = Size(width: int, height: int)

  /** `QSize::isEmpty`: a size is empty when either extent is below one. */
  predicate IsEmptySize(size: Size)
  {
    size.width <= 0 || size.height <= 0
  }

  /** A `QRectF`: top-left corner and extent. */
  datatype Rect = Rect(x: real, y: real, width: real, height: real)

  /** `QRectF::isValid`: both extents strictly positive. */
  predicate IsValidRect(r: Rect)
  {
    r.width > 0.0 && r.height > 0.0
  }

  /** Everything an item remembers about itself. */
  datatype ItemState = ItemState(
    plot: Option<PlotHandle>,
    visible: bool,
    attributes: Bits,
    renderHints: Bits,
    z: real,
    xAxis: int,
    yAxis: int,
    title: Title,
    legendIconSize: Size)

  /** A call the item makes on a plot. `attachItem` also records what the
      plot can read back from the item while the call runs: the item's
      `plot()` (`owner`) and `z()` (`z`). */
  datatype PlotCall =
    | AttachItem(target: PlotHandle, attaching: bool, owner: Option<PlotHandle>, z: real)
    | UpdateLegend(target: PlotHandle)
    | AutoRefresh(target: PlotHandle)

  /** The outcome of a mutator: the new state and the plot calls, in order. */
  datatype Step = Step(state: ItemState, calls: seq<PlotCall>)

  /** The item's axes are a valid pair. */
  predicate AxesValid(s: ItemState)
  {
    IsXAxis(s.xAxis) && IsYAxis(s.yAxis)
  }

  /** `testItemAttribute(attribute)`: the attribute's bit of the flag word,
      and nothing else of it, is set. */
  function TestItemAttribute(s: ItemState, a: ItemAttribute): (r: bool)
    ensures r <==> BitAt(s.attributes, AttributeIndex(a))
    ensures r <==> s.attributes & AttributeBit(a) == AttributeBit(a)
  {
    TestBit(s.attributes, AttributeBit(a))
  }

  /** `testRenderHint(hint)`: the hint's bit of the flag word is set. */
  function TestRenderHint(s: ItemState, h: RenderHint): (r: bool)
    ensures r <==> BitAt(s.renderHints, HintIndex(h))
    ensures r <==> s.renderHints & HintBit(h) == HintBit(h)
  {
    TestBit(s.renderHints, HintBit(h))
  }

  /** A freshly constructed item: detached, visible, z = 0, on the bottom and
      left axes, no attribute or render hint set, an 8x8 legend icon. */
  function New(title: Title): (s: ItemState)
    ensures s.plot == None && s.visible && s.z == 0.0
    ensures s.xAxis == xBottom && s.yAxis == yLeft && AxesValid(s)
    ensures s.title == title
    ensures forall a :: !TestItemAttribute(s, a)
    ensures forall h :: !TestRenderHint(s, h)
    ensures s.legendIconSize == Size(8, 8) && !IsEmptySize(s.legendIconSize)
  {
    ItemState(None, true, 0, 0, 0.0, xBottom, yLeft, title, Size(8, 8))
  }

  /** The base `rtti()`: the unspecific tag, whose value is 0. */
  function Rtti(s: ItemState): (r: RttiValues)
    ensures IsBuiltin(r) && RttiValue(r) == 0
  {
    Rtti_PlotItem
  }

  // ---------------------------------------------------------------------
  // Attachment
  // ---------------------------------------------------------------------

  /** `attachItem(item, false)` on the plot the item leaves, if any, made
      while the item still names that plot as its owner and reports `z`. */
  function Leave(plot: Option<PlotHandle>, z: real): seq<PlotCall>
  {
    match plot
    case None => []
    case Some(p) => [AttachItem(p, false, plot, z)]
  }

  /** `attachItem(item, true)` on the plot the item joins, if any, made once
      the item already names that plot as its owner and reports `z`. */
  function Join(plot: Option<PlotHandle>, z: real): seq<PlotCall>
  {
    match plot
    case None => []
    case Some(p) => [AttachItem(p, true, plot, z)]
  }

  /** `attach(plot)`: nothing when `plot` already owns the item; otherwise the
      old plot (if any) is told first that the item leaves, while the item
      still names it as owner, then the owner is replaced and the new plot
      (if any) is told that the item joins. Only the owner changes. */
  function Attach(s: ItemState, plot: Option<PlotHandle>): (r: Step)
    ensures r.state == s.(plot := plot)
    ensures plot == s.plot ==> r.calls == []
    ensures plot != s.plot && s.plot.Some? && plot.Some? ==>
      r.calls == [AttachItem(s.plot.value, false, s.plot, s.z), AttachItem(plot.value, true, plot, s.z)]
    ensures plot != s.plot && s.plot.Some? && plot.None? ==>
      r.calls == [AttachItem(s.plot.value, false, s.plot, s.z)]
    ensures plot != s.plot && s.plot.None? && plot.Some? ==>
      r.calls == [AttachItem(plot.value, true, plot, s.z)]
  {
    if plot == s.plot then Step(s, [])
    else Step(s.(plot := plot), Leave(s.plot, s.z) + Join(plot, s.z))
  }

  /** `detach()`: `attach(NULL)`. */
  function Detach(s: ItemState): (r: Step)
    ensures r == Attach(s, None)
    ensures r.state.plot == None
    ensures r.calls == (if s.plot.Some? then [AttachItem(s.plot.value, false, s.plot, s.z)] else [])
  {
    Attach(s, None)
  }

  /** The destructor: the calls made by `attach(NULL)`, after which the item
      is gone. */
  function Destroy(s: ItemState): (calls: seq<PlotCall>)
    ensures calls == Detach(s).calls
    ensures s.plot.None? ==> calls == []
    ensures s.plot.Some? ==> calls == [AttachItem(s.plot.value, false, s.plot, s.z)]
  {
    Attach(s, None).calls
  }

  // ---------------------------------------------------------------------
  // Change notification
  // ---------------------------------------------------------------------

  /** `itemChanged()`: the owning plot, if any, is asked to update the
      item's legend entry and then to refresh. */
  function ItemChanged(s: ItemState): (calls: seq<PlotCall>)
    ensures s.plot.None? <==> calls == []
    ensures s.plot.Some? ==> calls == [UpdateLegend(s.plot.value), AutoRefresh(s.plot.value)]
  {
    match s.plot
    case None => []
    case Some(p) => [UpdateLegend(p), AutoRefresh(p)]
  }

  /** Store `s` and run `itemChanged()` on it. */
  function Changed(s: ItemState): Step
  {
    Step(s, ItemChanged(s))
  }

  // ---------------------------------------------------------------------
  // Mutators
  // ---------------------------------------------------------------------

  /** `setZ(z)`: a new z is stored between a deregistration and a
      re-registration with the owning plot (so that the plot re-sorts the
      item), followed by `itemChanged()`: the plot sees the old z while the
      item leaves and the new z when it joins again. An equal z does
      nothing. */
  function SetZ(s: ItemState, z: real): (r: Step)
    ensures z == s.z ==> r == Step(s, [])
    ensures z != s.z ==> r.state == s.(z := z)
    ensures z != s.z && s.plot.None? ==> r.calls == []
    ensures z != s.z && s.plot.Some? ==>
      var p := s.plot.value;
      r.calls == [AttachItem(p, false, s.plot, s.z), AttachItem(p, true, s.plot, z),
                  UpdateLegend(p), AutoRefresh(p)]
  {
    if s.z == z then Step(s, [])
    else
      var s' := s.(z := z);
      Step(s', Leave(s.plot, s.z) + Join(s'.plot, s'.z) + ItemChanged(s'))
  }

  /** `setTitle(title)`: store and notify, unless the title is unchanged. */
  function SetTitle(s: ItemState, title: Title): (r: Step)
    ensures r.state == s.(title := title)
    ensures r.calls == (if title != s.title then ItemChanged(s) else [])
  {
    if s.title != title then Changed(s.(title := title)) else Step(s, [])
  }

  /** `setItemAttribute(attribute, on)`: set or clear one attribute bit,
      notifying only when its test actually changes. */
  function SetItemAttribute(s: ItemState, a: ItemAttribute, on: bool): (r: Step)
    ensures TestItemAttribute(r.state, a) == on
    ensures forall b :: b != a ==> TestItemAttribute(r.state, b) == TestItemAttribute(s, b)
    ensures SameOutside(r.state.attributes, s.attributes, AttributeBit(a))
    ensures r.state == s.(attributes := r.state.attributes)
    ensures r.calls == (if TestItemAttribute(s, a) != on then ItemChanged(s) else [])
  {
    if TestItemAttribute(s, a) != on then
      var bits := SetBit(s.attributes, AttributeBit(a), on);
      AttributeToggle(s.attributes, a, on);
      Changed(s.(attributes := bits))
    else Step(s, [])
  }

  /** `setRenderHint(hint, on)`: set or clear one hint bit, notifying only
      when its test actually changes. */
  function SetRenderHint(s: ItemState, h: RenderHint, on: bool): (r: Step)
    ensures TestRenderHint(r.state, h) == on
    ensures forall g :: g != h ==> TestRenderHint(r.state, g) == TestRenderHint(s, g)
    ensures SameOutside(r.state.renderHints, s.renderHints, HintBit(h))
    ensures r.state == s.(renderHints := r.state.renderHints)
    ensures r.calls == (if TestRenderHint(s, h) != on then ItemChanged(s) else [])
  {
    if TestRenderHint(s, h) != on then
      var bits := SetBit(s.renderHints, HintBit(h), on);
      HintToggle(s.renderHints, h, on);
      Changed(s.(renderHints := bits))
    else Step(s, [])
  }

  /** `setLegendIdentifierSize(size)`: stores the size and, unlike the other
      setters, never notifies the plot. */
  function SetLegendIdentifierSize(s: ItemState, size: Size): (r: Step)
    ensures r.state == s.(legendIconSize := size)
    ensures r.calls == []
  {
    Step(s.(legendIconSize := size), [])
  }

  /** `setVisible(on)`: store and notify, unless the visibility is unchanged. */
  function SetVisible(s: ItemState, on: bool): (r: Step)
    ensures r.state == s.(visible := on)
    ensures r.calls == (if on != s.visible then ItemChanged(s) else [])
  {
    if on != s.visible then Changed(s.(visible := on)) else Step(s, [])
  }

  /** `show()`: `setVisible(true)`. */
  function Show(s: ItemState): (r: Step)
    ensures r == SetVisible(s, true)
    ensures r.state.visible
  {
    SetVisible(s, true)
  }

  /** `hide()`: `setVisible(false)`. */
  function Hide(s: ItemState): (r: Step)
    ensures r == SetVisible(s, false)
    ensures !r.state.visible
  {
    SetVisible(s, false)
  }

  /** `setAxes(x, y)`: each id is taken only if it is valid for its
      dimension; the plot is notified in every case, even when both ids are
      rejected or equal to the current ones. */
  function SetAxes(s: ItemState, x: int, y: int): (r: Step)
    ensures r.state.xAxis == (if IsXAxis(x) then x else s.xAxis)
    ensures r.state.yAxis == (if IsYAxis(y) then y else s.yAxis)
    ensures r.state == s.(xAxis := r.state.xAxis, yAxis := r.state.yAxis)
    ensures r.calls == ItemChanged(s)
  {
    var s1 := if x == xBottom || x == xTop then s.(xAxis := x) else s;
    var s2 := if y == yLeft || y == yRight then s1.(yAxis := y) else s1;
    Changed(s2)
  }

  /** `setXAxis(axis)`: an id other than `xBottom`/`xTop` is ignored without
      notification; a valid one is stored and always notifies. */
  function SetXAxis(s: ItemState, axis: int): (r: Step)
    ensures !IsXAxis(axis) ==> r == Step(s, [])
    ensures IsXAxis(axis) ==> r.state == s.(xAxis := axis) && r.calls == ItemChanged(s)
  {
    if axis == xBottom || axis == xTop then Changed(s.(xAxis := axis)) else Step(s, [])
  }

  /** `setYAxis(axis)`: an id other than `yLeft`/`yRight` is ignored without
      notification; a valid one is stored and always notifies. */
  function SetYAxis(s: ItemState, axis: int): (r: Step)
    ensures !IsYAxis(axis) ==> r == Step(s, [])
    ensures IsYAxis(axis) ==> r.state == s.(yAxis := axis) && r.calls == ItemChanged(s)
  {
    if axis == yLeft || axis == yRight then Changed(s.(yAxis := axis)) else Step(s, [])
  }

  // ---------------------------------------------------------------------
  // Default virtuals
  // ---------------------------------------------------------------------

  /** The base `boundingRect()`: a sentinel with negative extent, invalid and
      therefore distinguishable from every rectangle with non-negative width
      and height. */
  function BoundingRect(s: ItemState): (r: Rect)
    ensures r.width < 0.0 && r.height < 0.0
    ensures !IsValidRect(r)
    ensures forall q: Rect :: q.width >= 0.0 ==> q != r
  {
    Rect(1.0, 1.0, -2.0, -2.0)
  }

  /** Margins requested around the canvas. */
  datatype CanvasMargins = CanvasMargins(left: real, top: real, right: real, bottom: real)

  /** The base `getCanvasMarginHint(...)`: no extra space on any side, for
      whatever canvas rectangle. */
  function CanvasMarginHint(s: ItemState, canvasRect: Rect): (m: CanvasMargins)
    ensures m.left == 0.0 && m.top == 0.0 && m.right == 0.0 && m.bottom == 0.0
  {
    CanvasMargins(0.0, 0.0, 0.0, 0.0)
  }

  /** The pixmap `drawLegendIdentifier` is asked to paint: the legend row
      index, the pixmap size and whether antialiasing is switched on. */
  datatype Icon = Icon(index: int, size: Size, antialiased: bool)

  datatype LegendRole = TitleRole | IconRole

  datatype LegendValue = TitleValue(title: Title) | IconValue(icon: Icon)

  /** A `QwtLegendData`: values keyed by role. */
  type LegendData = map<LegendRole, LegendValue>

  /** The base `legendData()`: one entry holding the title and, when the
      legend icon size is not empty, an icon of that size for row 0 painted
      with the item's antialiasing hint. */
  function LegendEntries(s: ItemState): (entries: seq<LegendData>)
    ensures |entries| == 1
    ensures TitleRole in entries[0] && entries[0][TitleRole] == TitleValue(s.title)
    ensures IconRole in entries[0] <==> !IsEmptySize(s.legendIconSize)
    ensures IconRole in entries[0] ==>
      entries[0][IconRole] == IconValue(Icon(0, s.legendIconSize, TestRenderHint(s, RenderAntialiased)))
    ensures entries[0].Keys <= {TitleRole, IconRole}
  {
    var data := map[TitleRole := TitleValue(s.title)];
    var data' :=
      if !IsEmptySize(s.legendIconSize)
      then data[IconRole := IconValue(Icon(0, s.legendIconSize, TestRenderHint(s, RenderAntialiased)))]
      else data;
    [data']
  }
}
