# QwtPlotItem attach and notification protocol, in Dafny

This project models the base class `QwtPlotItem` of the Qwt plotting
library: the state an item keeps about itself (owning plot, z, title,
visibility, x/y axis ids, attribute and render-hint flag words, legend icon
size) and the protocol by which its mutators talk to the owning plot through
`attachItem(item, on)`, `updateLegend(item)` and `autoRefresh()`.

The model is functional. An item is an immutable `PlotItem.ItemState`. Every
mutator is a pure function returning a `PlotItem.Step`: the new state plus
the ordered list of `PlotCall`s the item made on plots while running. This
makes no-op suppression, the "deregister, then register" order, axis-id
rejection and "nothing is sent while detached" statable as equalities on that
list.

- `options.dfy` (`Options`): `Option`, used for the nullable plot pointer and
  for absent enumerator initialisers.
- `plot_item_flags.dfy` (`PlotItemFlags`): the header's enumerations.
  `RttiValues` takes its values by the C++ rule for enumerators: an explicit
  initialiser, or one more than the previous enumerator. The flag enums map
  to their bit values. `SetBit`/`TestBit` are the `|=`, `&= ~` and `&` the
  item applies to its flag words.
- `plot_item.dfy` (`PlotItem`): the state, the constructor defaults, every
  mutator, `itemChanged`, and the default virtuals (`rtti`, `boundingRect`,
  `getCanvasMarginHint`, `legendData`).
- `plot_item_trace.dfy` (`PlotItemTrace`): an `Op` per public mutator,
  `Apply`/`Run`, and the lemmas about sequences of operations. The central
  one is a replay of the emitted calls from the point of view of any single
  plot (`Receive`/`Replay`). Each `attachItem` call records what the plot
  can read back from the item during the call: its `plot()` and its `z()`.
  The replay shows that the plot is registered with at most once, and only
  while the item already names it as owner. It is deregistered only while
  it holds the item, while the item still names it as owner, and under the
  very z it was registered with; the z order a plot keeps depends on this.
  It is asked for a legend update or a refresh only while it holds the item.
  At the end of any run, the plot holds the item, under its current z,
  exactly when it is the owner. After destruction, no plot holds it.

Abstractions: a plot is a `nat` handle compared by identity, and a null
pointer is `None`. The title (`QwtText`) is a `string` compared by equality.
z is a `real`. Axis ids are `int`s; `yLeft`, `yRight`, `xBottom` and `xTop`
follow the order of `QwtPlot::Axis` (0..3). `qwt_plot.h` is not part of this
model; only the ids' distinctness matters here. A legend entry
(`QwtLegendData`) is a map from role to value. The icon is a descriptor
(row index, size, antialiasing) of the pixmap that `drawLegendIdentifier`
would be asked to paint.

Unlike `setZ`, `setTitle`, `setItemAttribute`, `setRenderHint` and
`setVisible`, the axis setters do not compare before notifying.
`setXAxis`/`setYAxis` notify for every valid id, even one equal to the
current axis (`src/qwt_plot_item.cpp:373-397`). `setAxes` notifies in every
case, even when it rejects both ids (`src/qwt_plot_item.cpp:354-363`).
`SameAxisStillNotifies` and `SetAxesAlwaysNotifies` state these behaviours.

## Model

| member | source | states |
|---|---|---|
| PlotItemFlags.BuiltinRttiConsecutive | qwt/src/qwt_plot_item.h:71-113 | under the C++ enumerator rule, `Rtti_PlotItem` is 0 and each built-in tag's value is its position, so the values run 0..13 |
| PlotItemFlags.BuiltinRttiDistinct | qwt/src/qwt_plot_item.h:71-113 | two different built-in tags have different values |
| PlotItemFlags.UserRttiAboveBuiltins | qwt/src/qwt_plot_item.h:114-118 | `Rtti_PlotUserItem` is 1000 and strictly above every built-in tag |
| PlotItemFlags.AttributeBitsAreDistinctSingleBits | qwt/src/qwt_plot_item.h:130-147 | `Legend`, `AutoScale` and `Margins` are single bits, and two different attributes share no bit |
| PlotItemFlags.InterestBitsAreDistinctSingleBits | qwt/src/qwt_plot_item.h:162-181 | `ScaleInterest` and `LegendInterest` are single, disjoint bits |
| PlotItemFlags.HintBitsAreDistinctSingleBits | qwt/src/qwt_plot_item.h:187-208 | `RenderAntialiased` and `RenderFloats` are single, disjoint bits |
| PlotItemFlags.SetBit | src/qwt_plot_item.cpp:219-224 | after `|= bit` or `&= ~bit`, testing a non-zero `bit` gives `on`, and every bit outside `bit` is as it was |
| PlotItemFlags.AttributeToggle | src/qwt_plot_item.cpp:217-240 | toggling one attribute makes its test read `on`, keeps every bit outside it, and leaves the test of every other attribute as it was |
| PlotItemFlags.HintToggle | src/qwt_plot_item.cpp:250-273 | toggling one render hint makes its test read `on`, keeps every bit outside it, and leaves the other hint's test as it was |
| PlotItem.TestItemAttribute | src/qwt_plot_item.cpp:237-240 | the test holds iff bit number k of the attribute word is set, k being the attribute's bit position, iff the whole enumerator is contained in the word |
| PlotItem.TestRenderHint | src/qwt_plot_item.cpp:270-273 | the test holds iff the hint's bit position is set in the hint word, iff the whole enumerator is contained in it |
| PlotItem.New | src/qwt_plot_item.cpp:38-48 | a new item is detached and visible, with z 0, x axis `xBottom`, y axis `yLeft` (a valid pair), no attribute or hint set and an 8x8 (non-empty) icon size |
| PlotItem.Rtti | src/qwt_plot_item.cpp:129-132 | the base item reports a built-in tag whose value is 0 |
| PlotItem.Attach | src/qwt_plot_item.cpp:92-103 | attaching to the current owner emits nothing; otherwise it emits `attachItem(old, false)` while `plot()` still reads the old owner, if there was one, then `attachItem(new, true)` once `plot()` reads the new one, if it is non-null; only the owner changes |
| PlotItem.Detach | src/qwt_plot_item.cpp:112-115 | `detach()` is `attach(NULL)`: it leaves the item ownerless and deregisters from the old owner only, with `plot()` still reading that owner |
| PlotItem.Destroy | src/qwt_plot_item.cpp:75-79 | the destructor makes exactly the calls of `attach(NULL)`: one deregistration if attached, nothing otherwise |
| PlotItem.ItemChanged | src/qwt_plot_item.cpp:335-342 | nothing is emitted exactly when detached; when attached, `updateLegend` then `autoRefresh` go to the owner |
| PlotItem.SetZ | src/qwt_plot_item.cpp:158-172 | an equal z is a no-op; a new z is stored, and an attached item emits to its owner, in this order: deregister while `z()` still reads the old z, re-register once it reads the new z, `updateLegend`, `autoRefresh` |
| PlotItem.SetTitle | src/qwt_plot_item.cpp:191-198 | the title is stored, and the item notifies exactly when it differs from the old one |
| PlotItem.SetItemAttribute | src/qwt_plot_item.cpp:217-240 | afterwards the attribute tests `on`, other attributes and bits are unchanged, nothing else in the state changes, and the item notifies iff the test changed |
| PlotItem.SetRenderHint | src/qwt_plot_item.cpp:250-273 | afterwards the hint tests `on`, the other hint and bits are unchanged, and the item notifies iff the test changed |
| PlotItem.SetLegendIdentifierSize | src/qwt_plot_item.cpp:275-278 | the icon size is stored and no plot is called |
| PlotItem.SetVisible | src/qwt_plot_item.cpp:311-318 | visibility is stored, and the item notifies exactly when it changed |
| PlotItem.Show | src/qwt_plot_item.cpp:294-297 | `show()` is `setVisible(true)` and leaves the item visible |
| PlotItem.Hide | src/qwt_plot_item.cpp:300-303 | `hide()` is `setVisible(false)` and leaves the item hidden |
| PlotItem.SetAxes | src/qwt_plot_item.cpp:354-363 | each id is taken only if valid for its dimension, independently; `itemChanged` runs in every case |
| PlotItem.SetXAxis | src/qwt_plot_item.cpp:373-380 | an id other than `xBottom`/`xTop` changes nothing and emits nothing; a valid id is stored and always notifies |
| PlotItem.SetYAxis | src/qwt_plot_item.cpp:390-397 | an id other than `yLeft`/`yRight` changes nothing and emits nothing; a valid id is stored and always notifies |
| PlotItem.BoundingRect | src/qwt_plot_item.cpp:414-417 | the default rectangle has negative width and height, is invalid, and differs from every rectangle with non-negative width |
| PlotItem.CanvasMarginHint | src/qwt_plot_item.cpp:419-429 | the default margin hint is zero on all four sides |
| PlotItem.LegendEntries | src/qwt_plot_item.cpp:431-449 | exactly one entry; it holds the title, and it holds an icon (row 0, the configured size, the item's antialiasing hint) iff the icon size is non-empty; no other role |
| PlotItemTrace.AttachIdempotent | src/qwt_plot_item.cpp:92-95 | `attach(P); attach(P)` emits and ends exactly as one `attach(P)` |
| PlotItemTrace.AttachThenReattach | src/qwt_plot_item.cpp:92-103 | from detached, `attach(P); attach(Q)` emits register with P, deregister from P, register with Q (each while `plot()` reads that plot), and ends owned by Q |
| PlotItemTrace.DetachThenDestroySilent | src/qwt_plot_item.cpp:75-115 | after `detach()`, the destructor calls no plot |
| PlotItemTrace.OthersKeepOwner | src/qwt_plot_item.cpp:158-397 | only `attach`/`detach` change the owner, and every call of any other operation goes to the owner |
| PlotItemTrace.DetachedIsSilent | src/qwt_plot_item.cpp:335-342 | on a detached item, every operation except `attach` calls no plot and leaves it detached |
| PlotItemTrace.DetachedRunIsSilent | src/qwt_plot_item.cpp:335-342 | any sequence of operations without `attach` on a detached item calls no plot |
| PlotItemTrace.NotifyIffChanged | src/qwt_plot_item.cpp:158-318 | on an attached item, `setZ`, `setTitle`, `setItemAttribute`, `setRenderHint`, `setVisible`, `show` and `hide` call the plot iff they change the state |
| PlotItemTrace.AxisSetterNotifiesIffValid | src/qwt_plot_item.cpp:373-397 | on an attached item, `setXAxis`/`setYAxis` call the plot iff the id is valid for their dimension |
| PlotItemTrace.SameAxisStillNotifies | src/qwt_plot_item.cpp:373-397 | re-setting the current axis leaves the state unchanged but still emits `updateLegend`, `autoRefresh` |
| PlotItemTrace.SetAxesAlwaysNotifies | src/qwt_plot_item.cpp:354-363 | `setAxes` with two rejected ids leaves the state unchanged and still notifies the owner |
| PlotItemTrace.AxesStayValid | src/qwt_plot_item.cpp:354-397 | every operation keeps the x axis in {xBottom, xTop} and the y axis in {yLeft, yRight} |
| PlotItemTrace.RunKeepsAxesValid | src/qwt_plot_item.cpp:354-397 | any run from a state with valid axes ends with valid axes |
| PlotItemTrace.ReplayItemChanged | src/qwt_plot_item.cpp:335-342 | the calls of `itemChanged` reach only the owner, which holds the item, and change no plot's registration |
| PlotItemTrace.ReplayRejoin | src/qwt_plot_item.cpp:162-168 | the deregister/re-register pair of `setZ`, old z then new z, is accepted by every plot and leaves the owner holding the item under the new z |
| PlotItemTrace.StoreBeforeLeaveRejected | src/qwt_plot_item.cpp:162-168 | had `setZ` stored the new z before deregistering, the owner would reject the deregistration, so the order of the source matters |
| PlotItemTrace.ApplyConforms | src/qwt_plot_item.cpp:92-397 | every single operation's calls are accepted by every plot: no double registration, no deregistration under another z than the registered one, and no deregistration or notification of a plot not holding the item; afterwards a plot holds the item, under its current z, iff it owns it |
| PlotItemTrace.RunConforms | src/qwt_plot_item.cpp:92-397 | the same for every sequence of operations |
| PlotItemTrace.LifetimeConforms | src/qwt_plot_item.cpp:68-103 | construct, run any operations, destroy: every plot accepts the calls and ends up not holding the item |

## Left out

- `setItemInterest`, `testItemInterest` and `legendChanged` are declared in the header but have no bodies in the modelled source. Only the `ItemInterest` bit values are modelled.
- `drawLegendIdentifier` and `qwtLegendIdentifier` paint a pixmap with a `QPainter`. The icon is modelled as a descriptor of the request, not as pixels.
- `scaleRect` and `paintRect` read floating-point bounds from the external `QwtScaleMap`, which is not part of this model.
- `updateLegend(item, data)` is declared in the header (`qwt/src/qwt_plot_item.h:280-281`) without a body in the modelled source, like `setItemInterest` and `legendChanged`.
- `updateScaleDiv` has an empty default body. Its arguments are `QwtScaleDiv`s, which are not part of this model.
- `draw` is pure virtual, with no behaviour to model.
- The getters (`plot()`, `z()`, `title()`, `isVisible()`, `xAxis()`, `yAxis()`, `legendIdentifierSize()`) are field reads of `ItemState`.
- The `setTitle(QString)` overload wraps the string in a `QwtText`. Both titles are one `Title` type here.
- `itemChanged`, `setVisible` and the default virtuals can be overridden by subclasses. Only the base-class behaviour is modelled.
- What the plot does on `attachItem`, `updateLegend` and `autoRefresh` (re-sorting by z, legend layout, repainting) is outside this model. These calls are recorded, not executed.
- NaN: z is a `real`, so the `!=` test of `setZ` has no NaN case.
- PlotItem.CanvasMarginHint: the two scale maps are not parameters, because the default ignores them, as it ignores the canvas rectangle.
- The flag words are 8-bit. In the source they are `int`, but the setters only ever combine a word with one enumerator of the low three bits, so the upper bits are always zero.
- `QwtSymbol`, `QwtPlotLegendItem` and `QwtPlotTextLabel` are left out: they are painter, font and layout work outside the item protocol.
- Default arguments are not modelled as such. The constructor's `title = QwtText()` is written `New("")`, and the `on = true` of `setItemAttribute` and `setRenderHint` is an explicit `true`.
