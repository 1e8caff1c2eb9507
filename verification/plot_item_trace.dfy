/** Sequences of item operations and the protocol they obey towards plots.

    `Op` names every public mutator of an item; `Apply` runs one and `Run`
    runs a whole sequence, concatenating the plot calls in order. The lemmas
    state the attach/notify protocol over all inputs: no-op suppression,
    silence while detached, the axis-pair invariant, and — seen from any one
    plot — a registration discipline in which the item is registered at most
    once, deregistered only while registered, and sends legend updates and
    refresh requests only while registered. */
module PlotItemTrace {

  import opened Options
  import opened PlotItemFlags
  import PI = PlotItem

  /** One call of a public mutator of the item. */
  datatype Op =
    | Attach(plot: Option<PI.PlotHandle>)
    | Detach
    | SetZ(z: real)
    | SetTitle(title: PI.Title)
    | SetItemAttribute(attribute: ItemAttribute, on: bool)
    | SetRenderHint(hint: RenderHint, on: bool)
    | SetLegendIdentifierSize(size: PI.Size)
    | SetVisible(on: bool)
    | Show
    | Hide
    | ItemChanged
    | SetAxes(x: int, y: int)
    | SetXAxis(axis: int)
    | SetYAxis(axis: int)

  /** Run one operation. */
  function Apply(s: PI.ItemState, op: Op): PI.Step
  {
    match op
    case Attach(p) => PI.Attach(s, p)
    case Detach => PI.Detach(s)
    case SetZ(z) => PI.SetZ(s, z)
    case SetTitle(t) => PI.SetTitle(s, t)
    case SetItemAttribute(a, on) => PI.SetItemAttribute(s, a, on)
    case SetRenderHint(h, on) => PI.SetRenderHint(s, h, on)
    case SetLegendIdentifierSize(size) => PI.SetLegendIdentifierSize(s, size)
    case SetVisible(on) => PI.SetVisible(s, on)
    case Show => PI.Show(s)
    case Hide => PI.Hide(s)
    case ItemChanged => PI.Step(s, PI.ItemChanged(s))
    case SetAxes(x, y) => PI.SetAxes(s, x, y)
    case SetXAxis(axis) => PI.SetXAxis(s, axis)
    case SetYAxis(axis) => PI.SetYAxis(s, axis)
  }

  /** Run a sequence of operations from `s`; the calls of later operations
      follow those of earlier ones. */
  function Run(s: PI.ItemState, ops: seq<Op>): PI.Step
    decreases |ops|
  {
    if |ops| == 0 then PI.Step(s, [])
    else
      var first := Apply(s, ops[0]);
      var rest := Run(first.state, ops[1..]);
      PI.Step(rest.state, first.calls + rest.calls)
  }

  /** Operations that can change which plot owns the item. */
  predicate MovesOwner(op: Op)
  {
    op.Attach? || op.Detach?
  }

  // ---------------------------------------------------------------------
  // Attachment
  // ---------------------------------------------------------------------

  /** A run of two operations makes the first one's calls, then the
      second's. */
  lemma RunTwo(s: PI.ItemState, a: Op, b: Op)
    ensures var first := Apply(s, a);
      var second := Apply(first.state, b);
      Run(s, [a, b]) == PI.Step(second.state, first.calls + second.calls)
  {
    var first := Apply(s, a);
    var second := Apply(first.state, b);
    assert [a, b][1..] == [b];
    assert [b][1..] == [];
    assert Run(first.state, [b]) == PI.Step(second.state, second.calls + []);
    assert second.calls + [] == second.calls;
  }

  /** Attaching to the plot that already owns the item is a no-op, so
      `attach(P); attach(P)` registers exactly once. */
  lemma AttachIdempotent(s: PI.ItemState, plot: Option<PI.PlotHandle>)
    ensures Run(s, [Attach(plot), Attach(plot)]) == PI.Attach(s, plot)
  {
    RunTwo(s, Attach(plot), Attach(plot));
    assert PI.Attach(s, plot).calls + [] == PI.Attach(s, plot).calls;
  }

  /** From a detached item, `attach(P); attach(Q)` registers with `P`, then
      deregisters from `P`, then registers with `Q`, and nothing else. */
  lemma AttachThenReattach(s: PI.ItemState, p: PI.PlotHandle, q: PI.PlotHandle)
    requires s.plot.None? && p != q
    ensures Run(s, [Attach(Some(p)), Attach(Some(q))]).calls ==
      [PI.AttachItem(p, true, Some(p), s.z), PI.AttachItem(p, false, Some(p), s.z),
       PI.AttachItem(q, true, Some(q), s.z)]
    ensures Run(s, [Attach(Some(p)), Attach(Some(q))]).state.plot == Some(q)
  {
    RunTwo(s, Attach(Some(p)), Attach(Some(q)));
  }

  /** After `detach()`, destroying the item makes no call on any plot. */
  lemma DetachThenDestroySilent(s: PI.ItemState)
    ensures PI.Destroy(PI.Detach(s).state) == []
  {
  }

  /** Only `attach` and `detach` change the owning plot, and every call any
      other operation makes goes to the owning plot. */
  lemma OthersKeepOwner(s: PI.ItemState, op: Op)
    requires !MovesOwner(op)
    ensures Apply(s, op).state.plot == s.plot
    ensures forall c :: c in Apply(s, op).calls ==> s.plot == Some(c.target)
  {
    var r := Apply(s, op);
    match op
    case SetZ(z) =>
      if z != s.z && s.plot.Some? {
        var p := s.plot.value;
        assert r.calls == [PI.AttachItem(p, false, s.plot, s.z), PI.AttachItem(p, true, s.plot, z),
                           PI.UpdateLegend(p), PI.AutoRefresh(p)];
      }
    case SetLegendIdentifierSize(_) =>
    case SetTitle(_) =>
      assert r.calls == [] || r.calls == PI.ItemChanged(s);
    case SetItemAttribute(_, _) =>
      assert r.calls == [] || r.calls == PI.ItemChanged(s);
    case SetRenderHint(_, _) =>
      assert r.calls == [] || r.calls == PI.ItemChanged(s);
    case SetVisible(_) =>
      assert r.calls == [] || r.calls == PI.ItemChanged(s);
    case Show =>
      assert r.calls == [] || r.calls == PI.ItemChanged(s);
    case Hide =>
      assert r.calls == [] || r.calls == PI.ItemChanged(s);
    case ItemChanged =>
    case SetAxes(_, _) =>
    case SetXAxis(_) =>
      assert r.calls == [] || r.calls == PI.ItemChanged(s);
    case SetYAxis(_) =>
      assert r.calls == [] || r.calls == PI.ItemChanged(s);
  }

  /** A detached item stays silent: without `attach`, no operation calls a
      plot. */
  lemma DetachedIsSilent(s: PI.ItemState, op: Op)
    requires s.plot.None? && !op.Attach?
    ensures Apply(s, op).calls == []
    ensures Apply(s, op).state.plot.None?
  {
  }

  /** A whole sequence without `attach` on a detached item calls no plot. */
  lemma {:induction false} DetachedRunIsSilent(s: PI.ItemState, ops: seq<Op>)
    requires s.plot.None?
    requires forall i :: 0 <= i < |ops| ==> !ops[i].Attach?
    ensures Run(s, ops).calls == []
    ensures Run(s, ops).state.plot.None?
    decreases |ops|
  {
    if |ops| > 0 {
      DetachedIsSilent(s, ops[0]);
      DetachedRunIsSilent(Apply(s, ops[0]).state, ops[1..]);
    }
  }

  // ---------------------------------------------------------------------
  // Notification
  // ---------------------------------------------------------------------

  /** Setters that compare the new value with the stored one. */
  predicate ComparesBeforeNotify(op: Op)
  {
    op.SetZ? || op.SetTitle? || op.SetItemAttribute? || op.SetRenderHint? ||
    op.SetVisible? || op.Show? || op.Hide?
  }

  /** On an attached item, a comparing setter calls the plot exactly when it
      changes the state. */
  lemma NotifyIffChanged(s: PI.ItemState, op: Op)
    requires s.plot.Some? && ComparesBeforeNotify(op)
    ensures Apply(s, op).calls != [] <==> Apply(s, op).state != s
  {
    var r := Apply(s, op);
    match op
    case SetItemAttribute(a, on) =>
      assert PI.TestItemAttribute(r.state, a) == on;
    case SetRenderHint(h, on) =>
      assert PI.TestRenderHint(r.state, h) == on;
    case _ =>
  }

  /** On an attached item, the single-axis setters call the plot exactly when
      the id is valid for their dimension, whether or not it changes. */
  lemma AxisSetterNotifiesIffValid(s: PI.ItemState, axis: int)
    requires s.plot.Some?
    ensures Apply(s, SetXAxis(axis)).calls != [] <==> PI.IsXAxis(axis)
    ensures Apply(s, SetYAxis(axis)).calls != [] <==> PI.IsYAxis(axis)
  {
  }

  /** Re-setting the current valid axis changes nothing yet still notifies. */
  lemma SameAxisStillNotifies(s: PI.ItemState)
    requires s.plot.Some? && PI.AxesValid(s)
    ensures Apply(s, SetXAxis(s.xAxis)).state == s
    ensures Apply(s, SetXAxis(s.xAxis)).calls == [PI.UpdateLegend(s.plot.value), PI.AutoRefresh(s.plot.value)]
    ensures Apply(s, SetYAxis(s.yAxis)).state == s
    ensures Apply(s, SetYAxis(s.yAxis)).calls == [PI.UpdateLegend(s.plot.value), PI.AutoRefresh(s.plot.value)]
  {
  }

  /** `setAxes` notifies an attached item's plot even when both ids are
      rejected, and then leaves the axes as they were. */
  lemma SetAxesAlwaysNotifies(s: PI.ItemState, x: int, y: int)
    requires s.plot.Some? && !PI.IsXAxis(x) && !PI.IsYAxis(y)
    ensures Apply(s, SetAxes(x, y)).state == s
    ensures Apply(s, SetAxes(x, y)).calls == [PI.UpdateLegend(s.plot.value), PI.AutoRefresh(s.plot.value)]
  {
  }

  // ---------------------------------------------------------------------
  // The axis pair
  // ---------------------------------------------------------------------

  /** Every operation keeps the item on a valid x axis and a valid y axis. */
  lemma AxesStayValid(s: PI.ItemState, op: Op)
    requires PI.AxesValid(s)
    ensures PI.AxesValid(Apply(s, op).state)
  {
  }

  /** An item, from construction and through any run, has valid axes. */
  lemma {:induction false} RunKeepsAxesValid(s: PI.ItemState, ops: seq<Op>)
    requires PI.AxesValid(s)
    ensures PI.AxesValid(Run(s, ops).state)
    decreases |ops|
  {
    if |ops| > 0 {
      AxesStayValid(s, ops[0]);
      RunKeepsAxesValid(Apply(s, ops[0]).state, ops[1..]);
    }
  }

  // ---------------------------------------------------------------------
  // The registration discipline, seen from one plot
  // ---------------------------------------------------------------------

  /** What plot `p` holds of the item: nothing, or the item filed under the
      z it reported when it registered. */
  datatype View = Unregistered | Registered(z: real)

  /** The view `p` should have of an item owned by `owner` with z `z`. */
  function Held(owner: Option<PI.PlotHandle>, z: real, p: PI.PlotHandle): View
  {
    if owner == Some(p) then Registered(z) else Unregistered
  }

  /** The view `p` should have of item state `s`. */
  function ViewOf(s: PI.ItemState, p: PI.PlotHandle): View
  {
    Held(s.plot, s.z, p)
  }

  /** Plot `p`'s view of one call. A registration is accepted only when `p`
      does not hold the item and the item already names `p` as its owner; it
      files the item under the z it reports. A deregistration is accepted
      only while the item still names `p` as its owner and reports the very
      z it was filed under. A legend update or refresh is accepted only while
      `p` holds the item. Calls to other plots leave the view alone. `None`
      is a protocol violation. */
  function Receive(v: View, c: PI.PlotCall, p: PI.PlotHandle): Option<View>
  {
    if c.target != p then Some(v)
    else match c
      case AttachItem(_, true, owner, z) =>
        if v.Unregistered? && owner == Some(p) then Some(Registered(z)) else None
      case AttachItem(_, false, owner, z) =>
        if v == Registered(z) && owner == Some(p) then Some(Unregistered) else None
      case UpdateLegend(_) => if v.Registered? then Some(v) else None
      case AutoRefresh(_) => if v.Registered? then Some(v) else None
  }

  /** Plot `p`'s view of a whole call sequence. */
  function Replay(v: View, calls: seq<PI.PlotCall>, p: PI.PlotHandle): Option<View>
    decreases |calls|
  {
    if |calls| == 0 then Some(v)
    else match Receive(v, calls[0], p)
      case None => None
      case Some(next) => Replay(next, calls[1..], p)
  }

  /** Replaying two sequences back to back is replaying their concatenation. */
  lemma {:induction false} ReplayAppend(v: View, a: seq<PI.PlotCall>, b: seq<PI.PlotCall>, p: PI.PlotHandle)
    ensures Replay(v, a + b, p) ==
      match Replay(v, a, p)
      case None => None
      case Some(mid) => Replay(mid, b, p)
    decreases |a|
  {
    if |a| == 0 {
      assert a + b == b;
    } else {
      assert (a + b)[0] == a[0];
      assert (a + b)[1..] == a[1..] + b;
      match Receive(v, a[0], p)
      case None =>
      case Some(next) => ReplayAppend(next, a[1..], b, p);
    }
  }

  /** Leaving the old owner, with the z it was filed under, leaves every plot
      not holding the item. */
  lemma ReplayLeave(owner: Option<PI.PlotHandle>, z: real, p: PI.PlotHandle)
    ensures Replay(Held(owner, z, p), PI.Leave(owner, z), p) == Some(Unregistered)
  {
  }

  /** Joining a new owner from a state where no plot holds the item. */
  lemma ReplayJoin(owner: Option<PI.PlotHandle>, z: real, p: PI.PlotHandle)
    ensures Replay(Unregistered, PI.Join(owner, z), p) == Some(Held(owner, z, p))
  {
  }

  /** The calls of `itemChanged()` only reach the owner, which holds the item. */
  lemma ReplayItemChanged(s: PI.ItemState, p: PI.PlotHandle)
    ensures Replay(ViewOf(s, p), PI.ItemChanged(s), p) == Some(ViewOf(s, p))
  {
    if s.plot.Some? {
      var v := ViewOf(s, p);
      var calls := PI.ItemChanged(s);
      assert Receive(v, calls[0], p) == Some(v);
      assert calls[1..] == [PI.AutoRefresh(s.plot.value)];
      assert Receive(v, calls[1], p) == Some(v);
      assert calls[1..][1..] == [];
      assert Replay(v, calls, p) == Replay(v, calls[1..], p);
      assert Replay(v, calls[1..], p) == Replay(v, calls[1..][1..], p);
    }
  }

  /** Leaving with the old z and rejoining the same owner with a new one, as
      `setZ` does, refiles the item under the new z. */
  lemma ReplayRejoin(owner: Option<PI.PlotHandle>, z: real, z': real, p: PI.PlotHandle)
    ensures Replay(Held(owner, z, p), PI.Leave(owner, z) + PI.Join(owner, z'), p) ==
      Some(Held(owner, z', p))
  {
    ReplayAppend(Held(owner, z, p), PI.Leave(owner, z), PI.Join(owner, z'), p);
    ReplayLeave(owner, z, p);
    ReplayJoin(owner, z', p);
  }

  /** The discipline is not vacuous: had `setZ` stored the new z before
      deregistering, the owner would be asked to remove the item under a z
      it was never filed under, and the replay rejects that. */
  lemma StoreBeforeLeaveRejected(s: PI.ItemState, z: real)
    requires s.plot.Some? && z != s.z
    ensures var p := s.plot.value;
      Replay(ViewOf(s, p), PI.Leave(s.plot, z) + PI.Join(s.plot, z), p) == None
  {
    var p := s.plot.value;
    ReplayAppend(ViewOf(s, p), PI.Leave(s.plot, z), PI.Join(s.plot, z), p);
  }

  /** Every single operation follows the discipline and leaves plot `p`
      holding the item, under its current z, exactly when `p` owns it
      afterwards. */
  lemma ApplyConforms(s: PI.ItemState, op: Op, p: PI.PlotHandle)
    ensures Replay(ViewOf(s, p), Apply(s, op).calls, p) == Some(ViewOf(Apply(s, op).state, p))
  {
    var v := ViewOf(s, p);
    ReplayItemChanged(s, p);
    match op
    case Attach(q) =>
      if q != s.plot {
        ReplayAppend(v, PI.Leave(s.plot, s.z), PI.Join(q, s.z), p);
        ReplayLeave(s.plot, s.z, p);
        ReplayJoin(q, s.z, p);
      }
    case Detach =>
      ReplayAppend(v, PI.Leave(s.plot, s.z), PI.Join(None, s.z), p);
      ReplayLeave(s.plot, s.z, p);
    case SetZ(z) =>
      if z != s.z {
        var s' := s.(z := z);
        var leaveJoin := PI.Leave(s.plot, s.z) + PI.Join(s.plot, z);
        ReplayRejoin(s.plot, s.z, z, p);
        ReplayItemChanged(s', p);
        ReplayAppend(v, leaveJoin, PI.ItemChanged(s'), p);
      }
    case _ =>
  }

  /** Any run follows the discipline: each plot sees the item registered at
      most once, deregistered only under the z it was registered with and
      notified only while registered, and at the end holds it, under its
      final z, exactly when it is the owner. */
  lemma {:induction false} RunConforms(s: PI.ItemState, ops: seq<Op>, p: PI.PlotHandle)
    ensures Replay(ViewOf(s, p), Run(s, ops).calls, p) == Some(ViewOf(Run(s, ops).state, p))
    decreases |ops|
  {
    if |ops| > 0 {
      var first := Apply(s, ops[0]);
      ApplyConforms(s, ops[0], p);
      RunConforms(first.state, ops[1..], p);
      ReplayAppend(ViewOf(s, p), first.calls, Run(first.state, ops[1..]).calls, p);
    }
  }

  /** A whole life: construct, run any operations, destroy. Every plot sees
      a conforming call sequence and ends up not holding the item. */
  lemma {:induction false} LifetimeConforms(title: PI.Title, ops: seq<Op>, p: PI.PlotHandle)
    ensures var run := Run(PI.New(title), ops);
      Replay(Unregistered, run.calls + PI.Destroy(run.state), p) == Some(Unregistered)
  {
    var run := Run(PI.New(title), ops);
    RunConforms(PI.New(title), ops, p);
    ApplyConforms(run.state, Detach, p);
    ReplayAppend(Unregistered, run.calls, PI.Destroy(run.state), p);
  }
}
