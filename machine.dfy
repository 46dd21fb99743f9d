/** The confirm dialog's lifecycle as pure transitions over a snapshot of the component.
    Each event handler is one atomic step that yields the new snapshot and the outside
    effects it caused, in order: calls of `resolve`, `onConfirm` and `onCancel`. */
module Machine {
  import opened Types
  import opened Options

  /** `DEFAULT_OPTIONS`: the options held while the dialog is closed. */
  const DefaultOptions: ConfirmOptions :=
    ConfirmOptions("", Missing, Missing, Missing, Missing, Missing, Missing, Missing, Missing, Missing)

  datatype Effect =
    | Settle(resolver: ResolverId, value: bool)
    | CallOnConfirm(callback: CallbackId)
    | CallOnCancel(callback: CallbackId)

  /** How a user callback ends: the awaited `onConfirm`, or `onCancel`. */
  datatype Outcome = Returns | Throws

  /** The component's three pieces of state (`state`, `loading`, `visible`), the number
      of close timers still pending, and the number of promises created so far (the next
      resolver's identity). */
  datatype Dialog = Dialog(
    state: ConfirmState,
    loading: bool,
    visible: bool,
    timers: nat,
    promises: nat)

  datatype Step = Step(dialog: Dialog, effects: seq<Effect>)

  function Initial(): Dialog {
    Dialog(ConfirmState(false, DefaultOptions, None), false, false, 0, 0)
  }

  /** What every reachable snapshot satisfies: the pending resolver is one already
      created; a closed dialog holds no resolver and the default options; and `loading`
      is only ever set while a close timer is pending to clear it. */
  ghost predicate Inv(d: Dialog) {
    ResolverInv(d) && (d.loading ==> d.timers > 0)
  }

  /** The part of `Inv` about the resolver and the options. */
  ghost predicate ResolverInv(d: Dialog) {
    && (d.state.resolve.Some? ==> d.state.resolve.value < d.promises)
    && (!d.state.isOpen ==> d.state.resolve == None && d.state.options == DefaultOptions)
  }

  predicate ResolvesNothing(effects: seq<Effect>) {
    forall e <- effects :: !e.Settle?
  }

  /** Exactly one resolver is settled, with value `v` (possibly by several calls). */
  predicate ResolvesOnly(effects: seq<Effect>, id: ResolverId, v: bool) {
    Settle(id, v) in effects && forall e <- effects :: e.Settle? ==> e == Settle(id, v)
  }

  /** The options in effect for the current call. */
  function Current(props: ConfirmerProps, d: Dialog): Settings {
    Resolve(DefaultsOf(props), d.state.options)
  }

  /** The component renders nothing when the dialog is neither open nor visible. */
  predicate Rendered(d: Dialog): (r: bool)
    ensures !d.state.isOpen && !d.visible ==> !r
    ensures DataState(d) == "open" ==> r
  {
    d.state.isOpen || d.visible
  }

  /** `data-state` of the overlay and the dialog. */
  function DataState(d: Dialog): (r: string)
    ensures r == "open" <==> d.visible && d.state.isOpen
    ensures r == "open" || r == "closed"
  {
    if d.visible && d.state.isOpen then "open" else "closed"
  }

  /** `open`: stores the options and a fresh resolver, resolving nothing. The visibility
      effect runs only when `isOpen` changes, so `visible` is set only when the dialog
      was closed. */
  function Open(d: Dialog, options: ConfirmOptions): (r: Step)
    ensures r.effects == []
    ensures r.dialog.state == ConfirmState(true, options, Some(d.promises))
    ensures r.dialog.promises == d.promises + 1
    ensures r.dialog.loading == d.loading && r.dialog.timers == d.timers
    ensures !d.state.isOpen ==> DataState(r.dialog) == "open"
    ensures d.state.isOpen ==> r.dialog.visible == d.visible
  {
    var visible := if !d.state.isOpen then true else d.visible;
    Step(Dialog(ConfirmState(true, options, Some(d.promises)), d.loading, visible, d.timers, d.promises + 1), [])
  }

  /** `close(result)`: settles the pending resolver (if any) with `result`, starts the exit
      animation and schedules one timer; the open flag and the resolver stay as they were. */
  function Close(d: Dialog, result: bool): (r: Step)
    ensures d.state.resolve.Some? ==> ResolvesOnly(r.effects, d.state.resolve.value, result)
    ensures d.state.resolve.None? ==> r.effects == []
    ensures forall e <- r.effects :: e.Settle?
    ensures |r.effects| <= 1
    ensures r.dialog == d.(visible := false, timers := d.timers + 1)
    ensures ResolverInv(d) ==> Inv(r.dialog)
    ensures DataState(r.dialog) == "closed"
  {
    var effects := if d.state.resolve.Some? then [Settle(d.state.resolve.value, result)] else [];
    Step(d.(visible := false, timers := d.timers + 1), effects)
  }

  /** The confirm path completes: no `onConfirm`, or one that returns. */
  predicate Succeeds(props: ConfirmerProps, d: Dialog, outcome: Outcome) {
    Current(props, d).onConfirm.None? || outcome == Returns
  }

  /** `handleConfirm`: ignored while loading; otherwise awaits `onConfirm` when there is
      one (setting `loading`), and on success closes with `true`. A throwing `onConfirm`
      clears `loading` and leaves the dialog open and unresolved. */
  function HandleConfirm(props: ConfirmerProps, d: Dialog, outcome: Outcome): (r: Step)
    ensures d.loading ==> r == Step(d, [])
    ensures !d.loading && Succeeds(props, d, outcome) ==>
              && (d.state.resolve.Some? ==> ResolvesOnly(r.effects, d.state.resolve.value, true))
              && (d.state.resolve.None? ==> ResolvesNothing(r.effects))
              && r.dialog == d.(visible := false, timers := d.timers + 1,
                                loading := Current(props, d).onConfirm.Some?)
    ensures !d.loading && !Succeeds(props, d, outcome) ==>
              r.dialog == d && ResolvesNothing(r.effects) && r.dialog.state.isOpen == d.state.isOpen
    ensures !d.loading && Current(props, d).onConfirm.Some? ==>
              |r.effects| > 0 && r.effects[0] == CallOnConfirm(Current(props, d).onConfirm.value)
    ensures d.loading || Current(props, d).onConfirm.None? ==> forall e <- r.effects :: !e.CallOnConfirm?
    ensures |r.effects| <= 2 && forall i | 0 < i < |r.effects| :: r.effects[i].Settle?
    ensures forall e <- r.effects :: !e.CallOnCancel?
  {
    if d.loading then Step(d, [])
    else
      match Current(props, d).onConfirm
      case None => Close(d, true)
      case Some(callback) =>
        var awaiting := d.(loading := true);
        if outcome == Throws then
          Step(awaiting.(loading := false), [CallOnConfirm(callback)])
        else
          var closed := Close(awaiting, true);
          Step(closed.dialog, [CallOnConfirm(callback)] + closed.effects)
  }

  /** The cancel path completes: no `onCancel`, or one that returns. */
  predicate CancelCompletes(props: ConfirmerProps, d: Dialog, outcome: Outcome) {
    Current(props, d).onCancel.None? || outcome == Returns
  }

  /** `handleCancel`: ignored while loading; otherwise calls `onCancel` when there is one
      and closes with `false`. The call of `onCancel` is not guarded, so when it throws
      the handler stops before `close`: the dialog is unchanged and nothing is resolved. */
  function HandleCancel(props: ConfirmerProps, d: Dialog, outcome: Outcome): (r: Step)
    ensures d.loading ==> r == Step(d, [])
    ensures !d.loading && CancelCompletes(props, d, outcome) ==>
              && (d.state.resolve.Some? ==> ResolvesOnly(r.effects, d.state.resolve.value, false))
              && (d.state.resolve.None? ==> ResolvesNothing(r.effects))
              && r.dialog == d.(visible := false, timers := d.timers + 1)
    ensures !d.loading && !CancelCompletes(props, d, outcome) ==>
              r.dialog == d && ResolvesNothing(r.effects)
    ensures !d.loading && Current(props, d).onCancel.Some? ==>
              |r.effects| > 0 && r.effects[0] == CallOnCancel(Current(props, d).onCancel.value)
    ensures d.loading || Current(props, d).onCancel.None? ==> forall e <- r.effects :: !e.CallOnCancel?
    ensures |r.effects| <= 2 && forall i | 0 < i < |r.effects| :: r.effects[i].Settle?
    ensures forall e <- r.effects :: !e.CallOnConfirm?
  {
    if d.loading then Step(d, [])
    else
      match Current(props, d).onCancel
      case None => Close(d, false)
      case Some(callback) =>
        if outcome == Throws then
          Step(d, [CallOnCancel(callback)])
        else
          var closed := Close(d, false);
          Step(closed.dialog, [CallOnCancel(callback)] + closed.effects)
  }

  /** The keydown listener, attached only while the dialog is open: Escape cancels when
      the dialog is dismissible and not loading; every other case is ignored. */
  function HandleKeyDown(props: ConfirmerProps, d: Dialog, key: string, outcome: Outcome): (r: Step)
    ensures d.state.isOpen && key == "Escape" && Current(props, d).dismissible ==>
              r == HandleCancel(props, d, outcome)
    ensures !d.state.isOpen || key != "Escape" || !Current(props, d).dismissible || d.loading ==>
              r == Step(d, [])
  {
    if d.state.isOpen && key == "Escape" && Current(props, d).dismissible && !d.loading then
      HandleCancel(props, d, outcome)
    else
      Step(d, [])
  }

  /** `handleOverlayClick`: a click whose target is the overlay itself cancels when the
      dialog is dismissible and not loading; clicks inside the dialog are ignored. */
  function HandleOverlayClick(props: ConfirmerProps, d: Dialog, targetIsOverlay: bool, outcome: Outcome): (r: Step)
    ensures targetIsOverlay && Current(props, d).dismissible ==> r == HandleCancel(props, d, outcome)
    ensures !targetIsOverlay || !Current(props, d).dismissible || d.loading ==> r == Step(d, [])
  {
    if targetIsOverlay && Current(props, d).dismissible && !d.loading then
      HandleCancel(props, d, outcome)
    else
      Step(d, [])
  }

  /** One close timer fires: the dialog returns to the closed default state with no
      resolver and `loading` cleared; `visible` is left as it is. */
  function TimeoutFires(d: Dialog): (r: Step)
    requires d.timers > 0
    ensures r.effects == []
    ensures r.dialog.state == ConfirmState(false, DefaultOptions, None)
    ensures !r.dialog.loading && r.dialog.timers == d.timers - 1
    ensures r.dialog.visible == d.visible && r.dialog.promises == d.promises
    ensures !d.visible ==> !Rendered(r.dialog)
  {
    Step(Dialog(ConfirmState(false, DefaultOptions, None), false, d.visible, d.timers - 1, d.promises), [])
  }

  /** Everything that can happen to the component. A click or key that may run a user
      callback carries how that callback ends. */
  datatype Event =
    | OpenCall(options: ConfirmOptions)
    | ConfirmClick(outcome: Outcome)
    | CancelClick(outcome: Outcome)
    | KeyDown(key: string, outcome: Outcome)
    | OverlayClick(targetIsOverlay: bool, outcome: Outcome)
    | Timeout

  /** One event. A click on a component that renders nothing, or a timer when none is
      pending, cannot happen and changes nothing. */
  function Apply(props: ConfirmerProps, d: Dialog, e: Event): Step {
    match e
    case OpenCall(options) => Open(d, options)
    case ConfirmClick(outcome) => if Rendered(d) then HandleConfirm(props, d, outcome) else Step(d, [])
    case CancelClick(outcome) => if Rendered(d) then HandleCancel(props, d, outcome) else Step(d, [])
    case KeyDown(key, outcome) => HandleKeyDown(props, d, key, outcome)
    case OverlayClick(target, outcome) =>
      if Rendered(d) then HandleOverlayClick(props, d, target, outcome) else Step(d, [])
    case Timeout => if d.timers > 0 then TimeoutFires(d) else Step(d, [])
  }

  /** A sequence of events, collecting their effects in order. */
  function Run(props: ConfirmerProps, d: Dialog, events: seq<Event>): Step
    decreases |events|
  {
    if events == [] then Step(d, [])
    else
      var first := Apply(props, d, events[0]);
      var rest := Run(props, first.dialog, events[1..]);
      Step(rest.dialog, first.effects + rest.effects)
  }

  // ---------------------------------------------------------------------------
  // Properties of single events

  /** Every event keeps the invariant. */
  lemma ApplyPreservesInv(props: ConfirmerProps, d: Dialog, e: Event)
    requires Inv(d)
    ensures Inv(Apply(props, d, e).dialog)
  {
  }

  /** An event only ever settles the resolver held before it, and afterwards holds that
      same resolver, none, or a freshly created one; no resolver is ever forgotten and
      then taken back. */
  lemma ApplyTouchesOnlyCurrentResolver(props: ConfirmerProps, d: Dialog, e: Event)
    ensures var r := Apply(props, d, e);
            && (forall e <- r.effects :: e.Settle? ==> d.state.resolve == Some(e.resolver))
            && r.dialog.promises >= d.promises
            && (r.dialog.state.resolve == d.state.resolve || r.dialog.state.resolve == None
                || r.dialog.state.resolve == Some(d.promises))
  {
  }

  /** The confirm path completes without a throwing `onConfirm`: the condition under which
      an event settles the pending promise with `true`. */
  predicate ConfirmCompletes(props: ConfirmerProps, d: Dialog, e: Event) {
    e.ConfirmClick? && Rendered(d) && !d.loading && Succeeds(props, d, e.outcome)
  }

  /** The cancel path is taken: the cancel button, Escape while open, or a click on the
      overlay itself, the last two only when dismissible; none while loading. */
  predicate CancelTaken(props: ConfirmerProps, d: Dialog, e: Event) {
    && !d.loading
    && match e
       case CancelClick(_) => Rendered(d)
       case KeyDown(key, _) => d.state.isOpen && key == "Escape" && Current(props, d).dismissible
       case OverlayClick(target, _) => Rendered(d) && target && Current(props, d).dismissible
       case _ => false
  }

  /** The cancel path is taken and runs to `close`: `onCancel` is absent or returns. */
  predicate CancelRuns(props: ConfirmerProps, d: Dialog, e: Event) {
    CancelTaken(props, d, e) && CancelCompletes(props, d, e.outcome)
  }

  /** A pending promise is settled with `true` exactly when the confirm path completes. */
  lemma SettlesTrueIff(props: ConfirmerProps, d: Dialog, e: Event)
    requires d.state.resolve.Some?
    ensures Settle(d.state.resolve.value, true) in Apply(props, d, e).effects <==> ConfirmCompletes(props, d, e)
  {
  }

  /** A pending promise is settled with `false` exactly when the cancel path runs. */
  lemma SettlesFalseIff(props: ConfirmerProps, d: Dialog, e: Event)
    requires d.state.resolve.Some?
    ensures Settle(d.state.resolve.value, false) in Apply(props, d, e).effects <==> CancelRuns(props, d, e)
  {
  }

  /** `onConfirm` is called by an event exactly when it is a confirm click on a rendered
      dialog that is not loading, and the callback is the one in effect. */
  lemma CallsOnConfirmIff(props: ConfirmerProps, d: Dialog, e: Event, c: CallbackId)
    ensures CallOnConfirm(c) in Apply(props, d, e).effects <==>
              e.ConfirmClick? && Rendered(d) && !d.loading && Current(props, d).onConfirm == Some(c)
  {
  }

  /** `onCancel` is called by an event exactly when the cancel path is taken, and the
      callback is the one in effect; whether it then throws does not matter. */
  lemma CallsOnCancelIff(props: ConfirmerProps, d: Dialog, e: Event, c: CallbackId)
    ensures CallOnCancel(c) in Apply(props, d, e).effects <==>
              CancelTaken(props, d, e) && Current(props, d).onCancel == Some(c)
  {
  }

  /** While loading, no click and no key settles anything or changes the dialog;
      only a new `open` or a timer has an effect. */
  lemma LoadingIgnoresUserInput(props: ConfirmerProps, d: Dialog, e: Event)
    requires d.loading && !e.OpenCall? && !e.Timeout?
    ensures Apply(props, d, e) == Step(d, [])
  {
  }

  /** Escape and overlay clicks do nothing on a dialog that is not dismissible. */
  lemma NotDismissibleIgnoresPassiveDismissal(props: ConfirmerProps, d: Dialog, e: Event)
    requires !Current(props, d).dismissible && (e.KeyDown? || e.OverlayClick?)
    ensures Apply(props, d, e) == Step(d, [])
  {
  }

  /** Once the confirm or cancel path has run on an open dialog, `data-state` is closed
      until the next `open`, and the timer then leaves nothing rendered. */
  lemma SettledDialogCloses(props: ConfirmerProps, d: Dialog, e: Event)
    requires Inv(d) && d.state.isOpen && (ConfirmCompletes(props, d, e) || CancelRuns(props, d, e))
    ensures var r := Apply(props, d, e).dialog;
            && DataState(r) == "closed" && r.state.isOpen && r.timers > 0
            && !Rendered(TimeoutFires(r).dialog)
  {
  }

  // ---------------------------------------------------------------------------
  // Properties of runs

  lemma {:induction false} RunPreservesInv(props: ConfirmerProps, d: Dialog, events: seq<Event>)
    requires Inv(d)
    ensures Inv(Run(props, d, events).dialog)
    decreases |events|
  {
    if events != [] {
      ApplyPreservesInv(props, d, events[0]);
      RunPreservesInv(props, Apply(props, d, events[0]).dialog, events[1..]);
    }
  }

  /** A resolver that was created but is no longer held is never settled, whatever
      happens afterwards. */
  lemma {:induction false} ForgottenResolverNeverSettled(
    props: ConfirmerProps, d: Dialog, events: seq<Event>, id: ResolverId, v: bool)
    requires id < d.promises && d.state.resolve != Some(id)
    ensures Settle(id, v) !in Run(props, d, events).effects
    decreases |events|
  {
    if events != [] {
      var first := Apply(props, d, events[0]);
      ApplyTouchesOnlyCurrentResolver(props, d, events[0]);
      ForgottenResolverNeverSettled(props, first.dialog, events[1..], id, v);
    }
  }

  /** A second `open` before the first promise is settled replaces its resolver: that
      earlier promise is never settled by anything that follows. */
  lemma {:induction false} ReopenAbandonsPending(
    props: ConfirmerProps, d: Dialog, options: ConfirmOptions, events: seq<Event>, v: bool)
    requires Inv(d) && d.state.resolve.Some?
    ensures Settle(d.state.resolve.value, v) !in Run(props, Open(d, options).dialog, events).effects
  {
    ForgottenResolverNeverSettled(props, Open(d, options).dialog, events, d.state.resolve.value, v);
  }

  /** A confirm chained right after another (opened while the first dialog's exit
      animation runs) stays hidden, and the first dialog's timer then discards its
      resolver: the second promise is never settled. */
  lemma {:induction false} ChainedConfirmIsAbandoned(
    props: ConfirmerProps, first: ConfirmOptions, second: ConfirmOptions, later: seq<Event>, v: bool)
    ensures var reopened := Run(props, Initial(), [OpenCall(first), CancelClick(Returns), OpenCall(second)]).dialog;
            && reopened.state.resolve == Some(1) && DataState(reopened) == "closed"
            && Settle(1, v) !in Run(props, Apply(props, reopened, Timeout).dialog, later).effects
  {
    var d0 := Initial();
    var d1 := Open(d0, first).dialog;
    var d2 := HandleCancel(props, d1, Returns).dialog;
    var d3 := Open(d2, second).dialog;
    var events := [OpenCall(first), CancelClick(Returns), OpenCall(second)];
    assert Run(props, d0, events).dialog == d3 by {
      assert events[1..] == [CancelClick(Returns), OpenCall(second)];
      assert events[1..][1..] == [OpenCall(second)];
      assert Run(props, d2, [OpenCall(second)]).dialog == d3;
      assert Run(props, d1, events[1..]).dialog == d3;
    }
    var d4 := TimeoutFires(d3).dialog;
    ForgottenResolverNeverSettled(props, d4, later, 1, v);
  }
}
