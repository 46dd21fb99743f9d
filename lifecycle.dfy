/** The mounted component and the module-level registry, as objects whose methods step
    their fields. Every method of `Confirmer` is proved to do what the transition of
    `Machine` with the same name does, and to keep `Machine.Inv`. */
module Lifecycle {
  import opened Types
  import opened Options
  import opened Machine

  const NotMountedMessage: string := "affirm: <Confirmer /> is not mounted. Add it to your app root."

  datatype ConfirmError = NotMounted(message: string)

  /** One mounted `<Confirmer>`: its props and its state hooks. */
  class Confirmer {
    const props: ConfirmerProps
    var state: ConfirmState
    var loading: bool
    var visible: bool
    /** Close timers scheduled and not yet fired. */
    var timers: nat
    /** Promises created by `open`; the next one's resolver has this identity. */
    var promises: nat
    /** Outside calls made so far: resolvers settled, callbacks invoked. */
    ghost var effects: seq<Effect>

    function Snapshot(): Dialog
      reads this
    {
      Dialog(state, loading, visible, timers, promises)
    }

    ghost predicate Valid()
      reads this
    {
      Inv(Snapshot())
    }

    /** The initial `useState` values. */
    constructor (props: ConfirmerProps)
      ensures Valid() && this.props == props
      ensures Snapshot() == Initial() && effects == []
    {
      this.props := props;
      state := ConfirmState(false, DefaultOptions, None);
      loading := false;
      visible := false;
      timers := 0;
      promises := 0;
      effects := [];
    }

    /** `open(options)`: returns the new promise, identified by its resolver. */
    method Open(options: ConfirmOptions) returns (id: ResolverId)
      requires Valid()
      modifies this
      ensures Valid()
      ensures id == old(promises) && state.resolve == Some(id)
      ensures Snapshot() == Machine.Open(old(Snapshot()), options).dialog
      ensures effects == old(effects)
    {
      id := promises;
      promises := promises + 1;
      var wasOpen := state.isOpen;
      state := ConfirmState(true, options, Some(id));
      // the visibility effect depends on `isOpen` and runs only when it changes
      if !wasOpen {
        visible := true;
      }
    }

    /** `close(result)`: resolve first, then start the exit animation and its timer.
        The timer it schedules is what lets a `loading` set just before be cleared, so
        only the resolver part of the invariant is needed beforehand. */
    method Close(result: bool)
      requires ResolverInv(Snapshot())
      modifies this
      ensures Valid()
      ensures Snapshot() == Machine.Close(old(Snapshot()), result).dialog
      ensures effects == old(effects) + Machine.Close(old(Snapshot()), result).effects
    {
      if state.resolve.Some? {
        effects := effects + [Settle(state.resolve.value, result)];
      }
      visible := false;
      timers := timers + 1;
    }

    method HandleConfirm(outcome: Outcome)
      requires Valid() && Rendered(Snapshot())
      modifies this
      ensures Valid()
      ensures Snapshot() == Machine.HandleConfirm(props, old(Snapshot()), outcome).dialog
      ensures effects == old(effects) + Machine.HandleConfirm(props, old(Snapshot()), outcome).effects
    {
      if loading {
        return;
      }
      var onConfirm := Current(props, Snapshot()).onConfirm;
      if onConfirm.Some? {
        loading := true;
        effects := effects + [CallOnConfirm(onConfirm.value)];
        if outcome == Throws {
          loading := false;
          return;
        }
      }
      Close(true);
    }

    /** `handleCancel`; `outcome` says how `onCancel` ends, and a throw ends the handler. */
    method HandleCancel(outcome: Outcome)
      requires Valid() && Rendered(Snapshot())
      modifies this
      ensures Valid()
      ensures Snapshot() == Machine.HandleCancel(props, old(Snapshot()), outcome).dialog
      ensures effects == old(effects) + Machine.HandleCancel(props, old(Snapshot()), outcome).effects
    {
      if loading {
        return;
      }
      var onCancel := Current(props, Snapshot()).onCancel;
      if onCancel.Some? {
        effects := effects + [CallOnCancel(onCancel.value)];
        if outcome == Throws {
          return;
        }
      }
      Close(false);
    }

    /** The document keydown listener, present only while the dialog is open. */
    method HandleKeyDown(key: string, outcome: Outcome)
      requires Valid()
      modifies this
      ensures Valid()
      ensures Snapshot() == Machine.HandleKeyDown(props, old(Snapshot()), key, outcome).dialog
      ensures effects == old(effects) + Machine.HandleKeyDown(props, old(Snapshot()), key, outcome).effects
    {
      if !state.isOpen {
        return;
      }
      if key == "Escape" && Current(props, Snapshot()).dismissible && !loading {
        HandleCancel(outcome);
      }
    }

    method HandleOverlayClick(targetIsOverlay: bool, outcome: Outcome)
      requires Valid() && Rendered(Snapshot())
      modifies this
      ensures Valid()
      ensures Snapshot() == Machine.HandleOverlayClick(props, old(Snapshot()), targetIsOverlay, outcome).dialog
      ensures effects == old(effects) + Machine.HandleOverlayClick(props, old(Snapshot()), targetIsOverlay, outcome).effects
    {
      if targetIsOverlay && Current(props, Snapshot()).dismissible && !loading {
        HandleCancel(outcome);
      }
    }

    /** One of the scheduled close timers fires. */
    method TimeoutFires()
      requires Valid() && timers > 0
      modifies this
      ensures Valid()
      ensures Snapshot() == Machine.TimeoutFires(old(Snapshot())).dialog
      ensures effects == old(effects)
    {
      state := ConfirmState(false, DefaultOptions, None);
      loading := false;
      timers := timers - 1;
    }
  }

  /** The module-level `globalConfirm`: the `open` of the last mounted component, or null. */
  class Registry {
    var handler: Confirmer?

    constructor ()
      ensures handler == null
    {
      handler := null;
    }

    /** The registration effect of a component that mounts. */
    method Register(c: Confirmer)
      modifies this
      ensures handler == c
    {
      handler := c;
    }

    /** The effect's cleanup when a component unmounts: clears the registry whichever
        component was registered. */
    method Unregister()
      modifies this
      ensures handler == null
    {
      handler := null;
    }

    /** `confirm(options)`: fails when nothing is registered, otherwise opens the
        registered dialog and returns its new promise. */
    method Confirm(options: ConfirmOptions) returns (r: Result<ResolverId, ConfirmError>)
      requires handler != null ==> handler.Valid()
      modifies handler
      ensures handler == old(handler)
      ensures r.Err? <==> handler == null
      ensures r.Err? ==> r.error == NotMounted(NotMountedMessage)
      ensures handler != null ==>
                && r == Ok(old(handler.promises))
                && handler.Valid()
                && handler.Snapshot() == Machine.Open(old(handler.Snapshot()), options).dialog
                && handler.effects == old(handler.effects)
    {
      if handler == null {
        return Err(NotMounted(NotMountedMessage));
      }
      var id := handler.Open(options);
      return Ok(id);
    }
  }

  /** The documented usage: `confirm` before mounting throws; once mounted, the promise
      stays pending until a button settles it; unmounting makes `confirm` throw again. */
  method DeleteScenario(props: ConfirmerProps)
    requires DefaultsOf(props).onCancel.Missing?
  {
    var registry := new Registry();
    var options := ConfirmOptions("Delete?", Missing, Missing, Missing, Missing,
                                  Missing, Missing, Missing, Missing, Missing);
    var before := registry.Confirm(options);
    assert before.Err?;

    var dialog := new Confirmer(props);
    registry.Register(dialog);
    var promise := registry.Confirm(options);
    assert promise == Ok(0);
    assert dialog.effects == [];
    assert DataState(dialog.Snapshot()) == "open";

    dialog.HandleCancel(Returns);
    assert dialog.effects == [Settle(0, false)];
    dialog.TimeoutFires();
    assert !Rendered(dialog.Snapshot());

    registry.Unregister();
    var after := registry.Confirm(options);
    assert after.Err?;
  }
}
