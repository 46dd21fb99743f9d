# affirm: the confirm-dialog lifecycle in Dafny

affirm is a promise-based confirmation dialog for React. A single `<Confirmer>` component is
mounted at the app root and registers its `open` handler in a module-level variable. Calling
`confirm(options)` then opens the dialog and returns a promise that settles with `true` when
the user confirms or with `false` when the user cancels.

This project models that lifecycle and proves what it promises:

- `types.dfy` (module `Types`) holds the shapes from `src/types.ts`. These are the five-way
  `Variant`, the `ConfirmOptions` record (only `title` is required), its `Partial` form,
  `ConfirmerProps` (with the three-way `Theme`) and `ConfirmState`. An optional property is a
  `Slot`: absent, present but `undefined`, or present with a value. The distinction matters
  because object spread copies a property explicitly set to `undefined`.
- `options.dfy` (module `Options`) covers option resolution. Per-call options are spread over
  the component's `defaultOptions`, then destructured with the fixed defaults "Confirm",
  "Cancel", `default` and dismissible. The module also computes the `data-theme` value.
- `machine.dfy` (module `Machine`) holds the dialog state machine as pure transitions over a
  snapshot `Dialog`. The snapshot holds `state`, `loading`, `visible`, the number of pending
  close timers and the number of promises created so far. Each transition returns the new
  snapshot and the outside effects it caused, in order: resolver calls and `onConfirm` /
  `onCancel` calls. `Run` applies a sequence of events. The lemmas prove an invariant over
  every run, the exact conditions under which a pending promise settles `true` or `false`,
  and that a replaced or discarded resolver is never settled afterwards.
- `lifecycle.dfy` (module `Lifecycle`) holds the classes. `Confirmer` has the component's
  state hooks as fields and one method per handler. `Registry` is the module-level
  `globalConfirm` with `Register`, `Unregister` and `Confirm`. Each method of `Confirmer`
  is proved to perform exactly the `Machine` transition of the same name. `Close` needs
  only the resolver part of the invariant beforehand and re-establishes all of it; every
  other `Confirmer` method keeps the invariant. `Registry.Confirm` performs `Machine.Open`
  on the registered component.

Resolvers and callbacks are identified by numbers. How a user callback ends (returns or
throws) is a parameter of the event that may call it. For the confirm click this is
`onConfirm`. For the cancel click, Escape and the overlay click it is `onCancel`. Its call
is not guarded, so when it throws the handler stops before `close`. Each handler is one atomic step on the current
state. The 150 ms timer is an explicit `TimeoutFires` step, which is allowed only while a
timer is pending. A button or overlay click can reach a handler only while the component
renders something, so the click methods of `Confirmer` require `Rendered`. In `Machine.Apply`,
such a click on a component that renders nothing changes nothing. The visibility effect
(`setVisible(true)` when `isOpen` changes) is part of `Open`: it fires only when the dialog
was closed.

Two behaviours of the code as written follow from the model and are proved:

- Reopening abandons the pending promise. A second `confirm` before the first promise
  settles replaces the resolver, and the first promise is never settled (`ReopenAbandonsPending`).
- A chained confirm can be lost. Suppose a `confirm` is opened during the previous dialog's
  150 ms exit animation. `isOpen` is still true, so the visibility effect does not run and the
  new dialog stays `data-state="closed"`. The earlier close timer then resets the state and
  discards the new resolver, so that promise is never settled (`ChainedConfirmIsAbandoned`).
  The cleanup that `close` returns (`clearTimeout`) is never called, so nothing prevents this.

## Model

| member | source | states |
|---|---|---|
| `Options.Resolve` | src/confirmer.tsx:48-61 | For every property: the call's value wins. The component default applies only when the call leaves the property out. A call that sets it to `undefined`, or a property neither side gives, falls back to the fixed default ("Confirm", "Cancel", `default`, `true`) or to none. The title is always the call's. |
| `Options.DocumentedDefaults` | src/types.ts:10-22 | With no component defaults and only a title, the button texts are "Confirm" and "Cancel", the variant is `default`, the dialog is dismissible, and there is no description and no callback. |
| `Options.ThemeValue` | src/confirmer.tsx:164-167 | `data-theme` is absent exactly when the theme prop is `system` or not given (its default). Otherwise it is the given `light` or `dark`. |
| `Machine.DataState` | src/confirmer.tsx:173 | `data-state` is `"open"` iff the dialog is both visible and open, and `"closed"` otherwise. |
| `Machine.Open` | src/confirmer.tsx:64-68 | `open` resolves nothing. It stores the options and a fresh resolver and sets `isOpen`. It leaves `loading` and the timers alone. It shows the dialog (`data-state` open) only if the dialog was closed; on an open dialog `visible` is unchanged. |
| `Machine.Rendered` | src/confirmer.tsx:162 | Nothing renders when the dialog is neither open nor visible. A dialog whose `data-state` is open is rendered. |
| `Machine.Close` | src/confirmer.tsx:99-115 | `close(result)` makes at most one call: it settles the pending resolver, if any, with `result`. It hides the dialog and schedules one more timer. `isOpen`, the options, the resolver and `loading` are unchanged. Given the resolver part of the invariant, the whole invariant holds afterwards. |
| `Machine.HandleConfirm` | src/confirmer.tsx:117-130 | While loading, nothing happens. Without `onConfirm`, or when it returns, the pending resolver alone gets `true`, the dialog hides, and `loading` ends set exactly when there was an `onConfirm`. When `onConfirm` throws, the dialog is unchanged (still open, `loading` cleared) and nothing is resolved. `onConfirm` is called first, exactly when it exists and the click is not ignored. After it come at most one resolver call and nothing else. `onCancel` is never called. |
| `Machine.HandleCancel` | src/confirmer.tsx:132-136 | While loading, nothing happens. Otherwise `onCancel` is called first when given. If it is absent or returns, the pending resolver alone gets `false` and the dialog hides with one more timer. If it throws, the dialog is unchanged and nothing is resolved. After the callback come at most one resolver call and nothing else. `onConfirm` is never called. |
| `Machine.HandleKeyDown` | src/confirmer.tsx:138-150 | Escape on an open, dismissible dialog is a cancel click, with the same `onCancel` outcome. Any other key, a closed dialog, a non-dismissible dialog or a loading dialog changes nothing. |
| `Machine.HandleOverlayClick` | src/confirmer.tsx:152-160 | A click whose target is the overlay itself, on a dismissible dialog, is a cancel click, with the same `onCancel` outcome. A click inside the dialog, or on a non-dismissible or loading dialog, changes nothing. |
| `Machine.TimeoutFires` | src/confirmer.tsx:107-110 | The timer resets the state to closed, with `DEFAULT_OPTIONS` and no resolver, and clears `loading`. It resolves nothing and leaves `visible` alone, so a hidden dialog stops rendering. |
| `Machine.ApplyPreservesInv` | src/confirmer.tsx:64-130 | Every event keeps the invariant. The held resolver was already created. A closed dialog holds no resolver and the default options. `loading` is set only while a timer is pending to clear it. |
| `Machine.ApplyTouchesOnlyCurrentResolver` | src/confirmer.tsx:64-115 | An event settles only the resolver held before it. Afterwards it holds that resolver, none, or a fresh one. |
| `Machine.SettlesTrueIff` | src/confirmer.tsx:117-130 | A pending promise is settled with `true` by an event if and only if it is a confirm click on a rendered, non-loading dialog whose `onConfirm` is absent or returns. |
| `Machine.SettlesFalseIff` | src/confirmer.tsx:132-160 | A pending promise is settled with `false` by an event if and only if the event takes a cancel path on a non-loading dialog and `onCancel` is absent or returns. The cancel paths are the cancel button, Escape while open and dismissible, and a click on the overlay itself while dismissible. |
| `Machine.CallsOnConfirmIff` | src/confirmer.tsx:117-123 | An event calls `onConfirm` if and only if it is a confirm click on a rendered, non-loading dialog whose options in effect give that callback. |
| `Machine.CallsOnCancelIff` | src/confirmer.tsx:132-160 | An event calls `onCancel` if and only if it takes a cancel path and the options in effect give that callback. This holds whether the callback then returns or throws. |
| `Machine.LoadingIgnoresUserInput` | src/confirmer.tsx:117-136 | While loading, every click and key press leaves the dialog unchanged and has no effect. |
| `Machine.NotDismissibleIgnoresPassiveDismissal` | src/confirmer.tsx:138-160 | On a non-dismissible dialog, Escape and overlay clicks leave the dialog unchanged and have no effect. |
| `Machine.SettledDialogCloses` | src/confirmer.tsx:99-115 | After the confirm or cancel path on an open dialog, `data-state` is closed while `isOpen` stays true with a timer pending. Once that timer fires, nothing renders. |
| `Machine.RunPreservesInv` | src/confirmer.tsx:32-38 | The invariant holds after any sequence of events from any state that satisfies it, including the initial state. |
| `Machine.ForgottenResolverNeverSettled` | src/confirmer.tsx:101-108 | A resolver that was created but is no longer held is never settled by any later sequence of events. |
| `Machine.ReopenAbandonsPending` | src/confirmer.tsx:64-68 | A second `open` before the pending promise settles means that promise is never settled by anything that follows. |
| `Machine.ChainedConfirmIsAbandoned` | src/confirmer.tsx:78-83 | Open, cancel, then open again during the exit animation. The second dialog holds resolver 1 but its `data-state` is closed. After the first close timer fires, resolver 1 is never settled. |
| `Lifecycle.Confirmer.constructor` | src/confirmer.tsx:32-38 | A new component is closed, with the default options, no resolver, not loading, not visible, no timers and no effects. |
| `Lifecycle.Confirmer.Open` | src/confirmer.tsx:64-68 | Returns the new promise's resolver, performs `Machine.Open` on the fields, and keeps the invariant. |
| `Lifecycle.Confirmer.Close` | src/confirmer.tsx:99-115 | Performs `Machine.Close` on the fields and appends its resolver call to the effects. Given the resolver part of the invariant, it establishes the whole invariant. |
| `Lifecycle.Confirmer.HandleConfirm` | src/confirmer.tsx:117-130 | Performs `Machine.HandleConfirm` on the fields and effects, and keeps the invariant. |
| `Lifecycle.Confirmer.HandleCancel` | src/confirmer.tsx:132-136 | Performs `Machine.HandleCancel` on the fields and effects, including the throwing `onCancel`, and keeps the invariant. |
| `Lifecycle.Confirmer.HandleKeyDown` | src/confirmer.tsx:139-146 | Performs `Machine.HandleKeyDown` on the fields and effects, and keeps the invariant. |
| `Lifecycle.Confirmer.HandleOverlayClick` | src/confirmer.tsx:153-160 | Performs `Machine.HandleOverlayClick` on the fields and effects, and keeps the invariant. |
| `Lifecycle.Confirmer.TimeoutFires` | src/confirmer.tsx:107-110 | Performs `Machine.TimeoutFires` on the fields with no effect, and keeps the invariant. |
| `Lifecycle.Registry.constructor` | src/confirmer.tsx:16 | The registry starts empty (`globalConfirm` is null). |
| `Lifecycle.Registry.Register` | src/confirmer.tsx:70-71 | Mounting registers this component's `open`. |
| `Lifecycle.Registry.Unregister` | src/confirmer.tsx:72-74 | Unmounting clears the registry, whichever component was registered. |
| `Lifecycle.Registry.Confirm` | src/confirmer.tsx:18-25 | Fails with the not-mounted error if and only if nothing is registered. Otherwise it returns the registered component's new promise and performs `Machine.Open` on it. |

## Left out

- Rendering is not modelled: the portal, the ARIA wiring, `useId`, the CSS class joining, the icon, the description paragraph and the spinner. Only `data-state`, `data-theme` and whether anything renders are modelled. The `icon` option is therefore absent from the options records.
- The focus trap (`src/focus-trap`) and the effect that activates it are not part of this model. That effect is DOM focus handling.
- Promise scheduling and the suspension at `await onConfirm()` are not modelled. The confirm click is one step whose outcome is a parameter. Interleavings during that await are not covered: a click, a new `open` or a timer arriving while `onConfirm` runs.
- React render timing and stale closures are not modelled. Each handler acts atomically on the current state, so two clicks handled before a re-render are not covered.
- Timer delays are not modelled: only the number of pending timers is counted. The `clearTimeout` cleanup that `close` returns is never used by the source and has no counterpart.
- The error a throwing `onCancel` raises is not modelled. It escapes the click or keydown handler to React or to the document, and only its effect on the dialog (none) is modelled.
- Promise settlement is not modelled. The effects record every call of a resolver. A promise keeps the first value it receives, so a second call (for example, a second cancel click during the exit animation) has no further effect on the caller.
- `Machine.Close`: the source calls the resolver before it sets `visible` to false. Inside one atomic step this order is not observable, so the contract does not state it.
- A change of `Confirmer` props after mount is not modelled: `props` is fixed per component.
- Event listener plumbing is not modelled: adding and removing the keydown listener is reduced to the check that the dialog is open.
- What happens to a component after it unmounts is not modelled: events reaching it and setState calls after unmount. Only the registry is cleared.
- Build and demo configuration contains no logic and is not modelled.
