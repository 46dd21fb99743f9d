/** The shapes declared in src/types.ts, plus the small wrappers the model needs. */
module Types {

  datatype Option<+T> = None | Some(value: T)

  datatype Result<+T, +E> = Ok(value: T) | Err(error: E)

  /** An optional property of a TypeScript object literal: absent, present but set to
      `undefined`, or present with a value. Object spread copies a present property even
      when it holds `undefined`; a destructuring default applies to the first two alike. */
  datatype Slot<+T> = Missing | Undefined | Given(value: T)

  /** Identity of a callback supplied in the options (`onConfirm`, `onCancel`). */
  type CallbackId = nat

  /** Identity of the `resolve` function of one promise returned by `confirm`. */
  type ResolverId = nat

  /** Visual variant: exactly one of five tags. */
  datatype Variant = Default | Danger | Warning | Info | Success

  datatype Theme = Light | Dark | System

  /** Per-call options: `title` is required, every other property is optional.
      The `icon` (a rendered node) is not part of this model. */
  datatype ConfirmOptions = ConfirmOptions(
    title: string,
    description: Slot<string>,
    confirmText: Slot<string>,
    cancelText: Slot<string>,
    variant: Slot<Variant>,
    onConfirm: Slot<CallbackId>,
    onCancel: Slot<CallbackId>,
    dismissible: Slot<bool>,
    className: Slot<string>,
    overlayClassName: Slot<string>)

  /** `Partial<ConfirmOptions>`: the same properties, all optional, title included. */
  datatype PartialOptions = PartialOptions(
    title: Slot<string>,
    description: Slot<string>,
    confirmText: Slot<string>,
    cancelText: Slot<string>,
    variant: Slot<Variant>,
    onConfirm: Slot<CallbackId>,
    onCancel: Slot<CallbackId>,
    dismissible: Slot<bool>,
    className: Slot<string>,
    overlayClassName: Slot<string>)

  /** Properties of the `<Confirmer>` component. */
  datatype ConfirmerProps = ConfirmerProps(
    theme: Slot<Theme>,
    defaultOptions: Slot<PartialOptions>,
    className: Slot<string>)

  /** The component's main state: open flag, current options, pending resolver or null. */
  datatype ConfirmState = ConfirmState(
    isOpen: bool,
    options: ConfirmOptions,
    resolve: Option<ResolverId>)
}
