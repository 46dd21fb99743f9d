/** Option resolution: per-call options spread over the component's `defaultOptions`,
    then destructured with fixed defaults; and the `data-theme` value. */
module Options {
  import opened Types

  const DefaultConfirmText: string := "Confirm"
  const DefaultCancelText: string := "Cancel"

  /** The empty partial record: what spreading an absent `defaultOptions` contributes. */
  const NoOptions: PartialOptions :=
    PartialOptions(Missing, Missing, Missing, Missing, Missing, Missing, Missing, Missing, Missing, Missing)

  /** One property of `{ ...under, ...over }`: a property present in `over` wins,
      even when it holds `undefined`. */
  function Spread<T>(under: Slot<T>, over: Slot<T>): Slot<T> {
    if over.Missing? then under else over
  }

  /** A destructuring default `{ p = fallback }`: applies when the property is undefined. */
  function OrDefault<T>(s: Slot<T>, fallback: T): T {
    if s.Given? then s.value else fallback
  }

  /** A destructured property without a default: `undefined` becomes None. */
  function OrNone<T>(s: Slot<T>): Option<T> {
    if s.Given? then Some(s.value) else None
  }

  /** The `defaultOptions` prop; spreading `undefined` adds no property. */
  function DefaultsOf(props: ConfirmerProps): PartialOptions {
    if props.defaultOptions.Given? then props.defaultOptions.value else NoOptions
  }

  /** `{ ...defaultOptions, ...state.options }`. The title always comes from the call,
      whose type requires it. */
  function Merge(defaults: PartialOptions, options: ConfirmOptions): ConfirmOptions {
    ConfirmOptions(
      options.title,
      Spread(defaults.description, options.description),
      Spread(defaults.confirmText, options.confirmText),
      Spread(defaults.cancelText, options.cancelText),
      Spread(defaults.variant, options.variant),
      Spread(defaults.onConfirm, options.onConfirm),
      Spread(defaults.onCancel, options.onCancel),
      Spread(defaults.dismissible, options.dismissible),
      Spread(defaults.className, options.className),
      Spread(defaults.overlayClassName, options.overlayClassName))
  }

  /** The values the component renders and acts on after destructuring. */
  datatype Settings = Settings(
    title: string,
    description: Option<string>,
    confirmText: string,
    cancelText: string,
    variant: Variant,
    onConfirm: Option<CallbackId>,
    onCancel: Option<CallbackId>,
    dismissible: bool,
    className: Option<string>,
    overlayClassName: Option<string>)

  /** The destructuring of the merged options, with its four fixed defaults. */
  function Destructure(m: ConfirmOptions): Settings {
    Settings(
      m.title,
      OrNone(m.description),
      OrDefault(m.confirmText, DefaultConfirmText),
      OrDefault(m.cancelText, DefaultCancelText),
      OrDefault(m.variant, Default),
      OrNone(m.onConfirm),
      OrNone(m.onCancel),
      OrDefault(m.dismissible, true),
      OrNone(m.className),
      OrNone(m.overlayClassName))
  }

  /** Precedence for a property with a fixed default: the call's value, else the
      component default when the call leaves the property out, else the fixed default.
      A call that sets the property to `undefined` hides the component default. */
  ghost predicate Picks<T>(call: Slot<T>, component: Slot<T>, fixed: T, r: T) {
    && (call.Given? ==> r == call.value)
    && (call.Missing? && component.Given? ==> r == component.value)
    && (call.Undefined? || (call.Missing? && !component.Given?) ==> r == fixed)
  }

  /** The same precedence for a property without a default. */
  ghost predicate PicksOptional<T>(call: Slot<T>, component: Slot<T>, r: Option<T>) {
    && (call.Given? ==> r == Some(call.value))
    && (call.Missing? && component.Given? ==> r == Some(component.value))
    && (call.Undefined? || (call.Missing? && !component.Given?) ==> r == None)
  }

  /** The options in effect for a call: merge, then destructure. */
  function Resolve(defaults: PartialOptions, options: ConfirmOptions): (r: Settings)
    ensures r.title == options.title
    ensures PicksOptional(options.description, defaults.description, r.description)
    ensures Picks(options.confirmText, defaults.confirmText, DefaultConfirmText, r.confirmText)
    ensures Picks(options.cancelText, defaults.cancelText, DefaultCancelText, r.cancelText)
    ensures Picks(options.variant, defaults.variant, Default, r.variant)
    ensures PicksOptional(options.onConfirm, defaults.onConfirm, r.onConfirm)
    ensures PicksOptional(options.onCancel, defaults.onCancel, r.onCancel)
    ensures Picks(options.dismissible, defaults.dismissible, true, r.dismissible)
    ensures PicksOptional(options.className, defaults.className, r.className)
    ensures PicksOptional(options.overlayClassName, defaults.overlayClassName, r.overlayClassName)
  {
    Destructure(Merge(defaults, options))
  }

  /** With neither the call nor the component giving them, the documented defaults apply:
      "Confirm", "Cancel", the `default` variant, and dismissible. */
  lemma DocumentedDefaults(title: string)
    ensures var r := Resolve(NoOptions, ConfirmOptions(title, Missing, Missing, Missing, Missing,
                                                       Missing, Missing, Missing, Missing, Missing));
            && r.title == title
            && r.confirmText == "Confirm" && r.cancelText == "Cancel"
            && r.variant == Default && r.dismissible
            && r.onConfirm == None && r.onCancel == None && r.description == None
  {
  }

  /** `data-theme`: the theme prop (default `system`), omitted when it is `system`. */
  function ThemeValue(props: ConfirmerProps): (r: Option<Theme>)
    ensures r.None? <==> !props.theme.Given? || props.theme.value == System
    ensures r.Some? ==> props.theme == Given(r.value) && r.value != System
  {
    var theme := OrDefault(props.theme, System);
    if theme == System then None else Some(theme)
  }
}
