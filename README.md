# Observable editor settings (Overload editor) in Dafny

This project models the editor's settings registry from
`OvEditor/Settings/EditorSettings.h`:

- `EditorSettings::Property<T>`, a container for one value (`m_value`) with a
  multicast event `OnValueChanged`. `Set` overwrites the value without any
  check and then invokes the event with the value now stored. `operator=` does
  the same and yields the stored value. `Get()` and the implicit conversion
  `operator T()` read the value.
- The registry itself: thirteen static properties with built-in defaults.
  They are five booleans, five floats and three integers.

The project has two modules.

- `PropertyModel` (`property_model.dfy`) is the value-level specification.
  A `PropertyState` holds the default, the current value, the log of every
  argument passed to `OnValueChanged.Invoke`, and the value the property held
  during each invocation (what a listener reading the property sees). `Step`
  is one `Set` call: store first, then invoke. `Replay` is a sequence of `Set`
  calls. `Coherent` is the property's invariant: the value is the last
  notified value, or the default if nothing was ever set, and every invocation
  was handed the value stored at that moment.
  The lemmas prove what the header promises about any sequence of `Set` calls.
- `Settings` (`settings.dfy`) is the imperative model. Class `Property<T>` has
  the mutable field `value` and two ghost logs: the arguments handed to the
  event, and the value held at each invocation. Its `Set` and
  `Assign` methods are proved against `Step`. `Get` and `Convert` are reading
  functions. Storing the value after invoking the event instead would break
  `Set`'s contract. Class `EditorSettings` holds the thirteen properties as `const`
  fields. Its constructor stands for the static initialisation and proves every
  default. The event is modelled only as "Invoke was called once with this
  value", recorded in the ghost log.

## Model

| member | source | states |
|---|---|---|
| `PropertyModel.CreatedIsCoherent` | Sources/Overload/OvEditor/include/OvEditor/Settings/EditorSettings.h:29 | A property built with `p_value` holds `p_value`, has fired no event, and satisfies the property's invariant. |
| `PropertyModel.StepSetsAndNotifies` | Sources/Overload/OvEditor/include/OvEditor/Settings/EditorSettings.h:50-54 | One `Set(v)` makes the value `v` with no check. It grows the log by exactly `[v]`, even when `v` equals the old value. The listeners run while the property already holds `v`. It preserves the property's invariant. |
| `PropertyModel.ReplayLog` | Sources/Overload/OvEditor/include/OvEditor/Settings/EditorSettings.h:50-54 | After any sequence of `Set` calls, the log has grown by exactly that sequence, in call order, and so has the list of values the listeners saw. The default is untouched. |
| `PropertyModel.ReplayValue` | Sources/Overload/OvEditor/include/OvEditor/Settings/EditorSettings.h:50-54 | After a non-empty sequence of `Set` calls, the value is the last argument. After an empty one, the value is unchanged. |
| `PropertyModel.ReplayCoherent` | Sources/Overload/OvEditor/include/OvEditor/Settings/EditorSettings.h:50-54 | Any sequence of `Set` calls preserves the property's invariant: the value is the last notified value, or the default if none, and each invocation was handed the value stored at that moment. |
| `PropertyModel.ReplayFromCreated` | Sources/Overload/OvEditor/include/OvEditor/Settings/EditorSettings.h:29-54 | Start from construction with default `d` and apply calls `v1..vn`. The log, and the list of values the listeners saw, are then exactly `[v1..vn]`. The value is `vn`, or `d` when n = 0. |
| `PropertyModel.ReplayNotifiesStoredValues` | Sources/Overload/OvEditor/include/OvEditor/Settings/EditorSettings.h:52-53 | While the listeners of the i-th `Set` of a run are invoked, the property holds exactly the argument they are handed, which is the value after the first i + 1 calls. |
| `PropertyModel.RepeatedSetNotifiesEachTime` | Sources/Overload/OvEditor/include/OvEditor/Settings/EditorSettings.h:50-54 | Setting the current value n times leaves the value unchanged and adds n notifications. There is no "only on change" test. |
| `Settings.Property.constructor` | Sources/Overload/OvEditor/include/OvEditor/Settings/EditorSettings.h:29 | The new property's state is `Created(p_value)`: it holds `p_value`, its log is empty, and it is valid. |
| `Settings.Property.InvokeOnValueChanged` | Sources/Overload/OvEditor/include/OvEditor/Settings/EditorSettings.h:34 | Invoking `OnValueChanged` with `x` appends `x` to the notification log and the value the property holds at that moment to the observed list. It changes nothing else. |
| `Settings.Property.Set` | Sources/Overload/OvEditor/include/OvEditor/Settings/EditorSettings.h:50-54 | The value is stored, then the event fires: the new state is `Step(old state, p_value)`, so the event's argument is the value stored at that moment. The property is valid afterwards, and `Get()` returns `p_value`. |
| `Settings.Property.Assign` | Sources/Overload/OvEditor/include/OvEditor/Settings/EditorSettings.h:40-44 | `operator=` performs the same step as `Set`. It returns the stored value, which is `p_value` and what `Get()` now returns. |
| `Settings.Property.Get` | Sources/Overload/OvEditor/include/OvEditor/Settings/EditorSettings.h:64-67 | Returns the argument of the most recent `Set`, or the default if `Set` was never called. It is a reading function, so it changes neither the value nor the log. |
| `Settings.Property.Convert` | Sources/Overload/OvEditor/include/OvEditor/Settings/EditorSettings.h:56-59 | The implicit conversion `operator T()` returns the same value as `Get()` and changes nothing. |
| `Settings.NewProperties` | Sources/Overload/OvEditor/include/OvEditor/Settings/EditorSettings.h:88-97 | Builds five new, pairwise distinct, valid properties of one type, each holding its default with an empty log. |
| `Settings.EditorSettings.constructor` | Sources/Overload/OvEditor/include/OvEditor/Settings/EditorSettings.h:88-100 | Each of the thirteen settings is a new, separate object holding its built-in default with no notification. ShowGeometryBounds, ShowLightBounds and DebugFrustumCulling are false. The two frustum-culling settings are true. The float settings are 0.5, 0.5, 1.0, 15.0 and 1.0. ConsoleMaxLogs is 500. ColorTheme and FontSize hold the given enumeration values. |
| `Settings.ToggleGeometryBounds` | Sources/Overload/OvEditor/include/OvEditor/Settings/EditorSettings.h:88-100 | Start from the defaults and set ShowGeometryBounds to true, then to false. Its log is then `[true, false]`, its state is `Replay(Created(false), [true, false])`, and `Get()` returns false. All twelve other settings still hold their defaults with empty logs, because each property is a separate object. |

## Left out

- `EditorSettings::Save` and `EditorSettings::Load` (lines 81 and 86): only their declarations are in this header. Their bodies, the persistence format and the store are not part of this model.
- The event mechanism `OvTools::Eventing::Event<T>` is not part of this model: listener attach and detach, handles, the order among listeners, and errors raised by listeners. The model records only that `Invoke` was called once with a given value.
- Listener bodies are assumed to change no state. `Set` modifies only its own property, so the claim that setting one property leaves the others unchanged holds only for listeners that change nothing.
- Listeners that call `Set` again from inside their own invocation are not modelled, and neither is concurrent access. The header says nothing about either.
- Settings.Property.Assign: `operator=` returns `T&`, a reference aliasing `m_value`. The model returns a copy of the stored value, so writing through that reference without a notification is not captured.
- Float settings are modelled as `real`. Their defaults (0.5, 1.0, 15.0) are exactly representable in binary32, and the header does no arithmetic on them.
- `EStyle::DEFAULT_DARK` and `EFontSize::DEFAULT` are defined in other headers. Their integer values are not visible, so the registry constructor takes them as parameters.
- `EditorSettings() = delete` (line 76) makes the registry a namespace of static properties. The model gathers them in one object whose constructor stands for the program's static initialisation.
