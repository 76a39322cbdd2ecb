/**
 * The editor's observable settings: the `Property<T>` container, whose `Set`
 * stores a value in place and then fires `OnValueChanged`, and the fixed
 * registry of named settings built from it.
 *
 * Each `Property` is proved against the value-level specification in
 * `PropertyModel`: `State()` is its abstract state, and every method that
 * changes it says which `PropertyModel` step it performs.
 */
module Settings {
  import opened PropertyModel

  /** One observable setting. `value` is `m_value`; the ghost `notifications`
      records every argument `OnValueChanged.Invoke` has received, the ghost
      `observed` records the value `m_value` held during each of those
      invocations (what a listener reading the property sees), and the ghost
      `initial` remembers the default the property was built with. */
  class Property<T> {
    var value: T
    ghost var initial: T
    ghost var notifications: seq<T>
    ghost var observed: seq<T>

    /** The abstract state of this property. */
    ghost function State(): PropertyState<T>
      reads this
    {
      PropertyState(initial, value, notifications, observed)
    }

    /** The value is the last notified value, or the default before any
        notification, and every invocation was handed the value stored at that
        moment. Every constructor and method establishes it. */
    ghost predicate Valid()
      reads this
    {
      Coherent(State())
    }

    /** `Property(T p_value)`: holds `p_value`, no event fired yet. */
    constructor (p_value: T)
      ensures Valid()
      ensures State() == Created(p_value)
    {
      value := p_value;
      initial := p_value;
      notifications := [];
      observed := [];
    }

    /** `OnValueChanged.Invoke(x)`, recorded in the log together with the value
        the property holds while the listeners run. Which listeners run and
        what they do belongs to the event mechanism, which is not modelled. */
    ghost method InvokeOnValueChanged(x: T)
      modifies this`notifications, this`observed
      ensures notifications == old(notifications) + [x]
      ensures observed == old(observed) + [value]
    {
      notifications := notifications + [x];
      observed := observed + [value];
    }

    /** `Set(T p_value)`: overwrites the value without any check, then fires
        the event once with the value now stored. */
    method Set(p_value: T)
      requires Valid()
      modifies this
      ensures State() == Step(old(State()), p_value)
      ensures Valid() && Get() == p_value
    {
      value := p_value;
      InvokeOnValueChanged(value);
    }

    /** `operator=(T p_value)`: the same step as `Set`, then yields the stored
        value. */
    method Assign(p_value: T) returns (r: T)
      requires Valid()
      modifies this
      ensures State() == Step(old(State()), p_value)
      ensures Valid() && r == p_value && r == Get()
    {
      Set(p_value);
      r := value;
    }

    /** `Get() const`: the argument of the most recent `Set`, or the default
        if `Set` was never called. */
    function Get(): (r: T)
      reads this
      requires Valid()
      ensures r == Latest(initial, notifications)
    {
      value
    }

    /** The implicit conversion `operator T()`: reads the same value as
        `Get()`. */
    function Convert(): (r: T)
      reads this
      requires Valid()
      ensures r == Get()
    {
      value
    }
  }

  /** Five references, no two of them the same object. */
  ghost predicate Distinct5<X>(a: X, b: X, c: X, d: X, e: X)
  {
    a != b && a != c && a != d && a != e &&
    b != c && b != d && b != e &&
    c != d && c != e &&
    d != e
  }

  /** Five new properties of one type, built with the given defaults. */
  method NewProperties<T>(d1: T, d2: T, d3: T, d4: T, d5: T)
    returns (p1: Property<T>, p2: Property<T>, p3: Property<T>, p4: Property<T>, p5: Property<T>)
    ensures fresh(p1) && fresh(p2) && fresh(p3) && fresh(p4) && fresh(p5)
    ensures Distinct5(p1, p2, p3, p4, p5)
    ensures p1.Valid() && p2.Valid() && p3.Valid() && p4.Valid() && p5.Valid()
    ensures p1.State() == Created(d1) && p2.State() == Created(d2)
    ensures p3.State() == Created(d3) && p4.State() == Created(d4)
    ensures p5.State() == Created(d5)
  {
    p1 := new Property(d1);
    p2 := new Property(d2);
    p3 := new Property(d3);
    p4 := new Property(d4);
    p5 := new Property(d5);
  }

  /** The registry: one property per named setting, each a separate object
      that exists for the registry's whole life. Building an `EditorSettings`
      stands for the program's static initialisation of these properties. */
  class EditorSettings {
    const ShowGeometryBounds: Property<bool>
    const ShowLightBounds: Property<bool>
    const EditorFrustumGeometryCulling: Property<bool>
    const EditorFrustumLightCulling: Property<bool>
    const DebugFrustumCulling: Property<bool>
    const LightBillboardScale: Property<real>
    const ReflectionProbeScale: Property<real>
    const TranslationSnapUnit: Property<real>
    const RotationSnapUnit: Property<real>
    const ScalingSnapUnit: Property<real>
    const ColorTheme: Property<int>
    const ConsoleMaxLogs: Property<int>
    const FontSize: Property<int>

    /** Every property keeps its own invariant, and the settings are separate
        objects (properties of different types are distinct already), so
        setting one cannot change another. */
    ghost predicate Valid()
      reads this, ShowGeometryBounds, ShowLightBounds, EditorFrustumGeometryCulling,
        EditorFrustumLightCulling, DebugFrustumCulling,
        LightBillboardScale, ReflectionProbeScale, TranslationSnapUnit,
        RotationSnapUnit, ScalingSnapUnit, ColorTheme, ConsoleMaxLogs, FontSize
    {
      ShowGeometryBounds.Valid() && ShowLightBounds.Valid() &&
      EditorFrustumGeometryCulling.Valid() && EditorFrustumLightCulling.Valid() &&
      DebugFrustumCulling.Valid() &&
      LightBillboardScale.Valid() && ReflectionProbeScale.Valid() &&
      TranslationSnapUnit.Valid() && RotationSnapUnit.Valid() && ScalingSnapUnit.Valid() &&
      ColorTheme.Valid() && ConsoleMaxLogs.Valid() && FontSize.Valid() &&
      Distinct5(ShowGeometryBounds, ShowLightBounds, EditorFrustumGeometryCulling,
                EditorFrustumLightCulling, DebugFrustumCulling) &&
      Distinct5(LightBillboardScale, ReflectionProbeScale, TranslationSnapUnit,
                RotationSnapUnit, ScalingSnapUnit) &&
      ColorTheme != ConsoleMaxLogs && ColorTheme != FontSize && ConsoleMaxLogs != FontSize
    }

    /** The static initialisation of the registry with its built-in defaults.
        The two enumeration-valued settings take the integer value of
        `EStyle::DEFAULT_DARK` and of `EFontSize::DEFAULT`, which are defined
        outside this model. */
    constructor (defaultDarkStyle: int, defaultFontSize: int)
      ensures Valid()
      ensures fresh(ShowGeometryBounds) && fresh(ShowLightBounds)
      ensures fresh(EditorFrustumGeometryCulling) && fresh(EditorFrustumLightCulling)
      ensures fresh(DebugFrustumCulling)
      ensures fresh(LightBillboardScale) && fresh(ReflectionProbeScale)
      ensures fresh(TranslationSnapUnit) && fresh(RotationSnapUnit) && fresh(ScalingSnapUnit)
      ensures fresh(ColorTheme) && fresh(ConsoleMaxLogs) && fresh(FontSize)
      ensures ShowGeometryBounds.State() == Created(false)
      ensures ShowLightBounds.State() == Created(false)
      ensures EditorFrustumGeometryCulling.State() == Created(true)
      ensures EditorFrustumLightCulling.State() == Created(true)
      ensures DebugFrustumCulling.State() == Created(false)
      ensures LightBillboardScale.State() == Created(0.5)
      ensures ReflectionProbeScale.State() == Created(0.5)
      ensures TranslationSnapUnit.State() == Created(1.0)
      ensures RotationSnapUnit.State() == Created(15.0)
      ensures ScalingSnapUnit.State() == Created(1.0)
      ensures ColorTheme.State() == Created(defaultDarkStyle)
      ensures ConsoleMaxLogs.State() == Created(500)
      ensures FontSize.State() == Created(defaultFontSize)
    {
      ColorTheme := new Property(defaultDarkStyle);
      ConsoleMaxLogs := new Property(500);
      FontSize := new Property(defaultFontSize);
      var b1, b2, b3, b4, b5 := NewProperties(false, false, true, true, false);
      var f1, f2, f3, f4, f5 := NewProperties(0.5, 0.5, 1.0, 15.0, 1.0);
      ShowGeometryBounds, ShowLightBounds := b1, b2;
      EditorFrustumGeometryCulling, EditorFrustumLightCulling := b3, b4;
      DebugFrustumCulling := b5;
      LightBillboardScale, ReflectionProbeScale := f1, f2;
      TranslationSnapUnit, RotationSnapUnit, ScalingSnapUnit := f3, f4, f5;
    }
  }

  /** A client of the registry: starting from the defaults, switch the
      geometry-bounds overlay on and off again. The property ends at `false`
      having notified `[true, false]`, in that order, and no other setting
      has moved from its default. */
  method ToggleGeometryBounds(defaultDarkStyle: int, defaultFontSize: int)
    returns (settings: EditorSettings)
    ensures settings.Valid()
    ensures settings.ShowGeometryBounds.Get() == false
    ensures settings.ShowGeometryBounds.notifications == [true, false]
    ensures settings.ShowGeometryBounds.State() == Replay(Created(false), [true, false])
    ensures settings.ShowLightBounds.State() == Created(false)
    ensures settings.EditorFrustumGeometryCulling.State() == Created(true)
    ensures settings.EditorFrustumLightCulling.State() == Created(true)
    ensures settings.DebugFrustumCulling.State() == Created(false)
    ensures settings.LightBillboardScale.State() == Created(0.5)
    ensures settings.ReflectionProbeScale.State() == Created(0.5)
    ensures settings.TranslationSnapUnit.State() == Created(1.0)
    ensures settings.RotationSnapUnit.State() == Created(15.0)
    ensures settings.ScalingSnapUnit.State() == Created(1.0)
    ensures settings.ConsoleMaxLogs.State() == Created(500)
    ensures settings.ColorTheme.State() == Created(defaultDarkStyle)
    ensures settings.FontSize.State() == Created(defaultFontSize)
  {
    settings := new EditorSettings(defaultDarkStyle, defaultFontSize);
    settings.ShowGeometryBounds.Set(true);
    settings.ShowGeometryBounds.Set(false);
    ReplayFromCreated(false, [true, false]);
  }
}
