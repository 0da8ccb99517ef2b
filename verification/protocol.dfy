// Shared vocabulary of the extension: the persisted shape record, the
// messages the popup sends to the page, and the stored settings' defaults.

module Protocol {

  datatype Option<+T> = None | Some(value: T)

  /** The toolbar's tools; a drawn shape records the tool that drew it. */
  datatype Tool = Rect | Circle | Custom | Eraser

  type TabId = int

  /** One obscured region as it is saved: `path` is "" unless the shape is
      free-form, in which case it holds M/L commands relative to (x, y). */
  datatype Shape = Shape(id: string, kind: Tool, x: int, y: int, width: int, height: int, path: string)

  /** Messages the popup sends to the content script. */
  datatype ContentMessage =
    | StartSession
    | ApplyBlurs(blurs: seq<Shape>)
    | ClearAllBlurs
    | UpdateIntensity(intensity: int)
    | SetEnabled(isEnabled: bool)
    | OtherMessage

  const DefaultIntensity: int := 16

  /** The extension is on unless the stored flag is explicitly false;
      a missing flag counts as on. */
  function EnabledSetting(stored: Option<bool>): (on: bool)
    ensures on <==> stored != Some(false)
    ensures stored == None ==> on
  {
    match stored
    case None => true
    case Some(b) => b
  }

  /** A stored blur intensity: installation writes the number 16, while the
      popup's slider writes its value, the decimal string of an integer. */
  datatype StoredIntensity = Number(n: int) | Numeral(n: int)

  /** The stored intensity, or the default when it is missing or falsy. The
      number 0 is falsy; every numeral string, "0" included, is truthy. */
  function IntensitySetting(stored: Option<StoredIntensity>): (n: int)
    ensures stored == None || stored == Some(Number(0)) ==> n == DefaultIntensity
    ensures stored.Some? && stored.value.Numeral? ==> n == stored.value.n
    ensures stored.Some? && stored.value.n != 0 ==> n == stored.value.n
  {
    match stored
    case None => DefaultIntensity
    case Some(Number(v)) => if v != 0 then v else DefaultIntensity
    case Some(Numeral(v)) => v
  }
}
