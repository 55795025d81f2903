/**
 * The gradient strip between page sections: its two colours are looked up by
 * name in a plain object literal, with separate names allowed for the light
 * theme; a name that is neither a palette name nor one the literal inherits
 * falls back to the raw prop.
 */
module SectionDivider {
  import opened Wrappers
  import opened Theme

  /** The palette names the divider knows, and their hex values. */
  const COLOR_MAP: map<string, string> := map[
    "ink" := "#0F1114",
    "carbon" := "#181B20",
    "slate" := "#22262D",
    "snow" := "#F6F7F9",
    "white" := "#FFFFFF",
    "cloud" := "#ECEEF1"
  ]

  /**
   * The members every object literal inherits from `Object.prototype`
   * (section 20.1.3 of ECMAScript 2024 and its Annex B.2.2). Indexing the
   * palette with one of these names finds the inherited member, a function or
   * (for `__proto__`) the prototype itself, which is never nullish.
   */
  const INHERITED: set<string> := {
    "constructor", "hasOwnProperty", "isPrototypeOf", "propertyIsEnumerable",
    "toLocaleString", "toString", "valueOf", "__proto__",
    "__defineGetter__", "__defineSetter__", "__lookupGetter__", "__lookupSetter__"
  }

  /**
   * A colour as it reaches the style: CSS text, or the inherited member of
   * that name, which React turns into text of its own.
   */
  datatype Colour = Css(text: string) | Inherited(member: string)

  /** The two colours of the gradient, top and bottom. */
  datatype Gradient = Gradient(fromColor: Colour, toColor: Colour)

  /** No palette name is an inherited member's name. */
  lemma PaletteNamesAreOwn()
    ensures forall key | key in COLOR_MAP :: key !in INHERITED
  {
  }

  /** `COLOR_MAP[key] ?? fallback` on the plain object literal. */
  function Lookup(key: string, fallback: string): (colour: Colour)
    ensures key in COLOR_MAP ==> colour == Css(COLOR_MAP[key])
    ensures key in INHERITED ==> colour == Inherited(key)
    ensures key !in COLOR_MAP && key !in INHERITED ==> colour == Css(fallback)
  {
    PaletteNamesAreOwn();
    if key in COLOR_MAP then Css(COLOR_MAP[key])
    else if key in INHERITED then Inherited(key)
    else Css(fallback)
  }

  /**
   * The colours for the current theme and the four props: each is a palette
   * value, the inherited member named by the key looked up, or, when that key
   * names neither, the raw `from`/`to` prop.
   */
  function Colours(theme: Theme, from: string, to: string, lightFrom: Option<string>, lightTo: Option<string>): (g: Gradient)
    ensures g.fromColor.Css? ==> g.fromColor.text in COLOR_MAP.Values || g.fromColor.text == from
    ensures g.toColor.Css? ==> g.toColor.text in COLOR_MAP.Values || g.toColor.text == to
    ensures g.fromColor.Inherited? ==> g.fromColor.member in INHERITED
    ensures g.toColor.Inherited? ==> g.toColor.member in INHERITED
  {
    var isDark := theme == Dark;
    var fromKey := if isDark then from else lightFrom.GetOr(from);
    var toKey := if isDark then to else lightTo.GetOr(to);
    assert fromKey in COLOR_MAP ==> COLOR_MAP[fromKey] in COLOR_MAP.Values;
    assert toKey in COLOR_MAP ==> COLOR_MAP[toKey] in COLOR_MAP.Values;
    Gradient(Lookup(fromKey, from), Lookup(toKey, to))
  }

  /** In the dark theme only `from` and `to` count. */
  lemma DarkIgnoresLightProps(from: string, to: string, lightFrom: Option<string>, lightTo: Option<string>)
    ensures Colours(Dark, from, to, lightFrom, lightTo) == Gradient(Lookup(from, from), Lookup(to, to))
  {
  }

  /** In the light theme the light names are looked up, `from` and `to` standing in for absent ones. */
  lemma LightUsesLightProps(from: string, to: string, lightFrom: Option<string>, lightTo: Option<string>)
    ensures Colours(Light, from, to, lightFrom, lightTo)
      == Gradient(Lookup(lightFrom.GetOr(from), from), Lookup(lightTo.GetOr(to), to))
    ensures Colours(Light, from, to, None, None) == Colours(Dark, from, to, lightFrom, lightTo)
    ensures Colours(Light, from, to, None, lightTo) == Colours(Light, from, to, Some(from), lightTo)
    ensures Colours(Light, from, to, lightFrom, None) == Colours(Light, from, to, lightFrom, Some(to))
  {
  }

  /**
   * An unknown light name is never used as a colour: the raw `from`/`to` prop
   * stands in, except for an inherited member's name, which the fallback does
   * not replace.
   */
  lemma UnknownNameFallsBackToProp(theme: Theme, from: string, to: string, lightFrom: Option<string>, lightTo: Option<string>)
    ensures theme == Light && lightFrom.Some? && lightFrom.value !in COLOR_MAP && lightFrom.value !in INHERITED ==>
      Colours(theme, from, to, lightFrom, lightTo).fromColor == Css(from)
    ensures theme == Light && lightTo.Some? && lightTo.value !in COLOR_MAP && lightTo.value !in INHERITED ==>
      Colours(theme, from, to, lightFrom, lightTo).toColor == Css(to)
    ensures theme == Light && lightFrom.Some? && lightFrom.value in INHERITED ==>
      Colours(theme, from, to, lightFrom, lightTo).fromColor == Inherited(lightFrom.value)
    ensures theme == Light && lightTo.Some? && lightTo.value in INHERITED ==>
      Colours(theme, from, to, lightFrom, lightTo).toColor == Inherited(lightTo.value)
  {
  }

  /** The six palette entries. */
  lemma PaletteValues()
    ensures COLOR_MAP.Keys == {"ink", "carbon", "slate", "snow", "white", "cloud"}
    ensures Lookup("ink", "") == Css("#0F1114") && Lookup("carbon", "") == Css("#181B20")
    ensures Lookup("slate", "") == Css("#22262D") && Lookup("snow", "") == Css("#F6F7F9")
    ensures Lookup("white", "") == Css("#FFFFFF") && Lookup("cloud", "") == Css("#ECEEF1")
    ensures Lookup("toString", "ink") == Inherited("toString")
  {
  }
}
