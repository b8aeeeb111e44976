/**
 * The fixed colour table of the playout firmware: eight colour names, each
 * drawn on the strip as one RGB triple. Any other name is not drawn.
 */
module Colours {

  /** One 8-bit channel value, as the strip's setPixelColor takes it. */
  newtype Byte = x: int | 0 <= x < 256

  /** Three channel values in the order they are passed to the strip. */
  datatype Rgb = Rgb(r: Byte, g: Byte, b: Byte)

  /** The colour of a cleared pixel. */
  const Black: Rgb := Rgb(0, 0, 0)

  datatype Option<T> = None | Some(value: T)

  /** The table as a mapping from name to triple: the reference the lookup is checked against. */
  const Palette: map<string, Rgb> := map[
    "WHITE"  := Rgb(255, 255, 255),
    "GREEN"  := Rgb(186, 128, 36),
    "COLOR1" := Rgb(107, 24, 162),
    "COLOR2" := Rgb(17, 192, 17),
    "COLOR3" := Rgb(178, 223, 52),
    "COLOR4" := Rgb(49, 216, 127),
    "COLOR5" := Rgb(102, 230, 47),
    "COLOR6" := Rgb(184, 0, 172)
  ]

  /**
   * The firmware's chain of name comparisons: the first name that matches
   * gives the triple, and a name that matches none gives nothing.
   */
  function Lookup(name: string): (c: Option<Rgb>)
    ensures c.Some? <==> name in Palette
    ensures c.Some? ==> c.value == Palette[name] && c.value != Black
  {
    if name == "WHITE" then Some(Rgb(255, 255, 255))
    else if name == "GREEN" then Some(Rgb(186, 128, 36))
    else if name == "COLOR1" then Some(Rgb(107, 24, 162))
    else if name == "COLOR2" then Some(Rgb(17, 192, 17))
    else if name == "COLOR3" then Some(Rgb(178, 223, 52))
    else if name == "COLOR4" then Some(Rgb(49, 216, 127))
    else if name == "COLOR5" then Some(Rgb(102, 230, 47))
    else if name == "COLOR6" then Some(Rgb(184, 0, 172))
    else None
  }

  /** The triple a pixel shows after a render when its entry has this name. */
  function PixelFor(name: string): (c: Rgb)
    ensures c == Black <==> name !in Palette
    ensures name in Palette ==> c == Palette[name]
  {
    match Lookup(name)
    case Some(c) => c
    case None => Black
  }

  /** Each of the eight names gives its fixed triple. */
  lemma RecognisedTriples()
    ensures Lookup("WHITE") == Some(Rgb(255, 255, 255))
    ensures Lookup("GREEN") == Some(Rgb(186, 128, 36))
    ensures Lookup("COLOR1") == Some(Rgb(107, 24, 162))
    ensures Lookup("COLOR2") == Some(Rgb(17, 192, 17))
    ensures Lookup("COLOR3") == Some(Rgb(178, 223, 52))
    ensures Lookup("COLOR4") == Some(Rgb(49, 216, 127))
    ensures Lookup("COLOR5") == Some(Rgb(102, 230, 47))
    ensures Lookup("COLOR6") == Some(Rgb(184, 0, 172))
  {
  }
}
