/** The drawing boundary the display controller renders onto: a two-colour
    draw surface with text drawing and an explicit flush. Pixels are not
    modelled; the surface records the commands it receives, in order. */
module Graphics {

  /** The panel's two-colour pixel model. */
  datatype BinaryColor = On | Off

  datatype Point = Point(x: int, y: int)

  /** Horizontal alignment of a text relative to its anchor point. */
  datatype Alignment = Left | Center | Right

  /** The two monospace ASCII fonts in use, named by their glyph cell size. */
  datatype MonoFont = Font6x10 | Font10x20

  /** A character style: a font and the colour of the glyphs. */
  datatype MonoTextStyle = MonoTextStyle(font: MonoFont, textColor: BinaryColor)

  /** A text drawable: the string, its anchor, its style and its alignment. */
  datatype Text = Text(text: string, position: Point, style: MonoTextStyle, alignment: Alignment)

  /** One command received by the draw target. */
  datatype Cmd = Clear(color: BinaryColor) | DrawText(t: Text) | Flush

  /** A display: a draw target with an explicit flush. Each operation appends
      the command it performs to `log`; nothing else about the panel is kept. */
  class Target {
    var log: seq<Cmd>

    constructor ()
      ensures log == []
    {
      log := [];
    }

    /** Fill the whole surface with one colour. */
    method Clear(color: BinaryColor)
      modifies this
      ensures log == old(log) + [Cmd.Clear(color)]
    {
      log := log + [Cmd.Clear(color)];
    }

    /** Draw one text onto the in-memory frame. */
    method Draw(t: Text)
      modifies this
      ensures log == old(log) + [Cmd.DrawText(t)]
    {
      log := log + [Cmd.DrawText(t)];
    }

    /** Push the in-memory frame to the physical panel. */
    method Flush()
      modifies this
      ensures log == old(log) + [Cmd.Flush]
    {
      log := log + [Cmd.Flush];
    }
  }
}
