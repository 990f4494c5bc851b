/**
 * The indent-tracking writer the renderer writes into (PythonPoetWriter):
 * an append-only list of lines, each remembered with the indent depth it
 * was written at, and the current depth.
 */
module Poet {

  /** One output line: the indent depth it was written at and its text. */
  datatype Line = Line(indent: nat, text: string)

  /** What `writeLine()` appends: an empty line, whatever the depth. */
  const Blank: Line := Line(0, "")

  class PythonPoetWriter {
    var lines: seq<Line>
    var depth: nat
    /** Every depth the writer has moved to, in order (one entry per indent change). */
    ghost var depths: seq<nat>

    constructor ()
      ensures lines == [] && depth == 0 && depths == []
    {
      lines, depth, depths := [], 0, [];
    }

    /** Appends an empty line; the depth is ignored. */
    method WriteLine()
      modifies this
      ensures lines == old(lines) + [Blank]
      ensures depth == old(depth) && depths == old(depths)
    {
      lines := lines + [Blank];
    }

    /** Appends `text` at the current depth. */
    method WriteIndentedLine(text: string)
      modifies this
      ensures lines == old(lines) + [Line(old(depth), text)]
      ensures depth == old(depth) && depths == old(depths)
    {
      lines := lines + [Line(depth, text)];
    }

    method IncreaseIndent()
      modifies this
      ensures depth == old(depth) + 1
      ensures depths == old(depths) + [depth]
      ensures lines == old(lines)
    {
      depth := depth + 1;
      depths := depths + [depth];
    }

    /** Going below depth zero is a caller error, so it is excluded here. */
    method DecreaseIndent()
      requires depth > 0
      modifies this
      ensures depth == old(depth) - 1
      ensures depths == old(depths) + [depth]
      ensures lines == old(lines)
    {
      depth := depth - 1;
      depths := depths + [depth];
    }
  }
}
