/** As much of an openpyxl worksheet as the report builders use. */
module Worksheets {
  datatype Cell = Blank | Text(text: string) | Number(number: int) | Day(day: int)

  type Line = seq<Cell>

  class Worksheet {
    var lines: seq<Line>

    constructor ()
      ensures lines == []
    {
      lines := [];
    }

    method Append(line: Line)
      modifies this
      ensures lines == old(lines) + [line]
    {
      lines := lines + [line];
    }

    /** Set a cell of the last row; columns count from zero. */
    method SetInLastLine(column: nat, cell: Cell)
      requires lines != [] && column < |lines[|lines| - 1]|
      modifies this
      ensures lines == old(lines)[|old(lines)| - 1 := old(lines)[|old(lines)| - 1][column := cell]]
    {
      lines := lines[|lines| - 1 := lines[|lines| - 1][column := cell]];
    }
  }
}
