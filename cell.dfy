/**
 * A cell of the hexagonal grid as the views see it: its identifier and the
 * colour that the grid's colour code for it stands for.
 */
module Cells {

  /** The three colours a cell is drawn in. */
  datatype Color = Gray | Red | Blue

  datatype Cell = Cell(id: int, color: Color)

  /** Colour code of an empty cell, the default when none is given. */
  const EmptyCode := 0

  /**
   * Builds a cell from an identifier and a colour code: 0 is gray, 1 red,
   * 2 blue, and every other code falls back to gray, so the mapping is total.
   */
  function NewCell(id: int, colorCode: int := EmptyCode): (cell: Cell)
    ensures cell.id == id
    ensures cell.color == Red <==> colorCode == 1
    ensures cell.color == Blue <==> colorCode == 2
    ensures cell.color == Gray <==> colorCode != 1 && colorCode != 2
  {
    var color :=
      match colorCode
      case 0 => Gray
      case 1 => Red
      case 2 => Blue
      case _ => Gray;
    Cell(id, color)
  }

  /** The code the grid stores for a cell drawn in `color`. */
  function CodeOf(color: Color): (code: int)
    ensures 0 <= code <= 2
  {
    match color
    case Gray => 0
    case Red => 1
    case Blue => 2
  }

  /** Decoding the code of a colour gives that colour back, whatever the id. */
  lemma DecodeEncode(id: int, color: Color)
    ensures NewCell(id, CodeOf(color)) == Cell(id, color)
  {
  }

  /** Each of the three codes in use is the code of the colour it decodes to. */
  lemma EncodeDecode(id: int, colorCode: int)
    requires 0 <= colorCode <= 2
    ensures CodeOf(NewCell(id, colorCode).color) == colorCode
  {
  }

  /** A cell built without a colour code is gray. */
  lemma DefaultCellIsGray(id: int)
    ensures NewCell(id) == Cell(id, Gray)
  {
  }
}
