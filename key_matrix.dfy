/** The keywell modifier resolver (`MatrixModifier` in
    internal/generator/template_data.go): one offset and rotation per
    (column, row) cell, composed from the finger layer, an optional
    per-column override and an optional per-row override. */
module KeyMatrix {
  import opened Config
  import opened Vectors

  const Regular: string := "regular"

  datatype KeyModifier = KeyModifier(offset: Offset, rotation: Rotation, keyType: string)

  /** Go's zero value of `keyModifier`, which `make` puts in every cell
      before the loop overwrites it. */
  const ZeroKeyModifier: KeyModifier := KeyModifier(ZeroOffset, ZeroRotation, "")

  /** The finger slot a column uses. Columns up to the start column get 0;
      a later column gets `start - col`, which is negative, so the cap at 3
      never applies. */
  function FingerIndex(col: int, indexFingerStartColumn: int): (idx: int)
    ensures col <= indexFingerStartColumn ==> idx == 0
    ensures col > indexFingerStartColumn ==> idx == indexFingerStartColumn - col < 0
  {
    var idx := if col >= indexFingerStartColumn then indexFingerStartColumn - col else 0;
    if idx > 3 then 3 else idx
  }

  /** The `switch` on the finger slot; no case matches an index outside
      0..3, leaving the zero modifier. */
  function SelectFinger(fingers: FingerModifiers, idx: int): (finger: FingerModifier)
    ensures idx == 0 ==> finger == fingers.index
    ensures idx == 1 ==> finger == fingers.middle
    ensures idx == 2 ==> finger == fingers.ring
    ensures idx == 3 ==> finger == fingers.pinky
    ensures !(0 <= idx <= 3) ==> finger == ZeroFinger
  {
    match idx
    case 0 => fingers.index
    case 1 => fingers.middle
    case 2 => fingers.ring
    case 3 => fingers.pinky
    case _ => ZeroFinger
  }

  /** The shared value of one column: the finger layer, then the column
      override if there is one (its tilt acts on rotation X). */
  function ColumnBase(modifiers: KeywellModifiers, col: int, indexFingerStartColumn: int): (base: KeyModifier)
    ensures
      var finger := SelectFinger(modifiers.finger, FingerIndex(col, indexFingerStartColumn));
      var c := ColumnOffset(modifiers, col);
      && base.keyType == "regular"
      && base.offset == Off(finger.offset.x + c.x, finger.offset.y + c.y, finger.offset.z + c.z)
      && base.rotation == Rot(finger.tilt + ColumnTilt(modifiers, col), 0.0, 0.0)
  {
    var finger := SelectFinger(modifiers.finger, FingerIndex(col, indexFingerStartColumn));
    var seed := KeyModifier(finger.offset, Rot(finger.tilt, 0.0, 0.0), Regular);
    if col in modifiers.columns then
      var c := modifiers.columns[col];
      seed.(offset := AddVectors(seed.offset, c.offset),
            rotation := AddVectors(seed.rotation, Rot(c.tilt, 0.0, 0.0)))
    else
      seed
  }

  /** The resolved cell: the column base, then the row override if there is
      one (its tilt acts on rotation Y). */
  function ResolveKey(modifiers: KeywellModifiers, col: int, row: int, indexFingerStartColumn: int): (key: KeyModifier)
    ensures key.keyType == ColumnBase(modifiers, col, indexFingerStartColumn).keyType
    ensures key.rotation.x == ColumnBase(modifiers, col, indexFingerStartColumn).rotation.x
    ensures key.rotation.y == ColumnBase(modifiers, col, indexFingerStartColumn).rotation.y + RowTilt(modifiers, row)
    ensures key.rotation.z == ColumnBase(modifiers, col, indexFingerStartColumn).rotation.z
  {
    var base := ColumnBase(modifiers, col, indexFingerStartColumn);
    if row in modifiers.rows then
      var r := modifiers.rows[row];
      base.(offset := AddVectors(base.offset, r.offset),
            rotation := AddVectors(base.rotation, Rot(0.0, r.tilt, 0.0)))
    else
      base
  }

  /** The matrix has `numCols` columns of `numRows` cells each, and every
      cell is the resolved modifier of its position. */
  predicate IsResolvedMatrix(matrix: seq<seq<KeyModifier>>, modifiers: KeywellModifiers,
                             numRows: nat, numCols: nat, indexFingerStartColumn: int)
  {
    && |matrix| == numCols
    && (forall col :: 0 <= col < numCols ==> |matrix[col]| == numRows)
    && (forall col, row :: 0 <= col < numCols && 0 <= row < numRows ==>
          matrix[col][row] == ResolveKey(modifiers, col, row, indexFingerStartColumn))
  }

  /** Allocates the matrix and fills every cell, column by column, computing
      each column's base once and reusing it for all of the column's rows. */
  method MatrixModifier(modifiers: KeywellModifiers, numRows: nat, numCols: nat, indexFingerStartColumn: int)
    returns (matrix: seq<seq<KeyModifier>>)
    ensures IsResolvedMatrix(matrix, modifiers, numRows, numCols, indexFingerStartColumn)
  {
    matrix := seq(numCols, _ => []);
    for col := 0 to numCols
      invariant |matrix| == numCols
      invariant forall c :: 0 <= c < col ==> |matrix[c]| == numRows
      invariant forall c, row :: 0 <= c < col && 0 <= row < numRows ==>
                  matrix[c][row] == ResolveKey(modifiers, c, row, indexFingerStartColumn)
    {
      var column: seq<KeyModifier> := seq(numRows, _ => ZeroKeyModifier);

      var currFingerIdx := 0;
      if col >= indexFingerStartColumn {
        currFingerIdx := indexFingerStartColumn - col;
      }
      if currFingerIdx > 3 {
        currFingerIdx := 3;
      }
      var fingerModifier := ZeroFinger;
      match currFingerIdx {
        case 0 => fingerModifier := modifiers.finger.index;
        case 1 => fingerModifier := modifiers.finger.middle;
        case 2 => fingerModifier := modifiers.finger.ring;
        case 3 => fingerModifier := modifiers.finger.pinky;
        case _ =>
      }

      var colModifier := KeyModifier(fingerModifier.offset, Rot(fingerModifier.tilt, 0.0, 0.0), Regular);
      if col in modifiers.columns {
        var currColumnModifier := modifiers.columns[col];
        colModifier := colModifier.(offset := AddVectors(colModifier.offset, currColumnModifier.offset));
        colModifier := colModifier.(rotation := AddVectors(colModifier.rotation, Rot(currColumnModifier.tilt, 0.0, 0.0)));
      }
      assert colModifier == ColumnBase(modifiers, col, indexFingerStartColumn);

      for row := 0 to numRows
        invariant |column| == numRows
        invariant forall r :: 0 <= r < row ==> column[r] == ResolveKey(modifiers, col, r, indexFingerStartColumn)
      {
        var keyModifier := KeyModifier(colModifier.offset, colModifier.rotation, colModifier.keyType);
        if row in modifiers.rows {
          var currRowModifier := modifiers.rows[row];
          keyModifier := keyModifier.(offset := AddVectors(keyModifier.offset, currRowModifier.offset));
          keyModifier := keyModifier.(rotation := AddVectors(keyModifier.rotation, Rot(0.0, currRowModifier.tilt, 0.0)));
        }
        column := column[row := keyModifier];
      }
      matrix := matrix[col := column];
    }
  }

  /** Which finger layer a column reads: the index finger up to and
      including the start column, and nothing (the zero modifier) after it.
      The middle, ring and pinky layers are never read. */
  lemma ColumnFinger(fingers: FingerModifiers, col: int, indexFingerStartColumn: int)
    ensures SelectFinger(fingers, FingerIndex(col, indexFingerStartColumn)) ==
              if col <= indexFingerStartColumn then fingers.index else ZeroFinger
  {
  }

  /** An absent override contributes nothing. */
  function ColumnOffset(modifiers: KeywellModifiers, col: int): Offset {
    if col in modifiers.columns then modifiers.columns[col].offset else ZeroOffset
  }

  function ColumnTilt(modifiers: KeywellModifiers, col: int): real {
    if col in modifiers.columns then modifiers.columns[col].tilt else 0.0
  }

  function RowOffset(modifiers: KeywellModifiers, row: int): Offset {
    if row in modifiers.rows then modifiers.rows[row].offset else ZeroOffset
  }

  function RowTilt(modifiers: KeywellModifiers, row: int): real {
    if row in modifiers.rows then modifiers.rows[row].tilt else 0.0
  }

  /** The closed form of a resolved cell: every cell is "regular", its offset
      is the sum of the finger, column and row offsets, its rotation X is
      finger tilt plus column tilt, its rotation Y is the row tilt and its
      rotation Z is zero. */
  lemma ResolveKeyClosedForm(modifiers: KeywellModifiers, col: int, row: int, indexFingerStartColumn: int)
    ensures
      var finger := SelectFinger(modifiers.finger, FingerIndex(col, indexFingerStartColumn));
      var c, r := ColumnOffset(modifiers, col), RowOffset(modifiers, row);
      ResolveKey(modifiers, col, row, indexFingerStartColumn) ==
        KeyModifier(
          Off(finger.offset.x + c.x + r.x, finger.offset.y + c.y + r.y, finger.offset.z + c.z + r.z),
          Rot(finger.tilt + ColumnTilt(modifiers, col), RowTilt(modifiers, row), 0.0),
          "regular")
  {
  }

  /** Within a column, every row without a row override gets the same
      value: the column base. */
  lemma RowsWithoutOverrideShareColumnBase(modifiers: KeywellModifiers, col: int, row1: int, row2: int, indexFingerStartColumn: int)
    requires row1 !in modifiers.rows && row2 !in modifiers.rows
    ensures ResolveKey(modifiers, col, row1, indexFingerStartColumn) == ColumnBase(modifiers, col, indexFingerStartColumn)
    ensures ResolveKey(modifiers, col, row1, indexFingerStartColumn) == ResolveKey(modifiers, col, row2, indexFingerStartColumn)
  {
  }
}
