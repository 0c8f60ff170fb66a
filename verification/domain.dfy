/** The problem a user edits: an ordered list of required cuts and an ordered
    list of purchasable boards, together with the tolerant numeric coercion
    applied to every edited field. */
module Domain {

  datatype Option<+T> = None | Some(value: T)

  /** A required piece: three dimensions in inches and how many are needed. */
  datatype Cut = Cut(width: real, height: real, length: real, quantity: int)

  /** A purchasable stock board: three dimensions in inches and a unit price. */
  datatype Board = Board(width: real, height: real, length: real, price: real)

  /** The cut list the component starts with. */
  const InitialCut := Cut(2.0, 4.0, 24.0, 3)
  /** The board list the component starts with. */
  const InitialBoard := Board(2.0, 4.0, 96.0, 8.0)
  /** The record "Add Cut" appends. */
  const NewCut := Cut(2.0, 4.0, 12.0, 1)
  /** The record "Add Board" appends. */
  const NewBoard := Board(2.0, 4.0, 96.0, 8.0)

  /** The field names an edit of a cut may name. */
  datatype CutField = Width | Height | Length | Quantity

  /** The field names an edit of a board may name. */
  datatype BoardField = Width | Height | Length | Price

  /** What the two number parsers make of the text typed into a field:
      `asInt` is the integer parse, `asDecimal` the decimal parse, and
      `None` stands for a parse that failed (NaN). */
  datatype Parsed = Parsed(asInt: Option<int>, asDecimal: Option<real>)

  /** The integer parse of an edited value, with a failed parse read as 0
      (src/App.jsx:25). */
  function IntOrZero(p: Option<int>): int
  {
    match p
    case Some(n) => n
    case None => 0
  }

  /** The decimal parse of an edited value, with a failed parse read as 0
      (src/App.jsx:25, 39). */
  function DecimalOrZero(p: Option<real>): real
  {
    match p
    case Some(x) => x
    case None => 0.0
  }

  /** The value of one field of a cut, the quantity read as a number. */
  function CutValue(c: Cut, f: CutField): real
  {
    match f
    case Width => c.width
    case Height => c.height
    case Length => c.length
    case Quantity => c.quantity as real
  }

  function BoardValue(b: Board, f: BoardField): real
  {
    match f
    case Width => b.width
    case Height => b.height
    case Length => b.length
    case Price => b.price
  }

  /** The number an edit stores in field `f` of a cut: the integer parse for
      the quantity, the decimal parse for every other field, and 0 when the
      parse fails. */
  function CoercedCutValue(f: CutField, v: Parsed): (x: real)
    ensures f == CutField.Quantity && v.asInt.Some? ==> x == v.asInt.value as real
    ensures f == CutField.Quantity && v.asInt.None? ==> x == 0.0
    ensures f != CutField.Quantity && v.asDecimal.Some? ==> x == v.asDecimal.value
    ensures f != CutField.Quantity && v.asDecimal.None? ==> x == 0.0
  {
    if f == CutField.Quantity then IntOrZero(v.asInt) as real else DecimalOrZero(v.asDecimal)
  }

  /** The number an edit stores in any field of a board: the decimal parse,
      or 0 when it fails. */
  function CoercedBoardValue(v: Parsed): (x: real)
    ensures v.asDecimal.Some? ==> x == v.asDecimal.value
    ensures v.asDecimal.None? ==> x == 0.0
  {
    DecimalOrZero(v.asDecimal)
  }

  /** Assigning an edited field of a cut (src/App.jsx:25): field `f` takes
      the coerced value and every other field keeps its value. */
  function SetCutField(c: Cut, f: CutField, v: Parsed): (r: Cut)
    ensures CutValue(r, f) == CoercedCutValue(f, v)
    ensures forall g: CutField :: g != f ==> CutValue(r, g) == CutValue(c, g)
    ensures f == CutField.Quantity ==> r.quantity == IntOrZero(v.asInt)
  {
    match f
    case Width => c.(width := DecimalOrZero(v.asDecimal))
    case Height => c.(height := DecimalOrZero(v.asDecimal))
    case Length => c.(length := DecimalOrZero(v.asDecimal))
    case Quantity => c.(quantity := IntOrZero(v.asInt))
  }

  /** Assigning an edited field of a board (src/App.jsx:39): field `f` takes
      the coerced value and every other field keeps its value. */
  function SetBoardField(b: Board, f: BoardField, v: Parsed): (r: Board)
    ensures BoardValue(r, f) == CoercedBoardValue(v)
    ensures forall g: BoardField :: g != f ==> BoardValue(r, g) == BoardValue(b, g)
  {
    match f
    case Width => b.(width := DecimalOrZero(v.asDecimal))
    case Height => b.(height := DecimalOrZero(v.asDecimal))
    case Length => b.(length := DecimalOrZero(v.asDecimal))
    case Price => b.(price := DecimalOrZero(v.asDecimal))
  }

  /** Copy the cut list and overwrite field `f` of the cut at `index`. The
      index must name an existing cut: on any other index the source fails
      before the list is replaced. */
  function UpdateCutAt(cuts: seq<Cut>, index: int, f: CutField, v: Parsed): (r: seq<Cut>)
    requires 0 <= index < |cuts|
    ensures |r| == |cuts|
    ensures forall j :: 0 <= j < |cuts| && j != index ==> r[j] == cuts[j]
    ensures CutValue(r[index], f) == CoercedCutValue(f, v)
    ensures forall g: CutField :: g != f ==> CutValue(r[index], g) == CutValue(cuts[index], g)
  {
    cuts[index := SetCutField(cuts[index], f, v)]
  }

  /** Copy the board list and overwrite field `f` of the board at `index`. */
  function UpdateBoardAt(boards: seq<Board>, index: int, f: BoardField, v: Parsed): (r: seq<Board>)
    requires 0 <= index < |boards|
    ensures |r| == |boards|
    ensures forall j :: 0 <= j < |boards| && j != index ==> r[j] == boards[j]
    ensures BoardValue(r[index], f) == CoercedBoardValue(v)
    ensures forall g: BoardField :: g != f ==> BoardValue(r[index], g) == BoardValue(boards[index], g)
  {
    boards[index := SetBoardField(boards[index], f, v)]
  }

  /** Removal by position as the handlers do it (src/App.jsx:20, 34): a
      filter that keeps, in order, every element whose position differs from
      `index`. Written from the last position down so
      that each element is judged by its own position. */
  function DropIndex<T>(s: seq<T>, index: int): seq<T>
    decreases |s|
  {
    if s == [] then []
    else
      var last := |s| - 1;
      DropIndex(s[..last], index) + (if last == index then [] else [s[last]])
  }

  /** An index that names no element removes nothing. */
  lemma {:induction false} DropIndexOutOfRange<T>(s: seq<T>, index: int)
    requires index < 0 || |s| <= index
    ensures DropIndex(s, index) == s
    decreases |s|
  {
    if s != [] {
      var last := |s| - 1;
      DropIndexOutOfRange(s[..last], index);
      assert s[..last] + [s[last]] == s;
    }
  }

  /** An index that names an element removes exactly that element. */
  lemma {:induction false} DropIndexInRange<T>(s: seq<T>, index: int)
    requires 0 <= index < |s|
    ensures DropIndex(s, index) == s[..index] + s[index + 1..]
    decreases |s|
  {
    var last := |s| - 1;
    if last == index {
      DropIndexOutOfRange(s[..last], index);
      assert s[index + 1..] == [];
      assert s[..last] == s[..index];
    } else {
      DropIndexInRange(s[..last], index);
      assert s[..last][..index] == s[..index];
      assert s[..last][index + 1..] + [s[last]] == s[index + 1..];
    }
  }

  /** Removal by position, element by element: the list shrinks by one, the
      elements before `index` stay where they were and the elements after it
      move down one place in their original order. */
  lemma DropIndexShifts<T>(s: seq<T>, index: int)
    requires 0 <= index < |s|
    ensures |DropIndex(s, index)| == |s| - 1
    ensures forall j :: 0 <= j < index ==> DropIndex(s, index)[j] == s[j]
    ensures forall j :: index <= j < |s| - 1 ==> DropIndex(s, index)[j] == s[j + 1]
  {
    DropIndexInRange(s, index);
  }

  /** The submit button is enabled when no request is outstanding and both
      lists are non-empty (src/App.jsx:239). */
  predicate SubmitEnabled(loading: bool, cuts: seq<Cut>, boards: seq<Board>)
  {
    !loading && |cuts| != 0 && |boards| != 0
  }

  /** Removing a cut in range keeps submission enabled exactly when another
      cut remains and nothing else disables it; removing the only cut
      disables it. */
  lemma SubmitAfterRemovingCut(loading: bool, cuts: seq<Cut>, boards: seq<Board>, index: int)
    requires 0 <= index < |cuts|
    ensures SubmitEnabled(loading, DropIndex(cuts, index), boards) <==>
            !loading && |cuts| > 1 && boards != []
  {
    DropIndexShifts(cuts, index);
  }

  /** Removing a board in range keeps submission enabled exactly when another
      board remains and nothing else disables it. */
  lemma SubmitAfterRemovingBoard(loading: bool, cuts: seq<Cut>, boards: seq<Board>, index: int)
    requires 0 <= index < |boards|
    ensures SubmitEnabled(loading, cuts, DropIndex(boards, index)) <==>
            !loading && cuts != [] && |boards| > 1
  {
    DropIndexShifts(boards, index);
  }
}
