/** The optimiser's answer and what the results panel derives from it. The
    answer's three plans are objects keyed by board position; they are kept
    here as the ordered entry lists the view walks, each entry carrying the
    board position it refers to. Every board is looked up by that position in
    the board list. */
module ResultView {
  import opened Domain

  /** One `board_plan` entry: buy `quantity` boards of the board at `boardIdx`. */
  datatype Purchase = Purchase(boardIdx: nat, quantity: int)

  /** One `cut_plan` entry: the physical boards cut from the board at
      `boardIdx`, each given by the ordered lengths cut from it. */
  datatype Layout = Layout(boardIdx: nat, instances: seq<seq<real>>)

  /** One `waste_summary` entry: the leftover length reported for `boardIdx`. */
  datatype WasteEntry = WasteEntry(boardIdx: nat, waste: real)

  datatype Solution = Solution(
    boardPlan: seq<Purchase>,
    cutPlan: seq<Layout>,
    wasteSummary: seq<WasteEntry>,
    totalCost: real)

  /** Adding up a list from left to right starting from `acc`, the way the
      view's reductions do (src/App.jsx:302, 306, 335). */
  function FoldSum(acc: real, xs: seq<real>): real
    decreases |xs|
  {
    if xs == [] then acc else FoldSum(acc + xs[0], xs[1..])
  }

  /** The view's reduction of a list of numbers, starting from 0. */
  function Sum(xs: seq<real>): real
  {
    FoldSum(0.0, xs)
  }

  /** The sum of a list, defined independently of the fold. */
  function Total(xs: seq<real>): real
    decreases |xs|
  {
    if xs == [] then 0.0 else xs[0] + Total(xs[1..])
  }

  /** The fold from `acc` adds `acc` to the total of the list. */
  lemma {:induction false} FoldSumIsTotal(acc: real, xs: seq<real>)
    ensures FoldSum(acc, xs) == acc + Total(xs)
    decreases |xs|
  {
    if xs != [] {
      FoldSumIsTotal(acc + xs[0], xs[1..]);
    }
  }

  lemma {:induction false} TotalAppend(xs: seq<real>, ys: seq<real>)
    ensures Total(xs + ys) == Total(xs) + Total(ys)
    decreases |xs|
  {
    if xs != [] {
      TotalAppend(xs[1..], ys);
      assert (xs + ys)[1..] == xs[1..] + ys;
    } else {
      assert xs + ys == ys;
    }
  }

  /** The reduction the view performs is the sum of the list: 0 for an empty
      list, and summing a concatenation sums its parts. */
  lemma SumIsTotal(xs: seq<real>, ys: seq<real>)
    ensures Sum(xs) == Total(xs)
    ensures Sum([]) == 0.0
    ensures Sum(xs + ys) == Sum(xs) + Sum(ys)
  {
    FoldSumIsTotal(0.0, xs);
    FoldSumIsTotal(0.0, ys);
    FoldSumIsTotal(0.0, xs + ys);
    TotalAppend(xs, ys);
  }

  lemma {:induction false} TotalNonNegative(xs: seq<real>)
    requires forall i :: 0 <= i < |xs| ==> xs[i] >= 0.0
    ensures Total(xs) >= 0.0
    ensures forall i :: 0 <= i < |xs| ==> xs[i] <= Total(xs)
    decreases |xs|
  {
    if xs != [] {
      TotalNonNegative(xs[1..]);
      forall i | 1 <= i < |xs|
        ensures xs[i] <= Total(xs)
      {
        assert xs[i] == xs[1..][i - 1];
      }
    }
  }

  // ----- Shopping list -----

  /** One shopping-list line: which board to buy, how many, and what they cost. */
  datatype ShoppingLine = ShoppingLine(board: Board, quantity: int, cost: real)

  /** Every board position the plan names exists in the board list; the
      view fails when one does not. */
  predicate PurchasesIndexed(plan: seq<Purchase>, n: nat)
  {
    forall k :: 0 <= k < |plan| ==> plan[k].boardIdx < n
  }

  /** The shopping list: one line per `board_plan` entry, in order, costing
      the looked-up board's price times the purchased quantity. */
  function ShoppingList(boards: seq<Board>, plan: seq<Purchase>): (lines: seq<ShoppingLine>)
    requires PurchasesIndexed(plan, |boards|)
    ensures |lines| == |plan|
    ensures forall k :: 0 <= k < |plan| ==>
      lines[k].board == boards[plan[k].boardIdx] &&
      lines[k].quantity == plan[k].quantity &&
      lines[k].cost == boards[plan[k].boardIdx].price * plan[k].quantity as real
    decreases |plan|
  {
    if plan == [] then []
    else
      var board := boards[plan[0].boardIdx];
      [ShoppingLine(board, plan[0].quantity, board.price * plan[0].quantity as real)]
        + ShoppingList(boards, plan[1..])
  }

  // ----- Cutting instructions -----

  /** One physical board in the cutting instructions: the lengths cut from
      it, their displayed sum and the displayed waste. */
  datatype InstanceRow = InstanceRow(cuts: seq<real>, total: real, waste: real)

  /** One `cut_plan` entry as displayed: the looked-up board and its rows. */
  datatype BoardGroup = BoardGroup(board: Board, rows: seq<InstanceRow>)

  /** The row for one physical board: the displayed total is the sum of the
      lengths cut from it, and total plus waste is the board's length. */
  function InstanceRowOf(board: Board, cutsOnBoard: seq<real>): (row: InstanceRow)
    ensures row.cuts == cutsOnBoard
    ensures row.total == Total(cutsOnBoard)
    ensures row.total + row.waste == board.length
  {
    SumIsTotal(cutsOnBoard, []);
    var total := Sum(cutsOnBoard);
    InstanceRow(cutsOnBoard, total, board.length - total)
  }

  /** When the lengths cut from a board are non-negative the displayed waste
      is at most the board's length, and when they fit on the board it is
      non-negative. */
  lemma InstanceWasteBounds(board: Board, cutsOnBoard: seq<real>)
    requires forall i :: 0 <= i < |cutsOnBoard| ==> cutsOnBoard[i] >= 0.0
    ensures InstanceRowOf(board, cutsOnBoard).waste <= board.length
    ensures forall i :: 0 <= i < |cutsOnBoard| ==>
      InstanceRowOf(board, cutsOnBoard).waste <= board.length - cutsOnBoard[i]
    ensures Total(cutsOnBoard) <= board.length ==> InstanceRowOf(board, cutsOnBoard).waste >= 0.0
  {
    TotalNonNegative(cutsOnBoard);
  }

  /** The rows of one plan entry (src/App.jsx:301-310): one row per physical
      board, in order. */
  function InstanceRows(board: Board, boardsList: seq<seq<real>>): (rows: seq<InstanceRow>)
    ensures |rows| == |boardsList|
    ensures forall i :: 0 <= i < |boardsList| ==> rows[i] == InstanceRowOf(board, boardsList[i])
    decreases |boardsList|
  {
    if boardsList == [] then []
    else [InstanceRowOf(board, boardsList[0])] + InstanceRows(board, boardsList[1..])
  }

  /** The wastes of a list of rows, in order. */
  function Wastes(rows: seq<InstanceRow>): (ws: seq<real>)
    ensures |ws| == |rows|
    ensures forall i :: 0 <= i < |rows| ==> ws[i] == rows[i].waste
    decreases |rows|
  {
    if rows == [] then [] else [rows[0].waste] + Wastes(rows[1..])
  }

  /** The displayed totals of a list of rows, in order. */
  function Totals(rows: seq<InstanceRow>): (ts: seq<real>)
    ensures |ts| == |rows|
    ensures forall i :: 0 <= i < |rows| ==> ts[i] == rows[i].total
    decreases |rows|
  {
    if rows == [] then [] else [rows[0].total] + Totals(rows[1..])
  }

  /** Across the physical boards of one group, the displayed wastes and the
      displayed totals add up to the number of boards times the board's
      length: nothing is lost or counted twice. */
  lemma {:induction false} GroupBalance(board: Board, boardsList: seq<seq<real>>)
    ensures Total(Wastes(InstanceRows(board, boardsList))) + Total(Totals(InstanceRows(board, boardsList)))
            == |boardsList| as real * board.length
    decreases |boardsList|
  {
    if boardsList != [] {
      var rows := InstanceRows(board, boardsList);
      GroupBalance(board, boardsList[1..]);
      assert rows[1..] == InstanceRows(board, boardsList[1..]);
      assert Wastes(rows)[1..] == Wastes(rows[1..]);
      assert Totals(rows)[1..] == Totals(rows[1..]);
    }
  }

  predicate LayoutsIndexed(plan: seq<Layout>, n: nat)
  {
    forall k :: 0 <= k < |plan| ==> plan[k].boardIdx < n
  }

  /** The cutting instructions: one group per `cut_plan` entry, in order, for
      the looked-up board, holding one row per physical board. */
  function Instructions(boards: seq<Board>, plan: seq<Layout>): (groups: seq<BoardGroup>)
    requires LayoutsIndexed(plan, |boards|)
    ensures |groups| == |plan|
    ensures forall k :: 0 <= k < |plan| ==>
      groups[k].board == boards[plan[k].boardIdx] &&
      groups[k].rows == InstanceRows(boards[plan[k].boardIdx], plan[k].instances)
    ensures forall k :: 0 <= k < |plan| ==>
      |groups[k].rows| == |plan[k].instances| &&
      forall i :: 0 <= i < |plan[k].instances| ==>
        groups[k].rows[i].cuts == plan[k].instances[i] &&
        groups[k].rows[i].total == Total(plan[k].instances[i]) &&
        groups[k].rows[i].total + groups[k].rows[i].waste == boards[plan[k].boardIdx].length
    decreases |plan|
  {
    if plan == [] then []
    else
      var board := boards[plan[0].boardIdx];
      [BoardGroup(board, InstanceRows(board, plan[0].instances))] + Instructions(boards, plan[1..])
  }

  // ----- Waste summary -----

  /** One waste-summary line: the looked-up board and the reported waste. */
  datatype WasteRow = WasteRow(board: Board, waste: real)

  predicate WasteIndexed(summary: seq<WasteEntry>, n: nat)
  {
    forall k :: 0 <= k < |summary| ==> summary[k].boardIdx < n
  }

  /** One line per `waste_summary` entry, in order, showing the reported
      waste as it is (it is not recomputed from the instances). */
  function WasteRows(boards: seq<Board>, summary: seq<WasteEntry>): (rows: seq<WasteRow>)
    requires WasteIndexed(summary, |boards|)
    ensures |rows| == |summary|
    ensures forall k :: 0 <= k < |summary| ==>
      rows[k].board == boards[summary[k].boardIdx] && rows[k].waste == summary[k].waste
    decreases |summary|
  {
    if summary == [] then []
    else [WasteRow(boards[summary[0].boardIdx], summary[0].waste)] + WasteRows(boards, summary[1..])
  }

  /** The reported wastes of the summary, in entry order (src/App.jsx:335). */
  function WasteValues(summary: seq<WasteEntry>): (ws: seq<real>)
    ensures |ws| == |summary|
    ensures forall k :: 0 <= k < |summary| ==> ws[k] == summary[k].waste
    decreases |summary|
  {
    if summary == [] then [] else [summary[0].waste] + WasteValues(summary[1..])
  }

  /** The grand total waste: the sum of the reported wastes, 0 when the
      summary is empty. */
  function TotalWaste(summary: seq<WasteEntry>): (t: real)
    ensures t == Total(WasteValues(summary))
    ensures summary == [] ==> t == 0.0
  {
    SumIsTotal(WasteValues(summary), []);
    Sum(WasteValues(summary))
  }

  /** The grand total adds up over a split of the summary, and when every
      reported waste is non-negative it is non-negative and no smaller than
      any single entry. */
  lemma TotalWasteProperties(a: seq<WasteEntry>, b: seq<WasteEntry>)
    ensures TotalWaste(a + b) == TotalWaste(a) + TotalWaste(b)
    ensures (forall k :: 0 <= k < |a| ==> a[k].waste >= 0.0) ==>
      TotalWaste(a) >= 0.0 && forall k :: 0 <= k < |a| ==> a[k].waste <= TotalWaste(a)
  {
    assert WasteValues(a + b) == WasteValues(a) + WasteValues(b);
    TotalAppend(WasteValues(a), WasteValues(b));
    if forall k :: 0 <= k < |a| ==> a[k].waste >= 0.0 {
      TotalNonNegative(WasteValues(a));
    }
  }

  // ----- The whole panel -----

  /** Every board position the answer names exists in the board list. */
  predicate Renderable(s: Solution, n: nat)
  {
    PurchasesIndexed(s.boardPlan, n) && LayoutsIndexed(s.cutPlan, n) && WasteIndexed(s.wasteSummary, n)
  }

  datatype Panel = Panel(
    shopping: seq<ShoppingLine>,
    totalCost: real,
    instructions: seq<BoardGroup>,
    wasteRows: seq<WasteRow>,
    totalWaste: real)

  /** The results panel: the three derived lists, the total cost as the
      answer reports it (not recomputed from the lines) and the grand total
      waste. */
  function Render(s: Solution, boards: seq<Board>): (p: Panel)
    requires Renderable(s, |boards|)
    ensures p.totalCost == s.totalCost
    ensures |p.shopping| == |s.boardPlan| && |p.instructions| == |s.cutPlan| && |p.wasteRows| == |s.wasteSummary|
    ensures forall k :: 0 <= k < |s.boardPlan| ==>
      p.shopping[k].board == boards[s.boardPlan[k].boardIdx] &&
      p.shopping[k].quantity == s.boardPlan[k].quantity &&
      p.shopping[k].cost == boards[s.boardPlan[k].boardIdx].price * s.boardPlan[k].quantity as real
    ensures forall k :: 0 <= k < |s.cutPlan| ==>
      p.instructions[k].board == boards[s.cutPlan[k].boardIdx] &&
      |p.instructions[k].rows| == |s.cutPlan[k].instances| &&
      forall i :: 0 <= i < |s.cutPlan[k].instances| ==>
        p.instructions[k].rows[i].cuts == s.cutPlan[k].instances[i] &&
        p.instructions[k].rows[i].total == Total(s.cutPlan[k].instances[i]) &&
        p.instructions[k].rows[i].total + p.instructions[k].rows[i].waste == boards[s.cutPlan[k].boardIdx].length
    ensures forall k :: 0 <= k < |s.wasteSummary| ==>
      p.wasteRows[k].board == boards[s.wasteSummary[k].boardIdx] && p.wasteRows[k].waste == s.wasteSummary[k].waste
    ensures p.totalWaste == Total(WasteValues(s.wasteSummary))
  {
    Panel(
      ShoppingList(boards, s.boardPlan),
      s.totalCost,
      Instructions(boards, s.cutPlan),
      WasteRows(boards, s.wasteSummary),
      TotalWaste(s.wasteSummary))
  }
}
