# LumberLogic front end — a Dafny model

LumberLogic lets a user describe a cutting-stock problem: a list of required
cuts (width, height, length, quantity) and a list of purchasable boards
(width, height, length, price). It sends the problem to an external
optimiser and shows the answer: a shopping list, cutting instructions per
physical board, and a waste summary. The whole front end is one React
component, `src/App.jsx`. This project models the logic inside it:

- `domain.dfy` (module `Domain`). The cut and board records and the record
  each "Add" button appends. The tolerant coercion of edited fields: the
  integer parse for a cut's quantity, the decimal parse for every other
  field, and 0 when the parse fails. Removal by position, written as the
  source's `filter` on the index. The one-field update of one record. The
  condition that enables the "Optimize Cuts" button.
- `result_view.dfy` (module `ResultView`). The optimiser's answer. Its
  three plans are objects keyed by board position, kept here as ordered
  entry lists. The module also holds what the results panel derives from
  the answer: `reduce((a, b) => a + b, 0)` as a left fold, the shopping
  list with line costs, the per-board rows with total and waste, the waste
  summary and its grand total.
- `app.dfy` (module `App`). The component's five pieces of state as the
  fields of class `LumberLogic`, and the event handlers as methods that
  change them in place. The optimise handler is split at its `await` into
  `BeginOptimize` and `FinishOptimize`, so that edits can fall between the
  two halves; `Optimize` runs both halves back to back. The network outcome
  is an input value.

The class invariant `Valid()` says two things. The answer and the error
message are never both present. While a request is outstanding, neither is
present. Every handler preserves it.

The results panel looks each board up by position in the *current* board
list, not in the list that was submitted. `App.RemoveBoardCanStrandAnswer`
shows a case: after an answer arrives, removing a board leaves a plan entry
that names a position which no longer exists. The panel then cannot be
rendered (in the source, reading a field of `undefined` fails).

Three further behaviours of the code that the model keeps:
- a request that never reaches the service shows the raised error's own
  message (src/App.jsx:64-65);
- a negative number typed into a field is stored as typed (src/App.jsx:25, 39);
- the displayed waste and total cost are shown as computed or reported,
  with no check that the waste is non-negative or that the total cost is the
  sum of the line costs (src/App.jsx:282, 302).

## Model

| member | source | states |
|---|---|---|
| `Domain.CoercedCutValue` | src/App.jsx:25 | A cut's quantity stores the integer parse of the text and every other cut field stores the decimal parse; a successful parse, negative included, is stored as-is, and a failed parse stores 0 |
| `Domain.CoercedBoardValue` | src/App.jsx:39 | Every board field stores the decimal parse of the text as-is, or 0 when the parse fails |
| `Domain.SetCutField` | src/App.jsx:25 | Editing field f of a cut sets f to the coerced value and leaves the other three fields unchanged |
| `Domain.SetBoardField` | src/App.jsx:39 | Editing field f of a board sets f to the coerced value and leaves the other three fields unchanged |
| `Domain.UpdateCutAt` | src/App.jsx:23-27 | Updating cut i keeps the list length and every other cut; only field f of cut i changes, to the coerced value |
| `Domain.UpdateBoardAt` | src/App.jsx:37-41 | Updating board i keeps the list length and every other board; only field f of board i changes, to the coerced value |
| `Domain.DropIndexInRange` | src/App.jsx:19-21 | `DropIndex`, the position filter of the remove handlers, applied to an in-range position i leaves exactly the elements before i followed by the elements after i |
| `Domain.DropIndexOutOfRange` | src/App.jsx:33-35 | `DropIndex` applied to a position that names no element leaves the list unchanged |
| `Domain.DropIndexShifts` | src/App.jsx:19-21 | Removing position i shortens the list by one, keeps every element before i in place and moves every element after i down by one, in order |
| `Domain.SubmitAfterRemovingCut` | src/App.jsx:239 | `SubmitEnabled` models the submit button's condition; after removing an in-range cut, submission is enabled exactly when no request is outstanding, another cut remains and the board list is non-empty |
| `Domain.SubmitAfterRemovingBoard` | src/App.jsx:239 | `SubmitEnabled` after removing an in-range board: submission is enabled exactly when no request is outstanding, the cut list is non-empty and another board remains |
| `ResultView.FoldSumIsTotal` | src/App.jsx:302 | `FoldSum`, the view's left-to-right reduction, started from an accumulator equals the accumulator plus the list's sum, defined independently |
| `ResultView.SumIsTotal` | src/App.jsx:306 | `Sum`, the view's reduction started from 0, is the sum of the list: 0 for the empty list, and additive over concatenation |
| `ResultView.ShoppingList` | src/App.jsx:266-275 | One line per board-plan entry, in order, for the board at that entry's position, costing that board's price times the quantity bought |
| `ResultView.InstanceRowOf` | src/App.jsx:301-307 | For one physical board, the displayed total is the sum of its cut lengths and total plus waste equals the board's length |
| `ResultView.InstanceWasteBounds` | src/App.jsx:302 | With non-negative cut lengths the waste is at most the board's length, and at most the length minus any single cut; it is non-negative when the cuts fit on the board |
| `ResultView.InstanceRows` | src/App.jsx:301-310 | One row per physical board of a plan entry, in order, each the row for that board's cuts |
| `ResultView.GroupBalance` | src/App.jsx:301-310 | Over all physical boards of one plan entry, the displayed wastes plus the displayed totals equal the number of boards times the board's length |
| `ResultView.Instructions` | src/App.jsx:293-314 | One group per cut-plan entry, in order, for the board at that position, whose rows are the rows of that entry's physical boards: each row's total is the sum of that board's cut lengths, and total plus waste is the board's length |
| `ResultView.WasteRows` | src/App.jsx:324-332 | One line per waste-summary entry, in order, for the board at that position, showing the reported waste unchanged |
| `ResultView.TotalWaste` | src/App.jsx:335 | The grand total waste is the sum of the reported wastes, and 0 for an empty summary |
| `ResultView.TotalWasteProperties` | src/App.jsx:335 | The grand total is additive over a split of the summary; with non-negative entries it is non-negative and at least every single entry |
| `ResultView.Render` | src/App.jsx:256-340 | The panel shows the reported total cost as-is, one shopping line per purchase costing price times quantity, one group per cut-plan entry for the looked-up board with rows whose totals are the sums of the cut lengths and whose total plus waste is the board's length, one waste line per summary entry showing the reported waste, and the grand total waste |
| `App.FailureMessage` | src/App.jsx:57-65 | A rejected response yields its own error text when non-empty and "Optimization failed" otherwise, so never an empty message; a raised error yields its own message |
| `App.LumberLogic.constructor` | src/App.jsx:5-13 | Starts with one cut {2,4,24,3}, one board {2,4,96,8}, no answer, idle and no error; submission is enabled |
| `App.LumberLogic.AddCut` | src/App.jsx:15-17 | Appends exactly the cut {2,4,12,1} after the existing cuts; nothing else changes |
| `App.LumberLogic.RemoveCut` | src/App.jsx:19-21 | Drops the cut at i when i is in range, keeping the others in order, and leaves the list unchanged otherwise; removing the only cut disables submission |
| `App.LumberLogic.UpdateCut` | src/App.jsx:23-27 | With i in range, only field f of cut i changes, to the coerced value; any other i raises and leaves the list unchanged |
| `App.LumberLogic.AddBoard` | src/App.jsx:29-31 | Appends exactly the board {2,4,96,8} after the existing boards; nothing else changes |
| `App.LumberLogic.RemoveBoard` | src/App.jsx:33-35 | Drops the board at i when i is in range, keeping the others in order, and leaves the list unchanged otherwise; removing the only board disables submission |
| `App.LumberLogic.UpdateBoard` | src/App.jsx:37-41 | With i in range, only field f of board i changes, to the coerced value; any other i raises and leaves the list unchanged |
| `App.LumberLogic.BeginOptimize` | src/App.jsx:44-46 | Marks the request outstanding and clears the error and the answer; submission is disabled |
| `App.LumberLogic.FinishOptimize` | src/App.jsx:57-68 | A success stores the answer and leaves no error; a failure stores the failure message and leaves no answer; the request always ends not outstanding |
| `App.LumberLogic.Optimize` | src/App.jsx:43-69 | The whole handler: loading ends false, exactly one of answer and error is present as the outcome dictates, and submission is enabled again when both lists are non-empty |
| `App.RemoveBoardCanStrandAnswer` | src/App.jsx:266-267 | Removing a board after an answer arrives can leave a plan entry naming a board position that no longer exists, so the panel cannot be rendered |

## Left out

- The request itself: the `fetch` call, the service URL and the JSON encoding of the request and the response (src/App.jsx:49-57). These are network I/O. The model takes the outcome as an input: a success with an answer, a rejection with optional error text, or a raised error with its message.
- The text parsers. What `parseInt` and `parseFloat` make of the typed text is an input (`Parsed`), with a failed parse as `None`. Numbers are exact reals and integers, so NaN, infinities, negative zero and rounding are not modelled.
- Rendering: markup, styling, icons and the two-decimal currency formatting (src/App.jsx:71-343, 274, 282). This is presentation with no behaviour to state.
- Aliasing in the update handlers. The source copies the list shallowly and then assigns the field on the shared record object, so the previous list's record changes too. The model replaces the record by value. The previous list is no longer reachable after the state is replaced, so nothing observable differs.
- React's scheduling of state updates and re-renders. Each state setter is modelled as a field assignment, run in the order the handler calls it.
- The request body is captured when the request starts. Edits made while it is outstanding do not reach the optimiser. This is not modelled, because the request is not modelled.
- Plan keys. Each plan is an object keyed by board position, and the view walks its entries; the model stores each entry with its position as a number. The entries of such an object have distinct positions in ascending order. `Solution` does not require this: it accepts entry lists in any order and with repeated positions, and every derivation simply follows the list's order. Keys that are not numbers are left out, as are answer bodies that are not shaped like an answer and an `error` member that is not a string.
- The `result && …` and `error && …` display guards. The model records presence (`Some`/`None`); it does not model JavaScript truthiness of the stored values.
- App.LumberLogic.FinishOptimize: requires the request to be outstanding. In the source it is the continuation of the same handler invocation after `BeginOptimize`, so it cannot run in any other state.
- ResultView.Render: requires every board position in the answer to exist in the board list. When one does not, the source raises while rendering instead of showing the panel. The same holds for ResultView.ShoppingList, ResultView.Instructions and ResultView.WasteRows, which carry the same requirement for the plan they walk.
