/** The component's state and its event handlers: the two edited lists, the
    last answer, the in-flight flag and the error message, changed in place by
    the handlers. */
module App {
  import opened Domain
  import opened ResultView

  /** Shown when a rejected response carries no usable error text. */
  const DefaultFailureMessage := "Optimization failed"

  /** How one optimisation request ended, as the handler sees it.
      `Ok`: a success status and a body that parsed as JSON.
      `NotOk`: a failure status and a parsed body whose `error` member is
      `errorText` (None when absent).
      `Threw`: the request itself or the reading of its body raised, with
      `message` as the raised error's message. */
  datatype Outcome =
    | Ok(data: Solution)
    | NotOk(errorText: Option<string>)
    | Threw(message: string)

  /** The message stored for a failed request. A rejected response always
      gives a non-empty message: its own error text when that is non-empty,
      the default otherwise; a raised error's message is passed on as it is. */
  function FailureMessage(o: Outcome): (m: string)
    requires !o.Ok?
    ensures o.NotOk? ==> m != []
    ensures o.NotOk? && o.errorText.Some? && o.errorText.value != [] ==> m == o.errorText.value
    ensures o.NotOk? && (o.errorText.None? || o.errorText.value == []) ==> m == DefaultFailureMessage
    ensures o.Threw? ==> m == o.message
  {
    match o
    case NotOk(text) =>
      if text.Some? && text.value != [] then text.value else DefaultFailureMessage
    case Threw(message) => message
  }

  class LumberLogic {
    var cuts: seq<Cut>
    var boards: seq<Board>
    var result: Option<Solution>
    var loading: bool
    var error: Option<string>

    /** The answer and the error are never both present, and while a request
        is outstanding neither is. */
    predicate Valid()
      reads this
    {
      (result.None? || error.None?) &&
      (loading ==> result.None? && error.None?)
    }

    /** Whether the "Optimize Cuts" button is enabled. */
    predicate CanSubmit()
      reads this
    {
      SubmitEnabled(loading, cuts, boards)
    }

    /** The initial state: one cut, one board, no answer, idle, no error. */
    constructor ()
      ensures Valid() && CanSubmit()
      ensures cuts == [InitialCut] && boards == [InitialBoard]
      ensures result == None && !loading && error == None
    {
      cuts := [InitialCut];
      boards := [InitialBoard];
      result := None;
      loading := false;
      error := None;
    }

    /** Appends the default cut; the earlier cuts keep their positions. */
    method AddCut()
      requires Valid()
      modifies this`cuts
      ensures Valid()
      ensures cuts == old(cuts) + [NewCut]
      ensures !loading && boards != [] ==> CanSubmit()
    {
      cuts := cuts + [NewCut];
    }

    /** Drops the cut at `index`; any other index leaves the list as it was. */
    method RemoveCut(index: int)
      requires Valid()
      modifies this`cuts
      ensures Valid()
      ensures cuts == DropIndex(old(cuts), index)
      ensures 0 <= index < |old(cuts)| ==> cuts == old(cuts)[..index] + old(cuts)[index + 1..]
      ensures !(0 <= index < |old(cuts)|) ==> cuts == old(cuts)
      ensures |old(cuts)| == 1 && index == 0 ==> cuts == [] && !CanSubmit()
    {
      if 0 <= index < |cuts| {
        DropIndexInRange(cuts, index);
      } else {
        DropIndexOutOfRange(cuts, index);
      }
      cuts := DropIndex(cuts, index);
    }

    /** Overwrites one field of the cut at `index` with the coerced value. An
        index naming no cut raises (`threw`) before the list is replaced. */
    method UpdateCut(index: int, field: CutField, value: Parsed) returns (threw: bool)
      requires Valid()
      modifies this`cuts
      ensures Valid()
      ensures threw <==> !(0 <= index < |old(cuts)|)
      ensures threw ==> cuts == old(cuts)
      ensures !threw ==> cuts == UpdateCutAt(old(cuts), index, field, value)
    {
      threw := !(0 <= index < |cuts|);
      if !threw {
        cuts := UpdateCutAt(cuts, index, field, value);
      }
    }

    /** Appends the default board; the earlier boards keep their positions. */
    method AddBoard()
      requires Valid()
      modifies this`boards
      ensures Valid()
      ensures boards == old(boards) + [NewBoard]
      ensures !loading && cuts != [] ==> CanSubmit()
    {
      boards := boards + [NewBoard];
    }

    /** Drops the board at `index`; any other index leaves the list as it was. */
    method RemoveBoard(index: int)
      requires Valid()
      modifies this`boards
      ensures Valid()
      ensures boards == DropIndex(old(boards), index)
      ensures 0 <= index < |old(boards)| ==> boards == old(boards)[..index] + old(boards)[index + 1..]
      ensures !(0 <= index < |old(boards)|) ==> boards == old(boards)
      ensures |old(boards)| == 1 && index == 0 ==> boards == [] && !CanSubmit()
    {
      if 0 <= index < |boards| {
        DropIndexInRange(boards, index);
      } else {
        DropIndexOutOfRange(boards, index);
      }
      boards := DropIndex(boards, index);
    }

    /** Overwrites one field of the board at `index` with the coerced value.
        An index naming no board raises (`threw`) before the list is replaced. */
    method UpdateBoard(index: int, field: BoardField, value: Parsed) returns (threw: bool)
      requires Valid()
      modifies this`boards
      ensures Valid()
      ensures threw <==> !(0 <= index < |old(boards)|)
      ensures threw ==> boards == old(boards)
      ensures !threw ==> boards == UpdateBoardAt(old(boards), index, field, value)
    {
      threw := !(0 <= index < |boards|);
      if !threw {
        boards := UpdateBoardAt(boards, index, field, value);
      }
    }

    /** The part of the optimise handler before the request is awaited:
        mark the request outstanding and clear the error and the answer. */
    method BeginOptimize()
      requires Valid()
      modifies this`loading, this`error, this`result
      ensures Valid() && !CanSubmit()
      ensures loading && error == None && result == None
    {
      loading := true;
      error := None;
      result := None;
    }

    /** The part of the optimise handler after the request is awaited. It is
        the continuation of BeginOptimize, so it runs while the request is
        outstanding. A success stores the answer; anything else stores the
        failure message; in every case the request stops being outstanding. */
    method FinishOptimize(outcome: Outcome)
      requires Valid() && loading
      modifies this`loading, this`error, this`result
      ensures Valid() && !loading
      ensures outcome.Ok? ==> result == Some(outcome.data) && error == None
      ensures !outcome.Ok? ==> error == Some(FailureMessage(outcome)) && result == None
    {
      match outcome {
        case Ok(data) =>
          result := Some(data);
        case _ =>
          error := Some(FailureMessage(outcome));
      }
      loading := false;
    }

    /** The whole optimise handler, with no edit between its two halves. */
    method Optimize(outcome: Outcome)
      requires Valid()
      modifies this`loading, this`error, this`result
      ensures Valid() && !loading
      ensures outcome.Ok? ==> result == Some(outcome.data) && error == None
      ensures !outcome.Ok? ==> error == Some(FailureMessage(outcome)) && result == None
      ensures CanSubmit() <==> cuts != [] && boards != []
    {
      BeginOptimize();
      FinishOptimize(outcome);
    }
  }

  /** The results panel looks boards up in the current board list, not in the
      list that was submitted. Removing a board after an answer arrives can
      therefore leave a plan entry naming a position that no longer exists,
      and the panel cannot be rendered. */
  lemma RemoveBoardCanStrandAnswer()
    ensures var boards := [InitialBoard, NewBoard.(length := 120.0)];
            var answer := Solution([Purchase(1, 1)], [], [], 8.0);
            Renderable(answer, |boards|) && !Renderable(answer, |DropIndex(boards, 0)|)
  {
    var boards := [InitialBoard, NewBoard.(length := 120.0)];
    var answer := Solution([Purchase(1, 1)], [], [], 8.0);
    DropIndexShifts(boards, 0);
    assert answer.boardPlan[0].boardIdx == |DropIndex(boards, 0)|;
  }
}
