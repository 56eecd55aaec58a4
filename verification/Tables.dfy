/** The tables of a run's SQLite file, one sequence per table in rowid order. */
module Tables {
  import opened Contracts

  datatype Stage = Inference | Proposed | Dispatched | Returned | Completed | Failed {
    predicate PreDispatch() { Inference? || Proposed? }

    predicate Open() { !Completed? && !Failed? }

    /** The stages a tool call reaches only through dispatch. */
    predicate PastDispatch() { Dispatched? || Returned? || Completed? }
  }

  datatype Operation = Operation(
    id: string, stage: Stage, request: InferenceRequest, call: Option<ToolCall>,
    observation: bool, output: Option<string>, error: Option<string>)

  datatype ReservationRow = ReservationRow(operation: string, resource: Resource)

  datatype EvaluationRow = EvaluationRow(operation: string, evaluation: Evaluation)

  datatype CommitRow = CommitRow(revision: int, operation: string, baseRevision: int, value: string)

  datatype UsageRow = UsageRow(operation: string, usage: Usage)

  datatype OutputRow = OutputRow(operation: string, reservation: Reservation)

  datatype RequirementRow = RequirementRow(operation: string, guard: string)

  datatype DecisionRow = DecisionRow(operation: string, guard: string, decision: GuardDecision)

  datatype EventRow = EventRow(operation: string, stage: string, detail: string)

  /** One database file. Records are stored as themselves instead of as JSON text. */
  datatype Journal = Journal(
    initialState: string,
    initialObservation: Option<string>,
    limits: Limits,
    deadline: Option<real>,
    lastClock: real,
    outcome: Option<Ending>,
    operations: seq<Operation>,
    reservations: seq<ReservationRow>,
    evaluations: seq<EvaluationRow>,
    commits: seq<CommitRow>,
    usage: seq<UsageRow>,
    outputs: seq<OutputRow>,
    requirements: seq<RequirementRow>,
    decisions: seq<DecisionRow>,
    events: seq<EventRow>)

  // ----------------------------------------------------------- lookups by key

  function Find(operations: seq<Operation>, id: string): (i: Option<nat>)
    ensures i.Some? ==> i.value < |operations| && operations[i.value].id == id
    ensures i.None? ==> forall k :: 0 <= k < |operations| ==> operations[k].id != id
  {
    if operations == [] then None
    else
      var n := |operations| - 1;
      if operations[n].id == id then Some(n) else Find(operations[..n], id)
  }

  function UsageOf(rows: seq<UsageRow>, id: string): Option<Usage> {
    if rows == [] then None
    else
      var n := |rows| - 1;
      if rows[n].operation == id then Some(rows[n].usage) else UsageOf(rows[..n], id)
  }

  function OutputOf(rows: seq<OutputRow>, id: string): Option<Reservation> {
    if rows == [] then None
    else
      var n := |rows| - 1;
      if rows[n].operation == id then Some(rows[n].reservation) else OutputOf(rows[..n], id)
  }

  function EvaluationOf(rows: seq<EvaluationRow>, id: string): Option<Evaluation> {
    if rows == [] then None
    else
      var n := |rows| - 1;
      if rows[n].operation == id then Some(rows[n].evaluation) else EvaluationOf(rows[..n], id)
  }

  function DecisionOf(rows: seq<DecisionRow>, id: string, guard: string): Option<GuardDecision> {
    if rows == [] then None
    else
      var n := |rows| - 1;
      if rows[n].operation == id && rows[n].guard == guard then Some(rows[n].decision)
      else DecisionOf(rows[..n], id, guard)
  }

  function CountOf(rows: seq<ReservationRow>, resource: Resource): nat {
    if rows == [] then 0
    else
      var n := |rows| - 1;
      CountOf(rows[..n], resource) + if rows[n].resource == resource then 1 else 0
  }
}
