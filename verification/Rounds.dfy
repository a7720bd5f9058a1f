/** The protocol rounds and their fixed order. */
module Rounds {
  import opened Base

  datatype Round =
    | Idle
    | Preprocessing
    | InputMaskReservation
    | InputCollection
    | MPCExecution
    | OutputDistribution
    | ProgramFinished

  function RoundIndex(r: Round): (i: nat)
    ensures i <= 6
  {
    match r
    case Idle => 0
    case Preprocessing => 1
    case InputMaskReservation => 2
    case InputCollection => 3
    case MPCExecution => 4
    case OutputDistribution => 5
    case ProgramFinished => 6
  }

  function RoundBefore(r: Round): (p: Option<Round>)
    ensures p.None? <==> RoundIndex(r) == 0
    ensures p.Some? ==> RoundIndex(p.value) + 1 == RoundIndex(r)
  {
    match r
    case Idle => None
    case Preprocessing => Some(Idle)
    case InputMaskReservation => Some(Preprocessing)
    case InputCollection => Some(InputMaskReservation)
    case MPCExecution => Some(InputCollection)
    case OutputDistribution => Some(MPCExecution)
    case ProgramFinished => Some(OutputDistribution)
  }

  /** Every round except `Idle`, in protocol order. */
  const ORDERED_ROUNDS: seq<Round> := [
    Preprocessing,
    InputMaskReservation,
    InputCollection,
    MPCExecution,
    OutputDistribution,
    ProgramFinished
  ]

  /** The two skip edges. They look at the pair of rounds and at nothing else. */
  predicate SkipsInputRounds(current: Round, next: Round) {
    current == Preprocessing && next == MPCExecution
  }

  predicate SkipsOutputRound(current: Round, next: Round) {
    current == MPCExecution && next == ProgramFinished
  }

  predicate Follows(current: Round, next: Round) {
    RoundBefore(next) == Some(current) || SkipsInputRounds(current, next) || SkipsOutputRound(current, next)
  }
}
