/**
 * The score interpretation shown after the quiz (frontend/app.py): an
 * if/elif chain that picks the first band whose threshold the score reaches,
 * from the top down.
 */
module Interpretation {

  /** The six bands, lowest first. */
  datatype Band = BelowAverage | LowAverage | Average | HighAverage | Superior | Exceptional

  /** The position of a band, counting up from the lowest. */
  function Rank(b: Band): nat
  {
    match b
    case BelowAverage => 0
    case LowAverage => 1
    case Average => 2
    case HighAverage => 3
    case Superior => 4
    case Exceptional => 5
  }

  /** The inclusive lower threshold of every band but the lowest. */
  function Threshold(b: Band): real
    requires b != BelowAverage
  {
    match b
    case LowAverage => 80.0
    case Average => 90.0
    case HighAverage => 110.0
    case Superior => 120.0
    case Exceptional => 130.0
  }

  /** The band just above `b`. */
  function Next(b: Band): Band
    requires b != Exceptional
  {
    match b
    case BelowAverage => LowAverage
    case LowAverage => Average
    case Average => HighAverage
    case HighAverage => Superior
    case Superior => Exceptional
  }

  /** Interval reading of the bands: at least the band's threshold and below the next band's. */
  predicate InBand(iq: real, b: Band)
  {
    && (b == BelowAverage || iq >= Threshold(b))
    && (b == Exceptional || iq < Threshold(Next(b)))
  }

  /** The band the if/elif chain selects. */
  function Interpret(iq: real): (b: Band)
    ensures InBand(iq, b)
  {
    if iq >= 130.0 then Exceptional
    else if iq >= 120.0 then Superior
    else if iq >= 110.0 then HighAverage
    else if iq >= 90.0 then Average
    else if iq >= 80.0 then LowAverage
    else BelowAverage
  }

  /** The bands partition the scores: the chain picks exactly the band whose interval holds the score. */
  lemma BandsPartition(iq: real, b: Band)
    ensures Interpret(iq) == b <==> InBand(iq, b)
  {
  }

  /** A higher score never gets a lower band. */
  lemma InterpretMonotone(lower: real, higher: real)
    requires lower <= higher
    ensures Rank(Interpret(lower)) <= Rank(Interpret(higher))
  {
  }

  /** The headline of each band. */
  function Title(b: Band): string
  {
    match b
    case Exceptional => "Exceptional"
    case Superior => "Superior"
    case HighAverage => "High Average"
    case Average => "Average"
    case LowAverage => "Low Average"
    case BelowAverage => "Below Average"
  }

  /** The explanation shown after the headline. */
  function Summary(b: Band): string
  {
    match b
    case Exceptional => "Very superior intelligence"
    case Superior => "Above average intelligence"
    case HighAverage => "Above average"
    case Average => "Normal intelligence"
    case LowAverage => "Below average"
    case BelowAverage => "Needs improvement"
  }

  /**
   * Different bands have different headlines, and different explanations,
   * so the banner tells the reader which band the score is in.
   */
  lemma BannerIdentifiesBand(a: Band, b: Band)
    ensures Title(a) == Title(b) <==> a == b
    ensures Summary(a) == Summary(b) <==> a == b
  {
  }
}
