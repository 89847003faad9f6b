/** The daily-challenge selector: the day of year picks one of five archetypes, each with a
    fixed question record; the requested type plays no part. */
module DailyChallenge {
  import opened Outcomes
  import opened Calendar
  import opened Questions

  datatype Archetype = MultiStepQuant | CrossDomainLogic | PatternRecognition | DataAnalysis | SpatialReasoning

  /** The archetypes in the order `day_of_year % 5` indexes them. */
  const ARCHETYPES: seq<Archetype> :=
    [MultiStepQuant, CrossDomainLogic, PatternRecognition, DataAnalysis, SpatialReasoning]

  /** The name of an archetype as it appears in `metadata.challenge_type`. */
  function Name(a: Archetype): string {
    match a
    case MultiStepQuant => "multi_step_quant"
    case CrossDomainLogic => "cross_domain_logic"
    case PatternRecognition => "pattern_recognition"
    case DataAnalysis => "data_analysis"
    case SpatialReasoning => "spatial_reasoning"
  }

  /** The `metadata` block of a challenge. */
  datatype Metadata = Metadata(isDailyChallenge: bool, challengeDate: string, challengeType: string)

  datatype Challenge = Challenge(question: Question, metadata: Metadata)

  /** The fixed record of each archetype (its `created_at` stamp is not modelled). */
  function Record(a: Archetype): Question {
    match a
    case MultiStepQuant => MULTI_STEP_QUANT_RECORD
    case CrossDomainLogic => CROSS_DOMAIN_LOGIC_RECORD
    case PatternRecognition => PATTERN_RECOGNITION_RECORD
    case DataAnalysis => DATA_ANALYSIS_RECORD
    case SpatialReasoning => SPATIAL_REASONING_RECORD
  }

  const MULTI_STEP_QUANT_RECORD: Question :=
    Question(
      "A train leaves Station A at 2:00 PM traveling 60 mph. Another train leaves Station B at 2:30 PM traveling 80 mph toward Station A. If the stations are 200 miles apart, at what time will they meet?",
      ["3:15 PM", "3:30 PM", "3:45 PM", "4:00 PM"],
      "3:30 PM", "quant", 1800,
      "This requires solving: 60(t) + 80(t-0.5) = 200. Solving gives t = 1.5 hours, so they meet at 3:30 PM.",
      "daily_challenge")

  const CROSS_DOMAIN_LOGIC_RECORD: Question :=
    Question(
      "In a game tournament, players are ranked by their scores. Alice has a higher score than Bob, Bob has a higher score than Charlie, and David has a higher score than Alice. If exactly one of these statements is false, who has the highest score?",
      ["Alice", "Bob", "Charlie", "David"],
      "David", "logic", 1600,
      "If David > Alice > Bob > Charlie, then all statements are true. If David > Alice > Charlie > Bob, then 'Bob > Charlie' is false. David must have the highest score.",
      "daily_challenge")

  const PATTERN_RECOGNITION_RECORD: Question :=
    Question(
      "Complete the pattern: 2, 6, 12, 20, 30, 42, ___. What comes next?",
      ["50", "56", "62", "68"],
      "56", "logic", 1700,
      "The pattern adds consecutive even numbers: +4, +6, +8, +10, +12, +14. So 42 + 14 = 56.",
      "daily_challenge")

  const DATA_ANALYSIS_RECORD: Question :=
    Question(
      "A company's revenue for 5 years was: $100K, $120K, $150K, $180K, $220K. If this trend continues, what will the revenue be in year 7?",
      ["$280K", "$300K", "$320K", "$340K"],
      "$300K", "data", 1600,
      "The increases are: +20K, +30K, +30K, +40K. Following the pattern, year 6 would be +50K ($270K), year 7 would be +30K ($300K).",
      "daily_challenge")

  const SPATIAL_REASONING_RECORD: Question :=
    Question(
      "You start at point (0,0) and walk 3 units east, then 4 units north, then 3 units west, then 4 units south. How far are you from your starting point?",
      ["0 units", "2 units", "4 units", "6 units"],
      "0 units", "spatial", 1500,
      "You end up back at (0,0): (0,0) → (3,0) → (3,4) → (0,4) → (0,0). So you're 0 units from the start.",
      "daily_challenge")

  /** The archetype of a date: `day_of_year % 5` into `ARCHETYPES`. */
  function ArchetypeOf(d: Date): Archetype
    requires ValidDate(d)
  {
    ARCHETYPES[DayOfYear(d) % |ARCHETYPES|]
  }

  /** `generate_daily_challenge_for_date`: the date text must parse; the requested type is
      overwritten by the archetype of the date, and the metadata echoes the date text. */
  function GenerateDailyChallenge(date: string, requestedType: string): (r: Result<Challenge>)
    ensures r.Ok? <==> ParseDate(date).Ok?
    ensures r.Err? ==> r.error == InvalidDate
    ensures r.Ok? ==> r.value.metadata.isDailyChallenge && r.value.metadata.challengeDate == date
    ensures r.Ok? ==> r.value.metadata.challengeType == Name(ArchetypeOf(ParseDate(date).value))
    ensures r.Ok? ==> r.value.question == Record(ArchetypeOf(ParseDate(date).value))
  {
    match ParseDate(date)
    case Err(e) => Err(e)
    case Ok(d) => Ok(ChallengeOf(d, date))
  }

  /** The challenge of the day `d`, with `text` echoed as its date. */
  function ChallengeOf(d: Date, text: string): Challenge
    requires ValidDate(d)
  {
    Challenge(Record(ArchetypeOf(d)), Metadata(true, text, Name(ArchetypeOf(d))))
  }

  /** Handing the selector the canonical text of a date gives that date's challenge. */
  lemma CanonicalDateChallenge(d: Date, requestedType: string)
    requires ValidDate(d)
    ensures GenerateDailyChallenge(FormatDate(d), requestedType) == Ok(ChallengeOf(d, FormatDate(d)))
  {
    ParseFormatRoundTrip(d);
  }

  /** The selector answers the canonical text of every date. */
  lemma CanonicalDatesAccepted(requestedType: string)
    ensures forall d {:trigger FormatDate(d)} :: ValidDate(d) ==> GenerateDailyChallenge(FormatDate(d), requestedType).Ok?
  {
    forall d | ValidDate(d)
      ensures GenerateDailyChallenge(FormatDate(d), requestedType).Ok?
    {
      ParseFormatRoundTrip(d);
    }
  }

  /** Names tell archetypes apart. */
  lemma NameInjective(a: Archetype, b: Archetype)
    ensures Name(a) == Name(b) ==> a == b
  {
  }

  /** The challenge is a function of the date alone. */
  lemma RequestedTypeIgnored(date: string, type1: string, type2: string)
    ensures GenerateDailyChallenge(date, type1) == GenerateDailyChallenge(date, type2)
  {
  }

  /** Every record has four distinct choices holding its answer, one of the five domains,
      an expert-band difficulty and the `daily_challenge` source. */
  lemma RecordWellFormed(a: Archetype)
    ensures WellFormedChoices(Record(a).choices, Record(a).answer)
    ensures Record(a).domain in DOMAINS
    ensures InBand(Record(a).difficulty, "expert")
    ensures Record(a).source == "daily_challenge"
  {
  }

  /** Inside a year, consecutive days take consecutive archetypes (cyclically). */
  lemma ArchetypeAdvancesDaily(d: Date)
    requires ValidDate(d) && NextDay(d).Some? && NextDay(d).value.year == d.year
    ensures ValidDate(NextDay(d).value)
    ensures ArchetypeOf(NextDay(d).value) == ARCHETYPES[(DayOfYear(d) + 1) % 5]
  {
    NextDayOfYear(d);
  }

  /** Every first of January is day 1 of its year and so a `cross_domain_logic` day. */
  lemma NewYearArchetype(y: int)
    requires MIN_YEAR <= y <= MAX_YEAR
    ensures ValidDate(Date(y, 1, 1)) && ArchetypeOf(Date(y, 1, 1)) == CrossDomainLogic
  {
  }

  /** 2024-01-01 is day 1: a `cross_domain_logic` challenge answered "David". */
  lemma FirstOfJanuary2024()
    ensures GenerateDailyChallenge("2024-01-01", "auto")
      == Ok(Challenge(Record(CrossDomainLogic), Metadata(true, "2024-01-01", "cross_domain_logic")))
    ensures Record(CrossDomainLogic).answer == "David"
  {
    ParseFirstOfJanuary2024();
  }

  /** 2024-01-05 is day 5: a `multi_step_quant` challenge answered "3:30 PM". */
  lemma FifthOfJanuary2024()
    ensures GenerateDailyChallenge("2024-01-05", "auto")
      == Ok(Challenge(Record(MultiStepQuant), Metadata(true, "2024-01-05", "multi_step_quant")))
    ensures Record(MultiStepQuant).answer == "3:30 PM"
  {
    ParseFifthOfJanuary2024();
  }

  /** `2024-1-5` names the same day as `2024-01-05` and gets its challenge, but the metadata
      echoes the text as sent. */
  lemma ShortDateEchoed()
    ensures GenerateDailyChallenge("2024-1-5", "auto")
      == Ok(Challenge(Record(MultiStepQuant), Metadata(true, "2024-1-5", "multi_step_quant")))
  {
    ParseShortFields();
  }

  /** A day that does not exist is rejected: 2023 is not a leap year. */
  lemma NoChallengeForMissingDay()
    ensures GenerateDailyChallenge("2023-02-29", "auto") == Err(InvalidDate)
  {
    NoLeapDayIn2023();
  }
}
