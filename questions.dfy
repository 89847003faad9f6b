/** The question synthesiser behind `/generate-questions`: difficulty bands, the fixed
    template bank of each domain, the per-domain stem variation and the generation loop. */
module Questions {
  import opened Outcomes
  import opened Text

  /** A bank entry: stem, the four choices, the correct answer and a base difficulty
      (which generation ignores). */
  datatype Template = Template(stem: string, choices: seq<string>, answer: string, baseDifficulty: int)

  /** A synthesised question record (its `created_at` wall-clock stamp is not modelled). */
  datatype Question = Question(
    stem: string,
    choices: seq<string>,
    answer: string,
    domain: string,
    difficulty: int,
    explanation: string,
    source: string)

  const DOMAINS: seq<string> := ["quant", "verbal", "spatial", "logic", "data"]

  /** The named difficulty bands and their closed ranges. */
  const BANDS: map<string, (int, int)> := map[
    "basic" := (400, 600),
    "intermediate" := (700, 1000),
    "advanced" := (1100, 1400),
    "expert" := (1500, 2000)]

  /** The closed difficulty range of a band name; any other name gets the intermediate range. */
  function BandRange(band: string): (range: (int, int))
    ensures 400 <= range.0 <= range.1 <= 2000
    ensures band !in BANDS ==> range == (700, 1000)
    ensures band in BANDS ==> range == BANDS[band]
  {
    if band in BANDS then BANDS[band] else (700, 1000)
  }

  /** The difficulty `d` lies in the closed range of `band`. */
  predicate InBand(d: int, band: string) {
    BandRange(band).0 <= d <= BandRange(band).1
  }

  const QUANT_BANK: seq<Template> := [
    Template("What is 25% of 80?",
             ["15", "20", "25", "30"], "20", 600),
    Template("If a rectangle has length 8 and width 6, what is its area?",
             ["14", "28", "48", "56"], "48", 700),
    Template("What is 15% of 200?",
             ["20", "25", "30", "35"], "30", 600),
    Template("If 3x + 5 = 20, what is x?",
             ["3", "5", "7", "15"], "5", 800),
    Template("What is the square root of 64?",
             ["6", "7", "8", "9"], "8", 600),
    Template("What is 2^5?",
             ["16", "32", "64", "128"], "32", 700),
    Template("If a circle has radius 5, what is its area?",
             ["25π", "50π", "75π", "100π"], "25π", 900),
    Template("What is the slope of the line y = 2x + 3?",
             ["1", "2", "3", "5"], "2", 800),
    Template("What is 1/3 + 1/6?",
             ["1/2", "1/3", "1/6", "2/9"], "1/2", 700),
    Template("If a triangle has angles 30°, 60°, and 90°, what type is it?",
             ["Equilateral", "Isosceles", "Right", "Obtuse"], "Right", 600)
  ]

  const VERBAL_BANK: seq<Template> := [
    Template("What is the opposite of 'generous'?",
             ["kind", "stingy", "friendly", "helpful"], "stingy", 500),
    Template("Complete the analogy: Hot is to Cold as Light is to ___",
             ["Bright", "Dark", "Warm", "Shine"], "Dark", 800),
    Template("What is a synonym for 'happy'?",
             ["sad", "joyful", "angry", "tired"], "joyful", 400),
    Template("What is the opposite of 'brave'?",
             ["strong", "cowardly", "smart", "fast"], "cowardly", 500),
    Template("Complete the analogy: Dog is to Puppy as Cat is to ___",
             ["Kitten", "Baby", "Young", "Small"], "Kitten", 600),
    Template("What is a synonym for 'big'?",
             ["small", "large", "tiny", "little"], "large", 400),
    Template("Complete the analogy: Book is to Read as Movie is to ___",
             ["Watch", "See", "Look", "View"], "Watch", 600),
    Template("What is the opposite of 'fast'?",
             ["quick", "slow", "rapid", "speedy"], "slow", 400),
    Template("What is a synonym for 'smart'?",
             ["dumb", "intelligent", "stupid", "foolish"], "intelligent", 500),
    Template("Complete the analogy: Teacher is to Student as Doctor is to ___",
             ["Nurse", "Patient", "Hospital", "Medicine"], "Patient", 700)
  ]

  const SPATIAL_BANK: seq<Template> := [
    Template("If you face north and turn right twice, which direction are you facing?",
             ["North", "South", "East", "West"], "South", 600),
    Template("You walk 3 blocks east, then 2 blocks north. How far are you from your starting point?",
             ["3 blocks", "4 blocks", "5 blocks", "6 blocks"], "5 blocks", 1000),
    Template("If you turn left from facing west, which direction are you facing?",
             ["North", "South", "East", "West"], "South", 500),
    Template("You walk 4 blocks south, then 3 blocks west. How far are you from your starting point?",
             ["5 blocks", "6 blocks", "7 blocks", "8 blocks"], "5 blocks", 900),
    Template("If you face east and turn right three times, which direction are you facing?",
             ["North", "South", "East", "West"], "North", 700),
    Template("You walk 6 blocks north, then 8 blocks east. How far are you from your starting point?",
             ["10 blocks", "12 blocks", "14 blocks", "16 blocks"], "10 blocks", 1100),
    Template("If you turn right from facing south, which direction are you facing?",
             ["North", "South", "East", "West"], "West", 500),
    Template("You walk 5 blocks west, then 12 blocks north. How far are you from your starting point?",
             ["13 blocks", "15 blocks", "17 blocks", "19 blocks"], "13 blocks", 1200),
    Template("If you face north and turn left twice, which direction are you facing?",
             ["North", "South", "East", "West"], "South", 600),
    Template("You walk 9 blocks east, then 12 blocks south. How far are you from your starting point?",
             ["15 blocks", "18 blocks", "21 blocks", "24 blocks"], "15 blocks", 1300)
  ]

  const LOGIC_BANK: seq<Template> := [
    Template("Complete the sequence: 2, 4, 8, 16, ___",
             ["20", "24", "32", "30"], "32", 900),
    Template("If all birds can fly and a penguin is a bird, what can be concluded?",
             ["Penguins can fly", "Penguins cannot fly", "No conclusion can be drawn", "Some birds cannot fly"], "No conclusion can be drawn", 1200),
    Template("What comes next: 1, 3, 6, 10, ___",
             ["12", "15", "16", "18"], "15", 800),
    Template("If all students study and John is a student, what can be concluded?",
             ["John studies", "John does not study", "No conclusion can be drawn", "Some students don't study"], "John studies", 1000),
    Template("Complete the sequence: 1, 2, 4, 7, 11, ___",
             ["14", "15", "16", "17"], "16", 1000),
    Template("If all mammals have hair and a whale is a mammal, what can be concluded?",
             ["Whales have hair", "Whales don't have hair", "No conclusion can be drawn", "Some mammals don't have hair"], "Whales have hair", 900),
    Template("What comes next: 3, 6, 12, 24, ___",
             ["36", "48", "30", "42"], "48", 800),
    Template("If all cars have wheels and this is a car, what can be concluded?",
             ["This has wheels", "This doesn't have wheels", "No conclusion can be drawn", "Some cars don't have wheels"], "This has wheels", 700),
    Template("Complete the sequence: 1, 4, 9, 16, ___",
             ["20", "25", "30", "35"], "25", 900),
    Template("If all doctors are smart and Sarah is a doctor, what can be concluded?",
             ["Sarah is smart", "Sarah is not smart", "No conclusion can be drawn", "Some doctors are not smart"], "Sarah is smart", 800)
  ]

  const DATA_BANK: seq<Template> := [
    Template("In a survey of 100 people, 60 prefer apples and 40 prefer oranges. What percentage prefer apples?",
             ["40%", "50%", "60%", "70%"], "60%", 500),
    Template("If a company's revenue increased from $1000 to $1200, what was the percentage increase?",
             ["15%", "20%", "25%", "30%"], "20%", 800),
    Template("In a class of 25 students, 15 are boys. What is the ratio of boys to girls?",
             ["3:2", "2:3", "3:5", "5:3"], "3:2", 700),
    Template("If a basketball player scores 20, 25, and 15 points in three games, what was their average?",
             ["18", "20", "22", "25"], "20", 600),
    Template("In a survey of 200 people, 120 own a car and 80 don't. What percentage don't own a car?",
             ["30%", "35%", "40%", "45%"], "40%", 600),
    Template("If a stock price increases from $50 to $60, what is the percentage increase?",
             ["15%", "20%", "25%", "30%"], "20%", 700),
    Template("In a group of 80 people, 32 are women. What percentage are men?",
             ["40%", "50%", "60%", "70%"], "60%", 600),
    Template("If a test has 40 questions and you get 32 correct, what is your percentage score?",
             ["70%", "75%", "80%", "85%"], "80%", 600),
    Template("In a survey of 150 people, 90 support a policy and 60 oppose it. What is the ratio of supporters to opponents?",
             ["2:1", "3:2", "4:3", "5:3"], "3:2", 700),
    Template("If a company's profit increased from $5000 to $7000, what was the percentage increase?",
             ["30%", "35%", "40%", "45%"], "40%", 800)
  ]

  /** The template bank of a domain; an unknown domain has an empty bank. */
  function Bank(domain: string): (bank: seq<Template>)
    ensures domain in DOMAINS ==> |bank| == 10
    ensures domain !in DOMAINS ==> bank == []
  {
    if domain == "quant" then QUANT_BANK
    else if domain == "verbal" then VERBAL_BANK
    else if domain == "spatial" then SPATIAL_BANK
    else if domain == "logic" then LOGIC_BANK
    else if domain == "data" then DATA_BANK
    else []
  }

  /** Four pairwise different choices, one of which is the answer. */
  predicate WellFormedChoices(choices: seq<string>, answer: string) {
    && |choices| == 4
    && answer in choices
    && forall j, k :: 0 <= j < k < |choices| ==> choices[j] != choices[k]
  }

  /** Every template of a bank has four distinct choices containing its answer. */
  predicate BankWellFormedAt(bank: seq<Template>, k: int)
    requires 0 <= k < |bank|
  {
    WellFormedChoices(bank[k].choices, bank[k].answer)
  }

  lemma QuantBankWellFormed(k: int)
    requires 0 <= k < |QUANT_BANK|
    ensures BankWellFormedAt(QUANT_BANK, k)
  {
  }

  lemma VerbalBankWellFormed(k: int)
    requires 0 <= k < |VERBAL_BANK|
    ensures BankWellFormedAt(VERBAL_BANK, k)
  {
  }

  lemma SpatialBankWellFormed(k: int)
    requires 0 <= k < |SPATIAL_BANK|
    ensures BankWellFormedAt(SPATIAL_BANK, k)
  {
  }

  lemma LogicBankWellFormed(k: int)
    requires 0 <= k < |LOGIC_BANK|
    ensures BankWellFormedAt(LOGIC_BANK, k)
  {
  }

  lemma DataBankWellFormed(k: int)
    requires 0 <= k < |DATA_BANK|
    ensures BankWellFormedAt(DATA_BANK, k)
  {
  }

  /** Every template of every bank has four distinct choices containing its answer. */
  lemma BankWellFormed(domain: string, k: int)
    requires 0 <= k < |Bank(domain)|
    ensures WellFormedChoices(Bank(domain)[k].choices, Bank(domain)[k].answer)
  {
    if domain == "quant" { QuantBankWellFormed(k); }
    else if domain == "verbal" { VerbalBankWellFormed(k); }
    else if domain == "spatial" { SpatialBankWellFormed(k); }
    else if domain == "logic" { LogicBankWellFormed(k); }
    else { DataBankWellFormed(k); }
  }

  /** The stem of a template varied for request index `i`: the domain's substring
      replacement, applied to every occurrence; quant rewrites "80" and then "200" in the
      already rewritten stem. Other domains leave the stem alone. */
  function Vary(domain: string, stem: string, i: nat): string {
    if domain == "quant" then
      ReplaceAll(ReplaceAll(stem, "80", NatToString(80 + (i * 5) % 100)), "200", NatToString(200 + (i * 10) % 300))
    else if domain == "verbal" then
      ReplaceAll(stem, "generous", ["kind", "brave", "honest", "wise"][i % 4])
    else if domain == "spatial" then
      ReplaceAll(stem, "north", ["north", "south", "east", "west"][i % 4])
    else if domain == "logic" then
      ReplaceAll(stem, "2, 4, 8, 16", SequenceText(i))
    else if domain == "data" then
      ReplaceAll(stem, "100", NatToString(100 + (i * 20) % 200))
    else stem
  }

  /** The shifted sequence `f"{2+i}, {4+i}, {8+i}, {16+i}"`. */
  function SequenceText(i: nat): string {
    NatToString(2 + i) + ", " + NatToString(4 + i) + ", " + NatToString(8 + i) + ", " + NatToString(16 + i)
  }

  /** The substrings a domain's variation looks for. */
  function VaryTargets(domain: string): seq<string> {
    if domain == "quant" then ["80", "200"]
    else if domain == "verbal" then ["generous"]
    else if domain == "spatial" then ["north"]
    else if domain == "logic" then ["2, 4, 8, 16"]
    else if domain == "data" then ["100"]
    else []
  }

  /** The stem of question `i` drawn from `bank`: template `i` verbatim inside the bank, the
      varied stem of template `i % |bank|` beyond it. */
  function StemAt(bank: seq<Template>, domain: string, i: nat): string
    requires bank != []
  {
    if i < |bank| then bank[i].stem else Vary(domain, bank[i % |bank|].stem, i)
  }

  /** `q` is a possible question number `i` drawn from `bank` for the request (domain, band,
      source): the stem of `StemAt`, choices and answer of template `i % |bank|`, the
      request's domain and source, a difficulty inside the band, and the stem echoed in the
      explanation. */
  predicate Conforms(q: Question, bank: seq<Template>, domain: string, i: nat, band: string, source: string) {
    && bank != []
    && var t := bank[i % |bank|];
    && q.stem == StemAt(bank, domain, i)
    && q.choices == t.choices
    && q.answer == t.answer
    && q.domain == domain
    && InBand(q.difficulty, band)
    && q.explanation == "Explanation for " + q.stem
    && q.source == source
  }

  /** `range(count)` has `max(count, 0)` elements. */
  function RangeLength(count: int): nat {
    if count > 0 then count else 0
  }

  /** The in-place rewriting of `stem` that the generation loop performs beyond the bank. */
  method VaryStem(domain: string, stem: string, i: nat) returns (varied: string)
    ensures varied == Vary(domain, stem, i)
  {
    varied := stem;
    if domain == "quant" {
      varied := ReplaceAll(varied, "80", NatToString(80 + (i * 5) % 100));
      varied := ReplaceAll(varied, "200", NatToString(200 + (i * 10) % 300));
    } else if domain == "verbal" {
      varied := ReplaceAll(varied, "generous", ["kind", "brave", "honest", "wise"][i % 4]);
    } else if domain == "spatial" {
      varied := ReplaceAll(varied, "north", ["north", "south", "east", "west"][i % 4]);
    } else if domain == "logic" {
      varied := ReplaceAll(varied, "2, 4, 8, 16", SequenceText(i));
    } else if domain == "data" {
      varied := ReplaceAll(varied, "100", NatToString(100 + (i * 20) % 200));
    }
  }

  /** The loop of `generate_questions_for_domain` over the domain's bank. With an empty bank
      and a positive count the first iteration evaluates `0 % 0` and fails; otherwise there
      is one conforming question per index of `range(count)`. The difficulty is any value of
      the band (Python's `random.randint` draws it). */
  method GenerateFromBank(bank: seq<Template>, domain: string, count: int, band: string, source: string)
    returns (r: Result<seq<Question>>)
    ensures r.Err? <==> count > 0 && bank == []
    ensures r.Err? ==> r.error == ZeroDivision
    ensures r.Ok? ==> |r.value| == RangeLength(count)
    ensures r.Ok? ==> forall k :: 0 <= k < |r.value| ==> Conforms(r.value[k], bank, domain, k, band, source)
  {
    var (lo, hi) := BandRange(band);
    var questions: seq<Question> := [];
    var i := 0;
    while i < count
      invariant 0 <= i == |questions| && i <= RangeLength(count)
      invariant bank == [] ==> i == 0
      invariant forall k :: 0 <= k < i ==> Conforms(questions[k], bank, domain, k, band, source)
    {
      var stem, choices, answer;
      if i < |bank| {
        assert i % |bank| == i;
        stem, choices, answer := bank[i].stem, bank[i].choices, bank[i].answer;
      } else {
        if |bank| == 0 {
          return Err(ZeroDivision);
        }
        var t := bank[i % |bank|];
        stem, choices, answer := t.stem, t.choices, t.answer;
        stem := VaryStem(domain, stem, i);
      }
      var difficulty :| lo <= difficulty <= hi;
      var q := Question(stem, choices, answer, domain, difficulty, "Explanation for " + stem, source);
      assert Conforms(q, bank, domain, i, band, source);
      var extended := questions + [q];
      forall k | 0 <= k < i + 1
        ensures Conforms(extended[k], bank, domain, k, band, source)
      {
        if k < i {
          assert extended[k] == questions[k];
        }
      }
      questions := extended;
      i := i + 1;
    }
    return Ok(questions);
  }

  /** `generate_questions_for_domain`: looks the domain's bank up (an unknown domain has an
      empty one) and runs the loop over it, so an unknown domain fails exactly when questions
      are asked for. */
  method GenerateQuestionsForDomain(domain: string, count: int, band: string, source: string)
    returns (r: Result<seq<Question>>)
    ensures r.Err? <==> count > 0 && domain !in DOMAINS
    ensures r.Err? ==> r.error == ZeroDivision
    ensures r.Ok? ==> |r.value| == RangeLength(count)
    ensures r.Ok? ==> forall k :: 0 <= k < |r.value| ==> Conforms(r.value[k], Bank(domain), domain, k, band, source)
  {
    r := GenerateFromBank(Bank(domain), domain, count, band, source);
  }

  /** What every question drawn from a bank of well-formed templates satisfies: the request's
      domain and source, four distinct choices containing the answer, a difficulty in the
      band, and the explanation text. */
  lemma ConformingQuestionShape(q: Question, bank: seq<Template>, domain: string, i: nat, band: string, source: string)
    requires Conforms(q, bank, domain, i, band, source)
    requires forall k :: 0 <= k < |bank| ==> WellFormedChoices(bank[k].choices, bank[k].answer)
    ensures q.domain == domain && q.source == source
    ensures q.explanation == "Explanation for " + q.stem
    ensures WellFormedChoices(q.choices, q.answer)
    ensures BandRange(band).0 <= q.difficulty <= BandRange(band).1
  {
    assert 0 <= i % |bank| < |bank|;
  }

  /** Questions generated for a domain come from one of the five banks, whose templates are
      all well formed. */
  lemma GeneratedQuestionShape(q: Question, domain: string, i: nat, band: string, source: string)
    requires Conforms(q, Bank(domain), domain, i, band, source)
    ensures domain in DOMAINS
    ensures WellFormedChoices(q.choices, q.answer)
  {
    BankWellFormed(domain, i % |Bank(domain)|);
  }

  /** Inside the bank, question `i` is template `i` verbatim, in order. */
  lemma VerbatimInsideBank(q: Question, bank: seq<Template>, domain: string, i: nat, band: string, source: string)
    requires Conforms(q, bank, domain, i, band, source) && i < |bank|
    ensures q.stem == bank[i].stem
    ensures q.choices == bank[i].choices && q.answer == bank[i].answer
  {
    assert i % |bank| == i;
  }

  /** Beyond the bank, question `i` has the choices and answer of template `i % |bank|` and
      the varied stem of that template. */
  lemma VariedBeyondBank(q: Question, bank: seq<Template>, domain: string, i: nat, band: string, source: string)
    requires Conforms(q, bank, domain, i, band, source) && i >= |bank|
    ensures q.stem == Vary(domain, bank[i % |bank|].stem, i)
    ensures q.choices == bank[i % |bank|].choices && q.answer == bank[i % |bank|].answer
  {
  }

  /** A stem holding none of its domain's target substrings survives the variation unchanged. */
  lemma VaryWithoutTargets(domain: string, stem: string, i: nat)
    requires forall k :: 0 <= k < |VaryTargets(domain)| ==> !Contains(stem, VaryTargets(domain)[k])
    ensures Vary(domain, stem, i) == stem
  {
    var targets := VaryTargets(domain);
    if domain == "quant" {
      assert !Contains(stem, targets[0]) && !Contains(stem, targets[1]);
      ReplaceAbsent(stem, "80", NatToString(80 + (i * 5) % 100));
      ReplaceAbsent(stem, "200", NatToString(200 + (i * 10) % 300));
    } else if domain == "verbal" {
      assert !Contains(stem, targets[0]);
      ReplaceAbsent(stem, "generous", ["kind", "brave", "honest", "wise"][i % 4]);
    } else if domain == "spatial" {
      assert !Contains(stem, targets[0]);
      ReplaceAbsent(stem, "north", ["north", "south", "east", "west"][i % 4]);
    } else if domain == "logic" {
      assert !Contains(stem, targets[0]);
      ReplaceAbsent(stem, "2, 4, 8, 16", SequenceText(i));
    } else if domain == "data" {
      assert !Contains(stem, targets[0]);
      ReplaceAbsent(stem, "100", NatToString(100 + (i * 20) % 200));
    }
  }

  /** The spatial variation is the identity on every fourth index ("north" by "north"). */
  lemma SpatialVariationIdentity(stem: string, i: nat)
    requires i % 4 == 0
    ensures Vary("spatial", stem, i) == stem
  {
    ReplaceBySelf(stem, "north");
  }

  /** Every occurrence is replaced, also one inside a longer number: a "1000" reached before
      any other "1" becomes the new amount followed by "0". */
  lemma DataVariationInsideLongerNumber(head: string, tail: string, i: nat)
    requires '1' !in head
    ensures Vary("data", head + "1000" + tail, i)
      == head + NatToString(100 + (i * 20) % 200) + "0" + Vary("data", tail, i)
  {
    assert head + "1000" + tail == head + "100" + ['0'] + tail;
    ReplaceFollowedBy(head, "100", '0', tail, NatToString(100 + (i * 20) % 200));
  }
}
