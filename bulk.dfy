/** The two bulk endpoints: question batches for every domain and difficulty band, and one
    daily challenge for each of a run of consecutive dates. */
module Bulk {
  import opened Outcomes
  import opened Questions
  import opened Calendar
  import opened DailyChallenge

  const BULK_SOURCE: string := "bulk_generation"

  /** One call of the question synthesiser made by the bulk endpoint. */
  datatype Batch = Batch(domain: string, band: string, count: int)

  /** The calls made for one domain: one per band whose count is positive, in band order. */
  function DomainBatches(domain: string, bands: seq<(string, int)>): seq<Batch>
    decreases |bands|
  {
    if bands == [] then []
    else
      var (band, count) := bands[|bands| - 1];
      DomainBatches(domain, bands[..|bands| - 1]) + (if count > 0 then [Batch(domain, band, count)] else [])
  }

  /** All calls, domain after domain. */
  function Batches(domains: seq<string>, bands: seq<(string, int)>): seq<Batch>
    decreases |domains|
  {
    if domains == [] then []
    else Batches(domains[..|domains| - 1], bands) + DomainBatches(domains[|domains| - 1], bands)
  }

  /** `qs` is a possible answer of the synthesiser to the call `b`, drawing on `bank`. */
  predicate IsBatch(qs: seq<Question>, b: Batch, bank: seq<Template>) {
    && |qs| == RangeLength(b.count)
    && forall k :: 0 <= k < |qs| ==> Conforms(qs[k], bank, b.domain, k, b.band, BULK_SOURCE)
  }

  /** `qs` is the concatenation of possible answers to the calls `batches`, in order, each
      drawing on the bank `bankOf` gives its domain. */
  predicate Concatenates(qs: seq<Question>, batches: seq<Batch>, bankOf: string -> seq<Template>)
    decreases |batches|
  {
    if batches == [] then qs == []
    else
      var b := batches[|batches| - 1];
      var n := RangeLength(b.count);
      && n <= |qs|
      && Concatenates(qs[..|qs| - n], batches[..|batches| - 1], bankOf)
      && IsBatch(qs[|qs| - n..], b, bankOf(b.domain))
  }

  /** The sum of the positive band counts. */
  function PositiveSum(bands: seq<(string, int)>): (n: nat)
    decreases |bands|
  {
    if bands == [] then 0
    else PositiveSum(bands[..|bands| - 1]) + RangeLength(bands[|bands| - 1].1)
  }

  /** The total size of the batches. */
  function TotalCount(batches: seq<Batch>): nat
    decreases |batches|
  {
    if batches == [] then 0
    else TotalCount(batches[..|batches| - 1]) + RangeLength(batches[|batches| - 1].count)
  }

  /** Appending one more answer extends the concatenation. */
  lemma ConcatenatesStep(qs: seq<Question>, batches: seq<Batch>, bankOf: string -> seq<Template>, more: seq<Question>, b: Batch)
    requires Concatenates(qs, batches, bankOf) && IsBatch(more, b, bankOf(b.domain))
    ensures Concatenates(qs + more, batches + [b], bankOf)
  {
    var all := qs + more;
    assert all[..|all| - |more|] == qs && all[|all| - |more|..] == more;
    assert (batches + [b])[..|batches|] == batches;
  }

  /** A concatenation has the total size of its batches. */
  lemma {:induction false} ConcatenatesLength(qs: seq<Question>, batches: seq<Batch>, bankOf: string -> seq<Template>)
    requires Concatenates(qs, batches, bankOf)
    ensures |qs| == TotalCount(batches)
    decreases |batches|
  {
    if batches != [] {
      var n := RangeLength(batches[|batches| - 1].count);
      ConcatenatesLength(qs[..|qs| - n], batches[..|batches| - 1], bankOf);
    }
  }

  /** The batches of one domain add up to the positive band counts. */
  lemma {:induction false} DomainBatchesTotal(domain: string, bands: seq<(string, int)>)
    ensures TotalCount(DomainBatches(domain, bands)) == PositiveSum(bands)
    decreases |bands|
  {
    if bands != [] {
      var init := bands[..|bands| - 1];
      DomainBatchesTotal(domain, init);
      var (band, count) := bands[|bands| - 1];
      if count > 0 {
        var prefix := DomainBatches(domain, init);
        assert (prefix + [Batch(domain, band, count)])[..|prefix|] == prefix;
      } else {
        assert DomainBatches(domain, init) + [] == DomainBatches(domain, init);
      }
    }
  }

  /** Totals add up over concatenated batch lists. */
  lemma {:induction false} TotalCountAppend(a: seq<Batch>, b: seq<Batch>)
    ensures TotalCount(a + b) == TotalCount(a) + TotalCount(b)
    decreases |b|
  {
    if b == [] {
      assert a + b == a;
    } else {
      var init := b[..|b| - 1];
      assert (a + b)[..|a + b| - 1] == a + init;
      TotalCountAppend(a, init);
    }
  }

  lemma MultiplySuccessor(n: int, p: int)
    ensures (n + 1) * p == n * p + p
  {
  }

  /** The bulk total: every domain gets every positive band count. */
  lemma {:induction false} BatchesTotal(domains: seq<string>, bands: seq<(string, int)>)
    ensures TotalCount(Batches(domains, bands)) == |domains| * PositiveSum(bands)
    decreases |domains|
  {
    if domains != [] {
      var init := domains[..|domains| - 1];
      BatchesTotal(init, bands);
      TotalCountAppend(Batches(init, bands), DomainBatches(domains[|domains| - 1], bands));
      DomainBatchesTotal(domains[|domains| - 1], bands);
      MultiplySuccessor(|init|, PositiveSum(bands));
    }
  }

  /** The batch list of the first `i + 1` domains extends that of the first `i`. */
  lemma BatchesStep(domains: seq<string>, bands: seq<(string, int)>, i: int)
    requires 0 <= i < |domains|
    ensures Batches(domains[..i + 1], bands) == Batches(domains[..i], bands) + DomainBatches(domains[i], bands)
  {
    assert domains[..i + 1][..i] == domains[..i];
  }

  /** The batch list of a domain's first `j + 1` bands extends that of the first `j`. */
  lemma DomainBatchesStep(domain: string, bands: seq<(string, int)>, j: int)
    requires 0 <= j < |bands|
    ensures DomainBatches(domain, bands[..j + 1])
      == DomainBatches(domain, bands[..j]) + (if bands[j].1 > 0 then [Batch(domain, bands[j].0, bands[j].1)] else [])
  {
    assert bands[..j + 1][..j] == bands[..j];
  }

  /** One band of the inner loop: a positive count appends the synthesiser's answer, any
      other count appends nothing. */
  lemma ExtendStep(acc: seq<Question>, done: seq<Batch>, bankOf: string -> seq<Template>, domain: string,
                   bands: seq<(string, int)>, j: int, more: seq<Question>)
    requires 0 <= j < |bands|
    requires Concatenates(acc, done + DomainBatches(domain, bands[..j]), bankOf)
    requires bands[j].1 > 0 ==> IsBatch(more, Batch(domain, bands[j].0, bands[j].1), bankOf(domain))
    ensures Concatenates(acc + (if bands[j].1 > 0 then more else []), done + DomainBatches(domain, bands[..j + 1]), bankOf)
  {
    DomainBatchesStep(domain, bands, j);
    var sofar := done + DomainBatches(domain, bands[..j]);
    if bands[j].1 > 0 {
      var b := Batch(domain, bands[j].0, bands[j].1);
      ConcatenatesStep(acc, sofar, bankOf, more, b);
      assert done + (DomainBatches(domain, bands[..j]) + [b]) == sofar + [b];
    } else {
      assert DomainBatches(domain, bands[..j]) + [] == DomainBatches(domain, bands[..j]);
      assert acc + [] == acc;
    }
  }

  /** The inner loop of `generate_bulk_questions` for one domain: for each band with a
      positive count, the synthesiser's questions are appended to the questions so far. The
      first call on an empty bank divides by zero. */
  method ExtendForDomain(bankOf: string -> seq<Template>, all: seq<Question>, ghost done: seq<Batch>,
                         domain: string, bands: seq<(string, int)>)
    returns (r: Result<seq<Question>>)
    requires Concatenates(all, done, bankOf)
    ensures r.Err? <==> bankOf(domain) == [] && exists j :: 0 <= j < |bands| && bands[j].1 > 0
    ensures r.Err? ==> r.error == ZeroDivision
    ensures r.Ok? ==> Concatenates(r.value, done + DomainBatches(domain, bands), bankOf)
  {
    var acc := all;
    var bank := bankOf(domain);
    assert bands[..0] == [] && done + [] == done;
    var j := 0;
    while j < |bands|
      invariant 0 <= j <= |bands|
      invariant Concatenates(acc, done + DomainBatches(domain, bands[..j]), bankOf)
      invariant bank == [] ==> forall k :: 0 <= k < j ==> bands[k].1 <= 0
    {
      var (band, count) := bands[j];
      var questions: seq<Question> := [];
      if count > 0 {
        var generated := GenerateFromBank(bank, domain, count, band, BULK_SOURCE);
        if generated.Err? {
          return Err(ZeroDivision);
        }
        questions := generated.value;
      }
      ExtendStep(acc, done, bankOf, domain, bands, j, questions);
      acc := acc + questions;
      j := j + 1;
    }
    assert bands[..j] == bands;
    return Ok(acc);
  }

  /** A domain with a bank extends a prefix of domains with banks. */
  lemma StockedPrefixStep(bankOf: string -> seq<Template>, domains: seq<string>, i: int)
    requires 0 <= i < |domains| && bankOf(domains[i]) != []
    requires forall k :: 0 <= k < i ==> bankOf(domains[k]) != []
    ensures forall k :: 0 <= k < i + 1 ==> bankOf(domains[k]) != []
  {
  }

  /** The accumulation loops of `generate_bulk_questions`, over any bank lookup: domain after
      domain, the questions of every band with a positive count are appended. The call on an
      empty bank with a positive count divides by zero, so the request fails exactly when some
      domain has no bank and some count is positive. */
  method GenerateBulkFrom(bankOf: string -> seq<Template>, domains: seq<string>, bands: seq<(string, int)>)
    returns (r: Result<seq<Question>>)
    ensures r.Err? <==>
      (exists i :: 0 <= i < |domains| && bankOf(domains[i]) == []) && (exists j :: 0 <= j < |bands| && bands[j].1 > 0)
    ensures r.Err? ==> r.error == ZeroDivision
    ensures r.Ok? ==> Concatenates(r.value, Batches(domains, bands), bankOf)
    ensures r.Ok? ==> |r.value| == |domains| * PositiveSum(bands)
  {
    var all: seq<Question> := [];
    ghost var positive := exists j :: 0 <= j < |bands| && bands[j].1 > 0;
    var i := 0;
    while i < |domains|
      invariant 0 <= i <= |domains|
      invariant Concatenates(all, Batches(domains[..i], bands), bankOf)
      invariant positive ==> forall k :: 0 <= k < i ==> bankOf(domains[k]) != []
    {
      BatchesStep(domains, bands, i);
      var extended := ExtendForDomain(bankOf, all, Batches(domains[..i], bands), domains[i], bands);
      if extended.Err? {
        return Err(ZeroDivision);
      }
      if positive {
        StockedPrefixStep(bankOf, domains, i);
      }
      all := extended.value;
      i := i + 1;
    }
    assert domains[..i] == domains;
    ConcatenatesLength(all, Batches(domains, bands), bankOf);
    BatchesTotal(domains, bands);
    return Ok(all);
  }

  /** `generate_bulk_questions`: the loops run over the domains' own banks, so the request
      fails exactly when some domain is unknown and some count is positive. The per-band counts
      are the already truncated `int(questions_per_domain * percentage)` values. */
  method GenerateBulkQuestions(domains: seq<string>, bands: seq<(string, int)>)
    returns (r: Result<seq<Question>>)
    ensures r.Err? <==>
      (exists i :: 0 <= i < |domains| && domains[i] !in DOMAINS) && (exists j :: 0 <= j < |bands| && bands[j].1 > 0)
    ensures r.Err? ==> r.error == ZeroDivision
    ensures r.Ok? ==> Concatenates(r.value, Batches(domains, bands), Bank)
    ensures r.Ok? ==> |r.value| == |domains| * PositiveSum(bands)
  {
    r := GenerateBulkFrom(Bank, domains, bands);
  }

  /** The bulk-challenges response: the challenges, their number and the first and last
      dates. */
  datatype ChallengeRun = ChallengeRun(
    challenges: seq<Challenge>,
    totalCount: int,
    startDate: string,
    endDate: string)

  /** The challenge of the date `n` days after `start`, when that date exists. */
  function ChallengeAfter(start: Date, n: int): Option<Challenge>
    requires ValidDate(start)
  {
    match ShiftDays(start, n)
    case None => None
    case Some(d) => Some(ChallengeOf(d, FormatDate(d)))
  }

  /** Handing the selector with type `auto` the dates `k` days after `start` gives the
      challenges of those days. */
  lemma AutoSelection(start: Date, challenges: seq<Challenge>)
    requires ValidDate(start)
    requires forall k :: 0 <= k < |challenges| ==>
      ShiftDays(start, k).Some? && Ok(challenges[k]) == GenerateDailyChallenge(FormatDate(ShiftDays(start, k).value), "auto")
    ensures forall k :: 0 <= k < |challenges| ==> ChallengeAfter(start, k) == Some(challenges[k])
  {
    forall k | 0 <= k < |challenges|
      ensures ChallengeAfter(start, k) == Some(challenges[k])
    {
      CanonicalDateChallenge(ShiftDays(start, k).value, "auto");
    }
  }

  /** The loop of `generate_daily_challenges_bulk`, over any selector that answers every
      formatted date: challenge `i` is the selector's answer for the date `i` days after
      `start`; none when one of those dates is out of range. */
  method ChallengesFrom(select: string -> Result<Challenge>, start: Date, days: int) returns (r: Option<seq<Challenge>>)
    requires ValidDate(start)
    requires forall d {:trigger select(FormatDate(d))} :: ValidDate(d) ==> select(FormatDate(d)).Ok?
    ensures r.None? <==> days > 0 && ShiftDays(start, days - 1).None?
    ensures r.Some? ==> |r.value| == RangeLength(days)
    ensures r.Some? ==> forall k :: 0 <= k < |r.value| ==>
      ShiftDays(start, k).Some? && Ok(r.value[k]) == select(FormatDate(ShiftDays(start, k).value))
  {
    var challenges: seq<Challenge> := [];
    var i := 0;
    while i < days
      invariant 0 <= i <= RangeLength(days) && |challenges| == i
      invariant forall k :: 0 <= k < i ==>
        ShiftDays(start, k).Some? && Ok(challenges[k]) == select(FormatDate(ShiftDays(start, k).value))
    {
      var shifted := ShiftDays(start, i);
      if shifted.None? {
        ShiftBeyondRange(start, i, days - 1);
        return None;
      }
      var challenge := select(FormatDate(shifted.value));
      var extended := challenges + [challenge.value];
      forall k | 0 <= k < i + 1
        ensures ShiftDays(start, k).Some? && Ok(extended[k]) == select(FormatDate(ShiftDays(start, k).value))
      {
        if k < i {
          assert extended[k] == challenges[k];
        }
      }
      challenges := extended;
      i := i + 1;
    }
    return Some(challenges);
  }

  /** `generate_daily_challenges_bulk`: the start date is parsed (`ValueError` when it is not
      a date); challenge `i` is the one of the date `i` days later, formatted and handed to
      the selector with type `auto`; a date outside years 1 to 9999 is an `OverflowError`,
      which the end date `days - 1` days after the start can raise even when `days` is 0. */
  method GenerateDailyChallengesBulk(startDate: string, days: int) returns (r: Result<ChallengeRun>)
    ensures ParseDate(startDate).Err? ==> r == Err(InvalidDate)
    ensures ParseDate(startDate).Ok? ==>
      var start := ParseDate(startDate).value;
      && (r.Err? <==> ShiftDays(start, days - 1).None?)
      && (r.Err? ==> r.error == DateOutOfRange)
      && (r.Ok? ==>
        && |r.value.challenges| == RangeLength(days)
        && r.value.totalCount == RangeLength(days)
        && r.value.startDate == startDate
        && (forall k :: 0 <= k < |r.value.challenges| ==> ChallengeAfter(start, k) == Some(r.value.challenges[k]))
        && r.value.endDate == FormatDate(ShiftDays(start, days - 1).value))
  {
    var parsed := ParseDate(startDate);
    if parsed.Err? {
      return Err(InvalidDate);
    }
    var current := parsed.value;
    CanonicalDatesAccepted("auto");
    var run := ChallengesFrom(date => GenerateDailyChallenge(date, "auto"), current, days);
    if run.None? {
      return Err(DateOutOfRange);
    }
    var challenges := run.value;
    AutoSelection(current, challenges);
    var last := ShiftDays(current, days - 1);
    if last.None? {
      return Err(DateOutOfRange);
    }
    return Ok(ChallengeRun(challenges, |challenges|, startDate, FormatDate(last.value)));
  }
}
