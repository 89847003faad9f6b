# Question and daily-challenge generation, modelled in Dafny

The server generates practice questions for five cognitive domains: quant, verbal, spatial,
logic and data. Each domain has a fixed bank of ten templates.

- **Question generation.** A request for `count` questions walks the bank in order. Once the
  bank is used up it cycles through it again and varies each stem by a substitution specific
  to the domain. Every question gets a random difficulty from the requested band.
- **Daily challenge.** The challenge for a date is one of five fixed puzzle records. The
  record is picked by the day of the year modulo five.
- **Bulk questions.** The bulk endpoint chains generation over every domain and every band.
- **Bulk daily challenges.** This endpoint walks a run of consecutive dates.
- **Validation.** The validation endpoint splits submitted records into valid and invalid
  lists. A record is valid when it has the five required fields and `choices` has four
  elements.

The model has seven modules, one file each:

- `outcomes.dfy`: the errors the server turns into HTTP statuses.
- `text.dfy`: Python's `str.replace`, which replaces every occurrence, and decimal digits.
- `calendar.dfy`: the proleptic Gregorian calendar of Python's `datetime`, years 1 to 9999.
  It covers:
  - `strptime('%Y-%m-%d')`, with the same leniency as Python: a one-digit month, and a
    one-digit day, optionally after a space;
  - `strftime('%Y-%m-%d')`;
  - `tm_yday`;
  - adding a `timedelta` in days, with an error outside the supported years.
- `questions.dfy`: `generate_questions_for_domain`. The generation loop is a method proved
  against the per-index specification `Conforms`.
- `daily_challenge.dfy`: `generate_daily_challenge_for_date`.
- `validation.dfy`: the validation loop of `validate_questions`, as a method proved against
  the selection function `Select`.
- `bulk.dfy`: the two bulk loops, as methods.
  - The question loop is proved against the sequence of batches it asks for, one batch per
    domain and positive band count.
  - The daily loop is proved against "the challenge of the start date shifted by k days".

Python exceptions are modelled as `Err` results. Each error names its cause, and `StatusOf`
gives the HTTP status the handler answers with.

Some behaviours of the code are easy to misread; the model follows the code:

- `str.replace` replaces every occurrence of the target, not only the first.
- The two quant substitutions run one after the other. The second one sees the result of
  the first.
- An unknown domain yields no questions only when `count <= 0`. Otherwise `i % len([])`
  raises `ZeroDivisionError`, and the endpoint answers 500.
- The bulk daily endpoint computes `end_date` from `days - 1` even when `days <= 0`. So zero
  days from 0001-01-01 is an out-of-range error, not an empty run.
- `strptime` accepts dates that are not in canonical form, such as `2024-1-5`. The challenge
  echoes the date exactly as it was given.

## Model

| member | source | states |
|---|---|---|
| Outcomes.StatusOf | simple_server.py:155-183 | the empty-questions error is the only 400; every other exception is a 500 |
| Questions.BandRange | simple_server.py:190-197 | each of the four named bands gets its table range; any other name gets (700, 1000); every range lies within 400..2000 |
| Questions.Bank | simple_server.py:200-263 | each of the five domains has ten templates; any other domain has an empty bank |
| Questions.BankWellFormed | simple_server.py:200-261 | every template has four distinct choices, and its answer is one of them |
| Questions.VaryStem | simple_server.py:274-290 | computes the domain's substitution for index i, the sequential `replace` calls of the quant branch included |
| Questions.GenerateFromBank | simple_server.py:263-307 | fails with a division by zero exactly when count > 0 and the bank is empty; otherwise returns max(count, 0) questions, and question k conforms to index k |
| Questions.GenerateQuestionsForDomain | simple_server.py:185-307 | fails exactly when count > 0 and the domain is unknown; otherwise returns max(count, 0) questions, each conforming to its index in the domain's bank |
| Questions.ConformingQuestionShape | simple_server.py:292-305 | a conforming question echoes domain and source, has explanation "Explanation for " + stem, has well-formed choices and a difficulty in the requested band |
| Questions.GeneratedQuestionShape | simple_server.py:263-305 | a question that conforms to a domain's bank belongs to a known domain and has four distinct choices containing its answer |
| Questions.VerbatimInsideBank | simple_server.py:266-268 | the first len(bank) questions copy their template's stem, choices and answer unchanged |
| Questions.VariedBeyondBank | simple_server.py:269-290 | later questions take template i mod len(bank), with its choices and answer, and the varied stem |
| Questions.VaryWithoutTargets | simple_server.py:274-290 | a stem that contains none of its domain's targets is left unchanged |
| Questions.SpatialVariationIdentity | simple_server.py:282-284 | for i divisible by 4 the spatial substitution replaces "north" by "north", so the stem is unchanged |
| Questions.DataVariationInsideLongerNumber | simple_server.py:288-290 | the data substitution also rewrites the "100" inside a longer number such as "1000" |
| Text.ReplaceAbsent | simple_server.py:277-290 | replacing a pattern the text does not contain returns the text unchanged |
| Text.ReplaceBySelf | simple_server.py:284 | replacing a pattern by itself returns the text unchanged |
| Text.ReplaceLeftmost | simple_server.py:277-290 | the leftmost occurrence is replaced, the prefix before it is kept, and replacement continues after the occurrence |
| Text.ReplaceAfterPrefix | simple_server.py:277-290 | a prefix free of the pattern's first character passes through replacement unchanged |
| Text.NatToStringRoundTrip | simple_server.py:277-290 | `str(n)` is a non-empty digit string without a leading zero, and its decimal value is n |
| Text.PadDigitsRoundTrip | simple_server.py:132 | writing n zero-padded to w digits and reading it back gives n, whenever n has at most w digits |
| Text.DigitsPadRoundTrip | simple_server.py:313 | every digit string is the zero-padded form of its own value |
| Calendar.DaysInMonth | simple_server.py:313 | months have 28 to 31 days; a month has 29 days exactly when it is February of a leap year |
| Calendar.DayOfYear | simple_server.py:314 | `tm_yday` lies between 1 and the length of the year |
| Calendar.NextDayOfYear | simple_server.py:314 | within a year the next day has the next `tm_yday`; across a new year it goes from the year's last day to 1 |
| Calendar.DaysBeforeYearClosedForm | simple_server.py:129-130 | the days before a year, counted year by year, equal the Gregorian formula 365p + p/4 - p/100 + p/400 with p = year - 1 |
| Calendar.SupportedYearsLength | simple_server.py:129-130 | the years 1 to 9999 hold 3652059 days, the largest ordinal of `datetime` |
| Calendar.OrdinalBounds | simple_server.py:129-130 | every valid date has an ordinal in 1..3652059; only 0001-01-01 has 1, and only 9999-12-31 has the largest |
| Calendar.OrdinalInjective | simple_server.py:129-130 | two valid dates with the same ordinal are the same date |
| Calendar.NextDayOrdinal | simple_server.py:129-130 | only 9999-12-31 has no next day; every other next day is valid and one ordinal later |
| Calendar.PrevDayOrdinal | simple_server.py:142 | only 0001-01-01 has no previous day; every other previous day is valid and one ordinal earlier |
| Calendar.ShiftDaysOrdinal | simple_server.py:129-142 | `date + timedelta(days=n)` exists exactly when the target ordinal lies in 1..3652059, and then it is the valid date with that ordinal |
| Calendar.ShiftBeyondRange | simple_server.py:129-135 | once a shift overflows, every larger forward shift overflows too |
| Calendar.FormatDate | simple_server.py:132 | `strftime('%Y-%m-%d')`, with the year written zero-padded to four digits, gives a canonical form: ten characters, a four-digit year, then dash, two digits, dash, two digits |
| Calendar.FieldValue | simple_server.py:313 | the month fields `strptime` accepts denote 1..12, and the day fields denote 1..31 |
| Calendar.ParseDate | simple_server.py:313 | a successful `strptime` yields a valid calendar date; every failure is an invalid-date error |
| Calendar.ParseShape | simple_server.py:313 | every text `strptime` accepts is a four-digit year, a dash, a month field, a dash and a day field, and it parses to the date they name; text of any other shape is refused |
| Calendar.ParseFields | simple_server.py:313 | a four-digit year with an accepted month field and day field parses exactly when the date they denote exists |
| Calendar.TwoDigitFields | simple_server.py:313 | a two-digit field is accepted as a month exactly when it is 01..12, and as a day exactly when it is 01..31 |
| Calendar.ParseCanonical | simple_server.py:313 | a zero-padded year-month-day text parses exactly when the date exists, and then to that date |
| Calendar.ParseFormatRoundTrip | simple_server.py:130-134 | parsing the `strftime` text of a valid date gives back that date |
| Calendar.FormatParseRoundTrip | simple_server.py:313 | formatting a parsed date gives back the input text exactly when the input is canonical |
| Calendar.ParseFirstOfJanuary2024 | simple_server.py:313 | "2024-01-01" parses to 1 January 2024 |
| Calendar.ParseFifthOfJanuary2024 | simple_server.py:313 | "2024-01-05" parses to 5 January 2024 |
| Calendar.ParseShortFields | simple_server.py:313 | "2024-1-5" and "2024-01- 5" are both accepted as 5 January 2024 |
| Calendar.NoThirteenthMonth | simple_server.py:313 | "2024-13-01" is refused |
| Calendar.NoLeapDayIn2023 | simple_server.py:313 | "2023-02-29" is refused |
| DailyChallenge.GenerateDailyChallenge | simple_server.py:309-412 | succeeds exactly when the date parses; the record is the archetype of its `tm_yday` mod 5; the metadata echoes the given date and names that archetype |
| DailyChallenge.CanonicalDateChallenge | simple_server.py:131-134 | the challenge for a formatted valid date is that date's archetype record, with the formatted date as metadata |
| DailyChallenge.CanonicalDatesAccepted | simple_server.py:131-134 | every valid date, once formatted, yields a challenge |
| DailyChallenge.NameInjective | simple_server.py:316-324 | the five challenge type names are distinct |
| DailyChallenge.RequestedTypeIgnored | simple_server.py:309-324 | the requested challenge type has no effect on the result |
| DailyChallenge.RecordWellFormed | simple_server.py:326-410 | every record has four distinct choices containing its answer, a known domain, an expert-band difficulty and source "daily_challenge" |
| DailyChallenge.ArchetypeAdvancesDaily | simple_server.py:314-324 | within a year, the next day's archetype is the next one in the cycle of five |
| DailyChallenge.NewYearArchetype | simple_server.py:314-324 | every 1 January, with `tm_yday` 1, is a cross-domain logic challenge |
| DailyChallenge.FirstOfJanuary2024 | simple_server.py:344-359 | 2024-01-01 yields the cross-domain logic record, whose answer is "David" |
| DailyChallenge.FifthOfJanuary2024 | simple_server.py:327-342 | 2024-01-05 yields the multi-step quant record, whose answer is "3:30 PM" |
| DailyChallenge.ShortDateEchoed | simple_server.py:313-342 | "2024-1-5" is accepted and echoed unchanged in the metadata |
| DailyChallenge.NoChallengeForMissingDay | simple_server.py:313 | a non-existent date is an invalid-date error |
| Validation.Len | simple_server.py:167 | `len` is defined exactly on strings, lists and objects: the character count of a string, the element count of a list, the key count of an object |
| Validation.Check | simple_server.py:164-167 | the verdict fails with a type error exactly when all fields are present but `choices` has no length; otherwise the verdict is the validity rule |
| Validation.Validate | simple_server.py:155-176 | no questions gives the 400 error, and an unmeasurable `choices` gives the 500 error; otherwise the valid and invalid lists are the input's valid and invalid records in order, with their counts and the total |
| Validation.SelectAppend | simple_server.py:162-170 | the selection of a concatenation is the concatenation of the selections, so submission order is kept |
| Validation.SelectPartition | simple_server.py:162-176 | the valid and invalid lists together are a permutation of the input, and so their counts add up to the total |
| Validation.SelectMembership | simple_server.py:162-170 | a record is on a list exactly when it was submitted and its validity matches that list |
| Validation.RequiredFieldsListed | simple_server.py:164-165 | the presence test checks exactly the five listed fields |
| Validation.MissingFieldInvalid | simple_server.py:164-170 | a record lacking any required field is judged invalid, without error |
| Validation.ChoicesListDecides | simple_server.py:167-170 | with every field present and `choices` a list, the record is valid exactly when the list has four elements |
| Validation.ChoicesStringDecides | simple_server.py:167-170 | with every field present and `choices` a string, the record is valid exactly when the string has four characters |
| Validation.NumericChoicesFail | simple_server.py:167 | a complete record whose `choices` is a number raises a type error |
| Bulk.ConcatenatesLength | simple_server.py:105-110 | the concatenation of the batches has the total count of the batches as its length |
| Bulk.DomainBatchesTotal | simple_server.py:101-105 | the batches of one domain hold the sum of the positive band counts |
| Bulk.BatchesTotal | simple_server.py:100-105 | all batches together hold the number of domains times the sum of the positive band counts |
| Bulk.ExtendForDomain | simple_server.py:101-105 | extending with one domain fails exactly when its bank is empty and some band count is positive; otherwise it appends that domain's batches |
| Bulk.GenerateBulkFrom | simple_server.py:98-105 | fails exactly when some domain has an empty bank and some band count is positive; otherwise the result is the batches in loop order, of length domains times the positive sum |
| Bulk.GenerateBulkQuestions | simple_server.py:98-113 | the same, with the server's banks: an unknown domain fails once a band count is positive |
| Bulk.AutoSelection | simple_server.py:129-135 | challenges produced by the auto selection on the shifted, formatted dates are the challenges of the start date shifted by k days |
| Bulk.ChallengesFrom | simple_server.py:126-135 | the loop fails exactly when the last shifted date leaves the calendar; otherwise it returns max(days, 0) challenges, and challenge k is the selection for start + k days |
| Bulk.GenerateDailyChallengesBulk | simple_server.py:126-143 | an unparsable start date is an invalid-date error; an out-of-range start + (days - 1) is a range error; otherwise the run has max(days, 0) challenges, challenge k is the start shifted by k days, the start date is echoed, and the end date is the formatted start + (days - 1) |

## Left out

- HTTP plumbing is not modelled: the Flask routes, JSON request parsing, `jsonify`, CORS and
  the response envelopes (`success`, the echoed `domain`, `difficulty_range`, `type`,
  `domains` and `distribution`). The health endpoint, the `pip` fallback import, `app.run`,
  the `PORT` setting and the start-up prints are left out because they compute nothing.
- Request defaults taken from `data.get(...)` are not modelled: `today` as the default date,
  the default domains, counts and distribution. The model takes these values as parameters.
- The `created_at` field of generated questions and of challenges holds the wall clock. It is
  not part of the modelled records.
- Questions.GenerateFromBank: `random.randint(min_diff, max_diff)` is modelled as an arbitrary
  choice within the band. The contract therefore states band membership only, not any
  distribution.
- Bulk.GenerateBulkQuestions: the band counts arrive already computed. Each one is
  `int(questions_per_domain * percentage)`, a floating-point product truncated toward zero,
  and the model does not compute it. The distribution is an ordered sequence of pairs,
  standing for the insertion order of the Python dictionary.
- The `success_rate` of `/validate` is a floating-point quotient and is not modelled.
- Validation.Validate: the records are typed as JSON objects. Some Python behaviours on other
  inputs are therefore not modelled:
  - a non-object item, such as a string item where `field in question` tests substrings;
  - a non-list `questions` value;
  - the unused `[]` default of `question.get('choices', [])`.
- Non-integer `count` or `days` values, and the `TypeError` they raise, are not modelled.
- Calendar.FormatDate: the model always writes the year zero-padded to four digits.
  Python hands `%Y` to the C library's `strftime`. On some platforms and Python versions,
  glibc among them, years below 1000 come out unpadded, such as `999-12-31`. `strptime`
  then rejects that text, and a bulk run through such a year fails with a 500. The model
  does not capture that failure: `CanonicalDatesAccepted` and `ChallengesFrom` hold only
  for the padded form.
- Calendar.ParseDate: `\d` in Python's `strptime` also matches non-ASCII Unicode digits. The
  model accepts ASCII digits only.
- The loops of `bulk.dfy` take the bank and the per-date challenge as function parameters.
  `GenerateBulkQuestions` and `GenerateDailyChallengesBulk` supply the server's own banks and
  challenge function.
- `app.py` is not part of this model.
