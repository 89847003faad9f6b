/** The `/validate` check: every submitted record is put on the valid or on the invalid list,
    in submission order; a record is valid when the five required fields are present and its
    `choices` has four elements. */
module Validation {
  import opened Outcomes

  /** A JSON value as the request body delivers it. */
  datatype Value =
    | Str(s: string)
    | Num(n: int)
    | Bool(b: bool)
    | Null
    | List(items: seq<Value>)
    | Obj(fields: map<string, Value>)

  /** A submitted question: a JSON object. */
  type Record = map<string, Value>

  const REQUIRED_FIELDS: seq<string> := ["stem", "choices", "answer", "domain", "difficulty"]

  /** Python's `len`: defined on strings, lists and objects; numbers, booleans and `null`
      raise `TypeError`. */
  function Len(v: Value): (n: Option<nat>)
    ensures n.Some? <==> v.Str? || v.List? || v.Obj?
    ensures v.Str? ==> n == Some(|v.s|)
    ensures v.List? ==> n == Some(|v.items|)
    ensures v.Obj? ==> n == Some(|v.fields|)
  {
    match v
    case Str(s) => Some(|s|)
    case List(items) => Some(|items|)
    case Obj(fields) => Some(|fields|)
    case _ => None
  }

  /** All five required fields are keys of the record. */
  predicate HasRequiredFields(q: Record) {
    "stem" in q && "choices" in q && "answer" in q && "domain" in q && "difficulty" in q
  }

  /** The validity rule: the required fields are present and `choices` has length 4. */
  predicate IsValid(q: Record) {
    HasRequiredFields(q) && Len(q["choices"]) == Some(4)
  }

  /** The verdict on one record, evaluated as Python's short-circuit `and` does: the length of
      `choices` is taken only when every required field is present, and taking it may fail. */
  function Check(q: Record): (r: Result<bool>)
    ensures r.Err? <==> HasRequiredFields(q) && Len(q["choices"]).None?
    ensures r.Err? ==> r.error == TypeMismatch
    ensures r.Ok? ==> (r.value <==> IsValid(q))
  {
    if !HasRequiredFields(q) then Ok(false)
    else match Len(q["choices"])
      case None => Err(TypeMismatch)
      case Some(n) => Ok(n == 4)
  }

  /** The records of `qs` whose validity is `valid`, in their order. */
  function Select(qs: seq<Record>, valid: bool): seq<Record>
    decreases |qs|
  {
    if qs == [] then []
    else
      var last := qs[|qs| - 1];
      Select(qs[..|qs| - 1], valid) + (if IsValid(last) == valid then [last] else [])
  }

  /** The response body: both lists and the three counts. */
  datatype Report = Report(
    validCount: int,
    invalidCount: int,
    totalCount: int,
    validQuestions: seq<Record>,
    invalidQuestions: seq<Record>)

  /** Every record can be judged without a `TypeError`. */
  predicate Checkable(qs: seq<Record>) {
    forall k :: 0 <= k < |qs| ==> Check(qs[k]).Ok?
  }

  /** The validation loop of `validate_questions`: no records is a 400 error, a `choices`
      without a length is a 500 error, and otherwise the records are split by validity. */
  method Validate(qs: seq<Record>) returns (r: Result<Report>)
    ensures r.Err? <==> qs == [] || !Checkable(qs)
    ensures r.Err? ==> r.error == (if qs == [] then NoQuestions else TypeMismatch)
    ensures r.Ok? ==> r.value.validQuestions == Select(qs, true)
    ensures r.Ok? ==> r.value.invalidQuestions == Select(qs, false)
    ensures r.Ok? ==> r.value.validCount == |r.value.validQuestions|
    ensures r.Ok? ==> r.value.invalidCount == |r.value.invalidQuestions|
    ensures r.Ok? ==> r.value.totalCount == |qs|
  {
    if qs == [] {
      return Err(NoQuestions);
    }
    var valid: seq<Record> := [];
    var invalid: seq<Record> := [];
    var i := 0;
    while i < |qs|
      invariant 0 <= i <= |qs|
      invariant Checkable(qs[..i])
      invariant valid == Select(qs[..i], true) && invalid == Select(qs[..i], false)
    {
      var q := qs[i];
      assert qs[..i + 1][..i] == qs[..i];
      match Check(q)
      case Err(_) =>
        return Err(TypeMismatch);
      case Ok(ok) =>
        if ok {
          valid := valid + [q];
        } else {
          invalid := invalid + [q];
        }
      i := i + 1;
    }
    assert qs[..i] == qs;
    return Ok(Report(|valid|, |invalid|, |qs|, valid, invalid));
  }

  /** Selection distributes over concatenation: it keeps the submission order. */
  lemma {:induction false} SelectAppend(a: seq<Record>, b: seq<Record>, valid: bool)
    ensures Select(a + b, valid) == Select(a, valid) + Select(b, valid)
    decreases |b|
  {
    if b == [] {
      assert a + b == a;
    } else {
      var init := b[..|b| - 1];
      assert (a + b)[..|a + b| - 1] == a + init;
      SelectAppend(a, init, valid);
    }
  }

  /** The two lists partition the input: together they hold every record exactly as often
      as the input does, so their lengths add up to the total. */
  lemma {:induction false} SelectPartition(qs: seq<Record>)
    ensures multiset(Select(qs, true)) + multiset(Select(qs, false)) == multiset(qs)
    ensures |Select(qs, true)| + |Select(qs, false)| == |qs|
    decreases |qs|
  {
    if qs != [] {
      var init, last := qs[..|qs| - 1], qs[|qs| - 1];
      SelectPartition(init);
      assert qs == init + [last];
      var v, w := Select(init, true), Select(init, false);
      if IsValid(last) {
        assert Select(qs, true) == v + [last] && Select(qs, false) == w;
      } else {
        assert Select(qs, true) == v && Select(qs, false) == w + [last];
      }
    }
  }

  /** A record is on the list of its own validity, and only records of the input are. */
  lemma {:induction false} SelectMembership(qs: seq<Record>, q: Record, valid: bool)
    ensures q in Select(qs, valid) <==> q in qs && IsValid(q) == valid
    decreases |qs|
  {
    if qs != [] {
      var init := qs[..|qs| - 1];
      SelectMembership(init, q, valid);
      assert qs == init + [qs[|qs| - 1]];
    }
  }

  /** `HasRequiredFields` asks for exactly the keys listed in `REQUIRED_FIELDS`. */
  lemma RequiredFieldsListed(q: Record)
    ensures HasRequiredFields(q) <==> forall j :: 0 <= j < |REQUIRED_FIELDS| ==> REQUIRED_FIELDS[j] in q
  {
    var f := REQUIRED_FIELDS;
    assert f[0] == "stem" && f[1] == "choices" && f[2] == "answer" && f[3] == "domain" && f[4] == "difficulty";
  }

  /** A record that lacks one of the required fields is invalid, whatever else it holds. */
  lemma MissingFieldInvalid(q: Record, k: int)
    requires 0 <= k < |REQUIRED_FIELDS| && REQUIRED_FIELDS[k] !in q
    ensures Check(q) == Ok(false)
  {
    RequiredFieldsListed(q);
  }

  /** With all required fields present and `choices` a list, the record is valid exactly
      when the list has four elements. */
  lemma ChoicesListDecides(q: Record)
    requires HasRequiredFields(q) && q["choices"].List?
    ensures Check(q) == Ok(|q["choices"].items| == 4)
  {
  }

  /** A complete record whose `choices` is a string is judged by the string's length, so
      four characters pass, as `len("abcd") == 4` does. */
  lemma ChoicesStringDecides(q: Record)
    requires HasRequiredFields(q) && q["choices"].Str?
    ensures Check(q) == Ok(|q["choices"].s| == 4)
  {
  }

  /** A complete record whose `choices` is a number makes the whole request fail. */
  lemma NumericChoicesFail(q: Record)
    requires HasRequiredFields(q) && q["choices"].Num?
    ensures Check(q) == Err(TypeMismatch)
  {
  }
}
