/**
 * The customer-line parser and the two stages of the ETL examples
 * (examples/etl.rs and its copy in examples/etl_split.rs). A line is
 * `<letters> <letters>,<decimal u8>` followed by the rest of the line; the
 * parsers follow nom's `alpha1`, `tag` and `character::complete::u8`, and return
 * the unconsumed rest together with what they parsed.
 */
module Etl {
  import opened Wrappers
  import opened Stages
  import opened Chains

  /** Rust's `u8`. */
  newtype u8 = x: int | 0 <= x < 256

  /** What a parser returns on success: the unconsumed input and the parsed value. */
  datatype Parsed<T> = Parsed(rest: string, output: T)

  datatype Customer = Customer(customerName: string, age: u8)

  /** nom's `alpha1` accepts ASCII letters only. */
  predicate IsAlpha(c: char)
  {
    'a' <= c <= 'z' || 'A' <= c <= 'Z'
  }

  predicate IsDigit(c: char)
  {
    '0' <= c <= '9'
  }

  predicate AllAlpha(s: string)
  {
    forall i :: 0 <= i < |s| ==> IsAlpha(s[i])
  }

  /** The input does not start with a letter (so a greedy letter run stops here). */
  predicate StopsLetters(s: string)
  {
    s == [] || !IsAlpha(s[0])
  }

  /** The input does not start with a digit (so a greedy digit run stops here). */
  predicate StopsDigits(s: string)
  {
    s == [] || !IsDigit(s[0])
  }

  /** `rest` is what is left at the end of `s`. */
  predicate EndsWith(s: string, rest: string)
  {
    |rest| <= |s| && s[|s| - |rest|..] == rest
  }

  /** The length of the leading run of letters. */
  function LetterRun(s: string): (n: nat)
    ensures n <= |s| && AllAlpha(s[..n]) && StopsLetters(s[n..])
  {
    if s == [] || !IsAlpha(s[0]) then 0
    else
      var n := 1 + LetterRun(s[1..]);
      assert s[..n] == [s[0]] + s[1..][..n - 1];
      n
  }

  /** `parse_name_part` (`alpha1`): a non-empty leading run of letters, taken whole. */
  function ParseNamePart(s: string): (r: Result<Parsed<string>>)
    ensures r.Ok? <==> s != [] && IsAlpha(s[0])
    ensures r.Ok? ==> && r.value.output + r.value.rest == s
                      && r.value.output != [] && AllAlpha(r.value.output)
                      && StopsLetters(r.value.rest)
  {
    var n := LetterRun(s);
    if n == 0 then Err else Ok(Parsed(s[n..], s[..n]))
  }

  /** A name part is taken up to the first character that is not a letter. */
  lemma NamePartOf(name: string, rest: string)
    requires name != [] && AllAlpha(name) && StopsLetters(rest)
    ensures ParseNamePart(name + rest) == Ok(Parsed(rest, name))
    decreases |name|
  {
    var s := name + rest;
    if |name| > 1 {
      NamePartOf(name[1..], rest);
      assert s[1..] == name[1..] + rest;
    } else {
      assert s[1..] == rest;
    }
  }

  /** Letters, one space, letters. */
  predicate IsFullName(name: string)
  {
    exists i :: 0 < i < |name| - 1 && name[i] == ' ' && AllAlpha(name[..i]) && AllAlpha(name[i + 1..])
  }

  /** `parse_full_name`: letters, exactly one space, letters; the name is rebuilt as "first last". */
  function ParseFullName(s: string): (r: Result<Parsed<string>>)
    ensures r.Ok? ==> r.value.output + r.value.rest == s && StopsLetters(r.value.rest)
  {
    var first := ParseNamePart(s);
    if first.Err? then Err
    else
      var afterFirst := first.value.rest;
      if afterFirst == [] || afterFirst[0] != ' ' then Err
      else
        var last := ParseNamePart(afterFirst[1..]);
        if last.Err? then Err
        else
          Reassemble(first.value.output, afterFirst, last.value.output, last.value.rest);
          Ok(Parsed(last.value.rest, first.value.output + " " + last.value.output))
  }

  /** Putting a name back together: the first part, the space it was followed by, the last part and the rest. */
  lemma Reassemble(first: string, afterFirst: string, last: string, rest: string)
    requires afterFirst != [] && afterFirst[0] == ' ' && afterFirst[1..] == last + rest
    ensures first + " " + last + rest == first + afterFirst
  {
    assert afterFirst == " " + afterFirst[1..];
  }

  /** What `parse_full_name` accepts is a full name. */
  lemma FullNameShape(s: string)
    requires ParseFullName(s).Ok?
    ensures IsFullName(ParseFullName(s).value.output)
  {
    var first := ParseNamePart(s).value.output;
    var last := ParseNamePart(ParseNamePart(s).value.rest[1..]).value.output;
    var name := first + " " + last;
    assert name[..|first|] == first && name[|first| + 1..] == last && name[|first|] == ' ';
  }

  /** A full name followed by something that is not a letter parses back to itself. */
  lemma FullNameOf(first: string, last: string, rest: string)
    requires first != [] && AllAlpha(first) && last != [] && AllAlpha(last) && StopsLetters(rest)
    ensures ParseFullName(first + " " + last + rest) == Ok(Parsed(rest, first + " " + last))
  {
    var tail := " " + last + rest;
    assert first + " " + last + rest == first + tail;
    assert tail[0] == ' ' && tail[1..] == last + rest;
    NamePartOf(first, tail);
    NamePartOf(last, rest);
  }

  function DigitValue(c: char): (d: nat)
    requires IsDigit(c)
    ensures d < 10
  {
    (c as int) - ('0' as int)
  }

  function DigitChar(d: nat): (c: char)
    requires d < 10
    ensures IsDigit(c) && DigitValue(c) == d
  {
    (('0' as int) + d) as char
  }

  /** The value of a run of digits read left to right, starting from `value`. */
  function Accumulated(digits: string, value: nat): nat
    requires forall i :: 0 <= i < |digits| ==> IsDigit(digits[i])
  {
    if digits == [] then value else Accumulated(digits[1..], value * 10 + DigitValue(digits[0]))
  }

  /**
   * nom's `u8` digit loop: each digit multiplies the value by ten and adds
   * itself, and the parse fails as soon as the value would not fit in a `u8`.
   */
  function U8Digits(s: string, value: u8): (r: Result<Parsed<u8>>)
    ensures r.Ok? ==> StopsDigits(r.value.rest) && EndsWith(s, r.value.rest)
    decreases |s|
  {
    if s == [] || !IsDigit(s[0]) then Ok(Parsed(s, value))
    else
      var next := value as int * 10 + DigitValue(s[0]);
      if next > 255 then Err else U8Digits(s[1..], next as u8)
  }

  /** `parse_age` (nom's `u8`): at least one digit, and the value must fit in a `u8`. */
  function ParseAge(s: string): (r: Result<Parsed<u8>>)
    ensures r.Ok? ==> |r.value.rest| < |s| && EndsWith(s, r.value.rest) && StopsDigits(r.value.rest)
  {
    if s == [] || !IsDigit(s[0]) then Err else U8Digits(s, 0)
  }

  /** Reading from a larger start value never gives less. */
  lemma {:induction false} AccumulatedAtLeast(digits: string, value: nat)
    requires forall i :: 0 <= i < |digits| ==> IsDigit(digits[i])
    ensures Accumulated(digits, value) >= value
    decreases |digits|
  {
    if digits != [] {
      AccumulatedAtLeast(digits[1..], value * 10 + DigitValue(digits[0]));
    }
  }

  /** The digit loop reads the whole digit run: it yields the run's value if that fits, and fails otherwise. */
  lemma {:induction false} U8DigitsOf(digits: string, value: u8, rest: string)
    requires forall i :: 0 <= i < |digits| ==> IsDigit(digits[i])
    requires StopsDigits(rest)
    ensures Accumulated(digits, value as nat) <= 255 ==>
              U8Digits(digits + rest, value) == Ok(Parsed(rest, Accumulated(digits, value as nat) as u8))
    ensures Accumulated(digits, value as nat) > 255 ==> U8Digits(digits + rest, value) == Err
    decreases |digits|
  {
    if digits == [] {
      assert digits + rest == rest;
    } else {
      var s := digits + rest;
      var next := value as int * 10 + DigitValue(digits[0]);
      assert s[0] == digits[0] && s[1..] == digits[1..] + rest;
      AccumulatedAtLeast(digits[1..], next);
      if next <= 255 {
        U8DigitsOf(digits[1..], next as u8, rest);
      }
    }
  }

  /**
   * `parse_age` on a digit run followed by a non-digit: the run's value when it
   * fits in a `u8`, a failure when it does not.
   */
  lemma ParseAgeOf(digits: string, rest: string)
    requires digits != [] && (forall i :: 0 <= i < |digits| ==> IsDigit(digits[i])) && StopsDigits(rest)
    ensures Accumulated(digits, 0) <= 255 ==> ParseAge(digits + rest) == Ok(Parsed(rest, Accumulated(digits, 0) as u8))
    ensures Accumulated(digits, 0) > 255 ==> ParseAge(digits + rest) == Err
  {
    assert (digits + rest)[0] == digits[0];
    U8DigitsOf(digits, 0, rest);
  }

  /** The decimal text of a number, without leading zeros, as `format!` writes it. */
  function Decimal(n: nat): (s: string)
    ensures s != [] && forall i :: 0 <= i < |s| ==> IsDigit(s[i])
  {
    if n < 10 then [DigitChar(n)] else Decimal(n / 10) + [DigitChar(n % 10)]
  }

  /** Appending a digit multiplies the value read so far by ten and adds the digit. */
  lemma {:induction false} AccumulatedSnoc(digits: string, c: char, value: nat)
    requires (forall i :: 0 <= i < |digits| ==> IsDigit(digits[i])) && IsDigit(c)
    ensures Accumulated(digits + [c], value) == Accumulated(digits, value) * 10 + DigitValue(c)
    decreases |digits|
  {
    if digits == [] {
      assert [] + [c] == [c] && [c][1..] == [];
    } else {
      assert (digits + [c])[1..] == digits[1..] + [c];
      AccumulatedSnoc(digits[1..], c, value * 10 + DigitValue(digits[0]));
    }
  }

  /** Reading the decimal text of `n` gives `n` back. */
  lemma {:induction false} DecimalValue(n: nat)
    ensures Accumulated(Decimal(n), 0) == n
  {
    if n < 10 {
      assert [DigitChar(n)][1..] == [];
    } else {
      DecimalValue(n / 10);
      AccumulatedSnoc(Decimal(n / 10), DigitChar(n % 10), 0);
    }
  }

  /** The part of `parse_customer` after the name: a comma, then the age. */
  function ParseCommaAge(s: string): (r: Result<Parsed<u8>>)
    ensures r.Ok? ==> && StopsDigits(r.value.rest) && 1 + |r.value.rest| < |s|
                      && s[0] == ',' && EndsWith(s, r.value.rest)
  {
    if s == [] || s[0] != ',' then Err
    else
      var age := ParseAge(s[1..]);
      if age.Err? then Err
      else
        assert s[|s| - |age.value.rest|..] == s[1..][|s[1..]| - |age.value.rest|..];
        age
  }

  /** `parse_customer`: full name, a comma, then the age. */
  function ParseCustomer(s: string): (r: Result<Parsed<Customer>>)
    ensures r.Ok? ==> StopsDigits(r.value.rest)
  {
    var fullName := ParseFullName(s);
    if fullName.Err? then Err
    else
      var age := ParseCommaAge(fullName.value.rest);
      if age.Err? then Err
      else Ok(Parsed(age.value.rest, Customer(fullName.value.output, age.value.output)))
  }

  /** What is left after a parse of the tail `q` of `s == p + q` is also what is left of `s`. */
  lemma SuffixOfAppend(s: string, p: string, q: string, rest: string)
    requires s == p + q && 1 + |rest| < |q| && EndsWith(q, rest)
    ensures |p| + 1 + |rest| < |s| && EndsWith(s, rest)
  {
    assert s[|s| - |rest|..] == q[|q| - |rest|..];
  }

  /** What `parse_customer` accepts starts with a full name and a comma. */
  lemma CustomerShape(s: string)
    requires ParseCustomer(s).Ok?
    ensures var name := ParseCustomer(s).value.output.customerName;
            IsFullName(name) && s[..|name|] == name && s[|name|] == ','
  {
    FullNameShape(s);
    var fullName := ParseFullName(s).value;
    assert s == fullName.output + fullName.rest;
  }

  /**
   * What `parse_customer` leaves is a proper suffix of its input, past the
   * name, the comma and at least one digit.
   */
  lemma CustomerRest(s: string)
    requires ParseCustomer(s).Ok?
    ensures var r := ParseCustomer(s).value;
            |r.output.customerName| + 1 + |r.rest| < |s| && EndsWith(s, r.rest)
  {
    var fullName := ParseFullName(s).value;
    SuffixOfAppend(s, fullName.output, fullName.rest, ParseCommaAge(fullName.rest).value.rest);
  }

  /**
   * The line format round-trips: for letter runs `first` and `last` and any
   * `u8` age, "first last,<age>" followed by a non-digit parses back to that
   * customer with exactly the following text left over.
   */
  lemma CustomerRoundTrip(first: string, last: string, age: u8, rest: string)
    requires first != [] && AllAlpha(first) && last != [] && AllAlpha(last) && StopsDigits(rest)
    ensures ParseCustomer(first + " " + last + "," + Decimal(age as nat) + rest) ==
              Ok(Parsed(rest, Customer(first + " " + last, age)))
  {
    var tail := "," + Decimal(age as nat) + rest;
    assert first + " " + last + "," + Decimal(age as nat) + rest == first + " " + last + tail;
    FullNameOf(first, last, tail);
    CommaAgeOf(age, rest);
  }

  /** A comma and the decimal text of an age, followed by a non-digit, parse back to that age. */
  lemma CommaAgeOf(age: u8, rest: string)
    requires StopsDigits(rest)
    ensures ParseCommaAge("," + Decimal(age as nat) + rest) == Ok(Parsed(rest, age))
  {
    var digits := Decimal(age as nat);
    assert ("," + digits + rest)[1..] == digits + rest;
    DecimalValue(age as nat);
    ParseAgeOf(digits, rest);
  }

  /** The check made before every parse: a line starting with a digit is rejected. */
  lemma DigitLineRejected()
    ensures ParseCustomer("1,2").Err?
  {
  }

  /**
   * `ParseStringToCustomer` on a received line: the parse must succeed and leave
   * exactly "\n"; either failure is a panic, written `Err`.
   */
  function ParseLine(line: string): (r: Result<Customer>)
    ensures r.Ok? <==> ParseCustomer(line).Ok? && ParseCustomer(line).value.rest == "\n"
    ensures r.Ok? ==> r.value == ParseCustomer(line).value.output
  {
    match ParseCustomer(line)
    case Err => Err
    case Ok(Parsed(rest, customer)) => if rest == "\n" then Ok(customer) else Err
  }

  /** A line as written to the input file is accepted and gives back its customer. */
  lemma ParseLineRoundTrip(first: string, last: string, age: u8)
    requires first != [] && AllAlpha(first) && last != [] && AllAlpha(last)
    ensures ParseLine(first + " " + last + "," + Decimal(age as nat) + "\n") == Ok(Customer(first + " " + last, age))
  {
    CustomerRoundTrip(first, last, age, "\n");
  }

  /** The values passed along the ETL pipeline: a line of text, a customer, an insertion result. */
  datatype Row = Line(text: string) | Record(customer: Customer) | Inserted(ok: bool)

  /** The stage configurations: the parser has none, the inserter holds a repository name. */
  datatype Setup = Parser | Repository(name: string)

  /** `ParseStringToCustomer` as a link map: a line becomes its customer; a panic yields no output. */
  function ParseStringToCustomer(v: Row): (r: Option<Row>)
    ensures r.Some? <==> v.Line? && ParseLine(v.text).Ok?
    ensures r.Some? ==> r.value == Record(ParseLine(v.text).value)
  {
    if v.Line? && ParseLine(v.text).Ok? then Some(Record(ParseLine(v.text).value)) else None
  }

  /** `InsertCustomerIntoDatabase` as a link map: every received customer is reported inserted. */
  function InsertCustomerIntoDatabase(v: Row): (r: Option<Row>)
    ensures r.Some? <==> v.Record?
    ensures r.Some? ==> r.value == Inserted(true)
  {
    if v.Record? then Some(Inserted(true)) else None
  }

  /** The stateless links of the parse-and-insert part of `EtlProcess`. */
  function ParseAndInsertMaps(): seq<Row -> Option<Row>>
  {
    [ParseStringToCustomer, InsertCustomerIntoDatabase]
  }

  /** A line passed through the parse and insert maps: `true` for a well-formed line, nothing otherwise. */
  lemma ParseThenInsert(line: string)
    ensures Compose(ParseAndInsertMaps(), Some(Line(line))) == if ParseLine(line).Ok? then Some(Inserted(true)) else None
  {
    var fs := ParseAndInsertMaps();
    assert fs[1..] == [InsertCustomerIntoDatabase] && fs[1..][1..] == [];
    var parsed := ParseStringToCustomer(Line(line));
    assert Compose(fs, Some(Line(line))) == Compose(fs[1..], parsed);
    if parsed.Some? {
      assert Compose(fs[1..], parsed) == Compose(fs[1..][1..], InsertCustomerIntoDatabase(parsed.value));
    }
  }

  /**
   * The parse-and-insert part of `EtlProcess`, given one line: `process` then
   * `try_pop` yields `true` for a well-formed line and nothing for a malformed one.
   */
  method ParseAndInsert(line: string) returns (response: Option<Row>)
    ensures ParseLine(line).Ok? ==> response == Some(Inserted(true))
    ensures ParseLine(line).Err? ==> response == None
  {
    var fs := ParseAndInsertMaps();
    var ts := [MapLink(ParseStringToCustomer), MapLink(InsertCustomerIntoDatabase)];
    var configs := [Parser, Repository("")];
    var chain := new Chain<Setup, Row>(configs, ts);
    chain.Push(Line(line));
    var processed := chain.Process(2);
    response := chain.TryPop();
    OneInputThroughMaps(fs, ts, configs, Line(line), 2);
    ParseThenInsert(line);
  }
}
