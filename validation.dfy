/**
 * The form's input rules: four text fields, each with one syntactic rule and one
 * error message.  Validation never compares the security code with the challenge;
 * that happens in the verification step.
 */
module Validation {
  import opened Wrappers
  import opened Decimal

  datatype Field = IdNumber | GraduationDate | DiplomaNumber | SecurityCode

  /** The four fields as typed; all start out as "". */
  datatype RawInput = RawInput(idNumber: string, graduationDate: string, diplomaNumber: string, securityCode: string)

  /** Fields that passed every rule; the value that reaches the submit handler. */
  datatype QueryInput = QueryInput(idNumber: string, graduationDate: string, diplomaNumber: string, securityCode: string)

  const IdNumberMessage: string := "T.C. Kimlik No veya Öğrenci No en az 10 karakter olmalıdır"
  const GraduationDateMessage: string := "Tarih formatı: AA/GG/YYYY"
  const DiplomaNumberMessage: string := "Diploma numarası gereklidir"
  const SecurityCodeMessage: string := "Güvenlik kodu gereklidir"

  const MinIdLength: nat := 10

  /**
   * The length JavaScript reports for a string: UTF-16 code units, so a character
   * outside the Basic Multilingual Plane counts twice.
   */
  function Utf16Length(s: string): nat
    decreases |s|
  {
    if s == [] then 0 else Utf16Length(s[..|s| - 1]) + (if s[|s| - 1] as int > 0xFFFF then 2 else 1)
  }

  /** At least one code unit per character, and exactly one each when no character lies above U+FFFF. */
  lemma {:induction false} Utf16LengthBounds(s: string)
    ensures |s| <= Utf16Length(s) <= 2 * |s|
    ensures (forall i :: 0 <= i < |s| ==> s[i] as int <= 0xFFFF) ==> Utf16Length(s) == |s|
    decreases |s|
  {
    if s != [] {
      Utf16LengthBounds(s[..|s| - 1]);
    }
  }

  /** One position of a regular expression without alternation or repetition. */
  datatype Atom = AnyDigit | Literal(c: char)

  /** `^\d{2}\/\d{2}\/\d{4}$` written out atom by atom. */
  const DatePattern: seq<Atom> :=
    [AnyDigit, AnyDigit, Literal('/'), AnyDigit, AnyDigit, Literal('/'), AnyDigit, AnyDigit, AnyDigit, AnyDigit]

  predicate AtomMatches(a: Atom, c: char) {
    match a
    case AnyDigit => IsDigit(c)
    case Literal(x) => c == x
  }

  /** Whole-string match of an anchored pattern: `^` at the front, `$` (end of input) at the back. */
  predicate FullMatch(p: seq<Atom>, s: string)
    decreases |p|
  {
    if p == [] then s == []
    else s != [] && AtomMatches(p[0], s[0]) && FullMatch(p[1..], s[1..])
  }

  /** A full match consumes one character per atom, each matching its atom. */
  lemma {:induction false} FullMatchPositionwise(p: seq<Atom>, s: string)
    ensures FullMatch(p, s) <==> |s| == |p| && forall i :: 0 <= i < |p| ==> AtomMatches(p[i], s[i])
    decreases |p|
  {
    if p != [] && s != [] {
      FullMatchPositionwise(p[1..], s[1..]);
      if |s| == |p| && forall i :: 0 <= i < |p| ==> AtomMatches(p[i], s[i]) {
        assert AtomMatches(p[0], s[0]);
        forall i | 0 <= i < |p| - 1 ensures AtomMatches(p[1..][i], s[1..][i]) {
          assert AtomMatches(p[i + 1], s[i + 1]);
        }
      }
    }
  }

  predicate IsGraduationDate(s: string) {
    FullMatch(DatePattern, s)
  }

  /** The date rule in plain terms: ten characters, '/' at positions 2 and 5, an ASCII digit everywhere else. */
  lemma GraduationDateShape(s: string)
    ensures IsGraduationDate(s) <==>
      |s| == 10 && s[2] == '/' && s[5] == '/' &&
      forall i :: 0 <= i < 10 && i != 2 && i != 5 ==> IsDigit(s[i])
  {
    FullMatchPositionwise(DatePattern, s);
    if |s| == 10 && s[2] == '/' && s[5] == '/' && forall i :: 0 <= i < 10 && i != 2 && i != 5 ==> IsDigit(s[i]) {
      forall i | 0 <= i < 10 ensures AtomMatches(DatePattern[i], s[i]) {
        if i != 2 && i != 5 { assert IsDigit(s[i]); }
      }
    }
    if IsGraduationDate(s) {
      assert AtomMatches(DatePattern[2], s[2]) && AtomMatches(DatePattern[5], s[5]);
      forall i | 0 <= i < 10 && i != 2 && i != 5 ensures IsDigit(s[i]) {
        assert AtomMatches(DatePattern[i], s[i]);
      }
    }
  }

  /** The rule of one field. */
  predicate FieldOk(raw: RawInput, f: Field) {
    match f
    case IdNumber => Utf16Length(raw.idNumber) >= MinIdLength
    case GraduationDate => IsGraduationDate(raw.graduationDate)
    case DiplomaNumber => Utf16Length(raw.diplomaNumber) >= 1
    case SecurityCode => Utf16Length(raw.securityCode) >= 1
  }

  function Message(f: Field): string {
    match f
    case IdNumber => IdNumberMessage
    case GraduationDate => GraduationDateMessage
    case DiplomaNumber => DiplomaNumberMessage
    case SecurityCode => SecurityCodeMessage
  }

  const AllFields: set<Field> := {IdNumber, GraduationDate, DiplomaNumber, SecurityCode}

  lemma EveryFieldListed()
    ensures forall f: Field :: f in AllFields
  {
    forall f: Field ensures f in AllFields {
      match f
      case IdNumber =>
      case GraduationDate =>
      case DiplomaNumber =>
      case SecurityCode =>
    }
  }

  /** The message of every field that breaks its rule. */
  function FieldErrors(raw: RawInput): map<Field, string> {
    map f | f in AllFields && !FieldOk(raw, f) :: Message(f)
  }

  lemma FieldErrorsExact(raw: RawInput)
    ensures forall f :: f in FieldErrors(raw) <==> !FieldOk(raw, f)
    ensures (forall f :: FieldOk(raw, f)) <==> FieldErrors(raw).Keys == {}
  {
    EveryFieldListed();
    if FieldErrors(raw).Keys == {} {
      forall f ensures FieldOk(raw, f) {
        assert f !in FieldErrors(raw).Keys;
      }
    }
  }

  /**
   * Checks all four fields together: either the validated input, with every field
   * unchanged, or the message of each failing field and of no other.
   */
  function Validate(raw: RawInput): (r: Result<QueryInput, map<Field, string>>)
    ensures r.Ok? <==> forall f :: FieldOk(raw, f)
    ensures r.Ok? ==> r.value == QueryInput(raw.idNumber, raw.graduationDate, raw.diplomaNumber, raw.securityCode)
    ensures r.Err? ==> r.error.Keys != {} && forall f :: (f in r.error <==> !FieldOk(raw, f)) && (f in r.error ==> r.error[f] == Message(f))
  {
    var errors := FieldErrors(raw);
    FieldErrorsExact(raw);
    if errors.Keys == {} then Ok(QueryInput(raw.idNumber, raw.graduationDate, raw.diplomaNumber, raw.securityCode))
    else Err(errors)
  }

  /**
   * Validation accepts exactly when the ID has at least ten code units, the date has
   * the digit-grouped shape, and the diploma number and security code are non-empty.
   */
  lemma ValidateAccepts(raw: RawInput)
    ensures Validate(raw).Ok? <==>
      Utf16Length(raw.idNumber) >= 10 &&
      |raw.graduationDate| == 10 && raw.graduationDate[2] == '/' && raw.graduationDate[5] == '/' &&
      (forall i :: 0 <= i < 10 && i != 2 && i != 5 ==> IsDigit(raw.graduationDate[i])) &&
      raw.diplomaNumber != [] && raw.securityCode != []
  {
    GraduationDateShape(raw.graduationDate);
    Utf16LengthBounds(raw.diplomaNumber);
    Utf16LengthBounds(raw.securityCode);
    assert FieldOk(raw, IdNumber) && FieldOk(raw, GraduationDate) && FieldOk(raw, DiplomaNumber) && FieldOk(raw, SecurityCode)
      ==> forall f :: FieldOk(raw, f);
  }

  /** Ten characters always satisfy the ID rule; below the Basic Multilingual Plane fewer never do. */
  lemma IdLengthRule(s: string)
    ensures |s| >= 10 ==> Utf16Length(s) >= MinIdLength
    ensures (forall i :: 0 <= i < |s| ==> s[i] as int <= 0xFFFF) ==> (Utf16Length(s) >= MinIdLength <==> |s| >= 10)
  {
    Utf16LengthBounds(s);
  }

  /** Any eight digits around two slashes make an accepted date. */
  lemma DigitsMakeDate(d0: char, d1: char, m0: char, m1: char, y0: char, y1: char, y2: char, y3: char)
    requires IsDigit(d0) && IsDigit(d1) && IsDigit(m0) && IsDigit(m1)
    requires IsDigit(y0) && IsDigit(y1) && IsDigit(y2) && IsDigit(y3)
    ensures IsGraduationDate([d0, d1, '/', m0, m1, '/', y0, y1, y2, y3])
  {
    var s := [d0, d1, '/', m0, m1, '/', y0, y1, y2, y3];
    FullMatchPositionwise(DatePattern, s);
    forall i | 0 <= i < 10 ensures AtomMatches(DatePattern[i], s[i]) {
      if i == 0 { assert s[0] == d0; }
      else if i == 1 { assert s[1] == d1; }
      else if i == 2 { assert s[2] == '/'; }
      else if i == 3 { assert s[3] == m0; }
      else if i == 4 { assert s[4] == m1; }
      else if i == 5 { assert s[5] == '/'; }
      else if i == 6 { assert s[6] == y0; }
      else if i == 7 { assert s[7] == y1; }
      else if i == 8 { assert s[8] == y2; }
      else { assert s[9] == y3; }
    }
  }

  /** The date rule is purely syntactic: it accepts a day and month of 99 and a year of 0000. */
  lemma DateRuleIsSyntactic()
    ensures IsGraduationDate("99/99/0000")
  {
    DigitsMakeDate('9', '9', '9', '9', '0', '0', '0', '0');
    assert "99/99/0000" == ['9', '9', '/', '9', '9', '/', '0', '0', '0', '0'];
  }
}
