/**
 * The mocked verification step.  It checks the security code against the expected
 * challenge answer first, then looks the three key fields up among the known
 * diploma records (one record, hard-coded).  The clock is a parameter: the
 * verification timestamp is an opaque string.
 */
module Verification {
  import opened Wrappers
  import opened Validation

  datatype Status = Success | Error | NotFound

  /** The record shown for a verified diploma. */
  datatype DiplomaData = DiplomaData(
    studentName: string,
    graduationPeriod: string,
    graduationDate: string,
    gpa: string,
    faculty: string,
    department: string,
    program: string,
    graduationNameFirst: string,
    graduationNameLast: string,
    diplomaIssueDate: string,
    diplomaPrintDate: string,
    verificationDateTime: string)

  datatype VerificationResult = VerificationResult(status: Status, data: Option<DiplomaData>, message: string)

  const WrongCodeMessage: string := "Güvenlik kodu yanlış. Lütfen tekrar deneyin."
  const VerifiedMessage: string := "Diploma başarıyla doğrulandı."
  const NotFoundMessage: string := "Girilen bilgilere ait diploma bulunamadı. Lütfen bilgilerinizi kontrol edin."

  const KnownIdNumber: string := "9963635438"
  const KnownGraduationDate: string := "04/07/2025"
  const KnownDiplomaNumber: string := "2025/04802"

  /** The fixed record, stamped with the given verification time. */
  function KnownRecord(timestamp: string): DiplomaData {
    DiplomaData(
      "AHMED MOHAMED AHMED",
      "2024-2025 Bahar",
      "04/07/2025",
      "3,29",
      "MÜHENDİSLİK FAKÜLTESİ",
      "MAKİNE MÜHENDİSLİĞİ",
      "Makine Mühendisliği (%30 İng.) (II)",
      "AHMED MOHAMED",
      "AHMED",
      "09.07.2025",
      "09.07.2025",
      timestamp)
  }

  /** True exactly when all three key fields equal the known record's. */
  predicate IsKnownKey(input: QueryInput) {
    input.idNumber == KnownIdNumber && input.graduationDate == KnownGraduationDate && input.diplomaNumber == KnownDiplomaNumber
  }

  /** The outcome of one verification: code check, then record match, then not found. */
  function Decide(input: QueryInput, expectedAnswer: string, timestamp: string): (r: VerificationResult)
    ensures r.data.Some? <==> r.status == Success
    ensures r.status == Error <==> input.securityCode != expectedAnswer
  {
    if input.securityCode != expectedAnswer then
      VerificationResult(Error, None, WrongCodeMessage)
    else if IsKnownKey(input) then
      VerificationResult(Success, Some(KnownRecord(timestamp)), VerifiedMessage)
    else
      VerificationResult(NotFound, None, NotFoundMessage)
  }

  /** A wrong code is an error with no data whatever the other three fields hold. */
  lemma CodeCheckedFirst(input: QueryInput, expectedAnswer: string, timestamp: string)
    requires input.securityCode != expectedAnswer
    ensures Decide(input, expectedAnswer, timestamp) == VerificationResult(Error, None, WrongCodeMessage)
    ensures forall id, date, diploma ::
      Decide(QueryInput(id, date, diploma, input.securityCode), expectedAnswer, timestamp).status == Error
  {
  }

  /** The right code with the known key yields the fixed record, holding the submitted date and the given time. */
  lemma SuccessCase(input: QueryInput, expectedAnswer: string, timestamp: string)
    requires input.securityCode == expectedAnswer && IsKnownKey(input)
    ensures var r := Decide(input, expectedAnswer, timestamp);
      r.status == Success && r.message == VerifiedMessage && r.data.Some? &&
      r.data.value.studentName == "AHMED MOHAMED AHMED" && r.data.value.gpa == "3,29" &&
      r.data.value.graduationDate == input.graduationDate && r.data.value.verificationDateTime == timestamp
  {
  }

  /** The three statuses, each with its exact condition: they exclude each other and cover every input. */
  lemma StatusCases(input: QueryInput, expectedAnswer: string, timestamp: string)
    ensures var r := Decide(input, expectedAnswer, timestamp);
      (r.status == Error <==> input.securityCode != expectedAnswer) &&
      (r.status == Success <==> input.securityCode == expectedAnswer && IsKnownKey(input)) &&
      (r.status == NotFound <==> input.securityCode == expectedAnswer && !IsKnownKey(input)) &&
      (r.status == NotFound ==> r.data == None && r.message == NotFoundMessage) &&
      (r.status == Error ==> r.message == WrongCodeMessage)
  {
  }

  /** The clock affects only the verification timestamp of a success record. */
  lemma TimestampOnlyStamps(input: QueryInput, expectedAnswer: string, t1: string, t2: string)
    ensures var r1, r2 := Decide(input, expectedAnswer, t1), Decide(input, expectedAnswer, t2);
      r1.status == r2.status && r1.message == r2.message &&
      (r1.data.Some? ==> r2.data == Some(r1.data.value.(verificationDateTime := t2)))
  {
  }

  /** The key of a record: id number, graduation date, diploma number. */
  datatype RecordKey = RecordKey(idNumber: string, graduationDate: string, diplomaNumber: string)

  /** The known records by key, each a function of the verification time. */
  function Registry(timestamp: string): map<RecordKey, DiplomaData> {
    map[RecordKey(KnownIdNumber, KnownGraduationDate, KnownDiplomaNumber) := KnownRecord(timestamp)]
  }

  /**
   * A verification provider written as a lookup: a wrong code is refused before any
   * lookup, a missing key is a normal "not found" result, and a present key yields
   * its record.
   */
  function LookupVerify(input: QueryInput, expectedAnswer: string, timestamp: string): VerificationResult {
    var key := RecordKey(input.idNumber, input.graduationDate, input.diplomaNumber);
    if input.securityCode != expectedAnswer then VerificationResult(Error, None, WrongCodeMessage)
    else if key in Registry(timestamp) then VerificationResult(Success, Some(Registry(timestamp)[key]), VerifiedMessage)
    else VerificationResult(NotFound, None, NotFoundMessage)
  }

  /** The literal comparison is the lookup in a registry holding the one known record. */
  lemma DecideIsLookup(input: QueryInput, expectedAnswer: string, timestamp: string)
    ensures Decide(input, expectedAnswer, timestamp) == LookupVerify(input, expectedAnswer, timestamp)
  {
  }

  /** The known record's key fields pass their rules. */
  lemma KnownKeyFieldsOk(raw: RawInput)
    requires raw.idNumber == KnownIdNumber && raw.graduationDate == KnownGraduationDate && raw.diplomaNumber == KnownDiplomaNumber
    ensures FieldOk(raw, IdNumber) && FieldOk(raw, GraduationDate) && FieldOk(raw, DiplomaNumber)
  {
    Utf16LengthBounds(KnownIdNumber);
    Utf16LengthBounds(KnownDiplomaNumber);
    DigitsMakeDate('0', '4', '0', '7', '2', '0', '2', '5');
    assert KnownGraduationDate == ['0', '4', '/', '0', '7', '/', '2', '0', '2', '5'];
  }

  /** The known record's own key is well formed, so the success case is reachable through validation. */
  lemma KnownRecordPassesValidation(code: string)
    requires code != []
    ensures Validate(RawInput(KnownIdNumber, KnownGraduationDate, KnownDiplomaNumber, code)) ==
      Ok(QueryInput(KnownIdNumber, KnownGraduationDate, KnownDiplomaNumber, code))
  {
    var raw := RawInput(KnownIdNumber, KnownGraduationDate, KnownDiplomaNumber, code);
    KnownKeyFieldsOk(raw);
    Utf16LengthBounds(code);
    assert FieldOk(raw, SecurityCode);
    assert forall f :: FieldOk(raw, f);
  }
}
