/**
 * The query form's state: the current challenge, the loading flag, the shown
 * result, the query awaiting its verification, and the notifications emitted so far.
 * A submission is two steps: `Submit` starts it (after validation, and only when no
 * other submission is loading), `Complete` delivers the provider's outcome.  The
 * expected answer is taken when the submission starts, so a challenge regenerated
 * while loading does not affect the pending verification.
 */
module QueryForm {
  import opened Wrappers
  import opened Validation
  import opened Captcha
  import opened Verification
  import Decimal

  /** A toast: title, description, and whether it is shown as destructive. */
  datatype Notification = Notification(title: string, description: string, destructive: bool)

  const NewCodeTitle: string := "Yeni güvenlik kodu"
  const SuccessTitle: string := "Başarılı"
  const ErrorTitle: string := "Hata"
  const FailureMessage: string := "Bir hata oluştu. Lütfen tekrar deneyin."

  const NewCodePrefix: string := "Yeni güvenlik kodu oluşturuldu: "
  const NewCodeSuffix: string := " = ?"

  /**
   * The question a challenge announcement shows: its description with the fixed
   * prefix and suffix taken off, or None when the description does not have them.
   */
  function AnnouncedQuestion(n: Notification): Option<string> {
    var d := n.description;
    if |NewCodePrefix| + |NewCodeSuffix| <= |d| && d[..|NewCodePrefix|] == NewCodePrefix
       && d[|d| - |NewCodeSuffix|..] == NewCodeSuffix
    then Some(d[|NewCodePrefix|..|d| - |NewCodeSuffix|])
    else None
  }

  /** Announces a fresh challenge: a non-destructive toast from which its question can be read back. */
  function NewCodeNotice(question: string): (n: Notification)
    ensures !n.destructive && n.title == NewCodeTitle
    ensures AnnouncedQuestion(n) == Some(question)
  {
    var d := NewCodePrefix + question + NewCodeSuffix;
    assert d[..|NewCodePrefix|] == NewCodePrefix;
    assert d[|d| - |NewCodeSuffix|..] == NewCodeSuffix;
    assert d[|NewCodePrefix|..|d| - |NewCodeSuffix|] == question;
    Notification(NewCodeTitle, d, false)
  }

  /** Different questions give different announcements. */
  lemma NewCodeNoticeInjective(q1: string, q2: string)
    requires NewCodeNotice(q1) == NewCodeNotice(q2)
    ensures q1 == q2
  {
    assert AnnouncedQuestion(NewCodeNotice(q1)) == Some(q1);
  }

  /** A non-destructive toast with the announcement's title that shows a question is that question's announcement. */
  lemma AnnouncementIsNewCodeNotice(n: Notification, q: string)
    requires !n.destructive && n.title == NewCodeTitle && AnnouncedQuestion(n) == Some(q)
    ensures n == NewCodeNotice(q)
  {
    var d := n.description;
    assert d == d[..|NewCodePrefix|] + d[|NewCodePrefix|..|d| - |NewCodeSuffix|] + d[|d| - |NewCodeSuffix|..];
  }

  /** The toast for a delivered result: plain for success, destructive otherwise, always carrying its message. */
  function ResultNotice(r: VerificationResult): (n: Notification)
    ensures n.destructive <==> r.status != Success
    ensures n.title == (if r.status == Success then SuccessTitle else ErrorTitle)
    ensures n.description == r.message
  {
    if r.status == Success then Notification(SuccessTitle, r.message, false)
    else Notification(ErrorTitle, r.message, true)
  }

  /** The toast for a verification that threw. */
  const FailureNotice: Notification := Notification(ErrorTitle, FailureMessage, true)

  /** A validated query and the challenge answer it is to be checked against. */
  datatype PendingQuery = PendingQuery(input: QueryInput, expectedAnswer: string)

  /** What the verification provider does once awaited: return (at the given time) or throw. */
  datatype ProviderOutcome = Returned(timestamp: string) | Threw

  /** What a submit attempt did. */
  datatype SubmitOutcome = Started | Invalid(errors: map<Field, string>) | Ignored

  class DiplomaQueryForm {
    var captchaQuestion: string
    var captchaAnswer: string
    var isLoading: bool
    var verificationResult: Option<VerificationResult>
    var pending: Option<PendingQuery>
    var notifications: seq<Notification>

    /**
     * The shown question and the stored answer come from one pair of operands,
     * a query is pending exactly while loading, and no result is shown while loading.
     */
    ghost predicate Valid()
      reads this
    {
      Matches(Challenge(captchaQuestion, captchaAnswer)) &&
      (isLoading <==> pending.Some?) &&
      (isLoading ==> verificationResult == None)
    }

    ghost function CurrentChallenge(): Challenge
      reads this
    {
      Challenge(captchaQuestion, captchaAnswer)
    }

    /** The form as mounted: a generated challenge, not loading, no result, no notification. */
    constructor (r1: RandomDraw, r2: RandomDraw)
      requires IsUnitDraw(r1) && IsUnitDraw(r2)
      ensures Valid()
      ensures CurrentChallenge() == Generate(r1, r2)
      ensures !isLoading && verificationResult == None && pending == None && notifications == []
    {
      var c := Generate(r1, r2);
      captchaQuestion, captchaAnswer := c.question, c.answer;
      isLoading := false;
      verificationResult := None;
      pending := None;
      notifications := [];
    }

    /**
     * Replaces question and answer together by a fresh challenge and announces it.
     * Loading, the shown result and the pending query stay as they are.
     */
    method RegenerateChallenge(r1: RandomDraw, r2: RandomDraw)
      requires Valid() && IsUnitDraw(r1) && IsUnitDraw(r2)
      modifies this
      ensures Valid()
      ensures CurrentChallenge() == Generate(r1, r2)
      ensures notifications == old(notifications) + [NewCodeNotice(captchaQuestion)]
      ensures isLoading == old(isLoading) && verificationResult == old(verificationResult) && pending == old(pending)
      ensures AnnouncedQuestion(notifications[|notifications| - 1]) == Some(captchaQuestion)
      ensures Matches(Challenge(AnnouncedQuestion(notifications[|notifications| - 1]).value, captchaAnswer))
      ensures ParseQuestion(AnnouncedQuestion(notifications[|notifications| - 1]).value) == Some((Operand(r1), Operand(r2)))
      ensures captchaAnswer == Decimal.NatToString(Operand(r1) + Operand(r2))
    {
      var c := Generate(r1, r2);
      captchaQuestion, captchaAnswer := c.question, c.answer;
      notifications := notifications + [NewCodeNotice(c.question)];
    }

    /**
     * A submit attempt.  While loading the submit control is disabled and nothing
     * happens.  Otherwise an input that fails validation reports its field errors and
     * changes nothing; a valid one starts loading, clears the shown result and
     * records the query with the current expected answer.
     */
    method Submit(raw: RawInput) returns (outcome: SubmitOutcome)
      requires Valid()
      modifies this
      ensures Valid()
      ensures old(isLoading) ==> outcome == Ignored && unchanged(this)
      ensures !old(isLoading) && Validate(raw).Err? ==> outcome == Invalid(Validate(raw).error) && unchanged(this)
      ensures !old(isLoading) && Validate(raw).Ok? ==>
        outcome == Started && isLoading && verificationResult == None &&
        pending == Some(PendingQuery(Validate(raw).value, old(captchaAnswer))) &&
        captchaQuestion == old(captchaQuestion) && captchaAnswer == old(captchaAnswer) &&
        notifications == old(notifications)
    {
      if isLoading {
        return Ignored;
      }
      var v := Validate(raw);
      if v.Err? {
        return Invalid(v.error);
      }
      isLoading := true;
      verificationResult := None;
      pending := Some(PendingQuery(v.value, captchaAnswer));
      outcome := Started;
    }

    /**
     * Delivers the awaited verification.  A returned result is the decision on the
     * pending query and is shown with one notification of its severity; a thrown
     * failure shows no result and one destructive notification.  On both paths
     * loading ends and the challenge is untouched.
     */
    method Complete(outcome: ProviderOutcome)
      requires Valid() && isLoading
      modifies this
      ensures Valid() && !isLoading && pending == None
      ensures captchaQuestion == old(captchaQuestion) && captchaAnswer == old(captchaAnswer)
      ensures outcome.Returned? ==>
        var r := Decide(old(pending).value.input, old(pending).value.expectedAnswer, outcome.timestamp);
        verificationResult == Some(r) && notifications == old(notifications) + [ResultNotice(r)]
      ensures outcome.Threw? ==> verificationResult == None && notifications == old(notifications) + [FailureNotice]
    {
      var query := pending.value;
      match outcome {
        case Returned(timestamp) =>
          var result := Decide(query.input, query.expectedAnswer, timestamp);
          verificationResult := Some(result);
          notifications := notifications + [ResultNotice(result)];
        case Threw =>
          notifications := notifications + [FailureNotice];
      }
      isLoading := false;
      pending := None;
    }

    /**
     * One submission run to completion, the verification taken as a single step:
     * the result and the one notification of a valid query when not already loading,
     * nothing otherwise.
     */
    method SubmitAndWait(raw: RawInput, provider: ProviderOutcome) returns (outcome: SubmitOutcome)
      requires Valid()
      modifies this
      ensures Valid()
      ensures old(isLoading) ==> outcome == Ignored && unchanged(this)
      ensures !old(isLoading) && Validate(raw).Err? ==> outcome == Invalid(Validate(raw).error) && unchanged(this)
      ensures !old(isLoading) && Validate(raw).Ok? ==>
        outcome == Started && !isLoading && pending == None &&
        captchaQuestion == old(captchaQuestion) && captchaAnswer == old(captchaAnswer) &&
        |notifications| == |old(notifications)| + 1 &&
        match provider
        case Threw => verificationResult == None && notifications == old(notifications) + [FailureNotice]
        case Returned(t) =>
          var r := Decide(Validate(raw).value, old(captchaAnswer), t);
          verificationResult == Some(r) && notifications == old(notifications) + [ResultNotice(r)]
    {
      outcome := Submit(raw);
      if outcome == Started {
        Complete(provider);
      }
    }
  }

  /**
   * A client: on a fresh form, key fields that pass their rules, submitted with the
   * shown challenge's answer, are never refused for the code, and are verified
   * exactly when they are the known record's, even when the challenge is
   * regenerated while the query is loading.  Two notifications are shown: the new
   * challenge's and the result's.
   */
  method AnswerScenario(r1: RandomDraw, r2: RandomDraw, r3: RandomDraw, r4: RandomDraw,
                        id: string, date: string, diploma: string, timestamp: string)
    returns (status: Status, shown: nat)
    requires IsUnitDraw(r1) && IsUnitDraw(r2) && IsUnitDraw(r3) && IsUnitDraw(r4)
    requires Utf16Length(id) >= MinIdLength && IsGraduationDate(date) && diploma != []
    ensures status != Error
    ensures status == Success <==> id == KnownIdNumber && date == KnownGraduationDate && diploma == KnownDiplomaNumber
    ensures shown == 2
  {
    var form := new DiplomaQueryForm(r1, r2);
    var code := form.captchaAnswer;
    var raw := RawInput(id, date, diploma, code);
    Utf16LengthBounds(diploma);
    Utf16LengthBounds(code);
    assert FieldOk(raw, IdNumber) && FieldOk(raw, GraduationDate) && FieldOk(raw, DiplomaNumber) && FieldOk(raw, SecurityCode);
    assert forall f :: FieldOk(raw, f);
    var input := QueryInput(id, date, diploma, code);
    var started := form.Submit(raw);
    assert form.pending == Some(PendingQuery(input, code));
    form.RegenerateChallenge(r3, r4);
    form.Complete(Returned(timestamp));
    StatusCases(input, code, timestamp);
    status := form.verificationResult.value.status;
    shown := |form.notifications|;
  }

  /** A client: a second submit while the first is loading is ignored and changes nothing. */
  method DoubleSubmitScenario(r1: RandomDraw, r2: RandomDraw, raw: RawInput, again: RawInput)
    returns (second: SubmitOutcome, loading: bool)
    requires IsUnitDraw(r1) && IsUnitDraw(r2)
    requires Validate(raw).Ok?
    ensures second == Ignored && loading
  {
    var form := new DiplomaQueryForm(r1, r2);
    var first := form.Submit(raw);
    second := form.Submit(again);
    loading := form.isLoading;
  }
}
