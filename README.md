# Diploma query form: a verified model

The repository is a single-page form that imitates a university diploma-verification
lookup. The user types an identity number, a graduation date, a diploma number and a
security code. The code is the answer to an arithmetic challenge ("37 + 22") shown
beside the field. Submitting runs a mocked verification. It checks the code first,
then compares the three key fields with one hard-coded record. It then shows the
record, a "wrong code" error or a "not found" message, with a toast notification.

All the logic lives in the `DiplomaQueryForm` component. This project models it in
Dafny as six modules:

- `Wrappers`: `Option` and `Result`.
- `Decimal`: the decimal text JavaScript gives a non-negative integer below 10^21
  (`${n}`, `n.toString()`; the form only formats values from 10 to 100), and
  `DigitsValue`, which reads it back. Round trips are proved in both directions.
- `Validation`: the four field rules of the form schema. Each field gets its own error
  message. The date rule is written as the anchored regular expression, atom by atom,
  and proved equal to its plain positional reading. String length is counted in UTF-16
  code units, as JavaScript does.
- `Captcha`: the challenge. The model takes `Math.random()` as an exact fraction r in
  [0, 1) and computes `Math.floor(r * 41) + 10` exactly. In JavaScript `r * 41` is a
  rounded double, which for r just below a boundary k/41 can move the floor up by one;
  the floor never reaches 41, so the operand range [10, 50] is the same. The question
  is `"a + b"` and the answer is the text of `a + b`. `ParseQuestion` reads a question back into its operands. `Matches`
  says the shown question and the stored answer come from the same in-range pair.
- `Verification`: the three-way decision of the mocked verification. The clock
  reading is an opaque timestamp parameter. The decision is also proved equal to a
  code check followed by a lookup in a one-entry registry.
- `QueryForm`: the component state as a class. Its fields are `captchaQuestion`,
  `captchaAnswer`, `isLoading`, `verificationResult`, the query being verified
  (`pending`) and the log of emitted notifications. `Submit` starts a submission.
  `Complete` delivers the provider's outcome, a returned result or a thrown failure.
  `SubmitAndWait` runs both as one step. `RegenerateChallenge` replaces the challenge.

Behaviour of the code that the model keeps, where a looser reading is possible:

- The security code is compared as a string with the stored answer. So "075" or
  " 75" is refused when the answer is "75" (`Captcha.AcceptedCodeIsCanonicalSum`).
- The expected answer is the one current when the submission starts. The comparison
  runs after the delay, but it reads the answer captured in the handler's closure.
  The refresh button stays enabled while loading. Regenerating the challenge during a
  pending query therefore does not change that query's outcome: `Submit` stores the
  answer in `pending` (`QueryForm.AnswerScenario`).
- A thrown verification leaves no result shown. It emits one destructive
  notification and still ends loading. The code has no separate failure status.
- The mismatched-code result has status `error`, not a distinct "invalid challenge"
  name. The model follows the code.
- The date rule is purely syntactic. `99/99/0000` passes. The error message says
  `AA/GG/YYYY` and the placeholder says `mm/dd/yyyy` (month first). The known record's
  date `04/07/2025` and issue date `09.07.2025` read as day first. The model keeps
  only the digit-grouped shape, which is all the code checks.

## Model

| member | source | states |
|---|---|---|
| `Decimal.NatToString` | src/components/DiplomaQueryForm.tsx:42-43 | The decimal text of an integer is non-empty, all ASCII digits, and has no leading zero unless it is "0" |
| `Decimal.ValueOfNatToString` | src/components/DiplomaQueryForm.tsx:42-43 | Reading the text of n back as digits gives n |
| `Decimal.NatToStringOfValue` | src/components/DiplomaQueryForm.tsx:43 | Every canonical digit string is the text of its own value, so the text form is onto the canonical strings |
| `Decimal.NatToStringInjective` | src/components/DiplomaQueryForm.tsx:43 | Different numbers have different texts |
| `Decimal.NatToStringLength` | src/components/DiplomaQueryForm.tsx:43 | A sum in [10, 100] has a text of two characters, or three for 100 |
| `Validation.Utf16LengthBounds` | src/components/DiplomaQueryForm.tsx:13-16 | JavaScript length is between one and two code units per character, and one per character when no character lies above U+FFFF |
| `Validation.FullMatchPositionwise` | src/components/DiplomaQueryForm.tsx:14 | An anchored atom pattern matches exactly the strings of its length whose every character matches its atom |
| `Validation.GraduationDateShape` | src/components/DiplomaQueryForm.tsx:14 | The date regex accepts exactly ten characters with '/' at positions 2 and 5 and ASCII digits elsewhere |
| `Validation.DigitsMakeDate` | src/components/DiplomaQueryForm.tsx:14 | Any eight digits arranged as DD/DD/DDDD are accepted |
| `Validation.DateRuleIsSyntactic` | src/components/DiplomaQueryForm.tsx:14 | The date rule accepts 99/99/0000: it does not check calendar values |
| `Validation.IdLengthRule` | src/components/DiplomaQueryForm.tsx:13 | Ten characters always pass the ID rule; without characters above U+FFFF, passing means at least ten characters |
| `Validation.Validate` | src/components/DiplomaQueryForm.tsx:12-17 | Accepts exactly when all four rules hold and then passes the fields through unchanged; otherwise reports the message of each failing field and of no other |
| `Validation.ValidateAccepts` | src/components/DiplomaQueryForm.tsx:12-17 | Acceptance holds exactly when the ID has at least ten code units, the date has the DD/DD/DDDD shape, and the diploma number and security code are non-empty |
| `Validation.FieldErrorsExact` | src/components/DiplomaQueryForm.tsx:12-17 | A field has an error entry exactly when it breaks its rule; there are no entries exactly when all fields pass |
| `Captcha.Operand` | src/components/DiplomaQueryForm.tsx:39-40 | `Math.floor(r * 41) + 10` lies in [10, 50] for every r in [0, 1) |
| `Captcha.EveryOperandReachable` | src/components/DiplomaQueryForm.tsx:67-68 | Every value in [10, 50] is produced by some random value |
| `Captcha.QuestionRoundTrip` | src/components/DiplomaQueryForm.tsx:42 | The question text `"a + b"` parses back to exactly (a, b) |
| `Captcha.ParsedQuestionIsQuestion` | src/components/DiplomaQueryForm.tsx:69 | A string that parses as (a, b) is exactly the question of a and b |
| `Captcha.MakeChallengeMatches` | src/components/DiplomaQueryForm.tsx:69-70 | The challenge built from one in-range pair matches: its question names the pair and its answer reads back as their sum, in two or three characters |
| `Captcha.Generate` | src/components/DiplomaQueryForm.tsx:38-45 | A generated challenge matches; it names the two drawn operands; its answer is their sum, in [20, 100] |
| `Captcha.MatchesAnswerIsSum` | src/components/DiplomaQueryForm.tsx:41-44 | A matching challenge is the challenge of some in-range pair, and its answer is that pair's sum |
| `Captcha.AcceptedCodeIsCanonicalSum` | src/components/DiplomaQueryForm.tsx:86 | A code equals the stored answer exactly when it is canonical decimal text with the sum's value |
| `Verification.Decide` | src/components/DiplomaQueryForm.tsx:81-125 | Data is present exactly on success; the status is error exactly when the code differs from the expected answer |
| `Verification.CodeCheckedFirst` | src/components/DiplomaQueryForm.tsx:86-91 | A wrong code gives an error with no data and the wrong-code message, whatever the other three fields are |
| `Verification.SuccessCase` | src/components/DiplomaQueryForm.tsx:94-118 | The right code with the known key gives success with the fixed record (name, GPA), the submitted date and the given timestamp |
| `Verification.StatusCases` | src/components/DiplomaQueryForm.tsx:86-124 | Each of the three statuses holds exactly under its own condition, so they are exclusive and exhaustive; not-found carries no data and its message |
| `Verification.TimestampOnlyStamps` | src/components/DiplomaQueryForm.tsx:109-115 | The clock changes only the verification timestamp of a success record |
| `Verification.DecideIsLookup` | src/components/DiplomaQueryForm.tsx:93-124 | The literal comparison equals a code check followed by a lookup in a registry holding the one known record |
| `Verification.KnownKeyFieldsOk` | src/components/DiplomaQueryForm.tsx:94 | The known record's ID, date and diploma number each pass their validation rule |
| `Verification.KnownRecordPassesValidation` | src/components/DiplomaQueryForm.tsx:12-17 | The known key with any non-empty code passes validation unchanged, so the success branch can be reached |
| `QueryForm.NewCodeNotice` | src/components/DiplomaQueryForm.tsx:75-78 | The challenge announcement is non-destructive, carries the announcement title, and its question can be read back from it, so it determines the question (`NewCodeNoticeInjective`) and any toast shaped like it is it (`AnnouncementIsNewCodeNotice`) |
| `QueryForm.NewCodeNoticeInjective` | src/components/DiplomaQueryForm.tsx:75-78 | Different questions give different announcements |
| `QueryForm.AnnouncementIsNewCodeNotice` | src/components/DiplomaQueryForm.tsx:75-78 | A non-destructive toast with the announcement title that shows question q is the announcement of q |
| `QueryForm.ResultNotice` | src/components/DiplomaQueryForm.tsx:135-146 | A result's toast is destructive exactly when the status is not success, is titled accordingly, and carries the result's message |
| `QueryForm.DiplomaQueryForm.constructor` | src/components/DiplomaQueryForm.tsx:48-52 | On mount the challenge is a generated one, nothing is loading, no result is shown and no notification has been emitted |
| `QueryForm.DiplomaQueryForm.RegenerateChallenge` | src/components/DiplomaQueryForm.tsx:65-79 | Question and answer are replaced together by a fresh matching challenge and announced once; the announced question names the two drawn operands and forms a matching challenge with the new stored answer, the text of their sum; loading, result and pending query are untouched |
| `QueryForm.DiplomaQueryForm.Submit` | src/components/DiplomaQueryForm.tsx:127-129 | Ignored while loading; invalid input reports its field errors and changes nothing; valid input starts loading, clears the result and records the query with the current answer, leaving the challenge alone |
| `QueryForm.DiplomaQueryForm.Complete` | src/components/DiplomaQueryForm.tsx:131-155 | A returned result is the decision on the pending query, shown with one toast of its severity; a thrown failure shows no result and one destructive toast; loading ends on both paths and the challenge is untouched |
| `QueryForm.DiplomaQueryForm.SubmitAndWait` | src/components/DiplomaQueryForm.tsx:127-156 | A valid submission, when not loading, ends with nothing loading, the decision against the answer current at submit time, and exactly one more notification |
| `QueryForm.AnswerScenario` | src/components/DiplomaQueryForm.tsx:86-94 | From a fresh form, valid key fields with the shown answer are never refused for the code, even if the challenge is regenerated while loading, and succeed exactly when they are the known key |
| `QueryForm.DoubleSubmitScenario` | src/components/DiplomaQueryForm.tsx:300 | A second submit while the first is loading is ignored and loading continues |

## Left out

- Rendering, styling and layout (src/components/DiplomaQueryForm.tsx:158-401): pure presentation over the fields the model keeps.
- The header logo toast (lines 166-172) is a fixed message with no logic. The "English" button (line 394) does nothing.
- react-hook-form, zod and zodResolver are library code. The rules are modelled directly. Their timing (showing messages on blur) and zod's runtime check that each value is a string are not modelled: form fields always hold strings.
- The `useToast` hook is not part of this model. Notifications are a log of every toast emitted. How many the hook keeps on screen is not modelled.
- The two-second `setTimeout` and the `async`/`await` machinery are not modelled. The suspension point is the gap between `Submit` and `Complete`. There is no real concurrency.
- `Captcha.Operand`: `Math.random` is replaced by an exact fraction, so floating-point rounding of `r * 41` is not modelled. For a double just below a boundary k/41 the rounded product can reach k, so JavaScript draws an operand one above the one the exact fraction gives. For doubles below 1 the floor is still at most 40, so the range [10, 50] is unaffected.
- `new Date().toLocaleString('tr-TR', …)` depends on the locale and the clock, so it is an opaque timestamp parameter.
- Each render calls `generateInitialCaptcha` again, but `useState` keeps only the first result. The model generates the challenge once, at construction.
- src/main.tsx and src/components/main.tsx only mount the React root. The `Index` page they import is not part of this model.
