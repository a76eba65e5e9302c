/**
 * The registration form's checks: the four password requirements, the order
 * in which `handleSubmit` rejects a submission, the inline error of the
 * confirmation field and the text of the error banner. Character classes
 * are the ASCII ranges the form's regular expressions name.
 */
module RegisterPage {
  import opened Wrappers

  const MismatchText := "Passwords do not match"
  const RequirementsText := "Please meet all password requirements"

  /** `/[lo-hi]/.test(p)`, scanning from the left. */
  predicate HasCharIn(p: string, lo: char, hi: char)
  {
    p != [] && (lo <= p[0] <= hi || HasCharIn(p[1..], lo, hi))
  }

  /** The scan finds a character in the range exactly when one occurs. */
  lemma {:induction false} HasCharInIff(p: string, lo: char, hi: char)
    ensures HasCharIn(p, lo, hi) <==> exists i :: 0 <= i < |p| && lo <= p[i] <= hi
  {
    if p != [] {
      HasCharInIff(p[1..], lo, hi);
      if exists i :: 0 <= i < |p[1..]| && lo <= p[1..][i] <= hi {
        var i :| 0 <= i < |p[1..]| && lo <= p[1..][i] <= hi;
        assert lo <= p[i + 1] <= hi;
      }
      if (exists i :: 0 <= i < |p| && lo <= p[i] <= hi) && !(lo <= p[0] <= hi) {
        var i :| 0 <= i < |p| && lo <= p[i] <= hi;
        assert lo <= p[1..][i - 1] <= hi;
      }
    }
  }

  /** The `met` flags of the four requirements, in the order the form lists them. */
  function Requirements(p: string): (met: seq<bool>)
    ensures |met| == 4
    ensures met[0] <==> |p| >= 8
    ensures met[1] <==> exists i :: 0 <= i < |p| && 'A' <= p[i] <= 'Z'
    ensures met[2] <==> exists i :: 0 <= i < |p| && 'a' <= p[i] <= 'z'
    ensures met[3] <==> exists i :: 0 <= i < |p| && '0' <= p[i] <= '9'
  {
    HasCharInIff(p, 'A', 'Z');
    HasCharInIff(p, 'a', 'z');
    HasCharInIff(p, '0', '9');
    [|p| >= 8, HasCharIn(p, 'A', 'Z'), HasCharIn(p, 'a', 'z'), HasCharIn(p, '0', '9')]
  }

  /** `every((req) => req.met)`. */
  predicate MeetsRequirements(p: string)
  {
    forall k :: 0 <= k < |Requirements(p)| ==> Requirements(p)[k]
  }

  /** A password meets the requirements iff it has at least 8 characters, an upper-case letter, a lower-case letter and a digit. */
  lemma MeetsRequirementsIff(p: string)
    ensures MeetsRequirements(p) <==>
              && |p| >= 8
              && (exists i :: 0 <= i < |p| && 'A' <= p[i] <= 'Z')
              && (exists i :: 0 <= i < |p| && 'a' <= p[i] <= 'z')
              && (exists i :: 0 <= i < |p| && '0' <= p[i] <= '9')
  {
    assert MeetsRequirements(p) <==> Requirements(p)[0] && Requirements(p)[1] && Requirements(p)[2] && Requirements(p)[3];
  }

  /** What a submission leads to: the validation error it leaves, and whether registration is requested. */
  datatype SubmitOutcome = SubmitOutcome(validationError: string, callsRegister: bool)

  /**
   * `handleSubmit`: the error is reset first; a mismatch is reported before
   * the requirements are looked at; registration is requested only when
   * both checks pass.
   */
  function HandleSubmit(password: string, confirmPassword: string): (o: SubmitOutcome)
    ensures o.callsRegister <==> password == confirmPassword && MeetsRequirements(password)
    ensures password != confirmPassword ==> o.validationError == MismatchText
    ensures password == confirmPassword && !MeetsRequirements(password) ==> o.validationError == RequirementsText
    ensures o.callsRegister ==> o.validationError == ""
  {
    if password != confirmPassword then SubmitOutcome(MismatchText, false)
    else if !MeetsRequirements(password) then SubmitOutcome(RequirementsText, false)
    else SubmitOutcome("", true)
  }

  /** A mismatch wins even for a password that meets no requirement. */
  lemma MismatchFirst(password: string, confirmPassword: string)
    requires password != confirmPassword && |password| < 8
    ensures HandleSubmit(password, confirmPassword) == SubmitOutcome(MismatchText, false)
  {
  }

  /** The confirmation field's inline error: shown iff the confirmation is non-empty and differs. */
  function ConfirmFieldError(password: string, confirmPassword: string): (e: Option<string>)
    ensures e.Some? <==> confirmPassword != "" && password != confirmPassword
    ensures e.Some? ==> e.value == MismatchText
  {
    if confirmPassword != "" && password != confirmPassword then Some(MismatchText) else None
  }

  /** `error || validationError`: the banner shows the store's error first, and nothing when both are empty. */
  function BannerText(storeError: Option<string>, validationError: string): (b: Option<string>)
    ensures storeError.Some? && storeError.value != "" ==> b == storeError
    ensures !(storeError.Some? && storeError.value != "") && validationError != "" ==> b == Some(validationError)
    ensures b.None? <==> !(storeError.Some? && storeError.value != "") && validationError == ""
  {
    if storeError.Some? && storeError.value != "" then storeError
    else if validationError != "" then Some(validationError)
    else None
  }

  /** A submission the form rejects always puts a banner up, since the store's error was just cleared. */
  lemma RejectedSubmitShowsBanner(password: string, confirmPassword: string)
    requires !HandleSubmit(password, confirmPassword).callsRegister
    ensures BannerText(None, HandleSubmit(password, confirmPassword).validationError).Some?
  {
  }
}
