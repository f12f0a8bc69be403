/**
 * The password-reset page (frontend/src/auth/forgot.js): the email check
 * before an OTP is requested, and the six one-digit OTP boxes with their
 * focus moves and the final comparison against the OTP the backend sent.
 * The request itself, the 2-second timer and the navigation are not part
 * of the model: the backend's reply is a parameter, the timer's callback
 * is a method of its own, and a navigation is appended to a list.
 */
module ResetPassword {
  import opened Common
  import Duration

  // ---------------------------------------------------------------------------
  // The email check: /^[^\s@]+@[^\s@]+\.[^\s@]+$/

  /** ECMAScript's `\s`: the WhiteSpace and LineTerminator code points. */
  predicate IsSpace(c: char) {
    var n := c as int;
    || (0x09 <= n <= 0x0D) || n == 0x20 || n == 0xA0 || n == 0x1680
    || (0x2000 <= n <= 0x200A) || n == 0x2028 || n == 0x2029 || n == 0x202F
    || n == 0x205F || n == 0x3000 || n == 0xFEFF
  }

  /** The class `[^\s@]`. */
  predicate EmailChar(c: char) {
    !IsSpace(c) && c != '@'
  }

  predicate AllEmailChars(t: string) {
    forall m :: 0 <= m < |t| ==> EmailChar(t[m])
  }

  /**
   * `emailRegex.test(s)`: a non-empty run of the class, '@', a non-empty
   * run, '.', a non-empty run, covering the whole string.
   */
  predicate EmailMatches(s: string) {
    exists i, j :: 0 < i && i + 1 < j && j + 1 < |s| && s[i] == '@' && s[j] == '.'
                   && AllEmailChars(s[..i]) && AllEmailChars(s[i + 1..j]) && AllEmailChars(s[j + 1..])
  }

  predicate NoSpace(s: string) {
    forall m :: 0 <= m < |s| ==> !IsSpace(s[m])
  }

  /** Position `a` holds the only '@' of `s`. */
  predicate OnlyAt(s: string, a: int) {
    forall m :: 0 <= m < |s| && s[m] == '@' ==> m == a
  }

  predicate DotInDomain(s: string, a: int) {
    exists k :: 0 <= a + 1 < k < |s| - 1 && s[k] == '.'
  }

  /**
   * The accepted addresses in words: no whitespace, exactly one '@' with
   * text before it, and after it some '.' with text on both sides (other
   * dots may appear anywhere).
   */
  predicate ValidEmailShape(s: string) {
    NoSpace(s) && exists a :: 0 < a < |s| && s[a] == '@' && OnlyAt(s, a) && DotInDomain(s, a)
  }

  lemma EmailMatchesHasShape(s: string, i: int, j: int)
    requires 0 < i && i + 1 < j && j + 1 < |s| && s[i] == '@' && s[j] == '.'
    requires AllEmailChars(s[..i]) && AllEmailChars(s[i + 1..j]) && AllEmailChars(s[j + 1..])
    ensures NoSpace(s) && OnlyAt(s, i) && DotInDomain(s, i)
  {
    forall m | 0 <= m < |s| ensures !IsSpace(s[m]) && (s[m] == '@' ==> m == i) {
      if m < i {
        assert s[m] == s[..i][m];
      } else if i < m < j {
        assert s[m] == s[i + 1..j][m - i - 1];
      } else if j < m {
        assert s[m] == s[j + 1..][m - j - 1];
      }
    }
  }

  lemma ShapeHasEmailMatch(s: string, a: int, k: int)
    requires NoSpace(s) && 0 < a < |s| && s[a] == '@' && OnlyAt(s, a)
    requires a + 1 < k < |s| - 1 && s[k] == '.'
    ensures AllEmailChars(s[..a]) && AllEmailChars(s[a + 1..k]) && AllEmailChars(s[k + 1..])
  {
    forall m | 0 <= m < |s| && m != a && m != k ensures EmailChar(s[m]) {
      assert s[m] == '@' ==> m == a;
    }
  }

  /** The regex accepts exactly the addresses of ValidEmailShape. */
  lemma EmailRegexCharacterization(s: string)
    ensures EmailMatches(s) <==> ValidEmailShape(s)
  {
    if EmailMatches(s) {
      var i, j :| 0 < i && i + 1 < j && j + 1 < |s| && s[i] == '@' && s[j] == '.'
                 && AllEmailChars(s[..i]) && AllEmailChars(s[i + 1..j]) && AllEmailChars(s[j + 1..]);
      EmailMatchesHasShape(s, i, j);
    }
    if ValidEmailShape(s) {
      var a :| 0 < a < |s| && s[a] == '@' && OnlyAt(s, a) && DotInDomain(s, a);
      var k :| a + 1 < k < |s| - 1 && s[k] == '.';
      ShapeHasEmailMatch(s, a, k);
    }
  }

  /** handleSubmit's check: the error text it stores for the email field, if any. */
  function EmailError(email: string): (e: Option<string>)
    ensures email == "" ==> e == Some("Email is required")
    ensures email != "" ==> (e.None? <==> ValidEmailShape(email))
    ensures email != "" && !ValidEmailShape(email) ==> e == Some("Invalid email address")
  {
    EmailRegexCharacterization(email);
    if email == "" then Some("Email is required")
    else if !EmailMatches(email) then Some("Invalid email address")
    else None
  }

  // ---------------------------------------------------------------------------
  // The OTP boxes

  /** `value.replace(/[^0-9]/g, "")` */
  function DigitsOnly(s: string): (r: string)
    ensures Duration.AllDigits(r) && |r| <= |s|
    ensures forall c :: c in r <==> c in s && Duration.IsDigit(c)
  {
    if s == [] then ""
    else if Duration.IsDigit(s[0]) then [s[0]] + DigitsOnly(s[1..])
    else DigitsOnly(s[1..])
  }

  /** Every digit of the input is kept as often as it occurs, and nothing else. */
  lemma {:induction false} DigitsOnlyCounts(s: string)
    ensures forall c :: multiset(DigitsOnly(s))[c] == if Duration.IsDigit(c) then multiset(s)[c] else 0
  {
    if s != [] {
      assert s == [s[0]] + s[1..];
      DigitsOnlyCounts(s[1..]);
    }
  }

  /** Stripping works piecewise, so the digits keep their order. */
  lemma {:induction false} DigitsOnlyAppend(a: string, b: string)
    ensures DigitsOnly(a + b) == DigitsOnly(a) + DigitsOnly(b)
  {
    if a != [] {
      var ab := a + b;
      assert ab[0] == a[0] && ab[1..] == a[1..] + b;
      DigitsOnlyAppend(a[1..], b);
      if Duration.IsDigit(a[0]) {
        calc {
          DigitsOnly(ab);
          [a[0]] + DigitsOnly(a[1..] + b);
          [a[0]] + (DigitsOnly(a[1..]) + DigitsOnly(b));
          ([a[0]] + DigitsOnly(a[1..])) + DigitsOnly(b);
        }
      }
    } else {
      assert a + b == b;
    }
  }

  /** A string of digits is left as it is. */
  lemma {:induction false} DigitsOnlyKeepsDigits(s: string)
    requires Duration.AllDigits(s)
    ensures DigitsOnly(s) == s
  {
    if s != [] {
      DigitsOnlyKeepsDigits(s[1..]);
    }
  }

  /** What one box may hold: nothing or a single digit. */
  predicate SlotOk(slot: string) {
    slot == "" || (|slot| == 1 && Duration.IsDigit(slot[0]))
  }

  predicate SlotsOk(slots: seq<string>) {
    forall i :: 0 <= i < |slots| ==> SlotOk(slots[i])
  }

  /** The number of boxes. */
  const OtpLength := 6

  /** The boxes handleChange produces for input `raw` in box `index`. */
  function ChangedSlots(slots: seq<string>, raw: string, index: nat): (r: seq<string>)
    requires index < |slots|
    ensures |r| == |slots|
    ensures forall j :: 0 <= j < |slots| && j != index ==> r[j] == slots[j]
    ensures |DigitsOnly(raw)| <= 1 ==> r[index] == DigitsOnly(raw)
    ensures |DigitsOnly(raw)| > 1 ==> r == slots
  {
    var value := DigitsOnly(raw);
    if |value| <= 1 then slots[index := value] else slots
  }

  /** Every box keeps holding nothing or one digit. */
  lemma ChangedSlotsOk(slots: seq<string>, raw: string, index: nat)
    requires index < |slots| && SlotsOk(slots)
    ensures SlotsOk(ChangedSlots(slots, raw, index))
  {
  }

  /** handleChange's focus move: to the next box, if a digit was entered and there is one. */
  function FocusAfterChange(raw: string, index: nat): (f: Option<nat>)
    ensures f.Some? <==> |DigitsOnly(raw)| == 1 && index + 1 < OtpLength
    ensures f.Some? ==> f.value == index + 1
  {
    var value := DigitsOnly(raw);
    if |value| <= 1 && value != "" && index + 1 < OtpLength then Some(index + 1) else None
  }

  /** handleKeyDown's focus move: back one box, on Backspace in an empty box that has a predecessor. */
  function FocusAfterKey(key: string, slot: string, index: nat): (f: Option<nat>)
    ensures f.Some? <==> key == "Backspace" && slot == "" && index > 0
    ensures f.Some? ==> f.value + 1 == index
  {
    if key == "Backspace" && slot == "" && index > 0 then Some(index - 1) else None
  }

  /** `otp.join("")` */
  function Join(slots: seq<string>): string {
    if slots == [] then "" else Join(slots[..|slots| - 1]) + slots[|slots| - 1]
  }

  /** Boxes holding one digit each join to one digit per box, in order. */
  lemma {:induction false} JoinFilled(slots: seq<string>)
    requires forall i :: 0 <= i < |slots| ==> |slots[i]| == 1 && Duration.IsDigit(slots[i][0])
    ensures |Join(slots)| == |slots| && Duration.AllDigits(Join(slots))
    ensures forall i :: 0 <= i < |slots| ==> Join(slots)[i] == slots[i][0]
  {
    if slots != [] {
      JoinFilled(slots[..|slots| - 1]);
    }
  }

  /** The three outcomes of handleOTPSubmit. */
  datatype OtpOutcome = Incomplete | Mismatch | Match

  function OtpCheck(slots: seq<string>, generatedOtp: string): (r: OtpOutcome)
    ensures r == Incomplete <==> exists i :: 0 <= i < |slots| && slots[i] == ""
    ensures r == Match <==> (forall i :: 0 <= i < |slots| ==> slots[i] != "") && Join(slots) == generatedOtp
  {
    if exists i :: 0 <= i < |slots| && slots[i] == "" then Incomplete
    else if Join(slots) == generatedOtp then Match
    else Mismatch
  }

  /** A match needs an OTP of exactly one digit per box, equal to the boxes in order. */
  lemma MatchedOtpIsBoxes(slots: seq<string>, generatedOtp: string)
    requires SlotsOk(slots) && OtpCheck(slots, generatedOtp) == Match
    ensures |generatedOtp| == |slots| && Duration.AllDigits(generatedOtp)
    ensures forall i :: 0 <= i < |slots| ==> generatedOtp[i] == slots[i][0]
  {
    JoinFilled(slots);
  }

  /** The error text handleOTPSubmit stores, if any. */
  function OtpError(outcome: OtpOutcome): (e: Option<string>)
    ensures e.None? <==> outcome == Match
    ensures outcome == Incomplete ==> e == Some("Incorrect OTP !")
    ensures outcome == Mismatch ==> e == Some("OTP does not match")
  {
    match outcome
    case Incomplete => Some("Incorrect OTP !")
    case Mismatch => Some("OTP does not match")
    case Match => None
  }

  // ---------------------------------------------------------------------------
  // The page as an object

  /** The `errors` object: at most an email and an OTP message. */
  datatype FormErrors = FormErrors(email: Option<string>, otp: Option<string>)

  const NoErrors := FormErrors(None, None)

  /** The backend's reply to the OTP request: an exception, or the parsed body. */
  datatype OtpReply = RequestThrew | Body(otp: Option<string>, message: Option<string>)

  /** A navigation, with the state it passes. */
  datatype Navigation = Navigation(path: string, state: string)

  class ForgotPage {
    const otp: array<string>
    var email: string
    var errors: FormErrors
    var generatedOtp: string
    var showPopup: bool
    var otpMatch: bool
    var focused: Option<nat>
    var otpRequests: seq<string>
    var toasts: seq<Option<string>>
    /** The emails captured by the armed 2-second timers, in the order they fire. */
    var resetTimers: seq<string>
    var navigations: seq<Navigation>

    /** Six boxes that hold nothing or one digit, and a focus inside them. */
    ghost predicate Valid()
      reads this, otp
    {
      && otp.Length == OtpLength
      && SlotsOk(otp[..])
      && (focused.Some? ==> focused.value < OtpLength)
    }

    constructor ()
      ensures Valid() && fresh(otp)
      ensures otp[..] == seq(OtpLength, _ => "")
      ensures email == "" && errors == NoErrors && generatedOtp == "" && !showPopup && !otpMatch
      ensures focused.None? && otpRequests == [] && toasts == [] && resetTimers == [] && navigations == []
    {
      otp := new string[OtpLength](_ => "");
      email, errors, generatedOtp, showPopup, otpMatch := "", NoErrors, "", false, false;
      focused, otpRequests, toasts, resetTimers, navigations := None, [], [], [], [];
    }

    /** The email input's onChange. */
    method SetEmail(value: string)
      modifies this`email
      ensures email == value
    {
      email := value;
    }

    /** handleChange(element, index) for the text `raw` typed into box `index`. */
    method HandleChange(raw: string, index: nat)
      requires Valid() && index < OtpLength
      modifies otp, this`focused
      ensures Valid()
      ensures otp[..] == ChangedSlots(old(otp[..]), raw, index)
      ensures FocusAfterChange(raw, index).Some? ==> focused == FocusAfterChange(raw, index)
      ensures FocusAfterChange(raw, index).None? ==> focused == old(focused)
    {
      ChangedSlotsOk(otp[..], raw, index);
      var value := DigitsOnly(raw);
      if |value| <= 1 {
        otp[index] := value;
        if index + 1 < OtpLength && value != "" {
          focused := Some(index + 1);
        }
      }
    }

    /** handleKeyDown(event, index) for key `key` in box `index`. */
    method HandleKeyDown(key: string, index: nat)
      requires Valid() && index < OtpLength
      modifies this`focused
      ensures Valid()
      ensures FocusAfterKey(key, otp[index], index).Some? ==> focused == FocusAfterKey(key, otp[index], index)
      ensures FocusAfterKey(key, otp[index], index).None? ==> focused == old(focused)
    {
      if key == "Backspace" && otp[index] == "" && index > 0 {
        focused := Some(index - 1);
      }
    }

    /**
     * handleSubmit with the backend's `reply`: an invalid email stores its
     * error and stops before the request; otherwise the errors are cleared,
     * the OTP is requested, and a reply carrying an OTP opens the popup.
     */
    method HandleSubmit(reply: OtpReply)
      modifies this`errors, this`otpRequests, this`generatedOtp, this`showPopup, this`toasts
      ensures EmailError(email).Some? ==>
                && errors == FormErrors(EmailError(email), None)
                && otpRequests == old(otpRequests) && generatedOtp == old(generatedOtp)
                && showPopup == old(showPopup) && toasts == old(toasts)
      ensures EmailError(email).None? ==> errors == NoErrors && otpRequests == old(otpRequests) + [email]
      ensures EmailError(email).None? && reply.Body? && Truthy(reply.otp) ==>
                generatedOtp == reply.otp.value && showPopup && toasts == old(toasts)
      ensures EmailError(email).None? && reply.Body? && !Truthy(reply.otp) ==>
                generatedOtp == old(generatedOtp) && showPopup == old(showPopup) && toasts == old(toasts) + [reply.message]
      ensures EmailError(email).None? && reply.RequestThrew? ==>
                generatedOtp == old(generatedOtp) && showPopup == old(showPopup) && toasts == old(toasts)
    {
      var emailError := EmailError(email);
      if emailError.Some? {
        errors := FormErrors(emailError, None);
        return;
      }
      errors := NoErrors;
      otpRequests := otpRequests + [email];
      match reply
      case RequestThrew =>
      case Body(sentOtp, message) =>
        if Truthy(sentOtp) {
          generatedOtp := sentOtp.value;
          showPopup := true;
        } else {
          toasts := toasts + [message];
        }
    }

    /**
     * handleOTPSubmit: an empty box or a mismatch stores its error; a match
     * shows the success view and arms a reset timer, whose callback closes
     * over the email of this render.
     */
    method HandleOtpSubmit()
      requires Valid()
      modifies this`errors, this`otpMatch, this`resetTimers
      ensures Valid()
      ensures OtpCheck(otp[..], generatedOtp) != Match ==>
                && errors == FormErrors(None, OtpError(OtpCheck(otp[..], generatedOtp)))
                && otpMatch == old(otpMatch) && resetTimers == old(resetTimers)
      ensures OtpCheck(otp[..], generatedOtp) == Match ==>
                errors == old(errors) && otpMatch && resetTimers == old(resetTimers) + [email]
    {
      var outcome := OtpCheck(otp[..], generatedOtp);
      if outcome == Incomplete {
        errors := FormErrors(None, Some("Incorrect OTP !"));
        return;
      }
      if outcome == Match {
        otpMatch := true;
        resetTimers := resetTimers + [email];
      } else {
        errors := FormErrors(None, Some("OTP does not match"));
      }
    }

    /**
     * The earliest armed 2-second timer fires: close the popup, empty the
     * six boxes, clear the match and go to the update-password page with
     * the email that timer captured, whatever the field holds now.
     */
    method ResetTimerFired()
      requires Valid() && resetTimers != []
      modifies otp, this`showPopup, this`otpMatch, this`resetTimers, this`navigations
      ensures Valid()
      ensures otp[..] == seq(OtpLength, _ => "")
      ensures !showPopup && !otpMatch && resetTimers == old(resetTimers)[1..]
      ensures navigations == old(navigations) + [Navigation("/update-password", old(resetTimers)[0])]
    {
      forall j | 0 <= j < otp.Length {
        otp[j] := "";
      }
      var captured := resetTimers[0];
      showPopup, otpMatch, resetTimers := false, false, resetTimers[1..];
      navigations := navigations + [Navigation("/update-password", captured)];
    }
  }

  /**
   * The reset timer navigates with the email of the render in which the
   * OTP matched, even when the field has been edited since.
   */
  method NavigatesWithMatchedEmail(p: ForgotPage, first: string, second: string)
    requires p.Valid() && p.resetTimers == [] && OtpCheck(p.otp[..], p.generatedOtp) == Match
    modifies p, p.otp
    ensures p.email == second && p.navigations == old(p.navigations) + [Navigation("/update-password", first)]
  {
    p.SetEmail(first);
    p.HandleOtpSubmit();
    p.SetEmail(second);
    p.ResetTimerFired();
  }
}
