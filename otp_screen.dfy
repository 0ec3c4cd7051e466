/**
 * OTPScreen of screens/OTPScreen.tsx: six one-character cells, the resend countdown, the
 * verify and resend handlers, and the masked e-mail shown above the cells.
 *
 * Focus moves are recorded as the index of the last input asked to focus. The one-second
 * `setTimeout` becomes a `Tick`. `resendOTP` is not defined in services/authService.ts;
 * its outcome, like that of `verifyOTP`, is a parameter.
 */
module OtpScreen {
  import opened Wrappers
  import opened Http
  import opened Text
  import opened UseAuth

  const CellCount := 6
  const ResendSeconds := 60
  const IncompleteMessage := "Please enter the complete 6-digit code"
  const InvalidCodeMessage := "Invalid code. Please try again."
  const ResendFailedMessage := "Failed to resend code"

  /** `otp.join('')`. */
  function Join(cells: seq<string>): string {
    if cells == [] then "" else cells[0] + Join(cells[1..])
  }

  /** A cell as the `maxLength={1}` digit input leaves it: empty or one digit. */
  predicate CellValue(c: string) {
    |c| <= 1 && AllDigits(c)
  }

  /** The joined code of one-character cells has six characters exactly when no cell is empty. */
  lemma {:induction false} JoinFull(cells: seq<string>)
    requires forall i :: 0 <= i < |cells| ==> |cells[i]| <= 1
    ensures |Join(cells)| <= |cells|
    ensures |Join(cells)| == |cells| <==> forall i :: 0 <= i < |cells| ==> |cells[i]| == 1
  {
    if cells != [] {
      JoinFull(cells[1..]);
      assert forall i :: 1 <= i < |cells| ==> cells[i] == cells[1..][i - 1];
    }
  }

  /** The joined code of digit cells is all digits. */
  lemma {:induction false} JoinDigits(cells: seq<string>)
    requires forall i :: 0 <= i < |cells| ==> AllDigits(cells[i])
    ensures AllDigits(Join(cells))
  {
    if cells != [] {
      JoinDigits(cells[1..]);
      var code := Join(cells);
      assert code == cells[0] + Join(cells[1..]);
      forall k | 0 <= k < |code| ensures IsDigit(code[k]) {
        if k >= |cells[0]| {
          assert code[k] == Join(cells[1..])[k - |cells[0]|];
        }
      }
    }
  }

  // ---------------------------------------------------------------------------
  // The masked e-mail
  // ---------------------------------------------------------------------------

  /** The index of the last `c` in `s`. */
  function LastIndexOf(s: string, c: char): (r: Option<nat>)
    ensures r.None? <==> c !in s
    ensures r.Some? ==> r.value < |s| && s[r.value] == c && forall j :: r.value < j < |s| ==> s[j] != c
  {
    if s == [] then None
    else if s[|s| - 1] == c then Some(|s| - 1)
    else LastIndexOf(s[..|s| - 1], c)
  }

  /**
   * `email.replace(/(.{2})(.*)(@.*)/, '$1***$3')`: with an `@` at index 2 or later (the
   * greedy `.*` picks the last one), the first two characters, `***`, and the part from that
   * `@` on. Without one the e-mail is shown as it is.
   */
  function Mask(email: string): (r: string)
    ensures (exists k :: 2 <= k < |email| && email[k] == '@') ==>
      var k := LastIndexOf(email, '@').value;
      r == email[..2] + "***" + email[k..]
    ensures (forall k :: 2 <= k < |email| ==> email[k] != '@') ==> r == email
  {
    match LastIndexOf(email, '@')
    case Some(k) => if k >= 2 then email[..2] + "***" + email[k..] else email
    case None => email
  }

  /** A masked address keeps its domain: everything from the last `@` on is unchanged. */
  lemma MaskKeepsDomain(email: string, k: nat)
    requires 2 <= k < |email| && email[k] == '@' && forall j :: k < j < |email| ==> email[j] != '@'
    ensures var r := Mask(email);
      |r| == |email| - k + 5 && r[..2] == email[..2] && r[2..5] == "***" && r[5..] == email[k..]
  {
  }

  /** Masking a masked address changes nothing. */
  lemma MaskIdempotent(email: string)
    ensures Mask(Mask(email)) == Mask(email)
  {
    var r := Mask(email);
    if exists k :: 2 <= k < |email| && email[k] == '@' {
      var k := LastIndexOf(email, '@').value;
      assert r == email[..2] + "***" + email[k..];
      assert r[5] == '@';
      assert forall j :: 5 < j < |r| ==> r[j] == email[k + j - 5];
      assert LastIndexOf(r, '@') == Some(5);
      assert r[..2] + "***" + r[5..] == r;
    }
  }

  // ---------------------------------------------------------------------------
  // The screen
  // ---------------------------------------------------------------------------

  /** The `{code, email}` object `verifyOtp` is called with. */
  datatype VerifyRequest = VerifyRequest(code: string, email: Option<string>)

  class OtpScreenState {
    const email: Option<string>
    var otp: seq<string>
    var error: string
    var isLoading: bool
    var resendTimer: nat
    var canResend: bool
    /** The input most recently asked to take focus, if any. */
    var focused: Option<nat>
    /** The requests `verifyOtp` was called with, in order. */
    var verified: seq<VerifyRequest>
    /** How many times `resendOTP` was called. */
    var resends: nat

    /**
     * Six cells of at most one digit; the countdown runs from 60 to 0, and resending is
     * allowed exactly when it has reached 0.
     */
    predicate Valid()
      reads this
    {
      && |otp| == CellCount
      && (forall i :: 0 <= i < |otp| ==> CellValue(otp[i]))
      && resendTimer <= ResendSeconds
      && (canResend <==> resendTimer == 0)
    }

    constructor (email: Option<string>)
      ensures Valid() && this.email == email
      ensures otp == ["", "", "", "", "", ""] && error == "" && !isLoading
      ensures resendTimer == ResendSeconds && !canResend && focused == None && verified == [] && resends == 0
    {
      this.email := email;
      otp := ["", "", "", "", "", ""];
      error := "";
      isLoading := false;
      resendTimer := ResendSeconds;
      canResend := false;
      focused := None;
      verified := [];
      resends := 0;
    }

    /** The text shown for the address (`email?.replace(...)`). */
    function MaskedContact(): (r: Option<string>)
      reads this
      ensures r.Some? <==> email.Some?
      ensures r.Some? ==> r.value == Mask(email.value)
      ensures r.Some? ==> Mask(r.value) == r.value
    {
      match email
      case Some(e) => MaskIdempotent(e); Some(Mask(e))
      case None => None
    }

    /** The one-second timeout and the effect that follows it. */
    method Tick()
      requires Valid()
      modifies this
      ensures Valid()
      ensures resendTimer == (if old(resendTimer) > 0 then old(resendTimer) - 1 else 0)
      ensures otp == old(otp) && error == old(error) && focused == old(focused)
      ensures verified == old(verified) && resends == old(resends) && isLoading == old(isLoading)
    {
      if resendTimer > 0 {
        resendTimer := resendTimer - 1;
      }
      if resendTimer == 0 {
        canResend := true;
      }
    }

    /** `onChangeText` of cell `index`; the input's `maxLength={1}` bounds the value. */
    method HandleOtpChange(value: string, index: nat)
      requires Valid() && index < CellCount && |value| <= 1
      modifies this
      ensures Valid()
      ensures !AllDigits(value) ==> otp == old(otp) && error == old(error) && focused == old(focused)
      ensures AllDigits(value) ==> otp == old(otp)[index := value] && error == ""
      ensures AllDigits(value) && value != "" && index < 5 ==> focused == Some(index + 1)
      ensures !(AllDigits(value) && value != "" && index < 5) ==> focused == old(focused)
      ensures resendTimer == old(resendTimer) && canResend == old(canResend) && isLoading == old(isLoading)
      ensures verified == old(verified) && resends == old(resends)
    {
      if !AllDigits(value) {
        return;
      }
      var newOtp := otp;
      newOtp := newOtp[index := value];
      otp := newOtp;
      error := "";
      if value != "" && index < 5 {
        focused := Some(index + 1);
      }
    }

    /** `onKeyPress`: Backspace on an empty cell other than the first moves focus back. */
    method HandleKeyPress(key: string, index: nat)
      requires Valid() && index < CellCount
      modifies this`focused
      ensures focused == if key == "Backspace" && otp[index] == "" && index > 0 then Some(index - 1) else old(focused)
    {
      if key == "Backspace" && otp[index] == "" && index > 0 {
        focused := Some(index - 1);
      }
    }

    /** `handleVerifyOTP`, given how the remote `verifyOTP` settles. */
    method HandleVerify(session: AuthSession, outcome: Result<AuthResponse, Error>)
      requires Valid()
      modifies this, session
      ensures Valid()
      ensures |Join(old(otp))| != 6 ==>
        && error == IncompleteMessage && otp == old(otp) && verified == old(verified)
        && session.token == old(session.token)
      ensures |Join(old(otp))| == 6 ==>
        && verified == old(verified) + [VerifyRequest(Join(old(otp)), email)]
        && (outcome.Success? ==> error == "" && otp == old(otp) && session.token == Some(outcome.value.accessToken))
        && (outcome.Failure? ==>
             error == ServerMessage(outcome.error, InvalidCodeMessage) && otp == ["", "", "", "", "", ""]
             && focused == Some(0) && session.token == old(session.token))
      ensures (|Join(old(otp))| != 6 || outcome.Success?) ==> focused == old(focused)
      ensures resendTimer == old(resendTimer) && canResend == old(canResend) && resends == old(resends)
      ensures isLoading == old(isLoading) && session.cacheCleared == old(session.cacheCleared)
    {
      var otpCode := Join(otp);
      if |otpCode| != 6 {
        error := IncompleteMessage;
        return;
      }
      error := "";
      verified := verified + [VerifyRequest(otpCode, email)];
      var r := session.VerifyOtp(outcome);
      if r.Failure? {
        error := ServerMessage(r.error, InvalidCodeMessage);
        otp := ["", "", "", "", "", ""];
        focused := Some(0);
      }
    }

    /** `handleResendOTP`, given how the remote `resendOTP` settles; `finally` clears `isLoading`. */
    method HandleResend(outcome: Result<Envelope, Error>)
      requires Valid()
      modifies this
      ensures Valid()
      ensures old(canResend) ==> !isLoading
      ensures !old(canResend) ==>
        isLoading == old(isLoading) && otp == old(otp) && error == old(error) && resendTimer == old(resendTimer) && resends == old(resends)
      ensures old(canResend) && outcome.Success? ==>
        && resendTimer == ResendSeconds && !canResend && otp == ["", "", "", "", "", ""]
        && error == "" && focused == Some(0) && resends == old(resends) + 1
      ensures old(canResend) && outcome.Failure? ==>
        && error == ServerMessage(outcome.error, ResendFailedMessage)
        && resendTimer == old(resendTimer) && canResend && otp == old(otp) && resends == old(resends) + 1
      ensures (!old(canResend) || outcome.Failure?) ==> focused == old(focused)
      ensures verified == old(verified)
    {
      if !canResend {
        return;
      }
      isLoading := true;
      error := "";
      resends := resends + 1;
      if outcome.Success? {
        resendTimer := ResendSeconds;
        canResend := false;
        otp := ["", "", "", "", "", ""];
        focused := Some(0);
      } else {
        error := ServerMessage(outcome.error, ResendFailedMessage);
      }
      isLoading := false;
    }
  }

  /** A code that reaches `verifyOtp` is six digits, one from each cell. */
  lemma VerifiedCodeIsComplete(cells: seq<string>)
    requires |cells| == CellCount && forall i :: 0 <= i < |cells| ==> CellValue(cells[i])
    requires |Join(cells)| == 6
    ensures AllDigits(Join(cells)) && forall i :: 0 <= i < |cells| ==> |cells[i]| == 1
  {
    JoinFull(cells);
    JoinDigits(cells);
  }
}
