/** The sign-up screen: a mobile number and a profile form, an OTP request,
    four one-digit OTP boxes (filled in automatically when the server echoes
    the code) and the verification that creates the account. */
module Signup {
  import opened Common
  import opened Text
  import opened Store

  const OtpLength: nat := 4

  /** The boxes the screen starts with: four empty slots. */
  const EmptyDigits: seq<string> := ["", "", "", ""]

  /** `digits.join('')`. */
  function Join(digits: seq<string>): (r: string)
    ensures digits == [] ==> r == ""
  {
    if digits == [] then "" else digits[0] + Join(digits[1..])
  }

  /** `s.split('')`: one single-character string per character. */
  function Chars(s: string): (r: seq<string>)
    ensures |r| == |s|
    ensures forall i :: 0 <= i < |s| ==> r[i] == [s[i]]
  {
    if s == "" then [] else [[s[0]]] + Chars(s[1..])
  }

  /** Splitting and joining again gives back the code. */
  lemma {:induction false} JoinChars(s: string)
    ensures Join(Chars(s)) == s
  {
    if s != "" {
      JoinChars(s[1..]);
      assert Chars(s)[1..] == Chars(s[1..]);
    }
  }

  /** Every box holds at most one character. */
  predicate SlotsValid(digits: seq<string>)
  {
    forall i :: 0 <= i < |digits| ==> |digits[i]| <= 1
  }

  /** The number of boxes that hold a character. */
  function FilledSlots(digits: seq<string>): (r: nat)
    ensures r <= |digits|
  {
    if digits == [] then 0 else (if digits[0] != "" then 1 else 0) + FilledSlots(digits[1..])
  }

  /** With at most one character per box, the joined code is as long as the
      number of filled boxes. */
  lemma {:induction false} JoinLength(digits: seq<string>)
    requires SlotsValid(digits)
    ensures |Join(digits)| == FilledSlots(digits)
  {
    if digits != [] {
      JoinLength(digits[1..]);
    }
  }

  /** Only all boxes filled make a code of full length. */
  lemma {:induction false} FullCodeIffAllFilled(digits: seq<string>)
    requires SlotsValid(digits)
    ensures FilledSlots(digits) == |digits| <==> forall i :: 0 <= i < |digits| ==> digits[i] != ""
  {
    if digits != [] {
      FullCodeIffAllFilled(digits[1..]);
      assert forall i :: 1 <= i < |digits| ==> digits[i] == digits[1..][i - 1];
    }
  }

  /** Where the focus goes after typing `text` into box `index`: on to the
      next box after an entry, back to the previous one after a clear, and
      nowhere at either end. */
  function FocusAfter(text: string, index: nat): (r: Option<nat>)
    ensures text != "" && index < OtpLength - 1 ==> r == Some(index + 1)
    ensures text == "" && index > 0 ==> r == Some(index - 1)
    ensures (text != "" && index >= OtpLength - 1) || (text == "" && index == 0) ==> r.None?
  {
    if text != "" && index < OtpLength - 1 then Some(index + 1)
    else if text == "" && index > 0 then Some(index - 1)
    else None
  }

  /** The boxes after typing `text` into box `index`: text with a non-digit is
      ignored; otherwise the box keeps only the last character typed. */
  function OtpChanged(digits: seq<string>, text: string, index: nat): (r: seq<string>)
    requires index < |digits|
    ensures !AllDigits(text) ==> r == digits
    ensures AllDigits(text) ==> r == digits[index := LastChar(text)]
    ensures |r| == |digits|
    ensures SlotsValid(digits) ==> SlotsValid(r)
  {
    if AllDigits(text) then digits[index := LastChar(text)] else digits
  }

  /** Typing a digit into every box, one after another, spells out the code. */
  lemma TypingEachDigitSpellsCode(code: string)
    requires |code| == OtpLength && AllDigits(code)
    ensures Join(OtpChanged(OtpChanged(OtpChanged(OtpChanged(EmptyDigits,
                  [code[0]], 0), [code[1]], 1), [code[2]], 2), [code[3]], 3)) == code
  {
    var d := OtpChanged(OtpChanged(OtpChanged(OtpChanged(EmptyDigits,
                  [code[0]], 0), [code[1]], 1), [code[2]], 2), [code[3]], 3);
    assert d == Chars(code);
    JoinChars(code);
  }

  /** Why a verification was not sent. */
  datatype VerifyRefusal = WrongOtpLength | ProfileIncomplete

  /** The checks before verifying, in order: the code must have exactly four
      characters, then every profile field must have something besides white
      space (`!field.trim()` is `IsBlank(field)`, see `Text.TrimEmptyIffBlank`). */
  function VerifyCheck(otp: string, name: string, street: string, city: string,
                       state: string, postalCode: string): (r: Option<VerifyRefusal>)
    ensures |otp| != OtpLength ==> r == Some(WrongOtpLength)
    ensures |otp| == OtpLength && (IsBlank(name) || IsBlank(street) || IsBlank(city) || IsBlank(state) || IsBlank(postalCode))
      ==> r == Some(ProfileIncomplete)
    ensures r.None? <==> (|otp| == OtpLength && !IsBlank(name) && !IsBlank(street) && !IsBlank(city)
                          && !IsBlank(state) && !IsBlank(postalCode))
  {
    if |otp| != OtpLength then Some(WrongOtpLength)
    else if IsBlank(name) || IsBlank(street) || IsBlank(city) || IsBlank(state) || IsBlank(postalCode)
    then Some(ProfileIncomplete)
    else None
  }

  /** The code that is verified: the one handed over by the autofill, or
      else the boxes joined. */
  function OtpToVerify(autoOtp: Option<string>, digits: seq<string>): (r: string)
    ensures Truthy(autoOtp) ==> r == autoOtp.value
    ensures !Truthy(autoOtp) ==> r == Join(digits)
  {
    if Truthy(autoOtp) then autoOtp.value else Join(digits)
  }

  /** The autofilled code: at most the first four characters the server sent. */
  function AutofillCode(otp: string): (r: string)
    ensures |r| <= OtpLength && |r| <= |otp| && r == otp[..|r|]
    ensures |otp| >= OtpLength ==> |r| == OtpLength
  {
    FirstN(otp, OtpLength)
  }

  /** The body of the verification request; the address is always a manual
      one in India, marked as default. */
  datatype VerifyRequest = VerifyRequest(
    mobile: string, otp: string, name: string, mode: string,
    street: string, city: string, state: string, zipCode: string,
    country: string, isDefault: bool)

  const ManualMode: string := "manual"
  const DefaultCountry: string := "India"

  /** The request sent for `otp` and the form's fields, or `None` when a
      check refuses it. */
  function VerifyRequestFor(mobile: string, otp: string, name: string, street: string, city: string,
                            state: string, postalCode: string): (r: Option<VerifyRequest>)
    ensures r.None? <==> VerifyCheck(otp, name, street, city, state, postalCode).Some?
    ensures r.Some? ==> r.value.mobile == mobile && r.value.otp == otp && r.value.name == name
    ensures r.Some? ==> r.value.street == street && r.value.city == city && r.value.state == state
                        && r.value.zipCode == postalCode
    ensures r.Some? ==> r.value.mode == "manual" && r.value.country == "India" && r.value.isDefault
    ensures r.Some? ==> |r.value.otp| == OtpLength
  {
    if VerifyCheck(otp, name, street, city, state, postalCode).Some? then None
    else Some(VerifyRequest(mobile, otp, name, ManualMode, street, city, state, postalCode, DefaultCountry, true))
  }

  /** What the send-OTP reply carries besides its flag: the code itself, in
      development builds. */
  datatype SendOtpData = SendOtpData(otp: Option<string>)

  class SignupScreen {
    var mobile: string
    var name: string
    var street: string
    var city: string
    var stateField: string
    var postalCode: string
    var showOTP: bool
    var isVerified: bool
    var isLoading: bool
    var otpDigits: seq<string>
    var session: Option<Session>

    constructor ()
      ensures mobile == "" && name == "" && street == "" && city == "" && stateField == "" && postalCode == ""
      ensures !showOTP && !isVerified && !isLoading
      ensures otpDigits == EmptyDigits && |otpDigits| == OtpLength && SlotsValid(otpDigits)
      ensures session.None?
    {
      mobile, name, street, city, stateField, postalCode := "", "", "", "", "", "";
      showOTP, isVerified, isLoading := false, false, false;
      otpDigits := EmptyDigits;
      session := None;
    }

    /** `handleOtpChange` on box `index` (one of the boxes on screen). */
    method HandleOtpChange(text: string, index: nat) returns (focus: Option<nat>)
      requires index < |otpDigits|
      modifies this`otpDigits
      ensures otpDigits == OtpChanged(old(otpDigits), text, index)
      ensures !AllDigits(text) ==> focus.None?
      ensures AllDigits(text) ==> focus == FocusAfter(text, index)
    {
      if AllDigits(text) {
        otpDigits := otpDigits[index := LastChar(text)];
        focus := FocusAfter(text, index);
      } else {
        focus := None;
      }
    }

    /** `handleVerifyOTP`: a refused check sends nothing and changes nothing;
        otherwise the request is sent, a success stores the session and marks
        the account verified, and the spinner is off afterwards. */
    method HandleVerifyOtp(autoOtp: Option<string>, reply: Reply<Session>) returns (request: Option<VerifyRequest>)
      modifies this`isLoading, this`session, this`isVerified
      ensures request == VerifyRequestFor(mobile, OtpToVerify(autoOtp, otpDigits), name, street, city, stateField, postalCode)
      ensures request.None? ==> isLoading == old(isLoading) && session == old(session) && isVerified == old(isVerified)
      ensures request.Some? ==> !isLoading
      ensures request.Some? && reply.Success? ==> session == Some(reply.data) && isVerified
      ensures request.Some? && !reply.Success? ==> session == old(session) && isVerified == old(isVerified)
    {
      var otp := OtpToVerify(autoOtp, otpDigits);
      request := VerifyRequestFor(mobile, otp, name, street, city, stateField, postalCode);
      if request.None? {
        return;
      }
      isLoading := true;
      if reply.Success? {
        session := Some(reply.data);
        isVerified := true;
      }
      isLoading := false;
    }

    /** `handleAutoVerify`: only a code of exactly four characters goes on to
        verification. */
    method HandleAutoVerify(otp: string, reply: Reply<Session>) returns (request: Option<VerifyRequest>)
      modifies this`isLoading, this`session, this`isVerified
      ensures |otp| != OtpLength ==> request.None?
      ensures |otp| == OtpLength ==> request == VerifyRequestFor(mobile, otp, name, street, city, stateField, postalCode)
      ensures request.Some? ==> !isLoading
      ensures request.Some? && reply.Success? ==> session == Some(reply.data) && isVerified
      ensures request.Some? && !reply.Success? ==> session == old(session) && isVerified == old(isVerified)
      ensures request.None? ==> isLoading == old(isLoading) && session == old(session) && isVerified == old(isVerified)
    {
      if otp == "" || |otp| != OtpLength {
        return None;
      }
      request := HandleVerifyOtp(Some(otp), reply);
    }

    /** `handleSendOtp`. A blank mobile number sends nothing and changes
        nothing. Otherwise a success opens the OTP boxes; when the reply
        carries the code, its first four characters fill the boxes and,
        once the timer fires, are handed to auto-verification (answered by
        `verifyReply`). The spinner is off afterwards. */
    method HandleSendOtp(reply: Reply<SendOtpData>, verifyReply: Reply<Session>)
      returns (sent: bool, verify: Option<VerifyRequest>)
      modifies this`showOTP, this`otpDigits, this`isLoading, this`session, this`isVerified
      ensures sent <==> !IsBlank(mobile)
      ensures !sent ==> (verify.None? && showOTP == old(showOTP) && otpDigits == old(otpDigits) &&
                         isLoading == old(isLoading) && session == old(session) && isVerified == old(isVerified))
      ensures sent ==> !isLoading
      ensures sent && reply.Success? ==> showOTP
      ensures !(sent && reply.Success?) ==> showOTP == old(showOTP)
      ensures sent && reply.Success? && Truthy(reply.data.otp) ==>
        otpDigits == Chars(AutofillCode(reply.data.otp.value)) &&
        verify == (if |AutofillCode(reply.data.otp.value)| == OtpLength then VerifyRequestFor(mobile, AutofillCode(reply.data.otp.value), name, street, city, stateField, postalCode) else None)
      ensures !(sent && reply.Success? && Truthy(reply.data.otp)) ==> otpDigits == old(otpDigits) && verify.None?
      ensures verify.None? ==> session == old(session) && isVerified == old(isVerified)
      ensures verify.Some? && verifyReply.Success? ==> session == Some(verifyReply.data) && isVerified
    {
      if IsBlank(mobile) {
        return false, None;
      }
      sent, verify := true, None;
      isLoading := true;
      if reply.Success? {
        showOTP := true;
        if Truthy(reply.data.otp) {
          var code := AutofillCode(reply.data.otp.value);
          otpDigits := Chars(code);
          isLoading := false;
          verify := HandleAutoVerify(code, verifyReply);
        }
      }
      isLoading := false;
    }
  }
}
