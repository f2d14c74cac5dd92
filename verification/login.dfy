/** The log-in screen: two stages, first the mobile number, then the OTP sent
    to it. */
module Login {
  import opened Common
  import opened Store

  datatype Stage = Phone | Otp

  datatype SendOtpRequest = SendOtpRequest(mobile: string)
  datatype VerifyOtpRequest = VerifyOtpRequest(mobile: string, otp: string)

  /** The stage after a send-OTP attempt: only a success reply moves on. */
  function StageAfterSend(stage: Stage, mobile: string, reply: Reply<()>): (r: Stage)
    ensures mobile == "" ==> r == stage
    ensures mobile != "" && reply.Success? ==> r == Otp
    ensures mobile != "" && !reply.Success? ==> r == stage
  {
    if mobile != "" && reply.Success? then Otp else stage
  }

  /** The stage after a series of send attempts. */
  function StagesAfter(stage: Stage, mobiles: seq<string>, replies: seq<Reply<()>>): (r: Stage)
    requires |mobiles| == |replies|
    ensures mobiles == [] ==> r == stage
    decreases |mobiles|
  {
    if mobiles == [] then stage
    else StagesAfter(StageAfterSend(stage, mobiles[0], replies[0]), mobiles[1..], replies[1..])
  }

  /** The stage never moves back: once the OTP stage is reached, every later
      send attempt keeps it. */
  lemma {:induction false} OtpStageIsFinal(mobiles: seq<string>, replies: seq<Reply<()>>, stage: Stage)
    requires |mobiles| == |replies|
    ensures stage == Otp ==> StagesAfter(stage, mobiles, replies) == Otp
    ensures (exists i :: 0 <= i < |mobiles| && mobiles[i] != "" && replies[i].Success?) ==>
      StagesAfter(stage, mobiles, replies) == Otp
    decreases |mobiles|
  {
    if mobiles != [] {
      OtpStageIsFinal(mobiles[1..], replies[1..], StageAfterSend(stage, mobiles[0], replies[0]));
      if exists i :: 0 <= i < |mobiles| && mobiles[i] != "" && replies[i].Success? {
        var i :| 0 <= i < |mobiles| && mobiles[i] != "" && replies[i].Success?;
        if i > 0 {
          assert mobiles[1..][i - 1] != "" && replies[1..][i - 1].Success?;
        }
      }
    }
  }

  class LoginScreen {
    var mobile: string
    var otp: string
    var stage: Stage
    var isLoading: bool
    var session: Option<Session>

    constructor ()
      ensures mobile == "" && otp == "" && stage == Phone && !isLoading && session.None?
    {
      mobile, otp, stage, isLoading, session := "", "", Phone, false, None;
    }

    /** `handleSendOtp`: an empty number sends nothing and changes nothing;
        otherwise the number is sent, the spinner is off once any reply or
        error is in, and only a success moves to the OTP stage. */
    method HandleSendOtp(reply: Reply<()>) returns (request: Option<SendOtpRequest>)
      modifies this`stage, this`isLoading
      ensures mobile == "" ==> request.None? && stage == old(stage) && isLoading == old(isLoading)
      ensures mobile != "" ==> request == Some(SendOtpRequest(mobile)) && !isLoading
      ensures stage == StageAfterSend(old(stage), mobile, reply)
    {
      if mobile == "" {
        return None;
      }
      isLoading := true;
      request := Some(SendOtpRequest(mobile));
      match reply {
        case Success(_) =>
          isLoading := false;
          stage := Otp;
        case Failure(_) =>
          isLoading := false;
        case Thrown =>
          isLoading := false;
      }
    }

    /** `handleVerifyOtp`: an empty code sends nothing and changes nothing;
        otherwise the number and code are sent, the spinner is off once any
        reply or error is in, and a success stores the returned session (the
        copy written to device storage is the same). */
    method HandleVerifyOtp(reply: Reply<Session>) returns (request: Option<VerifyOtpRequest>)
      modifies this`isLoading, this`session
      ensures otp == "" ==> request.None? && isLoading == old(isLoading) && session == old(session)
      ensures otp != "" ==> request == Some(VerifyOtpRequest(mobile, otp)) && !isLoading
      ensures otp != "" && reply.Success? ==> session == Some(reply.data)
      ensures !(otp != "" && reply.Success?) ==> session == old(session)
    {
      if otp == "" {
        return None;
      }
      isLoading := true;
      request := Some(VerifyOtpRequest(mobile, otp));
      match reply {
        case Success(s) =>
          isLoading := false;
          session := Some(s);
        case Failure(_) =>
          isLoading := false;
        case Thrown =>
          isLoading := false;
      }
    }
  }
}
