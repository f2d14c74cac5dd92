/** The contact form: name, phone and message, sent to the support desk. */
module Contact {
  import opened Common
  import opened Text

  datatype ContactPayload = ContactPayload(name: string, mobile: string, message: string)

  /** Why the form was not sent. */
  datatype Refusal = Incomplete | InvalidPhone

  /** The checks before sending, in order: every field filled, then a phone
      number of exactly ten digits. */
  function SendCheck(name: string, phone: string, message: string): (r: Option<Refusal>)
    ensures name == "" || phone == "" || message == "" ==> r == Some(Incomplete)
    ensures name != "" && phone != "" && message != "" && !TenDigits(phone) ==> r == Some(InvalidPhone)
    ensures r.None? <==> name != "" && message != "" && TenDigits(phone)
  {
    if name == "" || phone == "" || message == "" then Some(Incomplete)
    else if !TenDigits(phone) then Some(InvalidPhone)
    else None
  }

  /** A number that passes is ten ASCII digits long; a shorter or longer one,
      or one with a space or a "+", never does. */
  lemma AcceptedPhones(phone: string)
    ensures TenDigits(phone) ==> |phone| == 10 && forall i :: 0 <= i < 10 ==> '0' <= phone[i] <= '9'
    ensures (exists i :: 0 <= i < |phone| && (phone[i] == '+' || phone[i] == ' ')) ==> !TenDigits(phone)
  {
  }

  class ContactScreen {
    var name: string
    var phone: string
    var message: string
    var loading: bool

    constructor ()
      ensures name == "" && phone == "" && message == "" && !loading
    {
      name, phone, message, loading := "", "", "", false;
    }

    /** `handleSend`: a refused form sends nothing and changes nothing;
        otherwise the payload names the phone `mobile`, a success clears all
        three fields, any other outcome keeps them, and the spinner is off
        afterwards. */
    method HandleSend(reply: Reply<()>) returns (request: Option<ContactPayload>)
      modifies this`name, this`phone, this`message, this`loading
      ensures SendCheck(old(name), old(phone), old(message)).Some? ==>
        request.None? && name == old(name) && phone == old(phone) && message == old(message) && loading == old(loading)
      ensures SendCheck(old(name), old(phone), old(message)).None? ==>
        request == Some(ContactPayload(old(name), old(phone), old(message))) && !loading
      ensures SendCheck(old(name), old(phone), old(message)).None? && reply.Success? ==>
        name == "" && phone == "" && message == ""
      ensures SendCheck(old(name), old(phone), old(message)).None? && !reply.Success? ==>
        name == old(name) && phone == old(phone) && message == old(message)
    {
      if SendCheck(name, phone, message).Some? {
        return None;
      }
      loading := true;
      request := Some(ContactPayload(name, phone, message));
      if reply.Success? {
        name, phone, message := "", "", "";
      }
      loading := false;
    }
  }
}
