/** The registration form: field edits, the two ordered checks, the create
    request and the reset that follows a successful one. */
module Register {
  import opened Records

  /** The form's state object, keyed by input name. */
  type Form = map<string, string>

  const EmptyForm: Form := map["email" := "", "username" := "", "password" := "", "confirmPassword" := ""]

  predicate HasFields(fd: Form) {
    "email" in fd && "username" in fd && "password" in fd && "confirmPassword" in fd
  }

  datatype Check = Passed | Mismatch | MissingField

  /** The checks of `handleSubmit`, in order: the passwords must agree before emptiness is
      even looked at. */
  function CheckForm(fd: Form): (c: Check)
    requires HasFields(fd)
    ensures c == Mismatch <==> fd["password"] != fd["confirmPassword"]
    ensures c == MissingField <==>
              fd["password"] == fd["confirmPassword"] &&
              (fd["email"] == "" || fd["username"] == "" || fd["password"] == "" || fd["confirmPassword"] == "")
    ensures c == Passed <==>
              fd["password"] == fd["confirmPassword"] &&
              fd["email"] != "" && fd["username"] != "" && fd["password"] != ""
  {
    if fd["password"] != fd["confirmPassword"] then Mismatch
    else if fd["email"] == "" || fd["username"] == "" || fd["password"] == "" || fd["confirmPassword"] == "" then MissingField
    else Passed
  }

  /** The body of the create request. */
  function Payload(fd: Form): (body: map<string, string>)
    requires HasFields(fd)
    ensures body.Keys == {"email", "username", "password"}
    ensures forall k :: k in body ==> body[k] == fd[k]
  {
    map["email" := fd["email"], "username" := fd["username"], "password" := fd["password"]]
  }

  /** The confirmation never leaves the browser. */
  lemma PayloadOmitsConfirmation(fd: Form)
    requires HasFields(fd)
    ensures "confirmPassword" !in Payload(fd)
  {
  }

  /** Mismatched passwords are reported even when every field is empty but one. */
  lemma MismatchBeforeEmptiness(password: string)
    requires password != ""
    ensures CheckForm(EmptyForm["password" := password]) == Mismatch
  {
  }

  /** The reply to `POST /users`. */
  datatype RegisterReply = Created | RegisterRejected | RegisterThrew

  const MismatchError: string := "Passwords do not match!"
  const MissingError: string := "All fields are required!"
  const SuccessMessage: string := "Registration successful!"
  const RejectedError: string := "Failed to register. Please try again."
  const ThrewError: string := "Server error. Please try again later."

  class RegisterForm {
    var formData: Form
    var error: string
    var success: string

    /** The four inputs stay present; edits can only overwrite them. */
    predicate Valid()
      reads this
    {
      HasFields(formData)
    }

    constructor ()
      ensures Valid() && formData == EmptyForm && error == "" && success == ""
    {
      formData, error, success := EmptyForm, "", "";
    }

    /** `handleChange`: overwrite the named input and clear both messages. */
    method HandleChange(name: string, value: string)
      requires Valid()
      modifies this
      ensures Valid()
      ensures formData == old(formData)[name := value]
      ensures forall k :: k in old(formData) && k != name ==> formData[k] == old(formData)[k]
      ensures error == "" && success == ""
    {
      formData := formData[name := value];
      error, success := "", "";
    }

    /** `handleSubmit`: `request` is the body sent, when one is sent. */
    method HandleSubmit(reply: RegisterReply) returns (request: Option<map<string, string>>)
      requires Valid()
      modifies this
      ensures Valid()
      ensures CheckForm(old(formData)) == Mismatch ==>
                error == MismatchError && request == None &&
                formData == old(formData) && success == old(success)
      ensures CheckForm(old(formData)) == MissingField ==>
                error == MissingError && request == None &&
                formData == old(formData) && success == old(success)
      ensures CheckForm(old(formData)) == Passed ==> request == Some(Payload(old(formData)))
      ensures request.Some? && reply.Created? ==>
                success == SuccessMessage && formData == EmptyForm && error == old(error)
      ensures request.Some? && reply.RegisterRejected? ==>
                error == RejectedError && formData == old(formData) && success == old(success)
      ensures request.Some? && reply.RegisterThrew? ==>
                error == ThrewError && formData == old(formData) && success == old(success)
    {
      match CheckForm(formData) {
        case Mismatch =>
          error := MismatchError;
          return None;
        case MissingField =>
          error := MissingError;
          return None;
        case Passed =>
      }
      request := Some(Payload(formData));
      match reply {
        case Created =>
          success := SuccessMessage;
          formData := EmptyForm;
        case RegisterRejected =>
          error := RejectedError;
        case RegisterThrew =>
          error := ThrewError;
      }
    }
  }
}
