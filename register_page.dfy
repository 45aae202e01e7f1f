/**
 * The registration form (components/RegisterPage.jsx): the password checks run in a fixed
 * order before any request, the name is sent trimmed, and a successful reply switches to the
 * login view.
 */
module RegisterPage {
  import opened Js
  import opened Text
  import opened Storage
  import opened Entities
  import opened Api

  const Mismatch := "Passwords do not match"
  const TooShort := "Password must be at least 6 characters"
  const MinLength := 6

  /** The role buttons, in screen order. */
  const Roles: seq<string> := [Admin, Editor, Viewer]

  /** The body of a register request. */
  datatype Registration = Registration(name: string, email: string, password: string, role: string)

  /**
   * The checks of `handleSubmit`, in order: a mismatch is reported whatever the length; only
   * matching passwords are checked for length; None lets the request go.
   */
  function Validate(password: string, confirm: string): (r: Option<string>)
    ensures r == Some(Mismatch) <==> password != confirm
    ensures r == Some(TooShort) <==> password == confirm && |password| < MinLength
    ensures r == None <==> password == confirm && |password| >= MinLength
  {
    if password != confirm then Some(Mismatch)
    else if |password| < MinLength then Some(TooShort)
    else None
  }

  class RegisterForm {
    const store: Store

    var name: string
    var email: string
    var password: string
    var confirmPassword: string
    var role: string
    var error: string
    var loading: bool
    /** The register requests sent, in order. */
    var sent: seq<Registration>
    /** How many times `onSwitch` was called. */
    var switches: nat

    /**
     * The selected role is always one of the three buttons', and between two handlers the form
     * is not loading (a submit runs to its end before the next event), so the button is enabled.
     */
    predicate Valid()
      reads this
    {
      role in Roles && !loading
    }

    /** The `useState` initialisers: empty fields, role 'viewer'. */
    constructor (store: Store)
      ensures Valid()
      ensures this.store == store
      ensures name == "" && email == "" && password == "" && confirmPassword == "" && role == Viewer
      ensures error == "" && !loading && sent == [] && switches == 0
    {
      this.store := store;
      name, email, password, confirmPassword := "", "", "", "";
      role := Viewer;
      error := "";
      loading := false;
      sent := [];
      switches := 0;
    }

    /** A role button: the role becomes that button's value. */
    method SelectRole(i: nat)
      requires i < |Roles|
      requires Valid()
      modifies this
      ensures Valid() && role == Roles[i]
      ensures name == old(name) && email == old(email) && password == old(password)
      ensures confirmPassword == old(confirmPassword) && error == old(error)
      ensures loading == old(loading) && sent == old(sent) && switches == old(switches)
    {
      role := Roles[i];
    }

    /** Typing into the four text inputs. */
    method EditFields(name: string, email: string, password: string, confirmPassword: string)
      requires Valid()
      modifies this
      ensures Valid()
      ensures this.name == name && this.email == email
      ensures this.password == password && this.confirmPassword == confirmPassword
      ensures role == old(role) && error == old(error) && loading == old(loading)
      ensures sent == old(sent) && switches == old(switches)
    {
      this.name, this.email, this.password, this.confirmPassword := name, email, password, confirmPassword;
    }

    /** The footer's Sign In link. */
    method ClickSignIn()
      requires Valid()
      modifies this
      ensures Valid() && switches == old(switches) + 1
      ensures name == old(name) && email == old(email) && password == old(password)
      ensures confirmPassword == old(confirmPassword) && role == old(role) && error == old(error)
      ensures loading == old(loading) && sent == old(sent)
    {
      switches := switches + 1;
    }

    /**
     * `handleSubmit`: a failed check sets its message and
     * sends nothing; otherwise one request with the trimmed name, `onSwitch` exactly when the
     * reply's `success` is truthy, and a thrown error's message as the error.
     */
    method Submit(reply: HttpReply)
      requires Valid()
      modifies this, store
      ensures Valid() && role == old(role)
      ensures name == old(name) && email == old(email) && password == old(password)
      ensures confirmPassword == old(confirmPassword) && !loading
      ensures Validate(password, confirmPassword).Some? ==>
                error == Validate(password, confirmPassword).value
                && sent == old(sent) && switches == old(switches) && store.items == old(store.items)
      ensures Validate(password, confirmPassword).None? ==>
                sent == old(sent) + [Registration(Trim(name), email, password, role)]
      ensures Validate(password, confirmPassword).None? && ApiCall(reply).Failure? ==>
                error == ApiCall(reply).message && switches == old(switches) && store.items == old(store.items)
      ensures Validate(password, confirmPassword).None? && ApiCall(reply).Success? ==>
                error == "" && store.items == StoreToken(old(store.items), ApiCall(reply).value)
                && switches == old(switches) + (if TruthyFlag(NormalizeAuth(ApiCall(reply).value).success) then 1 else 0)
    {
      error := "";
      var problem := Validate(password, confirmPassword);
      if problem.Some? {
        error := problem.value;
        return;
      }
      loading := true;
      sent := sent + [Registration(Trim(name), email, password, role)];
      var r := Authenticate(store, reply);
      match r {
        case Failure(message) =>
          error := message;
        case Success(res) =>
          if TruthyFlag(res.success) {
            switches := switches + 1;
          }
      }
      loading := false;
    }
  }
}
