/** The login screen: the typed email is trimmed and lowercased, empty fields are refused
    before any request, and a returned user must be active and hold the associated role. */
module LoginScreen {
  import opened Common
  import opened Text

  /** `email.trim().toLowerCase()`. */
  function Normalize(email: string): string
  {
    ToLower(Trim(email))
  }

  lemma LowerCharKeepsSpace(c: char)
    ensures IsSpace(LowerChar(c)) <==> IsSpace(c)
  {
  }

  /** Normalizing twice is normalizing once: the result has no surrounding white space and no
      upper-case letter. */
  lemma NormalizeIdempotent(email: string)
    ensures Normalize(Normalize(email)) == Normalize(email)
  {
    var t := Trim(email);
    TrimShape(email);
    var l := ToLower(t);
    if l != [] {
      LowerCharKeepsSpace(t[0]);
      LowerCharKeepsSpace(t[|t| - 1]);
    }
    TrimNoop(l);
    ToLowerIdempotent(t);
  }

  /** An email made only of white space normalizes to the empty text. */
  lemma NormalizeBlank(email: string)
    requires forall i :: 0 <= i < |email| ==> IsSpace(email[i])
    ensures Normalize(email) == ""
  {
    TrimStartSuffix(email);
  }

  /** What the login dispatch gives back: an error with its message, or the user with the
      name of its status and the names of its roles. */
  datatype LoginReply = LoginError(message: string) | LoginUser(statusName: string, roleNames: seq<string>)

  /** How a login attempt ends. */
  datatype LoginOutcome = EmptyFields | Inactive | NotAssociated | LoggedIn | Failed

  function OutcomeOf(normalized: string, password: string, reply: LoginReply): (r: LoginOutcome)
    ensures r == EmptyFields <==> normalized == "" || password == ""
    ensures r == LoggedIn <==> normalized != "" && password != "" && reply.LoginUser?
                               && reply.statusName == "active" && "associated" in reply.roleNames
    ensures r == Failed <==> normalized != "" && password != "" && reply.LoginError?
    ensures r == Inactive <==> normalized != "" && password != "" && reply.LoginUser?
                               && reply.statusName != "active"
    ensures r == NotAssociated <==> normalized != "" && password != "" && reply.LoginUser?
                                    && reply.statusName == "active" && "associated" !in reply.roleNames
  {
    if normalized == "" || password == "" then EmptyFields
    else if reply.LoginError? then Failed
    else if reply.statusName != "active" then Inactive
    else if "associated" !in reply.roleNames then NotAssociated
    else LoggedIn
  }

  class LoginScreenState {
    var email: string
    var password: string
    var error: Option<string>
    var loading: bool
    var modalMessage: string
    var isModalVisible: bool
    /** Every `(email, password)` pair sent to the login dispatch, in order. */
    var attempts: seq<(string, string)>
    /** A navigation to the main screen is scheduled and has not fired yet. */
    var navigationPending: bool
    /** How many times the main screen was navigated to. */
    var navigations: nat

    constructor ()
      ensures email == "" && password == "" && error.None? && !loading
      ensures modalMessage == "" && !isModalVisible && attempts == []
      ensures !navigationPending && navigations == 0
    {
      email, password, error, loading := "", "", None, false;
      modalMessage, isModalVisible, attempts := "", false, [];
      navigationPending, navigations := false, 0;
    }

    method SetEmail(text: string)
      modifies this`email
      ensures email == text
    {
      email := text;
    }

    method SetPassword(text: string)
      modifies this`password
      ensures password == text
    {
      password := text;
    }

    method ToggleModal()
      modifies this`isModalVisible
      ensures isModalVisible == !old(isModalVisible)
    {
      isModalVisible := !isModalVisible;
    }

    /** The login press. Empty fields change nothing and send nothing. Otherwise the
        normalized email and the password are sent and loading is off again afterwards. An
        error clears both fields, shows its message and toggles the modal; an inactive or
        non-associated user keeps the fields; success clears the fields and the error and
        schedules the navigation. */
    method HandleLogin(reply: LoginReply) returns (outcome: LoginOutcome)
      modifies this`email, this`password, this`error, this`loading, this`modalMessage,
               this`isModalVisible, this`attempts, this`navigationPending
      ensures outcome == OutcomeOf(Normalize(old(email)), old(password), reply)
      ensures outcome == EmptyFields ==>
                && email == old(email) && password == old(password) && error == old(error)
                && loading == old(loading) && attempts == old(attempts)
      ensures outcome != EmptyFields ==>
                attempts == old(attempts) + [(Normalize(old(email)), old(password))] && !loading
      ensures outcome in {Inactive, NotAssociated} ==>
                email == old(email) && password == old(password) && error == old(error)
      ensures outcome in {LoggedIn, Failed} ==> email == "" && password == ""
      ensures outcome == LoggedIn ==> error.None? && navigationPending
      ensures outcome == Failed ==>
                && error == Some(reply.message) && modalMessage == reply.message
                && isModalVisible == !old(isModalVisible)
      ensures outcome != Failed ==>
                modalMessage == old(modalMessage) && isModalVisible == old(isModalVisible)
      ensures outcome != LoggedIn ==> navigationPending == old(navigationPending)
    {
      var normalized := Normalize(email);
      if normalized == "" || password == "" {
        return EmptyFields;
      }
      loading := true;
      attempts := attempts + [(normalized, password)];
      match reply {
        case LoginError(message) =>
          email, password := "", "";
          error := Some(message);
          modalMessage := message;
          ToggleModal();
          outcome := Failed;
        case LoginUser(statusName, roleNames) =>
          if statusName != "active" {
            outcome := Inactive;
          } else if "associated" !in roleNames {
            outcome := NotAssociated;
          } else {
            error := None;
            email, password := "", "";
            navigationPending := true;
            outcome := LoggedIn;
          }
      }
      loading := false;
    }

    /** The scheduled navigation fires: the modal is hidden and the main screen is opened. */
    method NavigationTimerFires()
      requires navigationPending
      modifies this`navigationPending, this`isModalVisible, this`navigations
      ensures !navigationPending && !isModalVisible && navigations == old(navigations) + 1
    {
      navigationPending := false;
      isModalVisible := false;
      navigations := navigations + 1;
    }
  }
}
