/** Log-in and sign-up. The form checks its required fields in a fixed
    order, then either signs in, or signs up and, when the backend returns
    the new user, creates that user's profile row with the chosen role. */
module AuthScreen {
  import opened Remote

  /** The account role picked on the sign-up form. */
  datatype Role = Buyer | Seller
  {
    /** The value stored in the profile's `role` column. */
    function Name(): string
    {
      match this
      case Buyer => "buyer"
      case Seller => "seller"
    }
  }

  const CredentialsMessage := "Please enter email and password."
  const NameMessage := "Please enter your name."
  const PhoneMessage := "Please enter your phone number."

  /** The form's validation: the message of the first missing field,
      or None when the form may be sent. Email and password come first in
      both modes; sign-up then needs the name, then the phone. */
  function MissingField(isLogin: bool, email: string, password: string,
                        fullName: string, phone: string): (m: Option<string>)
    ensures m.None? <==> email != "" && password != "" && (!isLogin ==> fullName != "" && phone != "")
    ensures (email == "" || password == "") ==> m == Some(CredentialsMessage)
    ensures m == Some(NameMessage) <==> email != "" && password != "" && !isLogin && fullName == ""
    ensures m == Some(PhoneMessage) <==>
              email != "" && password != "" && !isLogin && fullName != "" && phone == ""
  {
    if email == "" || password == "" then Some(CredentialsMessage)
    else if !isLogin && fullName == "" then Some(NameMessage)
    else if !isLogin && phone == "" then Some(PhoneMessage)
    else None
  }

  /** Logging in never looks at the sign-up-only fields. */
  lemma LoginIgnoresSignUpFields(email: string, password: string,
                                 fullName: string, phone: string, fullName': string, phone': string)
    ensures MissingField(true, email, password, fullName, phone)
         == MissingField(true, email, password, fullName', phone')
  {
  }

  /** Only one message is ever reported, so a missing name hides a missing
      phone. */
  lemma NameReportedBeforePhone(email: string, password: string)
    requires email != "" && password != ""
    ensures MissingField(false, email, password, "", "") == Some(NameMessage)
  {
  }

  /** The row written to `profiles` after a sign-up. */
  datatype ProfileInsert = ProfileInsert(id: string, fullName: string, phoneNumber: string, role: string)

  /** The backend requests this screen issues. */
  datatype Request =
    | SignIn(email: string, password: string)
    | SignUp(email: string, password: string)
    | InsertProfile(row: ProfileInsert)

  /** What `supabase.auth.signUp` resolves to: an error, or data whose
      `user` may be absent. */
  datatype SignUpReply = SignUpError(message: string) | SignedUp(newUserId: Option<string>)

  /** The redirect effect: whenever the auth context holds a user, the
      screen is replaced by the main tabs. */
  function Redirect(user: Option<User>): (nav: Option<Navigation>)
    ensures nav.Some? <==> user.Some?
    ensures nav.Some? ==> nav.value == Replace(MainTabs)
  {
    if user.Some? then Some(Replace(MainTabs)) else None
  }

  /** The form's state. */
  class AuthForm {
    var isLogin: bool
    var loading: bool
    var email: string
    var password: string
    var fullName: string
    var phone: string
    var role: Role

    constructor ()
      ensures isLogin && !loading && role == Buyer
      ensures email == "" && password == "" && fullName == "" && phone == ""
    {
      isLogin, loading := true, false;
      email, password, fullName, phone := "", "", "", "";
      role := Buyer;
    }

    /** The "Log In" / "Sign Up" toggle. */
    method SetMode(login: bool)
      modifies this`isLogin
      ensures isLogin == login
    {
      isLogin := login;
    }

    /** The "Buy Water" / "Sell Water" buttons, drawn only on the sign-up
        form. The role is kept across the mode toggle. */
    method SelectRole(r: Role)
      requires !isLogin
      modifies this`role
      ensures role == r
    {
      role := r;
    }

    /** `handleAuth`, run from the submit button, which is disabled while
        `loading`. A validation failure alerts and sends nothing. Otherwise
        exactly one auth call is made; after a sign-up that returned a user,
        the profile row follows; `loading` is false at the end of every
        path. */
    method HandleAuth(signIn: Reply<()>, signUp: SignUpReply, insert: Reply<()>)
      returns (sent: seq<Request>, alerts: seq<Alert>)
      requires !loading
      modifies this`loading
      ensures !loading
      ensures var missing := MissingField(isLogin, email, password, fullName, phone);
              missing.Some? ==> sent == [] && alerts == [Alert("Missing Info", missing.value)]
      ensures MissingField(isLogin, email, password, fullName, phone).None? ==>
                if isLogin then
                  sent == [SignIn(email, password)] &&
                  alerts == (if signIn.Err? then [Alert("Login Failed", signIn.message)] else [])
                else match signUp
                  case SignUpError(message) =>
                    sent == [SignUp(email, password)] && alerts == [Alert("Sign Up Error", message)]
                  case SignedUp(None) =>
                    sent == [SignUp(email, password)] && alerts == []
                  case SignedUp(Some(id)) =>
                    sent == [SignUp(email, password), InsertProfile(ProfileInsert(id, fullName, phone, role.Name()))] &&
                    alerts == [if insert.Err? then Alert("Profile Error", insert.message)
                               else Alert("Welcome!", "Your account has been created.")]
    {
      var missing := MissingField(isLogin, email, password, fullName, phone);
      if missing.Some? {
        sent, alerts := [], [Alert("Missing Info", missing.value)];
        return;
      }
      loading := true;
      sent, alerts := [], [];
      if isLogin {
        sent := sent + [SignIn(email, password)];
        if signIn.Err? {
          alerts := alerts + [Alert("Login Failed", signIn.message)];
        }
      } else {
        sent := sent + [SignUp(email, password)];
        if signUp.SignUpError? {
          alerts := alerts + [Alert("Sign Up Error", signUp.message)];
          loading := false;
          return;
        }
        if signUp.newUserId.Some? {
          sent := sent + [InsertProfile(ProfileInsert(signUp.newUserId.value, fullName, phone, role.Name()))];
          if insert.Err? {
            alerts := alerts + [Alert("Profile Error", insert.message)];
          } else {
            alerts := alerts + [Alert("Welcome!", "Your account has been created.")];
          }
        }
      }
      loading := false;
    }
  }

  /** The stored role is always one of the two the profile table knows. */
  lemma RoleNames(r: Role)
    ensures r.Name() == "buyer" || r.Name() == "seller"
    ensures r.Name() == "seller" <==> r == Seller
  {
  }
}
