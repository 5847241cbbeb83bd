/**
 * The sign-in card of the landing page: three modes joined by links, one submit per mode, and
 * the translation of the backend's error messages into the texts shown to the user.
 */
module AuthCard {
  import opened Wrappers
  import opened Text
  import Supabase

  datatype Mode = Login | Register | Forgot

  /** The modes the links under the form lead to. */
  function Links(m: Mode): (r: seq<Mode>)
    ensures m !in r
    ensures Login in r <==> m != Login
    ensures m == Login ==> Register in r && Forgot in r
    ensures m != Login ==> r == [Login]
  {
    if m == Login then [Register, Forgot] else [Login]
  }

  /** Every mode reaches every other mode in at most two links, through the login mode. */
  lemma ModesConnected(a: Mode, b: Mode)
    ensures a == b || b in Links(a) || (Login in Links(a) && b in Links(Login))
  {
  }

  /** The password input is rendered in every mode but `Forgot`. */
  predicate PasswordShown(m: Mode) {
    m != Forgot
  }

  /** What a submit sends to the authentication service. */
  datatype AuthRequest = SignIn(email: string, password: string) | SignUp(email: string, password: string) | ResetPassword(email: string)

  function RequestFor(m: Mode, email: string, password: string): (r: AuthRequest)
    ensures r.email == email
    ensures r.ResetPassword? <==> !PasswordShown(m)
    ensures !r.ResetPassword? ==> r.password == password
    ensures r.SignIn? <==> m == Login
    ensures r.SignUp? <==> m == Register
  {
    match m
    case Login => SignIn(email, password)
    case Register => SignUp(email, password)
    case Forgot => ResetPassword(email)
  }

  const CreatedText := "Conta criada! Verifique seu e-mail para confirmar."
  const RecoveryText := "Link de recuperação enviado para seu e-mail."

  /** The success notice of a mode; a login shows none. */
  function SuccessMessage(m: Mode): (r: Option<string>)
    ensures r.None? <==> m == Login
    ensures m == Register ==> r == Some(CreatedText)
    ensures m == Forgot ==> r == Some(RecoveryText)
  {
    match m
    case Login => None
    case Register => Some(CreatedText)
    case Forgot => Some(RecoveryText)
  }

  /** The mode after a successful submit: a new account is sent back to login, the others stay. */
  function ModeAfterSuccess(m: Mode): (r: Mode)
    ensures r == Login <==> m != Forgot
    ensures m != Register ==> r == m
  {
    match m
    case Register => Login
    case _ => m
  }

  // ----- Error classification -----

  const WrongCredentialsText := "E-mail ou senha incorretos."
  const AlreadyRegisteredText := "Este e-mail já está cadastrado."
  const DefaultErrorText := "Ocorreu um erro. Tente novamente."
  const InvalidLoginMarker := "Invalid login"
  const AlreadyRegisteredMarker := "already registered"

  /** The text shown for an error whose message is `msg`; the rules are tried in order. */
  function Classify(msg: string): (r: string)
    ensures r != ""
    ensures Contains(msg, InvalidLoginMarker) ==> r == WrongCredentialsText
    ensures !Contains(msg, InvalidLoginMarker) && Contains(msg, AlreadyRegisteredMarker) ==> r == AlreadyRegisteredText
    ensures !Contains(msg, InvalidLoginMarker) && !Contains(msg, AlreadyRegisteredMarker) ==>
              r == if msg == "" then DefaultErrorText else msg
  {
    if Contains(msg, InvalidLoginMarker) then WrongCredentialsText
    else if Contains(msg, AlreadyRegisteredMarker) then AlreadyRegisteredText
    else if msg == "" then DefaultErrorText
    else msg
  }

  /** A text that holds neither `I` nor `y` matches neither marker. */
  lemma NoMarker(s: string)
    requires 'I' !in s && 'y' !in s
    ensures !Contains(s, InvalidLoginMarker) && !Contains(s, AlreadyRegisteredMarker)
  {
    assert InvalidLoginMarker[0] == 'I';
    NotContainsWithoutChar(s, InvalidLoginMarker, 0);
    assert AlreadyRegisteredMarker[6] == 'y';
    NotContainsWithoutChar(s, AlreadyRegisteredMarker, 6);
  }

  /** Each fixed error text is classified as itself. */
  lemma WrongCredentialsTextKept()
    ensures Classify(WrongCredentialsText) == WrongCredentialsText
  {
    NoMarker(WrongCredentialsText);
  }

  lemma AlreadyRegisteredTextKept()
    ensures Classify(AlreadyRegisteredText) == AlreadyRegisteredText
  {
    NoMarker(AlreadyRegisteredText);
  }

  lemma DefaultErrorTextKept()
    ensures Classify(DefaultErrorText) == DefaultErrorText
  {
    NoMarker(DefaultErrorText);
  }

  /** None of the texts `Classify` produces is rewritten by classifying it again. */
  lemma ClassifyIdempotent(msg: string)
    ensures Classify(Classify(msg)) == Classify(msg)
  {
    WrongCredentialsTextKept();
    AlreadyRegisteredTextKept();
    DefaultErrorTextKept();
  }

  /** Without a configured client, the service's own message is what the user sees. */
  lemma NotConfiguredShownVerbatim()
    ensures Classify(Supabase.NotConfiguredMessage) == Supabase.NotConfiguredMessage
  {
    NoMarker(Supabase.NotConfiguredMessage);
  }

  // ----- The component -----

  class Card {
    var mode: Mode
    var email: string
    var password: string
    var loading: bool
    var error: Option<string>
    var message: Option<string>

    constructor()
      ensures mode == Login && email == "" && password == ""
      ensures !loading && error == None && message == None
    {
      mode := Login;
      email := "";
      password := "";
      loading := false;
      error := None;
      message := None;
    }

    /** Clicking one of the links under the form. */
    method Follow(target: Mode)
      requires target in Links(mode)
      modifies this
      ensures mode == target
      ensures email == old(email) && password == old(password)
      ensures loading == old(loading) && error == old(error) && message == old(message)
    {
      mode := target;
    }

    method SetEmail(email: string)
      modifies this
      ensures this.email == email
      ensures mode == old(mode) && password == old(password)
      ensures loading == old(loading) && error == old(error) && message == old(message)
    {
      this.email := email;
    }

    method SetPassword(password: string)
      modifies this
      ensures this.password == password
      ensures mode == old(mode) && email == old(email)
      ensures loading == old(loading) && error == old(error) && message == old(message)
    {
      this.password := password;
    }

    /**
     * `handleSubmit`. `answer` is the error message the service returns (`None` on success). The
     * request goes out only when a client exists; the earlier error and notice never survive.
     */
    method HandleSubmit(client: Supabase.Client, answer: Option<string>) returns (sent: Option<AuthRequest>)
      modifies this
      ensures sent == if client.Connected? then Some(RequestFor(old(mode), email, password)) else None
      ensures Supabase.AuthAction(client, answer).None? ==>
                error == None && message == SuccessMessage(old(mode)) && mode == ModeAfterSuccess(old(mode))
      ensures Supabase.AuthAction(client, answer).Some? ==>
                error == Some(Classify(Supabase.AuthAction(client, answer).value)) && message == None && mode == old(mode)
      ensures !loading
      ensures email == old(email) && password == old(password)
    {
      error := None;
      message := None;
      loading := true;
      sent := if client.Connected? then Some(RequestFor(mode, email, password)) else None;
      var failure := Supabase.AuthAction(client, answer);
      if failure.Some? {
        error := Some(Classify(failure.value));
      } else {
        match mode
        case Login =>
        case Register =>
          message := Some(CreatedText);
          mode := Login;
        case Forgot =>
          message := Some(RecoveryText);
      }
      loading := false;
    }
  }
}
