/**
 * The sign-in / sign-up modal: the translation of the authentication
 * service's English error messages into Portuguese, and the submit handler
 * that dispatches on the mode and raises and lowers the loading flag.
 */
module AuthModal {
  import opened Prelude
  import opened Text

  /** The translation table, in the order its entries are tried: a key and its translation. */
  const ErrorMap: seq<(string, string)> := [
    ("User already registered", "Este e-mail já está cadastrado."),
    ("Password should be at least 6 characters", "A senha deve ter pelo menos 6 caracteres."),
    ("Invalid login credentials", "E-mail ou senha incorretos."),
    ("Email not confirmed", "E-mail não confirmado. Verifique sua caixa de entrada."),
    ("Invalid email or password", "E-mail ou senha inválidos."),
    ("User not found", "Usuário não encontrado."),
    ("Email already in use", "Este e-mail já está em uso."),
    ("Too many requests", "Muitas tentativas. Aguarde alguns minutos e tente novamente."),
    ("Database error saving new user", "Erro ao salvar o usuário. Tente novamente."),
    ("Signup requires a valid password", "Por favor, insira uma senha válida."),
    ("Unable to validate email address: invalid format", "Formato de e-mail inválido.")
  ]

  /** The message shown when no key occurs in the error. */
  const DefaultAuthError := "Erro na autenticação. Tente novamente."

  /** Entry `i` is the first entry of `table` whose key occurs in `message`. */
  predicate FirstMatchAt(table: seq<(string, string)>, message: string, i: int) {
    0 <= i < |table| && Contains(message, table[i].0)
    && forall j :: 0 <= j < i ==> !Contains(message, table[j].0)
  }

  /**
   * The loop of `translateAuthError` over a table: the translation of the first
   * entry whose key occurs in the message, or the default message.
   */
  function TranslateWith(table: seq<(string, string)>, message: string): string
    decreases |table|
  {
    if table == [] then DefaultAuthError
    else if Contains(message, table[0].0) then table[0].1
    else TranslateWith(table[1..], message)
  }

  /**
   * The translation is that of the first entry whose key occurs in the message;
   * when no key occurs it is the default; and it is always a translation of the
   * table or the default.
   */
  lemma {:induction false} TranslateFirstMatch(table: seq<(string, string)>, message: string)
    ensures forall i :: FirstMatchAt(table, message, i) ==> TranslateWith(table, message) == table[i].1
    ensures (forall i :: 0 <= i < |table| ==> !Contains(message, table[i].0)) ==>
              TranslateWith(table, message) == DefaultAuthError
    ensures TranslateWith(table, message) == DefaultAuthError
            || exists i :: 0 <= i < |table| && TranslateWith(table, message) == table[i].1
    decreases |table|
  {
    if table != [] && !Contains(message, table[0].0) {
      TranslateFirstMatch(table[1..], message);
      var r := TranslateWith(table, message);
      assert forall i :: FirstMatchAt(table, message, i) ==> i > 0 && FirstMatchAt(table[1..], message, i - 1);
      assert (exists i :: 0 <= i < |table[1..]| && r == table[1..][i].1) ==> exists i :: 0 <= i < |table| && r == table[i].1;
      assert (forall i :: 0 <= i < |table| ==> !Contains(message, table[i].0)) ==>
               forall i :: 0 <= i < |table[1..]| ==> !Contains(message, table[1..][i].0);
    }
  }

  /** `translateAuthError`. */
  function TranslateAuthError(message: string): string {
    TranslateWith(ErrorMap, message)
  }

  /** The translations of a table, and the default. */
  function Translations(table: seq<(string, string)>): set<string> {
    (set i | 0 <= i < |table| :: table[i].1) + {DefaultAuthError}
  }

  /** Whatever the error says, the message shown is one of the table's translations or the default. */
  lemma TranslationIsKnown(table: seq<(string, string)>, message: string)
    ensures TranslateWith(table, message) in Translations(table)
  {
    TranslateFirstMatch(table, message);
    var r := TranslateWith(table, message);
    if r != DefaultAuthError {
      var i :| 0 <= i < |table| && r == table[i].1;
      assert r in set k | 0 <= k < |table| :: table[k].1;
    }
  }

  /** So a failed sign-in or sign-up shows one of twelve messages. */
  lemma TwelveMessages(message: string)
    ensures TranslateAuthError(message) in Translations(ErrorMap)
    ensures |Translations(ErrorMap)| <= |ErrorMap| + 1
  {
    TranslationIsKnown(ErrorMap, message);
    TranslationsBound(ErrorMap);
  }

  /** A table of n entries has at most n + 1 messages to show. */
  lemma {:induction false} TranslationsBound(table: seq<(string, string)>)
    ensures |Translations(table)| <= |table| + 1
    decreases |table|
  {
    if table != [] {
      TranslationsBound(table[1..]);
      TranslationsCons(table);
    }
  }

  /** The messages of a table are those of its tail and its first translation. */
  lemma TranslationsCons(table: seq<(string, string)>)
    requires table != []
    ensures Translations(table) == Translations(table[1..]) + {table[0].1}
  {
    forall x | x in Translations(table)
      ensures x in Translations(table[1..]) + {table[0].1}
    {
      if x != DefaultAuthError && x != table[0].1 {
        var i :| 0 <= i < |table| && x == table[i].1;
        assert x == table[1..][i - 1].1;
      }
    }
    forall x | x in Translations(table[1..]) + {table[0].1}
      ensures x in Translations(table)
    {
      if x != DefaultAuthError && x != table[0].1 {
        var i :| 0 <= i < |table[1..]| && x == table[1..][i].1;
        assert x == table[i + 1].1;
      }
    }
  }

  /** Over a table without an empty key, the empty message matches nothing. */
  lemma {:induction false} EmptyMessageMatchesNothing(table: seq<(string, string)>)
    requires forall i :: 0 <= i < |table| ==> table[i].0 != []
    ensures TranslateWith(table, "") == DefaultAuthError
  {
    forall i | 0 <= i < |table|
      ensures !Contains("", table[i].0)
    {
    }
    TranslateFirstMatch(table, "");
  }

  /** No key is empty, so an error without a message shows the default. */
  lemma MissingMessageShowsDefault()
    ensures TranslateAuthError("") == DefaultAuthError
  {
    forall i | 0 <= i < |ErrorMap|
      ensures ErrorMap[i].0 != []
    {
    }
    EmptyMessageMatchesNothing(ErrorMap);
  }

  /** The first key that occurs wins, even when a later one occurs too. */
  lemma FirstKeyWins(message: string, k: nat)
    requires k < |ErrorMap| && Contains(message, ErrorMap[k].0)
    ensures exists i :: i <= k && FirstMatchAt(ErrorMap, message, i) && TranslateAuthError(message) == ErrorMap[i].1
  {
    var i := k;
    while exists j :: 0 <= j < i && Contains(message, ErrorMap[j].0)
      invariant 0 <= i <= k && Contains(message, ErrorMap[i].0)
      decreases i
    {
      var j :| 0 <= j < i && Contains(message, ErrorMap[j].0);
      i := j;
    }
    assert FirstMatchAt(ErrorMap, message, i);
    TranslateFirstMatch(ErrorMap, message);
  }

  /** The request the submit handler sends. */
  datatype AuthCall = SignIn(email: string, password: string) | SignUp(email: string, password: string)

  /** What the service answers: no error, or an error whose message may be missing. */
  datatype AuthReply = Accepted | Refused(message: Option<string>)

  /** A toast shown by the modal. */
  datatype Toast = Welcome(text: string) | Problem(text: string)

  const WelcomeBack := "Bem-vindo de volta!"
  const AccountCreated := "Conta criada com sucesso!"

  /** The modal's form state; `closed` records that it asked its parent to close it. */
  class Form {
    var isLogin: bool
    var email: string
    var password: string
    var loading: bool
    var closed: bool
    var toasts: seq<Toast>

    /** The form as first rendered: sign-in mode, empty fields. */
    constructor ()
      ensures isLogin && email == [] && password == [] && !loading && !closed && toasts == []
    {
      isLogin := true;
      email := [];
      password := [];
      loading := false;
      closed := false;
      toasts := [];
    }

    /** The link under the form: switches between sign-in and sign-up. */
    method ToggleMode()
      modifies this`isLogin
      ensures isLogin == !old(isLogin)
    {
      isLogin := !isLogin;
    }

    /** Typing the e-mail address. */
    method TypeEmail(value: string)
      modifies this`email
      ensures email == value
    {
      email := value;
    }

    /** Typing the password. */
    method TypePassword(value: string)
      modifies this`password
      ensures password == value
    {
      password := value;
    }

    /** The part of `handleSubmit` before its `await`: the flag goes up and the mode picks the request. */
    method BeginSubmit() returns (call: AuthCall)
      modifies this`loading
      ensures loading
      ensures call == if isLogin then SignIn(email, password) else SignUp(email, password)
    {
      loading := true;
      call := if isLogin then SignIn(email, password) else SignUp(email, password);
    }

    /**
     * The part after it: on success a welcome toast for the mode and the modal
     * closes; on failure the translated message, the modal staying open. The
     * flag comes down either way.
     */
    method FinishSubmit(reply: AuthReply)
      modifies this`loading, this`closed, this`toasts
      ensures !loading
      ensures closed == (old(closed) || reply.Accepted?)
      ensures reply.Accepted? ==> toasts == old(toasts) + [Welcome(if isLogin then WelcomeBack else AccountCreated)]
      ensures reply.Refused? ==> toasts == old(toasts) + [Problem(TranslateAuthError(reply.message.GetOr("")))]
    {
      var toast := if reply.Accepted? then Welcome(if isLogin then WelcomeBack else AccountCreated)
                   else Problem(TranslateAuthError(reply.message.GetOr("")));
      toasts := toasts + [toast];
      closed := closed || reply.Accepted?;
      loading := false;
    }

    /** `handleSubmit` with `reply` what the service answers to the request it sends. */
    method Submit(reply: AuthReply) returns (call: AuthCall)
      modifies this`loading, this`closed, this`toasts
      ensures call.SignIn? <==> isLogin
      ensures call.email == email && call.password == password
      ensures !loading
      ensures closed == (old(closed) || reply.Accepted?)
      ensures |toasts| == |old(toasts)| + 1 && toasts[..|old(toasts)|] == old(toasts)
      ensures reply.Accepted? ==> toasts[|old(toasts)|] == Welcome(if isLogin then WelcomeBack else AccountCreated)
      ensures reply.Refused? ==> toasts[|old(toasts)|] == Problem(TranslateAuthError(reply.message.GetOr("")))
    {
      call := BeginSubmit();
      FinishSubmit(reply);
    }
  }

  /** A refusal without a message shows the default text and leaves the modal open. */
  method RefusalWithoutMessage(form: Form)
    requires !form.closed
    modifies form
    ensures !form.closed && !form.loading
    ensures |form.toasts| > 0 && form.toasts[|form.toasts| - 1] == Problem(DefaultAuthError)
  {
    var call := form.Submit(Refused(None));
    MissingMessageShowsDefault();
  }
}
