/**
 * The login screen (components/Login.tsx): signing in, registering with a
 * repeated password, and the friendly messages shown for authentication
 * errors.
 */
module Login {
  import opened Wrappers
  import opened Types
  import Store

  const PasswordMismatch := "As senhas não conferem."
  const LoginFailed := "Credenciais inválidas ou usuário não encontrado."
  const GenericError := "Ocorreu um erro. Tente novamente."
  const WrongCredentials := "Email ou senha incorretos."
  const EmailInUse := "Este email já está cadastrado."
  const WeakPassword := "A senha deve ter pelo menos 6 caracteres."
  const SignInDisabled := "⚠️ Configuração Pendente: O método de login \"Email/Senha\" não está ativado no Firebase Console. Acesse o console do Firebase > Authentication > Sign-in method e ative-o."

  const CredentialCodes := {"auth/invalid-credential", "auth/wrong-password", "auth/user-not-found"}
  const ConfigurationCodes := {"auth/configuration-not-found", "auth/operation-not-allowed", "auth/admin-restricted-operation"}

  /** An error thrown by an authentication call; an absent code or message is the empty string. */
  datatype AuthError = AuthError(code: string, message: string)

  /**
   * The message the catch block shows: a fixed text for each recognised
   * code, otherwise the error's own message, otherwise the generic text.
   */
  function FriendlyMessage(err: AuthError): (msg: string)
    ensures msg != ""
    ensures err.code in CredentialCodes ==> msg == WrongCredentials
    ensures err.code == "auth/email-already-in-use" ==> msg == EmailInUse
    ensures err.code == "auth/weak-password" ==> msg == WeakPassword
    ensures err.code in ConfigurationCodes ==> msg == SignInDisabled
    ensures err.code !in CredentialCodes + ConfigurationCodes + {"auth/email-already-in-use", "auth/weak-password"} ==>
              msg == (if err.message != "" then err.message else GenericError)
  {
    if err.code in CredentialCodes then WrongCredentials
    else if err.code == "auth/email-already-in-use" then EmailInUse
    else if err.code == "auth/weak-password" then WeakPassword
    else if err.code in ConfigurationCodes then SignInDisabled
    else if err.message != "" then err.message
    else GenericError
  }

  /** A recognised code never shows the raw error text, unless that text happens to be the fixed message. */
  lemma RecognisedCodesHideRawText(err: AuthError)
    requires err.code in CredentialCodes + ConfigurationCodes + {"auth/email-already-in-use", "auth/weak-password"}
    ensures FriendlyMessage(err) in {WrongCredentials, EmailInUse, WeakPassword, SignInDisabled}
    ensures FriendlyMessage(err) == FriendlyMessage(err.(message := ""))
  {
  }

  class LoginView {
    const store: Store.StoreState
    var isRegistering: bool
    var email: string
    var password: string
    var storeName: string
    var confirmPassword: string
    var isLoading: bool
    var error: string

    constructor (store: Store.StoreState)
      ensures this.store == store && !isRegistering && !isLoading && error == ""
      ensures email == "" && password == "" && storeName == "" && confirmPassword == ""
    {
      this.store := store;
      isRegistering := false;
      email, password, storeName, confirmPassword := "", "", "", "";
      isLoading := false;
      error := "";
    }

    /**
     * `handleSubmit` against the local store, which reports failure by its
     * return value (a storage write that refuses is not modelled). Registering with different passwords
     * only shows the mismatch; registering otherwise shows no error, also
     * when the email is taken, since the screen ignores `register`'s result;
     * a failed sign-in shows the failure text. Loading always ends.
     */
    method HandleSubmit(newId: string)
      requires store.Valid()
      modifies this`error, this`isLoading, store
      ensures store.Valid()
      ensures !isLoading
      ensures isRegistering && password != confirmPassword ==> error == PasswordMismatch && unchanged(store)
      ensures isRegistering && password == confirmPassword ==>
                && error == ""
                && (Store.EmailTaken(old(store.users), email) ==> unchanged(store))
                && (!Store.EmailTaken(old(store.users), email) ==>
                      && store.users == old(store.users) + [User(newId, email, password, storeName, None)]
                      && store.isAuthenticated && store.currentUser == Some(User(newId, email, password, storeName, None))
                      && store.isDataLoaded && store.Data() == Store.EmptyWorkspace(User(newId, email, password, storeName, None))
                      && store.storage == old(store.storage))
      ensures !isRegistering ==>
                && error == (if exists u :: u in store.users && u.email == email && u.password == password then "" else LoginFailed)
                && store.users == old(store.users) && store.storage == old(store.storage)
                && (error != "" ==> unchanged(store))
                && (error == "" ==>
                      && store.isAuthenticated && store.currentUser == Store.FindUser(store.users, email, password)
                      && store.isDataLoaded
                      && store.Data() == Store.LoadWorkspace(store.currentUser.value,
                                                             Store.Read(store.storage, Store.DataKey(store.currentUser.value.id))))
    {
      error := "";
      isLoading := true;
      if isRegistering {
        if password != confirmPassword {
          error := PasswordMismatch;
          isLoading := false;
          return;
        }
        var _ := store.Register(email, password, storeName, None, newId);
      } else {
        var ok := store.Login(email, password);
        if !ok {
          error := LoginFailed;
        }
      }
      isLoading := false;
    }

    /** The catch and finally blocks, reached when an authentication call throws: show the friendly message, end loading. */
    method HandleFailure(err: AuthError)
      modifies this`error, this`isLoading
      ensures error == FriendlyMessage(err) && error != ""
      ensures !isLoading
    {
      error := FriendlyMessage(err);
      isLoading := false;
    }
  }
}
