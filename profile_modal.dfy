/**
 * The profile modal: a display-name form and a password form. Opening it
 * fills the name from the account and clears the password fields; each form
 * is checked before anything is sent to the authentication service.
 */
module ProfileModal {
  import opened Prelude
  import opened Text

  /** The two tabs. */
  datatype Tab = ProfileTab | PasswordTab

  /** An update sent to the authentication service. */
  datatype UserUpdate = NewDisplayName(name: string) | NewPassword(password: string)

  /** A toast shown by the modal. */
  datatype Toast = Done(text: string) | Problem(text: string)

  const EnterName := "Por favor, insira um nome."
  const NameSaved := "Nome atualizado com sucesso!"
  const NameNotSaved := "Erro ao salvar o nome. Tente novamente."
  const PasswordTooShort := "A senha deve ter pelo menos 6 caracteres."
  const PasswordsDiffer := "As senhas não coincidem."
  const PasswordChanged := "Senha alterada com sucesso!"
  const PasswordNotChanged := "Erro ao alterar senha. Tente novamente."

  /** The shortest password the form accepts. */
  const MinPasswordLength: nat := 6

  /** The checks of the password form, the length first and the confirmation second. */
  function PasswordProblem(newPassword: string, confirmPassword: string): (r: Option<string>)
    ensures r.None? <==> |newPassword| >= MinPasswordLength && newPassword == confirmPassword
    ensures |newPassword| < MinPasswordLength ==> r == Some(PasswordTooShort)
    ensures |newPassword| >= MinPasswordLength && newPassword != confirmPassword ==> r == Some(PasswordsDiffer)
  {
    if |newPassword| < MinPasswordLength then Some(PasswordTooShort)
    else if newPassword != confirmPassword then Some(PasswordsDiffer)
    else None
  }

  /** A short password is reported as short even when the confirmation differs too. */
  lemma LengthCheckedFirst(newPassword: string, confirmPassword: string)
    requires |newPassword| < MinPasswordLength && newPassword != confirmPassword
    ensures PasswordProblem(newPassword, confirmPassword) == Some(PasswordTooShort)
    ensures PasswordProblem(newPassword, confirmPassword) != Some(PasswordsDiffer)
  {
  }

  /** The modal's state. */
  class Profile {
    var activeTab: Tab
    var displayName: string
    var newPassword: string
    var confirmPassword: string
    var loading: bool
    var toasts: seq<Toast>

    /** The modal as first rendered. */
    constructor ()
      ensures activeTab == ProfileTab && displayName == [] && newPassword == [] && confirmPassword == []
      ensures !loading && toasts == []
    {
      activeTab := ProfileTab;
      displayName := [];
      newPassword := [];
      confirmPassword := [];
      loading := false;
      toasts := [];
    }

    /**
     * The effect run when the modal opens: the name comes from the account's
     * metadata (empty when it has none), the password fields are cleared and
     * the profile tab is selected.
     */
    method Open(metadataName: Option<string>)
      modifies this`displayName, this`newPassword, this`confirmPassword, this`activeTab
      ensures displayName == metadataName.GetOr("")
      ensures newPassword == [] && confirmPassword == [] && activeTab == ProfileTab
    {
      displayName := metadataName.GetOr("");
      newPassword := [];
      confirmPassword := [];
      activeTab := ProfileTab;
    }

    /** A click on a tab. */
    method SelectTab(tab: Tab)
      modifies this`activeTab
      ensures activeTab == tab
    {
      activeTab := tab;
    }

    /** Typing in the three fields. */
    method TypeName(value: string)
      modifies this`displayName
      ensures displayName == value
    {
      displayName := value;
    }

    method TypeNewPassword(value: string)
      modifies this`newPassword
      ensures newPassword == value
    {
      newPassword := value;
    }

    method TypeConfirmPassword(value: string)
      modifies this`confirmPassword
      ensures confirmPassword == value
    {
      confirmPassword := value;
    }

    /**
     * `handleSaveName`, with `accepted` whether the service takes the update. A
     * blank name is refused before anything is sent; otherwise the trimmed name is
     * sent and the flag is down again afterwards.
     */
    method SaveName(accepted: bool) returns (sent: Option<UserUpdate>)
      modifies this`loading, this`toasts
      ensures IsBlank(displayName) ==> sent == None && toasts == old(toasts) + [Problem(EnterName)] && loading == old(loading)
      ensures !IsBlank(displayName) ==> sent == Some(NewDisplayName(Trim(displayName))) && !loading
      ensures !IsBlank(displayName) ==>
                toasts == old(toasts) + [if accepted then Done(NameSaved) else Problem(NameNotSaved)]
    {
      var name := Trim(displayName);
      if name == [] {
        toasts := toasts + [Problem(EnterName)];
        sent := None;
        return;
      }
      loading := true;
      sent := Some(NewDisplayName(name));
      toasts := toasts + [if accepted then Done(NameSaved) else Problem(NameNotSaved)];
      loading := false;
    }

    /**
     * `handleChangePassword`, with `accepted` whether the service takes the
     * update. A short password, then a confirmation that differs, is refused
     * before anything is sent; a change that goes through clears both fields.
     */
    method ChangePassword(accepted: bool) returns (sent: Option<UserUpdate>)
      modifies this`loading, this`toasts, this`newPassword, this`confirmPassword
      ensures sent.Some? <==> |old(newPassword)| >= MinPasswordLength && old(newPassword) == old(confirmPassword)
      ensures sent.Some? ==> sent.value == NewPassword(old(newPassword)) && !loading
      ensures sent.None? ==> toasts == old(toasts) + [Problem(PasswordProblem(old(newPassword), old(confirmPassword)).value)]
      ensures sent.None? ==> loading == old(loading)
      ensures sent.Some? ==> toasts == old(toasts) + [if accepted then Done(PasswordChanged) else Problem(PasswordNotChanged)]
      ensures sent.Some? && accepted ==> newPassword == [] && confirmPassword == []
      ensures sent.None? || !accepted ==> newPassword == old(newPassword) && confirmPassword == old(confirmPassword)
    {
      var problem := PasswordProblem(newPassword, confirmPassword);
      if problem.Some? {
        toasts := toasts + [Problem(problem.value)];
        sent := None;
        return;
      }
      loading := true;
      sent := Some(NewPassword(newPassword));
      if accepted {
        toasts := toasts + [Done(PasswordChanged)];
        newPassword := [];
        confirmPassword := [];
      } else {
        toasts := toasts + [Problem(PasswordNotChanged)];
      }
      loading := false;
    }
  }

  /** A five-letter password is refused as short, nothing is sent and the fields keep their text. */
  method ShortPasswordRefused(profile: Profile) returns (sent: Option<UserUpdate>)
    modifies profile
    ensures sent == None
    ensures |profile.toasts| > 0 && profile.toasts[|profile.toasts| - 1] == Problem(PasswordTooShort)
    ensures profile.newPassword == "abcde" && profile.confirmPassword == "abcdf"
  {
    profile.TypeNewPassword("abcde");
    profile.TypeConfirmPassword("abcdf");
    sent := profile.ChangePassword(true);
  }
}
