/** The login form: avatar selection limited to three image types, the
    submit guard, and the user it creates after the simulated delay. */
module LoginPage {
  import opened Types
  import opened Storage
  import AnalyticsService
  import App

  /** The MIME types an avatar file may have. */
  const AllowedAvatarTypes: seq<string> := ["image/jpeg", "image/png", "image/webp"]

  /** A chosen file: its declared type and the data URL the browser reads it as. */
  datatype SelectedFile = SelectedFile(mimeType: string, dataUrl: string)

  /** The field values the submit handler captures for its delayed callback. */
  datatype PendingLogin = PendingLogin(firstName: string, lastName: string, avatar: string)

  /** An avatar counts as given when it is there and not empty. */
  predicate HasAvatar(avatar: Option<string>)
  {
    avatar.Some? && avatar.value != ""
  }

  /** Submitting proceeds only with both names and an avatar. */
  predicate CanSubmit(firstName: string, lastName: string, avatar: Option<string>)
  {
    firstName != "" && lastName != "" && HasAvatar(avatar)
  }

  /** The user made from the captured fields; `id` and `createdAt` come
      from the random generator and the clock. */
  function NewUser(id: string, pending: PendingLogin, createdAt: string): User
  {
    User(id, pending.firstName, pending.lastName, pending.avatar, createdAt)
  }

  class LoginForm {
    var firstName: string
    var lastName: string
    var avatar: Option<string>
    var isLoading: bool
    const shell: App.Shell

    constructor (shell: App.Shell)
      ensures this.shell == shell
      ensures firstName == "" && lastName == "" && avatar == None && !isLoading
    {
      this.shell := shell;
      firstName, lastName := "", "";
      avatar := None;
      isLoading := false;
    }

    method SetFirstName(text: string)
      modifies this`firstName
      ensures firstName == text
    {
      firstName := text;
    }

    method SetLastName(text: string)
      modifies this`lastName
      ensures lastName == text
    {
      lastName := text;
    }

    /** Choosing a file (or none). A file of another type is rejected with an
        alert and the avatar stays as it was. */
    method HandleFileChange(file: Option<SelectedFile>) returns (rejected: bool)
      modifies this`avatar
      ensures rejected <==> file.Some? && file.value.mimeType !in AllowedAvatarTypes
      ensures avatar == if file.Some? && !rejected then Some(file.value.dataUrl) else old(avatar)
    {
      rejected := false;
      if file.Some? {
        if file.value.mimeType !in AllowedAvatarTypes {
          rejected := true;
          return;
        }
        avatar := Some(file.value.dataUrl);
      }
    }

    /** Whether the submit button is disabled. */
    predicate SubmitDisabled()
      reads this
    {
      isLoading || !CanSubmit(firstName, lastName, avatar)
    }

    /** Submitting: nothing happens without both names and an avatar;
        otherwise loading starts and the fields are captured for the
        delayed callback. */
    method HandleSubmit() returns (pending: Option<PendingLogin>)
      modifies this`isLoading
      ensures pending.Some? <==> CanSubmit(firstName, lastName, avatar)
      ensures pending.Some? ==> isLoading && pending.value == PendingLogin(firstName, lastName, avatar.value)
      ensures pending.None? ==> isLoading == old(isLoading)
    {
      if !(firstName != "" && lastName != "" && avatar.Some? && avatar.value != "") {
        return None;
      }
      isLoading := true;
      pending := Some(PendingLogin(firstName, lastName, avatar.value));
    }

    /** The delayed callback: builds the user from the captured fields, hands
        it to the shell's login, and only then ends loading. */
    method CompleteLogin(pending: PendingLogin, id: string, createdAt: string, rnd: real)
      returns (ghost loadingAtLogin: bool)
      requires shell.st.Valid()
      requires 0.0 <= rnd < 1.0
      modifies this`isLoading, shell`user, shell.st
      ensures shell.st.Valid()
      ensures loadingAtLogin == old(isLoading) && !isLoading
      ensures shell.user == Some(User(id, pending.firstName, pending.lastName, pending.avatar, createdAt))
      ensures shell.st.local == old(shell.st.local)[UserKey := UserValue(NewUser(id, pending, createdAt))]
                [AnalyticsKey := AnalyticsValue(AnalyticsService.AfterSession(AnalyticsService.StoredAnalytics(old(shell.st.local)), rnd))]
      ensures shell.st.session == old(shell.st.session)
    {
      var newUser := User(id, pending.firstName, pending.lastName, pending.avatar, createdAt);
      loadingAtLogin := isLoading;
      shell.HandleLogin(newUser, rnd);
      isLoading := false;
    }
  }
}
