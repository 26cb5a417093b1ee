/** The account settings page: the profile form backed by the authentication
    store, the password form and its acceptance test, and the notification
    switches. */
module AccountSettings {
  import opened Wrappers
  import opened AuthStore

  datatype ProfileForm = ProfileForm(name: string, email: string, phone: string, dateOfBirth: string)

  datatype PasswordForm = PasswordForm(currentPassword: string, newPassword: string, confirmPassword: string)

  const BlankPasswords := PasswordForm("", "", "")

  /** The profile form as loaded from the stored user: `user?.x || ''`. */
  function FormFromUser(user: Option<User>): (f: ProfileForm)
    ensures user.None? ==> f == ProfileForm("", "", "", "")
    ensures user.Some? ==>
      && f.name == user.value.name && f.email == user.value.email
      && f.phone == user.value.phone.GetOr("") && f.dateOfBirth == user.value.dateOfBirth.GetOr("")
  {
    match user
    case None => ProfileForm("", "", "", "")
    case Some(u) => ProfileForm(u.name, u.email, u.phone.GetOr(""), u.dateOfBirth.GetOr(""))
  }

  /** Saving sends all four fields as a partial user and never touches the
      id, the avatar or the role. */
  function PatchFrom(f: ProfileForm): (r: UserPatch)
    ensures r.id.None? && r.avatar.None? && r.role.None?
    ensures forall u :: Patched(u, r).name == f.name && Patched(u, r).email == f.email
    ensures forall u :: Patched(u, r).id == u.id && Patched(u, r).role == u.role && Patched(u, r).avatar == u.avatar
  {
    UserPatch(None, Some(f.email), Some(f.name), None, None, Some(f.phone), Some(f.dateOfBirth))
  }

  /** Saving the form and loading it back gives the form that was saved. */
  lemma SaveThenReload(u: User, f: ProfileForm)
    ensures FormFromUser(Some(Patched(u, PatchFrom(f)))) == f
  {
  }

  datatype Verdict = Mismatch | TooShort | Accepted

  /** `handlePasswordChange`'s test: a mismatch is reported before the length,
      and the current password is never looked at. */
  function PasswordVerdict(p: PasswordForm): (v: Verdict)
    ensures v == Accepted <==> p.newPassword == p.confirmPassword && |p.newPassword| >= 6
    ensures v == Mismatch <==> p.newPassword != p.confirmPassword
    ensures v == TooShort <==> p.newPassword == p.confirmPassword && |p.newPassword| < 6
  {
    if p.newPassword != p.confirmPassword then Mismatch
    else if |p.newPassword| < 6 then TooShort
    else Accepted
  }

  /** A short mismatching pair is reported as a mismatch. */
  lemma MismatchComesFirst()
    ensures PasswordVerdict(PasswordForm("", "abc", "abd")) == Mismatch
  {
  }

  datatype NotificationKey = EmailMarketing | OrderUpdates | SecurityAlerts | Newsletter

  datatype Notifications = Notifications(emailMarketing: bool, orderUpdates: bool, securityAlerts: bool, newsletter: bool)
  {
    function Get(key: NotificationKey): bool {
      match key
      case EmailMarketing => emailMarketing
      case OrderUpdates => orderUpdates
      case SecurityAlerts => securityAlerts
      case Newsletter => newsletter
    }
  }

  /** Marketing, orders and security on; newsletter off. */
  const InitialNotifications := Notifications(true, true, true, false)

  /** `handleNotificationChange(key)`: flips that key and no other. */
  function Toggle(n: Notifications, key: NotificationKey): (r: Notifications)
    ensures r.Get(key) == !n.Get(key)
    ensures forall k :: k != key ==> r.Get(k) == n.Get(k)
  {
    match key
    case EmailMarketing => n.(emailMarketing := !n.emailMarketing)
    case OrderUpdates => n.(orderUpdates := !n.orderUpdates)
    case SecurityAlerts => n.(securityAlerts := !n.securityAlerts)
    case Newsletter => n.(newsletter := !n.newsletter)
  }

  /** Two switches are equal when they agree on every key. */
  lemma SameSwitches(a: Notifications, b: Notifications)
    requires forall k :: a.Get(k) == b.Get(k)
    ensures a == b
  {
    assert a.Get(EmailMarketing) == b.Get(EmailMarketing);
    assert a.Get(OrderUpdates) == b.Get(OrderUpdates);
    assert a.Get(SecurityAlerts) == b.Get(SecurityAlerts);
    assert a.Get(Newsletter) == b.Get(Newsletter);
  }

  /** Flipping a switch twice restores it. */
  lemma ToggleTwice(n: Notifications, key: NotificationKey)
    ensures Toggle(Toggle(n, key), key) == n
  {
    SameSwitches(Toggle(Toggle(n, key), key), n);
  }

  /** Flips of different switches commute. */
  lemma TogglesCommute(n: Notifications, a: NotificationKey, b: NotificationKey)
    ensures Toggle(Toggle(n, a), b) == Toggle(Toggle(n, b), a)
  {
    SameSwitches(Toggle(Toggle(n, a), b), Toggle(Toggle(n, b), a));
  }

  class Settings {
    const auth: Auth
    var isEditing: bool
    var formData: ProfileForm
    var passwordData: PasswordForm
    var notifications: Notifications
    var isChangingPassword: bool

    constructor (auth: Auth)
      ensures this.auth == auth
      ensures !isEditing && formData == FormFromUser(auth.user)
      ensures passwordData == BlankPasswords && notifications == InitialNotifications
      ensures !isChangingPassword
    {
      this.auth := auth;
      isEditing := false;
      formData := FormFromUser(auth.user);
      passwordData := BlankPasswords;
      notifications := InitialNotifications;
      isChangingPassword := false;
    }

    /** "Edit Profile". */
    method StartEditing()
      modifies this
      ensures isEditing
      ensures formData == old(formData) && passwordData == old(passwordData)
      ensures notifications == old(notifications) && isChangingPassword == old(isChangingPassword)
    {
      isEditing := true;
    }

    /** Typing into the profile form. */
    method EditProfile(f: ProfileForm)
      modifies this
      ensures formData == f && isEditing == old(isEditing)
      ensures passwordData == old(passwordData)
      ensures notifications == old(notifications) && isChangingPassword == old(isChangingPassword)
    {
      formData := f;
    }

    /** `handleProfileSave`: hands the form to the store and leaves edit mode. */
    method SaveProfile()
      modifies this, auth
      ensures !isEditing && formData == old(formData)
      ensures old(auth.user).Some? ==> auth.user == Some(Patched(old(auth.user).value, PatchFrom(old(formData))))
      ensures old(auth.user).None? ==> auth.user == None
      ensures auth.isAuthenticated == old(auth.isAuthenticated)
      ensures old(auth.Valid()) ==> auth.Valid()
      ensures passwordData == old(passwordData)
      ensures notifications == old(notifications) && isChangingPassword == old(isChangingPassword)
    {
      auth.UpdateProfile(PatchFrom(formData));
      isEditing := false;
    }

    /** "Cancel" on the profile: reloads the form from the stored user. */
    method CancelProfile()
      modifies this
      ensures !isEditing && formData == FormFromUser(auth.user)
      ensures passwordData == old(passwordData)
      ensures notifications == old(notifications) && isChangingPassword == old(isChangingPassword)
    {
      isEditing := false;
      formData := FormFromUser(auth.user);
    }

    /** "Change Password". */
    method StartPasswordChange()
      modifies this
      ensures isChangingPassword && passwordData == old(passwordData)
      ensures isEditing == old(isEditing) && formData == old(formData) && notifications == old(notifications)
    {
      isChangingPassword := true;
    }

    /** Typing into the password form. */
    method EditPasswords(p: PasswordForm)
      modifies this
      ensures passwordData == p && isChangingPassword == old(isChangingPassword)
      ensures isEditing == old(isEditing) && formData == old(formData) && notifications == old(notifications)
    {
      passwordData := p;
    }

    /** `handlePasswordChange`: the verdict is the message shown; only an
        accepted change clears the form and closes it. */
    method ChangePassword() returns (v: Verdict)
      modifies this
      ensures v == PasswordVerdict(old(passwordData))
      ensures v != Accepted ==> passwordData == old(passwordData) && isChangingPassword == old(isChangingPassword)
      ensures v == Accepted ==> passwordData == BlankPasswords && !isChangingPassword
      ensures isEditing == old(isEditing) && formData == old(formData) && notifications == old(notifications)
    {
      v := PasswordVerdict(passwordData);
      if v == Accepted {
        passwordData := BlankPasswords;
        isChangingPassword := false;
      }
    }

    /** "Cancel" on the password form. */
    method CancelPasswordChange()
      modifies this
      ensures !isChangingPassword && passwordData == BlankPasswords
      ensures isEditing == old(isEditing) && formData == old(formData) && notifications == old(notifications)
    {
      isChangingPassword := false;
      passwordData := BlankPasswords;
    }

    /** `handleNotificationChange(key)`. */
    method ToggleNotification(key: NotificationKey)
      modifies this
      ensures notifications == Toggle(old(notifications), key)
      ensures isEditing == old(isEditing) && formData == old(formData)
      ensures passwordData == old(passwordData) && isChangingPassword == old(isChangingPassword)
    {
      notifications := Toggle(notifications, key);
    }
  }
}
