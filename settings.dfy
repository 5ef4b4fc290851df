/** The account settings form: its change handler, which routes
    `notifications.K` inputs to a nested flag, the password-confirmation check on
    submit, and the e-mail prefill. */
module Settings {
  import opened Js
  import opened Document

  /** A top-level form value: an input's text or a checkbox's state. */
  datatype Input = TextValue(text: string) | Checked(on: bool)

  datatype Toast = SuccessToast(message: string) | ErrorToast(message: string)

  const NotificationsPrefix := "notifications."

  const InitialFields: map<string, Input> := map[
    "currentPassword" := TextValue(""),
    "newPassword" := TextValue(""),
    "confirmNewPassword" := TextValue(""),
    "email" := TextValue("")]

  const InitialNotifications: map<string, bool> := map[
    "emailUpdates" := true,
    "projectViews" := true,
    "messages" := true]

  function Lookup(fields: map<string, Input>, name: string): Option<Input> {
    if name in fields then Some(fields[name]) else None
  }

  /** JavaScript truthiness of a form value; a missing one is `undefined`. */
  predicate InputTruthy(v: Option<Input>) {
    match v
    case None => false
    case Some(TextValue(t)) => t != ""
    case Some(Checked(b)) => b
  }

  /** The outcome of submitting: rejected exactly when a new password is given
      and the confirmation is not identical to it. */
  function SubmitToast(newPassword: Option<Input>, confirmNewPassword: Option<Input>): (t: Toast)
    ensures t.ErrorToast? <==> InputTruthy(newPassword) && newPassword != confirmNewPassword
    ensures t.ErrorToast? ==> t.message == "New passwords do not match"
    ensures t.SuccessToast? ==> t.message == "Settings updated successfully"
  {
    if InputTruthy(newPassword) && newPassword != confirmNewPassword then ErrorToast("New passwords do not match")
    else SuccessToast("Settings updated successfully")
  }

  /** With no new password the confirmation is not looked at. */
  lemma EmptyNewPasswordAccepted(confirmNewPassword: Option<Input>)
    ensures SubmitToast(Some(TextValue("")), confirmNewPassword).SuccessToast?
  {
  }

  lemma EqualPasswordsAccepted(password: string)
    ensures SubmitToast(Some(TextValue(password)), Some(TextValue(password))).SuccessToast?
  {
  }

  lemma MismatchRejected(password: string, confirmation: string)
    requires password != "" && password != confirmation
    ensures SubmitToast(Some(TextValue(password)), Some(TextValue(confirmation))) == ErrorToast("New passwords do not match")
  {
  }

  /** The second `.`-separated piece of a name that starts with "notifications."
      is the first piece after that prefix. */
  lemma {:induction false} SecondPiece(name: string)
    requires StartsWith(name, NotificationsPrefix)
    ensures |Split(name, '.')| >= 2
    ensures Split(name, '.')[1] == Split(name[|NotificationsPrefix|..], '.')[0]
  {
    var rest := name[|NotificationsPrefix|..];
    assert name == "notifications" + ("." + rest);
    assert '.' !in "notifications";
    SplitGlue("notifications", '.', "." + rest);
    assert ("." + rest)[1..] == rest;
  }

  /** `name.split('.')[1]`: the text after "notifications." up to the next dot. */
  function NotificationKey(name: string): (k: string)
    requires StartsWith(name, NotificationsPrefix)
    ensures '.' !in k
    ensures k <= name[|NotificationsPrefix|..]
    ensures |k| < |name| - |NotificationsPrefix| ==> name[|NotificationsPrefix| + |k|] == '.'
  {
    SecondPiece(name);
    SplitFirstPiece(name[|NotificationsPrefix|..], '.');
    Split(name, '.')[1]
  }

  /** `user?.email || ''` */
  function PrefilledEmail(user: Option<User>): (r: string)
    ensures user.Some? && Truthy(user.value.email) ==> r == user.value.email.value
    ensures !(user.Some? && Truthy(user.value.email)) ==> r == ""
  {
    if user.Some? && Truthy(user.value.email) then user.value.email.value else ""
  }

  /** The form state: top-level values by input name, and the nested notification flags. */
  class SettingsForm {
    var fields: map<string, Input>
    var notifications: map<string, bool>

    constructor ()
      ensures fields == InitialFields && notifications == InitialNotifications
    {
      fields := InitialFields;
      notifications := InitialNotifications;
    }

    /** The mount effect: e-mail is prefilled from the signed-in user. */
    method Prefill(user: Option<User>)
      modifies this
      ensures fields == old(fields)["email" := TextValue(PrefilledEmail(user))]
      ensures notifications == old(notifications)
    {
      fields := fields["email" := TextValue(PrefilledEmail(user))];
    }

    /** `onChange`: a `notifications.K` input sets flag K to `checked`; any other
        input sets its own field to `checked` (checkbox) or `value`. */
    method OnChange(name: string, value: string, inputType: string, checked: bool)
      modifies this
      ensures StartsWith(name, NotificationsPrefix) ==>
        notifications == old(notifications)[NotificationKey(name) := checked] && fields == old(fields)
      ensures !StartsWith(name, NotificationsPrefix) ==>
        fields == old(fields)[name := if inputType == "checkbox" then Checked(checked) else TextValue(value)]
        && notifications == old(notifications)
    {
      if StartsWith(name, NotificationsPrefix) {
        var key := NotificationKey(name);
        notifications := notifications[key := checked];
      } else {
        fields := fields[name := if inputType == "checkbox" then Checked(checked) else TextValue(value)];
      }
    }

    /** `onSubmit` */
    method OnSubmit() returns (toast: Toast)
      ensures toast == SubmitToast(Lookup(fields, "newPassword"), Lookup(fields, "confirmNewPassword"))
    {
      toast := SubmitToast(Lookup(fields, "newPassword"), Lookup(fields, "confirmNewPassword"));
    }
  }
}
