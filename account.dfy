/**
 * The pure parts of the account page (`app/account/page.tsx`): choosing the
 * message to show from a backend body, filling the profile form from the
 * current user, and building the update-profile payload from the form.
 */
module Account {
  import opened Wrappers
  import opened Strings
  import opened Json

  /** `getMessage`: the body's own `message` when it is a string with visible content, else `fallback`. */
  function GetMessage(value: Json, fallback: string): (r: string)
    ensures r == fallback || (HasKey(value, "message") && value.fields["message"] == Str(r))
  {
    if IsTruthy(value) && (value.Arr? || value.Obj?) && HasKey(value, "message") then
      var message := value.fields["message"];
      if message.Str? && |Trim(message.s)| > 0 then message.s else fallback
    else
      fallback
  }

  /** A non-blank string `message` is returned verbatim, surrounding whitespace included. */
  lemma GetMessageUsesNonBlankMessage(value: Json, fallback: string)
    requires HasKey(value, "message") && value.fields["message"].Str?
    requires !AllWhitespace(value.fields["message"].s)
    ensures GetMessage(value, fallback) == value.fields["message"].s
  {
    TrimEmptyIff(value.fields["message"].s);
  }

  /** Every other value gives the fallback: non-objects, no `message`, a non-string or a blank one. */
  lemma GetMessageFallsBack(value: Json, fallback: string)
    requires !HasKey(value, "message") || !value.fields["message"].Str?
             || AllWhitespace(value.fields["message"].s)
    ensures GetMessage(value, fallback) == fallback
  {
    if HasKey(value, "message") && value.fields["message"].Str? {
      TrimEmptyIff(value.fields["message"].s);
    }
  }

  // ------------------------------------------------------------ profile form

  datatype Role = UserRole | AdminRole

  /** The `User` record; the optional fields may be absent, and `email` is read with `??` as well. */
  datatype User = User(
    id: string,
    name: Option<string>,
    email: Option<string>,
    role: Role,
    profilePictureUrl: Option<string>,
    phoneNumber: Option<string>)

  datatype ProfileForm = ProfileForm(name: string, email: string, profilePictureUrl: string, phoneNumber: string)

  /** The update-profile body; `None` is a field left `undefined` (and so omitted). */
  datatype UpdateProfilePayload = UpdateProfilePayload(
    name: string,
    email: string,
    profilePictureUrl: Option<string>,
    phoneNumber: Option<string>)

  /** The form filled from the loaded user: each missing field becomes `""`. */
  function FormFromUser(u: User): ProfileForm {
    ProfileForm(u.name.GetOr(""), u.email.GetOr(""), u.profilePictureUrl.GetOr(""), u.phoneNumber.GetOr(""))
  }

  /** An empty string is sent as absent; any other string as itself. */
  function OrUndefined(s: string): Option<string> {
    if s == [] then None else Some(s)
  }

  /** The update payload built from the form. */
  function PayloadFromForm(f: ProfileForm): UpdateProfilePayload {
    UpdateProfilePayload(f.name, f.email, OrUndefined(f.profilePictureUrl), OrUndefined(f.phoneNumber))
  }

  /** Present user fields are copied into the form; missing ones become `""`. */
  lemma FormCopiesPresentFields(u: User)
    ensures var f := FormFromUser(u);
            && (u.name.Some? ==> f.name == u.name.value) && (u.name.None? ==> f.name == "")
            && (u.email.Some? ==> f.email == u.email.value) && (u.email.None? ==> f.email == "")
            && (u.profilePictureUrl.Some? ==> f.profilePictureUrl == u.profilePictureUrl.value)
            && (u.profilePictureUrl.None? ==> f.profilePictureUrl == "")
            && (u.phoneNumber.Some? ==> f.phoneNumber == u.phoneNumber.value)
            && (u.phoneNumber.None? ==> f.phoneNumber == "")
  {
  }

  /** Name and email always pass through; an empty optional field is dropped, a non-empty one kept. */
  lemma PayloadDropsEmptyOptionals(f: ProfileForm)
    ensures var p := PayloadFromForm(f);
            && p.name == f.name && p.email == f.email
            && (p.profilePictureUrl == None <==> f.profilePictureUrl == "")
            && (p.profilePictureUrl.Some? ==> p.profilePictureUrl.value == f.profilePictureUrl)
            && (p.phoneNumber == None <==> f.phoneNumber == "")
            && (p.phoneNumber.Some? ==> p.phoneNumber.value == f.phoneNumber)
  {
  }

  /**
   * Saving an untouched form sends back what was loaded, except that an
   * optional field holding `""` is sent as absent.
   */
  lemma UntouchedFormRoundTrip(u: User)
    ensures var p := PayloadFromForm(FormFromUser(u));
            && p.name == u.name.GetOr("") && p.email == u.email.GetOr("")
            && p.profilePictureUrl == (if u.profilePictureUrl == Some("") then None else u.profilePictureUrl)
            && p.phoneNumber == (if u.phoneNumber == Some("") then None else u.phoneNumber)
  {
  }
}
