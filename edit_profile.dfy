/** The edit-profile dialog: its form state, the change handler, the submit
    gate with the language push, and the avatar placeholder
    (src/components/EditProfileModal.tsx). */
module EditProfile {
  import opened Wrappers
  import Learning

  /** The `user` prop: every field may be missing. */
  datatype ProfileUser = ProfileUser(firstName: Option<string>, lastName: Option<string>,
                                     email: Option<string>, avatar: Option<string>)

  /** `x || ''` on an optional string. */
  function OrEmpty(s: Option<string>): string
  {
    match s
    case None => ""
    case Some(x) => x
  }

  datatype FormData = FormData(firstName: string, lastName: string, avatar: string, language: string)

  /** The names carried by the dialog's inputs and select. */
  datatype FieldName = FirstNameField | LastNameField | AvatarField | LanguageField

  /** `{ ...prev, [name]: value }` */
  function Update(d: FormData, name: FieldName, value: string): FormData {
    match name
    case FirstNameField => d.(firstName := value)
    case LastNameField => d.(lastName := value)
    case AvatarField => d.(avatar := value)
    case LanguageField => d.(language := value)
  }

  function Get(d: FormData, name: FieldName): string {
    match name
    case FirstNameField => d.firstName
    case LastNameField => d.lastName
    case AvatarField => d.avatar
    case LanguageField => d.language
  }

  /** A change sets the named field to the new value and leaves every other
      field as it was; the last change to a field wins. */
  lemma UpdateOnlyNamed(d: FormData, name: FieldName, value: string)
    ensures Get(Update(d, name, value), name) == value
    ensures forall other :: other != name ==> Get(Update(d, name, value), other) == Get(d, other)
    ensures forall v :: Update(Update(d, name, v), name, value) == Update(d, name, value)
  {
  }

  /** `!formData.firstName || !formData.lastName` rejects the submission. */
  predicate SubmitAllowed(d: FormData) {
    |d.firstName| > 0 && |d.lastName| > 0
  }

  /** The placeholder shown without an avatar: both initials, or `U` unless both
      names are filled in. */
  function Initials(d: FormData): string
  {
    if |d.firstName| > 0 && |d.lastName| > 0 then [d.firstName[0], d.lastName[0]] else "U"
  }

  /** The placeholder falls back to `U` exactly when a submission would be
      rejected. */
  lemma FallbackIffRejected(d: FormData)
    ensures Initials(d) == "U" <==> !SubmitAllowed(d)
  {
    if SubmitAllowed(d) {
      assert |Initials(d)| == 2;
    }
  }

  /** What the avatar circle shows. */
  datatype AvatarView = AvatarImage(src: string) | Placeholder(text: string)

  /** A set avatar takes precedence over the placeholder. */
  function AvatarShown(d: FormData): (r: AvatarView)
    ensures r.AvatarImage? <==> |d.avatar| > 0
    ensures r.AvatarImage? ==> r.src == d.avatar
    ensures r.Placeholder? ==> (r.text == "U" <==> !SubmitAllowed(d))
  {
    FallbackIffRejected(d);
    if |d.avatar| > 0 then AvatarImage(d.avatar) else Placeholder(Initials(d))
  }

  class EditProfileForm {
    var data: FormData
    var isLoading: bool

    /** The form starts from the user's names and avatar, each defaulting to
        the empty string, and the current preferred language. */
    constructor (user: Option<ProfileUser>, preferredLanguage: string)
      ensures user.None? ==> data == FormData("", "", "", preferredLanguage)
      ensures user.Some? ==> data == FormData(OrEmpty(user.value.firstName), OrEmpty(user.value.lastName),
                                              OrEmpty(user.value.avatar), preferredLanguage)
      ensures !isLoading
    {
      match user {
        case None =>
          data := FormData("", "", "", preferredLanguage);
        case Some(u) =>
          data := FormData(OrEmpty(u.firstName), OrEmpty(u.lastName), OrEmpty(u.avatar), preferredLanguage);
      }
      isLoading := false;
    }

    /** `handleChange` */
    method HandleChange(name: FieldName, value: string)
      modifies this
      ensures data == Update(old(data), name, value)
      ensures isLoading == old(isLoading)
    {
      data := Update(data, name, value);
    }

    /** `handleSubmit`, once its `finally` block has run. A form with an empty
        name is rejected and nothing changes; otherwise the language is pushed
        to the learning store when it differs from the store's, and the store
        is otherwise left alone. */
    method Submit(store: Learning.LearningStore) returns (accepted: bool, pushed: bool)
      modifies this, store
      ensures accepted <==> SubmitAllowed(old(data))
      ensures pushed <==> accepted && old(data).language != old(store.preferredLanguage)
      ensures data == old(data)
      ensures accepted ==> store.preferredLanguage == data.language && !isLoading
      ensures !accepted ==> store.preferredLanguage == old(store.preferredLanguage) && isLoading == old(isLoading)
      ensures store.skills == old(store.skills) && store.careerGoal == old(store.careerGoal)
      ensures store.selectedSkills == old(store.selectedSkills) && store.level == old(store.level)
      ensures store.learningStreak == old(store.learningStreak) && store.loading == old(store.loading)
    {
      pushed := false;
      if |data.firstName| == 0 || |data.lastName| == 0 {
        accepted := false;
        return;
      }
      isLoading := true;
      if data.language != store.preferredLanguage {
        store.SetPreferredLanguage(data.language);
        pushed := true;
      }
      accepted := true;
      isLoading := false;
    }
  }

  /** Opening the dialog for a user without names and submitting it at once is
      rejected; filling in both names first makes it go through, without a
      push when the language was not changed. */
  method OpenFillSubmit(store: Learning.LearningStore, first: string, last: string)
    returns (before: bool, after: bool, pushed: bool)
    requires |first| > 0 && |last| > 0
    modifies store
    ensures !before && after && !pushed
    ensures store.preferredLanguage == old(store.preferredLanguage)
  {
    var form := new EditProfileForm(None, store.preferredLanguage);
    var p;
    before, p := form.Submit(store);
    form.HandleChange(FirstNameField, first);
    form.HandleChange(LastNameField, last);
    after, pushed := form.Submit(store);
  }
}
