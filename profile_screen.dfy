/** The profile screen's session state and its event handlers. The two storage keys it
    writes are fields; whether a storage call succeeds is an argument of the handler. */
module ProfileScreen {
  import opened Wrappers
  import opened Profile

  /** The message shown under an invalid email. */
  const EMAIL_ERROR: string := "Please enter a valid email address"

  class ProfileEditor {
    /** The profile being edited. */
    var profile: UserProfile
    /** The profile as last loaded or saved. */
    var originalProfile: UserProfile
    /** The text typed into the "add category" box. */
    var newCategory: string
    /** Shown as "You have unsaved changes" and gates the save button. */
    var hasUnsavedChanges: bool
    /** Validation messages by key. */
    var errors: map<Field, string>
    /** The `@userProfile` storage entry. */
    var stored: Option<StoredProfile>
    /** The `@selectedCurrency` storage entry. */
    var storedCurrency: Option<string>

    /** The unsaved-changes flag is kept equal to `profile != originalProfile` (the effect
        that compares the two after every change); the only message ever recorded is the
        email message; and the currency setting follows the edited profile's currency
        whenever that is non-empty (the effect that writes it on every change). */
    ghost predicate Valid()
      reads this
    {
      && hasUnsavedChanges == (profile != originalProfile)
      && errors.Keys <= {Email}
      && (Email in errors ==> errors[Email] == EMAIL_ERROR)
      && (profile.currency != "" ==> storedCurrency == Some(profile.currency))
    }

    /** The screen as first rendered, before the load completes. The currency effect runs
        on mount with the default profile, so the currency setting is overwritten with
        "EUR" whatever it held. */
    constructor (stored: Option<StoredProfile>)
      ensures Valid()
      ensures profile == DEFAULT_PROFILE && originalProfile == DEFAULT_PROFILE
      ensures newCategory == "" && errors == map[] && !hasUnsavedChanges
      ensures this.stored == stored && storedCurrency == Some("EUR")
    {
      profile := DEFAULT_PROFILE;
      originalProfile := DEFAULT_PROFILE;
      newCategory := "";
      hasUnsavedChanges := false;
      errors := map[];
      this.stored := stored;
      storedCurrency := Some(DEFAULT_PROFILE.currency);
    }

    /** The currency effect: after a change of the profile's currency to a non-empty code,
        that code is written as the currency setting. */
    method CurrencyEffect(previous: string)
      modifies this`storedCurrency
      ensures storedCurrency == if profile.currency != previous && profile.currency != ""
                                then Some(profile.currency) else old(storedCurrency)
    {
      if profile.currency != previous && profile.currency != "" {
        storedCurrency := Some(profile.currency);
      }
    }

    /** `loadProfile`: a stored record replaces both the profile and its snapshot with the
        migrated record; nothing stored, or a failed read, leaves the screen as it was. */
    method Load(readOk: bool)
      requires Valid()
      modifies this`profile, this`originalProfile, this`hasUnsavedChanges, this`storedCurrency
      ensures Valid()
      ensures readOk && stored.Some? ==> profile == Migrate(stored.value) && originalProfile == profile
      ensures readOk && stored.Some? ==> !hasUnsavedChanges
      ensures !(readOk && stored.Some?) ==>
        profile == old(profile) && originalProfile == old(originalProfile)
      ensures storedCurrency == if profile.currency != old(profile.currency) && profile.currency != ""
                                then Some(profile.currency) else old(storedCurrency)
    {
      var previous := profile.currency;
      if readOk && stored.Some? {
        var updated := Migrate(stored.value);
        profile := updated;
        originalProfile := updated;
      }
      hasUnsavedChanges := profile != originalProfile;
      CurrencyEffect(previous);
    }

    /** Typing into the "add category" box. */
    method SetNewCategory(text: string)
      modifies this`newCategory
      ensures newCategory == text
    {
      newCategory := text;
    }

    /** `handleAddCategory`: appends the trimmed text and clears the box, unless the text is
        blank (nothing happens) or already listed (reported as a duplicate, nothing changes). */
    method AddCategory() returns (outcome: AddOutcome)
      requires Valid()
      modifies this`profile, this`newCategory, this`hasUnsavedChanges
      ensures Valid()
      ensures outcome == Profile.AddCategory(old(profile).customCategories, old(newCategory))
      ensures outcome.Added? ==>
        profile == old(profile).(customCategories := outcome.categories) && newCategory == ""
      ensures !outcome.Added? ==> profile == old(profile) && newCategory == old(newCategory)
    {
      outcome := Profile.AddCategory(profile.customCategories, newCategory);
      if outcome.Added? {
        profile := profile.(customCategories := outcome.categories);
        newCategory := "";
      }
      hasUnsavedChanges := profile != originalProfile;
    }

    /** `handleRemoveCategory`: drops every copy of the category from the list. */
    method RemoveCategory(category: string)
      requires Valid()
      modifies this`profile, this`hasUnsavedChanges
      ensures Valid()
      ensures profile == old(profile).(customCategories :=
        Profile.RemoveCategory(old(profile).customCategories, category))
    {
      profile := profile.(customCategories := Profile.RemoveCategory(profile.customCategories, category));
      hasUnsavedChanges := profile != originalProfile;
    }

    /** `updateProfile(key, value)`: writes one key and clears that key's message, if any. */
    method Update(e: Edit)
      requires Valid()
      modifies this`profile, this`errors, this`hasUnsavedChanges, this`storedCurrency
      ensures Valid()
      ensures profile == Apply(old(profile), e)
      ensures errors == old(errors) - {e.Key()}
      ensures storedCurrency == if profile.currency != old(profile.currency) && profile.currency != ""
                                then Some(profile.currency) else old(storedCurrency)
    {
      var previous := profile.currency;
      profile := Apply(profile, e);
      if e.Key() in errors && errors[e.Key()] != "" {
        errors := errors - {e.Key()};
      }
      hasUnsavedChanges := profile != originalProfile;
      CurrencyEffect(previous);
    }

    /** Leaving the email box records the email message when the email is non-empty and
        malformed, and keeps the other messages. */
    method BlurEmail()
      requires Valid()
      modifies this`errors
      ensures Valid()
      ensures errors == if profile.email != "" && !IsValidEmail(profile.email)
                        then old(errors)[Email := EMAIL_ERROR] else old(errors)
    {
      if profile.email != "" && !IsValidEmail(profile.email) {
        errors := errors[Email := EMAIL_ERROR];
      }
    }

    /** `validateProfile`: replaces all messages with the result of the email check. */
    method Validate() returns (ok: bool)
      requires Valid()
      modifies this`errors
      ensures Valid()
      ensures ok == EmailAccepted(profile.email)
      ensures errors == if ok then map[] else map[Email := EMAIL_ERROR]
    {
      var newErrors: map<Field, string> := map[];
      if profile.email != "" && !IsValidEmail(profile.email) {
        newErrors := newErrors[Email := EMAIL_ERROR];
      }
      errors := newErrors;
      ok := |errors.Keys| == 0;
    }

    /** `saveProfile`: with an accepted email, writes the profile and then the currency key,
        and only when both writes succeed takes the profile as the new snapshot. With a
        rejected email nothing is written and the snapshot is kept. */
    method Save(profileWriteOk: bool, currencyWriteOk: bool) returns (saved: bool)
      requires Valid()
      modifies this`errors, this`stored, this`storedCurrency, this`originalProfile, this`hasUnsavedChanges
      ensures Valid()
      ensures saved <==> EmailAccepted(profile.email) && profileWriteOk && currencyWriteOk
      ensures errors == if EmailAccepted(profile.email) then map[] else map[Email := EMAIL_ERROR]
      ensures stored == if EmailAccepted(profile.email) && profileWriteOk
                        then Some(Encode(profile)) else old(stored)
      ensures storedCurrency == if saved then Some(profile.currency) else old(storedCurrency)
      ensures originalProfile == if saved then profile else old(originalProfile)
      ensures saved ==> !hasUnsavedChanges
    {
      saved := false;
      var valid := Validate();
      if !valid {
        return;
      }
      if profileWriteOk {
        stored := Some(Encode(profile));
        if currencyWriteOk {
          storedCurrency := Some(profile.currency);
          originalProfile := profile;
          hasUnsavedChanges := false;
          saved := true;
        }
      }
    }
  }

  /** A screen that saves a profile and is then opened again shows the same profile,
      with no unsaved changes, when the round-trip conditions of the record hold. */
  method SaveThenReopen(editor: ProfileEditor) returns (reopened: ProfileEditor)
    requires editor.Valid()
    requires editor.profile.phoneCountryCode != "" && editor.profile.phoneCountryDialCode != ""
    requires editor.profile.legacyName.None?
    requires EmailAccepted(editor.profile.email)
    modifies editor
    ensures reopened.profile == editor.profile && !reopened.hasUnsavedChanges
  {
    var saved := editor.Save(true, true);
    reopened := new ProfileEditor(editor.stored);
    SaveLoadRoundTrip(editor.profile);
    reopened.Load(true);
  }

  /** Picking a currency takes effect as the currency setting at once, before and without
      a save: the stored profile is untouched and the screen reports unsaved changes. */
  method PickCurrencyWithoutSaving(editor: ProfileEditor, code: string)
    requires editor.Valid() && code != "" && code != editor.originalProfile.currency
    modifies editor
    ensures editor.Valid()
    ensures editor.storedCurrency == Some(code) && editor.stored == old(editor.stored)
    ensures editor.hasUnsavedChanges
  {
    editor.Update(SetCurrency(code));
  }
}
