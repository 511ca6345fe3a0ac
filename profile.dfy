/** The user profile record and the pure computations of the profile screen: loading a
    stored record (with migration from the old single-`name` format), the email check,
    adding and removing custom categories, and single-field edits. */
module Profile {
  import opened Wrappers
  import opened Sequences
  import opened Text

  /** The keys of the profile record. */
  datatype Field = FirstName | LastName | Email | PhoneNumber | PhoneCountryCode
                 | PhoneCountryDialCode | CurrencyCode | CustomCategories | UseCustomCategories

  /** A field's value, whatever its type. */
  datatype Value = Str(s: string) | Labels(labels: seq<string>) | Bool(b: bool)

  /** The in-memory profile. `legacyName` is the `name` key of an old-format record: the
      spread of the stored record keeps it, and saving writes it back. */
  datatype UserProfile = UserProfile(
    firstName: string,
    lastName: string,
    email: string,
    phoneNumber: string,
    phoneCountryCode: string,
    phoneCountryDialCode: string,
    currency: string,
    customCategories: seq<string>,
    useCustomCategories: bool,
    legacyName: Option<string>)

  const DEFAULT_PROFILE: UserProfile :=
    UserProfile("", "", "", "", "GB", "+44", "EUR", [], false, None)

  /** A record as it sits in storage: any key may be missing, and an old-format record
      has `name` instead of `firstName`/`lastName`. */
  datatype StoredProfile = StoredProfile(
    firstName: Option<string>,
    lastName: Option<string>,
    email: Option<string>,
    phoneNumber: Option<string>,
    phoneCountryCode: Option<string>,
    phoneCountryDialCode: Option<string>,
    currency: Option<string>,
    customCategories: Option<seq<string>>,
    useCustomCategories: Option<bool>,
    name: Option<string>)

  /** What saving writes: every key present with the profile's value, and a legacy `name`
      written back as it was read. */
  function Encode(p: UserProfile): (sp: StoredProfile)
    ensures sp.firstName == Some(p.firstName) && sp.lastName == Some(p.lastName)
    ensures sp.email == Some(p.email) && sp.phoneNumber == Some(p.phoneNumber)
    ensures sp.phoneCountryCode == Some(p.phoneCountryCode)
    ensures sp.phoneCountryDialCode == Some(p.phoneCountryDialCode)
    ensures sp.currency == Some(p.currency) && sp.customCategories == Some(p.customCategories)
    ensures sp.useCustomCategories == Some(p.useCustomCategories)
    ensures sp.name == p.legacyName
  {
    StoredProfile(Some(p.firstName), Some(p.lastName), Some(p.email), Some(p.phoneNumber),
                  Some(p.phoneCountryCode), Some(p.phoneCountryDialCode), Some(p.currency),
                  Some(p.customCategories), Some(p.useCustomCategories), p.legacyName)
  }

  /** JavaScript `a || b` on strings: the empty string is falsy. */
  function Or(a: string, b: string): string {
    if a != "" then a else b
  }

  /** `name.split(" ")[0]`. */
  function NameBeforeSpace(name: string): string {
    Split(name, ' ')[0]
  }

  /** `name.split(" ").slice(1).join(" ")`. */
  function NameAfterSpace(name: string): string {
    Join(Split(name, ' ')[1..], " ")
  }

  /** The profile built from a stored record on load: defaults under the stored keys,
      names recovered from a legacy `name` when missing or empty, and empty or missing
      phone country and dial codes replaced by "GB" and "+44". */
  function Migrate(sp: StoredProfile): (p: UserProfile)
    ensures p.phoneCountryCode != "" && p.phoneCountryDialCode != ""
    ensures sp.firstName.GetOr("") != "" ==> p.firstName == sp.firstName.value
    ensures sp.lastName.GetOr("") != "" ==> p.lastName == sp.lastName.value
    ensures sp.name.None? ==> p.firstName == sp.firstName.GetOr("")
    ensures sp.name.None? ==> p.lastName == sp.lastName.GetOr("")
    ensures sp.email.Some? ==> p.email == sp.email.value
    ensures sp.phoneNumber.Some? ==> p.phoneNumber == sp.phoneNumber.value
    ensures sp.phoneCountryCode.GetOr("") != "" ==> p.phoneCountryCode == sp.phoneCountryCode.value
    ensures sp.phoneCountryDialCode.GetOr("") != ""
            ==> p.phoneCountryDialCode == sp.phoneCountryDialCode.value
    ensures sp.currency.Some? ==> p.currency == sp.currency.value
    ensures sp.customCategories.Some? ==> p.customCategories == sp.customCategories.value
    ensures sp.useCustomCategories.Some? ==> p.useCustomCategories == sp.useCustomCategories.value
    ensures p.legacyName == sp.name
  {
    var legacyFirst := if sp.name.Some? then NameBeforeSpace(sp.name.value) else "";
    var legacyLast := if sp.name.Some? then NameAfterSpace(sp.name.value) else "";
    UserProfile(
      Or(sp.firstName.GetOr(""), legacyFirst),
      Or(sp.lastName.GetOr(""), legacyLast),
      sp.email.GetOr(DEFAULT_PROFILE.email),
      sp.phoneNumber.GetOr(DEFAULT_PROFILE.phoneNumber),
      Or(sp.phoneCountryCode.GetOr(""), "GB"),
      Or(sp.phoneCountryDialCode.GetOr(""), "+44"),
      sp.currency.GetOr(DEFAULT_PROFILE.currency),
      sp.customCategories.GetOr(DEFAULT_PROFILE.customCategories),
      sp.useCustomCategories.GetOr(DEFAULT_PROFILE.useCustomCategories),
      sp.name)
  }

  /** A legacy name is split on its first space: the first name is the text before it and
      the last name the text after it, so joining them with a space gives the name back;
      with no space the whole name is the first name and the last name is empty. */
  lemma LegacyNameSplit(sp: StoredProfile, n: string)
    requires sp.firstName.GetOr("") == "" && sp.lastName.GetOr("") == ""
    requires sp.name == Some(n)
    ensures ' ' in n ==> Migrate(sp).firstName + " " + Migrate(sp).lastName == n
    ensures ' ' in n ==> ' ' !in Migrate(sp).firstName
    ensures ' ' !in n ==> Migrate(sp).firstName == n && Migrate(sp).lastName == ""
  {
    assert Migrate(sp).firstName == NameBeforeSpace(n) && Migrate(sp).lastName == NameAfterSpace(n);
    if ' ' in n {
      NameSplitsAtFirstSpace(n);
    } else {
      SplitWithout(n, ' ');
    }
  }

  /** Splitting a name that has a space at its first space and joining the halves with a
      space gives the name back; the first half has no space. */
  lemma NameSplitsAtFirstSpace(n: string)
    requires ' ' in n
    ensures NameBeforeSpace(n) + " " + NameAfterSpace(n) == n
    ensures ' ' !in NameBeforeSpace(n)
  {
    var k := IndexOf(n, ' ');
    SplitAtFirst(n, ' ');
    assert n == n[..k] + " " + n[k + 1..];
    assert forall j :: 0 <= j < |n[..k]| ==> n[..k][j] != ' ';
  }

  /** Keys missing from the stored record take the default values, and empty phone codes
      become "GB" and "+44"; a record with no keys at all loads as the default profile. */
  lemma MissingKeysTakeDefaults(sp: StoredProfile)
    ensures sp.email.None? ==> Migrate(sp).email == DEFAULT_PROFILE.email
    ensures sp.phoneNumber.None? ==> Migrate(sp).phoneNumber == DEFAULT_PROFILE.phoneNumber
    ensures sp.currency.None? ==> Migrate(sp).currency == DEFAULT_PROFILE.currency
    ensures sp.customCategories.None? ==> Migrate(sp).customCategories == []
    ensures sp.useCustomCategories.None? ==> !Migrate(sp).useCustomCategories
    ensures sp.phoneCountryCode.GetOr("") == "" ==> Migrate(sp).phoneCountryCode == "GB"
    ensures sp.phoneCountryDialCode.GetOr("") == "" ==> Migrate(sp).phoneCountryDialCode == "+44"
    ensures sp.firstName.GetOr("") == "" && sp.name.None? ==> Migrate(sp).firstName == ""
    ensures sp == StoredProfile(None, None, None, None, None, None, None, None, None, None)
            ==> Migrate(sp) == DEFAULT_PROFILE
  {
  }

  /** Saving and loading again gives back the same profile, provided the phone codes are
      not empty and a carried-over legacy name cannot fill in an empty name. */
  lemma SaveLoadRoundTrip(p: UserProfile)
    requires p.phoneCountryCode != "" && p.phoneCountryDialCode != ""
    requires p.legacyName.None? || (p.firstName != "" && p.lastName != "")
    ensures Migrate(Encode(p)) == p
  {
  }

  /** Loading, saving and loading again gives the profile of the first load: whatever a
      legacy name filled in is filled in the same way the second time. */
  lemma LoadSaveLoadStable(sp: StoredProfile)
    ensures Migrate(Encode(Migrate(sp))) == Migrate(sp)
  {
  }

  /** A profile that still carries a legacy name does not keep an emptied first name:
      after saving and loading, the first word of the legacy name is back. */
  lemma LegacyNameResurfaces(p: UserProfile, n: string)
    requires p.legacyName == Some(n) && p.firstName == ""
    requires n != "" && n[0] != ' '
    ensures Migrate(Encode(p)).firstName != p.firstName
    ensures Migrate(Encode(p)).firstName == n[..if ' ' in n then IndexOf(n, ' ') else |n|]
  {
    if ' ' in n {
      SplitAtFirst(n, ' ');
    } else {
      SplitWithout(n, ' ');
    }
  }

  // ---------------------------------------------------------------------------
  // Email check

  /** A character of the class `[^\s@]`. */
  predicate PlainChar(c: char) {
    !IsSpace(c) && c != '@'
  }

  /** One run of `[^\s@]`: no white space and no '@'. */
  predicate Plain(s: string) {
    forall i :: 0 <= i < |s| ==> PlainChar(s[i])
  }

  /** The strings matched by `^[^\s@]+@[^\s@]+\.[^\s@]+$`. */
  ghost predicate MatchesEmailPattern(s: string) {
    exists at, dot :: PatternAt(s, at, dot)
  }

  /** The pattern matches with its '@' at `at` and its escaped '.' at `dot`. */
  predicate PatternAt(s: string, at: int, dot: int) {
    && 0 < at && at + 1 < dot && dot + 1 < |s| && s[at] == '@' && s[dot] == '.'
    && Plain(s[..at]) && Plain(s[at + 1..dot]) && Plain(s[dot + 1..])
  }

  /** The email check stated directly: no white space, exactly one '@' with text before
      it, and a '.' in the domain that is neither its first nor its last character. */
  function IsValidEmail(s: string): (ok: bool)
    ensures ok ==> 5 <= |s| && s[0] != '@' && s[|s| - 1] != '@'
    ensures ok ==> 0 < IndexOf(s, '@') < |s| - 3 && '.' in s
  {
    var at := IndexOf(s, '@');
    && (forall i :: 0 <= i < |s| ==> !IsSpace(s[i]))
    && at > 0
    && '@' !in s[at + 1..]
    && exists dot :: at + 1 < dot < |s| - 1 && s[dot] == '.'
  }

  /** Every string the direct check accepts matches the regular expression. */
  lemma ValidEmailMatches(s: string)
    requires IsValidEmail(s)
    ensures MatchesEmailPattern(s)
  {
    var at := IndexOf(s, '@');
    var dot :| at + 1 < dot < |s| - 1 && s[dot] == '.';
    var domain, local, middle, top := s[at + 1..], s[..at], s[at + 1..dot], s[dot + 1..];
    assert Plain(local);
    assert Plain(middle) by {
      forall i | 0 <= i < |middle| ensures PlainChar(middle[i]) {
        assert middle[i] == domain[i] == s[at + 1 + i];
      }
    }
    assert Plain(top) by {
      forall i | 0 <= i < |top| ensures PlainChar(top[i]) {
        assert top[i] == domain[i + dot - at] == s[dot + 1 + i];
      }
    }
    assert PatternAt(s, at, dot);
  }

  /** A plain slice has no white space and no '@' at any of its positions in the string. */
  lemma PlainSlice(s: string, lo: int, hi: int)
    requires 0 <= lo <= hi <= |s| && Plain(s[lo..hi])
    ensures forall i :: lo <= i < hi ==> PlainChar(s[i])
  {
    forall i | lo <= i < hi ensures PlainChar(s[i]) {
      assert s[i] == s[lo..hi][i - lo];
    }
  }

  /** A match has no white space anywhere. */
  lemma PatternHasNoSpace(s: string, at: int, dot: int)
    requires PatternAt(s, at, dot)
    ensures forall i :: 0 <= i < |s| ==> !IsSpace(s[i])
  {
    PlainSlice(s, 0, at);
    PlainSlice(s, at + 1, dot);
    PlainSlice(s, dot + 1, |s|);
    forall i | 0 <= i < |s| ensures !IsSpace(s[i]) {
      if i != at && i != dot {
        assert PlainChar(s[i]);
      }
    }
  }

  /** A match has exactly one '@', at `at`. */
  lemma PatternHasOneAt(s: string, at: int, dot: int)
    requires PatternAt(s, at, dot)
    ensures IndexOf(s, '@') == at && '@' !in s[at + 1..]
  {
    PlainSlice(s, 0, at);
    PlainSlice(s, at + 1, dot);
    PlainSlice(s, dot + 1, |s|);
    IndexOfAt(s, '@', at);
    var domain := s[at + 1..];
    forall i | 0 <= i < |domain| ensures domain[i] != '@' {
      assert domain[i] == s[at + 1 + i];
      if at + 1 + i != dot {
        assert PlainChar(s[at + 1 + i]);
      }
    }
  }

  /** Every string the regular expression matches passes the direct check. */
  lemma PatternMatchesAreValid(s: string)
    requires MatchesEmailPattern(s)
    ensures IsValidEmail(s)
  {
    var at, dot :| PatternAt(s, at, dot);
    PatternHasNoSpace(s, at, dot);
    PatternHasOneAt(s, at, dot);
    assert at + 1 < dot < |s| - 1 && s[dot] == '.';
  }

  /** The direct check accepts exactly the strings the regular expression matches. */
  lemma ValidEmailIffPattern(s: string)
    ensures IsValidEmail(s) <==> MatchesEmailPattern(s)
  {
    if IsValidEmail(s) {
      ValidEmailMatches(s);
    }
    if MatchesEmailPattern(s) {
      PatternMatchesAreValid(s);
    }
  }

  /** Saving is allowed when the email is empty or well formed. */
  predicate EmailAccepted(email: string) {
    email == "" || IsValidEmail(email)
  }

  // ---------------------------------------------------------------------------
  // Custom categories

  /** The three outcomes of pressing "add category". */
  datatype AddOutcome = Blank | Duplicate | Added(categories: seq<string>)

  /** The category list after adding the typed text: nothing for blank input, a duplicate
      report when the trimmed text is already listed, otherwise the trimmed text appended. */
  function AddCategory(categories: seq<string>, input: string): (r: AddOutcome)
    ensures r.Blank? <==> forall i :: 0 <= i < |input| ==> IsSpace(input[i])
    ensures r.Duplicate? <==> Trim(input) != "" && Trim(input) in categories
    ensures r.Added? ==> |r.categories| == |categories| + 1
    ensures r.Added? ==> r.categories[..|categories|] == categories
    ensures r.Added? ==> r.categories[|categories|] == Trim(input)
  {
    var entry := Trim(input);
    if entry == "" then Blank
    else if entry in categories then Duplicate
    else Added(categories + [entry])
  }

  /** An added entry is non-empty, already trimmed, and was not listed before, so a
      duplicate-free list stays duplicate-free. */
  lemma AddedLabelIsNew(categories: seq<string>, input: string)
    requires AddCategory(categories, input).Added?
    ensures var added := AddCategory(categories, input).categories;
      && added[|added| - 1] != ""
      && Trim(added[|added| - 1]) == added[|added| - 1]
      && added[|added| - 1] !in categories
      && (Distinct(categories) ==> Distinct(added))
  {
    var entry := Trim(input);
    var added := AddCategory(categories, input).categories;
    assert added == categories + [entry];
    TrimIdempotent(input);
    if Distinct(categories) {
      forall i, j | 0 <= i < j < |added| ensures added[i] != added[j] {
        assert added[i] == categories[i];
      }
    }
  }

  /** `categories.filter(c => c !== entry)`. */
  function RemoveCategory(categories: seq<string>, entry: string): (r: seq<string>)
    ensures IsSubsequence(r, categories)
    ensures forall i :: 0 <= i < |r| ==> r[i] != entry
    decreases |categories|
  {
    if categories == [] then []
    else
      var init, last := categories[..|categories| - 1], categories[|categories| - 1];
      var kept := RemoveCategory(init, entry);
      if last != entry then
        assert (kept + [last])[..|kept + [last]| - 1] == kept;
        kept + [last]
      else
        kept
  }

  /** Removal deletes every copy of the entry and keeps every other entry with its
      multiplicity. */
  lemma {:induction false} RemoveCounts(categories: seq<string>, entry: string, x: string)
    ensures multiset(RemoveCategory(categories, entry))[x]
            == if x == entry then 0 else multiset(categories)[x]
    decreases |categories|
  {
    if categories != [] {
      var init, last := categories[..|categories| - 1], categories[|categories| - 1];
      assert categories == init + [last];
      RemoveCounts(init, entry, x);
    }
  }

  /** Removing an entry that is not listed leaves the list as it was. */
  lemma {:induction false} RemoveAbsent(categories: seq<string>, entry: string)
    requires entry !in categories
    ensures RemoveCategory(categories, entry) == categories
    decreases |categories|
  {
    if categories != [] {
      var init := categories[..|categories| - 1];
      assert categories == init + [categories[|categories| - 1]];
      RemoveAbsent(init, entry);
    }
  }

  /** Removing an entry just added undoes the addition. */
  lemma RemoveUndoesAdd(categories: seq<string>, input: string)
    requires AddCategory(categories, input).Added?
    ensures RemoveCategory(AddCategory(categories, input).categories, Trim(input)) == categories
  {
    var added := AddCategory(categories, input).categories;
    assert added[..|added| - 1] == categories;
    RemoveAbsent(categories, Trim(input));
  }

  // ---------------------------------------------------------------------------
  // Single-field edits

  /** The value stored under a key. */
  function Get(p: UserProfile, f: Field): Value {
    match f
    case FirstName => Str(p.firstName)
    case LastName => Str(p.lastName)
    case Email => Str(p.email)
    case PhoneNumber => Str(p.phoneNumber)
    case PhoneCountryCode => Str(p.phoneCountryCode)
    case PhoneCountryDialCode => Str(p.phoneCountryDialCode)
    case CurrencyCode => Str(p.currency)
    case CustomCategories => Labels(p.customCategories)
    case UseCustomCategories => Bool(p.useCustomCategories)
  }

  /** One `updateProfile(key, value)` call, with the value of the key's type. */
  datatype Edit =
    | SetFirstName(s: string)
    | SetLastName(s: string)
    | SetEmail(s: string)
    | SetPhoneNumber(s: string)
    | SetPhoneCountryCode(s: string)
    | SetPhoneCountryDialCode(s: string)
    | SetCurrency(s: string)
    | SetCustomCategories(labels: seq<string>)
    | SetUseCustomCategories(b: bool)
  {
    /** The key the edit writes. */
    function Key(): Field {
      match this
      case SetFirstName(_) => FirstName
      case SetLastName(_) => LastName
      case SetEmail(_) => Email
      case SetPhoneNumber(_) => PhoneNumber
      case SetPhoneCountryCode(_) => PhoneCountryCode
      case SetPhoneCountryDialCode(_) => PhoneCountryDialCode
      case SetCurrency(_) => CurrencyCode
      case SetCustomCategories(_) => CustomCategories
      case SetUseCustomCategories(_) => UseCustomCategories
    }

    /** The value the edit writes. */
    function NewValue(): Value {
      match this
      case SetCustomCategories(labels) => Labels(labels)
      case SetUseCustomCategories(b) => Bool(b)
      case _ => Str(this.s)
    }
  }

  /** `{ ...prev, [key]: value }`: the edited key takes the new value and every other key,
      and the carried legacy name, keep theirs. */
  function Apply(p: UserProfile, e: Edit): (r: UserProfile)
    ensures Get(r, e.Key()) == e.NewValue()
    ensures forall f :: f != e.Key() ==> Get(r, f) == Get(p, f)
    ensures r.legacyName == p.legacyName
  {
    match e
    case SetFirstName(s) => p.(firstName := s)
    case SetLastName(s) => p.(lastName := s)
    case SetEmail(s) => p.(email := s)
    case SetPhoneNumber(s) => p.(phoneNumber := s)
    case SetPhoneCountryCode(s) => p.(phoneCountryCode := s)
    case SetPhoneCountryDialCode(s) => p.(phoneCountryDialCode := s)
    case SetCurrency(s) => p.(currency := s)
    case SetCustomCategories(labels) => p.(customCategories := labels)
    case SetUseCustomCategories(b) => p.(useCustomCategories := b)
  }

  /** Two profiles with the same value under every key and the same legacy name are equal. */
  lemma ProfileDeterminedByFields(p: UserProfile, q: UserProfile)
    requires forall f :: Get(p, f) == Get(q, f)
    requires p.legacyName == q.legacyName
    ensures p == q
  {
    assert Get(p, FirstName) == Get(q, FirstName);
    assert Get(p, LastName) == Get(q, LastName);
    assert Get(p, Email) == Get(q, Email);
    assert Get(p, PhoneNumber) == Get(q, PhoneNumber);
    assert Get(p, PhoneCountryCode) == Get(q, PhoneCountryCode);
    assert Get(p, PhoneCountryDialCode) == Get(q, PhoneCountryDialCode);
    assert Get(p, CurrencyCode) == Get(q, CurrencyCode);
    assert Get(p, CustomCategories) == Get(q, CustomCategories);
    assert Get(p, UseCustomCategories) == Get(q, UseCustomCategories);
  }
}
