/**
 * The header's profile editor: the names loaded from the `profiles` table,
 * the name shown on the header button, and the editor dialog with its open,
 * close and save transitions. The Supabase calls are parameters (their
 * outcomes); the `setTimeout` that hides the "Saved" note is not modelled.
 */
module ProfileHeader {
  import opened Wrappers
  import opened Text
  import opened Seqs

  /** The part of the signed-in Supabase user the header uses. */
  datatype User = User(id: string, email: Option<string>)

  /** A `profiles` row: `first_name` and `last_name`, each possibly null. */
  datatype ProfileRecord = ProfileRecord(firstName: Option<string>, lastName: Option<string>)

  /** The outcome of `profiles ... maybeSingle()`: an error, or the row if there is one. */
  datatype ProfileLookup = LookupFailed | LookupDone(profile: Option<ProfileRecord>)

  /** The row `handleSave` upserts. */
  datatype Upsert = Upsert(id: string, firstName: string, lastName: string)

  /** The message shown when the upsert fails. */
  const SaveFailedMessage: string := "Could not save profile. Please try again."

  /** `name?.trim() ?? ""` */
  function LoadedName(name: Option<string>): (loaded: string)
    ensures IsTrimmed(loaded)
    ensures name.Some? ==> loaded == Trim(name.value)
    ensures name.None? ==> loaded == []
    ensures name.Some? && IsBlank(name.value) ==> loaded == []
  {
    match name
    case Some(text) => Trim(text)
    case None => []
  }

  /** A name that is already trimmed is loaded as it is. */
  lemma LoadedNameTrimmed(text: string)
    requires IsTrimmed(text)
    ensures LoadedName(Some(text)) == text
  {
    TrimTrimmed(text);
  }

  /** `safeProfile?.first_name`: null when there is no profile row. */
  function FirstNameOf(profile: Option<ProfileRecord>): Option<string> {
    if profile.Some? then profile.value.firstName else None
  }

  /** `safeProfile?.last_name`: null when there is no profile row. */
  function LastNameOf(profile: Option<ProfileRecord>): Option<string> {
    if profile.Some? then profile.value.lastName else None
  }

  /** `Boolean` as a filter on strings: the non-empty ones. */
  function Present(s: string): bool {
    s != []
  }

  /** The non-empty names among the two, in order, each followed by a space when the other follows. */
  function JoinedNames(first: string, last: string): string {
    if first == [] then last else if last == [] then first else first + " " + last
  }

  /** Filtering out the empty names and joining the rest with a space gives `JoinedNames`. */
  lemma JoinPresentNames(first: string, last: string)
    ensures Join(Filter(Present, [first, last]), " ") == JoinedNames(first, last)
  {
    assert [first, last][1..] == [last];
    assert [last][1..] == [];
    var tail := Filter(Present, [last]);
    assert Filter(Present, []) == [];
    assert tail == if Present(last) then [last] else [];
    var kept := Filter(Present, [first, last]);
    assert kept == if Present(first) then [first] + tail else tail;
    if first != [] && last != [] {
      assert kept == [first, last];
      assert kept[1..] == [last];
    }
  }

  /** `[firstName, lastName].filter(Boolean).join(" ").trim()` */
  function FullName(first: string, last: string): (name: string)
    ensures IsTrimmed(name)
    ensures name == Trim(JoinedNames(first, last))
  {
    JoinPresentNames(first, last);
    Trim(Join(Filter(Present, [first, last]), " "))
  }

  /**
   * For trimmed names the full name is the non-empty names joined by a
   * single space; nothing else is trimmed away.
   */
  lemma FullNameOfTrimmed(first: string, last: string)
    requires IsTrimmed(first) && IsTrimmed(last)
    ensures FullName(first, last) == JoinedNames(first, last)
  {
    if first == [] {
      TrimTrimmed(last);
    } else if last == [] {
      TrimTrimmed(first);
    } else {
      TrimJoinedBySpace(first, last);
    }
  }

  /** Whitespace-only names contribute nothing to the full name. */
  lemma BlankNamesVanish(first: string, last: string)
    requires IsBlank(first) && IsBlank(last)
    ensures FullName(first, last) == []
  {
    if first != [] && last != [] {
      BlankIffAllWhitespace(first);
      BlankIffAllWhitespace(last);
      var s := first + " " + last;
      assert forall i :: 0 <= i < |s| ==> IsWhitespace(s[i]) by {
        forall i | 0 <= i < |s| ensures IsWhitespace(s[i]) {
          if i < |first| {
            assert s[i] == first[i];
          } else if i > |first| {
            assert s[i] == last[i - |first| - 1];
          }
        }
      }
      BlankIffAllWhitespace(s);
    }
  }

  /** `fullName || user.email || ""` */
  function DisplayName(fullName: string, email: Option<string>): (shown: string)
    ensures fullName != [] ==> shown == fullName
    ensures fullName == [] ==> shown == email.GetOr([])
  {
    if fullName != [] then fullName
    else if email.Some? && email.value != [] then email.value
    else []
  }

  /**
   * With trimmed names, the button is blank only when both names and the
   * e-mail address are empty, and it starts with the first name whenever
   * there is one.
   */
  lemma DisplayNameChoice(first: string, last: string, email: Option<string>)
    requires IsTrimmed(first) && IsTrimmed(last)
    ensures DisplayName(FullName(first, last), email) == [] <==>
      first == [] && last == [] && email.GetOr([]) == []
    ensures first != [] ==> StartsWith(DisplayName(FullName(first, last), email), first)
    ensures first == [] && last == [] ==> DisplayName(FullName(first, last), email) == email.GetOr([])
  {
    FullNameOfTrimmed(first, last);
    if first != [] && last != [] {
      StartsWithConcat(first, " " + last);
      assert first + " " + last == first + (" " + last);
    }
  }

  /** The state of `AuthHeader` that its handlers change. */
  class ProfileEditor {
    var user: Option<User>
    var firstName: string
    var lastName: string
    var editFirstName: string
    var editLastName: string
    var isModalOpen: bool
    var saving: bool
    var saveError: Option<string>
    var savedMessageVisible: bool

    /** The displayed names are always trimmed: they come only from loading and saving. */
    predicate Valid()
      reads this
    {
      IsTrimmed(firstName) && IsTrimmed(lastName)
    }

    constructor()
      ensures Valid()
      ensures user == None && firstName == [] && lastName == []
      ensures editFirstName == [] && editLastName == []
      ensures !isModalOpen && !saving && saveError == None && !savedMessageVisible
    {
      user := None;
      firstName := [];
      lastName := [];
      editFirstName := [];
      editLastName := [];
      isModalOpen := false;
      saving := false;
      saveError := None;
      savedMessageVisible := false;
    }

    /** The text of the header button, which exists only for a signed-in user. */
    function Display(): string
      reads this
      requires user.Some?
    {
      DisplayName(FullName(firstName, lastName), user.value.email)
    }

    /** `loadUser`, after `getUser`: the user is recorded unless the header has gone. */
    method FinishGetUser(authUser: Option<User>, mounted: bool)
      requires Valid()
      modifies this
      ensures Valid()
      ensures user == if mounted then authUser else old(user)
      ensures firstName == old(firstName) && lastName == old(lastName)
      ensures editFirstName == old(editFirstName) && editLastName == old(editLastName)
      ensures isModalOpen == old(isModalOpen) && saving == old(saving)
      ensures saveError == old(saveError) && savedMessageVisible == old(savedMessageVisible)
    {
      if !mounted {
        return;
      }
      user := authUser;
    }

    /**
     * `loadUser`, after the profile lookup: a failed lookup changes nothing;
     * otherwise the trimmed names, or `""` for a missing row or a null
     * column, become both the displayed and the edited names.
     */
    method FinishProfileLoad(result: ProfileLookup, mounted: bool)
      requires Valid()
      modifies this
      ensures Valid()
      ensures mounted && result.LookupDone? ==>
        firstName == LoadedName(FirstNameOf(result.profile)) &&
        lastName == LoadedName(LastNameOf(result.profile)) &&
        editFirstName == firstName && editLastName == lastName
      ensures !mounted || result.LookupFailed? ==>
        firstName == old(firstName) && lastName == old(lastName) &&
        editFirstName == old(editFirstName) && editLastName == old(editLastName)
      ensures user == old(user) && isModalOpen == old(isModalOpen) && saving == old(saving)
      ensures saveError == old(saveError) && savedMessageVisible == old(savedMessageVisible)
    {
      if !mounted || result.LookupFailed? {
        return;
      }
      var loadedFirstName := LoadedName(FirstNameOf(result.profile));
      var loadedLastName := LoadedName(LastNameOf(result.profile));
      firstName := loadedFirstName;
      lastName := loadedLastName;
      editFirstName := loadedFirstName;
      editLastName := loadedLastName;
    }

    /** `openEditor`: the dialog starts from the displayed names, without an error. */
    method OpenEditor()
      requires Valid()
      modifies this
      ensures Valid()
      ensures editFirstName == firstName && editLastName == lastName
      ensures saveError == None && isModalOpen
      ensures user == old(user) && firstName == old(firstName) && lastName == old(lastName)
      ensures saving == old(saving) && savedMessageVisible == old(savedMessageVisible)
    {
      editFirstName := firstName;
      editLastName := lastName;
      saveError := None;
      isModalOpen := true;
    }

    /** `closeEditor`: ignored while a save is running. */
    method CloseEditor()
      requires Valid()
      modifies this
      ensures Valid()
      ensures old(saving) ==> isModalOpen == old(isModalOpen) && saveError == old(saveError)
      ensures !old(saving) ==> !isModalOpen && saveError == None
      ensures user == old(user) && firstName == old(firstName) && lastName == old(lastName)
      ensures editFirstName == old(editFirstName) && editLastName == old(editLastName)
      ensures saving == old(saving) && savedMessageVisible == old(savedMessageVisible)
    {
      if saving {
        return;
      }
      saveError := None;
      isModalOpen := false;
    }

    /** `onFirstNameChange` of the dialog. */
    method SetEditFirstName(value: string)
      requires Valid()
      modifies this
      ensures Valid()
      ensures editFirstName == value && editLastName == old(editLastName)
      ensures user == old(user) && firstName == old(firstName) && lastName == old(lastName)
      ensures isModalOpen == old(isModalOpen) && saving == old(saving)
      ensures saveError == old(saveError) && savedMessageVisible == old(savedMessageVisible)
    {
      editFirstName := value;
    }

    /** `onLastNameChange` of the dialog. */
    method SetEditLastName(value: string)
      requires Valid()
      modifies this
      ensures Valid()
      ensures editLastName == value && editFirstName == old(editFirstName)
      ensures user == old(user) && firstName == old(firstName) && lastName == old(lastName)
      ensures isModalOpen == old(isModalOpen) && saving == old(saving)
      ensures saveError == old(saveError) && savedMessageVisible == old(savedMessageVisible)
    {
      editLastName := value;
    }

    /**
     * The start of `handleSave`: ignored without a user or while a save is
     * running; otherwise the trimmed edits are sent for the user's row.
     */
    method BeginSave() returns (request: Option<Upsert>)
      requires Valid()
      modifies this
      ensures Valid()
      ensures old(user).None? || old(saving) ==>
        request == None && saving == old(saving) && saveError == old(saveError)
      ensures old(user).Some? && !old(saving) ==>
        request == Some(Upsert(old(user).value.id, Trim(editFirstName), Trim(editLastName))) &&
        saving && saveError == None
      ensures user == old(user) && firstName == old(firstName) && lastName == old(lastName)
      ensures editFirstName == old(editFirstName) && editLastName == old(editLastName)
      ensures isModalOpen == old(isModalOpen) && savedMessageVisible == old(savedMessageVisible)
    {
      if user.None? || saving {
        return None;
      }
      var normalizedFirstName := Trim(editFirstName);
      var normalizedLastName := Trim(editLastName);
      saving := true;
      saveError := None;
      request := Some(Upsert(user.value.id, normalizedFirstName, normalizedLastName));
    }

    /**
     * The end of `handleSave`, once the upsert of `request` is answered: a
     * failure keeps the names and the dialog and reports the error; a
     * success shows the saved names, closes the dialog and shows "Saved".
     */
    method FinishSave(request: Upsert, failed: bool)
      requires Valid()
      requires IsTrimmed(request.firstName) && IsTrimmed(request.lastName)
      modifies this
      ensures Valid()
      ensures !saving
      ensures failed ==>
        firstName == old(firstName) && lastName == old(lastName) &&
        isModalOpen == old(isModalOpen) && saveError == Some(SaveFailedMessage) &&
        savedMessageVisible == old(savedMessageVisible)
      ensures !failed ==>
        firstName == request.firstName && lastName == request.lastName &&
        !isModalOpen && saveError == old(saveError) && savedMessageVisible
      ensures user == old(user)
      ensures editFirstName == old(editFirstName) && editLastName == old(editLastName)
    {
      saving := false;
      if failed {
        saveError := Some(SaveFailedMessage);
        return;
      }
      firstName := request.firstName;
      lastName := request.lastName;
      isModalOpen := false;
      savedMessageVisible := true;
    }

    /**
     * `handleSave` from start to end, with `failed` the outcome of the
     * upsert: when it runs, the trimmed edits are sent, and afterwards no
     * save is running and the header shows the saved names or the dialog
     * shows the error.
     */
    method HandleSave(failed: bool) returns (request: Option<Upsert>)
      requires Valid()
      modifies this
      ensures Valid()
      ensures user == old(user)
      ensures editFirstName == old(editFirstName) && editLastName == old(editLastName)
      ensures old(user).None? || old(saving) ==>
        request == None && saving == old(saving) && saveError == old(saveError) &&
        firstName == old(firstName) && lastName == old(lastName) && isModalOpen == old(isModalOpen) &&
        savedMessageVisible == old(savedMessageVisible)
      ensures old(user).Some? && !old(saving) ==>
        request == Some(Upsert(old(user).value.id, Trim(old(editFirstName)), Trim(old(editLastName)))) &&
        !saving
      ensures old(user).Some? && !old(saving) && failed ==>
        firstName == old(firstName) && lastName == old(lastName) &&
        isModalOpen == old(isModalOpen) && saveError == Some(SaveFailedMessage) &&
        savedMessageVisible == old(savedMessageVisible)
      ensures old(user).Some? && !old(saving) && !failed ==>
        firstName == Trim(old(editFirstName)) && lastName == Trim(old(editLastName)) &&
        !isModalOpen && saveError == None && savedMessageVisible && (firstName != [] ==> StartsWith(Display(), firstName))
    {
      request := BeginSave();
      if request.Some? {
        FinishSave(request.value, failed);
        DisplayNameChoice(firstName, lastName, user.value.email);
      }
    }
  }
}
