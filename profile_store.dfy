/**
 * The profile screen: six editable fields held in component state, loaded
 * from the key-value store on mount, saved to it as one batch, reloaded on
 * "Discard changes", and wiped on "Log out".
 */
module ProfileStore {
  import opened Wrappers
  import opened AsyncStore
  import opened Text
  import opened NotificationPrefs
  import opened Navigation

  datatype ProfileData = ProfileData(
    avatarUri: Option<string>,
    firstName: string,
    lastName: string,
    email: string,
    phoneNumber: string,
    notifications: Prefs)

  /** The initial component state, and what every field falls back to. */
  const Default := ProfileData(None, "", "", "", "", AllOn)

  /** The four text inputs. */
  datatype TextField = FirstName | LastName | Email | PhoneNumber

  /** The state after typing `value` into one text input. */
  function WithText(p: ProfileData, field: TextField, value: string): ProfileData
  {
    match field
    case FirstName => p.(firstName := value)
    case LastName => p.(lastName := value)
    case Email => p.(email := value)
    case PhoneNumber => p.(phoneNumber := value)
  }

  // ---- The avatar's stored form ----

  /** `avatarUri || ''`: what is written for the avatar; no avatar becomes the empty string. */
  function AvatarText(avatar: Option<string>): (r: string)
    ensures r == "" <==> avatar.None? || avatar.value == ""
    ensures r != "" ==> avatar == Some(r)
  {
    if avatar.Some? then avatar.value else ""
  }

  /**
   * `saved || fallback` for the avatar: the stored URI when it is truthy.
   * With `None` as fallback this is `savedAvatar || null`.
   */
  function OrAvatar(saved: Option<string>, fallback: Option<string>): (r: Option<string>)
    ensures Truthy(saved) ==> r == Some(saved.value)
    ensures !Truthy(saved) ==> r == fallback
  {
    if Truthy(saved) then Some(saved.value) else fallback
  }

  /** The one representation of "no avatar": an empty URI counts as none. */
  function NormalAvatar(avatar: Option<string>): Option<string>
  {
    if avatar == Some("") then None else avatar
  }

  function Normalized(p: ProfileData): ProfileData
  {
    p.(avatarUri := NormalAvatar(p.avatarUri))
  }

  /** Writing the avatar and reading it back yields it, with an empty URI read as none. */
  lemma AvatarRoundTrip(avatar: Option<string>)
    ensures OrAvatar(Some(AvatarText(avatar)), None) == NormalAvatar(avatar)
    ensures avatar.None? ==> OrAvatar(Some(AvatarText(avatar)), None) == None
  {
  }

  // ---- Saving ----

  /** The pairs `saveChanges` passes to `multiSet`, in order. */
  function SavePairs(p: ProfileData): seq<(string, string)>
  {
    [ (AvatarUriKey, AvatarText(p.avatarUri)),
      (FirstNameKey, p.firstName),
      (LastNameKey, p.lastName),
      (EmailKey, p.email),
      (PhoneNumberKey, p.phoneNumber),
      (NotificationsKey, Encode(p.notifications)) ]
  }

  /** The store after a successful save of `p`. */
  function Saved(m: map<string, string>, p: ProfileData): map<string, string>
  {
    WriteAll(m, SavePairs(p))
  }

  lemma SavedUnfolds(m: map<string, string>, p: ProfileData)
    ensures Saved(m, p) ==
      m[AvatarUriKey := AvatarText(p.avatarUri)]
       [FirstNameKey := p.firstName]
       [LastNameKey := p.lastName]
       [EmailKey := p.email]
       [PhoneNumberKey := p.phoneNumber]
       [NotificationsKey := Encode(p.notifications)]
  {
    var ps := SavePairs(p);
    var m1 := m[ps[0].0 := ps[0].1];
    var m2 := m1[ps[1].0 := ps[1].1];
    var m3 := m2[ps[2].0 := ps[2].1];
    var m4 := m3[ps[3].0 := ps[3].1];
    var m5 := m4[ps[4].0 := ps[4].1];
    var m6 := m5[ps[5].0 := ps[5].1];
    assert WriteAll(m, ps) == WriteAll(m1, ps[1..]);
    assert WriteAll(m1, ps[1..]) == WriteAll(m2, ps[2..]);
    assert WriteAll(m2, ps[2..]) == WriteAll(m3, ps[3..]);
    assert WriteAll(m3, ps[3..]) == WriteAll(m4, ps[4..]);
    assert WriteAll(m4, ps[4..]) == WriteAll(m5, ps[5..]);
    assert WriteAll(m5, ps[5..]) == WriteAll(m6, ps[6..]);
    assert ps[6..] == [];
  }

  /**
   * A save writes exactly the six profile keys, each with its field's stored
   * form, and leaves every other key of the store as it was.
   */
  lemma SaveWritesExactlyProfileKeys(m: map<string, string>, p: ProfileData)
    ensures Saved(m, p).Keys == m.Keys + ProfileKeys
    ensures forall k :: k in m && k !in ProfileKeys ==> Saved(m, p)[k] == m[k]
    ensures Saved(m, p)[AvatarUriKey] == AvatarText(p.avatarUri)
    ensures Saved(m, p)[FirstNameKey] == p.firstName
    ensures Saved(m, p)[LastNameKey] == p.lastName
    ensures Saved(m, p)[EmailKey] == p.email
    ensures Saved(m, p)[PhoneNumberKey] == p.phoneNumber
    ensures Saved(m, p)[NotificationsKey] == Encode(p.notifications)
  {
    SavedUnfolds(m, p);
  }

  // ---- Reading back ----

  /** `JSON.parse(stored)`, where a parse failure leaves the switches at `fallback`. */
  function ParsedOr(stored: string, fallback: Prefs): Prefs
  {
    match Decode(stored)
    case Some(n) => n
    case None => fallback
  }

  /**
   * The switches read from a stored value: `absent` when it is not truthy,
   * otherwise its parse, and `current` when the parse throws (the exception
   * leaves the switches as they were).
   */
  function StoredPrefs(saved: Option<string>, absent: Prefs, current: Prefs): Prefs
  {
    if Truthy(saved) then ParsedOr(saved.value, current) else absent
  }

  /**
   * `discardChanges`: every field re-read from the store; a missing or empty
   * text reads as '', a missing or empty avatar as none, missing or empty
   * notifications as all on. Stored notifications that do not parse leave
   * the current switches as they are.
   */
  function Discarded(m: map<string, string>, current: Prefs): (r: ProfileData)
    ensures Truthy(Lookup(m, AvatarUriKey)) ==> r.avatarUri == Some(m[AvatarUriKey])
    ensures Truthy(Lookup(m, FirstNameKey)) ==> r.firstName == m[FirstNameKey]
    ensures Truthy(Lookup(m, LastNameKey)) ==> r.lastName == m[LastNameKey]
    ensures Truthy(Lookup(m, EmailKey)) ==> r.email == m[EmailKey]
    ensures Truthy(Lookup(m, PhoneNumberKey)) ==> r.phoneNumber == m[PhoneNumberKey]
    ensures Truthy(Lookup(m, NotificationsKey)) ==> r.notifications == ParsedOr(m[NotificationsKey], current)
    ensures !Truthy(Lookup(m, AvatarUriKey)) ==> r.avatarUri == None
    ensures !Truthy(Lookup(m, FirstNameKey)) ==> r.firstName == ""
    ensures !Truthy(Lookup(m, LastNameKey)) ==> r.lastName == ""
    ensures !Truthy(Lookup(m, EmailKey)) ==> r.email == ""
    ensures !Truthy(Lookup(m, PhoneNumberKey)) ==> r.phoneNumber == ""
    ensures !Truthy(Lookup(m, NotificationsKey)) ==> r.notifications == AllOn
    ensures r.avatarUri != Some("")
  {
    ProfileData(
      OrAvatar(Lookup(m, AvatarUriKey), None),
      OrText(Lookup(m, FirstNameKey), ""),
      OrText(Lookup(m, LastNameKey), ""),
      OrText(Lookup(m, EmailKey), ""),
      OrText(Lookup(m, PhoneNumberKey), ""),
      StoredPrefs(Lookup(m, NotificationsKey), AllOn, current))
  }

  /**
   * The load on mount: a field is replaced only by a stored value that is
   * present and non-empty; otherwise it keeps its value in `base`.
   */
  function Loaded(m: map<string, string>, base: ProfileData): (r: ProfileData)
    ensures Truthy(Lookup(m, AvatarUriKey)) ==> r.avatarUri == Some(m[AvatarUriKey])
    ensures Truthy(Lookup(m, FirstNameKey)) ==> r.firstName == m[FirstNameKey]
    ensures Truthy(Lookup(m, LastNameKey)) ==> r.lastName == m[LastNameKey]
    ensures Truthy(Lookup(m, EmailKey)) ==> r.email == m[EmailKey]
    ensures Truthy(Lookup(m, PhoneNumberKey)) ==> r.phoneNumber == m[PhoneNumberKey]
    ensures Truthy(Lookup(m, NotificationsKey)) ==> r.notifications == ParsedOr(m[NotificationsKey], base.notifications)
    ensures !Truthy(Lookup(m, AvatarUriKey)) ==> r.avatarUri == base.avatarUri
    ensures !Truthy(Lookup(m, FirstNameKey)) ==> r.firstName == base.firstName
    ensures !Truthy(Lookup(m, LastNameKey)) ==> r.lastName == base.lastName
    ensures !Truthy(Lookup(m, EmailKey)) ==> r.email == base.email
    ensures !Truthy(Lookup(m, PhoneNumberKey)) ==> r.phoneNumber == base.phoneNumber
    ensures !Truthy(Lookup(m, NotificationsKey)) ==> r.notifications == base.notifications
  {
    ProfileData(
      OrAvatar(Lookup(m, AvatarUriKey), base.avatarUri),
      OrText(Lookup(m, FirstNameKey), base.firstName),
      OrText(Lookup(m, LastNameKey), base.lastName),
      OrText(Lookup(m, EmailKey), base.email),
      OrText(Lookup(m, PhoneNumberKey), base.phoneNumber),
      StoredPrefs(Lookup(m, NotificationsKey), base.notifications, base.notifications))
  }

  /** Loading on mount, over the initial state, reads the same profile as a discard from it. */
  lemma MountLoadIsDiscard(m: map<string, string>)
    ensures Loaded(m, Default) == Discarded(m, Default.notifications)
  {
  }

  /**
   * Save followed by discard restores the saved profile, whatever the
   * in-memory state and the rest of the store; an empty avatar URI comes
   * back as no avatar.
   */
  lemma SaveThenDiscard(m: map<string, string>, p: ProfileData, current: Prefs)
    ensures Discarded(Saved(m, p), current) == Normalized(p)
    ensures p.avatarUri != Some("") ==> Discarded(Saved(m, p), current) == p
  {
    SaveWritesExactlyProfileKeys(m, p);
    var stored := Saved(m, p)[NotificationsKey];
    DecodeEncode(p.notifications);
    assert stored != "" by {
      assert stored[0] == '{';
    }
  }

  /** A restart after a save: the mount load shows the saved profile, an empty avatar as none. */
  lemma SaveThenRemount(m: map<string, string>, p: ProfileData)
    ensures Loaded(Saved(m, p), Default) == Normalized(p)
  {
    MountLoadIsDiscard(Saved(m, p));
    SaveThenDiscard(m, p, Default.notifications);
  }

  /** After the store is cleared, both the load and a discard yield every default. */
  lemma ClearedStoreGivesDefaults(current: Prefs)
    ensures Discarded(map[], current) == Default
    ensures Loaded(map[], Default) == Default
  {
  }

  // ---- The initials shown in place of a missing avatar ----

  /** `(firstName?.[0] ?? '') + (lastName?.[0] ?? '')`. */
  function Initials(first: string, last: string): (r: string)
    ensures |r| == (if first == "" then 0 else 1) + (if last == "" then 0 else 1)
    ensures |r| <= 2
    ensures first != "" ==> r[0] == first[0]
    ensures last != "" ==> r[|r| - 1] == last[0]
  {
    (if first == "" then "" else [first[0]]) + (if last == "" then "" else [last[0]])
  }

  class ProfileScreen {
    const store: Storage
    var avatarUri: Option<string>
    var firstName: string
    var lastName: string
    var email: string
    var phoneNumber: string
    var notifications: Prefs

    function Current(): ProfileData
      reads this
    {
      ProfileData(avatarUri, firstName, lastName, email, phoneNumber, notifications)
    }

    constructor (store: Storage)
      ensures this.store == store
      ensures Current() == Default
    {
      this.store := store;
      avatarUri := None;
      firstName, lastName, email, phoneNumber := "", "", "", "";
      notifications := AllOn;
    }

    /** The mount effect. */
    method Load()
      modifies this
      ensures Current() == Loaded(store.data, old(Current()))
    {
      var avatar := store.GetItem(AvatarUriKey);
      var first := store.GetItem(FirstNameKey);
      var last := store.GetItem(LastNameKey);
      var mail := store.GetItem(EmailKey);
      var phone := store.GetItem(PhoneNumberKey);
      var notifs := store.GetItem(NotificationsKey);
      // Each setter runs only for a stored value that is present and non-empty.
      avatarUri := OrAvatar(avatar, avatarUri);
      firstName := OrText(first, firstName);
      lastName := OrText(last, lastName);
      email := OrText(mail, email);
      phoneNumber := OrText(phone, phoneNumber);
      notifications := StoredPrefs(notifs, notifications, notifications);
    }

    /** `onChangeText` of one of the four text inputs. */
    method Edit(field: TextField, value: string)
      modifies this
      ensures Current() == WithText(old(Current()), field, value)
    {
      match field
      case FirstName => firstName := value;
      case LastName => lastName := value;
      case Email => email := value;
      case PhoneNumber => phoneNumber := value;
    }

    /**
     * "Change": the picked image's URI becomes the avatar; a refused
     * permission or a cancelled pick (`picked == None`) changes nothing.
     */
    method PickImage(granted: bool, picked: Option<string>)
      modifies this
      ensures Current() == if granted && picked.Some? then old(Current()).(avatarUri := picked) else old(Current())
    {
      if granted && picked.Some? {
        avatarUri := picked;
      }
    }

    /** "Remove". */
    method RemoveImage()
      modifies this
      ensures Current() == old(Current()).(avatarUri := None)
    {
      avatarUri := None;
    }

    /** Flips one switch in memory; the store is untouched until a save. */
    method ToggleNotification(key: Key)
      modifies this
      ensures Current() == old(Current()).(notifications := Toggle(old(notifications), key))
    {
      notifications := Toggle(notifications, key);
    }

    /**
     * "Save changes": one batch write of the six keys. When the write fails
     * (`writeOk` false) nothing is stored; the in-memory fields never change.
     */
    method SaveChanges(writeOk: bool) returns (saved: bool)
      modifies store
      ensures saved == writeOk
      ensures store.data == if writeOk then Saved(old(store.data), Current()) else old(store.data)
    {
      saved := writeOk;
      if writeOk {
        store.MultiSet(SavePairs(Current()));
      }
    }

    /** "Discard changes": every field re-read from the store. */
    method DiscardChanges()
      modifies this
      ensures Current() == Discarded(store.data, old(notifications))
    {
      var avatar := store.GetItem(AvatarUriKey);
      var first := store.GetItem(FirstNameKey);
      var last := store.GetItem(LastNameKey);
      var mail := store.GetItem(EmailKey);
      var phone := store.GetItem(PhoneNumberKey);
      var notifs := store.GetItem(NotificationsKey);
      avatarUri := OrAvatar(avatar, None);
      firstName := OrText(first, "");
      lastName := OrText(last, "");
      email := OrText(mail, "");
      phoneNumber := OrText(phone, "");
      notifications := StoredPrefs(notifs, AllOn, notifications);
    }

    /**
     * "Log out": the whole store is cleared, then navigation is reset to the
     * onboarding route. If clearing fails the reset is not reached.
     */
    method Logout(clearOk: bool) returns (resetTo: Option<Route>)
      modifies store
      ensures clearOk ==> store.data == map[] && resetTo == Some(Route.Onboarding)
      ensures !clearOk ==> store.data == old(store.data) && resetTo == None
    {
      if clearOk {
        store.Clear();
        resetTo := Some(Route.Onboarding);
      } else {
        resetTo := None;
      }
    }
  }
}
