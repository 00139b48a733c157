/**
 * The onboarding screen: two text fields pre-filled from the store, and a
 * finish button that writes both to the store one after the other before
 * handing control back to the app. No validation is applied.
 */
module OnboardingFlow {
  import opened Wrappers
  import opened AsyncStore
  import ProfileStore
  import opened NotificationPrefs

  /** The pairs `saveAndFinish` writes, in order. */
  function OnboardingPairs(firstName: string, email: string): seq<(string, string)>
  {
    [(FirstNameKey, firstName), (EmailKey, email)]
  }

  /** The store after both writes of `saveAndFinish` succeeded. */
  function Onboarded(m: map<string, string>, firstName: string, email: string): (r: map<string, string>)
    ensures r.Keys == m.Keys + {FirstNameKey, EmailKey}
    ensures r[FirstNameKey] == firstName && r[EmailKey] == email
    ensures forall k :: k in m && k != FirstNameKey && k != EmailKey ==> r[k] == m[k]
  {
    var pairs := OnboardingPairs(firstName, email);
    assert pairs[0].0 == FirstNameKey && pairs[1].0 == EmailKey;
    assert KeysOf(pairs) == {FirstNameKey, EmailKey};
    assert LastFor(pairs, 1);
    WriteAll(m, pairs)
  }

  /**
   * The keys are shared with the profile screen: a discard there shows the
   * onboarding values, empty ones included, and the mount load shows each
   * non-empty one over its previous value.
   */
  lemma ProfileReadsOnboarding(m: map<string, string>, firstName: string, email: string,
                               current: Prefs, base: ProfileStore.ProfileData)
    ensures ProfileStore.Discarded(Onboarded(m, firstName, email), current).firstName == firstName
    ensures ProfileStore.Discarded(Onboarded(m, firstName, email), current).email == email
    ensures firstName != "" ==> ProfileStore.Loaded(Onboarded(m, firstName, email), base).firstName == firstName
    ensures email != "" ==> ProfileStore.Loaded(Onboarded(m, firstName, email), base).email == email
    ensures firstName == "" ==> ProfileStore.Loaded(Onboarded(m, firstName, email), base).firstName == base.firstName
    ensures email == "" ==> ProfileStore.Loaded(Onboarded(m, firstName, email), base).email == base.email
  {
    var r := Onboarded(m, firstName, email);
    assert Lookup(r, FirstNameKey) == Some(firstName);
    assert Lookup(r, EmailKey) == Some(email);
  }

  class Onboarding {
    const store: Storage
    var firstName: string
    var email: string

    constructor (store: Storage)
      ensures this.store == store
      ensures firstName == "" && email == ""
    {
      this.store := store;
      firstName, email := "", "";
    }

    /** The pre-fill effect: a stored non-empty value replaces the field. */
    method Prefill()
      modifies this
      ensures firstName == OrText(Lookup(store.data, FirstNameKey), old(firstName))
      ensures email == OrText(Lookup(store.data, EmailKey), old(email))
    {
      var savedFirst := store.GetItem(FirstNameKey);
      var savedEmail := store.GetItem(EmailKey);
      firstName := OrText(savedFirst, firstName);
      email := OrText(savedEmail, email);
    }

    /** `onChangeText` of the first-name field. */
    method EditFirstName(value: string)
      modifies this
      ensures firstName == value && email == old(email)
    {
      firstName := value;
    }

    /** `onChangeText` of the email field. */
    method EditEmail(value: string)
      modifies this
      ensures email == value && firstName == old(firstName)
    {
      email := value;
    }

    /**
     * "Finish Onboarding": first name, then email, then `onDone`. A failed
     * write ends the handler, so `onDone` (the result `done`) runs only when
     * both succeed, and a failure of the second leaves the first in place.
     */
    method SaveAndFinish(firstOk: bool, secondOk: bool) returns (done: bool)
      modifies store
      ensures done <==> firstOk && secondOk
      ensures !firstOk ==> store.data == old(store.data)
      ensures firstOk && !secondOk ==> store.data == old(store.data)[FirstNameKey := firstName]
      ensures done ==> store.data == Onboarded(old(store.data), firstName, email)
    {
      done := false;
      if firstOk {
        store.SetItem(FirstNameKey, firstName);
        if secondOk {
          store.SetItem(EmailKey, email);
          done := true;
        }
      }
    }
  }
}
