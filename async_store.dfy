/**
 * The device key-value store shared by the app shell, onboarding and the
 * profile screen, reduced to a map from string keys to string values that
 * its operations update in place.
 */
module AsyncStore {
  import opened Wrappers
  import opened Text

  const AvatarUriKey := "avatarUri"
  const FirstNameKey := "firstName"
  const LastNameKey := "lastName"
  const EmailKey := "email"
  const PhoneNumberKey := "phoneNumber"
  const NotificationsKey := "notifications"
  const OnboardingCompletedKey := "onboardingCompleted"

  /** The six keys the profile screen saves together. */
  const ProfileKeys: set<string> :=
    {AvatarUriKey, FirstNameKey, LastNameKey, EmailKey, PhoneNumberKey, NotificationsKey}

  /** The keys written by a batch of pairs. */
  function KeysOf(pairs: seq<(string, string)>): set<string>
  {
    set i | 0 <= i < |pairs| :: pairs[i].0
  }

  /** `multiSet`: the pairs written in order, so a later pair for the same key wins. */
  function WriteAll(m: map<string, string>, pairs: seq<(string, string)>): (r: map<string, string>)
    ensures r.Keys == m.Keys + KeysOf(pairs)
    ensures forall k :: k in m && k !in KeysOf(pairs) ==> r[k] == m[k]
    ensures forall i :: 0 <= i < |pairs| && LastFor(pairs, i) ==> r[pairs[i].0] == pairs[i].1
    decreases |pairs|
  {
    if pairs == [] then m
    else
      var r := WriteAll(m[pairs[0].0 := pairs[0].1], pairs[1..]);
      KeysOfCons(pairs);
      LastForTail(pairs);
      r
  }

  /** The keys of a non-empty batch are its first key and those of the rest. */
  lemma KeysOfCons(pairs: seq<(string, string)>)
    requires pairs != []
    ensures KeysOf(pairs) == {pairs[0].0} + KeysOf(pairs[1..])
    ensures LastFor(pairs, 0) ==> pairs[0].0 !in KeysOf(pairs[1..])
  {
    forall k | k in KeysOf(pairs) ensures k in {pairs[0].0} + KeysOf(pairs[1..]) {
      var i :| 0 <= i < |pairs| && pairs[i].0 == k;
      if i > 0 {
        assert pairs[1..][i - 1] == pairs[i];
      }
    }
    forall k | k in KeysOf(pairs[1..]) ensures k in KeysOf(pairs) && (LastFor(pairs, 0) ==> k != pairs[0].0) {
      var i :| 0 <= i < |pairs[1..]| && pairs[1..][i].0 == k;
      assert pairs[i + 1] == pairs[1..][i];
    }
  }

  /** A pair after the first that no later pair overwrites keeps that standing in the rest. */
  lemma LastForTail(pairs: seq<(string, string)>)
    requires pairs != []
    ensures forall i :: 1 <= i < |pairs| && LastFor(pairs, i) ==> LastFor(pairs[1..], i - 1)
  {
    forall i | 1 <= i < |pairs| && LastFor(pairs, i) ensures LastFor(pairs[1..], i - 1) {
      forall j | i - 1 < j < |pairs[1..]| ensures pairs[1..][j].0 != pairs[1..][i - 1].0 {
        assert pairs[1..][j] == pairs[j + 1];
      }
    }
  }

  /** No later pair in `pairs` writes the key of pair `i`. */
  predicate LastFor(pairs: seq<(string, string)>, i: nat)
    requires i < |pairs|
  {
    forall j :: i < j < |pairs| ==> pairs[j].0 != pairs[i].0
  }

  /** The stored value of `key`, if any: `getItem`, which yields `null` for a missing key. */
  function Lookup(m: map<string, string>, key: string): (r: Option<string>)
    ensures r.Some? <==> key in m
    ensures r.Some? ==> r.value == m[key]
  {
    if key in m then Some(m[key]) else None
  }

  /**
   * `saved || fallback` for a text: the stored text when it is truthy.
   * `if (saved) setField(saved)` is the same with the current value as fallback.
   */
  function OrText(saved: Option<string>, fallback: string): (r: string)
    ensures Truthy(saved) ==> r == saved.value
    ensures !Truthy(saved) ==> r == fallback
  {
    if Truthy(saved) then saved.value else fallback
  }

  class Storage {
    var data: map<string, string>

    constructor (initial: map<string, string>)
      ensures data == initial
    {
      data := initial;
    }

    function GetItem(key: string): (r: Option<string>)
      reads this
      ensures r == Lookup(data, key)
    {
      Lookup(data, key)
    }

    method SetItem(key: string, value: string)
      modifies this
      ensures data == old(data)[key := value]
    {
      data := data[key := value];
    }

    method MultiSet(pairs: seq<(string, string)>)
      modifies this
      ensures data == WriteAll(old(data), pairs)
    {
      data := WriteAll(data, pairs);
    }

    method Clear()
      modifies this
      ensures data == map[]
    {
      data := map[];
    }
  }
}
