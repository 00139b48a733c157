/**
 * The four e-mail notification switches of the profile screen, the toggle
 * that flips one of them, and the JSON text they are stored as.
 */
module NotificationPrefs {
  import opened Wrappers

  datatype Prefs = Prefs(orderStatuses: bool, passwordChanges: bool, specialOffers: bool, newsletter: bool)

  datatype Key = OrderStatuses | PasswordChanges | SpecialOffers | Newsletter

  /** Every switch on: the initial value and the fallback when nothing is stored. */
  const AllOn := Prefs(true, true, true, true)

  /** `notifications[key]`. */
  function Get(n: Prefs, key: Key): bool
  {
    match key
    case OrderStatuses => n.orderStatuses
    case PasswordChanges => n.passwordChanges
    case SpecialOffers => n.specialOffers
    case Newsletter => n.newsletter
  }

  /** Two records are equal when they agree on every key. */
  lemma EqualByKeys(a: Prefs, b: Prefs)
    requires forall key :: Get(a, key) == Get(b, key)
    ensures a == b
  {
    assert Get(a, OrderStatuses) == Get(b, OrderStatuses);
    assert Get(a, PasswordChanges) == Get(b, PasswordChanges);
    assert Get(a, SpecialOffers) == Get(b, SpecialOffers);
    assert Get(a, Newsletter) == Get(b, Newsletter);
  }

  /** `{ ...prev, [key]: !prev[key] }`: the named switch flipped, the others kept. */
  function Toggle(n: Prefs, key: Key): (r: Prefs)
    ensures Get(r, key) == !Get(n, key)
    ensures forall other :: other != key ==> Get(r, other) == Get(n, other)
  {
    match key
    case OrderStatuses => n.(orderStatuses := !n.orderStatuses)
    case PasswordChanges => n.(passwordChanges := !n.passwordChanges)
    case SpecialOffers => n.(specialOffers := !n.specialOffers)
    case Newsletter => n.(newsletter := !n.newsletter)
  }

  /** Toggling the same switch twice restores the record. */
  lemma ToggleTwice(n: Prefs, key: Key)
    ensures Toggle(Toggle(n, key), key) == n
  {
    var r := Toggle(Toggle(n, key), key);
    forall k ensures Get(r, k) == Get(n, k) {
      if k == key {
        assert Get(r, k) == !Get(Toggle(n, key), k);
      }
    }
    EqualByKeys(r, n);
  }

  /** Toggles of two switches can be done in either order. */
  lemma ToggleCommutes(n: Prefs, a: Key, b: Key)
    ensures Toggle(Toggle(n, a), b) == Toggle(Toggle(n, b), a)
  {
    var l, r := Toggle(Toggle(n, a), b), Toggle(Toggle(n, b), a);
    forall k ensures Get(l, k) == Get(r, k) {
    }
    EqualByKeys(l, r);
  }

  // ---- The stored text: `JSON.stringify` of the record, keys in declaration order ----

  const OrderStatusesField := "{\"orderStatuses\":"
  const PasswordChangesField := ",\"passwordChanges\":"
  const SpecialOffersField := ",\"specialOffers\":"
  const NewsletterField := ",\"newsletter\":"
  const Close := "}"

  function BoolText(b: bool): string
  {
    if b then "true" else "false"
  }

  /** `JSON.stringify(notifications)`. */
  function Encode(n: Prefs): string
  {
    OrderStatusesField + (BoolText(n.orderStatuses) +
    (PasswordChangesField + (BoolText(n.passwordChanges) +
    (SpecialOffersField + (BoolText(n.specialOffers) +
    (NewsletterField + (BoolText(n.newsletter) + Close)))))))
  }

  /** The rest of `s` after the literal `lit`, if `s` starts with it. */
  function Expect(s: string, lit: string): (r: Option<string>)
    ensures r.Some? ==> s == lit + r.value
  {
    if |lit| <= |s| && s[..|lit|] == lit then Some(s[|lit|..]) else None
  }

  lemma ExpectLiteral(lit: string, rest: string)
    ensures Expect(lit + rest, lit) == Some(rest)
  {
    assert (lit + rest)[..|lit|] == lit;
    assert (lit + rest)[|lit|..] == rest;
  }

  /** A JSON boolean at the start of `s`, and what follows it. */
  function ParseBool(s: string): (r: Option<(bool, string)>)
    ensures r.Some? ==> s == BoolText(r.value.0) + r.value.1
  {
    match Expect(s, "true")
    case Some(rest) => Some((true, rest))
    case None =>
      match Expect(s, "false")
      case Some(rest) => Some((false, rest))
      case None => None
  }

  lemma ParseBoolText(b: bool, rest: string)
    ensures ParseBool(BoolText(b) + rest) == Some((b, rest))
  {
    if b {
      ExpectLiteral("true", rest);
    } else {
      var s := "false" + rest;
      assert s[0] == 'f';
      assert Expect(s, "true").None?;
      ExpectLiteral("false", rest);
    }
  }

  /**
   * `JSON.parse` of a stored record. Only the text `Encode` produces is
   * accepted; anything else is reported as malformed.
   */
  function Decode(s: string): Option<Prefs>
  {
    var s1 :- Expect(s, OrderStatusesField);
    var p1 :- ParseBool(s1);
    var s2 :- Expect(p1.1, PasswordChangesField);
    var p2 :- ParseBool(s2);
    var s3 :- Expect(p2.1, SpecialOffersField);
    var p3 :- ParseBool(s3);
    var s4 :- Expect(p3.1, NewsletterField);
    var p4 :- ParseBool(s4);
    var rest :- Expect(p4.1, Close);
    if rest == "" then Some(Prefs(p1.0, p2.0, p3.0, p4.0)) else None
  }

  /** Decoding the stored text gives back the record that was saved. */
  lemma DecodeEncode(n: Prefs)
    ensures Decode(Encode(n)) == Some(n)
  {
    var t4 := BoolText(n.newsletter) + Close;
    var f4 := NewsletterField + t4;
    var t3 := BoolText(n.specialOffers) + f4;
    var f3 := SpecialOffersField + t3;
    var t2 := BoolText(n.passwordChanges) + f3;
    var f2 := PasswordChangesField + t2;
    var t1 := BoolText(n.orderStatuses) + f2;
    ExpectLiteral(OrderStatusesField, t1);
    ParseBoolText(n.orderStatuses, f2);
    ExpectLiteral(PasswordChangesField, t2);
    ParseBoolText(n.passwordChanges, f3);
    ExpectLiteral(SpecialOffersField, t3);
    ParseBoolText(n.specialOffers, f4);
    ExpectLiteral(NewsletterField, t4);
    ParseBoolText(n.newsletter, Close);
    ExpectLiteral(Close, "");
    assert Close + "" == Close;
  }

  /** Only the encoding of a record decodes to it: decoding never invents a record. */
  lemma EncodeDecode(s: string)
    ensures Decode(s).Some? ==> Encode(Decode(s).value) == s
  {
    if Decode(s).Some? {
      var s1 := Expect(s, OrderStatusesField).value;
      var p1 := ParseBool(s1).value;
      var s2 := Expect(p1.1, PasswordChangesField).value;
      var p2 := ParseBool(s2).value;
      var s3 := Expect(p2.1, SpecialOffersField).value;
      var p3 := ParseBool(s3).value;
      var s4 := Expect(p3.1, NewsletterField).value;
      var p4 := ParseBool(s4).value;
      var rest := Expect(p4.1, Close).value;
      assert rest == "" && Decode(s).value == Prefs(p1.0, p2.0, p3.0, p4.0);
      assert p4.1 == Close by {
        assert p4.1 == Close + rest;
      }
    }
  }
}
