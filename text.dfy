/**
 * The two string operations the menu search relies on: `toLowerCase`
 * (ASCII letters only) and `includes` (substring containment).
 */
module Text {
  import opened Wrappers

  /**
   * JavaScript truthiness of a string that may be `null`: set and not the
   * empty string.
   */
  predicate Truthy(s: Option<string>)
  {
    s.Some? && s.value != ""
  }

  /** Lower-cases one ASCII upper-case letter; every other character is kept. */
  function LowerChar(c: char): char
  {
    if 'A' <= c <= 'Z' then (c as int + 32) as char else c
  }

  /** `s.toLowerCase()`, restricted to ASCII. */
  function ToLower(s: string): (r: string)
    ensures |r| == |s|
    ensures forall i :: 0 <= i < |s| ==> r[i] == LowerChar(s[i])
    ensures forall i :: 0 <= i < |r| ==> !('A' <= r[i] <= 'Z')
  {
    seq(|s|, i requires 0 <= i < |s| => LowerChar(s[i]))
  }

  predicate StartsWith(s: string, prefix: string)
  {
    |prefix| <= |s| && s[..|prefix|] == prefix
  }

  /** `needle` occurs in `hay` starting at index `i`. */
  predicate OccursAt(hay: string, needle: string, i: int)
  {
    0 <= i && i + |needle| <= |hay| && hay[i..i + |needle|] == needle
  }

  /** `hay.includes(needle)`: a left-to-right scan for a starting position. */
  predicate Contains(hay: string, needle: string)
    decreases |hay|
  {
    StartsWith(hay, needle) || (hay != [] && Contains(hay[1..], needle))
  }

  /** The scan finds `needle` exactly when it occurs at some position of `hay`. */
  lemma {:induction false} ContainsIffOccurs(hay: string, needle: string)
    ensures Contains(hay, needle) <==> exists i :: OccursAt(hay, needle, i)
    decreases |hay|
  {
    if hay != [] {
      ContainsIffOccurs(hay[1..], needle);
      if Contains(hay[1..], needle) {
        var j :| OccursAt(hay[1..], needle, j);
        assert hay[j + 1..j + 1 + |needle|] == hay[1..][j..j + |needle|];
        assert OccursAt(hay, needle, j + 1);
      }
      if i :| OccursAt(hay, needle, i) && i > 0 {
        assert hay[1..][i - 1..i - 1 + |needle|] == hay[i..i + |needle|];
        assert OccursAt(hay[1..], needle, i - 1);
      }
    }
    if StartsWith(hay, needle) {
      assert OccursAt(hay, needle, 0);
    }
    if OccursAt(hay, needle, 0) {
      assert StartsWith(hay, needle);
    }
  }

  /** The empty string is contained in every string, as with JavaScript's `includes`. */
  lemma ContainsEmpty(hay: string)
    ensures Contains(hay, "")
  {
    assert StartsWith(hay, "");
  }

  /** A needle whose first character never occurs in `hay` is not contained in it. */
  lemma {:induction false} MissingFirstChar(hay: string, needle: string)
    requires needle != []
    requires forall j :: 0 <= j < |hay| ==> hay[j] != needle[0]
    ensures !Contains(hay, needle)
    decreases |hay|
  {
    if hay != [] {
      assert !StartsWith(hay, needle) by {
        if |needle| <= |hay| {
          assert hay[..|needle|][0] == hay[0];
        }
      }
      assert forall j :: 0 <= j < |hay[1..]| ==> hay[1..][j] == hay[j + 1];
      MissingFirstChar(hay[1..], needle);
    }
  }

  lemma LowerSaladExample()
    ensures ToLower("Greek Salad") == "greek salad"
  {
    var s := "Greek Salad";
    var r := ToLower(s);
    assert LowerChar('G') == 'g';
    assert LowerChar('S') == 's';
    forall i | 0 <= i < 11 ensures r[i] == "greek salad"[i] {
      assert r[i] == LowerChar(s[i]);
    }
  }

  lemma NoCakeInSalad()
    ensures !Contains("greek salad", "cake")
  {
    var hay := "greek salad";
    forall j | 0 <= j < |hay| ensures hay[j] != 'c' {}
    MissingFirstChar(hay, "cake");
  }
}
