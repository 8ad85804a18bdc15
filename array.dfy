/**
  ArrayFn: whether a string contains any of several substrings.
 */
module ArrayFn {
  import Strings

  /** Some substring of the list occurs in the source string. */
  predicate AnyOccurs(sourceString: string, arrayOfSubStrings: seq<string>)
  {
    exists k :: 0 <= k < |arrayOfSubStrings| && Strings.Includes(sourceString, arrayOfSubStrings[k])
  }

  /** `ArrayFn.containsAny`: scans the substrings in order and returns at the first one that occurs. */
  method ContainsAny(sourceString: string, arrayOfSubStrings: seq<string>) returns (r: bool)
    ensures r <==> AnyOccurs(sourceString, arrayOfSubStrings)
  {
    for i := 0 to |arrayOfSubStrings|
      invariant forall k :: 0 <= k < i ==> !Strings.Includes(sourceString, arrayOfSubStrings[k])
    {
      if Strings.IndexOf(sourceString, arrayOfSubStrings[i]) != -1 {
        return true;
      }
    }
    return false;
  }

  /** No substrings, no hit; an empty substring is always a hit, since `indexOf('')` is 0. */
  lemma EdgeCases(sourceString: string, arrayOfSubStrings: seq<string>)
    ensures !AnyOccurs(sourceString, [])
    ensures "" in arrayOfSubStrings ==> AnyOccurs(sourceString, arrayOfSubStrings)
    ensures Strings.IndexOf(sourceString, "") == 0
  {
    Strings.IncludesEmpty(sourceString);
    if "" in arrayOfSubStrings {
      var k :| 0 <= k < |arrayOfSubStrings| && arrayOfSubStrings[k] == "";
      assert Strings.Includes(sourceString, arrayOfSubStrings[k]);
    }
    assert Strings.OccursAt(sourceString, "", 0);
  }

  /** Adding substrings, before or after, can only turn false into true. */
  lemma Monotone(sourceString: string, a: seq<string>, b: seq<string>)
    ensures AnyOccurs(sourceString, a) ==> AnyOccurs(sourceString, a + b)
    ensures AnyOccurs(sourceString, b) ==> AnyOccurs(sourceString, a + b)
    ensures AnyOccurs(sourceString, a + b) <==> AnyOccurs(sourceString, a) || AnyOccurs(sourceString, b)
  {
    var ab := a + b;
    if AnyOccurs(sourceString, a) {
      var k :| 0 <= k < |a| && Strings.Includes(sourceString, a[k]);
      assert ab[k] == a[k];
    }
    if AnyOccurs(sourceString, b) {
      var k :| 0 <= k < |b| && Strings.Includes(sourceString, b[k]);
      assert ab[|a| + k] == b[k];
    }
    if AnyOccurs(sourceString, ab) {
      var k :| 0 <= k < |ab| && Strings.Includes(sourceString, ab[k]);
      if k < |a| { assert ab[k] == a[k]; } else { assert ab[k] == b[k - |a|]; }
    }
  }
}
