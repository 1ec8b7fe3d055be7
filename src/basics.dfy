/** Small shared vocabulary: an optional value, and the JavaScript string
    tests the modelled code uses (`startsWith`, `includes`). */
module Basics {

  /** `undefined` / absent (None) or a present value (Some). */
  datatype Option<+T> = None | Some(value: T)

  /** An ASCII decimal digit. */
  predicate IsDigit(c: char)
  {
    '0' <= c <= '9'
  }

  /** JavaScript `s.startsWith(prefix)`. */
  predicate StartsWith(s: string, prefix: string)
  {
    |prefix| <= |s| && s[..|prefix|] == prefix
  }

  /** JavaScript `s.includes(sub)`: `sub` occurs at some position of `s`. */
  predicate Includes(s: string, sub: string)
    decreases |s|
  {
    StartsWith(s, sub) || (s != [] && Includes(s[1..], sub))
  }

  /** `sub` occurs in `s` starting at position `i`. */
  predicate OccursAt(s: string, sub: string, i: int)
  {
    0 <= i <= |s| - |sub| && s[i..i + |sub|] == sub
  }

  /** `Includes` agrees with the positional reading of `includes`. */
  lemma {:induction false} IncludesAt(s: string, sub: string)
    ensures Includes(s, sub) <==> exists i :: OccursAt(s, sub, i)
    decreases |s|
  {
    if StartsWith(s, sub) {
      assert OccursAt(s, sub, 0);
    } else if s != [] {
      IncludesAt(s[1..], sub);
      if Includes(s[1..], sub) {
        var i :| OccursAt(s[1..], sub, i);
        assert s[i + 1..i + 1 + |sub|] == s[1..][i..i + |sub|];
        assert OccursAt(s, sub, i + 1);
      }
      if exists i :: OccursAt(s, sub, i) {
        var i :| OccursAt(s, sub, i);
        assert i != 0;
        assert s[1..][i - 1..i - 1 + |sub|] == s[i..i + |sub|];
        assert OccursAt(s[1..], sub, i - 1);
      }
    }
  }

  /** The length of the longest key. */
  function MaxLength(keys: seq<string>): (n: nat)
    ensures forall i | 0 <= i < |keys| :: |keys[i]| <= n
  {
    if keys == [] then 0
    else
      var rest := MaxLength(keys[1..]);
      if |keys[0]| > rest then |keys[0]| else rest
  }

  /** A key none of `keys` equals, standing for an identifier the database
      generates for a new row: one longer than every key in use. */
  function FreshKey(keys: seq<string>): (k: string)
    ensures forall i | 0 <= i < |keys| :: keys[i] != k
  {
    seq(MaxLength(keys) + 1, _ => 'n')
  }
}
