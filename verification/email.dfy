/** The e-mail parameter type of the command line: `EmailAddress.convert`
    accepts a value exactly when the fixed pattern `[^@]+@[^@]+\.[^@]+`
    matches at its start (`re.match` anchors only there), and then returns
    the value unchanged; otherwise click's `fail` raises a bad-parameter
    error. */
module EmailParam {

  /** What `convert` yields: the value it was given, or the failure raised by `fail`. */
  datatype Conversion = Converted(value: string) | BadParameter

  /** Every character of `s` is in the class `[^@]`. */
  predicate NoAt(s: string)
  {
    forall k :: 0 <= k < |s| ==> s[k] != '@'
  }

  /** `v[..e]` is `local@domain.tld`: `v[..i]`, `v[i+1..j]` and `v[j+1..e]`
      are non-empty runs without '@', `v[i]` is '@' and `v[j]` is '.'. */
  predicate ShapeAt(v: string, i: nat, j: nat, e: nat)
  {
    0 < i && i + 1 < j && j + 1 < e <= |v|
    && NoAt(v[..i]) && v[i] == '@'
    && NoAt(v[i + 1..j]) && v[j] == '.'
    && NoAt(v[j + 1..e])
  }

  /** The pattern matches some prefix of `v`: the meaning of `re.match`. */
  ghost predicate HasEmailPrefix(v: string)
  {
    exists i: nat, j: nat, e: nat :: ShapeAt(v, i, j, e)
  }

  /** The position of the first '@' at or after `from`, or `|v|` when there is none. */
  function NextAt(v: string, from: nat): (k: nat)
    requires from <= |v|
    ensures from <= k <= |v|
    ensures k < |v| ==> v[k] == '@'
    ensures forall m :: from <= m < k ==> v[m] != '@'
    decreases |v| - from
  {
    if from == |v| || v[from] == '@' then from else NextAt(v, from + 1)
  }

  /** Some position in `[lo, hi)` holds a '.'. */
  function HasDotIn(v: string, lo: nat, hi: nat): (b: bool)
    requires hi <= |v|
    ensures b <==> exists j :: lo <= j < hi && v[j] == '.'
    decreases hi - lo
  {
    if lo >= hi then false else v[lo] == '.' || HasDotIn(v, lo + 1, hi)
  }

  /** The matcher for the one pattern used: the local part runs up to the
      first '@' and must be non-empty; the domain part cannot pass a second
      '@', and needs a '.' with at least one character on each side before it. */
  function Matches(v: string): bool
  {
    var a := NextAt(v, 0);
    if a == 0 || a == |v| then false
    else HasDotIn(v, a + 2, NextAt(v, a + 1) - 1)
  }

  /** A match yields the three parts: the first '@', a '.' inside the domain
      part, and the character after it. */
  lemma MatchGivesShape(v: string)
    requires Matches(v)
    ensures HasEmailPrefix(v)
  {
    var a := NextAt(v, 0);
    var b := NextAt(v, a + 1);
    var j :| a + 2 <= j < b - 1 && v[j] == '.';
    assert ShapeAt(v, a, j, j + 2);
  }

  /** Any split into the three parts puts the '@' at the first '@' and the
      '.' strictly before the second '@', where the matcher looks. */
  lemma ShapeGivesMatch(v: string, i: nat, j: nat, e: nat)
    requires ShapeAt(v, i, j, e)
    ensures Matches(v)
  {
  }

  /** The matcher agrees with the prefix characterisation, in both directions. */
  lemma MatchesIffEmailPrefix(v: string)
    ensures Matches(v) <==> HasEmailPrefix(v)
  {
    if Matches(v) {
      MatchGivesShape(v);
    }
    if HasEmailPrefix(v) {
      var i: nat, j: nat, e: nat :| ShapeAt(v, i, j, e);
      ShapeGivesMatch(v, i, j, e);
    }
  }

  /** `EmailAddress.convert`: the value comes back unchanged exactly when the
      pattern matches a prefix of it; every other value is refused. */
  function Convert(value: string): (r: Conversion)
    ensures r == Converted(value) <==> HasEmailPrefix(value)
    ensures r != Converted(value) ==> r == BadParameter
  {
    MatchesIffEmailPrefix(value);
    if Matches(value) then Converted(value) else BadParameter
  }

  /** Only a prefix has to match: whatever follows an accepted value,
      further '@' included, is accepted with it. */
  lemma AcceptedPrefixExtends(v: string, tail: string)
    requires HasEmailPrefix(v)
    ensures HasEmailPrefix(v + tail)
  {
    var i: nat, j: nat, e: nat :| ShapeAt(v, i, j, e);
    var w := v + tail;
    assert w[..i] == v[..i];
    assert w[i + 1..j] == v[i + 1..j];
    assert w[j + 1..e] == v[j + 1..e];
    assert ShapeAt(w, i, j, e);
  }

  /** A value whose first character is '@' has an empty local part and is refused. */
  lemma LeadingAtRefused(v: string)
    requires |v| > 0 && v[0] == '@'
    ensures Convert(v) == BadParameter
  {
  }

  /** A value without '@' is refused. */
  lemma NoAtRefused(v: string)
    requires NoAt(v)
    ensures Convert(v) == BadParameter
  {
  }

  /** Examples of the anchoring: a trailing second '@' does not matter, a
      second '@' before the dot does. */
  lemma Examples()
    ensures Convert("a@b.c") == Converted("a@b.c")
    ensures Convert("a@b.c@d") == Converted("a@b.c@d")
    ensures Convert("a@b@c.d") == BadParameter
    ensures Convert("a@.c") == BadParameter
  {
  }
}
