/**
 * Turning a raw move name into a key of the move catalogue: the first two
 * statements of `Move.__init__`.
 */
module MoveNames {
  import opened Text

  /** The characters removed from a raw name: hyphen, apostrophe, space. */
  predicate IsDropped(c: char) {
    c == '-' || c == '\'' || c == ' '
  }

  predicate IsDigit(c: char) {
    '0' <= c <= '9'
  }

  /** A name holding none of the dropped characters. */
  predicate Clean(s: string) {
    forall i :: 0 <= i < |s| ==> !IsDropped(s[i])
  }

  /** The prefix of the one family of moves whose names carry a numeric suffix. */
  const HiddenPower: string := "hiddenpower"

  /** The raw name with every hyphen, apostrophe and space removed. */
  function Strip(s: string): (r: string)
    ensures |r| <= |s|
    ensures Clean(r)
  {
    if s == [] then []
    else if IsDropped(s[0]) then Strip(s[1..])
    else [s[0]] + Strip(s[1..])
  }

  /**
   * The catalogue key for a raw name: the stripped name, less its last two
   * characters when it starts with `hiddenpower` and ends in a digit.
   */
  function Normalize(raw: string): (r: string)
    ensures Clean(r)
    ensures StartsWith(Strip(raw), r) && |Strip(raw)| <= |r| + 2
  {
    var s := Strip(raw);
    if StartsWith(s, HiddenPower) && IsDigit(s[|s| - 1]) then s[..|s| - 2] else s
  }

  /** Stripping works character by character: it distributes over concatenation. */
  lemma {:induction false} StripAppend(a: string, b: string)
    ensures Strip(a + b) == Strip(a) + Strip(b)
  {
    if a != [] {
      StripAppend(a[1..], b);
      assert (a + b)[0] == a[0] && (a + b)[1..] == a[1..] + b;
    } else {
      assert a + b == b;
    }
  }

  /** Stripping keeps every other character, in order: a clean name is its own key. */
  lemma {:induction false} StripClean(s: string)
    requires Clean(s)
    ensures Strip(s) == s
  {
    if s != [] {
      StripClean(s[1..]);
    }
  }

  /** Stripping twice is stripping once. */
  lemma StripIdempotent(s: string)
    ensures Strip(Strip(s)) == Strip(s)
  {
    StripClean(Strip(s));
  }

  /**
   * Every variant `hiddenpower<kind><x><digit>` of a clean base name collapses
   * to the base, and a base not ending in a digit is its own key.
   */
  lemma HiddenPowerVariantsCollapse(base: string, x: char, d: char)
    requires Clean(base) && StartsWith(base, HiddenPower)
    requires !IsDropped(x) && IsDigit(d)
    ensures Normalize(base + [x, d]) == base
    ensures !IsDigit(base[|base| - 1]) ==> Normalize(base) == base
  {
    var v := base + [x, d];
    assert Clean(v) by {
      assert forall i :: 0 <= i < |base| ==> v[i] == base[i];
    }
    StripClean(v);
    StripClean(base);
    assert v[..|base|] == base;
    assert v[..|v| - 2] == base;
  }

  /** Outside the hidden-power family the key is exactly the stripped name. */
  lemma NormalizeOutsideFamily(raw: string)
    requires !StartsWith(Strip(raw), HiddenPower)
    ensures Normalize(raw) == Strip(raw)
  {
  }
}
