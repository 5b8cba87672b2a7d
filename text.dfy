/**
 * The few Python string operations the client relies on: `str.startswith`,
 * the substring test `p in s`, `s.split("|")`, `"|".join(parts)` and
 * `str.lower()` (on ASCII letters).
 */
module Text {

  /** The field separator of the Showdown protocol. */
  const Pipe: char := '|'

  predicate StartsWith(s: string, prefix: string) {
    |prefix| <= |s| && s[..|prefix|] == prefix
  }

  /** `p` occurs in `s` starting at index `i`. */
  predicate OccursAt(s: string, p: string, i: int) {
    0 <= i && i + |p| <= |s| && s[i..i + |p|] == p
  }

  /** Python's `p in s` for two strings. */
  function Contains(s: string, p: string): (r: bool)
    ensures r ==> |p| <= |s|
    decreases |s|
  {
    StartsWith(s, p) || (s != [] && Contains(s[1..], p))
  }

  /** `Contains` holds exactly when `p` occurs somewhere in `s`. */
  lemma {:induction false} ContainsIff(s: string, p: string)
    ensures Contains(s, p) <==> exists i :: OccursAt(s, p, i)
    decreases |s|
  {
    if StartsWith(s, p) {
      assert OccursAt(s, p, 0);
    } else if s != [] {
      ContainsIff(s[1..], p);
      if i :| OccursAt(s, p, i) {
        assert i != 0;
        assert s[1..][i - 1..i - 1 + |p|] == s[i..i + |p|];
        assert OccursAt(s[1..], p, i - 1);
      }
      if j :| OccursAt(s[1..], p, j) {
        assert s[j + 1..j + 1 + |p|] == s[1..][j..j + |p|];
        assert OccursAt(s, p, j + 1);
      }
    }
  }

  /** Python's `s.split("|")`: never empty, and no field holds the separator. */
  function Split(s: string): (r: seq<string>)
    ensures |r| >= 1
    ensures forall i :: 0 <= i < |r| ==> Pipe !in r[i]
  {
    if s == [] then [""]
    else
      var rest := Split(s[1..]);
      if s[0] == Pipe then [""] + rest
      else [[s[0]] + rest[0]] + rest[1..]
  }

  /** Python's `"|".join(parts)`. */
  function Join(parts: seq<string>): (r: string)
    ensures Pipe in r <==> |parts| >= 2 || (|parts| == 1 && Pipe in parts[0])
  {
    if parts == [] then ""
    else if |parts| == 1 then parts[0]
    else parts[0] + [Pipe] + Join(parts[1..])
  }

  /** Joining a field onto further fields puts one separator between them. */
  lemma JoinCons(p: string, rest: seq<string>)
    requires rest != []
    ensures Join([p] + rest) == p + [Pipe] + Join(rest)
  {
    assert ([p] + rest)[1..] == rest;
  }

  /** Joining the fields of a split gives back the original string. */
  lemma {:induction false} JoinSplit(s: string)
    ensures Join(Split(s)) == s
  {
    if s != [] {
      JoinSplit(s[1..]);
      var rest := Split(s[1..]);
      if s[0] != Pipe && |rest| > 1 {
        assert Split(s)[1..] == rest[1..];
      }
    }
  }

  /** Splitting a string whose head holds no separator extends the first field. */
  lemma {:induction false} SplitPrefix(p: string, t: string)
    requires Pipe !in p
    ensures Split(p + t) == [p + Split(t)[0]] + Split(t)[1..]
  {
    var st := Split(t);
    if p == [] {
      assert p + t == t && p + st[0] == st[0];
      assert st == [st[0]] + st[1..];
    } else {
      SplitPrefix(p[1..], t);
      assert (p + t)[0] == p[0] && (p + t)[1..] == p[1..] + t;
      var rest := Split(p[1..] + t);
      assert rest[0] == p[1..] + st[0];
      assert rest[1..] == st[1..];
      assert Split(p + t) == [[p[0]] + rest[0]] + rest[1..];
      assert [p[0]] + (p[1..] + st[0]) == p + st[0];
    }
  }

  /** A string without a separator splits into itself alone. */
  lemma SplitWithoutPipe(s: string)
    requires Pipe !in s
    ensures Split(s) == [s]
  {
    SplitPrefix(s, "");
    assert s + "" == s;
  }

  /** Splitting a join of separator-free fields gives back the fields. */
  lemma {:induction false} SplitJoin(parts: seq<string>)
    requires |parts| >= 1
    requires forall i :: 0 <= i < |parts| ==> Pipe !in parts[i]
    ensures Split(Join(parts)) == parts
  {
    if |parts| == 1 {
      SplitWithoutPipe(parts[0]);
    } else {
      var tail := Join(parts[1..]);
      SplitJoin(parts[1..]);
      assert Join(parts) == parts[0] + ([Pipe] + tail);
      SplitPrefix(parts[0], [Pipe] + tail);
      assert ([Pipe] + tail)[0] == Pipe && ([Pipe] + tail)[1..] == tail;
      assert Split([Pipe] + tail) == [""] + Split(tail);
      assert parts[0] + "" == parts[0];
      assert parts == [parts[0]] + parts[1..];
    }
  }

  predicate IsUpper(c: char) {
    'A' <= c <= 'Z'
  }

  function LowerChar(c: char): char {
    if IsUpper(c) then (c as int + 32) as char else c
  }

  /** Python's `str.lower()` restricted to ASCII letters. */
  function Lower(s: string): (r: string)
    ensures |r| == |s|
    ensures forall i :: 0 <= i < |r| ==> !IsUpper(r[i])
    ensures forall i :: 0 <= i < |s| && !IsUpper(s[i]) ==> r[i] == s[i]
    ensures forall i :: 0 <= i < |s| && IsUpper(s[i]) ==> r[i] as int == s[i] as int + 32
  {
    if s == [] then [] else [LowerChar(s[0])] + Lower(s[1..])
  }
}
