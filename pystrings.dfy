/**
 * The two Python string built-ins the ticker-name codec relies on,
 * `str.split(sep)` and `sep.join(parts)`, for a one-character separator.
 */
module PyStrings {
  import opened Wrappers

  /** Index of the first occurrence of `c` in `s` (the index `str.find` reports when it is not -1), or None. */
  function FirstIndexOf(s: string, c: char): (r: Option<nat>)
    ensures r.None? <==> c !in s
    ensures r.Some? ==> r.value < |s| && s[r.value] == c && c !in s[..r.value]
  {
    if |s| == 0 then None
    else if s[0] == c then Some(0)
    else
      match FirstIndexOf(s[1..], c)
      case None => None
      case Some(i) => assert s[1..][..i] == s[1..i + 1]; Some(i + 1)
  }

  /** `sep.join(parts)`: the parts with one separator between neighbours; "" for no parts. */
  function Join(sep: char, parts: seq<string>): (r: string)
    ensures |parts| == 0 ==> r == ""
    ensures |parts| >= 1 ==> |parts[0]| <= |r| && r[..|parts[0]|] == parts[0]
    ensures |parts| >= 2 ==> |parts[0]| < |r| && r[|parts[0]|] == sep
  {
    if |parts| == 0 then ""
    else if |parts| == 1 then parts[0]
    else parts[0] + [sep] + Join(sep, parts[1..])
  }

  /**
   * `s.split(sep)`: the maximal separator-free pieces of `s`, including empty
   * pieces at the ends and between adjacent separators. Its contract pins the
   * result down completely (see SplitJoin for uniqueness).
   */
  function Split(s: string, sep: char): (parts: seq<string>)
    ensures |parts| >= 1
    ensures forall k :: 0 <= k < |parts| ==> sep !in parts[k]
    ensures Join(sep, parts) == s
    decreases |s|
  {
    match FirstIndexOf(s, sep)
    case None => [s]
    case Some(i) =>
      var rest := Split(s[i + 1..], sep);
      assert s == s[..i] + [sep] + s[i + 1..];
      [s[..i]] + rest
  }

  /** A piece list is split back out of its own join: `Split` inverts `Join`. */
  lemma {:induction false} SplitJoin(sep: char, parts: seq<string>)
    requires |parts| >= 1
    requires forall k :: 0 <= k < |parts| ==> sep !in parts[k]
    ensures Split(Join(sep, parts), sep) == parts
    decreases |parts|
  {
    if |parts| > 1 {
      var s := Join(sep, parts);
      var p := parts[0];
      var tail := Join(sep, parts[1..]);
      assert s == p + [sep] + tail;
      FirstOccurrenceAfter(p, sep, tail);
      assert s[..|p|] == p;
      assert s[|p| + 1..] == tail;
      SplitJoin(sep, parts[1..]);
      assert Split(s, sep) == [p] + parts[1..];
    }
  }

  /** The separator first occurs just after a separator-free prefix. */
  lemma FirstOccurrenceAfter(p: string, sep: char, tail: string)
    requires sep !in p
    ensures FirstIndexOf(p + [sep] + tail, sep) == Some(|p|)
  {
    assert (p + [sep] + tail)[|p|] == sep;
  }

  /** A name splits into two or more pieces exactly when it holds the separator. */
  lemma SplitCount(s: string, sep: char)
    ensures |Split(s, sep)| >= 2 <==> sep in s
  {
  }

  /** With a first separator at `i`, the first piece is the text before it and the others rejoin to the text after it. */
  lemma SplitAtFirst(s: string, sep: char, i: nat)
    requires i < |s| && s[i] == sep && sep !in s[..i]
    ensures |Split(s, sep)| >= 2
    ensures Split(s, sep)[0] == s[..i]
    ensures Join(sep, Split(s, sep)[1..]) == s[i + 1..]
  {
  }
}
