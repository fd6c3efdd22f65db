/**
 The delimited multi-value format of the survey's association-rule columns: the chosen
 options are joined with ", " into one cell, and a consumer recovers them by splitting on
 the same delimiter.
 */
module Strings {

  /** The delimiter between the options of a multi-value cell. */
  const Delimiter: string := ", "

  /** The separator placed between consecutive parts, as `sep.join(parts)` does. */
  function Join(parts: seq<string>, sep: string): (s: string)
    ensures |parts| == 1 ==> s == parts[0]
    ensures |parts| == 0 ==> s == ""
  {
    if |parts| == 0 then ""
    else if |parts| == 1 then parts[0]
    else parts[0] + sep + Join(parts[1..], sep)
  }

  /** Splits at every ", " from the left, as `s.split(", ")` does; always at least one part. */
  function Split(s: string): (parts: seq<string>)
    ensures |parts| >= 1
    decreases |s|
  {
    if |s| == 0 then [""]
    else if |s| >= 2 && s[0] == ',' && s[1] == ' ' then [""] + Split(s[2..])
    else
      var rest := Split(s[1..]);
      [[s[0]] + rest[0]] + rest[1..]
  }

  /** No comma occurs in `s`, so `s` cannot contain the delimiter. */
  predicate CommaFree(s: string) {
    forall i :: 0 <= i < |s| ==> s[i] != ','
  }

  /** A comma-free prefix is glued onto the first part of what follows it. */
  lemma {:induction false} SplitCommaFreePrefix(p: string, t: string)
    requires CommaFree(p)
    ensures Split(p + t) == [p + Split(t)[0]] + Split(t)[1..]
    decreases |p|
  {
    if |p| == 0 {
      assert p + t == t;
      assert p + Split(t)[0] == Split(t)[0];
      assert [Split(t)[0]] + Split(t)[1..] == Split(t);
    } else {
      assert (p + t)[1..] == p[1..] + t;
      assert CommaFree(p[1..]) by {
        forall i | 0 <= i < |p[1..]| ensures p[1..][i] != ',' {
          assert p[1..][i] == p[i + 1];
        }
      }
      SplitCommaFreePrefix(p[1..], t);
      assert (p + t)[0] == p[0];
      assert [p[0]] + (p[1..] + Split(t)[0]) == p + Split(t)[0];
    }
  }

  /** Splitting a joined cell gives back the parts, provided there is at least one part and no
      part contains a comma (so no part can be mistaken for a delimiter). */
  lemma {:induction false} SplitJoin(parts: seq<string>)
    requires |parts| >= 1
    requires forall k :: 0 <= k < |parts| ==> CommaFree(parts[k])
    ensures Split(Join(parts, Delimiter)) == parts
    decreases |parts|
  {
    if |parts| == 1 {
      SplitCommaFreePrefix(parts[0], "");
      assert parts[0] + "" == parts[0];
    } else {
      var rest := Join(parts[1..], Delimiter);
      assert Join(parts, Delimiter) == parts[0] + (Delimiter + rest);
      SplitCommaFreePrefix(parts[0], Delimiter + rest);
      assert (Delimiter + rest)[2..] == rest;
      assert Split(Delimiter + rest) == [""] + Split(rest);
      SplitJoin(parts[1..]);
      assert parts[0] + "" == parts[0];
      assert [parts[0]] + parts[1..] == parts;
    }
  }
}
