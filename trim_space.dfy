/**
 Log lines as bytes, and the white-space trimming the classifier applies to each line
 before any parser sees it (Go's strings.TrimSpace, restricted to ASCII white space).
 */
module TrimSpace {

  newtype byte = x: int | 0 <= x < 256

  /** ASCII white space: tab, line feed, vertical tab, form feed, carriage return and space. */
  predicate IsSpace(b: byte) {
    b == 9 || b == 10 || b == 11 || b == 12 || b == 13 || b == 32
  }

  /** A line made of white space only (the empty line included). */
  predicate IsBlank(s: seq<byte>) {
    forall i | 0 <= i < |s| :: IsSpace(s[i])
  }

  /** How many white-space bytes the line starts with. */
  function LeadingSpaces(s: seq<byte>): (n: nat)
    ensures n <= |s|
    ensures forall i | 0 <= i < n :: IsSpace(s[i])
    ensures n < |s| ==> !IsSpace(s[n])
  {
    if |s| > 0 && IsSpace(s[0]) then 1 + LeadingSpaces(s[1..]) else 0
  }

  /** How many white-space bytes the line ends with. */
  function TrailingSpaces(s: seq<byte>): (n: nat)
    ensures n <= |s|
    ensures forall i | |s| - n <= i < |s| :: IsSpace(s[i])
    ensures n < |s| ==> !IsSpace(s[|s| - 1 - n])
  {
    if |s| > 0 && IsSpace(s[|s| - 1]) then 1 + TrailingSpaces(s[..|s| - 1]) else 0
  }

  /** The line without its leading and trailing white space. */
  function Trim(s: seq<byte>): (r: seq<byte>)
    ensures |r| <= |s|
    ensures |r| > 0 ==> !IsSpace(r[0]) && !IsSpace(r[|r| - 1])
  {
    var rest := s[LeadingSpaces(s)..];
    rest[..|rest| - TrailingSpaces(rest)]
  }

  /** Trim removes a blank prefix and a blank suffix and keeps a line that starts and ends with text. */
  lemma TrimShape(s: seq<byte>)
    ensures LeadingSpaces(s) + |Trim(s)| <= |s|
    ensures s == s[..LeadingSpaces(s)] + Trim(s) + s[LeadingSpaces(s) + |Trim(s)|..]
    ensures IsBlank(s[..LeadingSpaces(s)]) && IsBlank(s[LeadingSpaces(s) + |Trim(s)|..])
    ensures |Trim(s)| > 0 ==> !IsSpace(Trim(s)[0]) && !IsSpace(Trim(s)[|Trim(s)| - 1])
  {
    TrimIsSlice(s);
    TrimSuffixBlank(s);
    SplitThree(s, LeadingSpaces(s), LeadingSpaces(s) + |Trim(s)|);
    PrefixBlank(s, LeadingSpaces(s));
  }

  /** A line is the concatenation of its three slices at i and j. */
  lemma SplitThree(s: seq<byte>, i: nat, j: nat)
    requires i <= j <= |s|
    ensures s == s[..i] + s[i..j] + s[j..]
  {
    assert s[..j] == s[..i] + s[i..j];
    assert s == s[..j] + s[j..];
  }

  /** The leading white space of a line is blank. */
  lemma PrefixBlank(s: seq<byte>, n: nat)
    requires n == LeadingSpaces(s)
    ensures IsBlank(s[..n])
  {
    assert forall i | 0 <= i < n :: s[..n][i] == s[i];
  }

  /** The trimmed line is the slice of the line that starts after its leading white space. */
  lemma TrimIsSlice(s: seq<byte>)
    ensures LeadingSpaces(s) + |Trim(s)| <= |s|
    ensures Trim(s) == s[LeadingSpaces(s)..LeadingSpaces(s) + |Trim(s)|]
  {
    var pre := LeadingSpaces(s);
    var rest := s[pre..];
    assert Trim(s) == rest[..|rest| - TrailingSpaces(rest)];
  }

  /** What follows the trimmed line is white space. */
  lemma TrimSuffixBlank(s: seq<byte>)
    ensures LeadingSpaces(s) + |Trim(s)| <= |s|
    ensures IsBlank(s[LeadingSpaces(s) + |Trim(s)|..])
  {
    var pre := LeadingSpaces(s);
    var rest := s[pre..];
    var post := TrailingSpaces(rest);
    assert |Trim(s)| == |rest| - post;
    var suffix := s[pre + |Trim(s)|..];
    assert suffix == rest[|rest| - post..];
  }

  /** A line trims to nothing exactly when it is blank. */
  lemma TrimEmptyIffBlank(s: seq<byte>)
    ensures |Trim(s)| == 0 <==> IsBlank(s)
  {
    var pre := LeadingSpaces(s);
    if pre < |s| {
      var rest := s[pre..];
      assert !IsSpace(rest[0]);
      assert TrailingSpaces(rest) < |rest|;
    }
  }

  /** The reference characterisation: white space around a text that starts and ends with text is cut off exactly. */
  lemma {:induction false} TrimPadded(pre: seq<byte>, mid: seq<byte>, post: seq<byte>)
    requires IsBlank(pre) && IsBlank(post)
    requires |mid| > 0 ==> !IsSpace(mid[0]) && !IsSpace(mid[|mid| - 1])
    ensures Trim(pre + mid + post) == mid
  {
    var s := pre + mid + post;
    if |mid| == 0 {
      assert IsBlank(s);
      TrimEmptyIffBlank(s);
    } else {
      LeadingOfPadded(pre, mid + post);
      assert pre + mid + post == pre + (mid + post);
      assert s[|pre|..] == mid + post;
      TrailingOfPadded(mid, post);
    }
  }

  lemma {:induction false} LeadingOfPadded(pre: seq<byte>, rest: seq<byte>)
    requires IsBlank(pre) && |rest| > 0 && !IsSpace(rest[0])
    ensures LeadingSpaces(pre + rest) == |pre|
    decreases |pre|
  {
    if |pre| > 0 {
      assert (pre + rest)[1..] == pre[1..] + rest;
      LeadingOfPadded(pre[1..], rest);
    } else {
      assert pre + rest == rest;
    }
  }

  lemma {:induction false} TrailingOfPadded(rest: seq<byte>, post: seq<byte>)
    requires IsBlank(post) && |rest| > 0 && !IsSpace(rest[|rest| - 1])
    ensures TrailingSpaces(rest + post) == |post|
    decreases |post|
  {
    var s := rest + post;
    if |post| > 0 {
      assert s[..|s| - 1] == rest + post[..|post| - 1];
      TrailingOfPadded(rest, post[..|post| - 1]);
    } else {
      assert s == rest;
    }
  }

  /** Trimming twice is trimming once. */
  lemma TrimIdempotent(s: seq<byte>)
    ensures Trim(Trim(s)) == Trim(s)
  {
    var t := Trim(s);
    TrimShape(s);
    assert t == [] + t + [];
    TrimPadded([], t, []);
  }
}
