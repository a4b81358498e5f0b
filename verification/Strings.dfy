/** Cutting a string at the first occurrence of a separator, as several formats of the source do, and trimming it. */
module Strings {
  import opened Wrappers

  // Everything before the first sep, and everything after it; None without one.
  function Cut(s: string, sep: char): Option<(string, string)> {
    if s == "" then None
    else if s[0] == sep then Some(("", s[1..]))
    else match Cut(s[1..], sep)
      case Some((a, b)) => Some(([s[0]] + a, b))
      case None => None
  }

  lemma {:induction false} CutParts(s: string, sep: char)
    ensures Cut(s, sep).None? <==> sep !in s
    ensures Cut(s, sep).Some? ==> sep !in Cut(s, sep).value.0 && s == Cut(s, sep).value.0 + [sep] + Cut(s, sep).value.1
  {
    if s != "" {
      assert s == [s[0]] + s[1..];
      CutParts(s[1..], sep);
    }
  }

  lemma {:induction false} CutJoined(a: string, sep: char, b: string)
    requires sep !in a
    ensures Cut(a + [sep] + b, sep) == Some((a, b))
  {
    var s := a + [sep] + b;
    if a == "" {
      assert s[1..] == b;
    } else {
      assert a[0] in a && forall c <- a[1..] :: c in a;
      CutJoined(a[1..], sep, b);
      assert s[1..] == a[1..] + [sep] + b;
      assert s[0] == a[0] && [a[0]] + a[1..] == a;
    }
  }

  // Joining with sep is undone by Cut exactly when the first part is free of it.
  lemma CutJoinedIff(a: string, sep: char, b: string)
    ensures Cut(a + [sep] + b, sep) == Some((a, b)) <==> sep !in a
  {
    CutParts(a + [sep] + b, sep);
    if sep !in a {
      CutJoined(a, sep, b);
    }
  }

  lemma {:induction false} CutAt(s: string, sep: char, i: nat)
    requires i < |s| && s[i] == sep && sep !in s[..i]
    ensures Cut(s, sep) == Some((s[..i], s[i + 1..]))
  {
    assert s == s[..i] + [sep] + s[i + 1..];
    CutJoinedIff(s[..i], sep, s[i + 1..]);
  }

  // White space as strings.TrimSpace takes it.
  predicate IsSpace(c: char) {
    || '\t' <= c <= '\r' || c == ' ' || c == '\U{85}' || c == '\U{A0}' || c == '\U{1680}'
    || '\U{2000}' <= c <= '\U{200A}' || c == '\U{2028}' || c == '\U{2029}' || c == '\U{202F}'
    || c == '\U{205F}' || c == '\U{3000}'
  }

  function Trim(s: string): string {
    if s == "" then ""
    else if IsSpace(s[0]) then Trim(s[1..])
    else if IsSpace(s[|s| - 1]) then Trim(s[..|s| - 1])
    else s
  }

  predicate AllSpace(s: string) {
    forall c <- s :: IsSpace(c)
  }

  // What Trim takes off is white space, at either end; and all of it.
  lemma {:induction false} TrimIs(s: string) returns (lo: nat, hi: nat)
    ensures lo <= hi <= |s| && Trim(s) == s[lo..hi]
    ensures forall i | 0 <= i < lo || hi <= i < |s| :: IsSpace(s[i])
    ensures lo < hi ==> !IsSpace(s[lo]) && !IsSpace(s[hi - 1])
  {
    lo, hi := 0, |s|;
    if s != "" {
      if IsSpace(s[0]) {
        lo, hi := TrimIs(s[1..]);
        lo, hi := lo + 1, hi + 1;
        assert s[1..][lo - 1..hi - 1] == s[lo..hi];
        assert forall i | 1 <= i < |s| :: s[i] == s[1..][i - 1];
      } else if IsSpace(s[|s| - 1]) {
        lo, hi := TrimIs(s[..|s| - 1]);
        assert s[..|s| - 1][lo..hi] == s[lo..hi];
      }
    }
  }

  // A string of white space is blank, and no other is.
  lemma TrimsToNothingIff(s: string)
    ensures Trim(s) == "" <==> AllSpace(s)
  {
    var lo, hi := TrimIs(s);
  }
}
