/**
 PasswordStrengthValidator on ASCII passwords.
 */
module PasswordStrength {
  import Hosts

  const SEQUENTIAL_PATTERNS: seq<string> :=
    ["0123456789", "abcdefghijklmnopqrstuvwxyz", "qwertyuiop", "asdfghjkl", "zxcvbnm"]

  datatype Verdict = Acceptable | Repeated | Sequential

  function Reverse(s: string): string {
    seq(|s|, i requires 0 <= i < |s| => s[|s| - 1 - i])
  }

  predicate MatchesAt(chunk: string, s: string, j: int) {
    0 <= j <= |s| - |chunk| && s[j..j + |chunk|] == chunk
  }

  predicate MatchesEitherWay(chunk: string, s: string, j: int) {
    MatchesAt(chunk, s, j) || MatchesAt(Reverse(chunk), s, j)
  }

  /** chunk in s */
  predicate Occurs(chunk: string, s: string) {
    exists j :: 0 <= j <= |s| - |chunk| && MatchesAt(chunk, s, j)
  }

  /** re.fullmatch(r"(.)\1+", s); a dot matches anything but a line feed. */
  predicate IsRepeated(s: string) {
    |s| >= 2 && s[0] != '\n' && forall i :: 0 <= i < |s| ==> s[i] == s[0]
  }

  /** The four characters of s from j on walk along pattern from i, up or down. */
  predicate Walks(s: string, j: int, pattern: string, i: int)
    requires 0 <= i <= |pattern| - 4
  {
    && 0 <= j <= |s| - 4
    && var (a, b, c, d) := (pattern[i], pattern[i + 1], pattern[i + 2], pattern[i + 3]);
       || (s[j] == a && s[j + 1] == b && s[j + 2] == c && s[j + 3] == d)
       || (s[j] == d && s[j + 1] == c && s[j + 2] == b && s[j + 3] == a)
  }

  predicate WalksAlong(s: string, pattern: string, i: int)
    requires 0 <= i <= |pattern| - 4
  {
    exists j :: 0 <= j <= |s| - 4 && Walks(s, j, pattern, i)
  }

  /** Somewhere in s four consecutive characters walk along one of the patterns. */
  predicate HasWalkOn(s: string, patterns: seq<string>) {
    exists p, i :: 0 <= p < |patterns| && 0 <= i <= |patterns[p]| - 4 && WalksAlong(s, patterns[p], i)
  }

  predicate HasWalk(s: string) { HasWalkOn(s, SEQUENTIAL_PATTERNS) }

  /** Slices and single characters say the same. */
  lemma ChunkMatchesIffWalked(s: string, j: int, pattern: string, i: int)
    requires 0 <= i <= |pattern| - 4
    ensures MatchesEitherWay(pattern[i..i + 4], s, j) <==> Walks(s, j, pattern, i)
  {
    if 0 <= j <= |s| - 4 {
      var chunk, four := pattern[i..i + 4], s[j..j + 4];
      assert four == [s[j], s[j + 1], s[j + 2], s[j + 3]];
      assert chunk == [pattern[i], pattern[i + 1], pattern[i + 2], pattern[i + 3]];
      assert Reverse(chunk) == [pattern[i + 3], pattern[i + 2], pattern[i + 1], pattern[i]];
    }
  }

  lemma ChunkOccursIffWalked(s: string, pattern: string, i: int)
    requires 0 <= i <= |pattern| - 4
    ensures Occurs(pattern[i..i + 4], s) || Occurs(Reverse(pattern[i..i + 4]), s) <==> WalksAlong(s, pattern, i)
  {
    forall j ensures MatchesEitherWay(pattern[i..i + 4], s, j) <==> Walks(s, j, pattern, i) {
      ChunkMatchesIffWalked(s, j, pattern, i);
    }
    var chunk := pattern[i..i + 4];
    assert |chunk| == |Reverse(chunk)| == 4;
    if Occurs(chunk, s) {
      var j :| MatchesAt(chunk, s, j);
      assert Walks(s, j, pattern, i);
    }
    if Occurs(Reverse(chunk), s) {
      var j :| MatchesAt(Reverse(chunk), s, j);
      assert Walks(s, j, pattern, i);
    }
    if WalksAlong(s, pattern, i) {
      var j :| 0 <= j <= |s| - 4 && Walks(s, j, pattern, i);
      assert MatchesEitherWay(chunk, s, j);
    }
  }

  function Judge(password: string): Verdict {
    if IsRepeated(password) then Repeated else if HasWalk(Hosts.Lower(password)) then Sequential else Acceptable
  }

  /** The nested scan finds a sequence exactly when the password has a walk. */
  method Validate(password: string) returns (verdict: Verdict)
    ensures verdict == Judge(password)
    ensures verdict == Repeated <==>
              |password| >= 2 && password[0] != '\n' && forall i :: 0 <= i < |password| ==> password[i] == password[0]
    ensures verdict == Sequential <==> verdict != Repeated && HasWalkOn(Hosts.Lower(password),
              ["0123456789", "abcdefghijklmnopqrstuvwxyz", "qwertyuiop", "asdfghjkl", "zxcvbnm"])
  {
    hide MatchesAt, Walks, WalksAlong, Reverse, Hosts.Lower;
    var lowered := Hosts.Lower(password);
    if IsRepeated(password) {
      return Repeated;
    }
    for p := 0 to |SEQUENTIAL_PATTERNS|
      invariant forall q, i :: 0 <= q < p && 0 <= i <= |SEQUENTIAL_PATTERNS[q]| - 4
                  ==> !WalksAlong(lowered, SEQUENTIAL_PATTERNS[q], i)
    {
      var pattern := SEQUENTIAL_PATTERNS[p];
      var i := 0;
      while i < |pattern| - 3
        invariant 0 <= i && (i <= |pattern| - 3 || i == 0)
        invariant forall k :: 0 <= k < i && k <= |pattern| - 4 ==> !WalksAlong(lowered, pattern, k)
      {
        var chunk := pattern[i..i + 4];
        ChunkOccursIffWalked(lowered, pattern, i);
        if Occurs(chunk, lowered) || Occurs(Reverse(chunk), lowered) {
          return Sequential;
        }
        i := i + 1;
      }
    }
    return Acceptable;
  }

  lemma WalkReversed(s: string, pattern: string, i: int)
    requires 0 <= i <= |pattern| - 4 && WalksAlong(s, pattern, i)
    ensures WalksAlong(Reverse(s), pattern, i)
  {
    var j :| 0 <= j <= |s| - 4 && Walks(s, j, pattern, i);
    var r, m := Reverse(s), |s| - 4 - j;
    assert r[m] == s[j + 3] && r[m + 1] == s[j + 2] && r[m + 2] == s[j + 1] && r[m + 3] == s[j];
    assert Walks(r, m, pattern, i);
  }

  lemma HasWalkReversed(s: string)
    requires HasWalk(s)
    ensures HasWalk(Reverse(s))
  {
    var p, i :|
      && 0 <= p < |SEQUENTIAL_PATTERNS| && 0 <= i <= |SEQUENTIAL_PATTERNS[p]| - 4
      && WalksAlong(s, SEQUENTIAL_PATTERNS[p], i);
    WalkReversed(s, SEQUENTIAL_PATTERNS[p], i);
  }

  /** A password and its reversal get the same verdict. */
  lemma VerdictIgnoresDirection(password: string)
    ensures Judge(Reverse(password)) == Judge(password)
  {
    var r := Reverse(password);
    assert Reverse(r) == password;
    assert Hosts.Lower(r) == Reverse(Hosts.Lower(password));
    assert Reverse(Reverse(Hosts.Lower(password))) == Hosts.Lower(password);
    if HasWalk(Hosts.Lower(password)) {
      HasWalkReversed(Hosts.Lower(password));
    }
    if HasWalk(Hosts.Lower(r)) {
      HasWalkReversed(Hosts.Lower(r));
    }
    assert |r| > 0 ==> r[|r| - 1] == password[0] && r[0] == password[|r| - 1];
    RepeatedReversed(password);
    RepeatedReversed(r);
    hide HasWalk, Hosts.Lower, Reverse, IsRepeated;
  }

  lemma RepeatedReversed(s: string)
    ensures IsRepeated(s) ==> IsRepeated(Reverse(s))
  {
  }

  /** Neighbours on a pattern differ, so a walk is never a single repeated character. */
  lemma NeighboursDiffer(p: int, i: int)
    requires 0 <= p < |SEQUENTIAL_PATTERNS| && 0 <= i < |SEQUENTIAL_PATTERNS[p]| - 1
    ensures SEQUENTIAL_PATTERNS[p][i] != SEQUENTIAL_PATTERNS[p][i + 1]
  {
  }

  lemma LoweredPadding(before: string, password: string, after: string)
    ensures Hosts.Lower(before + password + after) == Hosts.Lower(before) + Hosts.Lower(password) + Hosts.Lower(after)
  {
  }

  lemma WalkIsNotRepeated(s: string, j: int, p: int, i: int)
    requires 0 <= p < |SEQUENTIAL_PATTERNS| && 0 <= i <= |SEQUENTIAL_PATTERNS[p]| - 4
    requires Walks(Hosts.Lower(s), j, SEQUENTIAL_PATTERNS[p], i)
    ensures !IsRepeated(s)
  {
    NeighboursDiffer(p, i);
    assert Hosts.Lower(s)[j] != Hosts.Lower(s)[j + 1] || Hosts.Lower(s)[j + 2] != Hosts.Lower(s)[j + 3];
  }

  /** A walk stays where it is, counted from the new start. */
  lemma WalkShifts(before: string, s: string, after: string, j: int, pattern: string, i: int)
    requires 0 <= i <= |pattern| - 4 && Walks(s, j, pattern, i)
    ensures Walks(before + s + after, |before| + j, pattern, i)
    ensures WalksAlong(before + s + after, pattern, i)
  {
    var t, k := before + s + after, |before| + j;
    assert t[k] == s[j] && t[k + 1] == s[j + 1] && t[k + 2] == s[j + 2] && t[k + 3] == s[j + 3];
    assert Walks(t, k, pattern, i);
  }

  /** Padding a password on either side never hides a sequence. */
  lemma PaddingKeepsSequence(before: string, password: string, after: string)
    requires HasWalk(Hosts.Lower(password))
    ensures Judge(before + password + after) == Sequential
  {
    hide Hosts.Lower, Walks, IsRepeated;
    var s := Hosts.Lower(password);
    var p, i :|
      && 0 <= p < |SEQUENTIAL_PATTERNS| && 0 <= i <= |SEQUENTIAL_PATTERNS[p]| - 4
      && WalksAlong(s, SEQUENTIAL_PATTERNS[p], i);
    var j :| 0 <= j <= |s| - 4 && Walks(s, j, SEQUENTIAL_PATTERNS[p], i);
    LoweredPadding(before, password, after);
    WalkShifts(Hosts.Lower(before), s, Hosts.Lower(after), j, SEQUENTIAL_PATTERNS[p], i);
    WalkIsNotRepeated(before + password + after, |Hosts.Lower(before)| + j, p, i);
  }

  /** Four neighbours of the alphabet or of the digits, in either direction, are always refused. */
  lemma RunsAreRefused(password: string, j: nat, up: bool)
    requires j <= |password| - 4
    requires forall i :: j < i < j + 4 ==>
               password[i] as int == password[i - 1] as int + (if up then 1 else -1)
    requires forall i :: j <= i < j + 4 ==>
               || 'a' <= password[i] <= 'z' || '0' <= password[i] <= '9'
    ensures Judge(password) == Sequential
  {
    var s := Hosts.Lower(password);
    var a, b, c, d := password[j], password[j + 1], password[j + 2], password[j + 3];
    assert s[j] == a && s[j + 1] == b && s[j + 2] == c && s[j + 3] == d;
    var low := if up then a else d;
    var p := if 'a' <= low then 1 else 0;
    var i := if p == 1 then low as int - 97 else low as int - 48;
    RunOnPattern(p, i);
    assert Walks(s, j, SEQUENTIAL_PATTERNS[p], i);
    assert WalksAlong(s, SEQUENTIAL_PATTERNS[p], i);
    assert HasWalk(s);
  }

  lemma RunOnPattern(p: int, i: int)
    requires (p == 0 && 0 <= i <= 6) || (p == 1 && 0 <= i <= 22)
    ensures i <= |SEQUENTIAL_PATTERNS[p]| - 4
    ensures forall k :: i <= k < i + 4 ==> SEQUENTIAL_PATTERNS[p][k] as int == (if p == 1 then 97 else 48) + k
  {
  }
}
