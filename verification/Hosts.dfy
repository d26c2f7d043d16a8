/**
 TenantResolverMiddleware._normalize on ASCII host names.
 */
module Hosts {

  predicate IsSpace(c: char) {
    c == ' ' || '\t' <= c <= '\r' || '\U{1c}' <= c <= '\U{1f}'
  }

  function ToLower(c: char): char {
    if 'A' <= c <= 'Z' then c + ' ' else c
  }

  function Lower(s: string): string {
    seq(|s|, i requires 0 <= i < |s| => ToLower(s[i]))
  }

  /** s.split(":")[0] */
  function BeforeColon(s: string): string {
    if s == "" || s[0] == ':' then "" else [s[0]] + BeforeColon(s[1..])
  }

  function LStrip(s: string): string {
    if s != "" && IsSpace(s[0]) then LStrip(s[1..]) else s
  }

  function RStrip(s: string): string {
    if s != "" && IsSpace(s[|s| - 1]) then RStrip(s[..|s| - 1]) else s
  }

  function RStripDots(s: string): string {
    if s != "" && s[|s| - 1] == '.' then RStripDots(s[..|s| - 1]) else s
  }

  function Strip(s: string): string { RStrip(LStrip(s)) }

  function Normalize(host: string): string {
    Lower(RStripDots(Strip(BeforeColon(host))))
  }

  // ---- Differences that do not matter ----

  lemma {:induction false} ColonEnds(s: string, rest: string)
    requires ':' !in s
    ensures BeforeColon(s) == s && BeforeColon(s + ":" + rest) == s
  {
    if s == "" {
      assert s + ":" + rest == ":" + rest;
    } else {
      ColonEnds(s[1..], rest);
      assert (s + ":" + rest)[1..] == s[1..] + ":" + rest;
    }
  }

  /** A port makes no difference. */
  lemma PortIgnored(host: string, port: string)
    requires ':' !in host
    ensures Normalize(host + ":" + port) == Normalize(host)
  {
    ColonEnds(host, port);
  }

  lemma {:induction false} LStripSnoc(s: string, c: char)
    requires s != "" && !IsSpace(s[|s| - 1])
    ensures LStrip(s + [c]) == LStrip(s) + [c] && LStrip(s) != "" && LStrip(s)[|LStrip(s)| - 1] == s[|s| - 1]
  {
    if IsSpace(s[0]) {
      LStripSnoc(s[1..], c);
      assert (s + [c])[1..] == s[1..] + [c];
    }
  }

  /** A dot after the last label makes no difference. */
  lemma TrailingDotIgnored(host: string)
    requires ':' !in host && host != "" && !IsSpace(host[|host| - 1])
    ensures Normalize(host + ".") == Normalize(host)
  {
    ColonEnds(host, "");
    ColonEnds(host + ".", "");
    LStripSnoc(host, '.');
    var s := LStrip(host);
    assert RStrip(s + ".") == s + "." && RStrip(s) == s;
    assert (s + ".")[..|s|] == s;
  }

  lemma {:induction false} LowerBeforeColon(s: string)
    ensures BeforeColon(Lower(s)) == Lower(BeforeColon(s))
  {
    if s != "" && s[0] != ':' {
      LowerBeforeColon(s[1..]);
      assert Lower(s)[1..] == Lower(s[1..]);
    }
  }

  lemma {:induction false} LowerLStrip(s: string)
    ensures LStrip(Lower(s)) == Lower(LStrip(s))
  {
    if s != "" && IsSpace(s[0]) {
      LowerLStrip(s[1..]);
      assert Lower(s)[1..] == Lower(s[1..]);
    }
  }

  lemma {:induction false} LowerRStrips(s: string)
    ensures RStrip(Lower(s)) == Lower(RStrip(s)) && RStripDots(Lower(s)) == Lower(RStripDots(s))
    decreases |s|
  {
    if s != "" {
      var n := |s| - 1;
      LowerRStrips(s[..n]);
      assert Lower(s)[..n] == Lower(s[..n]);
    }
  }

  lemma LowerStrips(s: string)
    ensures LStrip(Lower(s)) == Lower(LStrip(s)) && RStrip(Lower(s)) == Lower(RStrip(s))
    ensures RStripDots(Lower(s)) == Lower(RStripDots(s))
  {
    LowerLStrip(s);
    LowerRStrips(s);
  }

  /** Neither does letter case. */
  lemma CaseIgnored(host: string)
    ensures Normalize(Lower(host)) == Normalize(host)
  {
    LowerBeforeColon(host);
    LowerStrips(BeforeColon(host));
    LowerStrips(LStrip(BeforeColon(host)));
    LowerStrips(Strip(BeforeColon(host)));
    LowerTwice(RStripDots(Strip(BeforeColon(host))));
    hide Lower, LStrip, RStrip, RStripDots, BeforeColon;
  }

  lemma LowerTwice(s: string)
    ensures Lower(Lower(s)) == Lower(s)
  {
  }

  // ---- Every spelling of a host ----

  /** The white space of ASCII, by code. */
  predicate White(s: string) {
    forall i :: 0 <= i < |s| ==> s[i] as int in {9, 10, 11, 12, 13, 28, 29, 30, 31, 32}
  }

  /** host is clean with some letters in upper case. */
  predicate Spells(host: string, clean: string) {
    && |host| == |clean|
    && forall i :: 0 <= i < |host| ==>
         host[i] == clean[i] || (65 <= host[i] as int <= 90 && clean[i] as int == host[i] as int + 32)
  }

  /** A host as the Domain table stores it. */
  predicate IsClean(clean: string) {
    && clean != "" && clean[|clean| - 1] != '.'
    && forall c :: c in clean ==>
         c != ':' && !(65 <= c as int <= 90) && c as int !in {9, 10, 11, 12, 13, 28, 29, 30, 31, 32}
  }

  lemma SpellingLowers(host: string, clean: string)
    requires Spells(host, clean) && IsClean(clean)
    ensures Lower(host) == clean
  {
    forall i | 0 <= i < |host| ensures Lower(host)[i] == clean[i] {
      assert clean[i] in clean;
    }
  }

  lemma SpellingChars(host: string, clean: string)
    requires Spells(host, clean) && IsClean(clean)
    ensures ':' !in host && host != "" && host[|host| - 1] != '.'
    ensures forall c :: c in host ==> !IsSpace(c)
  {
    forall i | 0 <= i < |host| ensures !IsSpace(host[i]) && host[i] != ':' {
      assert clean[i] in clean;
    }
  }

  lemma {:induction false} LStripWhite(before: string, s: string)
    requires White(before) && s != "" && !IsSpace(s[0])
    ensures LStrip(before + s) == s
  {
    if before == "" {
      assert before + s == s;
    } else {
      assert before[0] in before && (before + s)[1..] == before[1..] + s;
      LStripWhite(before[1..], s);
    }
  }

  lemma {:induction false} RStripWhite(s: string, after: string)
    requires White(after) && s != "" && !IsSpace(s[|s| - 1])
    ensures RStrip(s + after) == s
    decreases |after|
  {
    if after == "" {
      assert s + after == s;
    } else {
      var n := |after| - 1;
      assert after[n] in after && (s + after)[..|s + after| - 1] == s + after[..n];
      RStripWhite(s, after[..n]);
    }
  }

  lemma {:induction false} RStripAllDots(s: string, dots: string)
    requires AllDots(dots) && s != "" && s[|s| - 1] != '.'
    ensures RStripDots(s + dots) == s
    decreases |dots|
  {
    if dots == "" {
      assert s + dots == s;
    } else {
      var n := |dots| - 1;
      assert (s + dots)[|s + dots| - 1] == dots[n] && (s + dots)[..|s + dots| - 1] == s + dots[..n];
      RStripAllDots(s, dots[..n]);
    }
  }

  /** A stored host is found by every spelling of it: in any letter case, with dots after the last label,
      white space on either side, and with or without a port. */
  lemma EverySpellingIsFound(clean: string, before: string, host: string, dots: string, after: string, port: string)
    requires IsClean(clean) && Spells(host, clean)
    requires White(before) && White(after) && forall i :: 0 <= i < |dots| ==> dots[i] == '.'
    ensures var text := before + host + dots + after;
            Normalize(text) == clean && Normalize(text + ":" + port) == clean
  {
    var text := before + host + dots + after;
    SpellingChars(host, clean);
    ColonEnds(text, port);
    var name := host + dots;
    assert name[|name| - 1] == if dots == "" then host[|host| - 1] else dots[|dots| - 1];
    assert text == before + (name + after);
    LStripWhite(before, name + after);
    RStripWhite(name, after);
    RStripAllDots(host, dots);
    SpellingLowers(host, clean);
    hide LStrip, RStrip, RStripDots, Lower, BeforeColon;
  }

  /** Letter case alone: hosts that differ only in it are normalized to the same text. */
  lemma LetterCaseIgnored(one: string, other: string)
    requires |one| == |other|
    requires forall i :: 0 <= i < |one| ==>
               || one[i] == other[i]
               || (65 <= one[i] as int <= 90 && other[i] as int == one[i] as int + 32)
               || (65 <= other[i] as int <= 90 && one[i] as int == other[i] as int + 32)
    ensures Normalize(one) == Normalize(other)
  {
    assert Lower(one) == Lower(other);
    CaseIgnored(one);
    CaseIgnored(other);
    hide Normalize;
  }

  // ---- Normalizing twice ----

  lemma {:induction false} BeforeColonHasNone(s: string)
    ensures ':' !in BeforeColon(s)
  {
    if s != "" && s[0] != ':' {
      BeforeColonHasNone(s[1..]);
    }
  }

  /** The three strips keep a middle part of s that starts and ends as they promise. */
  lemma {:induction false} StripEnds(s: string)
    ensures var t := LStrip(s); (t != "" ==> !IsSpace(t[0])) && (forall c :: c in t ==> c in s)
    ensures var t := RStrip(s); t <= s && (t != "" ==> !IsSpace(t[|t| - 1]))
    ensures var t := RStripDots(s); t <= s && (t != "" ==> t[|t| - 1] != '.')
    decreases |s|
  {
    if s != "" {
      StripEnds(s[1..]);
      StripEnds(s[..|s| - 1]);
    }
  }

  lemma MiddlePart(s: string)
    ensures var d := RStripDots(Strip(s));
            (forall c :: c in d ==> c in s) && (d != "" ==> !IsSpace(d[0]) && d[|d| - 1] != '.')
  {
    hide LStrip, RStrip, RStripDots;
    StripEnds(s);
    StripEnds(LStrip(s));
    StripEnds(Strip(s));
  }

  lemma NormalForm(host: string)
    ensures var r := Normalize(host);
            ':' !in r && Lower(r) == r && (r != "" ==> !IsSpace(r[0]) && r[|r| - 1] != '.')
  {
    hide LStrip, RStrip, RStripDots, BeforeColon, Strip;
    BeforeColonHasNone(host);
    MiddlePart(BeforeColon(host));
    LowerTwice(RStripDots(Strip(BeforeColon(host))));
  }

  /** The text ends in dots with white space in front of them. */
  predicate EndsInSpacedDots(s: string) {
    exists k :: 0 < k < |s| && IsSpace(s[k - 1]) && AllDots(s[k..])
  }

  predicate AllDots(s: string) {
    forall i :: 0 <= i < |s| ==> s[i] == '.'
  }

  lemma IdempotentIffNoSpaceAtEnd(host: string)
    ensures var r := Normalize(host);
            Normalize(r) == r <==> r == "" || !IsSpace(r[|r| - 1])
  {
    var r := Normalize(host);
    NormalForm(host);
    hide Normalize;
    NormalizeAgain(r);
  }

  lemma NormalizeAgain(r: string)
    requires ':' !in r && Lower(r) == r && (r != "" ==> !IsSpace(r[0]) && r[|r| - 1] != '.')
    ensures Normalize(r) == r <==> r == "" || !IsSpace(r[|r| - 1])
  {
    ColonEnds(r, "");
    hide BeforeColon, Lower;
    assert LStrip(r) == r;
    StripEnds(r);
    LowerLength(RStripDots(RStrip(r)));
    StripEnds(RStrip(r));
    if r == "" || !IsSpace(r[|r| - 1]) {
      assert RStripDots(RStrip(r)) == r;
    } else {
      hide RStrip, RStripDots;
      assert |RStripDots(RStrip(r))| <= |RStrip(r)| < |r|;
    }
  }

  lemma LowerLength(s: string)
    ensures |Lower(s)| == |s|
  {
  }

  lemma {:induction false} RStripDotsIs(s: string)
    ensures RStripDots(s) <= s && AllDots(s[|RStripDots(s)|..])
  {
    if s != "" && s[|s| - 1] == '.' {
      RStripDotsIs(s[..|s| - 1]);
      var k := |RStripDots(s)|;
      assert s[k..] == s[..|s| - 1][k..] + ".";
    }
  }

  lemma SpacedDots(s: string)
    requires s == "" || !IsSpace(s[|s| - 1])
    ensures var d := RStripDots(s);
            EndsInSpacedDots(s) <==> d != "" && IsSpace(d[|d| - 1])
  {
    var d := RStripDots(s);
    RStripDotsIs(s);
    StripEnds(s);
    hide RStripDots;
    if d != "" && IsSpace(d[|d| - 1]) {
      assert 0 < |d| < |s| && IsSpace(s[|d| - 1]);
    }
    if EndsInSpacedDots(s) {
      var k :| 0 < k < |s| && IsSpace(s[k - 1]) && AllDots(s[k..]);
      if |d| < k {
        assert s[|d|..][k - 1 - |d|] == '.';
      } else if k < |d| {
        assert s[k..][|d| - 1 - k] == d[|d| - 1];
      }
    }
  }

  lemma LowerKeepsSpace(s: string)
    ensures s != "" ==> (IsSpace(Lower(s)[|s| - 1]) <==> IsSpace(s[|s| - 1]))
  {
  }

  /** Exactly which hosts a second normalization would change: those whose stripped text in front of
      the port ends in dots with white space before them. */
  lemma IdempotentIff(host: string)
    ensures Normalize(Normalize(host)) == Normalize(host) <==> !EndsInSpacedDots(Strip(BeforeColon(host)))
  {
    hide LStrip, RStrip, RStripDots, BeforeColon, EndsInSpacedDots;
    var s := Strip(BeforeColon(host));
    StripEnds(LStrip(BeforeColon(host)));
    SpacedDots(s);
    LowerKeepsSpace(RStripDots(s));
    IdempotentIffNoSpaceAtEnd(host);
  }

  /** A host without white space, the only kind a request carries, is normalized once and for all. */
  lemma IdempotentWithoutSpace(host: string)
    requires forall c :: c in host ==> !IsSpace(c)
    ensures Normalize(Normalize(host)) == Normalize(host)
  {
    IdempotentIff(host);
    BeforeColonKeeps(host);
    MiddleOfStrip(BeforeColon(host));
    hide BeforeColon, Strip, Normalize;
    assert forall c :: c in Strip(BeforeColon(host)) ==> !IsSpace(c);
  }

  lemma {:induction false} BeforeColonKeeps(s: string)
    ensures forall c :: c in BeforeColon(s) ==> c in s
  {
    if s != "" && s[0] != ':' {
      BeforeColonKeeps(s[1..]);
    }
  }

  lemma MiddleOfStrip(s: string)
    ensures forall c :: c in Strip(s) ==> c in s
  {
    hide LStrip, RStrip;
    StripEnds(s);
    StripEnds(LStrip(s));
  }
}
