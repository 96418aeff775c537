/** Regular expressions over strings, with the usual meaning of each operator. */
module Regex {
  datatype Regex =
    | Class(chars: set<char>)
    | Cat(first: Regex, second: Regex)
    | Alt(left: Regex, right: Regex)
    | Star(body: Regex)

  /** The whole string matches, as under `^...$`. */
  predicate Matches(r: Regex, s: string)
    decreases r, |s|
  {
    match r
    case Class(chars) => |s| == 1 && s[0] in chars
    case Cat(first, second) => exists i :: 0 <= i <= |s| && Matches(first, s[..i]) && Matches(second, s[i..])
    case Alt(left, right) => Matches(left, s) || Matches(right, s)
    case Star(body) => s == [] || exists i :: 0 < i <= |s| && Matches(body, s[..i]) && Matches(r, s[i..])
  }

  function Plus(r: Regex): Regex {
    Cat(r, Star(r))
  }

  /** `r?`: the starred empty class matches exactly the empty string. */
  function Optional(r: Regex): Regex {
    Alt(r, Star(Class({})))
  }

  lemma OptionalMatches(r: Regex, s: string)
    ensures Matches(Optional(r), s) <==> s == [] || Matches(r, s)
  {
    StarOfClass({}, s);
    assert s != [] ==> s[0] !in {};
  }

  predicate Over(chars: set<char>, s: string) {
    forall i :: 0 <= i < |s| ==> s[i] in chars
  }

  lemma {:induction false} StarOfClass(chars: set<char>, s: string)
    ensures Matches(Star(Class(chars)), s) <==> Over(chars, s)
  {
    var r := Star(Class(chars));
    if s != [] {
      if Matches(r, s) {
        var i :| 0 < i <= |s| && Matches(Class(chars), s[..i]) && Matches(r, s[i..]);
        StarOfClass(chars, s[1..]);
        assert s == s[..1] + s[1..];
      }
      if Over(chars, s) {
        StarOfClass(chars, s[1..]);
        assert Matches(Class(chars), s[..1]) && Matches(r, s[1..]);
      }
    }
  }

  lemma PlusOfClass(chars: set<char>, s: string)
    ensures Matches(Plus(Class(chars)), s) <==> s != [] && Over(chars, s)
  {
    if Matches(Plus(Class(chars)), s) {
      var i :| 0 <= i <= |s| && Matches(Class(chars), s[..i]) && Matches(Star(Class(chars)), s[i..]);
      StarOfClass(chars, s[1..]);
      assert s == s[..1] + s[1..];
    }
    if s != [] && Over(chars, s) {
      StarOfClass(chars, s[1..]);
      assert Matches(Class(chars), s[..1]);
    }
  }
}

/** The pillar-name rule, as Go and as TypeScript write it. */
module PillarName {
  import opened Regex

  const ALNUM: set<char> := set c: char | 'a' <= c <= 'z' || 'A' <= c <= 'Z' || '0' <= c <= '9'
  const SEPARATOR: set<char> := {'-', '.', '_'}
  const MAX_LENGTH := 40

  /** `([a-zA-Z0-9]+[-._]?)*[a-zA-Z0-9]` */
  const GO_CHUNK := Cat(Plus(Class(ALNUM)), Optional(Class(SEPARATOR)))
  const GO_RULE := Cat(Star(GO_CHUNK), Class(ALNUM))

  /** `[a-zA-Z0-9]+([-._][a-zA-Z0-9]+)*` */
  const TS_CHUNK := Cat(Class(SEPARATOR), Plus(Class(ALNUM)))
  const TS_RULE := Cat(Plus(Class(ALNUM)), Star(TS_CHUNK))

  /** Letters, digits and separators, no two separators in a row. */
  predicate Joined(s: string) {
    && Over(ALNUM + SEPARATOR, s)
    && forall i :: 0 <= i < |s| - 1 ==> s[i] in ALNUM || s[i + 1] in ALNUM
  }

  /** What both rules are meant to say. */
  predicate WellShaped(s: string) {
    s != [] && Joined(s) && s[0] in ALNUM && s[|s| - 1] in ALNUM
  }

  lemma Disjoint()
    ensures ALNUM !! SEPARATOR
  {}

  lemma JoinedParts(s: string, i: nat)
    requires i <= |s|
    ensures Joined(s) ==> Joined(s[..i]) && Joined(s[i..])
    ensures Joined(s[..i]) && Joined(s[i..]) && (0 < i < |s| ==> s[i - 1] in ALNUM || s[i] in ALNUM) ==> Joined(s)
  {
    assert s == s[..i] + s[i..];
    if Joined(s[..i]) && Joined(s[i..]) && (0 < i < |s| ==> s[i - 1] in ALNUM || s[i] in ALNUM) {
      forall j | 0 <= j < |s| - 1 ensures s[j] in ALNUM || s[j + 1] in ALNUM {
        if j + 1 < i { assert s[..i][j] == s[j] && s[..i][j + 1] == s[j + 1]; }
        if j >= i { assert s[i..][j - i] == s[j] && s[i..][j + 1 - i] == s[j + 1]; }
      }
      forall j | 0 <= j < |s| ensures s[j] in ALNUM + SEPARATOR {
        if j < i { assert s[..i][j] == s[j]; } else { assert s[i..][j - i] == s[j]; }
      }
    }
    if Joined(s) {
      forall j | 0 <= j < |s[i..]| - 1 ensures s[i..][j] in ALNUM || s[i..][j + 1] in ALNUM {
        assert s[i + j] in ALNUM || s[i + j + 1] in ALNUM;
      }
    }
  }

  // ---- Go

  lemma ChunkShape(s: string)
    requires Matches(GO_CHUNK, s)
    ensures s != [] && s[0] in ALNUM && Joined(s)
  {
    var i :| 0 <= i <= |s| && Matches(Plus(Class(ALNUM)), s[..i]) && Matches(Optional(Class(SEPARATOR)), s[i..]);
    PlusOfClass(ALNUM, s[..i]);
    OptionalMatches(Class(SEPARATOR), s[i..]);
    assert s[0] == s[..i][0] && s[i - 1] == s[..i][i - 1];
    JoinedParts(s, i);
  }

  lemma {:induction false} GoPrefixShape(s: string)
    requires Matches(Star(GO_CHUNK), s)
    ensures Joined(s) && (s != [] ==> s[0] in ALNUM)
  {
    if s != [] {
      var i :| 0 < i <= |s| && Matches(GO_CHUNK, s[..i]) && Matches(Star(GO_CHUNK), s[i..]);
      ChunkShape(s[..i]);
      GoPrefixShape(s[i..]);
      JoinedParts(s, i);
    }
  }

  lemma {:induction false} GoPrefixMatches(s: string)
    requires Joined(s) && (s != [] ==> s[0] in ALNUM)
    ensures Matches(Star(GO_CHUNK), s)
  {
    if s != [] {
      var i := if |s| > 1 && s[1] in SEPARATOR then 2 else 1;
      JoinedParts(s, i);
      PlusOfClass(ALNUM, s[..1]);
      OptionalMatches(Class(SEPARATOR), s[1..i]);
      assert s[..i][..1] == s[..1] && s[..i][1..] == s[1..i];
      assert Matches(GO_CHUNK, s[..i]);
      GoPrefixMatches(s[i..]);
    }
  }

  lemma GoRule(s: string)
    ensures Matches(GO_RULE, s) <==> WellShaped(s)
  {
    if Matches(GO_RULE, s) {
      var i :| 0 <= i <= |s| && Matches(Star(GO_CHUNK), s[..i]) && Matches(Class(ALNUM), s[i..]);
      GoPrefixShape(s[..i]);
      JoinedParts(s, i);
    }
    if WellShaped(s) {
      var i := |s| - 1;
      JoinedParts(s, i);
      GoPrefixMatches(s[..i]);
      assert Matches(Class(ALNUM), s[i..]);
    }
  }

  // ---- TypeScript

  /** How many leading characters are alphanumeric. */
  function Run(s: string): (n: nat)
    ensures n <= |s| && Over(ALNUM, s[..n]) && (n < |s| ==> s[n] !in ALNUM)
  {
    if s == [] || s[0] !in ALNUM then 0
    else
      assert s[1..][..Run(s[1..])] == s[1..1 + Run(s[1..])];
      1 + Run(s[1..])
  }

  lemma LinkShape(s: string)
    requires Matches(TS_CHUNK, s)
    ensures |s| > 1 && s[0] in SEPARATOR && s[|s| - 1] in ALNUM && Joined(s)
  {
    var i :| 0 <= i <= |s| && Matches(Class(SEPARATOR), s[..i]) && Matches(Plus(Class(ALNUM)), s[i..]);
    PlusOfClass(ALNUM, s[i..]);
    assert s[|s| - 1] == s[i..][|s| - i - 1] && s[i] == s[i..][0];
    JoinedParts(s, i);
  }

  /** What follows the leading run: links of one separator and a run each. */
  predicate Linked(s: string) {
    Joined(s) && (s != [] ==> s[0] in SEPARATOR && s[|s| - 1] in ALNUM)
  }

  lemma {:induction false} TsSuffixShape(s: string)
    requires Matches(Star(TS_CHUNK), s)
    ensures Linked(s)
  {
    if s != [] {
      var i :| 0 < i <= |s| && Matches(TS_CHUNK, s[..i]) && Matches(Star(TS_CHUNK), s[i..]);
      LinkShape(s[..i]);
      TsSuffixShape(s[i..]);
      assert s[i - 1] == s[..i][i - 1];
      JoinedParts(s, i);
    }
  }

  lemma {:induction false} TsSuffixMatches(s: string)
    requires Linked(s)
    ensures Matches(Star(TS_CHUNK), s)
  {
    Disjoint();
    if s != [] {
      assert s[1] in ALNUM;
      var i := 1 + Run(s[1..]);
      assert s[..i][1..] == s[1..][..i - 1] && s[..i][..1] == [s[0]];
      PlusOfClass(ALNUM, s[..i][1..]);
      assert Matches(Class(SEPARATOR), s[..i][..1]);
      assert Matches(TS_CHUNK, s[..i]);
      JoinedParts(s, i);
      assert i < |s| ==> s[i] == s[1..][i - 1];
      TsSuffixMatches(s[i..]);
    }
  }

  lemma TsRule(s: string)
    ensures Matches(TS_RULE, s) <==> WellShaped(s)
  {
    Disjoint();
    if Matches(TS_RULE, s) {
      var i :| 0 <= i <= |s| && Matches(Plus(Class(ALNUM)), s[..i]) && Matches(Star(TS_CHUNK), s[i..]);
      PlusOfClass(ALNUM, s[..i]);
      TsSuffixShape(s[i..]);
      assert s[0] == s[..i][0] && s[i - 1] == s[..i][i - 1];
      JoinedParts(s, i);
    }
    if WellShaped(s) {
      var i := Run(s);
      PlusOfClass(ALNUM, s[..i]);
      JoinedParts(s, i);
      TsSuffixMatches(s[i..]);
    }
  }

  // ---- The two validators

  /** Go's len: bytes of the UTF-8 form. */
  function Utf8Length(s: string): nat {
    if s == [] then 0
    else (var c := s[0] as int; if c < 0x80 then 1 else if c < 0x800 then 2 else if c < 0x1_0000 then 3 else 4) + Utf8Length(s[1..])
  }

  /** JavaScript's length: UTF-16 units. */
  function Utf16Length(s: string): nat {
    if s == [] then 0 else (if s[0] as int < 0x1_0000 then 1 else 2) + Utf16Length(s[1..])
  }

  lemma {:induction false} AsciiLengths(s: string)
    requires Over(ALNUM + SEPARATOR, s)
    ensures Utf8Length(s) == |s| == Utf16Length(s)
  {
    if s != [] { AsciiLengths(s[1..]); }
  }

  predicate ValidatePillarName(name: string) {
    Utf8Length(name) != 0 && Utf8Length(name) <= MAX_LENGTH && Matches(GO_RULE, name)
  }

  predicate IsValidPillarName(name: string) {
    Utf16Length(name) != 0 && Utf16Length(name) <= MAX_LENGTH && Matches(TS_RULE, name)
  }

  /** For every string, the two validators agree, and accept exactly the names of at
      most 40 characters with alphanumeric ends and single separators between. */
  lemma SameLanguage(name: string)
    ensures ValidatePillarName(name) <==> IsValidPillarName(name)
    ensures ValidatePillarName(name) <==> WellShaped(name) && |name| <= 40
  {
    GoRule(name);
    TsRule(name);
    if WellShaped(name) { AsciiLengths(name); }
  }
}
