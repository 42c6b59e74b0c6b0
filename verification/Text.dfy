/** Rune-wise text helpers. The Unicode tables are a parameter: every theorem holds for any table
    satisfying `CharTable.Valid`. */
module Text {

  datatype CharTable = CharTable(isSpace: char -> bool, isAlnum: char -> bool, lower: char -> char) {
    /** Lowercasing is idempotent, never creates or removes white space, and fixes a..z. */
    ghost predicate Valid() {
      && (forall c :: lower(lower(c)) == lower(c))
      && (forall c :: isSpace(lower(c)) == isSpace(c))
      && (forall c :: 'a' <= c <= 'z' ==> lower(c) == c && !isSpace(c))
    }
  }

  function ToLower(t: CharTable, s: string): (r: string)
    ensures |r| == |s|
    ensures forall i :: 0 <= i < |s| ==> r[i] == t.lower(s[i])
  {
    seq(|s|, i requires 0 <= i < |s| => t.lower(s[i]))
  }

  function TrimLeft(t: CharTable, s: string): string {
    if s != "" && t.isSpace(s[0]) then TrimLeft(t, s[1..]) else s
  }

  function TrimRight(t: CharTable, s: string): string {
    if s != "" && t.isSpace(s[|s| - 1]) then TrimRight(t, s[..|s| - 1]) else s
  }

  function TrimSpace(t: CharTable, s: string): string {
    TrimRight(t, TrimLeft(t, s))
  }

  /** No white space at either end. */
  predicate Trimmed(t: CharTable, s: string) {
    s == "" || (!t.isSpace(s[0]) && !t.isSpace(s[|s| - 1]))
  }

  lemma {:induction false} TrimLeftEnds(t: CharTable, s: string)
    ensures var r := TrimLeft(t, s); r == "" || !t.isSpace(r[0])
    decreases |s|
  {
    if s != "" && t.isSpace(s[0]) { TrimLeftEnds(t, s[1..]); }
  }

  lemma {:induction false} TrimRightEnds(t: CharTable, s: string)
    ensures var r := TrimRight(t, s); r <= s && (r == "" || !t.isSpace(r[|r| - 1]))
    decreases |s|
  {
    if s != "" && t.isSpace(s[|s| - 1]) { TrimRightEnds(t, s[..|s| - 1]); }
  }

  /** Trimming yields a trimmed string, and exactly the trimmed strings are its fixed points. */
  lemma TrimSpaceFixpoints(t: CharTable, s: string)
    ensures Trimmed(t, TrimSpace(t, s))
    ensures TrimSpace(t, s) == s <==> Trimmed(t, s)
  {
    TrimLeftEnds(t, s);
    TrimRightEnds(t, TrimLeft(t, s));
  }

  lemma LowerKeepsTrimmed(t: CharTable, s: string)
    requires t.Valid() && Trimmed(t, s)
    ensures Trimmed(t, ToLower(t, s)) && ToLower(t, ToLower(t, s)) == ToLower(t, s)
  {}

  /** Substring search. */
  predicate Contains(s: string, p: string) {
    |p| <= |s| && (s[..|p|] == p || (s != "" && Contains(s[1..], p)))
  }

  predicate AllSpace(t: CharTable, s: string) {
    forall i :: 0 <= i < |s| ==> t.isSpace(s[i])
  }

  lemma {:induction false} TrimLeftDropsSpace(t: CharTable, s: string) returns (dropped: string)
    ensures AllSpace(t, dropped) && s == dropped + TrimLeft(t, s)
    decreases |s|
  {
    dropped := "";
    if s != "" && t.isSpace(s[0]) {
      dropped := TrimLeftDropsSpace(t, s[1..]);
      dropped := [s[0]] + dropped;
    }
  }

  lemma {:induction false} TrimRightDropsSpace(t: CharTable, s: string) returns (dropped: string)
    ensures AllSpace(t, dropped) && s == TrimRight(t, s) + dropped
    decreases |s|
  {
    dropped := "";
    if s != "" && t.isSpace(s[|s| - 1]) {
      dropped := TrimRightDropsSpace(t, s[..|s| - 1]);
      dropped := dropped + [s[|s| - 1]];
    }
  }

  /** Trimming takes off white space at both ends and nothing else. */
  lemma TrimSpaceDropsSpace(t: CharTable, s: string) returns (before: string, after: string)
    ensures AllSpace(t, before) && AllSpace(t, after) && s == before + TrimSpace(t, s) + after
    ensures Trimmed(t, TrimSpace(t, s))
  {
    before := TrimLeftDropsSpace(t, s);
    after := TrimRightDropsSpace(t, TrimLeft(t, s));
    TrimSpaceFixpoints(t, s);
  }

  /** The pattern is what stands in `s` from position `i` on. */
  predicate OccursAt(s: string, p: string, i: nat) {
    i + |p| <= |s| && s[i..i + |p|] == p
  }

  /** Substring search finds exactly the substrings. */
  lemma {:induction false} ContainsIff(s: string, p: string)
    ensures Contains(s, p) <==> exists i: nat :: OccursAt(s, p, i)
    decreases |s|
  {
    if |p| <= |s| {
      assert OccursAt(s, p, 0) <==> s[..|p|] == p;
      if s != "" {
        ContainsIff(s[1..], p);
        forall i: nat ensures OccursAt(s[1..], p, i) <==> OccursAt(s, p, i + 1) { OccursLater(s, p, i); }
        if i: nat :| OccursAt(s, p, i) { assert i == 0 || OccursAt(s[1..], p, i - 1); }
      }
    }
  }

  lemma OccursLater(s: string, p: string, i: nat)
    requires s != ""
    ensures OccursAt(s[1..], p, i) <==> OccursAt(s, p, i + 1)
  {
    if i + |p| <= |s[1..]| { assert s[1..][i..i + |p|] == s[i + 1..i + 1 + |p|]; }
  }
}
