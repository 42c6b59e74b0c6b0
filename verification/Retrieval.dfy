/** The file-backed knowledge base: tokenizer, overlap score and top-k retrieval (internal/retrieval). */
module Retrieval {
  import opened Text
  import opened Types

  const TOP := 5

  // ---- Tokenizing ----

  /** The tokens completed by `s` and the token still open at its end. */
  function Scan(t: CharTable, s: string): (seq<string>, string) {
    if s == "" then ([], "")
    else
      var (toks, cur) := Scan(t, s[..|s| - 1]);
      var c := s[|s| - 1];
      if t.isAlnum(c) then (toks, cur + [c])
      else (toks + Closed(cur), "")
  }

  function Closed(cur: string): seq<string> {
    if cur == "" then [] else [cur]
  }

  function TokenizeLower(t: CharTable, s: string): seq<string> {
    var (toks, cur) := Scan(t, s);
    toks + Closed(cur)
  }

  function Tokens(t: CharTable, s: string): seq<string> {
    TokenizeLower(t, ToLower(t, s))
  }

  method Tokenize(t: CharTable, s: string) returns (toks: seq<string>)
    ensures toks == Tokens(t, s)
  {
    var low := ToLower(t, s);
    var cur := "";
    toks := [];
    for i := 0 to |low|
      invariant toks == Scan(t, low[..i]).0 && cur == Scan(t, low[..i]).1
    {
      assert low[..i + 1][..i] == low[..i];
      if t.isAlnum(low[i]) {
        cur := cur + [low[i]];
      } else {
        if cur != "" { toks := toks + [cur]; }
        cur := "";
      }
    }
    assert low[..|low|] == low;
    if cur != "" { toks := toks + [cur]; }
  }

  /** A half-open interval of positions. */
  datatype Span = Span(lo: nat, hi: nat)

  /** A maximal run of alphanumeric characters. */
  ghost predicate MaximalRun(t: CharTable, s: string, r: Span) {
    && r.lo < r.hi <= |s|
    && (forall i :: r.lo <= i < r.hi ==> t.isAlnum(s[i]))
    && (r.lo > 0 ==> !t.isAlnum(s[r.lo - 1]))
    && (r.hi < |s| ==> !t.isAlnum(s[r.hi]))
  }

  /** `spans` lists exactly the maximal runs of `s`, from left to right. */
  ghost predicate ListsRuns(t: CharTable, s: string, spans: seq<Span>) {
    && (forall k :: 0 <= k < |spans| ==> MaximalRun(t, s, spans[k]))
    && (forall r: Span :: MaximalRun(t, s, r) ==> r in spans)
    && forall j, k :: 0 <= j < k < |spans| ==> spans[j].hi < spans[k].lo
  }

  function Cut(s: string, spans: seq<Span>): seq<string>
    requires forall k :: 0 <= k < |spans| ==> spans[k].lo <= spans[k].hi <= |s|
  {
    seq(|spans|, k requires 0 <= k < |spans| => s[spans[k].lo..spans[k].hi])
  }

  /** Where the open token begins: everything from there on is alphanumeric, the character before it is not. */
  ghost predicate OpenAt(t: CharTable, s: string, b: nat) {
    b <= |s| && (forall i :: b <= i < |s| ==> t.isAlnum(s[i])) && (b > 0 ==> !t.isAlnum(s[b - 1]))
  }

  /** The runs completed before the open token, and where that token begins. */
  ghost predicate Scanned(t: CharTable, s: string, spans: seq<Span>, b: nat) {
    && OpenAt(t, s, b)
    && (forall k :: 0 <= k < |spans| ==> MaximalRun(t, s, spans[k]) && spans[k].hi < b)
    && (forall r: Span :: MaximalRun(t, s, r) && r.hi < b ==> r in spans)
    && forall j, k :: 0 <= j < k < |spans| ==> spans[j].hi < spans[k].lo
  }

  lemma CutPrefix(s: string, n: nat, spans: seq<Span>)
    requires n <= |s| && forall k :: 0 <= k < |spans| ==> spans[k].lo <= spans[k].hi <= n
    ensures Cut(s[..n], spans) == Cut(s, spans)
  {
    forall k | 0 <= k < |spans| ensures s[..n][spans[k].lo..spans[k].hi] == s[spans[k].lo..spans[k].hi] {}
  }

  lemma {:induction false} ScanMeaning(t: CharTable, s: string) returns (spans: seq<Span>, b: nat)
    ensures Scanned(t, s, spans, b)
    ensures Scan(t, s).0 == Cut(s, spans) && Scan(t, s).1 == s[b..]
    decreases |s|
  {
    if s == "" { return [], 0; }
    var front, c := s[..|s| - 1], s[|s| - 1];
    var before, a := ScanMeaning(t, front);
    CutPrefix(s, |s| - 1, before);
    if t.isAlnum(c) {
      ScannedAlnum(t, s, before, a);
      spans, b := before, a;
      assert s[b..] == front[b..] + [c];
    } else {
      ScannedSeparator(t, s, before, a);
      spans, b := before + (if a < |front| then [Span(a, |front|)] else []), |s|;
      CutOpen(s[..|front|], before, a);
      CutPrefix(s, |s| - 1, spans);
    }
  }

  /** Cutting the open token off as well. */
  lemma CutOpen(s: string, spans: seq<Span>, a: nat)
    requires a <= |s| && forall k :: 0 <= k < |spans| ==> spans[k].lo <= spans[k].hi <= |s|
    ensures Cut(s, spans + if a < |s| then [Span(a, |s|)] else []) == Cut(s, spans) + Closed(s[a..])
  {
    if a < |s| { assert s[a..|s|] == s[a..]; }
  }

  lemma RunsOfPrefix(t: CharTable, s: string, n: nat)
    requires n <= |s|
    ensures forall r: Span :: r.hi < n ==> (MaximalRun(t, s[..n], r) <==> MaximalRun(t, s, r))
  {}

  lemma ScannedAlnum(t: CharTable, s: string, spans: seq<Span>, a: nat)
    requires s != "" && t.isAlnum(s[|s| - 1]) && Scanned(t, s[..|s| - 1], spans, a)
    ensures Scanned(t, s, spans, a)
  {
    RunsOfPrefix(t, s, |s| - 1);
  }

  lemma ScannedSeparator(t: CharTable, s: string, spans: seq<Span>, a: nat)
    requires s != "" && !t.isAlnum(s[|s| - 1]) && Scanned(t, s[..|s| - 1], spans, a)
    ensures Scanned(t, s, spans + (if a < |s| - 1 then [Span(a, |s| - 1)] else []), |s|)
  {
    var n := |s| - 1;
    RunsOfPrefix(t, s, n);
    if a < n { assert MaximalRun(t, s, Span(a, n)); }
    forall r: Span | MaximalRun(t, s, r) && r.hi < |s| && r !in spans ensures r == Span(a, n) && a < n {
      RunEndsAt(t, s, r, a, n);
    }
  }

  /** A run ending where an all-alphanumeric stretch ends begins where the stretch begins. */
  lemma RunEndsAt(t: CharTable, s: string, r: Span, a: nat, e: nat)
    requires MaximalRun(t, s, r) && r.hi == e <= |s| && a <= e
    requires (forall i :: a <= i < e ==> t.isAlnum(s[i])) && (a > 0 ==> !t.isAlnum(s[a - 1]))
    ensures r.lo == a
  {
    var beforeRun := if r.lo > 0 then s[r.lo - 1] else s[r.lo];
    var beforeStretch := if a > 0 then s[a - 1] else s[r.lo];
    assert r.lo > a ==> t.isAlnum(beforeRun);
    assert r.lo < a ==> !t.isAlnum(beforeStretch);
  }

  /** The tokens of a text are exactly the maximal alphanumeric runs of its lowercase form, left to right. */
  lemma TokensAreTheMaximalRuns(t: CharTable, s: string) returns (spans: seq<Span>)
    ensures ListsRuns(t, ToLower(t, s), spans)
    ensures Tokens(t, s) == Cut(ToLower(t, s), spans)
  {
    var low := ToLower(t, s);
    var before, b := ScanMeaning(t, low);
    spans := before + if b < |low| then [Span(b, |low|)] else [];
    CutOpen(low, before, b);
    forall r: Span | MaximalRun(t, low, r) ensures r in spans {
      if r.hi >= b {
        RunEndsAt(t, low, r, b, |low|);
      }
    }
  }

  /** The tokens with a separator after each. */
  function Joined(toks: seq<string>, sep: char): string {
    if toks == [] then "" else Joined(toks[..|toks| - 1], sep) + toks[|toks| - 1] + [sep]
  }

  predicate IsToken(t: CharTable, x: string) {
    x != "" && forall i :: 0 <= i < |x| ==> t.isAlnum(x[i]) && t.lower(x[i]) == x[i]
  }

  lemma {:induction false} ScanAlnum(t: CharTable, s: string, x: string)
    requires forall i :: 0 <= i < |x| ==> t.isAlnum(x[i])
    ensures Scan(t, s + x).0 == Scan(t, s).0 && Scan(t, s + x).1 == Scan(t, s).1 + x
    decreases |x|
  {
    if x == "" {
      assert s + x == s;
    } else {
      var front := x[..|x| - 1];
      ScanAlnum(t, s, front);
      assert (s + x)[..|s + x| - 1] == s + front;
      assert Scan(t, s).1 + front + [x[|x| - 1]] == Scan(t, s).1 + x;
    }
  }

  lemma {:induction false} ScanJoined(t: CharTable, toks: seq<string>, sep: char)
    requires !t.isAlnum(sep) && forall x :: x in toks ==> IsToken(t, x)
    ensures Scan(t, Joined(toks, sep)).0 == toks && Scan(t, Joined(toks, sep)).1 == ""
    decreases |toks|
  {
    if toks != [] {
      var front, x := toks[..|toks| - 1], toks[|toks| - 1];
      ScanJoined(t, front, sep);
      assert IsToken(t, x);
      var s := Joined(front, sep) + x;
      ScanAlnum(t, Joined(front, sep), x);
      assert Scan(t, s).1 == "" + x == x;
      assert (s + [sep])[..|s + [sep]| - 1] == s;
      assert Scan(t, s + [sep]).0 == front + [x];
    }
  }

  lemma {:induction false} JoinedIsLower(t: CharTable, toks: seq<string>, sep: char)
    requires t.lower(sep) == sep && forall x :: x in toks ==> IsToken(t, x)
    ensures ToLower(t, Joined(toks, sep)) == Joined(toks, sep)
    decreases |toks|
  {
    if toks != [] {
      JoinedIsLower(t, toks[..|toks| - 1], sep);
      assert IsToken(t, toks[|toks| - 1]);
    }
  }

  lemma TokensAreTokens(t: CharTable, s: string)
    requires t.Valid()
    ensures forall x :: x in Tokens(t, s) ==> IsToken(t, x)
  {
    var spans := TokensAreTheMaximalRuns(t, s);
    var low := ToLower(t, s);
    forall k | 0 <= k < |spans| ensures IsToken(t, low[spans[k].lo..spans[k].hi]) {
      assert MaximalRun(t, low, spans[k]);
      var x := low[spans[k].lo..spans[k].hi];
      forall i | 0 <= i < |x| ensures t.isAlnum(x[i]) && t.lower(x[i]) == x[i] {
        assert x[i] == low[spans[k].lo + i] == t.lower(s[spans[k].lo + i]);
      }
    }
  }

  /** Round trip: tokenizing the tokens of any text, each followed by a separator, gives the same tokens. */
  lemma TokenizeRoundTrip(t: CharTable, s: string, sep: char)
    requires t.Valid() && !t.isAlnum(sep) && t.lower(sep) == sep
    ensures Tokens(t, Joined(Tokens(t, s), sep)) == Tokens(t, s)
  {
    TokensAreTokens(t, s);
    JoinedIsLower(t, Tokens(t, s), sep);
    ScanJoined(t, Tokens(t, s), sep);
    assert Tokens(t, s) + Closed("") == Tokens(t, s);
  }

  // ---- Scoring ----

  /** How many positions of `q` hold a token of `doc`. */
  function Hits(q: seq<string>, doc: seq<string>): (n: nat)
    ensures n <= |q|
    ensures n == |q| <==> forall x :: x in q ==> x in doc
    ensures n == 0 <==> forall x :: x in q ==> x !in doc
  {
    if q == [] then 0
    else
      var front, last := q[..|q| - 1], q[|q| - 1];
      assert q == front + [last];
      Hits(front, doc) + if last in doc then 1 else 0
  }

  function Score(q: seq<string>, doc: seq<string>): real {
    if q == [] then 0.0 else Hits(q, doc) as real / |q| as real
  }

  method OverlapScore(q: seq<string>, doc: seq<string>) returns (score: real)
    requires q != []
    ensures score == Score(q, doc)
  {
    var present: set<string> := {};
    for i := 0 to |doc|
      invariant forall x :: x in present <==> x in doc[..i]
    {
      present := present + {doc[i]};
    }
    var hit := 0;
    for i := 0 to |q|
      invariant hit == Hits(q[..i], doc)
    {
      assert q[..i + 1][..i] == q[..i];
      if q[i] in present { hit := hit + 1; }
    }
    assert q[..|q|] == q;
    if hit == 0 { return 0.0; }
    return hit as real / |q| as real;
  }

  /** Scores are fractions; 1 means every query token occurs in the chunk, 0 that none does. */
  lemma ScoreRange(q: seq<string>, doc: seq<string>)
    requires q != []
    ensures 0.0 <= Score(q, doc) <= 1.0
    ensures Score(q, doc) == 1.0 <==> forall x :: x in q ==> x in doc
    ensures Score(q, doc) > 0.0 <==> exists x :: x in q && x in doc
  {
    FractionFacts(Hits(q, doc), |q|);
  }

  lemma FractionFacts(h: nat, n: nat)
    requires h <= n && 0 < n
    ensures var r := h as real / n as real; 0.0 <= r <= 1.0 && (r == 1.0 <==> h == n) && (r > 0.0 <==> h > 0)
  {
    var r := h as real / n as real;
    assert r * n as real == h as real;
  }

  // ---- Retrieval ----

  datatype DocChunk = DocChunk(text: string, source: string)

  function Scored(t: CharTable, q: seq<string>, d: DocChunk): RetrievalChunk {
    RetrievalChunk(d.text, d.source, Score(q, Tokens(t, d.text)))
  }

  /** The chunks that match at all, in index order. */
  function Matches(t: CharTable, q: seq<string>, docs: seq<DocChunk>): seq<RetrievalChunk> {
    if docs == [] then []
    else
      var last := Scored(t, q, docs[|docs| - 1]);
      Matches(t, q, docs[..|docs| - 1]) + if last.score > 0.0 then [last] else []
  }

  ghost predicate Descending(xs: seq<RetrievalChunk>) {
    forall i, j :: 0 <= i < j < |xs| ==> xs[i].score >= xs[j].score
  }

  /** `r` holds the `TOP` best of `all`, best first; ties may fall either way. */
  ghost predicate IsTopOf(all: seq<RetrievalChunk>, r: seq<RetrievalChunk>, rest: seq<RetrievalChunk>) {
    && multiset(r) + multiset(rest) == multiset(all)
    && |r| == (if |all| < TOP then |all| else TOP)
    && Descending(r)
    && forall x, y :: x in r && y in rest ==> x.score >= y.score
  }

  /** The library sort: any permutation in descending order. */
  method SortByScore(xs: seq<RetrievalChunk>) returns (ys: seq<RetrievalChunk>)
    ensures multiset(ys) == multiset(xs) && Descending(ys)
  {
    ys := [];
    for i := 0 to |xs|
      invariant multiset(ys) == multiset(xs[..i]) && Descending(ys)
    {
      ys := InsertByScore(ys, xs[i]);
      assert xs[..i + 1] == xs[..i] + [xs[i]];
    }
    assert xs[..|xs|] == xs;
  }

  method InsertByScore(ys: seq<RetrievalChunk>, x: RetrievalChunk) returns (zs: seq<RetrievalChunk>)
    requires Descending(ys)
    ensures multiset(zs) == multiset(ys) + multiset{x} && Descending(zs)
  {
    var k := 0;
    while k < |ys| && ys[k].score >= x.score
      invariant 0 <= k <= |ys| && forall j :: 0 <= j < k ==> ys[j].score >= x.score
    {
      k := k + 1;
    }
    assert ys == ys[..k] + ys[k..];
    zs := ys[..k] + [x] + ys[k..];
    SplicedIsDescending(ys, k, x);
  }

  lemma SplicedIsDescending(ys: seq<RetrievalChunk>, k: nat, x: RetrievalChunk)
    requires Descending(ys) && k <= |ys|
    requires (forall j :: 0 <= j < k ==> ys[j].score >= x.score) && (k < |ys| ==> x.score >= ys[k].score)
    ensures Descending(ys[..k] + [x] + ys[k..])
  {
    var zs := ys[..k] + [x] + ys[k..];
    forall i, j | 0 <= i < j < |zs| ensures zs[i].score >= zs[j].score {
      assert zs[i] == if i < k then ys[i] else if i == k then x else ys[i - 1];
      assert zs[j] == if j < k then ys[j] else if j == k then x else ys[j - 1];
    }
  }

  method Retrieve(t: CharTable, docs: seq<DocChunk>, query: string) returns (chunks: seq<RetrievalChunk>)
    ensures Tokens(t, query) == [] ==> chunks == []
    ensures Tokens(t, query) != [] ==>
              var all := |Matches(t, Tokens(t, query), docs)|; |chunks| == if all < 5 then all else 5
    ensures Tokens(t, query) != [] ==> exists rest :: IsTopOf(Matches(t, Tokens(t, query), docs), chunks, rest)
  {
    var q := Tokenize(t, query);
    if |q| == 0 { return []; }
    var out := ScoreAll(t, q, docs);
    chunks := BestOf(out);
  }

  lemma MatchesNext(t: CharTable, q: seq<string>, docs: seq<DocChunk>, i: nat)
    requires i < |docs|
    ensures var next := Scored(t, q, docs[i]);
            Matches(t, q, docs[..i + 1]) == Matches(t, q, docs[..i]) + if next.score > 0.0 then [next] else []
  {
    assert docs[..i + 1][..i] == docs[..i];
  }

  method ScoreAll(t: CharTable, q: seq<string>, docs: seq<DocChunk>) returns (out: seq<RetrievalChunk>)
    requires q != []
    ensures out == Matches(t, q, docs)
  {
    out := [];
    for i := 0 to |docs|
      invariant out == Matches(t, q, docs[..i])
    {
      MatchesNext(t, q, docs, i);
      var hit := ScoreOne(t, q, docs[i]);
      if hit.Some? { out := out + [hit.value]; }
    }
    assert docs[..|docs|] == docs;
  }

  method ScoreOne(t: CharTable, q: seq<string>, d: DocChunk) returns (m: Option<RetrievalChunk>)
    requires q != []
    ensures m == var c := Scored(t, q, d); if c.score > 0.0 then Some(c) else None
  {
    var dt := Tokenize(t, d.text);
    ScoreRange(q, dt);
    if |dt| == 0 { return None; }
    var s := OverlapScore(q, dt);
    if s <= 0.0 { return None; }
    return Some(RetrievalChunk(d.text, d.source, s));
  }

  method BestOf(out: seq<RetrievalChunk>) returns (chunks: seq<RetrievalChunk>)
    ensures exists rest :: IsTopOf(out, chunks, rest)
  {
    var sorted := SortByScore(out);
    assert |multiset(sorted)| == |multiset(out)|;
    var top := if |sorted| < TOP then |sorted| else TOP;
    chunks := [];
    for i := 0 to top
      invariant chunks == sorted[..i]
    {
      chunks := chunks + [sorted[i]];
    }
    PrefixIsTop(out, sorted, top);
  }

  lemma PrefixIsTop(all: seq<RetrievalChunk>, sorted: seq<RetrievalChunk>, top: nat)
    requires multiset(sorted) == multiset(all) && Descending(sorted) && |sorted| == |all|
    requires top == if |all| < TOP then |all| else TOP
    ensures IsTopOf(all, sorted[..top], sorted[top..])
  {
    assert sorted == sorted[..top] + sorted[top..];
  }

  /** What is matched: exactly the chunks sharing a token with the query, and nothing left out scores higher than
      anything returned. */
  lemma {:induction false} MatchesMeaning(t: CharTable, q: seq<string>, docs: seq<DocChunk>)
    requires q != []
    ensures forall m :: m in Matches(t, q, docs) <==>
                        exists d :: d in docs && m == Scored(t, q, d) && exists x :: x in q && x in Tokens(t, d.text)
    ensures forall m :: m in Matches(t, q, docs) ==> 0.0 < m.score <= 1.0
    decreases |docs|
  {
    if docs != [] {
      var front, d := docs[..|docs| - 1], docs[|docs| - 1];
      assert docs == front + [d];
      MatchesMeaning(t, q, front);
      ScoreRange(q, Tokens(t, d.text));
    }
  }

  // ---- Scores by counting ----

  /** The positions of `q` whose token occurs in `doc`. */
  function HitPositions(q: seq<string>, doc: seq<string>): set<nat> {
    set i: nat | i < |q| && q[i] in doc
  }

  lemma {:induction false} HitsCountPositions(q: seq<string>, doc: seq<string>)
    ensures Hits(q, doc) == |HitPositions(q, doc)|
    decreases |q|
  {
    if q == [] {
      assert HitPositions(q, doc) == {};
    } else {
      var front, last := q[..|q| - 1], q[|q| - 1];
      HitsCountPositions(front, doc);
      assert HitPositions(q, doc) == HitPositions(front, doc) + if last in doc then {|q| - 1} else {};
    }
  }

  /** A chunk that holds more of the query's positions scores strictly higher, and only such a chunk does. */
  lemma MoreHitsScoreHigher(q: seq<string>, doc: seq<string>, doc': seq<string>)
    requires q != []
    ensures Score(q, doc) < Score(q, doc') <==> |HitPositions(q, doc)| < |HitPositions(q, doc')|
    ensures Score(q, doc) == |HitPositions(q, doc)| as real / |q| as real
  {
    HitsCountPositions(q, doc);
    HitsCountPositions(q, doc');
    SameDenominator(Hits(q, doc), Hits(q, doc'), |q|);
  }

  lemma SameDenominator(a: nat, b: nat, n: nat)
    requires n > 0
    ensures a as real / n as real < b as real / n as real <==> a < b
  {
    var x, y := a as real / n as real, b as real / n as real;
    assert x * n as real == a as real && y * n as real == b as real;
    if a < b { assert (y - x) * n as real > 0.0; } else { assert (x - y) * n as real >= 0.0; }
  }

  ghost predicate SharesToken(t: CharTable, q: seq<string>, d: DocChunk) {
    exists x :: x in q && x in Tokens(t, d.text)
  }

  /** The documents that share a token with the query, in index order. */
  ghost function Sharing(t: CharTable, q: seq<string>, docs: seq<DocChunk>): seq<DocChunk> {
    if docs == [] then []
    else
      Sharing(t, q, docs[..|docs| - 1]) + if SharesToken(t, q, docs[|docs| - 1]) then [docs[|docs| - 1]] else []
  }

  /** The candidates are these documents one by one, with their text and source, scored by the positions they hold. */
  lemma {:induction false} MatchesAreTheSharing(t: CharTable, q: seq<string>, docs: seq<DocChunk>)
    requires q != []
    ensures var all, ds := Matches(t, q, docs), Sharing(t, q, docs);
            && |all| == |ds|
            && forall i :: 0 <= i < |ds| ==>
                             && all[i].text == ds[i].text && all[i].source == ds[i].source
                             && all[i].score == |HitPositions(q, Tokens(t, ds[i].text))| as real / |q| as real
    decreases |docs|
  {
    if docs != [] {
      var front, d := docs[..|docs| - 1], docs[|docs| - 1];
      MatchesAreTheSharing(t, q, front);
      ScoreRange(q, Tokens(t, d.text));
      MoreHitsScoreHigher(q, Tokens(t, d.text), []);
    }
  }
}
