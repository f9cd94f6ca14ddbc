/** The sandboxed execution engine of both plugins (`docker.py`): extracting
    `<output>` tags from the container log, provisioning the sandbox image
    with bounded retry, and the one-shot container lifecycle. The Docker
    client is a scripted stand-in that records every call it receives. The
    two copies of `docker.py` differ only in what `Variant` selects. */
module Docker {
  import opened Models
  import opened Strings
  import opened Seqs
  import Utils

  // ---------------------------------------------------------------------
  // The two copies of the engine

  datatype Variant = SandboxPlugin | RunnerPlugin

  const ImageTag: string := "muicebot/sandbox-python"

  function ImageVersion(v: Variant): string
  {
    match v
    case SandboxPlugin => "v1.2"
    case RunnerPlugin => "v1.1"
  }

  /** The `name:version` reference the image is built under and looked up by. */
  function ImageRef(v: Variant): string
  {
    ImageTag + ":" + ImageVersion(v)
  }

  /** The log reported when the container returned no log chunks at all. */
  function EmptyLog(v: Variant): string
  {
    match v
    case SandboxPlugin => "(容器无返回或容器执行超时)"
    case RunnerPlugin => ""
  }

  // ---------------------------------------------------------------------
  // Output extractor: `re.findall(r"<output>(.*?)</output>", log, re.DOTALL)`

  const Opener: string := "<output>"
  const Closer: string := "</output>"

  /** One match of the tag pattern: the opener starts at `at`, the body is
      `s[at + |Opener|..stop]` and the closer starts at `stop`. */
  datatype Match = Match(at: nat, stop: nat)

  /** `m` is a match in `s`: an opener, then the nearest closer after it. */
  predicate IsMatch(s: string, m: Match)
  {
    && At(s, Opener, m.at)
    && m.at + |Opener| <= m.stop
    && At(s, Closer, m.stop)
    && forall k :: m.at + |Opener| <= k < m.stop ==> !At(s, Closer, k)
  }

  /** The pattern can match at `q`: an opener there and a closer somewhere
      after it (bodies may span newlines, so nothing else is required). */
  ghost predicate CanMatchAt(s: string, q: int)
  {
    At(s, Opener, q) && exists k :: q + |Opener| <= k && At(s, Closer, k)
  }

  ghost predicate NoMatchStartsIn(s: string, lo: int, hi: int)
  {
    forall q :: lo <= q < hi ==> !CanMatchAt(s, q)
  }

  /** The opener and closer of `m` lie inside `s`, in that order. */
  predicate InBounds(s: string, m: Match)
  {
    m.at + |Opener| <= m.stop && m.stop + |Closer| <= |s|
  }

  /** The scan `findall` performs from position `p`: where the pattern can
      match, take the opener and its nearest closer and continue after the
      closer; elsewhere move on by one character. */
  function FindAll(s: string, p: nat): (ms: seq<Match>)
    requires p <= |s|
    decreases |s| - p
    ensures forall i :: 0 <= i < |ms| ==> InBounds(s, ms[i]) && p <= ms[i].at
  {
    if p == |s| then []
    else
      var k := Find(s, Closer, p + |Opener|);
      if At(s, Opener, p) && k >= 0 then
        [Match(p, k)] + FindAll(s, k + |Closer|)
      else
        FindAll(s, p + 1)
  }

  predicate AllMatches(s: string, ms: seq<Match>)
  {
    forall i :: 0 <= i < |ms| ==> IsMatch(s, ms[i])
  }

  /** Every match the scan reports is an opener with the nearest closer
      after it. */
  lemma {:induction false} FindAllMatchesAreNearest(s: string, p: nat)
    requires p <= |s|
    decreases |s| - p
    ensures AllMatches(s, FindAll(s, p))
  {
    if p < |s| {
      var k := Find(s, Closer, p + |Opener|);
      if At(s, Opener, p) && k >= 0 {
        var p' := k + |Closer|;
        FindIsFirst(s, Closer, p + |Opener|);
        FindAllMatchesAreNearest(s, p');
        var rest := FindAll(s, p');
        var ms := [Match(p, k)] + rest;
        assert FindAll(s, p) == ms;
        forall i | 0 <= i < |ms| ensures IsMatch(s, ms[i]) {
          if i > 0 {
            assert ms[i] == rest[i - 1];
          }
        }
      } else {
        FindAllMatchesAreNearest(s, p + 1);
        assert FindAll(s, p) == FindAll(s, p + 1);
      }
    }
  }

  /** Matches that do not overlap: each starts after the previous one's
      closer. */
  predicate InOrder(ms: seq<Match>)
  {
    forall i :: 0 <= i < |ms| - 1 ==> ms[i].stop + |Closer| <= ms[i + 1].at
  }

  /** The scan reports its matches in order, without overlap. */
  lemma {:induction false} FindAllInOrder(s: string, p: nat)
    requires p <= |s|
    decreases |s| - p
    ensures InOrder(FindAll(s, p))
  {
    if p < |s| {
      var k := Find(s, Closer, p + |Opener|);
      if At(s, Opener, p) && k >= 0 {
        var p' := k + |Closer|;
        FindAllInOrder(s, p');
        var rest := FindAll(s, p');
        var ms := [Match(p, k)] + rest;
        assert FindAll(s, p) == ms;
        forall i | 0 <= i < |ms| - 1 ensures ms[i].stop + |Closer| <= ms[i + 1].at {
          assert ms[i + 1] == rest[i];
          if i > 0 {
            assert ms[i] == rest[i - 1];
          }
        }
      } else {
        FindAllInOrder(s, p + 1);
        assert FindAll(s, p) == FindAll(s, p + 1);
      }
    }
  }

  /** Where the `i`-th stretch of text between matches begins and ends:
      before the first match, between two matches, after the last one. */
  function GapStart(ms: seq<Match>, p: nat, i: nat): int
    requires i <= |ms|
  {
    if i == 0 then p else ms[i - 1].stop + |Closer|
  }

  function GapEnd(s: string, ms: seq<Match>, i: nat): int
    requires i <= |ms|
  {
    if i == |ms| then |s| else ms[i].at
  }

  /** No match of the pattern could start in any stretch of `s` from `p`
      on that lies between the matches `ms`. */
  ghost predicate MissesNothing(s: string, ms: seq<Match>, p: nat)
  {
    forall i :: 0 <= i <= |ms| ==> NoMatchStartsIn(s, GapStart(ms, p, i), GapEnd(s, ms, i))
  }

  /** A match at `p` in front of matches that miss nothing after its
      closer misses nothing from `p` on. */
  lemma LeftmostAfterMatch(s: string, p: nat, k: nat, rest: seq<Match>)
    requires MissesNothing(s, rest, k + |Closer|)
    ensures MissesNothing(s, [Match(p, k)] + rest, p)
  {
    var ms := [Match(p, k)] + rest;
    forall i | 0 <= i <= |ms| ensures NoMatchStartsIn(s, GapStart(ms, p, i), GapEnd(s, ms, i)) {
      if i > 0 {
        assert GapStart(ms, p, i) == GapStart(rest, k + |Closer|, i - 1);
        assert GapEnd(s, ms, i) == GapEnd(s, rest, i - 1);
      }
    }
  }

  /** Where the pattern cannot match at `p`, matches that miss nothing from
      `p + 1` on, and start there or later, miss nothing from `p` on. */
  lemma LeftmostAfterSkip(s: string, p: nat, ms: seq<Match>)
    requires !CanMatchAt(s, p)
    requires |ms| > 0 ==> p + 1 <= ms[0].at
    requires MissesNothing(s, ms, p + 1)
    ensures MissesNothing(s, ms, p)
  {
    forall i | 0 <= i <= |ms| ensures NoMatchStartsIn(s, GapStart(ms, p, i), GapEnd(s, ms, i)) {
      if i == 0 {
        assert NoMatchStartsIn(s, p + 1, GapEnd(s, ms, 0));
      } else {
        assert GapStart(ms, p, i) == GapStart(ms, p + 1, i);
      }
    }
  }

  /** The scan misses nothing, so its matches are the leftmost
      non-overlapping ones. */
  lemma {:induction false} FindAllIsLeftmost(s: string, p: nat)
    requires p <= |s|
    decreases |s| - p
    ensures MissesNothing(s, FindAll(s, p), p)
  {
    if p == |s| {
      assert FindAll(s, p) == [];
    } else {
      var k := Find(s, Closer, p + |Opener|);
      if At(s, Opener, p) && k >= 0 {
        FindAllIsLeftmost(s, k + |Closer|);
        LeftmostAfterMatch(s, p, k, FindAll(s, k + |Closer|));
        assert FindAll(s, p) == [Match(p, k)] + FindAll(s, k + |Closer|);
      } else {
        FindAllIsLeftmost(s, p + 1);
        FindIsFirst(s, Closer, p + |Opener|);
        assert FindAll(s, p) == FindAll(s, p + 1);
        LeftmostAfterSkip(s, p, FindAll(s, p + 1));
      }
    }
  }

  /** The text captured by a match, untrimmed. */
  function Body(s: string, m: Match): string
    requires InBounds(s, m)
  {
    s[m.at + |Opener|..m.stop]
  }

  /** The scan finds nothing in a log without an opener. */
  lemma NoOpenerNoMatches(log: string)
    requires Find(log, Opener, 0) == -1
    ensures FindAll(log, 0) == []
  {
    var ms := FindAll(log, 0);
    FindAllMatchesAreNearest(log, 0);
    FindIsFirst(log, Opener, 0);
    assert |ms| > 0 ==> At(log, Opener, ms[0].at);
  }

  /** `_extract_output_file`: no opener in the log short-circuits to [];
      otherwise one resource per match. */
  function ExtractOutputFiles(log: string, execDir: string): seq<Resource>
  {
    if Find(log, Opener, 0) == -1 then [] else FilesAt(execDir, Bodies(log, FindAll(log, 0)))
  }

  /** The short-circuit gives exactly what the full scan gives: one
      resource per match, in the order of the log. */
  lemma ExtractIsFullScan(log: string, execDir: string)
    ensures ExtractOutputFiles(log, execDir) == FilesAt(execDir, Bodies(log, FindAll(log, 0)))
  {
    if Find(log, Opener, 0) == -1 {
      NoOpenerNoMatches(log);
    }
  }

  /** Without an `<output>` substring nothing is extracted. */
  lemma NoOpenerNoOutputs(log: string, execDir: string)
    requires !Contains(log, Opener)
    ensures ExtractOutputFiles(log, execDir) == []
  {
  }

  /** No closer occurs anywhere in `b`. */
  ghost predicate NoCloser(b: string)
  {
    forall q :: !At(b, Closer, q)
  }

  /** This is Python's `"</output>" not in b`. */
  lemma NoCloserIff(b: string)
    ensures NoCloser(b) <==> !Contains(b, Closer)
  {
    ContainsIff(b, Closer);
  }

  /** Text without '<' holds no closer. */
  lemma NoBracketNoCloser(b: string)
    requires '<' !in b
    ensures NoCloser(b)
  {
    NoFirstCharNoOccurrence(b, Closer);
    NoCloserIff(b);
  }

  /** A captured body never contains a closing tag (the match is non-greedy). */
  lemma BodyHasNoCloser(s: string, m: Match)
    requires IsMatch(s, m)
    ensures NoCloser(Body(s, m))
  {
    var b := Body(s, m);
    var base := m.at + |Opener|;
    forall j | At(b, Closer, j) ensures false {
      SubSlice(s, base, m.stop, j, j + |Closer|);
      assert At(s, Closer, base + j);
    }
  }

  /** An opener with no closer after it contributes nothing: every match
      opens, and closes, before it. */
  lemma UnclosedOpenerContributesNothing(s: string, q: nat)
    requires At(s, Opener, q) && Find(s, Closer, q + |Opener|) == -1
    ensures forall m :: m in FindAll(s, 0) ==> m.at < q && m.stop < q + |Opener|
  {
    var ms := FindAll(s, 0);
    FindAllMatchesAreNearest(s, 0);
    FindIsFirst(s, Closer, q + |Opener|);
    forall m | m in ms ensures m.at < q && m.stop < q + |Opener| {
      var i :| 0 <= i < |ms| && ms[i] == m;
      assert IsMatch(s, ms[i]);
    }
  }

  /** What a program prints when it emits the tag bodies `bodies`
      surrounded by the plain texts `fills`. */
  function Tagged(fills: seq<string>, bodies: seq<string>): string
    requires |fills| == |bodies| + 1
    decreases |bodies|
  {
    if bodies == [] then fills[0]
    else fills[0] + (Opener + (bodies[0] + (Closer + Tagged(fills[1..], bodies[1..]))))
  }

  lemma CloserHasOneOpeningBracket()
    ensures forall j :: 1 <= j < |Closer| ==> Closer[j] != '<'
  {
    assert Closer == ['<', '/', 'o', 'u', 't', 'p', 'u', 't', '>'];
  }

  /** Two closers in a text cannot overlap. */
  lemma ClosersDoNotOverlap(s: string, k: int, e: int)
    requires At(s, Closer, k) && At(s, Closer, e) && k < e
    ensures k + |Closer| <= e
  {
    CloserHasOneOpeningBracket();
    assert s[e] == s[e..e + |Closer|][0] == '<';
    forall j | k < j < k + |Closer| ensures s[j] != '<' {
      assert s[j] == s[k..k + |Closer|][j - k];
    }
  }

  /** The `n` characters of `s` from `p` on hold no '<'. */
  predicate PlainAt(s: string, p: nat, n: nat)
  {
    p + n <= |s| && forall j :: p <= j < p + n ==> s[j] != '<'
  }

  /** The scan moves over text without '<' without finding anything. */
  lemma {:induction false} SkipPlainText(s: string, p: nat, n: nat)
    requires PlainAt(s, p, n)
    ensures FindAll(s, p) == FindAll(s, p + n)
    decreases n
  {
    if n > 0 {
      assert !At(s, Opener, p) by { assert Opener[0] == '<'; }
      SkipPlainText(s, p + 1, n - 1);
    }
  }

  /** The plain text `f`, free of '<', lies in `s` at `p`. */
  predicate FillAt(s: string, p: nat, f: string)
  {
    p + |f| <= |s| && s[p..p + |f|] == f && '<' !in f
  }

  /** The text of a tag lies in `s` at `q`: an opener, `b` and a closer. */
  ghost predicate TagTextAt(s: string, q: nat, b: string)
  {
    && q + |Opener| + |b| + |Closer| <= |s|
    && s[q..q + |Opener|] == Opener
    && s[q + |Opener|..q + |Opener| + |b|] == b
    && s[q + |Opener| + |b|..q + |Opener| + |b| + |Closer|] == Closer
  }

  /** A tag with a body of `n` characters lies in `s` at `q`, as the scan
      sees it: an opener, and the first closer after it `n` characters on. */
  ghost predicate TagAt(s: string, q: nat, n: nat)
  {
    && q + |Opener| + n + |Closer| <= |s|
    && s[q..q + |Opener|] == Opener
    && Find(s, Closer, q + |Opener|) == q + |Opener| + n
  }

  /** A plain text in `s` puts no '<' into `s`. */
  lemma FillHasNoBracket(s: string, p: nat, f: string)
    requires FillAt(s, p, f)
    ensures forall j :: p <= j < p + |f| ==> s[j] != '<'
  {
    forall j | p <= j < p + |f| ensures s[j] != '<' {
      assert s[j] == s[p..p + |f|][j - p];
    }
  }

  /** Inside a tag no closer starts before the tag's own closer. */
  lemma NoCloserInsideTag(s: string, q: nat, b: string)
    requires TagTextAt(s, q, b) && NoCloser(b)
    ensures forall k :: q + |Opener| <= k < q + |Opener| + |b| ==> !At(s, Closer, k)
  {
    var base := q + |Opener|;
    var e := base + |b|;
    assert At(s, Closer, e);
    forall k | base <= k < e ensures !At(s, Closer, k) {
      if At(s, Closer, k) {
        ClosersDoNotOverlap(s, k, e);
        SubSlice(s, base, e, k - base, k - base + |Closer|);
        assert At(b, Closer, k - base);
      }
    }
  }

  /** The text of a tag whose body holds no closer is a tag: the closer
      the scan looks for after the opener is the tag's own. */
  lemma ClosedTagAt(s: string, q: nat, b: string)
    requires TagTextAt(s, q, b) && NoCloser(b)
    ensures TagAt(s, q, |b|)
  {
    NoCloserInsideTag(s, q, b);
    FindIsFirst(s, Closer, q + |Opener|);
    assert At(s, Closer, q + |Opener| + |b|);
  }

  /** At a tag, the scan matches exactly that tag's body and continues
      after its closer. */
  lemma MatchOfTag(s: string, q: nat, n: nat)
    requires TagAt(s, q, n)
    ensures FindAll(s, q) == [Match(q, q + |Opener| + n)] + FindAll(s, q + |Opener| + n + |Closer|)
  {
    assert At(s, Opener, q);
  }

  /** From `p` to `end`, runs of plain text as long as `fills` alternate
      with tags around bodies as long as `bodies`, where `plain(q, m)` says
      that a run of `m` characters at `q` is plain and `tag(q, n)` that a
      tag with a body of `n` characters starts at `q`. */
  ghost predicate Layout(plain: (nat, nat) -> bool, tag: (nat, nat) -> bool, end: nat,
                         p: nat, fills: seq<string>, bodies: seq<string>)
    requires |fills| == |bodies| + 1
    decreases |bodies|
  {
    && plain(p, |fills[0]|)
    && if bodies == [] then p + |fills[0]| == end
       else
         && tag(p + |fills[0]|, |bodies[0]|)
         && Layout(plain, tag, end, p + |fills[0]| + |Opener| + |bodies[0]| + |Closer|, fills[1..], bodies[1..])
  }

  /** The plain runs of `s`, and its tags, as the predicates of a layout. */
  ghost function Plains(s: string): (nat, nat) -> bool
  {
    (q: nat, m: nat) => PlainAt(s, q, m)
  }

  ghost function Tags(s: string): (nat, nat) -> bool
  {
    (q: nat, n: nat) => TagAt(s, q, n)
  }

  /** `s` from `p` to its end is laid out as the plain texts `fills` with
      a tag around each of `bodies` between them, as the scan sees it: the
      texts and the tags' extent. */
  ghost predicate LaidOut(s: string, p: nat, fills: seq<string>, bodies: seq<string>)
    requires |fills| == |bodies| + 1
  {
    Layout(Plains(s), Tags(s), |s|, p, fills, bodies)
  }

  /** The bodies captured by the matches `ms`, in order. */
  function Bodies(s: string, ms: seq<Match>): (r: seq<string>)
    requires forall i :: 0 <= i < |ms| ==> InBounds(s, ms[i])
    ensures |r| == |ms|
    ensures forall i :: 0 <= i < |ms| ==> r[i] == Body(s, ms[i])
  {
    seq(|ms|, i requires 0 <= i < |ms| => Body(s, ms[i]))
  }

  /** Where the tags of a laid-out text lie: one match per body, its
      opener right after the plain text in front of it. */
  function TagMatches(p: nat, fills: seq<string>, bodies: seq<string>): seq<Match>
    requires |fills| == |bodies| + 1
    decreases |bodies|
  {
    if bodies == [] then []
    else
      var q := p + |fills[0]|;
      [Match(q, q + |Opener| + |bodies[0]|)] + TagMatches(q + |Opener| + |bodies[0]| + |Closer|, fills[1..], bodies[1..])
  }

  /** One unfolding of `TagMatches`. */
  lemma TagMatchesCons(p: nat, fills: seq<string>, bodies: seq<string>)
    requires |fills| == |bodies| + 1 && bodies != []
    ensures TagMatches(p, fills, bodies)
      == [Match(p + |fills[0]|, p + |fills[0]| + |Opener| + |bodies[0]|)]
         + TagMatches(p + |fills[0]| + |Opener| + |bodies[0]| + |Closer|, fills[1..], bodies[1..])
  {
  }

  /** Any scan that skips plain text, matches a tag's body and continues
      after its closer, and ends at the end, reports exactly the tags of a
      layout. */
  lemma {:induction false} StepsCompose(plain: (nat, nat) -> bool, tag: (nat, nat) -> bool, end: nat,
                                        p: nat, fills: seq<string>, bodies: seq<string>, scan: nat -> seq<Match>)
    requires |fills| == |bodies| + 1 && Layout(plain, tag, end, p, fills, bodies)
    requires forall q: nat, m: nat :: plain(q, m) ==> scan(q) == scan(q + m)
    requires forall q: nat, n: nat :: tag(q, n) ==>
      scan(q) == [Match(q, q + |Opener| + n)] + scan(q + |Opener| + n + |Closer|)
    requires scan(end) == []
    ensures p <= end && scan(p) == TagMatches(p, fills, bodies)
    decreases |bodies|
  {
    if bodies != [] {
      var n := |bodies[0]|;
      StepsCompose(plain, tag, end, p + |fills[0]| + |Opener| + n + |Closer|, fills[1..], bodies[1..], scan);
    }
  }

  /** The scan as a function of the position it starts from, nothing
      past the end. */
  ghost function Scanner(s: string): nat -> seq<Match>
  {
    (q: nat) => if q <= |s| then FindAll(s, q) else []
  }

  /** Within the text the scanner is the scan. */
  lemma ScannerIsScan(s: string, q: nat)
    requires q <= |s|
    ensures Scanner(s)(q) == FindAll(s, q)
  {
  }

  /** The scan skips text without '<'. */
  lemma ScannerSkips(s: string)
    ensures forall q: nat, m: nat :: Plains(s)(q, m) ==> Scanner(s)(q) == Scanner(s)(q + m)
  {
    forall q: nat, m: nat | Plains(s)(q, m) ensures Scanner(s)(q) == Scanner(s)(q + m) {
      ScannerSkip(s, q, m);
    }
  }

  /** `ScannerSkips` at one position. */
  lemma ScannerSkip(s: string, q: nat, m: nat)
    requires Plains(s)(q, m)
    ensures Scanner(s)(q) == Scanner(s)(q + m)
  {
    SkipPlainText(s, q, m);
    ScannerIsScan(s, q);
    ScannerIsScan(s, q + m);
  }

  /** The scan matches a tag's body and continues after its closer. */
  lemma ScannerMatches(s: string)
    ensures forall q: nat, n: nat :: Tags(s)(q, n) ==>
      Scanner(s)(q) == [Match(q, q + |Opener| + n)] + Scanner(s)(q + |Opener| + n + |Closer|)
  {
    forall q: nat, n: nat | Tags(s)(q, n)
      ensures Scanner(s)(q) == [Match(q, q + |Opener| + n)] + Scanner(s)(q + |Opener| + n + |Closer|)
    {
      ScannerMatch(s, q, n);
    }
  }

  /** `ScannerMatches` at one position. */
  lemma ScannerMatch(s: string, q: nat, n: nat)
    requires Tags(s)(q, n)
    ensures Scanner(s)(q) == [Match(q, q + |Opener| + n)] + Scanner(s)(q + |Opener| + n + |Closer|)
  {
    MatchOfTag(s, q, n);
    ScannerIsScan(s, q);
    ScannerIsScan(s, q + |Opener| + n + |Closer|);
  }

  /** On laid-out text the scan finds the tags and nothing else. */
  lemma ScanFindsTags(s: string, p: nat, fills: seq<string>, bodies: seq<string>)
    requires |fills| == |bodies| + 1 && LaidOut(s, p, fills, bodies)
    ensures p <= |s| && FindAll(s, p) == TagMatches(p, fills, bodies)
  {
    ScannerSkips(s);
    ScannerMatches(s);
    ScannerIsScan(s, |s|);
    StepsCompose(Plains(s), Tags(s), |s|, p, fills, bodies, Scanner(s));
    ScannerIsScan(s, p);
  }

  /** The bodies of `bodies` lie in `s` where `TagMatches` puts them. */
  ghost predicate BodiesAt(s: string, p: nat, fills: seq<string>, bodies: seq<string>)
    requires |fills| == |bodies| + 1
    decreases |bodies|
  {
    bodies != [] ==>
      var q := p + |fills[0]| + |Opener|;
      && q + |bodies[0]| + |Closer| <= |s|
      && s[q..q + |bodies[0]|] == bodies[0]
      && BodiesAt(s, q + |bodies[0]| + |Closer|, fills[1..], bodies[1..])
  }

  /** The tags of laid-out text lie inside it and capture its bodies. */
  lemma {:induction false} TagMatchesCapture(s: string, p: nat, fills: seq<string>, bodies: seq<string>)
    requires |fills| == |bodies| + 1 && BodiesAt(s, p, fills, bodies)
    ensures |TagMatches(p, fills, bodies)| == |bodies|
    ensures forall i :: 0 <= i < |bodies| ==>
      InBounds(s, TagMatches(p, fills, bodies)[i]) && Body(s, TagMatches(p, fills, bodies)[i]) == bodies[i]
    decreases |bodies|
  {
    if bodies != [] {
      var next := p + |fills[0]| + |Opener| + |bodies[0]| + |Closer|;
      TagMatchesCapture(s, next, fills[1..], bodies[1..]);
      TagMatchesCons(p, fills, bodies);
      var ms, rest := TagMatches(p, fills, bodies), TagMatches(next, fills[1..], bodies[1..]);
      forall i | 0 <= i < |bodies| ensures InBounds(s, ms[i]) && Body(s, ms[i]) == bodies[i] {
        if i > 0 {
          assert ms[i] == rest[i - 1] && bodies[i] == bodies[1..][i - 1];
        }
      }
    }
  }

  /** The scan over laid-out text finds exactly the tagged bodies, in order. */
  lemma ScanLaidOut(s: string, p: nat, fills: seq<string>, bodies: seq<string>)
    requires |fills| == |bodies| + 1 && LaidOut(s, p, fills, bodies) && BodiesAt(s, p, fills, bodies)
    ensures p <= |s| && Bodies(s, FindAll(s, p)) == bodies
  {
    ScanFindsTags(s, p, fills, bodies);
    TagMatchesCapture(s, p, fills, bodies);
  }

  /** No plain text between tags contains '<'. */
  predicate PlainFills(fills: seq<string>)
  {
    forall i :: 0 <= i < |fills| ==> '<' !in fills[i]
  }

  /** No tag body contains a closer. */
  ghost predicate OpenBodies(bodies: seq<string>)
  {
    forall i :: 0 <= i < |bodies| ==> NoCloser(bodies[i])
  }

  /** The conditions on tagged text carry over to its tail. */
  lemma TaggedTail(fills: seq<string>, bodies: seq<string>)
    requires |fills| == |bodies| + 1 && bodies != []
    requires PlainFills(fills) && OpenBodies(bodies)
    ensures PlainFills(fills[1..]) && OpenBodies(bodies[1..])
  {
    forall i | 0 <= i < |fills| - 1 ensures '<' !in fills[1..][i] { assert fills[1..][i] == fills[i + 1]; }
    forall i | 0 <= i < |bodies| - 1 ensures NoCloser(bodies[1..][i]) { assert bodies[1..][i] == bodies[i + 1]; }
  }

  /** Tagged text is laid out as its plain texts and tags. */
  lemma {:induction false} TaggedIsLaidOut(s: string, p: nat, fills: seq<string>, bodies: seq<string>)
    requires |fills| == |bodies| + 1 && p <= |s| && s[p..] == Tagged(fills, bodies)
    requires PlainFills(fills) && OpenBodies(bodies)
    ensures LaidOut(s, p, fills, bodies) && BodiesAt(s, p, fills, bodies)
    decreases |bodies|
  {
    var f := fills[0];
    if bodies == [] {
      SuffixSplit(s, p, f, "");
      FillHasNoBracket(s, p, f);
    } else {
      var b := bodies[0];
      var rest := Tagged(fills[1..], bodies[1..]);
      SuffixSplit(s, p, f, Opener + (b + (Closer + rest)));
      FillHasNoBracket(s, p, f);
      SuffixSplit(s, p + |f|, Opener, b + (Closer + rest));
      SuffixSplit(s, p + |f| + |Opener|, b, Closer + rest);
      SuffixSplit(s, p + |f| + |Opener| + |b|, Closer, rest);
      TaggedTail(fills, bodies);
      ClosedTagAt(s, p + |f|, b);
      TaggedIsLaidOut(s, p + |f| + |Opener| + |b| + |Closer|, fills[1..], bodies[1..]);
    }
  }

  /** One file resource of kind "file" per name, at `execDir / name`. */
  function FilesAt(execDir: string, names: seq<string>): (r: seq<Resource>)
    ensures |r| == |names|
    ensures forall i :: 0 <= i < |names| ==> r[i] == Resource(FileKind, Child(execDir, names[i]))
  {
    seq(|names|, i requires 0 <= i < |names| => Resource(FileKind, Child(execDir, names[i])))
  }

  /** Extraction inverts tagging: every tagged body comes back, in order,
      as a file resource under the execution directory, untrimmed. */
  lemma ExtractTagged(fills: seq<string>, bodies: seq<string>, execDir: string)
    requires |fills| == |bodies| + 1
    requires PlainFills(fills) && OpenBodies(bodies)
    ensures ExtractOutputFiles(Tagged(fills, bodies), execDir) == FilesAt(execDir, bodies)
  {
    var s := Tagged(fills, bodies);
    assert s[0..] == s;
    TaggedIsLaidOut(s, 0, fills, bodies);
    ScanLaidOut(s, 0, fills, bodies);
    ExtractIsFullScan(s, execDir);
  }

  /** The worked example: two tags between plain text give two resources,
      in order of appearance. */
  lemma TwoTagExample()
    ensures ExtractOutputFiles("a" + Opener + "out/x.txt" + Closer + "b" + Opener + "out/y.csv" + Closer + "c", "/tmp/e")
         == [Resource(FileKind, Child("/tmp/e", "out/x.txt")), Resource(FileKind, Child("/tmp/e", "out/y.csv"))]
  {
    var fills, bodies := ["a", "b", "c"], ["out/x.txt", "out/y.csv"];
    assert fills[1..] == ["b", "c"] && bodies[1..] == ["out/y.csv"];
    assert fills[1..][1..] == ["c"] && bodies[1..][1..] == [];
    assert Tagged(fills, bodies) == "a" + Opener + "out/x.txt" + Closer + "b" + Opener + "out/y.csv" + Closer + "c";
    NoBracketNoCloser(bodies[0]);
    NoBracketNoCloser(bodies[1]);
    ExtractTagged(fills, bodies, "/tmp/e");
  }

  // ---------------------------------------------------------------------
  // The scripted Docker client

  /** An image as `images.list()` reports it; a missing tag list and an
      empty one are both kept as []. */
  datatype Image = Image(repoTags: seq<string>)

  /** One entry of the build log stream; `stream` is None when the entry
      has no "stream" key. */
  datatype BuildLine = BuildLine(stream: Option<string>)

  /** An exception a Docker call raises: a `TimeoutError`, or any other
      exception with the text `str(e)` shows. */
  datatype Exc = TimeoutError | OtherError(message: string)

  datatype Call = Succeeds | Raises(exc: Exc)

  /** How the bounded wait ends: the container exits, the deadline passes
      (or the wait itself raises `TimeoutError`), or another exception. */
  datatype WaitOutcome = Exited(statusCode: int) | TimedOut | WaitRaises(message: string)

  datatype LogOutcome = Chunks(chunks: seq<string>) | LogRaises(exc: Exc)

  /** How each call on the one-shot container turns out. */
  datatype ContainerScript = ContainerScript(create: Call, start: Call, wait: WaitOutcome, kill: Call, log: LogOutcome, delete: Call)

  /** The configured network mode: "bridge", "host" or "none". */
  datatype NetworkMode = Bridge | Host | NoNetwork

  /** The creation request: image, bind mounts and host settings. */
  datatype ContainerConfig = ContainerConfig(image: string, binds: seq<string>, autoRemove: bool, networkMode: NetworkMode, memory: nat, pidsLimit: nat)

  /** A call the client received. Reading an entry of the build stream is
      one `ReadBuildLine`; reaching the end of the stream records nothing. */
  datatype Op =
    | ListImages
    | SubmitBuild(tag: string)
    | ReadBuildLine
    | CreateContainer(config: ContainerConfig)
    | StartContainer
    | WaitContainer
    | KillContainer
    | ReadLog
    | DeleteContainer

  /** The mutable part of the client: how many listings and builds it has
      served, the unread rest of the current build stream, and its trace. */
  datatype ClientState = ClientState(listed: nat, built: nat, pending: seq<BuildLine>, trace: seq<Op>)

  function Record(st: ClientState, ops: seq<Op>): (r: ClientState)
    ensures r.trace == st.trace + ops
    ensures r.listed == st.listed && r.built == st.built && r.pending == st.pending
  {
    st.(trace := st.trace + ops)
  }

  /** A stand-in for `aiodocker.Docker`: the `k`-th image listing returns
      `listings[k]`, the `k`-th build streams `builds[k]`, and the container
      behaves as `container` says. Every call is appended to `trace`. */
  class DockerClient {
    const listings: seq<seq<Image>>
    const builds: seq<seq<BuildLine>>
    const container: ContainerScript
    var listed: nat
    var built: nat
    var pending: seq<BuildLine>
    var trace: seq<Op>

    constructor (listings: seq<seq<Image>>, builds: seq<seq<BuildLine>>, container: ContainerScript)
      ensures this.listings == listings && this.builds == builds && this.container == container
      ensures State() == ClientState(0, 0, [], [])
    {
      this.listings := listings;
      this.builds := builds;
      this.container := container;
      listed, built, pending, trace := 0, 0, [], [];
    }

    function State(): ClientState
      reads this
    {
      ClientState(listed, built, pending, trace)
    }

    /** `images.list()`. */
    method ListImages() returns (images: seq<Image>)
      modifies this
      ensures images == ScriptAt(listings, old(listed))
      ensures State() == old(State()).(listed := old(listed) + 1, trace := old(trace) + [Op.ListImages])
    {
      images := ScriptAt(listings, listed);
      listed := listed + 1;
      trace := trace + [Op.ListImages];
    }

    /** `images.build(..., tag=tag, stream=True)`: the new stream replaces
      whatever was left of the previous one. */
    method SubmitBuild(tag: string)
      modifies this
      ensures State() == old(State()).(built := old(built) + 1, pending := ScriptAt(builds, old(built)), trace := old(trace) + [Op.SubmitBuild(tag)])
    {
      pending := ScriptAt(builds, built);
      built := built + 1;
      trace := trace + [Op.SubmitBuild(tag)];
    }

    /** The next entry of the build stream, or None at its end. */
    method NextBuildLine() returns (line: Option<BuildLine>)
      modifies this
      ensures old(pending) == [] ==> line == None && State() == old(State())
      ensures old(pending) != [] ==> line == Some(old(pending)[0]) && State() == old(State()).(pending := old(pending)[1..], trace := old(trace) + [ReadBuildLine])
    {
      if pending == [] {
        line := None;
      } else {
        line := Some(pending[0]);
        pending := pending[1..];
        trace := trace + [ReadBuildLine];
      }
    }

    method CreateContainer(config: ContainerConfig) returns (c: Call)
      modifies this
      ensures c == container.create && State() == Record(old(State()), [Op.CreateContainer(config)])
    {
      c := container.create;
      trace := trace + [Op.CreateContainer(config)];
    }

    method StartContainer() returns (c: Call)
      modifies this
      ensures c == container.start && State() == Record(old(State()), [Op.StartContainer])
    {
      c := container.start;
      trace := trace + [Op.StartContainer];
    }

    method WaitContainer() returns (w: WaitOutcome)
      modifies this
      ensures w == container.wait && State() == Record(old(State()), [Op.WaitContainer])
    {
      w := container.wait;
      trace := trace + [Op.WaitContainer];
    }

    method KillContainer() returns (c: Call)
      modifies this
      ensures c == container.kill && State() == Record(old(State()), [Op.KillContainer])
    {
      c := container.kill;
      trace := trace + [Op.KillContainer];
    }

    method ReadLog() returns (l: LogOutcome)
      modifies this
      ensures l == container.log && State() == Record(old(State()), [Op.ReadLog])
    {
      l := container.log;
      trace := trace + [Op.ReadLog];
    }

    method DeleteContainer() returns (c: Call)
      modifies this
      ensures c == container.delete && State() == Record(old(State()), [Op.DeleteContainer])
    {
      c := container.delete;
      trace := trace + [Op.DeleteContainer];
    }
  }

  // ---------------------------------------------------------------------
  // Image provisioning: `_build_image`

  const DefaultRetry: nat := 3
  const BuildFailedMessage: string := "镜像构建失败！"

  /** The tag the cache check compares: the first RepoTag, or "" for an
      image without tags. */
  function FirstTag(image: Image): (t: string)
    ensures image.repoTags != [] ==> t == image.repoTags[0]
    ensures image.repoTags == [] ==> t == ""
  {
    if image.repoTags != [] then image.repoTags[0] else ""
  }

  /** Some listed image carries `ref` as its first tag. */
  predicate CacheHit(images: seq<Image>, ref: string)
  {
    exists j :: 0 <= j < |images| && FirstTag(images[j]) == ref
  }

  /** The reference the check compares against is never empty, so an image
      without tags never hits: the listing hits exactly when some image has
      tags and its first one is the reference. */
  lemma CacheHitIff(images: seq<Image>, v: Variant)
    ensures CacheHit(images, ImageRef(v))
      <==> exists j :: 0 <= j < |images| && images[j].repoTags != [] && images[j].repoTags[0] == ImageRef(v)
  {
    assert ImageRef(v)[0] == ImageTag[0];
  }

  /** A build-log entry reports a failure: it has a "stream" whose text
      contains "Exception" or "Error" (case-sensitive). */
  predicate IsFailureLine(line: BuildLine)
  {
    line.stream.Some? && (Contains(line.stream.value, "Exception") || Contains(line.stream.value, "Error"))
  }

  /** Entries without a "stream" key never count as failures. */
  lemma EntryWithoutStreamIsSkipped(line: BuildLine)
    requires line.stream.None?
    ensures !IsFailureLine(line)
  {
  }

  /** A stream entry is a failure exactly when one of the two words occurs
      in its text. */
  lemma FailureLineIff(text: string)
    ensures IsFailureLine(BuildLine(Some(text))) <==> (exists q :: At(text, "Exception", q)) || (exists q :: At(text, "Error", q))
  {
    ContainsIff(text, "Exception");
    ContainsIff(text, "Error");
  }

  /** The test is case-sensitive: a lower-case "error" is no failure. */
  lemma LowerCaseErrorIsNoFailure()
    ensures !IsFailureLine(BuildLine(Some("error: retrying")))
  {
    NoFirstCharNoOccurrence("error: retrying", "Exception");
    NoFirstCharNoOccurrence("error: retrying", "Error");
  }

  /** `n` reads of the build stream. */
  function Reads(n: nat): (ops: seq<Op>)
    ensures |ops| == n && forall i :: 0 <= i < n ==> ops[i] == ReadBuildLine
  {
    seq(n, _ => ReadBuildLine)
  }

  /** What provisioning works with: the reference it looks for and builds,
      the scripted listings and build streams, and the test that marks a
      build-log entry as a failure (`IsFailureLine` in the engine). The
      lemmas below hold for any such test. */
  datatype Provision = Provision(ref: string, listings: seq<seq<Image>>, builds: seq<seq<BuildLine>>, fails: BuildLine -> bool)

  /** The build stream submitted in state `st`. */
  function StreamAt(pv: Provision, st: ClientState): seq<BuildLine>
  {
    ScriptAt(pv.builds, st.built)
  }

  /** The listing in state `st` has a cached image. */
  predicate HitAt(pv: Provision, st: ClientState)
  {
    CacheHit(ScriptAt(pv.listings, st.listed), pv.ref)
  }

  /** The build stream submitted in state `st` contains a failure entry. */
  predicate FailsAt(pv: Provision, st: ClientState)
  {
    FirstIndex(StreamAt(pv, st), pv.fails) >= 0
  }

  /** How many entries an attempt reads from its stream: up to and
      including the first failure, or all of them. */
  function ReadCount(pv: Provision, st: ClientState): (n: nat)
    ensures n <= |StreamAt(pv, st)|
  {
    var f := FirstIndex(StreamAt(pv, st), pv.fails);
    if f < 0 then |StreamAt(pv, st)| else f + 1
  }

  /** The state after an attempt that hits the cache: one listing. */
  function AfterHit(st: ClientState): (r: ClientState)
    ensures r.trace == st.trace + [ListImages] && r.listed == st.listed + 1
    ensures r.built == st.built && r.pending == st.pending
  {
    st.(listed := st.listed + 1, trace := st.trace + [ListImages])
  }

  /** The state after an attempt that misses the cache: one listing, one
      build, and the stream read up to its first failure (or to its end),
      the rest left unread. */
  function AfterAttempt(pv: Provision, st: ClientState): (r: ClientState)
    ensures r.listed == st.listed + 1 && r.built == st.built + 1
    ensures r.trace == st.trace + [ListImages, SubmitBuild(pv.ref)] + Reads(ReadCount(pv, st))
    ensures r.pending == StreamAt(pv, st)[ReadCount(pv, st)..]
  {
    var n := ReadCount(pv, st);
    ClientState(st.listed + 1, st.built + 1, StreamAt(pv, st)[n..], st.trace + [ListImages, SubmitBuild(pv.ref)] + Reads(n))
  }

  datatype BuildResult = BuildResult(state: ClientState, raised: bool)

  /** What `_build_image(retry)` does to the client from state `st`: list
      the images; on a cache hit stop; otherwise submit a build and read its
      stream up to the first failure; without one stop; with one raise when
      no retries are left, else start over with one retry fewer. */
  function BuildFrom(pv: Provision, retry: nat, st: ClientState): (r: BuildResult)
    decreases retry
  {
    if HitAt(pv, st) then BuildResult(AfterHit(st), false)
    else if !FailsAt(pv, st) then BuildResult(AfterAttempt(pv, st), false)
    else if retry == 0 then BuildResult(AfterAttempt(pv, st), true)
    else BuildFrom(pv, retry - 1, AfterAttempt(pv, st))
  }

  /** A cache hit ends provisioning after the listing: no build is
      submitted and nothing is raised. */
  lemma CacheHitSkipsBuild(pv: Provision, retry: nat, st: ClientState)
    requires CacheHit(ScriptAt(pv.listings, st.listed), pv.ref)
    ensures BuildFrom(pv, retry, st) == BuildResult(AfterHit(st), false)
    ensures BuildFrom(pv, retry, st).state.trace == st.trace + [ListImages]
  {
  }

  /** A build stream without a failure entry is read to its end and
      provisioning completes without raising. */
  lemma CleanStreamCompletes(pv: Provision, retry: nat, st: ClientState)
    requires !CacheHit(ScriptAt(pv.listings, st.listed), pv.ref)
    requires forall j :: 0 <= j < |StreamAt(pv, st)| ==> !pv.fails(StreamAt(pv, st)[j])
    ensures var r := BuildFrom(pv, retry, st);
      && !r.raised
      && r.state.trace == st.trace + [ListImages, SubmitBuild(pv.ref)] + Reads(|StreamAt(pv, st)|)
      && r.state.pending == []
      && r.state.built == st.built + 1
  {
    FirstIndexNone(StreamAt(pv, st), pv.fails);
  }

  /** At a failure entry with no retry left, reading stops there and the
      build raises. */
  lemma LastFailureRaises(pv: Provision, st: ClientState, f: nat)
    requires !CacheHit(ScriptAt(pv.listings, st.listed), pv.ref)
    requires f < |StreamAt(pv, st)| && pv.fails(StreamAt(pv, st)[f])
    requires forall j :: 0 <= j < f ==> !pv.fails(StreamAt(pv, st)[j])
    ensures var r := BuildFrom(pv, 0, st);
      && r.raised
      && r.state.trace == st.trace + [ListImages, SubmitBuild(pv.ref)] + Reads(f + 1)
  {
    FirstIndexAt(StreamAt(pv, st), pv.fails, f);
  }

  /** An attempt that misses the cache and fails is followed by the next
      attempt, with one retry fewer. */
  lemma RetryStep(pv: Provision, retry: nat, st: ClientState)
    requires retry > 0 && !HitAt(pv, st) && FailsAt(pv, st)
    ensures BuildFrom(pv, retry, st) == BuildFrom(pv, retry - 1, AfterAttempt(pv, st))
  {
  }

  /** Every run of provisioning starts with an image listing and only
      extends the trace. */
  lemma {:induction false} BuildStartsWithListing(pv: Provision, retry: nat, st: ClientState)
    decreases retry
    ensures st.trace + [ListImages] <= BuildFrom(pv, retry, st).state.trace
  {
    if !HitAt(pv, st) && FailsAt(pv, st) && retry > 0 {
      var next := AfterAttempt(pv, st);
      RetryStep(pv, retry, st);
      BuildStartsWithListing(pv, retry - 1, next);
      var t := BuildFrom(pv, retry - 1, next).state.trace;
      assert next.trace[..|st.trace| + 1] == st.trace + [ListImages];
      assert t[..|st.trace| + 1] == next.trace[..|st.trace| + 1];
    }
  }

  /** At a failure entry with retries left, reading stops right after it:
      the rest of the stream is abandoned and provisioning starts over from
      the cache check with one retry fewer. */
  lemma FailureRestarts(pv: Provision, retry: nat, st: ClientState, f: nat)
    requires retry > 0
    requires !CacheHit(ScriptAt(pv.listings, st.listed), pv.ref)
    requires f < |StreamAt(pv, st)| && pv.fails(StreamAt(pv, st)[f])
    requires forall j :: 0 <= j < f ==> !pv.fails(StreamAt(pv, st)[j])
    ensures var next := AfterAttempt(pv, st);
      && next.trace == st.trace + [ListImages, SubmitBuild(pv.ref)] + Reads(f + 1)
      && next.pending == StreamAt(pv, st)[f + 1..]
      && BuildFrom(pv, retry, st) == BuildFrom(pv, retry - 1, next)
      && next.trace + [ListImages] <= BuildFrom(pv, retry, st).state.trace
  {
    FirstIndexAt(StreamAt(pv, st), pv.fails, f);
    RetryStep(pv, retry, st);
    BuildStartsWithListing(pv, retry - 1, AfterAttempt(pv, st));
  }

  /** At most `retry + 1` builds are submitted and images are listed at
      most `retry + 1` times. */
  lemma {:induction false} BuildsBounded(pv: Provision, retry: nat, st: ClientState)
    decreases retry
    ensures var r := BuildFrom(pv, retry, st);
      && st.built <= r.state.built <= st.built + retry + 1
      && st.listed < r.state.listed <= st.listed + retry + 1
  {
    if !HitAt(pv, st) && FailsAt(pv, st) && retry > 0 {
      RetryStep(pv, retry, st);
      BuildsBounded(pv, retry - 1, AfterAttempt(pv, st));
    }
  }

  /** Attempt `a` (counting from 0) of provisioning started in state `st`
      misses the cache and meets a failure. Each failed attempt lists once
      and builds once, so attempt `a` sees listing `st.listed + a` and
      stream `st.built + a`. */
  predicate AttemptFails(pv: Provision, st: ClientState, a: nat)
  {
    && !CacheHit(ScriptAt(pv.listings, st.listed + a), pv.ref)
    && FirstIndex(ScriptAt(pv.builds, st.built + a), pv.fails) >= 0
  }

  /** Attempts `0..n` from `st` all miss the cache and fail. */
  predicate AllAttemptsFail(pv: Provision, st: ClientState, n: nat)
  {
    forall a :: 0 <= a <= n ==> AttemptFails(pv, st, a)
  }

  /** Attempt `a + 1` from `st` is attempt `a` from the state after the first. */
  lemma AttemptShift(pv: Provision, st: ClientState, a: nat)
    ensures AttemptFails(pv, AfterAttempt(pv, st), a) == AttemptFails(pv, st, a + 1)
  {
  }

  /** All of attempts `0..n+1` fail exactly when the first does and, after
      it, all of the next `0..n`. */
  lemma AllAttemptsFailStep(pv: Provision, st: ClientState, n: nat)
    ensures AllAttemptsFail(pv, st, n + 1) <==> AttemptFails(pv, st, 0) && AllAttemptsFail(pv, AfterAttempt(pv, st), n)
  {
    var next := AfterAttempt(pv, st);
    forall a | 0 <= a <= n ensures AttemptFails(pv, next, a) == AttemptFails(pv, st, a + 1) {
      AttemptShift(pv, st, a);
    }
    if AttemptFails(pv, st, 0) && AllAttemptsFail(pv, next, n) {
      forall a | 0 <= a <= n + 1 ensures AttemptFails(pv, st, a) {
        if a > 0 {
          assert AttemptFails(pv, next, a - 1);
        }
      }
    }
  }

  /** Provisioning raises exactly when every one of its `retry + 1`
      attempts misses the cache and meets a failure. */
  lemma {:induction false} BuildRaisesIffEveryAttemptFails(pv: Provision, retry: nat, st: ClientState)
    decreases retry
    ensures BuildFrom(pv, retry, st).raised <==> AllAttemptsFail(pv, st, retry)
  {
    assert AttemptFails(pv, st, 0) <==> !HitAt(pv, st) && FailsAt(pv, st);
    if retry > 0 {
      AllAttemptsFailStep(pv, st, retry - 1);
      if !HitAt(pv, st) && FailsAt(pv, st) {
        RetryStep(pv, retry, st);
        BuildRaisesIffEveryAttemptFails(pv, retry - 1, AfterAttempt(pv, st));
      }
    }
  }

  // ---------------------------------------------------------------------
  // The one-shot container: `run_sandbox`

  const ErrorPrefix: string := "❌ Error: "
  const TimeoutReply: string := "❌ Error: 容器操作超时..."
  const MemoryLimit: nat := 128 * 1024 * 1024
  const PidsLimit: nat := 32

  /** What `run_sandbox` hands back: the build's `RuntimeError`, with its
      message, propagates; every other outcome is a (log, outputs) pair. */
  datatype SandboxOutcome = BuildRaised(message: string) | Returned(log: string, outputs: seq<Resource>)

  /** The creation request: the engine's image, the host directory bound
      read-write at /workspace, no auto-removal, the configured network,
      128 MiB of memory and at most 32 processes. */
  function CreateConfig(v: Variant, hostPath: string, network: NetworkMode): (cfg: ContainerConfig)
    ensures cfg.image == ImageRef(v) && cfg.binds == [hostPath + ":/workspace:rw"]
    ensures !cfg.autoRemove && cfg.networkMode == network
    ensures cfg.memory == 134217728 && cfg.pidsLimit == 32
  {
    ContainerConfig(ImageRef(v), [hostPath + ":/workspace:rw"], false, network, MemoryLimit, PidsLimit)
  }

  /** The reply for an exception caught around the container calls: a
      fixed text for `TimeoutError`, the exception's text otherwise, and
      never any outputs. */
  function ErrorReply(e: Exc): (r: SandboxOutcome)
    ensures r.Returned? && r.outputs == []
    ensures e.TimeoutError? ==> r.log == TimeoutReply
    ensures e.OtherError? ==> r.log == ErrorPrefix + e.message
  {
    match e
    case TimeoutError => Returned(TimeoutReply, [])
    case OtherError(m) => Returned(ErrorPrefix + m, [])
  }

  /** Every error reply begins with the error prefix, carries no outputs,
      and after another exception the rest of the reply is exactly its text. */
  lemma ErrorReplyShape(e: Exc)
    ensures var r := ErrorReply(e);
      && r.Returned? && r.outputs == []
      && ErrorPrefix <= r.log
      && (e.OtherError? ==> r.log[|ErrorPrefix|..] == e.message)
  {
    assert TimeoutReply == ErrorPrefix + "容器操作超时...";
  }

  /** The runtime reads a bind as source, target and mode separated by
      ':'; a source without ':' splits back out of the bind string. */
  lemma BindSplitsBack(host: string)
    requires ':' !in host
    ensures Split(host + ":/workspace:rw", ':') == [host, "/workspace", "rw"]
  {
    var parts := [host, "/workspace", "rw"];
    assert parts[1..][1..] == ["rw"];
    assert Join(parts[1..], ":") == "/workspace" + ":" + "rw";
    assert host + ":/workspace:rw" == host + ":" + ("/workspace" + ":" + "rw");
    SplitJoin(parts, ':');
  }

  /** The Windows translation of a path without ':' in its parts splits
      back out of the container's bind: source, "/workspace", "rw". */
  lemma WindowsBindSplitsBack(v: Variant, path: Utils.ResolvedPath, network: NetworkMode)
    requires forall i :: 1 <= i < |path.parts| ==> ':' !in path.parts[i]
    ensures var host := Utils.ConvertPathToWsl(Utils.Windows, path);
      Split(CreateConfig(v, host, network).binds[0], ':') == [host, "/workspace", "rw"]
  {
    Utils.WslPathHasNoColon(path);
    BindSplitsBack(Utils.ConvertPathToWsl(Utils.Windows, path));
  }

  /** The log text: the chunks concatenated, or the variant's placeholder
      when the container returned no chunks at all. */
  function LogText(v: Variant, chunks: seq<string>): string
  {
    if chunks == [] then EmptyLog(v) else Join(chunks, "")
  }

  datatype RunResult = RunResult(ops: seq<Op>, outcome: SandboxOutcome)

  /** The calls from fetching the log on, and what the run returns: the
      log, output extraction, delete. */
  function Collect(v: Variant, c: ContainerScript, execDir: string): RunResult
  {
    if c.log.LogRaises? then RunResult([ReadLog], ErrorReply(c.log.exc))
    else
      var log := LogText(v, c.log.chunks);
      if c.delete.Raises? then RunResult([ReadLog, DeleteContainer], ErrorReply(c.delete.exc))
      else RunResult([ReadLog, DeleteContainer], Returned(log, ExtractOutputFiles(log, execDir)))
  }

  /** The calls from the bounded wait on, and what the run returns: a
      wait that raises ends the run; after a timeout the container is
      killed, and whether the kill succeeds is ignored; then `Collect`. */
  function AfterStart(v: Variant, c: ContainerScript, execDir: string): RunResult
  {
    if c.wait.WaitRaises? then RunResult([WaitContainer], ErrorReply(OtherError(c.wait.message)))
    else
      var rest := Collect(v, c, execDir);
      RunResult([WaitContainer] + (if c.wait.TimedOut? then [KillContainer] else []) + rest.ops, rest.outcome)
  }

  /** The container calls of `run_sandbox` and what it returns, given how
      each call turns out: create, start, then `AfterStart`; the first call
      that raises ends the run with an error reply. */
  function ContainerRun(v: Variant, config: ContainerConfig, c: ContainerScript, execDir: string): RunResult
  {
    if c.create.Raises? then RunResult([CreateContainer(config)], ErrorReply(c.create.exc))
    else if c.start.Raises? then RunResult([CreateContainer(config), StartContainer], ErrorReply(c.start.exc))
    else
      var rest := AfterStart(v, c, execDir);
      RunResult([CreateContainer(config), StartContainer] + rest.ops, rest.outcome)
  }

  /** Every container call succeeds (the kill aside, which never matters). */
  predicate Completes(c: ContainerScript)
  {
    c.create.Succeeds? && c.start.Succeeds? && !c.wait.WaitRaises? && c.log.Chunks? && c.delete.Succeeds?
  }

  /** The exception of the first container call that raises. */
  function FirstError(c: ContainerScript): Exc
    requires !Completes(c)
  {
    if c.create.Raises? then c.create.exc
    else if c.start.Raises? then c.start.exc
    else if c.wait.WaitRaises? then OtherError(c.wait.message)
    else if c.log.LogRaises? then c.log.exc
    else c.delete.exc
  }

  /** The calls of a run that goes all the way: create, start, wait, a kill
      only after a timeout, log, delete. */
  function FullLifecycle(config: ContainerConfig, timedOut: bool): (ops: seq<Op>)
    ensures |ops| >= 5 && ops[0] == CreateContainer(config) && ops[|ops| - 1] == DeleteContainer
  {
    [CreateContainer(config), StartContainer, WaitContainer] + (if timedOut then [KillContainer] else []) + [ReadLog, DeleteContainer]
  }

  /** The calls of a run, case by case: each run stops right after the
      first call that raises. */
  lemma RunOps(v: Variant, config: ContainerConfig, c: ContainerScript, execDir: string)
    ensures var ops := ContainerRun(v, config, c, execDir).ops;
      var full := FullLifecycle(config, c.wait.TimedOut?);
      var kills := if c.wait.TimedOut? then 1 else 0;
      && (c.create.Raises? ==> ops == full[..1])
      && (c.create.Succeeds? && c.start.Raises? ==> ops == full[..2])
      && (c.create.Succeeds? && c.start.Succeeds? && c.wait.WaitRaises? ==> ops == full[..3])
      && (c.create.Succeeds? && c.start.Succeeds? && !c.wait.WaitRaises? && c.log.LogRaises? ==> ops == full[..4 + kills])
      && (c.create.Succeeds? && c.start.Succeeds? && !c.wait.WaitRaises? && c.log.Chunks? ==> ops == full)
  {
    var full := FullLifecycle(config, c.wait.TimedOut?);
    var kill: seq<Op> := if c.wait.TimedOut? then [KillContainer] else [];
    if c.create.Raises? {
      assert full[..1] == [CreateContainer(config)];
    } else if c.start.Raises? {
      assert full[..2] == [CreateContainer(config), StartContainer];
    } else if c.wait.WaitRaises? {
      assert full[..3] == [CreateContainer(config), StartContainer, WaitContainer];
    } else if c.log.LogRaises? {
      assert full[..4 + |kill|] == [CreateContainer(config), StartContainer, WaitContainer] + kill + [ReadLog];
    } else {
      assert Collect(v, c, execDir).ops == [ReadLog, DeleteContainer];
    }
  }

  /** The calls are always a non-empty prefix of the full lifecycle, in
      that order: the container is created first and nothing is skipped. */
  lemma RunFollowsLifecycle(v: Variant, config: ContainerConfig, c: ContainerScript, execDir: string)
    ensures var ops := ContainerRun(v, config, c, execDir).ops;
      |ops| >= 1 && ops <= FullLifecycle(config, c.wait.TimedOut?)
  {
    RunOps(v, config, c, execDir);
  }

  /** The container is killed exactly when it was created and started and
      the wait timed out. */
  lemma KillIffTimedOut(v: Variant, config: ContainerConfig, c: ContainerScript, execDir: string)
    ensures KillContainer in ContainerRun(v, config, c, execDir).ops
      <==> c.create.Succeeds? && c.start.Succeeds? && c.wait.TimedOut?
  {
    var ops := ContainerRun(v, config, c, execDir).ops;
    if c.create.Succeeds? && c.start.Succeeds? && c.wait.TimedOut? {
      assert ops[3] == KillContainer;
    }
  }

  /** Whether the kill after a timeout succeeds changes nothing. */
  lemma KillOutcomeIgnored(v: Variant, config: ContainerConfig, c: ContainerScript, kill: Call, execDir: string)
    ensures ContainerRun(v, config, c.(kill := kill), execDir) == ContainerRun(v, config, c, execDir)
  {
  }

  /** The container is deleted exactly when its log was fetched, and a
      run that deletes it has made every call of the lifecycle, the
      deletion last; the error paths before it leave the container in
      place. */
  lemma DeleteIffLogFetched(v: Variant, config: ContainerConfig, c: ContainerScript, execDir: string)
    ensures var ops := ContainerRun(v, config, c, execDir).ops;
      && (DeleteContainer in ops <==> c.create.Succeeds? && c.start.Succeeds? && !c.wait.WaitRaises? && c.log.Chunks?)
      && (DeleteContainer in ops ==> ops == FullLifecycle(config, c.wait.TimedOut?))
  {
    RunOps(v, config, c, execDir);
    var full := FullLifecycle(config, c.wait.TimedOut?);
    var k := if c.wait.TimedOut? then 1 else 0;
    assert forall i :: 0 <= i < 4 + k ==> full[i] != DeleteContainer;
  }

  /** A run that completes returns the log and what was extracted from it;
      otherwise it returns the reply for the first exception, with no
      outputs. */
  lemma RunOutcome(v: Variant, config: ContainerConfig, c: ContainerScript, execDir: string)
    ensures var r := ContainerRun(v, config, c, execDir).outcome;
      && r.Returned?
      && (Completes(c) ==> r == Returned(LogText(v, c.log.chunks), ExtractOutputFiles(LogText(v, c.log.chunks), execDir)))
      && (!Completes(c) ==> r == ErrorReply(FirstError(c)) && r.outputs == [])
  {
  }

  /** A container that prints nothing yields the variant's placeholder log
      and no outputs. */
  lemma SilentContainer(v: Variant, config: ContainerConfig, c: ContainerScript, execDir: string)
    requires Completes(c) && c.log.chunks == []
    ensures ContainerRun(v, config, c, execDir).outcome == Returned(EmptyLog(v), [])
  {
    NoFirstCharNoOccurrence(EmptyLog(v), Opener);
    NoOpenerNoOutputs(EmptyLog(v), execDir);
  }

  /** What `run_sandbox` returns and the client's state afterwards: the
      image is provisioned first, outside the `try`, so a failed build
      propagates and no container is created; otherwise the container run. */
  datatype SandboxEffect = SandboxEffect(outcome: SandboxOutcome, state: ClientState)

  function SandboxRun(v: Variant, network: NetworkMode, pv: Provision, c: ContainerScript, hostPath: string, execDir: string, st: ClientState): SandboxEffect
  {
    var b := BuildFrom(pv, DefaultRetry, st);
    if b.raised then SandboxEffect(BuildRaised(BuildFailedMessage), b.state)
    else
      var run := ContainerRun(v, CreateConfig(v, hostPath, network), c, execDir);
      SandboxEffect(run.outcome, Record(b.state, run.ops))
  }

  /** `run_sandbox` raises exactly when provisioning raises, with the
      build's message: every failure of the container calls becomes an
      error reply instead. */
  lemma SandboxRaisesIffBuildRaises(v: Variant, network: NetworkMode, pv: Provision, c: ContainerScript, hostPath: string, execDir: string, st: ClientState)
    ensures var r := SandboxRun(v, network, pv, c, hostPath, execDir, st);
      && (r.outcome.BuildRaised? <==> BuildFrom(pv, DefaultRetry, st).raised)
      && (r.outcome.BuildRaised? ==> r.state == BuildFrom(pv, DefaultRetry, st).state)
      && (r.outcome.BuildRaised? ==> r.outcome.message == BuildFailedMessage)
  {
    RunOutcome(v, CreateConfig(v, hostPath, network), c, execDir);
  }

  /** The sandbox: which copy of the engine, the client it drives, and the
      configured network mode. */
  class Sandbox {
    const variant: Variant
    const client: DockerClient
    const network: NetworkMode

    constructor (variant: Variant, client: DockerClient, network: NetworkMode)
      ensures this.variant == variant && this.client == client && this.network == network
    {
      this.variant := variant;
      this.client := client;
      this.network := network;
    }

    /** The cache check of `_build_image`: whether some listed image has
        the engine's reference as its first tag. */
    method FindCachedImage(images: seq<Image>) returns (hit: bool)
      ensures hit <==> CacheHit(images, ImageRef(variant))
    {
      var i := 0;
      while i < |images|
        invariant 0 <= i <= |images|
        invariant forall j :: 0 <= j < i ==> FirstTag(images[j]) != ImageRef(variant)
      {
        if FirstTag(images[i]) == ImageRef(variant) {
          return true;
        }
        i := i + 1;
      }
      return false;
    }

    /** The `async for` over the build stream: skip entries without a
        "stream", stop at the first failure; `failed` tells whether one was
        met. */
    method ReadBuildLog() returns (failed: bool)
      modifies client
      ensures var stream := old(client.pending);
        var f := FirstIndex(stream, IsFailureLine);
        var n := if f < 0 then |stream| else f + 1;
        && failed == (f >= 0)
        && client.State() == old(client.State()).(pending := stream[n..], trace := old(client.trace) + Reads(n))
    {
      ghost var stream := client.pending;
      ghost var n := 0;
      while true
        invariant 0 <= n <= |stream| && client.pending == stream[n..]
        invariant forall j :: 0 <= j < n ==> !IsFailureLine(stream[j])
        invariant client.listed == old(client.listed) && client.built == old(client.built)
        invariant client.trace == old(client.trace) + Reads(n)
        decreases |client.pending|
      {
        var line := client.NextBuildLine();
        if line.None? {
          assert n == |stream|;
          FirstIndexNone(stream, IsFailureLine);
          return false;
        }
        assert line.value == stream[n];
        assert Reads(n) + [ReadBuildLine] == Reads(n + 1);
        n := n + 1;
        if IsFailureLine(line.value) {
          FirstIndexAt(stream, IsFailureLine, n - 1);
          return true;
        }
      }
    }

    /** What this sandbox provisions with: its image reference, the
        client's scripts and the engine's failure test. */
    function Provisioning(): Provision
    {
      Provision(ImageRef(variant), client.listings, client.builds, IsFailureLine)
    }

    /** One pass of `_build_image` up to the retry decision: list the
        images, and on a miss submit a build and read its log. */
    method Attempt() returns (hit: bool, failed: bool)
      modifies client
      ensures hit == HitAt(Provisioning(), old(client.State()))
      ensures hit ==> client.State() == AfterHit(old(client.State()))
      ensures !hit ==> failed == FailsAt(Provisioning(), old(client.State()))
      ensures !hit ==> client.State() == AfterAttempt(Provisioning(), old(client.State()))
    {
      ghost var st := client.State();
      var images := client.ListImages();
      hit := FindCachedImage(images);
      if hit {
        return hit, false;
      }
      client.SubmitBuild(ImageRef(variant));
      assert client.pending == StreamAt(Provisioning(), st);
      failed := ReadBuildLog();
    }

    /** `_build_image(total_retry)`; `raised` is the `RuntimeError` with
        `BuildFailedMessage`. */
    method BuildImage(totalRetry: nat) returns (raised: bool)
      modifies client
      decreases totalRetry
      ensures var r := BuildFrom(Provisioning(), totalRetry, old(client.State()));
        client.State() == r.state && raised == r.raised
    {
      ghost var pv, st := Provisioning(), client.State();
      var hit, failed := Attempt();
      if hit {
        assert BuildFrom(pv, totalRetry, st) == BuildResult(AfterHit(st), false);
        return false;
      }
      if !failed {
        assert BuildFrom(pv, totalRetry, st) == BuildResult(AfterAttempt(pv, st), false);
        return false;
      }
      if totalRetry == 0 {
        assert BuildFrom(pv, totalRetry, st) == BuildResult(AfterAttempt(pv, st), true);
        return true;
      }
      RetryStep(pv, totalRetry, st);
      raised := BuildImage(totalRetry - 1);
    }

    /** The `try` block of `run_sandbox` and its two handlers, on a
        container bound to `hostPath`. */
    method RunContainer(execDir: string, hostPath: string) returns (outcome: SandboxOutcome)
      modifies client
      ensures var run := ContainerRun(variant, CreateConfig(variant, hostPath, network), client.container, execDir);
        outcome == run.outcome && client.State() == Record(old(client.State()), run.ops)
    {
      var created := client.CreateContainer(CreateConfig(variant, hostPath, network));
      if created.Raises? {
        return ErrorReply(created.exc);
      }
      var started := client.StartContainer();
      if started.Raises? {
        return ErrorReply(started.exc);
      }
      outcome := AwaitAndCollect(execDir);
    }

    /** The inner `try` around the bounded wait, then the log. */
    method AwaitAndCollect(execDir: string) returns (outcome: SandboxOutcome)
      modifies client
      ensures var rest := AfterStart(variant, client.container, execDir);
        outcome == rest.outcome && client.State() == Record(old(client.State()), rest.ops)
    {
      var waited := client.WaitContainer();
      if waited.WaitRaises? {
        return ErrorReply(OtherError(waited.message));
      }
      if waited.TimedOut? {
        var _ := client.KillContainer();
      }
      outcome := CollectLog(execDir);
    }

    /** From `container.log(...)` to the return: join the chunks (or use
        the placeholder), extract the outputs, delete the container. */
    method CollectLog(execDir: string) returns (outcome: SandboxOutcome)
      modifies client
      ensures var rest := Collect(variant, client.container, execDir);
        outcome == rest.outcome && client.State() == Record(old(client.State()), rest.ops)
    {
      var logs := client.ReadLog();
      if logs.LogRaises? {
        return ErrorReply(logs.exc);
      }
      var log := if logs.chunks == [] then EmptyLog(variant) else Join(logs.chunks, "");
      var outputs := ExtractOutputFiles(log, execDir);
      var deleted := client.DeleteContainer();
      if deleted.Raises? {
        return ErrorReply(deleted.exc);
      }
      return Returned(log, outputs);
    }

    /** `run_sandbox(exec_dir)`: provision the image with the default
        retry budget (its failure propagates), then run the one-shot
        container on the host form of the directory. `resolved` is
        `exec_dir.resolve()` and `system` what the platform reports. */
    method RunSandbox(execDir: string, resolved: Utils.ResolvedPath, system: Utils.System) returns (outcome: SandboxOutcome)
      modifies client
      ensures SandboxEffect(outcome, client.State())
           == SandboxRun(variant, network, Provisioning(), client.container, Utils.ConvertPathToWsl(system, resolved), execDir, old(client.State()))
    {
      var raised := BuildImage(DefaultRetry);
      if raised {
        return BuildRaised(BuildFailedMessage);
      }
      var hostPath := Utils.ConvertPathToWsl(system, resolved);
      outcome := RunContainer(execDir, hostPath);
    }
  }
}
