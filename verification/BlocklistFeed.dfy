/** Sorted lists of distinct strings. */
module SortedLists {
  import opened Ordering

  /** Insert in code-unit order, unless it is there already. */
  function Insert(s: seq<string>, d: string): seq<string> {
    if s == [] then [d]
    else if s[0] == d then s
    else if Less(d, s[0]) then [d] + s
    else [s[0]] + Insert(s[1..], d)
  }

  lemma {:induction false} InsertMembers(s: seq<string>, d: string, x: string)
    ensures x in Insert(s, d) <==> x in s || x == d
  {
    if s != [] && s[0] != d && !Less(d, s[0]) {
      InsertMembers(s[1..], d, x);
      assert s == [s[0]] + s[1..];
    }
  }

  lemma {:induction false} InsertAscending(s: seq<string>, d: string)
    requires Ascending(s)
    ensures Ascending(Insert(s, d))
  {
    if s != [] && s[0] != d {
      AscendingTail(s);
      if Less(d, s[0]) {
        forall e | e in s ensures Less(d, e) {
          if e != s[0] {
            assert s == [s[0]] + s[1..];
            LessTransitive(d, s[0], e);
          }
        }
        AscendingCons(d, s);
      } else {
        LessTotal(d, s[0]);
        InsertAscending(s[1..], d);
        forall e | e in Insert(s[1..], d) ensures Less(s[0], e) {
          InsertMembers(s[1..], d, e);
        }
        AscendingCons(s[0], Insert(s[1..], d));
      }
    }
  }

  lemma {:induction false} HeadIsLeast(s: seq<string>, e: string)
    requires Ascending(s) && s != [] && e in s
    ensures e == s[0] || Less(s[0], e)
  {
    assert s == [s[0]] + s[1..];
  }

  lemma NotInTail(s: seq<string>)
    requires Ascending(s) && s != []
    ensures s[0] !in s[1..]
  {
    AscendingTail(s);
    LessIrreflexive(s[0]);
  }

  lemma FirstIsMember(s: seq<string>)
    ensures s == [] || s[0] in s
  {
  }

  /** A set has one ascending enumeration. */
  lemma {:induction false} AscendingUnique(a: seq<string>, b: seq<string>)
    requires Ascending(a) && Ascending(b)
    requires forall d :: d in a <==> d in b
    ensures a == b
  {
    FirstIsMember(b);
    if a != [] {
      assert a[0] in b;
      HeadIsLeast(b, a[0]);
      assert b[0] in a;
      HeadIsLeast(a, b[0]);
      if a[0] != b[0] {
        LessTransitive(a[0], b[0], a[0]);
        LessIrreflexive(a[0]);
      }
      AscendingTail(a);
      AscendingTail(b);
      NotInTail(a);
      NotInTail(b);
      forall d ensures d in a[1..] <==> d in b[1..] {
        assert d in a <==> d == a[0] || d in a[1..] by { assert a == [a[0]] + a[1..]; }
        assert d in b <==> d == b[0] || d in b[1..] by { assert b == [b[0]] + b[1..]; }
      }
      AscendingUnique(a[1..], b[1..]);
      assert a == [a[0]] + a[1..] && b == [b[0]] + b[1..];
    }
  }

  ghost predicate Enumerates(s: seq<string>, elements: set<string>) {
    Ascending(s) && forall d :: d in s <==> d in elements
  }

  /** `[...set].sort()`: whatever order the set is taken in, the result is its one ascending enumeration. */
  method SortSet(elements: set<string>) returns (s: seq<string>)
    ensures Enumerates(s, elements)
  {
    s := [];
    var rest := elements;
    while rest != {}
      invariant rest <= elements && Enumerates(s, elements - rest)
      decreases |rest|
    {
      var d :| d in rest;
      forall x ensures x in Insert(s, d) <==> x in elements - (rest - {d}) {
        InsertMembers(s, d, x);
      }
      InsertAscending(s, d);
      s := Insert(s, d);
      rest := rest - {d};
    }
  }
}

/** The normaliser of the contracts package, over an arbitrary URL host parser. */
module ContractDomains {
  import opened Common
  import opened Text
  import DomainNames

  /** `new URL("http://" + x).hostname`; None is a thrown error. */
  type HostParser = string -> Option<string>

  function DropDot(s: string): string {
    if s != [] && s[|s| - 1] == '.' then s[..|s| - 1] else s
  }

  function ParseHost(trimmed: string, host: HostParser): Option<string> {
    if trimmed == "" || |trimmed| > 253 || '/' in trimmed || ':' in trimmed then None
    else
      match host(trimmed)
      case None => None
      case Some(ascii) =>
        if ascii == "" || |ascii| > 253 || !DomainNames.LabelsFit(Split(ascii, '.')) then None else Some(ascii)
  }

  function NormalizeDomain(input: string, host: HostParser): Option<string> {
    ParseHost(DropDot(Lower(Trim(input))), host)
  }

  /** A path or a port is refused before the URL parser sees it. */
  lemma PathRefused(input: string, host: HostParser)
    requires Trim(input) == input && Lower(input) == input && ('/' in DropDot(input) || ':' in DropDot(input))
    ensures NormalizeDomain(input, host) == None
  {
  }

  /** What a URL parser lets through in the host of an http URL without a port. */
  predicate HostText(s: string) {
    Lower(s) == s && DomainNames.NoControls(s) && ' ' !in s && '/' !in s && ':' !in s && '#' !in s
  }

  ghost predicate HostParserOk(host: HostParser) {
    forall x | host(x).Some? :: HostText(host(x).value)
  }

  /** What the worker accepts as a domain, the agent's own normaliser leaves as it is. */
  lemma AgentKeepsDomain(input: string, host: HostParser)
    requires HostParserOk(host) && NormalizeDomain(input, host).Some?
    ensures var d := NormalizeDomain(input, host).value;
            DomainNames.Canonical(d) && DomainNames.Normalize(d) == Some(d)
  {
    var d := NormalizeDomain(input, host).value;
    assert HostText(d);
    DomainNames.CanonicalFixed(d);
  }

  lemma CleanStays(d: string)
    requires Trim(d) == d && Lower(d) == d && d != [] && d[|d| - 1] != '.'
    ensures DropDot(Lower(Trim(d))) == d
  {
  }

  lemma {:induction false} CleanCanonical(d: string)
    requires d != [] && DomainNames.NoControls(d) && ' ' !in d && DomainNames.LabelsFit(Split(d, '.')) && Lower(d) == d
    ensures DropDot(Lower(Trim(d))) == d
  {
    DomainNames.TrimNothing(d);
    DomainNames.NoTrailingDot(d);
    CleanStays(d);
  }

  lemma HostStays(d: string, host: HostParser)
    requires DomainNames.Canonical(d) && host(d) == Some(d)
    ensures ParseHost(d, host) == Some(d)
  {
  }

  /** On names that the URL parser keeps, the two normalisers agree. */
  lemma NormalizersAgree(d: string, host: HostParser)
    requires DomainNames.Canonical(d) && host(d) == Some(d)
    ensures NormalizeDomain(d, host) == Some(d) && DomainNames.Normalize(d) == Some(d)
  {
    CleanCanonical(d);
    HostStays(d, host);
    DomainNames.CanonicalFixed(d);
  }

  function Dots(n: nat): (s: string)
    ensures |s| == n
  {
    if n == 0 then "" else Dots(n - 1) + "."
  }

  lemma DropLastDot(d: string, n: nat)
    requires n >= 1
    ensures DropDot(d + Dots(n)) == d + Dots(n - 1)
  {
    assert d + Dots(n) == (d + Dots(n - 1)) + ".";
    assert ((d + Dots(n - 1)) + ".")[..|d| + n - 1] == d + Dots(n - 1);
  }

  lemma {:induction false} DotsAreClean(n: nat)
    ensures DomainNames.NoControls(Dots(n)) && ' ' !in Dots(n) && Lower(Dots(n)) == Dots(n)
  {
    if n > 0 {
      DotsAreClean(n - 1);
      LowerConcat(Dots(n - 1), ".");
    }
  }

  lemma LowerConcat(a: string, b: string)
    ensures Lower(a + b) == Lower(a) + Lower(b)
  {
  }

  lemma {:induction false} TrimDotted(d: string, n: nat)
    requires DomainNames.NoControls(d) && ' ' !in d
    ensures Trim(d + Dots(n)) == d + Dots(n)
  {
    DotsAreClean(n);
    DomainNames.TrimNothing(d + Dots(n));
  }

  lemma {:induction false} LowerDotted(d: string, n: nat)
    requires Lower(d) == d
    ensures Lower(d + Dots(n)) == d + Dots(n)
  {
    LowerConcat(d, Dots(n));
    DotsAreClean(n);
  }

  /** The worker drops one dot. */
  lemma WorkerDropsOne(d: string, n: nat)
    requires DomainNames.NoControls(d) && ' ' !in d && Lower(d) == d && n >= 1
    ensures DropDot(Lower(Trim(d + Dots(n)))) == d + Dots(n - 1)
  {
    TrimDotted(d, n);
    LowerDotted(d, n);
    DropLastDot(d, n);
  }

  /** A host that still ends in a dot has an empty label. */
  lemma {:induction false} DottedHostRefused(d: string, n: nat, host: HostParser)
    requires d != [] && n >= 1 && host(d + Dots(n)) == Some(d + Dots(n))
    ensures ParseHost(d + Dots(n), host) == None
  {
    DomainNames.LastLabel(d + Dots(n));
  }

  /** The agent drops them all. */
  lemma {:induction false} AllDots(d: string, n: nat)
    requires d == [] || d[|d| - 1] != '.'
    ensures DomainNames.TrimEndDots(d + Dots(n)) == d
  {
    if n == 0 {
      assert d + Dots(0) == d;
    } else {
      var s := d + Dots(n);
      assert s[|s| - 1] == '.' && s[..|s| - 1] == d + Dots(n - 1);
      AllDots(d, n - 1);
    }
  }

  lemma {:induction false} AgentDropsDots(d: string, n: nat)
    requires DomainNames.Canonical(d)
    ensures DomainNames.Normalize(d + Dots(n)) == Some(d)
  {
    DomainNames.NoTrailingDot(d);
    TrimDotted(d, n);
    AllDots(d, n);
    SameCandidate(d + Dots(n), d);
  }

  lemma SameCandidate(value: string, d: string)
    requires DomainNames.Canonical(d) && DomainNames.TrimEndDots(Trim(value)) == d
    ensures DomainNames.Normalize(value) == Some(d)
  {
    JoinSplit(d, '.');
  }

  lemma WorkerOnOneDot(d: string, host: HostParser)
    requires DomainNames.Canonical(d) && host(d) == Some(d)
    ensures NormalizeDomain(d + Dots(1), host) == Some(d)
  {
    WorkerDropsOne(d, 1);
    assert d + Dots(0) == d;
    HostStays(d, host);
  }

  lemma WorkerOnManyDots(d: string, n: nat, host: HostParser)
    requires DomainNames.Canonical(d) && n >= 2 && host(d + Dots(n - 1)) == Some(d + Dots(n - 1))
    ensures NormalizeDomain(d + Dots(n), host) == None
  {
    WorkerDropsOne(d, n);
    DottedHostRefused(d, n - 1, host);
  }

  lemma {:induction false} WorkerOnDots(d: string, n: nat, host: HostParser)
    requires DomainNames.Canonical(d) && forall k: nat :: host(d + Dots(k)) == Some(d + Dots(k))
    ensures NormalizeDomain(d + Dots(n), host) == if n <= 1 then Some(d) else None
  {
    assert d + Dots(0) == d && host(d + Dots(0)) == Some(d + Dots(0));
    if n == 0 {
      NormalizersAgree(d, host);
    } else if n == 1 {
      WorkerOnOneDot(d, host);
    } else {
      WorkerOnManyDots(d, n, host);
    }
  }

  /**
   * Trailing dots: over a parser that keeps a canonical name and the name with dots, the
   * two normalisers agree on the name with n dots if and only if n is at most one.
   * Beyond that the worker drops one dot and refuses the rest, the agent drops them all.
   */
  lemma {:induction false} TrailingDotsAgree(d: string, n: nat, host: HostParser)
    requires DomainNames.Canonical(d) && forall k: nat :: host(d + Dots(k)) == Some(d + Dots(k))
    ensures NormalizeDomain(d + Dots(n), host) == DomainNames.Normalize(d + Dots(n)) <==> n <= 1
    ensures DomainNames.Normalize(d + Dots(n)) == Some(d)
    ensures n > 1 ==> NormalizeDomain(d + Dots(n), host) == None
  {
    AgentDropsDots(d, n);
    WorkerOnDots(d, n, host);
  }
}

/**
 * The feed compiler and the loader of what it writes. White space is ASCII white
 * space; the URL host parser and gzip are arbitrary, gzip with an inverse.
 */
module BlocklistFeed {
  import opened Common
  import opened Text
  import opened Ordering
  import opened SortedLists
  import opened ContractDomains
  import opened PolicyModels
  import opened PolicyTables

  // ---- One line ------------------------------------------------------------------

  function DropCr(s: string): string {
    if s != [] && s[|s| - 1] == '\r' then s[..|s| - 1] else s
  }

  /** Pieces between line feeds; each but the last loses one carriage return before its feed. */
  function CutFeeds(pieces: seq<string>): (r: seq<string>)
    requires pieces != []
    ensures |r| == |pieces|
  {
    if |pieces| == 1 then pieces else [DropCr(pieces[0])] + CutFeeds(pieces[1..])
  }

  /** input.split(/\r?\n/) */
  function Lines(input: string): seq<string> {
    CutFeeds(Split(input, '\n'))
  }

  /** A comment to the end: white space, a hash sign, and no line terminator after it. */
  predicate CommentAt(line: string) {
    line != [] && IsSpace(line[0])
    && var rest := TrimStart(line);
       rest != [] && rest[0] == '#' && '\n' !in rest && '\r' !in rest
  }

  /** line.replace(/\s+#.*$/, "") */
  function StripComment(line: string): string {
    if line == [] || CommentAt(line) then [] else [line[0]] + StripComment(line[1..])
  }

  /** line.split(/\s+/).at(-1), for a trimmed line. */
  function LastWord(line: string): string
  {
    if line == [] || IsSpace(line[|line| - 1]) then [] else LastWord(line[..|line| - 1]) + [line[|line| - 1]]
  }

  function DropStar(candidate: string): string {
    if StartsWith(candidate, "*.") then candidate[2..] else candidate
  }

  predicate Ignored(line: string) {
    line == [] || line[0] == '#' || line[0] == '!' || line[0] == '['
  }

  function Candidate(line: string): string {
    if StartsWith(line, "||") then Split(line[2..], '^')[0] else LastWord(line)
  }

  function CandidateDomain(candidate: string, host: HostParser): Option<string> {
    if candidate == [] || candidate == "localhost" || EndsWith(candidate, ".local") then None
    else NormalizeDomain(DropStar(candidate), host)
  }

  /** The domain a line contributes, if any. */
  function LineDomain(rawLine: string, host: HostParser): Option<string> {
    var line := Trim(StripComment(rawLine));
    if Ignored(line) then None else CandidateDomain(Candidate(line), host)
  }

  // ---- One feed ------------------------------------------------------------------

  type LineParser = string -> Option<string>

  function LineParserOf(host: HostParser): LineParser {
    (line: string) => LineDomain(line, host)
  }

  function FoundIn(parse: LineParser, line: string): set<string> {
    if parse(line).Some? then {parse(line).value} else {}
  }

  /** What the lines contribute together. */
  function DomainsOf(lines: seq<string>, parse: LineParser): set<string> {
    if lines == [] then {}
    else
      DomainsOf(lines[..|lines| - 1], parse) + FoundIn(parse, lines[|lines| - 1])
  }

  function FeedSet(input: string, host: HostParser): set<string> {
    DomainsOf(Lines(input), LineParserOf(host))
  }

  lemma DomainsNext(lines: seq<string>, i: nat, parse: LineParser)
    requires i < |lines|
    ensures DomainsOf(lines[..i + 1], parse)
         == DomainsOf(lines[..i], parse) + FoundIn(parse, lines[i])
  {
    assert lines[..i + 1][..i] == lines[..i];
  }

  /** The body of the loop over the lines, with its early exits. */
  method ParseLine(rawLine: string, host: HostParser) returns (d: Option<string>)
    ensures d == LineDomain(rawLine, host)
  {
    var line := Trim(StripComment(rawLine));
    if Ignored(line) { return None; }
    var candidate := if StartsWith(line, "||") then Split(line[2..], '^')[0] else LastWord(line);
    if candidate == [] || candidate == "localhost" || EndsWith(candidate, ".local") { return None; }
    d := NormalizeDomain(DropStar(candidate), host);
  }

  /** What one line adds. */
  function Added(domains: set<string>, d: Option<string>): set<string> {
    if d.Some? then domains + {d.value} else domains
  }

  lemma AddedIsFound(domains: set<string>, rawLine: string, parse: LineParser, d: Option<string>)
    requires d == parse(rawLine)
    ensures Added(domains, d) == domains + FoundIn(parse, rawLine)
  {
  }

  lemma ParserAt(rawLine: string, host: HostParser)
    ensures LineParserOf(host)(rawLine) == LineDomain(rawLine, host)
  {
  }

  /** The loop over the lines. */
  method CollectDomains(lines: seq<string>, host: HostParser, ghost parse: LineParser) returns (domains: set<string>)
    requires parse == LineParserOf(host)
    ensures domains == DomainsOf(lines, parse)
  {
    domains := {};
    for i := 0 to |lines|
      invariant domains == DomainsOf(lines[..i], parse)
    {
      DomainsNext(lines, i, parse);
      var d := ParseLine(lines[i], host);
      ParserAt(lines[i], host);
      AddedIsFound(domains, lines[i], parse, d);
      domains := Added(domains, d);
    }
    assert lines[..|lines|] == lines;
  }

  /** parseDomains */
  method ParseDomains(input: string, host: HostParser) returns (sorted: seq<string>)
    ensures Enumerates(sorted, FeedSet(input, host))
  {
    var domains := CollectDomains(Lines(input), host, LineParserOf(host));
    sorted := SortSet(domains);
  }

  lemma {:induction false} DomainsConcat(a: seq<string>, b: seq<string>, parse: LineParser)
    ensures DomainsOf(a + b, parse) == DomainsOf(a, parse) + DomainsOf(b, parse)
  {
    if b == [] {
      assert a + b == a;
    } else {
      var last := |b| - 1;
      assert (a + b)[..|a + b| - 1] == a + b[..last];
      DomainsConcat(a, b[..last], parse);
    }
  }

  lemma {:induction false} CutFeedsConcat(a: seq<string>, b: seq<string>)
    requires a != [] && b != []
    ensures CutFeeds(a + b) == CutFeeds(DropLastCr(a)) + CutFeeds(b)
  {
    var c := DropLastCr(a);
    if |a| == 1 {
      assert (a + b)[1..] == b;
      assert c == [DropCr(a[0])];
    } else {
      assert (a + b)[1..] == a[1..] + b;
      assert c[1..] == DropLastCr(a[1..]);
      CutFeedsConcat(a[1..], b);
    }
  }

  lemma DropCrTail(x: string, rest: string)
    ensures DropCr(x + ['\n'] + rest) == x + ['\n'] + DropCr(rest)
  {
  }

  /** DropCr on the last piece. */
  function DropLastCr(pieces: seq<string>): seq<string>
    requires pieces != []
  {
    pieces[..|pieces| - 1] + [DropCr(pieces[|pieces| - 1])]
  }

  lemma {:induction false} WholeDropCr(a: string)
    requires '\n' !in a
    ensures Split(DropCr(a), '\n') == DropLastCr(Split(a, '\n'))
  {
    SplitWhole(a, '\n');
    SplitWhole(DropCr(a), '\n');
  }

  /** Taking a carriage return off the end takes it off the last piece. */
  lemma {:induction false} SplitDropCr(a: string)
    ensures Split(DropCr(a), '\n') == DropLastCr(Split(a, '\n'))
    decreases |a|
  {
    var i := IndexOf(a, '\n');
    if i == |a| {
      WholeDropCr(a);
    } else {
      var x, rest := a[..i], a[i + 1..];
      assert a == x + ['\n'] + rest;
      SplitDropCr(rest);
      SplitAtFeed(x, rest);
    }
  }

  lemma DropLastCrCons(x: string, pieces: seq<string>)
    requires pieces != []
    ensures DropLastCr([x] + pieces) == [x] + DropLastCr(pieces)
  {
    assert ([x] + pieces)[..|pieces|] == [x] + pieces[..|pieces| - 1];
  }

  lemma {:induction false} SplitAtFeed(x: string, rest: string)
    requires '\n' !in x && Split(DropCr(rest), '\n') == DropLastCr(Split(rest, '\n'))
    ensures Split(DropCr(x + ['\n'] + rest), '\n') == DropLastCr(Split(x + ['\n'] + rest, '\n'))
  {
    DropCrTail(x, rest);
    SplitCons(x, '\n', rest);
    SplitCons(x, '\n', DropCr(rest));
    DropLastCrCons(x, Split(rest, '\n'));
  }

  lemma LinesConcat(a: string, b: string)
    ensures Lines(a + ['\n'] + b) == Lines(DropCr(a)) + Lines(b)
  {
    SplitConcat(a, '\n', b);
    SplitDropCr(a);
    CutFeedsConcat(Split(a, '\n'), Split(b, '\n'));
  }

  /**
   * Feeds can be concatenated: for every a and b, the feed a, line feed, b has exactly
   * the domains of b and of a without a final carriage return.
   */
  lemma FeedConcat(a: string, b: string, host: HostParser)
    ensures FeedSet(a + ['\n'] + b, host) == FeedSet(DropCr(a), host) + FeedSet(b, host)
    ensures (a == [] || a[|a| - 1] != '\r') ==> FeedSet(a + ['\n'] + b, host) == FeedSet(a, host) + FeedSet(b, host)
  {
    LinesConcat(a, b);
    DomainsConcat(Lines(DropCr(a)), Lines(b), LineParserOf(host));
  }

  lemma SuffixLast(s: string, rest: string)
    requires rest != [] && |rest| <= |s| && rest == s[|s| - |rest|..]
    ensures s[|s| - 1] in rest
  {
    assert rest[|rest| - 1] == s[|s| - 1];
  }

  lemma NoCommentBeforeCr(line: string)
    requires line != [] && line[|line| - 1] == '\r'
    ensures !CommentAt(line)
  {
    var rest := TrimStart(line);
    if rest != [] {
      SuffixLast(line, rest);
    }
  }

  lemma {:induction false} FirstKept(line: string)
    requires line != [] && line[|line| - 1] == '\r'
    ensures StripComment(line) == [line[0]] + StripComment(line[1..])
  {
    NoCommentBeforeCr(line);
  }

  /** Why the carriage return matters: a line that ends in one keeps its comment. */
  lemma {:induction false} CommentKept(line: string)
    requires line != [] && line[|line| - 1] == '\r'
    ensures StripComment(line) == line
  {
    FirstKept(line);
    var rest := line[1..];
    assert line == [line[0]] + rest;
    if rest != [] {
      assert rest[|rest| - 1] == '\r';
      CommentKept(rest);
    }
  }

  predicate NoSpaces(s: string) {
    forall i | 0 <= i < |s| :: !IsSpace(s[i])
  }

  /** A word, a comment, and nothing else. */
  function Commented(word: string, comment: string): string {
    word + (" #" + comment)
  }

  lemma {:induction false} CommentStripped(word: string, comment: string)
    requires NoSpaces(word) && '\n' !in comment && '\r' !in comment
    ensures StripComment(Commented(word, comment)) == word
  {
    var line := Commented(word, comment);
    if word == [] {
      var rest := "#" + comment;
      assert line[1..] == rest && TrimStart(line) == rest;
    } else {
      assert line[0] == word[0] && line[1..] == Commented(word[1..], comment);
      CommentStripped(word[1..], comment);
    }
  }

  lemma {:induction false} WholeWord(word: string)
    requires NoSpaces(word)
    ensures LastWord(word) == word
  {
    if word != [] {
      var last := |word| - 1;
      WholeWord(word[..last]);
      assert word == word[..last] + [word[last]];
    }
  }

  lemma {:induction false} WordAfterSpace(before: string, word: string)
    requires NoSpaces(word)
    ensures LastWord(before + " " + word) == word
  {
    var line := before + " " + word;
    if word == [] {
      assert line[|line| - 1] == ' ';
    } else {
      var last := |word| - 1;
      assert line[..|line| - 1] == before + " " + word[..last];
      WordAfterSpace(before, word[..last]);
      assert word == word[..last] + [word[last]];
    }
  }

  lemma TrimWord(word: string)
    requires NoSpaces(word)
    ensures Trim(word) == word
  {
  }

  lemma TrimFinalCr(line: string)
    requires line != [] && !IsSpace(line[0]) && !IsSpace(line[|line| - 1])
    ensures Trim(line + "\r") == line
  {
    assert (line + "\r")[..|line|] == line;
    assert TrimEnd(line) == line;
  }

  /** What a cleaned line contributes through its candidate. */
  lemma {:induction false} ByCandidate(rawLine: string, line: string, candidate: string, host: HostParser)
    requires Trim(StripComment(rawLine)) == line && !Ignored(line) && Candidate(line) == candidate
    ensures LineDomain(rawLine, host) == CandidateDomain(candidate, host)
  {
  }

  lemma CleanComment(word: string, comment: string, host: HostParser)
    requires PlainWord(word) && '\n' !in comment && '\r' !in comment
    ensures LineDomain(Commented(word, comment), host) == CandidateDomain(word, host)
  {
    CommentStripped(word, comment);
    TrimWord(word);
    WholeWord(word);
    ByCandidate(Commented(word, comment), word, word, host);
  }

  /** A word that is a candidate as it stands. */
  predicate PlainWord(word: string) {
    NoSpaces(word) && !Ignored(word) && !StartsWith(word, "||")
  }

  lemma CleanedCr(word: string, comment: string)
    requires word != [] && NoSpaces(word) && NoSpaces(comment)
    ensures Trim(StripComment(Commented(word, comment) + "\r")) == Commented(word, comment)
  {
    var line := Commented(word, comment);
    CommentKept(line + "\r");
    LastIsNoSpace(word, comment);
    TrimFinalCr(line);
  }

  lemma LastIsNoSpace(word: string, comment: string)
    requires word != [] && NoSpaces(word) && NoSpaces(comment)
    ensures var line := Commented(word, comment); !IsSpace(line[0]) && !IsSpace(line[|line| - 1])
  {
  }

  lemma NotBars(word: string, rest: string)
    requires word != [] && !StartsWith(word, "||")
    ensures !StartsWith(word + (" " + rest), "||")
  {
    var line := word + (" " + rest);
    if |word| >= 2 {
      assert line[..2] == word[..2];
    } else {
      assert line[1] == ' ';
    }
  }

  lemma CommentIsCandidate(word: string, comment: string)
    requires PlainWord(word) && NoSpaces(comment)
    ensures Candidate(Commented(word, comment)) == "#" + comment && !Ignored(Commented(word, comment))
  {
    var line := Commented(word, comment);
    assert line == word + (" " + ("#" + comment)) && line == word + " " + ("#" + comment);
    NotBars(word, "#" + comment);
    WordAfterSpace(word, "#" + comment);
    assert line[0] == word[0];
  }

  lemma CommentWithCr(word: string, comment: string, host: HostParser)
    requires PlainWord(word) && NoSpaces(comment)
    ensures LineDomain(Commented(word, comment) + "\r", host) == CandidateDomain("#" + comment, host)
  {
    CleanedCr(word, comment);
    CommentIsCandidate(word, comment);
    ByCandidate(Commented(word, comment) + "\r", Commented(word, comment), "#" + comment, host);
  }

  lemma OneLine(line: string, host: HostParser)
    requires '\n' !in line
    ensures FeedSet(line, host) == FoundIn(LineParserOf(host), line)
  {
    SplitWhole(line, '\n');
    OneLineOf([line], LineParserOf(host));
  }

  lemma {:induction false} OneLineOf(lines: seq<string>, parse: LineParser)
    requires |lines| == 1
    ensures DomainsOf(lines, parse) == FoundIn(parse, lines[0])
  {
    assert lines[..0] == [];
  }

  lemma AloneEmpty(word: string, comment: string, host: HostParser)
    requires PlainWord(word) && NoSpaces(comment) && CandidateDomain("#" + comment, host) == None
    ensures FeedSet(Commented(word, comment) + "\r", host) == {}
  {
    NoTerminators(word, comment);
    CommentWithCr(word, comment, host);
    OneLine(Commented(word, comment) + "\r", host);
  }

  lemma AloneWord(word: string, comment: string, d: string, host: HostParser)
    requires PlainWord(word) && NoSpaces(comment) && CandidateDomain(word, host) == Some(d)
    ensures FeedSet(Commented(word, comment), host) == {d}
  {
    NoTerminators(word, comment);
    CleanComment(word, comment, host);
    OneLine(Commented(word, comment), host);
  }

  /**
   * Feeds for which the concatenation is not the union: a word with a comment and a
   * final carriage return. Alone, its candidate is the comment; with any feed behind
   * it, the word.
   */
  lemma CarriageReturnMatters(word: string, comment: string, d: string, b: string, host: HostParser)
    requires PlainWord(word) && NoSpaces(comment)
    requires CandidateDomain(word, host) == Some(d) && CandidateDomain("#" + comment, host) == None
    ensures var a := Commented(word, comment) + "\r";
            FeedSet(a, host) == {} && FeedSet(a + ['\n'] + b, host) == {d} + FeedSet(b, host)
  {
    AloneEmpty(word, comment, host);
    AloneWord(word, comment, d, host);
    DroppedCr(Commented(word, comment));
    FeedConcat(Commented(word, comment) + "\r", b, host);
  }

  lemma DroppedCr(line: string)
    ensures DropCr(line + "\r") == line
  {
  }

  lemma NoTerminators(word: string, comment: string)
    requires NoSpaces(word) && NoSpaces(comment)
    ensures var line := Commented(word, comment);
            '\n' !in line && '\r' !in line && '\n' !in line + "\r" && '\n' !in comment && '\r' !in comment
  {
  }

  // ---- The formats of a line -------------------------------------------------------

  lemma {:induction false} StripNothing(line: string)
    requires '#' !in line
    ensures StripComment(line) == line
  {
    if line != [] {
      assert !CommentAt(line) by {
        var rest := TrimStart(line);
        if rest != [] { assert rest[0] in line; }
      }
      StripNothing(line[1..]);
    }
  }

  /** A host name that a feed may list: canonical, kept by the URL parser, and none of the names that are skipped. */
  predicate Listable(d: string, host: HostParser) {
    && DomainNames.Canonical(d) && host(d) == Some(d) && '#' !in d && '^' !in d && '*' !in d
    && d[0] != '!' && d[0] != '[' && d[0] != '|' && d != "localhost" && !EndsWith(d, ".local")
  }

  lemma NoSpacesIn(d: string)
    requires DomainNames.NoControls(d) && ' ' !in d
    ensures NoSpaces(d)
  {
    forall i | 0 <= i < |d| ensures !IsSpace(d[i]) { assert d[i] in d; }
  }

  lemma ListableIsPlain(d: string, host: HostParser)
    requires Listable(d, host)
    ensures PlainWord(d) && '#' !in d && '^' !in d
  {
    NoSpacesIn(d);
    assert d[0] in d;
  }

  lemma NoStar(d: string)
    requires d != [] && d[0] != '*'
    ensures DropStar(d) == d
  {
  }

  lemma ListableCandidate(d: string, host: HostParser)
    requires Listable(d, host)
    ensures CandidateDomain(d, host) == Some(d)
  {
    NormalizersAgree(d, host);
    assert d[0] in d;
    NoStar(d);
  }

  lemma TrimWords(line: string)
    requires line != [] && !IsSpace(line[0]) && !IsSpace(line[|line| - 1])
    ensures Trim(line) == line
  {
    assert TrimStart(line) == line;
  }

  lemma {:induction false} WordCandidate(word: string, host: HostParser)
    requires PlainWord(word) && '#' !in word
    ensures LineDomain(word, host) == CandidateDomain(word, host)
  {
    StripNothing(word);
    TrimWord(word);
    WholeWord(word);
    ByCandidate(word, word, word, host);
  }

  lemma {:induction false} HostsClean(address: string, word: string)
    requires PlainWord(address) && '#' !in address && NoSpaces(word) && word != [] && '#' !in word
    ensures Trim(StripComment(address + " " + word)) == address + " " + word
  {
    var line := address + " " + word;
    StripNothing(line);
    TrimWords(line);
  }

  lemma HostsWord(address: string, word: string)
    requires PlainWord(address) && NoSpaces(word)
    ensures Candidate(address + " " + word) == word && !Ignored(address + " " + word)
  {
    var line := address + " " + word;
    WordAfterSpace(address, word);
    NotBars(address, word);
    assert line == address + (" " + word) && line[0] == address[0];
  }

  lemma BarsLine(tail: string)
    requires NoSpaces(tail) && '#' !in tail
    ensures var line := "||" + tail;
            Trim(StripComment(line)) == line && !Ignored(line) && StartsWith(line, "||") && line[2..] == tail
  {
    var line := "||" + tail;
    StripNothing(line);
    TrimWord(line);
  }

  lemma FilterClean(word: string, options: string)
    requires NoSpaces(word) && NoSpaces(options) && '#' !in word && '#' !in options && '^' !in word
    ensures var line := "||" + (word + ['^'] + options);
            Trim(StripComment(line)) == line && Candidate(line) == word && !Ignored(line)
  {
    BarsLine(word + ['^'] + options);
    BeforeCaret(word, options);
  }

  lemma {:induction false} BeforeCaret(d: string, options: string)
    requires '^' !in d
    ensures Split(d + ['^'] + options, '^')[0] == d
  {
    SplitCons(d, '^', options);
  }

  /** The name alone. */
  lemma NameLine(d: string, host: HostParser)
    requires Listable(d, host)
    ensures LineDomain(d, host) == Some(d)
  {
    ListableIsPlain(d, host);
    WordCandidate(d, host);
    ListableCandidate(d, host);
  }

  /** A hosts file: an address, a space, the name. */
  lemma HostsLine(address: string, d: string, host: HostParser)
    requires Listable(d, host) && PlainWord(address) && '#' !in address
    ensures LineDomain(address + " " + d, host) == Some(d)
  {
    ListableIsPlain(d, host);
    HostsClean(address, d);
    HostsWord(address, d);
    ByCandidate(address + " " + d, address + " " + d, d, host);
    ListableCandidate(d, host);
  }

  /** A filter list: two bars, the name, a caret, options. */
  lemma FilterLine(d: string, options: string, host: HostParser)
    requires Listable(d, host) && NoSpaces(options) && '#' !in options
    ensures LineDomain("||" + (d + ['^'] + options), host) == Some(d)
  {
    ListableIsPlain(d, host);
    FilterClean(d, options);
    ByCandidate("||" + (d + ['^'] + options), "||" + (d + ['^'] + options), d, host);
    ListableCandidate(d, host);
  }

  lemma StarPlain(d: string)
    requires PlainWord(d) && '#' !in d
    ensures PlainWord("*." + d) && '#' !in "*." + d && DropStar("*." + d) == d && "*." + d != [] && "*." + d != "localhost"
  {
    var word := "*." + d;
    assert word[..2] == "*." && word[2..] == d && word[0] == '*' && "localhost"[0] == 'l' && "||"[0] == '|';
  }

  lemma StarCandidate(word: string, d: string, host: HostParser)
    requires word != [] && word != "localhost" && !EndsWith(word, ".local") && DropStar(word) == d && NormalizeDomain(d, host) == Some(d)
    ensures CandidateDomain(word, host) == Some(d)
  {
  }

  /** A wildcard for all subdomains lists the name. */
  lemma StarLine(d: string, host: HostParser)
    requires Listable(d, host) && !EndsWith("*." + d, ".local")
    ensures LineDomain("*." + d, host) == Some(d)
  {
    ListableIsPlain(d, host);
    StarPlain(d);
    WordCandidate("*." + d, host);
    NormalizersAgree(d, host);
    StarCandidate("*." + d, d, host);
  }

  /** Comments, exceptions and section heads list nothing, whatever follows. */
  lemma {:induction false} MarkedLine(mark: char, rest: string, host: HostParser)
    requires mark == '#' || mark == '!' || mark == '['
    ensures LineDomain([mark] + rest, host) == None
  {
    var line := [mark] + rest;
    assert !CommentAt(line) && line[1..] == rest;
    KeepsFirst(mark, StripComment(rest));
  }

  lemma KeepsFirst(mark: char, rest: string)
    requires !IsSpace(mark)
    ensures Trim([mark] + rest) != [] && Trim([mark] + rest)[0] == mark
  {
    var line := [mark] + rest;
    assert TrimStart(line) == line;
    NotAllTrimmed(line);
  }

  lemma {:induction false} NotAllTrimmed(line: string)
    requires line != [] && !IsSpace(line[0])
    ensures TrimEnd(line) != [] && TrimEnd(line)[0] == line[0]
  {
    if IsSpace(line[|line| - 1]) {
      assert |line| > 1;
      NotAllTrimmed(line[..|line| - 1]);
    }
  }

  /** Names of the local network are skipped. */
  lemma LocalLine(word: string, host: HostParser)
    requires PlainWord(word) && '#' !in word && (word == "localhost" || EndsWith(word, ".local"))
    ensures LineDomain(word, host) == None
  {
    WordCandidate(word, host);
  }

  // ---- Compiling sources ---------------------------------------------------------

  /** What parseDomains finds in a body, for any way of finding it. */
  type FeedParser = string -> set<string>

  function FeedParserOf(host: HostParser): FeedParser {
    (body: string) => FeedSet(body, host)
  }

  /** What a source's URL answers, or what its file holds; None is an exception. */
  datatype Origin = Unreachable | Answered(ok: bool, declaredLength: int, text: string) | Path(content: Option<string>)

  const FEED_LIMIT := 100_000_000

  /** fetchBounded, or readFile. */
  function Fetched(origin: Origin): Option<string> {
    match origin
    case Unreachable => None
    case Answered(ok, declaredLength, text) =>
      if !ok || declaredLength > FEED_LIMIT || |text| > FEED_LIMIT then None else Some(text)
    case Path(content) => content
  }

  datatype Source = Source(category: Category, name: string, minimum: int, maximum: int, origin: Origin)

  datatype CompileError = FetchFailed(name: string) | UnexpectedCount(name: string, count: nat)

  /** The text of a source that could be read. */
  function Body(source: Source): string {
    if Fetched(source.origin).Some? then Fetched(source.origin).value else ""
  }

  /** The source can be read and has an expected number of domains. */
  predicate Fits(source: Source, parse: FeedParser) {
    Fetched(source.origin).Some? && source.minimum <= |parse(Body(source))| <= source.maximum
  }

  /** Which sources are compiled: those that answer in time and size, with a number of domains between the bounds. */
  lemma FitsExactly(source: Source, parse: FeedParser)
    ensures Fits(source, parse) <==>
              match source.origin
              case Unreachable => false
              case Answered(ok, declared, text) =>
                ok && declared <= 100_000_000 && |text| <= 100_000_000 && source.minimum <= |parse(text)| && |parse(text)| <= source.maximum
              case Path(content) =>
                content.Some? && source.minimum <= |parse(content.value)| && |parse(content.value)| <= source.maximum
  {
  }

  function ErrorOf(source: Source, parse: FeedParser): (error: CompileError)
    ensures error.name == source.name
  {
    if Fetched(source.origin).None? then FetchFailed(source.name)
    else UnexpectedCount(source.name, |parse(Body(source))|)
  }

  function BodiesOf(sources: seq<Source>, c: Category): seq<string> {
    if sources == [] then []
    else
      var last := sources[|sources| - 1];
      BodiesOf(sources[..|sources| - 1], c) + if last.category == c then [Body(last)] else []
  }

  function UnionOf(bodies: seq<string>, parse: FeedParser): set<string> {
    if bodies == [] then {}
    else UnionOf(bodies[..|bodies| - 1], parse) + parse(bodies[|bodies| - 1])
  }

  function CategoriesOf(sources: seq<Source>): (r: set<Category>)
    ensures forall s | s in sources :: s.category in r
  {
    if sources == [] then {}
    else CategoriesOf(sources[..|sources| - 1]) + {sources[|sources| - 1].category}
  }

  lemma {:induction false} CategoriesWithin(sources: seq<Source>, bound: set<Category>)
    requires forall s | s in sources :: s.category in bound
    ensures CategoriesOf(sources) <= bound
  {
    if sources != [] {
      CategoriesWithin(sources[..|sources| - 1], bound);
    }
  }

  lemma {:induction false} SameCategories(x: seq<Source>, y: seq<Source>)
    requires forall s | s in x :: s in y
    ensures CategoriesOf(x) <= CategoriesOf(y)
  {
    CategoriesWithin(x, CategoriesOf(y));
  }

  /** The domains of a category, from all of its sources. */
  function CompiledSet(sources: seq<Source>, c: Category, parse: FeedParser): set<string> {
    UnionOf(BodiesOf(sources, c), parse)
  }

  lemma {:induction false} EnumerationSize(s: seq<string>, elements: set<string>)
    requires Enumerates(s, elements)
    ensures |s| == |elements|
  {
    if s == [] {
      assert elements == {};
    } else {
      AscendingTail(s);
      NotInTail(s);
      assert s == [s[0]] + s[1..];
      EnumerationSize(s[1..], elements - {s[0]});
      assert s[0] in elements;
    }
  }

  /** parseDomains on one body. */
  method ParseBody(body: string, host: HostParser, ghost parse: FeedParser) returns (entries: seq<string>)
    requires parse == FeedParserOf(host)
    ensures Enumerates(entries, parse(body))
  {
    entries := ParseDomains(body, host);
  }

  lemma UnionNext(bodies: seq<string>, i: nat, parse: FeedParser)
    requires i < |bodies|
    ensures UnionOf(bodies[..i + 1], parse) == UnionOf(bodies[..i], parse) + parse(bodies[i])
  {
    assert bodies[..i + 1][..i] == bodies[..i];
  }

  method UnionFeeds(bodies: seq<string>, host: HostParser, ghost parse: FeedParser) returns (domains: seq<string>)
    requires parse == FeedParserOf(host)
    ensures Enumerates(domains, UnionOf(bodies, parse))
  {
    var union := {};
    for i := 0 to |bodies|
      invariant union == UnionOf(bodies[..i], parse)
    {
      UnionNext(bodies, i, parse);
      var entries := ParseBody(bodies[i], host, parse);
      union := union + set d | d in entries;
    }
    assert bodies[..|bodies|] == bodies;
    domains := SortSet(union);
  }

  predicate AllFit(sources: seq<Source>, parse: FeedParser) {
    forall i | 0 <= i < |sources| :: Fits(sources[i], parse)
  }

  /** The error is that of the first source that does not fit. */
  ghost predicate FirstMisfit(sources: seq<Source>, parse: FeedParser, error: CompileError) {
    exists i | 0 <= i < |sources| ::
      error == ErrorOf(sources[i], parse) && !Fits(sources[i], parse) && AllFit(sources[..i], parse)
  }

  /** Read one source and check its count. */
  method ReadSource(source: Source, host: HostParser, ghost parse: FeedParser) returns (body: Result<string, CompileError>)
    requires parse == FeedParserOf(host)
    ensures body.Ok? <==> Fits(source, parse)
    ensures body == if body.Ok? then Ok(Body(source)) else Err(ErrorOf(source, parse))
  {
    var text := Fetched(source.origin);
    if text.None? { return Err(FetchFailed(source.name)); }
    var entries := ParseBody(text.value, host, parse);
    EnumerationSize(entries, parse(text.value));
    if |entries| < source.minimum || |entries| > source.maximum { return Err(UnexpectedCount(source.name, |entries|)); }
    return Ok(text.value);
  }

  lemma SourcesNext(sources: seq<Source>, i: nat, parse: FeedParser)
    requires i < |sources| && AllFit(sources[..i], parse)
    ensures sources[..i + 1] == sources[..i] + [sources[i]]
    ensures Fits(sources[i], parse) ==> AllFit(sources[..i + 1], parse)
  {
  }

  method AddSource(grouped: map<Category, seq<string>>, ghost before: seq<Source>, source: Source)
    returns (more: map<Category, seq<string>>)
    requires GroupedSoFar(grouped, before)
    ensures GroupedSoFar(more, before + [source])
  {
    GroupOne(grouped, before, source);
    more := grouped[source.category := (if source.category in grouped then grouped[source.category] else []) + [Body(source)]];
  }

  /** The first loop of compileSources: read and check each source, group the bodies. */
  method GroupSources(sources: seq<Source>, host: HostParser, ghost parse: FeedParser)
    returns (r: Result<map<Category, seq<string>>, CompileError>)
    requires parse == FeedParserOf(host)
    ensures r.Ok? ==> AllFit(sources, parse) && GroupedSoFar(r.value, sources)
    ensures r.Err? ==> FirstMisfit(sources, parse, r.error)
  {
    var grouped: map<Category, seq<string>> := map[];
    for i := 0 to |sources|
      invariant AllFit(sources[..i], parse)
      invariant GroupedSoFar(grouped, sources[..i])
    {
      var source := sources[i];
      var body := ReadSource(source, host, parse);
      if body.Err? { return Err(body.error); }
      SourcesNext(sources, i, parse);
      grouped := AddSource(grouped, sources[..i], source);
    }
    assert sources[..|sources|] == sources;
    return Ok(grouped);
  }

  predicate GroupedSoFar(grouped: map<Category, seq<string>>, sources: seq<Source>) {
    grouped.Keys == CategoriesOf(sources) && forall c | c in grouped :: grouped[c] == BodiesOf(sources, c)
  }

  lemma {:induction false} NoBodies(sources: seq<Source>, c: Category)
    requires c !in CategoriesOf(sources)
    ensures BodiesOf(sources, c) == []
  {
    if sources != [] {
      assert sources[|sources| - 1] in sources;
      NoBodies(sources[..|sources| - 1], c);
    }
  }

  lemma {:induction false} BodiesNext(sources: seq<Source>, source: Source, c: Category)
    ensures BodiesOf(sources + [source], c) == BodiesOf(sources, c) + if source.category == c then [Body(source)] else []
  {
    assert (sources + [source])[..|sources|] == sources;
  }

  lemma {:induction false} CategoriesNext(sources: seq<Source>, source: Source)
    ensures CategoriesOf(sources + [source]) == CategoriesOf(sources) + {source.category}
  {
    assert (sources + [source])[..|sources|] == sources;
  }

  lemma GroupOne(grouped: map<Category, seq<string>>, sources: seq<Source>, source: Source)
    requires GroupedSoFar(grouped, sources)
    ensures var bodies := if source.category in grouped then grouped[source.category] else [];
            GroupedSoFar(grouped[source.category := bodies + [Body(source)]], sources + [source])
  {
    CategoriesNext(sources, source);
    var bodies := if source.category in grouped then grouped[source.category] else [];
    var more := grouped[source.category := bodies + [Body(source)]];
    if source.category !in grouped {
      NoBodies(sources, source.category);
    }
    forall c | c in more ensures more[c] == BodiesOf(sources + [source], c) {
      BodiesNext(sources, source, c);
    }
  }

  /** A sorted union for each category. */
  method CompileGroups(grouped: map<Category, seq<string>>, host: HostParser, ghost parse: FeedParser)
    returns (lists: map<Category, seq<string>>)
    requires parse == FeedParserOf(host)
    ensures lists.Keys == grouped.Keys
    ensures forall c | c in grouped :: Enumerates(lists[c], UnionOf(grouped[c], parse))
  {
    lists := map[];
    var rest := grouped.Keys;
    while rest != {}
      invariant rest <= grouped.Keys && lists.Keys == grouped.Keys - rest
      invariant forall c | c in lists :: Enumerates(lists[c], UnionOf(grouped[c], parse))
      decreases |rest|
    {
      var c :| c in rest;
      var domains := UnionFeeds(grouped[c], host, parse);
      lists := lists[c := domains];
      rest := rest - {c};
    }
  }

  datatype CompiledArtifact = CompiledArtifact(category: Category, domains: seq<string>, count: nat)

  /** The artifacts from the i-th category on, in the order of the category names. */
  function ArtifactsFrom(lists: map<Category, seq<string>>, i: nat): seq<CompiledArtifact>
    decreases CATEGORY_COUNT - i
  {
    if i >= CATEGORY_COUNT then []
    else
      var c := CategoryAt(i);
      (if c in lists then [CompiledArtifact(c, lists[c], |lists[c]|)] else []) + ArtifactsFrom(lists, i + 1)
  }

  lemma {:induction false} ArtifactsExact(lists: map<Category, seq<string>>, i: nat, a: CompiledArtifact)
    ensures a in ArtifactsFrom(lists, i)
       <==> i <= CategoryRank(a.category) && a.category in lists && a.domains == lists[a.category] && a.count == |a.domains|
    decreases CATEGORY_COUNT - i
  {
    if i < CATEGORY_COUNT {
      ArtifactsExact(lists, i + 1, a);
      RankOfCategoryAt(i);
      if a.category != CategoryAt(i) { OtherRank(a.category, i); }
    }
  }

  predicate RankAscending(artifacts: seq<CompiledArtifact>) {
    forall j, k | 0 <= j < k < |artifacts| :: CategoryRank(artifacts[j].category) < CategoryRank(artifacts[k].category)
  }

  lemma RankAscendingCons(first: CompiledArtifact, rest: seq<CompiledArtifact>)
    requires RankAscending(rest) && forall a | a in rest :: CategoryRank(first.category) < CategoryRank(a.category)
    ensures RankAscending([first] + rest)
  {
    var artifacts := [first] + rest;
    forall j, k | 0 <= j < k < |artifacts|
      ensures CategoryRank(artifacts[j].category) < CategoryRank(artifacts[k].category)
    {
      assert artifacts[k] == rest[k - 1];
    }
  }

  /** The artifacts are listed by category name, each category once. */
  lemma LaterRanks(lists: map<Category, seq<string>>, i: nat)
    ensures forall a | a in ArtifactsFrom(lists, i + 1) :: CategoryRank(a.category) > i
  {
    forall a | a in ArtifactsFrom(lists, i + 1) ensures CategoryRank(a.category) > i {
      ArtifactsExact(lists, i + 1, a);
    }
  }

  lemma {:induction false} ArtifactsOrdered(lists: map<Category, seq<string>>, i: nat)
    ensures RankAscending(ArtifactsFrom(lists, i))
    decreases CATEGORY_COUNT - i
  {
    if i < CATEGORY_COUNT {
      var rest := ArtifactsFrom(lists, i + 1);
      ArtifactsOrdered(lists, i + 1);
      LaterRanks(lists, i);
      RankOfCategoryAt(i);
      if CategoryAt(i) in lists {
        RankAscendingCons(CompiledArtifact(CategoryAt(i), lists[CategoryAt(i)], |lists[CategoryAt(i)]|), rest);
      }
    }
  }

  /**
   * compileSources: one ascending list for each category, in the order of the category
   * names, or the error of the first source that cannot be read or has an unexpected
   * number of domains.
   */
  method CompileSources(sources: seq<Source>, host: HostParser)
    returns (r: Result<seq<CompiledArtifact>, CompileError>, ghost lists: map<Category, seq<string>>)
    ensures r.Ok? <==> AllFit(sources, FeedParserOf(host))
    ensures r.Ok? ==> Compiled(lists, sources, FeedParserOf(host)) && r.value == ArtifactsFrom(lists, 0)
    ensures r.Err? ==> FirstMisfit(sources, FeedParserOf(host), r.error)
  {
    ghost var parse := FeedParserOf(host);
    lists := map[];
    var grouped := GroupSources(sources, host, parse);
    if grouped.Err? {
      MisfitIsNoFit(sources, parse, grouped.error);
      r := Err(grouped.error);
      return;
    }
    var compiled := CompileGroups(grouped.value, host, parse);
    lists := compiled;
    var artifacts := ListArtifacts(compiled);
    r := Ok(artifacts);
  }

  lemma MisfitIsNoFit(sources: seq<Source>, parse: FeedParser, error: CompileError)
    requires FirstMisfit(sources, parse, error)
    ensures !AllFit(sources, parse)
  {
  }

  /** The final map and sort. */
  method ListArtifacts(lists: map<Category, seq<string>>) returns (artifacts: seq<CompiledArtifact>)
    ensures artifacts == ArtifactsFrom(lists, 0)
  {
    artifacts := [];
    var i := CATEGORY_COUNT;
    while i > 0
      invariant 0 <= i <= CATEGORY_COUNT
      invariant artifacts == ArtifactsFrom(lists, i)
    {
      i := i - 1;
      var c := CategoryAt(i);
      if c in lists { artifacts := [CompiledArtifact(c, lists[c], |lists[c]|)] + artifacts; }
    }
  }

  /** One ascending list for each category that has a source. */
  ghost predicate Compiled(lists: map<Category, seq<string>>, sources: seq<Source>, parse: FeedParser) {
    lists.Keys == CategoriesOf(sources)
    && forall c | c in lists :: Enumerates(lists[c], CompiledSet(sources, c, parse))
  }

  /** A domain is compiled for a category exactly when some source of it has it. */
  lemma {:induction false} CompiledFrom(sources: seq<Source>, c: Category, parse: FeedParser, d: string)
    ensures d in CompiledSet(sources, c, parse) <==> SomeSourceHas(sources, c, parse, d)
  {
    if sources != [] {
      var last := sources[|sources| - 1];
      var before := sources[..|sources| - 1];
      CompiledFrom(before, c, parse, d);
      var bodies := BodiesOf(before, c);
      assert (bodies + [Body(last)])[..|bodies|] == bodies && bodies + [] == bodies;
      SomeSourceLast(before, last, c, parse, d);
      assert sources == before + [last];
    }
  }

  ghost predicate SomeSourceHas(sources: seq<Source>, c: Category, parse: FeedParser, d: string) {
    exists s :: s in sources && s.category == c && d in parse(Body(s))
  }

  lemma SomeSourceLast(before: seq<Source>, last: Source, c: Category, parse: FeedParser, d: string)
    ensures SomeSourceHas(before + [last], c, parse, d)
       <==> SomeSourceHas(before, c, parse, d) || (last.category == c && d in parse(Body(last)))
  {
    if s :| s in before && s.category == c && d in parse(Body(s)) {
      assert s in before + [last];
    }
    assert last in before + [last];
  }

  lemma SameList(x: seq<Source>, y: seq<Source>, parse: FeedParser, c: Category, a: seq<string>, b: seq<string>)
    requires forall s :: s in x <==> s in y
    requires Enumerates(a, CompiledSet(x, c, parse)) && Enumerates(b, CompiledSet(y, c, parse))
    ensures a == b
  {
    forall d ensures d in a <==> d in b {
      CompiledFrom(x, c, parse, d);
      CompiledFrom(y, c, parse, d);
    }
    AscendingUnique(a, b);
  }

  lemma SameKeys(x: seq<Source>, y: seq<Source>, parse: FeedParser,
                 a: map<Category, seq<string>>, b: map<Category, seq<string>>)
    requires forall s :: s in x <==> s in y
    requires Compiled(a, x, parse) && Compiled(b, y, parse)
    ensures a.Keys == b.Keys
  {
    SameCategories(x, y);
    SameCategories(y, x);
    CompiledKeys(a, x, parse);
    CompiledKeys(b, y, parse);
  }

  lemma {:induction false} CompiledKeys(a: map<Category, seq<string>>, x: seq<Source>, parse: FeedParser)
    requires Compiled(a, x, parse)
    ensures a.Keys == CategoriesOf(x)
  {
  }

  lemma SameLists(x: seq<Source>, y: seq<Source>, parse: FeedParser,
                  a: map<Category, seq<string>>, b: map<Category, seq<string>>)
    requires forall s :: s in x <==> s in y
    requires Compiled(a, x, parse) && Compiled(b, y, parse) && a.Keys == b.Keys
    ensures a == b
  {
    forall c | c in a ensures a[c] == b[c] {
      SameList(x, y, parse, c, a[c], b[c]);
    }
  }

  lemma FitsMember(sources: seq<Source>, parse: FeedParser, s: Source)
    requires AllFit(sources, parse) && s in sources
    ensures Fits(s, parse)
  {
    var i :| 0 <= i < |sources| && sources[i] == s;
  }

  lemma SameFit(x: seq<Source>, y: seq<Source>, parse: FeedParser)
    requires AllFit(x, parse) && forall i | 0 <= i < |y| :: y[i] in x
    ensures AllFit(y, parse)
  {
    forall i | 0 <= i < |y| ensures Fits(y[i], parse) {
      FitsMember(x, parse, y[i]);
    }
  }

  lemma BothFit(x: seq<Source>, y: seq<Source>, parse: FeedParser)
    requires forall s :: s in x <==> s in y
    ensures AllFit(x, parse) == AllFit(y, parse)
  {
    if AllFit(x, parse) { SameFit(x, y, parse); }
    if AllFit(y, parse) { SameFit(y, x, parse); }
  }

  /** Neither the order of the sources nor repeating one changes the compiled lists, or whether there are any. */
  lemma SourceOrder(x: seq<Source>, y: seq<Source>, parse: FeedParser,
                    a: map<Category, seq<string>>, b: map<Category, seq<string>>)
    requires forall s :: s in x <==> s in y
    requires Compiled(a, x, parse) && Compiled(b, y, parse)
    ensures a == b
    ensures AllFit(x, parse) == AllFit(y, parse)
  {
    SameKeys(x, y, parse, a, b);
    SameLists(x, y, parse, a, b);
    BothFit(x, y, parse);
  }

  // ---- The artifact and the loader -------------------------------------------------

  type Bytes = seq<nat>

  /** `${domains.join("\n")}\n` */
  function ArtifactText(domains: seq<string>): string {
    Join(domains, '\n') + ['\n']
  }

  /** Where ReadLine stops: at the first carriage return or line feed. */
  function LineEnd(text: string): (i: nat)
    ensures i <= |text|
    ensures forall j | 0 <= j < i :: text[j] != '\n' && text[j] != '\r'
    ensures i < |text| ==> text[i] == '\n' || text[i] == '\r'
  {
    if text == [] || text[0] == '\n' || text[0] == '\r' then 0 else 1 + LineEnd(text[1..])
  }

  /** What is left after the line and its terminator. */
  function AfterLine(text: string): (rest: string)
    ensures text != [] ==> |rest| < |text|
  {
    var i := LineEnd(text);
    if i == |text| then []
    else if text[i] == '\r' && i + 1 < |text| && text[i + 1] == '\n' then text[i + 2..]
    else text[i + 1..]
  }

  function ReadLines(text: string): seq<string>
    decreases |text|
  {
    if text == [] then [] else [text[..LineEnd(text)]] + ReadLines(AfterLine(text))
  }

  predicate IsEntry(line: string) {
    Trim(line) != [] && Trim(line)[0] != '#'
  }

  /** The entries of a file; the loader's set ignores case, so they are folded to lower case. */
  function EntriesOf(lines: seq<string>): set<string> {
    if lines == [] then {}
    else EntryOf(lines[0]) + EntriesOf(lines[1..])
  }

  function EntryOf(line: string): set<string> {
    if IsEntry(line) then {Lower(Trim(line))} else {}
  }

  function EntriesIn(text: string): set<string> {
    EntriesOf(ReadLines(text))
  }

  lemma {:induction false} EntriesNext(text: string)
    requires text != []
    ensures EntriesIn(text) == EntryOf(text[..LineEnd(text)]) + EntriesIn(AfterLine(text))
  {
    assert ReadLines(text)[1..] == ReadLines(AfterLine(text));
  }

  /** The inner loop of LoadLists. */
  method LoadEntries(text: string) returns (entries: set<string>)
    ensures entries == EntriesIn(text)
  {
    entries := {};
    var rest := text;
    while rest != []
      invariant EntriesIn(text) == entries + EntriesIn(rest)
      decreases |rest|
    {
      EntriesNext(rest);
      var trimmed := Trim(rest[..LineEnd(rest)]);
      if |trimmed| > 0 && trimmed[0] != '#' { entries := entries + {Lower(trimmed)}; }
      rest := AfterLine(rest);
    }
  }

  /** LoadLists: the files that exist, decompressed and read. */
  method LoadLists(disk: map<Category, Bytes>, gunzip: Bytes -> string) returns (lists: Lists)
    ensures lists.Keys == disk.Keys
    ensures forall c | c in disk :: lists[c] == EntriesIn(gunzip(disk[c]))
  {
    lists := map[];
    var rest := disk.Keys;
    while rest != {}
      invariant rest <= disk.Keys && lists.Keys == disk.Keys - rest
      invariant forall c | c in lists :: lists[c] == EntriesIn(gunzip(disk[c]))
      decreases |rest|
    {
      var c :| c in rest;
      var entries := LoadEntries(gunzip(disk[c]));
      lists := lists[c := entries];
      rest := rest - {c};
    }
  }

  /** A line that the loader takes as it stands. */
  predicate CleanEntry(d: string) {
    d != [] && d[0] != '#' && Trim(d) == d && Lower(d) == d && '\n' !in d && '\r' !in d
  }

  lemma {:induction false} LineEndAt(d: string, rest: string)
    requires '\n' !in d && '\r' !in d
    ensures LineEnd(d + ['\n'] + rest) == |d|
  {
    var text := d + ['\n'] + rest;
    if d == [] {
      assert text[0] == '\n';
    } else {
      assert text[0] == d[0] && d[0] in d;
      assert text[1..] == d[1..] + ['\n'] + rest;
      LineEndAt(d[1..], rest);
    }
  }

  lemma OneEntry(d: string, rest: string)
    requires CleanEntry(d)
    ensures EntriesIn(d + ['\n'] + rest) == {d} + EntriesIn(rest)
  {
    var text := d + ['\n'] + rest;
    LineEndAt(d, rest);
    assert text[..|d|] == d && AfterLine(text) == rest;
    EntriesNext(text);
  }

  /** A line of a list file counts trimmed and in lower case, unless it is blank or a comment. */
  lemma LoadedLine(line: string, rest: string)
    requires '\n' !in line && '\r' !in line
    ensures EntriesIn(line + ['\n'] + rest) ==
              (if Trim(line) == [] || Trim(line)[0] == '#' then {} else {Lower(Trim(line))}) + EntriesIn(rest)
  {
    var text := line + ['\n'] + rest;
    LineEndAt(line, rest);
    assert text[..|line|] == line && AfterLine(text) == rest;
    EntriesNext(text);
  }

  function Unlines(domains: seq<string>): string {
    if domains == [] then [] else domains[0] + ['\n'] + Unlines(domains[1..])
  }

  lemma {:induction false} ArtifactIsUnlines(domains: seq<string>)
    requires domains != []
    ensures ArtifactText(domains) == Unlines(domains)
  {
    if |domains| > 1 {
      ArtifactIsUnlines(domains[1..]);
    }
  }

  function Elements(domains: seq<string>): set<string> {
    if domains == [] then {} else {domains[0]} + Elements(domains[1..])
  }

  lemma {:induction false} ElementsMembers(domains: seq<string>, d: string)
    ensures d in Elements(domains) <==> d in domains
  {
    if domains != [] {
      ElementsMembers(domains[1..], d);
      assert domains == [domains[0]] + domains[1..];
    }
  }

  lemma {:induction false} LoadUnlines(domains: seq<string>)
    requires forall e | e in domains :: CleanEntry(e)
    ensures EntriesIn(Unlines(domains)) == Elements(domains)
  {
    if domains != [] {
      LoadUnlines(domains[1..]);
      OneEntry(domains[0], Unlines(domains[1..]));
    }
  }

  lemma NoEntries()
    ensures EntriesIn(['\n']) == {}
  {
    assert LineEnd(['\n']) == 0 && ['\n'][..0] == [] && AfterLine(['\n']) == [];
    EntriesNext(['\n']);
  }

  /** Loading an artifact gives exactly the compiled domains. */
  lemma LoadArtifact(domains: seq<string>, d: string)
    requires forall e | e in domains :: CleanEntry(e)
    ensures d in EntriesIn(ArtifactText(domains)) <==> d in domains
  {
    if domains == [] {
      assert ArtifactText(domains) == ['\n'];
      NoEntries();
    } else {
      ArtifactIsUnlines(domains);
      LoadUnlines(domains);
      ElementsMembers(domains, d);
    }
  }
}

/** From feeds to decisions, across the compiler, the artifact, the loader and the filter. */
module FeedPipeline {
  import opened Common
  import opened ContractDomains
  import opened BlocklistFeed
  import opened PolicyModels
  import PolicyEvaluator

  lemma CleanFromHost(d: string)
    requires HostText(d) && d != []
    ensures CleanEntry(d)
  {
    DomainNames.TrimNothing(d);
    assert d[0] in d;
  }

  /** A parser that yields only what the normaliser of the contracts package can return. */
  ghost predicate YieldsHosts(parse: FeedParser) {
    forall body, d :: d in parse(body) ==> d != [] && HostText(d)
  }

  lemma {:induction false} DomainsAreHosts(lines: seq<string>, host: HostParser, d: string)
    requires HostParserOk(host) && d in DomainsOf(lines, LineParserOf(host))
    ensures d != [] && HostText(d)
  {
    var last := |lines| - 1;
    if d in DomainsOf(lines[..last], LineParserOf(host)) {
      DomainsAreHosts(lines[..last], host, d);
    } else {
      LineIsHost(lines[last], host, d);
    }
  }

  lemma LineIsHost(line: string, host: HostParser, d: string)
    requires HostParserOk(host) && LineDomain(line, host) == Some(d)
    ensures d != [] && HostText(d)
  {
  }

  lemma FeedsYieldHosts(host: HostParser)
    requires HostParserOk(host)
    ensures YieldsHosts(FeedParserOf(host))
  {
    forall body, d | d in FeedParserOf(host)(body) ensures d != [] && HostText(d) {
      DomainsAreHosts(Lines(body), host, d);
    }
  }

  /** The agent's lists after it has loaded the artifacts of these compiled lists. */
  ghost predicate Installed(lists: Lists, compiled: map<Category, seq<string>>, gzip: string -> Bytes, gunzip: Bytes -> string) {
    lists.Keys == compiled.Keys
    && forall c | c in compiled :: lists[c] == EntriesIn(gunzip(gzip(ArtifactText(compiled[c]))))
  }

  lemma CompiledClean(compiled: map<Category, seq<string>>, sources: seq<Source>, parse: FeedParser, c: Category)
    requires Compiled(compiled, sources, parse) && YieldsHosts(parse) && c in compiled
    ensures forall d | d in compiled[c] :: CleanEntry(d)
  {
    forall d | d in compiled[c] ensures CleanEntry(d) {
      CompiledFrom(sources, c, parse, d);
      CleanFromHost(d);
    }
  }

  /** Loading the written artifacts yields exactly the compiled sets. */
  lemma LoadedIsCompiled(lists: Lists, compiled: map<Category, seq<string>>, sources: seq<Source>, parse: FeedParser,
                         gzip: string -> Bytes, gunzip: Bytes -> string, c: Category)
    requires Compiled(compiled, sources, parse) && YieldsHosts(parse)
    requires Installed(lists, compiled, gzip, gunzip) && forall text :: gunzip(gzip(text)) == text
    requires c in compiled
    ensures lists[c] == CompiledSet(sources, c, parse)
  {
    CompiledClean(compiled, sources, parse, c);
    forall d ensures d in lists[c] <==> d in CompiledSet(sources, c, parse) {
      LoadArtifact(compiled[c], d);
    }
  }

  /**
   * The whole pipeline: the agent finds a name in a category's list exactly when some
   * feed of that category contains the name or a parent of it.
   */
  lemma PipelineMeaning(lists: Lists, compiled: map<Category, seq<string>>, sources: seq<Source>, parse: FeedParser,
                        gzip: string -> Bytes, gunzip: Bytes -> string, c: Category, name: string)
    requires Compiled(compiled, sources, parse) && YieldsHosts(parse)
    requires Installed(lists, compiled, gzip, gunzip) && forall text :: gunzip(gzip(text)) == text
    ensures c in lists && PolicyEvaluator.ListHit(lists[c], name)
       <==> exists d: string :: SomeSourceHas(sources, c, parse, d) && DomainNames.EqualOrParent(d, name)
  {
    if c in compiled {
      LoadedIsCompiled(lists, compiled, sources, parse, gzip, gunzip, c);
      PolicyEvaluator.HitIsListed(lists[c], name);
      forall d: string ensures d in lists[c] <==> SomeSourceHas(sources, c, parse, d) {
        CompiledFrom(sources, c, parse, d);
      }
    }
    HasCategory(sources, c, parse);
  }

  /**
   * The same for the project's own parser: the agent finds a name in a category's list
   * exactly when some line of some source of the category gives the name or a parent of it.
   */
  lemma FeedMeaning(lists: Lists, compiled: map<Category, seq<string>>, sources: seq<Source>, host: HostParser,
                    gzip: string -> Bytes, gunzip: Bytes -> string, c: Category, name: string)
    requires HostParserOk(host) && Compiled(compiled, sources, FeedParserOf(host))
    requires Installed(lists, compiled, gzip, gunzip) && forall text :: gunzip(gzip(text)) == text
    ensures c in lists && PolicyEvaluator.ListHit(lists[c], name)
       <==> exists d: string :: SomeSourceHas(sources, c, FeedParserOf(host), d) && DomainNames.EqualOrParent(d, name)
  {
    FeedsYieldHosts(host);
    PipelineMeaning(lists, compiled, sources, FeedParserOf(host), gzip, gunzip, c, name);
  }

  lemma {:induction false} HasCategory(sources: seq<Source>, c: Category, parse: FeedParser)
    ensures (exists d: string :: SomeSourceHas(sources, c, parse, d)) ==> c in CategoriesOf(sources)
  {
  }

  /** Every rule came through the worker's normaliser. */
  ghost predicate RulesFromWorker(policy: Policy, host: HostParser) {
    forall rule | rule in policy.domainRules :: exists input: string :: NormalizeDomain(input, host) == Some(rule.domain)
  }

  lemma RuleNeverRaises(rule: DomainRule, domain: string, input: string, host: HostParser)
    requires HostParserOk(host) && NormalizeDomain(input, host) == Some(rule.domain)
    ensures PolicyEvaluator.RuleVerdict(rule, domain).Some?
  {
    AgentKeepsDomain(input, host);
    PolicyEvaluator.StopsIsFor(rule, domain);
  }

  lemma SyncedVerdict(policy: Policy, i: nat, domain: string, host: HostParser)
    requires HostParserOk(host) && RulesFromWorker(policy, host) && i < |policy.domainRules|
    ensures PolicyEvaluator.RuleVerdict(policy.domainRules[i], domain).Some?
  {
    var rule := policy.domainRules[i];
    assert rule in policy.domainRules;
    var input: string :| NormalizeDomain(input, host) == Some(rule.domain);
    RuleNeverRaises(rule, domain, input, host);
  }

  /** With rules that the worker stored, the filter never raises on a well-formed name. */
  lemma SyncedRulesNeverRaise(policy: Policy, lists: Lists, domain: string, now: int, clock: Clock, host: HostParser)
    requires HostParserOk(host) && RulesFromWorker(policy, host)
    ensures PolicyEvaluator.Decide(policy, lists, domain, now, clock).Some?
  {
    if !policy.paused {
      var i := PolicyEvaluator.RuleSearch(policy.domainRules, domain, now);
      if i < |policy.domainRules| {
        SyncedVerdict(policy, i, domain, host);
      }
    }
  }
}
