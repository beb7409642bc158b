/**
 * The agent's domain normaliser and its suffix walk. Names are ASCII: the IDN
 * mapping of an ASCII label is the label itself, and control characters are refused.
 */
module DomainNames {
  import opened Common
  import opened Text

  function TrimEndDots(s: string): (r: string)
    ensures r == [] || r[|r| - 1] != '.'
    ensures r <= s
  {
    if s != [] && s[|s| - 1] == '.' then TrimEndDots(s[..|s| - 1]) else s
  }

  predicate IsControl(c: char) {
    c < ' ' || c == 127 as char
  }

  predicate LabelsFit(labels: seq<string>) {
    forall i | 0 <= i < |labels| :: 0 < |labels[i]| <= 63
  }

  predicate NoControls(s: string) {
    forall i | 0 <= i < |s| :: !IsControl(s[i])
  }

  /** Normalize; None is the ArgumentException. */
  function Normalize(value: string): Option<string> {
    var candidate := Lower(TrimEndDots(Trim(value)));
    if |candidate| == 0 || |candidate| > 253 || '/' in candidate || ':' in candidate || ' ' in candidate then None
    else
      var labels := Split(candidate, '.');
      if !LabelsFit(labels) || !NoControls(candidate) then None
      else Some(Lower(Join(labels, '.')))
  }

  /** What a normalised name looks like. */
  predicate Canonical(d: string) {
    && 0 < |d| <= 253
    && Lower(d) == d
    && '/' !in d && ':' !in d && ' ' !in d
    && NoControls(d)
    && LabelsFit(Split(d, '.'))
  }

  /** What is accepted: after trimming and without trailing dots at most 253 characters, in labels of 1 to 63, without separators. */
  lemma {:induction false} AcceptedNames(value: string)
    ensures var c := Lower(TrimEndDots(Trim(value)));
            Normalize(value).Some? <==>
              && 1 <= |c| && |c| <= 253
              && (forall i | 0 <= i < |c| :: c[i] > ' ' && c[i] != '/' && c[i] != ':' && c[i] != 127 as char)
              && (forall i | 0 <= i < |Split(c, '.')| :: 1 <= |Split(c, '.')[i]| && |Split(c, '.')[i]| <= 63)
  {
    var c := Lower(TrimEndDots(Trim(value)));
    if NoControls(c) && '/' !in c && ':' !in c && ' ' !in c {
      forall i | 0 <= i < |c| ensures c[i] > ' ' && c[i] != '/' && c[i] != ':' { assert c[i] in c; }
    }
  }

  lemma NormalizeIsCandidate(value: string)
    requires Normalize(value).Some?
    ensures Normalize(value).value == Lower(TrimEndDots(Trim(value)))
    ensures Canonical(Normalize(value).value)
  {
    var candidate := Lower(TrimEndDots(Trim(value)));
    JoinSplit(candidate, '.');
    LowerIdempotent(TrimEndDots(Trim(value)));
  }

  lemma {:induction false} LastLabel(d: string)
    requires d != [] && d[|d| - 1] == '.'
    ensures var parts := Split(d, '.'); parts[|parts| - 1] == []
    decreases |d|
  {
    var i := IndexOf(d, '.');
    if i == |d| {
      IndexOfFinds(d, '.');
    } else if i + 1 < |d| {
      LastLabel(d[i + 1..]);
    }
  }

  lemma {:induction false} IndexOfFinds(s: string, c: char)
    requires c in s
    ensures IndexOf(s, c) < |s|
  {
    if s[0] != c {
      IndexOfFinds(s[1..], c);
    }
  }

  lemma {:induction false} TrimNothing(s: string)
    requires NoControls(s) && ' ' !in s
    ensures Trim(s) == s
  {
    if s != [] {
      assert s[0] in s && s[|s| - 1] in s;
    }
  }

  lemma {:induction false} NoTrailingDot(d: string)
    requires d != [] && LabelsFit(Split(d, '.'))
    ensures d[|d| - 1] != '.'
  {
    if d[|d| - 1] == '.' {
      LastLabel(d);
    }
  }

  lemma {:induction false} CandidateFixed(d: string)
    requires d != [] && NoControls(d) && ' ' !in d && LabelsFit(Split(d, '.'))
    ensures TrimEndDots(Trim(d)) == d
  {
    TrimNothing(d);
    NoTrailingDot(d);
  }

  /** A canonical name is its own normal form. */
  lemma CanonicalFixed(d: string)
    requires Canonical(d)
    ensures Normalize(d) == Some(d)
  {
    CandidateFixed(d);
    JoinSplit(d, '.');
  }

  /** Normalising twice is normalising once. */
  lemma NormalizeIdempotent(value: string)
    requires Normalize(value).Some?
    ensures Normalize(Normalize(value).value) == Normalize(value)
  {
    NormalizeIsCandidate(value);
    CanonicalFixed(Normalize(value).value);
  }

  // ---- The suffix walk -------------------------------------------------------

  /** The walk from a name to its last label. */
  function SuffixList(current: string): (r: seq<string>)
    ensures |r| >= 1 && r[0] == current
    decreases |current|
  {
    var dot := IndexOf(current, '.');
    if dot == |current| then [current] else [current] + SuffixList(current[dot + 1..])
  }

  /** The iterator's loop, run to its end. */
  method WalkSuffixes(name: string) returns (yielded: seq<string>)
    ensures yielded == SuffixList(name)
  {
    var current := name;
    yielded := [];
    while true
      invariant SuffixList(name) == yielded + SuffixList(current)
      decreases |current|
    {
      yielded := yielded + [current];
      var dot := IndexOf(current, '.');
      if dot == |current| { return; }
      current := current[dot + 1..];
    }
  }

  /** Suffixes; None is the exception of Normalize. */
  method Suffixes(domain: string) returns (result: Option<seq<string>>)
    ensures result == if Normalize(domain).None? then None else Some(SuffixList(Normalize(domain).value))
  {
    var normal := Normalize(domain);
    if normal.None? { return None; }
    var walked := WalkSuffixes(normal.value);
    result := Some(walked);
  }

  /** `p` is `d` or a parent of `d` at a label boundary. */
  predicate EqualOrParent(p: string, d: string) {
    p == d || EndsWith(d, "." + p)
  }

  /** The same by position. */
  lemma ParentAt(p: string, d: string)
    ensures EndsWith(d, "." + p) <==> |p| < |d| && d[|d| - |p| - 1] == '.' && d[|d| - |p|..] == p
  {
    if |p| < |d| {
      var s := d[|d| - |p| - 1..];
      assert s == [s[0]] + d[|d| - |p|..];
      assert ("." + p)[1..] == p;
      assert s[1..] == d[|d| - |p|..];
    }
  }

  lemma NoDots(s: string, n: nat)
    requires n <= |s| && '.' !in s[..n]
    ensures forall i | 0 <= i < n :: s[i] != '.'
  {
    forall i | 0 <= i < n ensures s[i] != '.' {
      assert s[..n][i] == s[i];
    }
  }

  lemma {:induction false} WalkOn(p: string, d: string, dot: nat)
    requires dot == IndexOf(d, '.')
    ensures p in SuffixList(d) <==> p == d || (dot < |d| && p in SuffixList(d[dot + 1..]))
  {
    if dot < |d| {
      assert SuffixList(d) == [d] + SuffixList(d[dot + 1..]);
    } else {
      assert SuffixList(d) == [d];
    }
  }

  /** The walk enumerates exactly the label-boundary suffixes. */
  lemma {:induction false} SuffixesExact(p: string, d: string)
    ensures p in SuffixList(d) <==> EqualOrParent(p, d)
    decreases |d|
  {
    var dot := IndexOf(d, '.');
    WalkOn(p, d, dot);
    if dot < |d| {
      SuffixesExact(p, d[dot + 1..]);
    }
    ParentOfTail(p, d, dot);
  }

  /** Below the first dot, being a parent is being a suffix of the rest. */
  lemma {:induction false} ParentOfTail(p: string, d: string, dot: nat)
    requires dot == IndexOf(d, '.')
    ensures dot == |d| ==> !EndsWith(d, "." + p)
    ensures dot < |d| ==> (EndsWith(d, "." + p) <==> EqualOrParent(p, d[dot + 1..]))
  {
    ParentAt(p, d);
    NoDots(d, dot);
    if dot < |d| {
      var tail := d[dot + 1..];
      ParentAt(p, tail);
      assert |p| <= |tail| ==> d[|d| - |p|..] == tail[|tail| - |p|..];
    }
  }

  /** In labels: the i-th suffix is the name without its first i labels. */
  lemma {:induction false} SuffixesAreLabels(d: string)
    ensures |SuffixList(d)| == |Split(d, '.')|
    ensures forall i | 0 <= i < |SuffixList(d)| :: SuffixList(d)[i] == Join(Split(d, '.')[i..], '.')
    decreases |d|
  {
    var dot := IndexOf(d, '.');
    JoinSplit(d, '.');
    var labels := Split(d, '.');
    assert labels[0..] == labels;
    if dot < |d| {
      var rest := d[dot + 1..];
      SuffixesAreLabels(rest);
      assert labels[1..] == Split(rest, '.');
      forall i | 0 <= i < |SuffixList(d)| ensures SuffixList(d)[i] == Join(labels[i..], '.') {
        if i > 0 {
          assert labels[i..] == Split(rest, '.')[i - 1..];
        }
      }
    }
  }
}
