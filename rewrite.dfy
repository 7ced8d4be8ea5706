/** `re.sub(pattern, '', s)` for the patterns the scrapers use to shorten product names.
    A pattern is given as a matcher `at(s, p)` returning where its match starting at `p`
    ends; every such pattern here consumes at least one character. */
module Rewrite {
  import opened Common
  import opened Text

  /** Every match of `at` in `s` is non-empty and ends inside `s`. */
  ghost predicate Advances(s: string, at: (string, nat) -> Option<nat>) {
    forall p :: 0 <= p <= |s| && at(s, p).Some? ==> p < at(s, p).value <= |s|
  }

  /** The substitution applied to `s[p..]`: a match is dropped and scanning resumes
      at its end; elsewhere the character is kept and scanning moves on by one. */
  function SubFrom(s: string, p: nat, at: (string, nat) -> Option<nat>): (r: string)
    requires Advances(s, at)
    decreases |s| - p
    ensures p <= |s| ==> |r| <= |s| - p
  {
    if p >= |s| then []
    else
      match at(s, p)
      case Some(e) => SubFrom(s, e, at)
      case None => [s[p]] + SubFrom(s, p + 1, at)
  }

  /** `re.sub(pattern, '', s)`. */
  function Sub(s: string, at: (string, nat) -> Option<nat>): string
    requires Advances(s, at)
  {
    SubFrom(s, 0, at)
  }

  /** The index of the first newline at or after `i`, or `|s|`: where a greedy `.*` stops. */
  function LineEnd(s: string, i: nat): (e: nat)
    decreases |s| - i
    ensures i <= |s| ==> i <= e
    ensures e == |s| || (e < |s| && s[e] == '\n')
    ensures forall k :: i <= k < e ==> s[k] != '\n'
  {
    if i >= |s| then |s|
    else if s[i] == '\n' then i
    else LineEnd(s, i + 1)
  }

  /** `\s*LIT.*` at `p`: spaces, the literal, then the rest of the line. */
  function TailAt(s: string, p: nat, lit: string): (r: Option<nat>)
    requires lit != []
    ensures r.Some? ==> p < r.value <= |s| && (r.value == |s| || s[r.value] == '\n')
  {
    var q := p + SpaceRun(s, p);
    if OccursAt(s, lit, q) then Some(LineEnd(s, q + |lit|)) else None
  }

  /** `\s*M\s*LIT.*` at `p`: spaces, the mark, spaces, the literal, then the rest of the line. */
  function MarkedTailAt(s: string, p: nat, mark: char, lit: string): (r: Option<nat>)
    requires lit != []
    ensures r.Some? ==> p < r.value <= |s| && (r.value == |s| || s[r.value] == '\n')
  {
    var q := p + SpaceRun(s, p);
    if q < |s| && s[q] == mark then TailAt(s, q + 1, lit) else None
  }

  /** A literal that does not start with a space is matched by `\s*LIT.*` where it occurs. */
  lemma TailAtOccurrence(s: string, q: nat, lit: string)
    requires lit != [] && !IsSpace(lit[0]) && OccursAt(s, lit, q)
    ensures TailAt(s, q, lit).Some?
  {
    assert s[q] == s[q..q + |lit|][0];
  }

  predicate NoNewline(t: string) {
    forall m :: 0 <= m < |t| ==> t[m] != '\n'
  }

  /** The index of the first newline in `t`, or `|t|`. */
  function FirstNewline(t: string): (n: nat)
    ensures n <= |t|
    ensures forall m :: 0 <= m < n ==> t[m] != '\n'
    ensures n < |t| ==> t[n] == '\n'
  {
    if t == [] || t[0] == '\n' then 0 else 1 + FirstNewline(t[1..])
  }

  /** The pattern reaches every occurrence of `lit` and each of its matches stops at a
      newline or at the end of the string (the pattern ends in `.*`). */
  ghost predicate CatchesLiteral(s: string, at: (string, nat) -> Option<nat>, lit: string) {
    && Advances(s, at)
    && lit != [] && NoNewline(lit)
    && (forall q :: 0 <= q <= |s| && OccursAt(s, lit, q) ==> at(s, q).Some?)
    && (forall q :: 0 <= q <= |s| && at(s, q).Some? ==>
          at(s, q).value == |s| || s[at(s, q).value] == '\n')
  }

  /** After a match the output continues at a newline (or is empty). */
  lemma {:induction false} SubFromAfterMatch(s: string, p: nat, at: (string, nat) -> Option<nat>, lit: string)
    requires CatchesLiteral(s, at, lit)
    requires p < |s| && at(s, p).Some?
    ensures var t := SubFrom(s, p, at); t != [] ==> t[0] == '\n'
    decreases |s| - p
  {
    var e := at(s, p).value;
    if e < |s| && at(s, e).Some? {
      SubFromAfterMatch(s, e, at, lit);
    }
  }

  /** Before its first newline, `t` is a copy of `s` from `p` on. */
  predicate CopiesUpToNewline(t: string, s: string, p: nat) {
    forall k :: 0 <= k < FirstNewline(t) ==> p + k < |s| && t[k] == s[p + k]
  }

  /** Up to the first newline it emits, the output copies `s` from `p` on. */
  lemma {:induction false} SubFromCopies(s: string, p: nat, at: (string, nat) -> Option<nat>, lit: string)
    requires CatchesLiteral(s, at, lit)
    requires p <= |s|
    ensures CopiesUpToNewline(SubFrom(s, p, at), s, p)
    decreases |s| - p
  {
    var t := SubFrom(s, p, at);
    if p < |s| {
      if at(s, p).Some? {
        SubFromAfterMatch(s, p, at, lit);
        if t != [] {
          assert t[0] == '\n';
        }
        assert FirstNewline(t) == 0;
        assert CopiesUpToNewline(t, s, p);
      } else {
        SubFromCopies(s, p + 1, at, lit);
        assert t == [s[p]] + SubFrom(s, p + 1, at);
        CopiesCons(s, p, SubFrom(s, p + 1, at));
      }
    } else {
      assert t == [];
      assert FirstNewline(t) == 0;
    }
  }

  /** Once a pattern that catches `lit` has been substituted away, `lit` no longer occurs,
      not even across the place where a match was removed. */
  lemma {:induction false} SubFromRemovesLiteral(s: string, p: nat, at: (string, nat) -> Option<nat>, lit: string)
    requires CatchesLiteral(s, at, lit)
    requires p <= |s|
    ensures !Contains(SubFrom(s, p, at), lit)
    decreases |s| - p
  {
    var t := SubFrom(s, p, at);
    if p < |s| {
      match at(s, p)
      case Some(e) =>
        SubFromRemovesLiteral(s, e, at, lit);
      case None =>
        var u := SubFrom(s, p + 1, at);
        assert t == [s[p]] + u;
        SubFromRemovesLiteral(s, p + 1, at, lit);
        SubFromCopies(s, p, at, lit);
        forall j | 0 <= j <= |t| - |lit| ensures !OccursAt(t, lit, j) {
          if j > 0 {
            assert t[j..j + |lit|] == u[j - 1..j - 1 + |lit|];
            assert !OccursAt(u, lit, j - 1);
          } else {
            LeadDiffers(s, p, t, lit);
          }
        }
    }
  }

  /** Putting `s[p]` in front of a copy of `s` from `p + 1` gives a copy from `p`. */
  lemma CopiesCons(s: string, p: nat, u: string)
    requires p < |s| && CopiesUpToNewline(u, s, p + 1)
    ensures CopiesUpToNewline([s[p]] + u, s, p)
  {
    var t := [s[p]] + u;
    assert t[0] == s[p] && t[1..] == u;
    if s[p] == '\n' {
      assert FirstNewline(t) == 0;
    } else {
      var f := FirstNewline(t);
      assert f == 1 + FirstNewline(u);
      forall k | 0 <= k < f ensures p + k < |s| && t[k] == s[p + k] {
        if k > 0 {
          CopiedAt(u, s, p + 1, k - 1);
          assert t[k] == u[k - 1];
        }
      }
    }
  }

  lemma CopiedAt(t: string, s: string, p: nat, k: nat)
    requires CopiesUpToNewline(t, s, p) && k < FirstNewline(t)
    ensures p + k < |s| && t[k] == s[p + k]
  {
  }

  /** The first `|lit|` output characters are not `lit` when no match starts at `p`. */
  lemma LeadDiffers(s: string, p: nat, t: string, lit: string)
    requires lit != [] && NoNewline(lit) && |lit| <= |t|
    requires !OccursAt(s, lit, p)
    requires CopiesUpToNewline(t, s, p)
    ensures t[..|lit|] != lit
  {
    var n := |lit|;
    var f := FirstNewline(t);
    if f >= n {
      CopiedAt(t, s, p, n - 1);
      forall k | 0 <= k < n ensures t[k] == s[p + k] {
        CopiedAt(t, s, p, k);
      }
      assert t[..n] == s[p..p + n];
    } else {
      assert t[..n][f] == '\n';
      assert lit[f] != '\n';
    }
  }

  lemma SubRemovesLiteral(s: string, at: (string, nat) -> Option<nat>, lit: string)
    requires CatchesLiteral(s, at, lit)
    ensures !Contains(Sub(s, at), lit)
  {
    SubFromRemovesLiteral(s, 0, at, lit);
  }

  /** `\s*LIT.*` and `\s*M\s*LIT.*` only match where the literal occurs. */
  lemma TailAtNeedsLiteral(s: string, p: nat, lit: string)
    requires lit != []
    ensures TailAt(s, p, lit).Some? ==> Contains(s, lit)
    ensures forall m :: MarkedTailAt(s, p, m, lit).Some? ==> Contains(s, lit)
  {
    var q := p + SpaceRun(s, p);
    if TailAt(s, p, lit).Some? {
      assert OccursAt(s, lit, q);
    }
    forall m | MarkedTailAt(s, p, m, lit).Some? ensures Contains(s, lit) {
      var q1 := q + 1;
      assert OccursAt(s, lit, q1 + SpaceRun(s, q1));
    }
  }

  /** Where the pattern matches nowhere from `p` on, the substitution copies `s[p..]`. */
  lemma {:induction false} SubFromNoMatch(s: string, p: nat, at: (string, nat) -> Option<nat>)
    requires Advances(s, at) && p <= |s|
    requires forall q :: p <= q <= |s| ==> at(s, q).None?
    ensures SubFrom(s, p, at) == s[p..]
    decreases |s| - p
  {
    if p < |s| {
      SubFromNoMatch(s, p + 1, at);
      assert s[p..] == [s[p]] + s[p + 1..];
    }
  }

  /** A pattern that matches nowhere leaves `s` unchanged. */
  lemma SubNoMatch(s: string, at: (string, nat) -> Option<nat>)
    requires Advances(s, at)
    requires forall q :: 0 <= q <= |s| ==> at(s, q).None?
    ensures Sub(s, at) == s
  {
    SubFromNoMatch(s, 0, at);
  }

  /** Every match of `at` is non-empty and runs to a newline or to the end of `s`, as one
      ending in `.*` does. */
  ghost predicate EndsAtLineEnd(s: string, at: (string, nat) -> Option<nat>) {
    && Advances(s, at)
    && forall q :: 0 <= q <= |s| && at(s, q).Some? ==> at(s, q).value == |s| || s[at(s, q).value] == '\n'
  }

  /** The text before the leftmost match of `at`, or all of `s` when there is none. */
  function CutAtFirst(s: string, at: (string, nat) -> Option<nat>): (r: string)
    ensures StartsWith(s, r)
  {
    match Search(s, 0, at)
    case Some((q, _)) => s[..q]
    case None => s
  }

  lemma {:induction false} SubFromOneLine(s: string, p: nat, at: (string, nat) -> Option<nat>)
    requires EndsAtLineEnd(s, at) && NoNewline(s) && p <= |s|
    ensures SubFrom(s, p, at) == match Search(s, p, at) case Some((q, _)) => s[p..q] case None => s[p..]
    decreases |s| - p
  {
    if p < |s| {
      match at(s, p)
      case Some(e) =>
        assert e == |s|;
      case None =>
        SubFromOneLine(s, p + 1, at);
        assert Search(s, p, at) == Search(s, p + 1, at);
        match Search(s, p + 1, at)
        case Some((q, _)) =>
          assert s[p..q] == [s[p]] + s[p + 1..q];
        case None =>
          assert s[p..] == [s[p]] + s[p + 1..];
    }
  }

  /** On a single line, a pattern ending in `.*` cuts the text at its leftmost match. */
  lemma SubOneLine(s: string, at: (string, nat) -> Option<nat>)
    requires EndsAtLineEnd(s, at) && NoNewline(s)
    ensures Sub(s, at) == CutAtFirst(s, at)
  {
    SubFromOneLine(s, 0, at);
  }

  /** Stripping a line leaves a line. */
  lemma StripNoNewline(s: string)
    requires NoNewline(s)
    ensures NoNewline(Strip(s))
  {
    var st := Strip(s);
    var a, b :| 0 <= a <= b <= |s| && st == s[a..b];
    forall m | 0 <= m < |st| ensures st[m] != '\n' {
      assert st[m] == s[a + m];
    }
  }

  /** A prefix of a line is a line. */
  lemma PrefixNoNewline(s: string, r: string)
    requires NoNewline(s) && StartsWith(s, r)
    ensures NoNewline(r)
  {
    forall m | 0 <= m < |r| ensures r[m] != '\n' {
      assert r[m] == s[..|r|][m];
    }
  }
}
