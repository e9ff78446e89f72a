/**
 * What the run scanner of `replaceParagraph` promises about the runs it leaves
 * behind, over the whole loop rather than one layout: runs without text are
 * skipped and so survive untouched, the runs already scanned are final, and the
 * anchor run that holds a placeholder's `$` is rewritten but never deleted.
 */
module ScannerRuns {
  import opened Wrappers
  import opened Text
  import opened Params
  import opened Scanner

  // ---------------------------------------------------------------------------
  // Runs without text

  /** The runs whose text is `null` or empty, as a multiset of run values. */
  function Blank(rs: seq<Run>): multiset<Run> {
    if rs == [] then multiset{}
    else (if TextOf(rs[0]) == "" then multiset{rs[0]} else multiset{}) + Blank(rs[1..])
  }

  lemma {:induction false} BlankAppend(a: seq<Run>, b: seq<Run>)
    ensures Blank(a + b) == Blank(a) + Blank(b)
    decreases |a|
  {
    if a != [] {
      assert (a + b)[1..] == a[1..] + b;
      BlankAppend(a[1..], b);
    } else {
      assert a + b == b;
    }
  }

  /** The run at `i` and what lies either side of it. */
  lemma BlankAround(rs: seq<Run>, i: nat, x: Run)
    requires i < |rs|
    ensures Blank(rs) == Blank(rs[..i]) + Blank([rs[i]]) + Blank(rs[i + 1..])
    ensures Blank(rs[i := x]) == Blank(rs[..i]) + Blank([x]) + Blank(rs[i + 1..])
  {
    assert rs == rs[..i] + [rs[i]] + rs[i + 1..];
    BlankAppend(rs[..i] + [rs[i]], rs[i + 1..]);
    BlankAppend(rs[..i], [rs[i]]);
    assert rs[i := x] == rs[..i] + [x] + rs[i + 1..];
    BlankAppend(rs[..i] + [x], rs[i + 1..]);
    BlankAppend(rs[..i], [x]);
  }

  /** Rewriting a run that has text keeps every run without text. */
  lemma BlankUpdate(rs: seq<Run>, i: nat, x: Run)
    requires i < |rs| && TextOf(rs[i]) != ""
    ensures Blank(rs) <= Blank(rs[i := x])
  {
    BlankAround(rs, i, x);
    assert Blank([rs[i]]) == multiset{} by { assert [rs[i]][1..] == []; }
  }

  /** Removing a run that has text keeps exactly the runs without text. */
  lemma BlankRemove(rs: seq<Run>, i: nat)
    requires i < |rs| && TextOf(rs[i]) != ""
    ensures Blank(Remove(rs, i)) == Blank(rs)
  {
    BlankAround(rs, i, rs[i]);
    assert Blank([rs[i]]) == multiset{} by { assert [rs[i]][1..] == []; }
    BlankAppend(rs[..i], rs[i + 1..]);
  }

  /** Inserting a run after `i` keeps every run without text. */
  lemma BlankInsert(rs: seq<Run>, i: nat, x: Run)
    requires i < |rs|
    ensures Blank(rs) <= Blank(rs[..i + 1] + [x] + rs[i + 1..])
  {
    assert rs == rs[..i + 1] + rs[i + 1..];
    BlankAppend(rs[..i + 1], rs[i + 1..]);
    BlankAppend(rs[..i + 1] + [x], rs[i + 1..]);
    BlankAppend(rs[..i + 1], [x]);
  }

  /** While a placeholder is open, its anchor run holds text (the `$` was found in it). */
  predicate Anchored(s: State) {
    s.mode != NotFound ==> s.anchor < |s.runs| && TextOf(s.runs[s.anchor]) != ""
  }

  lemma CloseKeepsBlank(s: State, t: string, e: nat, params: map<string, WordParam>, v: Variant)
    requires Inv(s) && Anchored(s) && s.mode == Start && s.index < |s.runs| && TextOf(s.runs[s.index]) == t
    requires 0 <= s.offset <= e < |t|
    ensures Blank(s.runs) <= Blank(Close(s, t, e, params, v).runs)
  {
    var sub := Substitute(s.runs[s.anchor], s.prev, s.key + t[s.offset..e], params, v, s.tables);
    var runs1 := s.runs[s.anchor := sub.0];
    BlankUpdate(s.runs, s.anchor, sub.0);
    if e + 1 < |t| {
      TailKeepsBlank(s, t, e, params, v, runs1);
    } else if s.index != s.anchor {
      BlankRemove(runs1, s.index);
    }
  }

  /** The `}` is not the run's last character: the tail is written back, or split off by the repaired scanner. */
  lemma TailKeepsBlank(s: State, t: string, e: nat, params: map<string, WordParam>, v: Variant, runs1: seq<Run>)
    requires Inv(s) && s.mode == Start && s.index < |s.runs| && TextOf(s.runs[s.index]) == t
    requires 0 <= s.offset <= e && e + 1 < |t|
    requires runs1 == s.runs[s.anchor := Substitute(s.runs[s.anchor], s.prev, s.key + t[s.offset..e], params, v, s.tables).0]
    requires Blank(s.runs) <= Blank(runs1)
    ensures Blank(s.runs) <= Blank(Close(s, t, e, params, v).runs)
  {
    if v == Repaired && s.index == s.anchor {
      var rs := runs1[..s.index + 1] + [Run(Some(t[e + 1..]), [])] + runs1[s.index + 1..];
      assert Close(s, t, e, params, v).runs == rs;
      BlankInsert(runs1, s.index, Run(Some(t[e + 1..]), []));
    } else {
      var x := runs1[s.index].(text := Some(t[e + 1..]));
      assert Close(s, t, e, params, v).runs == runs1[s.index := x];
      TailWrittenKeepsBlank(s, t, runs1, x);
    }
  }

  /** The tail written back into the current run, which may be the anchor just rewritten. */
  lemma TailWrittenKeepsBlank(s: State, t: string, runs1: seq<Run>, x: Run)
    requires s.anchor <= s.index < |s.runs| && TextOf(s.runs[s.index]) == t && t != ""
    requires |runs1| == |s.runs| && runs1 == s.runs[s.anchor := runs1[s.anchor]]
    requires Blank(s.runs) <= Blank(runs1)
    ensures Blank(s.runs) <= Blank(runs1[s.index := x])
  {
    if s.index == s.anchor {
      assert runs1[s.index := x] == s.runs[s.index := x];
      BlankUpdate(s.runs, s.index, x);
    } else {
      assert runs1[s.index] == s.runs[s.index];
      BlankUpdate(runs1, s.index, x);
    }
  }

  lemma AtStartKeepsBlank(s: State, t: string, params: map<string, WordParam>, v: Variant)
    requires Inv(s) && Anchored(s) && s.mode == Start && s.index < |s.runs| && TextOf(s.runs[s.index]) == t && t != ""
    ensures AtStart(s, t, params, v).Some? ==>
      Blank(s.runs) <= Blank(AtStart(s, t, params, v).value.runs) && Anchored(AtStart(s, t, params, v).value)
  {
    if s.offset == |t| || IndexOf(t, '}', s.offset) < 0 {
      if s.index != s.anchor {
        BlankRemove(s.runs, s.index);
      }
    } else {
      CloseKeepsBlank(s, t, IndexOf(t, '}', s.offset), params, v);
    }
  }

  lemma AtDollarKeepsBlank(s: State, t: string, params: map<string, WordParam>, v: Variant)
    requires s.mode == Dollar && s.index < |s.runs| && TextOf(s.runs[s.index]) == t && t != ""
    requires s.anchor <= s.index && 0 <= s.offset <= |t| && Anchored(s)
    ensures AtDollar(s, t, params, v).Some? ==>
      Blank(s.runs) <= Blank(AtDollar(s, t, params, v).value.runs) && Anchored(AtDollar(s, t, params, v).value)
  {
    if s.offset == |t| {
      assert AtDollar(s, t, params, v) == Some(s.(offset := 0, index := s.index + 1));
    } else if t[s.offset] != '{' {
      assert AtDollar(s, t, params, v).value.runs == s.runs;
    } else {
      var s1 := s.(offset := s.offset + 1, mode := Start);
      assert Inv(s1) && Anchored(s1);
      assert AtDollar(s, t, params, v) == AtStart(s1, t, params, v);
      AtStartKeepsBlank(s1, t, params, v);
    }
  }

  /** One iteration keeps every run without text and an open placeholder's anchor text. */
  lemma StepKeepsBlank(s: State, params: map<string, WordParam>, v: Variant)
    requires Inv(s) && Anchored(s) && s.index < |s.runs|
    ensures Step(s, params, v).Some? ==>
      Blank(s.runs) <= Blank(Step(s, params, v).value.runs) && Anchored(Step(s, params, v).value)
  {
    var text := s.runs[s.index].text;
    if text.Some? && text.value != "" {
      var t := text.value;
      match s.mode
      case NotFound =>
        var i := IndexOf(t, '$', 0);
        if i >= 0 {
          var s1 := s.(anchor := s.index, prev := s.prev + t[..i], offset := i + 1, mode := Dollar);
          assert Step(s, params, v) == AtDollar(s1, t, params, v);
          AtDollarKeepsBlank(s1, t, params, v);
        }
      case Dollar =>
        assert Step(s, params, v) == AtDollar(s, t, params, v);
        AtDollarKeepsBlank(s, t, params, v);
      case Start =>
        assert Step(s, params, v) == AtStart(s, t, params, v);
        AtStartKeepsBlank(s, t, params, v);
    }
  }

  /**
   * A run whose text is `null` or empty is skipped by every iteration and never
   * becomes an anchor, so the scan neither changes nor removes it: every such run
   * of the paragraph is among the runs the scan leaves.
   */
  lemma {:induction false} ScanKeepsBlank(s: State, params: map<string, WordParam>, v: Variant)
    requires Inv(s) && Anchored(s)
    ensures Scan(s, params, v).Some? ==> Blank(s.runs) <= Blank(Scan(s, params, v).value.runs)
    decreases Remaining(s)
  {
    if s.index < |s.runs| {
      StepKeepsBlank(s, params, v);
      match Step(s, params, v)
      case None =>
      case Some(next) =>
        Advance(s, next, params, v);
        ScanKeepsBlank(next, params, v);
    }
  }

  /** For a whole paragraph: the runs without text all survive the scanner. */
  lemma ParagraphKeepsBlank(runs: seq<Run>, params: map<string, WordParam>, v: Variant)
    ensures ScanRuns(runs, params, v).Some? ==> Blank(runs) <= Blank(ScanRuns(runs, params, v).value)
  {
    ScanKeepsBlank(Init(runs, []), params, v);
  }

  // ---------------------------------------------------------------------------
  // Scanned runs are final, and the anchor survives

  /** The runs before this index are final: those before the current run, or before an open placeholder's anchor. */
  function Settled(s: State): nat {
    if s.mode == NotFound then s.index else s.anchor
  }

  /**
   * How many runs the paragraph keeps at least: the current run is never removed
   * while no placeholder is open, and the anchor of an open one never is.
   */
  function Kept(s: State): nat {
    if s.mode != NotFound then s.anchor + 1
    else if s.index < |s.runs| then s.index + 1
    else |s.runs|
  }

  /** What one iteration may do to the runs: it leaves the settled ones alone and keeps at least as many. */
  predicate Settles(s: State, r: State) {
    && Settled(s) <= Settled(r) <= |r.runs|
    && Settled(s) <= |s.runs|
    && r.runs[..Settled(s)] == s.runs[..Settled(s)]
    && Kept(s) <= Kept(r)
  }

  lemma CloseSettles(s: State, t: string, e: nat, params: map<string, WordParam>, v: Variant)
    requires Inv(s) && s.mode == Start && s.index < |s.runs|
    requires 0 <= s.offset <= e < |t|
    ensures Settles(s, Close(s, t, e, params, v))
  {
    var sub := Substitute(s.runs[s.anchor], s.prev, s.key + t[s.offset..e], params, v, s.tables);
    var runs1 := s.runs[s.anchor := sub.0];
    assert runs1[..s.anchor] == s.runs[..s.anchor];
    if e + 1 < |t| {
      if v == Repaired && s.index == s.anchor {
        var rs := runs1[..s.index + 1] + [Run(Some(t[e + 1..]), [])] + runs1[s.index + 1..];
        assert rs[..s.anchor] == runs1[..s.anchor];
      } else {
        var rs := runs1[s.index := runs1[s.index].(text := Some(t[e + 1..]))];
        assert rs[..s.anchor] == runs1[..s.anchor];
      }
    } else if s.index != s.anchor {
      assert Remove(runs1, s.index)[..s.anchor] == runs1[..s.anchor];
    }
  }

  lemma AtStartSettles(s: State, t: string, params: map<string, WordParam>, v: Variant)
    requires Inv(s) && s.mode == Start && s.index < |s.runs|
    ensures AtStart(s, t, params, v).Some? ==> Settles(s, AtStart(s, t, params, v).value)
  {
    if s.offset == |t| || IndexOf(t, '}', s.offset) < 0 {
      if s.index != s.anchor {
        assert Remove(s.runs, s.index)[..s.anchor] == s.runs[..s.anchor];
      }
    } else {
      CloseSettles(s, t, IndexOf(t, '}', s.offset), params, v);
    }
  }

  lemma AtDollarSettles(s: State, t: string, params: map<string, WordParam>, v: Variant)
    requires s.mode == Dollar && s.index < |s.runs|
    requires s.anchor <= s.index && 0 <= s.offset <= |t|
    ensures AtDollar(s, t, params, v).Some? ==> Settles(s, AtDollar(s, t, params, v).value)
  {
    if s.offset < |t| && t[s.offset] == '{' {
      AtStartSettles(s.(offset := s.offset + 1, mode := Start), t, params, v);
    }
  }

  /** One iteration leaves the settled runs alone and never lets the paragraph drop below what is kept. */
  lemma StepSettles(s: State, params: map<string, WordParam>, v: Variant)
    requires Inv(s) && s.index < |s.runs|
    ensures Step(s, params, v).Some? ==> Settles(s, Step(s, params, v).value)
  {
    var text := s.runs[s.index].text;
    if text.Some? && text.value != "" {
      var t := text.value;
      match s.mode
      case NotFound =>
        var i := IndexOf(t, '$', 0);
        if i >= 0 {
          var s1 := s.(anchor := s.index, prev := s.prev + t[..i], offset := i + 1, mode := Dollar);
          assert Step(s, params, v) == AtDollar(s1, t, params, v);
          AtDollarSettles(s1, t, params, v);
        }
      case Dollar =>
        assert Step(s, params, v) == AtDollar(s, t, params, v);
        AtDollarSettles(s, t, params, v);
      case Start =>
        assert Step(s, params, v) == AtStart(s, t, params, v);
        AtStartSettles(s, t, params, v);
    }
  }

  /**
   * The whole loop from `s`: the runs before the current run (before the anchor,
   * while a placeholder is open) come out unchanged, and the paragraph keeps the
   * current run, or the open placeholder's anchor run, in place.
   */
  lemma {:induction false} ScanSettles(s: State, params: map<string, WordParam>, v: Variant)
    requires Inv(s)
    ensures Scan(s, params, v).Some? ==>
      var r := Scan(s, params, v).value;
      && Kept(s) <= |r.runs|
      && Settled(s) <= |r.runs|
      && r.runs[..Settled(s)] == s.runs[..Settled(s)]
    decreases Remaining(s)
  {
    if s.index < |s.runs| {
      StepSettles(s, params, v);
      match Step(s, params, v)
      case None =>
      case Some(next) =>
        Advance(s, next, params, v);
        ScanSettles(next, params, v);
        if Scan(s, params, v).Some? {
          var r := Scan(s, params, v).value;
          assert r.runs[..Settled(next)][..Settled(s)] == r.runs[..Settled(s)];
          assert next.runs[..Settled(next)][..Settled(s)] == next.runs[..Settled(s)];
        }
    }
  }

  /**
   * The anchor run is never deleted: once a placeholder is open, the paragraph the
   * scan leaves still has a run at the anchor's index, and every run before it is
   * as it was.
   */
  lemma ScanKeepsAnchor(s: State, params: map<string, WordParam>, v: Variant)
    requires Inv(s) && s.mode != NotFound
    ensures Scan(s, params, v).Some? ==>
      var r := Scan(s, params, v).value;
      s.anchor < |r.runs| && r.runs[..s.anchor] == s.runs[..s.anchor]
  {
    ScanSettles(s, params, v);
  }
}
