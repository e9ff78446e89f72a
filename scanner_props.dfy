/**
 * What the run scanner of `replaceParagraph` does to typical run layouts.
 *
 * Each lemma follows the scanner state by state (`Advance` turns one `Step`
 * into an equality of final results) and states the runs and tables the
 * paragraph ends with.
 */
module ScannerProps {
  import opened Wrappers
  import opened Text
  import opened Params
  import opened Scanner

  /** `indexOf(c, from)` finds `c` right after a stretch `mid` that does not hold it. */
  lemma FirstAfter(t: string, from: nat, mid: string, c: char)
    requires from + |mid| < |t| && t[from..from + |mid|] == mid && c !in mid && t[from + |mid|] == c
    ensures IndexOf(t, c, from) == from + |mid|
  {
    forall k | from <= k < from + |mid|
      ensures t[k] != c
    {
      assert t[k] == mid[k - from];
    }
    IndexOfFinds(t, c, from, from + |mid|);
  }

  /** `indexOf(c, from)` is -1 when the rest of the text does not hold `c`. */
  lemma NoneAfter(t: string, from: nat, c: char)
    requires from <= |t| && c !in t[from..]
    ensures IndexOf(t, c, from) == -1
  {
    forall k | from <= k < |t|
      ensures t[k] != c
    {
      assert t[k] == t[from..][k - from];
    }
    IndexOfMisses(t, c, from);
  }

  /** Scanning from a state with no placeholder open and no `$` left changes nothing. */
  lemma {:induction false} ScanWithoutDollar(s: State, params: map<string, WordParam>, v: Variant)
    requires Inv(s) && s.mode == NotFound
    requires forall j :: s.index <= j < |s.runs| ==> '$' !in TextOf(s.runs[j])
    ensures Scan(s, params, v).Some?
    ensures Scan(s, params, v).value.runs == s.runs && Scan(s, params, v).value.tables == s.tables
    decreases Remaining(s)
  {
    if s.index < |s.runs| {
      var t := TextOf(s.runs[s.index]);
      var next := s.(index := s.index + 1);
      if t != "" {
        NoneAfter(t, 0, '$');
        next := next.(offset := -1);
      }
      assert Step(s, params, v) == Some(next);
      Advance(s, next, params, v);
      ScanWithoutDollar(next, params, v);
    }
  }

  /** A paragraph without `$` is left exactly as it was, and gets no table. */
  lemma NoDollarNoChange(runs: seq<Run>, params: map<string, WordParam>, v: Variant)
    requires forall j :: 0 <= j < |runs| ==> '$' !in TextOf(runs[j])
    ensures Scan(Init(runs, []), params, v) .Some?
    ensures Scan(Init(runs, []), params, v).value.runs == runs
    ensures Scan(Init(runs, []), params, v).value.tables == []
  {
    ScanWithoutDollar(Init(runs, []), params, v);
  }

  /**
   * From a state with nothing open, a run "p${k…" (no `$` in `p`) opens a placeholder
   * in one iteration: the prefix is gathered and the key starts after `${`.
   */
  lemma Opens(s: State, p: string, rest: string, params: map<string, WordParam>, v: Variant)
    requires Inv(s) && s.mode == NotFound && s.prev == "" && s.index < |s.runs|
    requires s.runs[s.index].text == Some(p + "${" + rest)
    requires '$' !in p
    ensures Step(s, params, v) == AtStart(s.(mode := Start, prev := p, anchor := s.index, offset := |p| + 2), p + "${" + rest, params, v)
  {
    var t := p + "${" + rest;
    assert t[|p|] == '$' && t[|p| + 1] == '{' && |t| == |p| + 2 + |rest|;
    assert IndexOf(t, '$', 0) == |p| && "" + t[..|p|] == p by {
      assert t[..|p|] == p;
      FirstAfter(t, 0, p, '$');
    }
  }

  /**
   * From a state with nothing open, a run "p${k}q" (no `$` in `p`, no `}` in `k`) is
   * read up to its `}` in one iteration.
   */
  lemma OpensAndCloses(s: State, p: string, k: string, q: string, params: map<string, WordParam>, v: Variant)
    requires Inv(s) && s.mode == NotFound && s.prev == "" && s.key == "" && s.index < |s.runs|
    requires s.runs[s.index].text == Some(p + "${" + k + "}" + q)
    requires '$' !in p && '}' !in k
    ensures var open := s.(mode := Start, prev := p, anchor := s.index, offset := |p| + 2);
      Step(s, params, v) == Some(Close(open, p + "${" + k + "}" + q, |p| + 2 + |k|, params, v))
  {
    var t := p + "${" + k + "}" + q;
    var open := s.(mode := Start, prev := p, anchor := s.index, offset := |p| + 2);
    Assoc(p + "${", k + "}", q);
    Assoc(p + "${", k, "}");
    Opens(s, p, k + "}" + q, params, v);
    ClosingBrace(p, k, q);
    StartCloses(open, t, |p| + 2 + |k|, params, v);
  }

  /** In "p${k}q" the first `}` after "${" ends `k`. */
  lemma ClosingBrace(p: string, k: string, q: string)
    requires '}' !in k
    ensures var t := p + "${" + k + "}" + q;
      |t| == |p| + 3 + |k| + |q| && IndexOf(t, '}', |p| + 2) == |p| + 2 + |k|
  {
    var t := p + "${" + k + "}" + q;
    assert t[|p| + 2..|p| + 2 + |k|] == k && t[|p| + 2 + |k|] == '}';
    FirstAfter(t, |p| + 2, k, '}');
  }

  /** An open placeholder whose `}` is found at `e` is closed there. */
  lemma StartCloses(s: State, t: string, e: nat, params: map<string, WordParam>, v: Variant)
    requires Inv(s) && s.mode == Start && s.index < |s.runs|
    requires 0 <= s.offset <= e < |t| && IndexOf(t, '}', s.offset) == e
    ensures AtStart(s, t, params, v) == Some(Close(s, t, e, params, v))
  {
  }

  /**
   * A placeholder that fills a run's text after a prefix: the prefix is kept and the
   * value follows it; an unbound key is written back unchanged; a picture is attached
   * to the run; a table is inserted after the paragraph. In every copy.
   */
  lemma WholePlaceholder(p: string, k: string, pics: seq<Picture>, params: map<string, WordParam>, v: Variant)
    requires '$' !in p && '}' !in k
    ensures var t := p + "${" + k + "}";
      var r := Scan(Init([Run(Some(t), pics)], []), params, v);
      && r.Some?
      && (k !in params ==> r.value.runs == [Run(Some(t), pics)] && r.value.tables == [])
      && (k in params && params[k].Text? ==> r.value.runs == [Run(Some(p + params[k].msg), pics)] && r.value.tables == [])
      && (k in params && params[k].Image? ==>
            var i := params[k];
            r.value.runs == [Run(Some(p), pics + [PictureFor(k, i.content, i.width, i.height, v)])] && r.value.tables == [])
      && (k in params && params[k].Table? ==> r.value.runs == [Run(Some(p), pics)] && r.value.tables == [params[k].data])
  {
    var t := p + "${" + k + "}";
    var s0 := Init([Run(Some(t), pics)], []);
    assert t + "" == t;
    OpensAndCloses(s0, p, k, "", params, v);
    var open := State(s0.runs, 0, Start, p, 0, |p| + 2, "", []);
    assert t[|p| + 2..|p| + 2 + |k|] == k;
    assert "" + k == k;
    var sub := Substitute(Run(Some(t), pics), p, k, params, v, []);
    var s1 := State([sub.0], 1, NotFound, "", 0, |p| + 2, "", sub.1);
    assert s0.runs[0 := sub.0] == [sub.0];
    assert Close(open, t, |p| + 2 + |k|, params, v) == s1;
    Advance(s0, s1, params, v);
    if k !in params {
      assert p + "${" + k + "}" == t;
    }
  }

  /**
   * The text after a placeholder in the same run overwrites the replacement: the
   * current and older copies turn "p${k}q" with `k` bound to a text into "q".
   */
  lemma TailOverwritesValue(p: string, k: string, q: string, pics: seq<Picture>, params: map<string, WordParam>, v: Variant)
    requires '$' !in p && '}' !in k && '$' !in q && q != ""
    requires k in params && params[k].Text?
    requires v != Repaired
    ensures Scan(Init([Run(Some(p + "${" + k + "}" + q), pics)], []), params, v).Some?
    ensures Scan(Init([Run(Some(p + "${" + k + "}" + q), pics)], []), params, v).value.runs == [Run(Some(q), pics)]
  {
    var s1 := CloseInRun(p, k, q, pics, params, v);
    assert TextOf(s1.runs[0]) == q;
    ScanWithoutDollar(s1, params, v);
  }

  /** The repaired scanner keeps the replacement and moves the tail into a run of its own. */
  lemma TailKeepsValueRepaired(p: string, k: string, q: string, pics: seq<Picture>, params: map<string, WordParam>)
    requires '$' !in p && '}' !in k && '$' !in q && q != ""
    requires k in params && params[k].Text?
    ensures Scan(Init([Run(Some(p + "${" + k + "}" + q), pics)], []), params, Repaired).Some?
    ensures Scan(Init([Run(Some(p + "${" + k + "}" + q), pics)], []), params, Repaired).value.runs ==
      [Run(Some(p + params[k].msg), pics), Run(Some(q), [])]
  {
    var s1 := CloseInRun(p, k, q, pics, params, Repaired);
    assert TextOf(s1.runs[1]) == q;
    ScanWithoutDollar(s1, params, Repaired);
  }

  /** The state right after the closing `}` of "p${k}q" in a single run. */
  lemma CloseInRun(p: string, k: string, q: string, pics: seq<Picture>, params: map<string, WordParam>, v: Variant)
    returns (s1: State)
    requires '$' !in p && '}' !in k && q != ""
    requires k in params && params[k].Text?
    ensures Inv(s1) && s1.mode == NotFound && s1.tables == []
    ensures Scan(Init([Run(Some(p + "${" + k + "}" + q), pics)], []), params, v) == Scan(s1, params, v)
    ensures v != Repaired ==> s1.index == 0 && s1.runs == [Run(Some(q), pics)]
    ensures v == Repaired ==> s1.index == 1 && s1.runs == [Run(Some(p + params[k].msg), pics), Run(Some(q), [])]
  {
    var t := p + "${" + k + "}" + q;
    var s0 := Init([Run(Some(t), pics)], []);
    OpensAndCloses(s0, p, k, q, params, v);
    s1 := ClosedInRun(p, k, q, pics, params, v);
    Advance(s0, s1, params, v);
  }

  /** The state `Close` leaves after the `}` of "p${k}q", with a text value bound to `k`. */
  lemma ClosedInRun(p: string, k: string, q: string, pics: seq<Picture>, params: map<string, WordParam>, v: Variant)
    returns (s1: State)
    requires '}' !in k && q != ""
    requires k in params && params[k].Text?
    ensures var t := p + "${" + k + "}" + q;
      Close(State([Run(Some(t), pics)], 0, Start, p, 0, |p| + 2, "", []), t, |p| + 2 + |k|, params, v) == s1
    ensures v != Repaired ==> s1 == State([Run(Some(q), pics)], 0, NotFound, "", 0, |p| + 2, "", [])
    ensures v == Repaired ==> s1 == State([Run(Some(p + params[k].msg), pics), Run(Some(q), [])], 1, NotFound, "", 0, |p| + 2, "", [])
  {
    var t := p + "${" + k + "}" + q;
    assert t[|p| + 2..|p| + 2 + |k|] == k && t[|p| + 3 + |k|..] == q;
    assert "" + k == k;
    var a := Run(Some(p + params[k].msg), pics);
    var runs1 := [Run(Some(t), pics)][0 := a];
    if v == Repaired {
      s1 := State([a, Run(Some(q), [])], 1, NotFound, "", 0, |p| + 2, "", []);
      assert runs1[..1] + [Run(Some(q), [])] + runs1[1..] == s1.runs;
    } else {
      s1 := State([Run(Some(q), pics)], 0, NotFound, "", 0, |p| + 2, "", []);
      assert runs1[0 := runs1[0].(text := Some(q))] == s1.runs;
    }
  }

  /**
   * The layout Word produces when it splits a placeholder over three runs,
   * "p${" | "k" | "}q": the value follows the prefix in the first run, the key run is
   * removed and the last run keeps what follows `}` (or is removed when nothing does).
   */
  lemma SplitPlaceholder(p: string, k: string, q: string, a: seq<Picture>, b: seq<Picture>, c: seq<Picture>,
                         params: map<string, WordParam>, v: Variant)
    requires '$' !in p && k != "" && '}' !in k && '$' !in q
    requires k in params && params[k].Text?
    ensures var r := Scan(Init([Run(Some(p + "${"), a), Run(Some(k), b), Run(Some("}" + q), c)], []), params, v);
      && r.Some?
      && r.value.runs == if q == "" then [Run(Some(p + params[k].msg), a)]
                         else [Run(Some(p + params[k].msg), a), Run(Some(q), c)]
  {
    var s2 := SplitGathersKey(p, k, q, a, b, c, params, v);
    var value := Run(Some(p + params[k].msg), a);
    var s3 := if q == "" then State([value], 1, NotFound, "", 0, 0, "", [])
              else State([value, Run(Some(q), c)], 1, NotFound, "", 0, 0, "", []);
    assert Step(s2, params, v) == Some(s3) by {
      FirstAfter("}" + q, 0, "", '}');
      assert ("}" + q)[1..] == q && k + ("}" + q)[0..0] == k;
      var runs1 := s2.runs[0 := value];
      assert Remove(runs1, 1) == [value];
      assert runs1[1 := runs1[1].(text := Some(q))] == [value, Run(Some(q), c)];
    }
    Advance(s2, s3, params, v);
    if q != "" {
      var s4 := s3.(index := 2, offset := -1);
      assert Step(s3, params, v) == Some(s4) by {
        NoneAfter(q, 0, '$');
      }
      Advance(s3, s4, params, v);
    }
  }

  /** The first two runs of "p${" | "k" | "}q": the key run is consumed and removed. */
  lemma SplitGathersKey(p: string, k: string, q: string, a: seq<Picture>, b: seq<Picture>, c: seq<Picture>,
                        params: map<string, WordParam>, v: Variant) returns (s2: State)
    requires '$' !in p && k != "" && '}' !in k
    ensures s2 == State([Run(Some(p + "${"), a), Run(Some("}" + q), c)], 1, Start, p, 0, 0, k, [])
    ensures Scan(Init([Run(Some(p + "${"), a), Run(Some(k), b), Run(Some("}" + q), c)], []), params, v) == Scan(s2, params, v)
  {
    var t0 := p + "${";
    var s0 := Init([Run(Some(t0), a), Run(Some(k), b), Run(Some("}" + q), c)], []);
    var s1 := State(s0.runs, 1, Start, p, 0, 0, "", []);
    assert Step(s0, params, v) == Some(s1) by {
      assert t0 == p + "${" + "";
      Opens(s0, p, "", params, v);
    }
    Advance(s0, s1, params, v);
    s2 := State([Run(Some(t0), a), Run(Some("}" + q), c)], 1, Start, p, 0, 0, k, []);
    assert Step(s1, params, v) == Some(s2) by {
      NoneAfter(k, 0, '}');
      assert "" + k[0..] == k;
      assert Remove(s1.runs, 1) == s2.runs;
    }
    Advance(s1, s2, params, v);
  }

  /** The texts of runs read one after another. */
  function Joined(rs: seq<Run>): string {
    if rs == [] then "" else TextOf(rs[0]) + Joined(rs[1..])
  }

  /** Runs that each hold text and no `}`: none of them can close a placeholder. */
  predicate Unclosing(rs: seq<Run>) {
    forall k :: 0 <= k < |rs| ==> rs[k].text.Some? && rs[k].text.value != "" && '}' !in rs[k].text.value
  }

  /**
   * While a placeholder is open and no later run closes it, every later run is
   * read into the key and removed: the runs up to the current one stay, no table
   * is inserted and the placeholder is still open when the loop ends.
   */
  lemma {:induction false} OpenSwallowsRest(s: State, params: map<string, WordParam>, v: Variant)
    requires Inv(s) && s.mode == Start && s.offset == 0 && s.anchor < s.index
    requires Unclosing(s.runs[s.index..])
    ensures var r := Scan(s, params, v);
      r.Some? && r.value.runs == s.runs[..s.index] && r.value.tables == s.tables
      && r.value.mode == Start && r.value.key == s.key + Joined(s.runs[s.index..])
    decreases |s.runs| - s.index
  {
    if s.index < |s.runs| {
      var t := s.runs[s.index].text.value;
      var next := s.(key := s.key + t, runs := Remove(s.runs, s.index));
      SwallowOne(s, params, v);
      Advance(s, next, params, v);
      assert next.runs[next.index..] == s.runs[s.index..][1..];
      OpenSwallowsRest(next, params, v);
    } else {
      assert s.runs[..s.index] == s.runs;
    }
  }

  /** One iteration over a run that cannot close the open placeholder: its text joins the key and the run is removed. */
  lemma SwallowOne(s: State, params: map<string, WordParam>, v: Variant)
    requires Inv(s) && s.mode == Start && s.offset == 0 && s.anchor < s.index < |s.runs|
    requires Unclosing(s.runs[s.index..])
    ensures Step(s, params, v) ==
      Some(s.(key := s.key + s.runs[s.index].text.value, runs := Remove(s.runs, s.index)))
  {
    assert s.runs[s.index..][0] == s.runs[s.index];
    var t := s.runs[s.index].text.value;
    assert t[0..] == t;
    NoneAfter(t, 0, '}');
  }

  /**
   * A placeholder that is never closed swallows the rest of the paragraph: after
   * "p${" every later non-empty run without `}` is removed and nothing is substituted.
   */
  lemma UnclosedDropsFollowingRun(p: string, a: seq<Picture>, rest: seq<Run>,
                                  params: map<string, WordParam>, v: Variant)
    requires '$' !in p && Unclosing(rest)
    ensures var r := Scan(Init([Run(Some(p + "${"), a)] + rest, []), params, v);
      r.Some? && r.value.runs == [Run(Some(p + "${"), a)] && r.value.tables == []
      && r.value.mode == Start && r.value.key == Joined(rest)
  {
    var t0 := p + "${";
    var s0 := Init([Run(Some(t0), a)] + rest, []);
    var s1 := State(s0.runs, 1, Start, p, 0, 0, "", []);
    assert Step(s0, params, v) == Some(s1) by {
      assert t0 == p + "${" + "";
      Opens(s0, p, "", params, v);
    }
    Advance(s0, s1, params, v);
    assert s1.runs[1..] == rest && s1.runs[..1] == [Run(Some(t0), a)];
    OpenSwallowsRest(s1, params, v);
  }

  /**
   * Only the first `$` of a run is looked at: when it is not followed by `{`, the run
   * is passed over whole, so a placeholder later in the same run is not replaced.
   */
  lemma LoneDollarHidesRestOfRun(p: string, c: char, rest: string, pics: seq<Picture>,
                                 params: map<string, WordParam>, v: Variant)
    requires '$' !in p && c != '{'
    ensures var r := Scan(Init([Run(Some(p + "$" + [c] + rest), pics)], []), params, v);
      r.Some? && r.value.runs == [Run(Some(p + "$" + [c] + rest), pics)] && r.value.tables == []
  {
    var t := p + "$" + [c] + rest;
    var s0 := Init([Run(Some(t), pics)], []);
    assert t[..|p|] == p && t[|p|] == '$' && t[|p| + 1] == c;
    FirstAfter(t, 0, p, '$');
    var s1 := State(s0.runs, 1, NotFound, "", 0, |p| + 1, "", []);
    assert Step(s0, params, v) == Some(s1);
    Advance(s0, s1, params, v);
  }

  /**
   * The stale `replaceIndex`: "a${ke" | "y}b" keeps the offset 3 from the first run,
   * finds the second run exhausted and removes it, so the current and older copies
   * leave the unreplaced "a${ke".
   */
  lemma StaleOffsetDropsClosingRun(params: map<string, WordParam>, v: Variant)
    requires v != Repaired
    ensures var r := Scan(Init([Run(Some("a${ke"), []), Run(Some("y}b"), [])], []), params, v);
      r.Some? && r.value.runs == [Run(Some("a${ke"), [])]
  {
    var s0 := Init([Run(Some("a${ke"), []), Run(Some("y}b"), [])], []);
    assert "a" + "${" + "ke" == "a${ke";
    SplitKeyOpens("a", "ke", "y}b", [], [], params, v);
    var s1 := State(s0.runs, 1, Start, "a", 0, 3, "ke", []);
    Advance(s0, s1, params, v);
    StaleSecondRun(params, v);
  }

  /** The second turn of that scan: the open placeholder's stale offset exhausts "y}b", which is removed. */
  lemma StaleSecondRun(params: map<string, WordParam>, v: Variant)
    requires v != Repaired
    ensures var s1 := State([Run(Some("a${ke"), []), Run(Some("y}b"), [])], 1, Start, "a", 0, 3, "ke", []);
      Scan(s1, params, v) == Some(State([Run(Some("a${ke"), [])], 1, Start, "a", 0, 0, "ke", []))
  {
    var s1 := State([Run(Some("a${ke"), []), Run(Some("y}b"), [])], 1, Start, "a", 0, 3, "ke", []);
    ExhaustedRunRemoved(s1, "y}b", params, v);
    assert Remove(s1.runs, 1) == [Run(Some("a${ke"), [])];
    var s2 := State([Run(Some("a${ke"), [])], 1, Start, "a", 0, 0, "ke", []);
    Advance(s1, s2, params, v);
  }

  /** An open placeholder meeting a later run it has already read past removes that run. */
  lemma ExhaustedRunRemoved(s: State, t: string, params: map<string, WordParam>, v: Variant)
    requires Inv(s) && s.mode == Start && s.index < |s.runs| && s.index != s.anchor
    requires s.runs[s.index].text == Some(t) && t != "" && s.offset == |t|
    ensures Step(s, params, v) == Some(s.(runs := Remove(s.runs, s.index), offset := 0))
  {
  }

  /** An open placeholder whose offset lies past the end of the next run throws. */
  lemma PastEndThrows(s: State, t: string, params: map<string, WordParam>, v: Variant)
    requires Inv(s) && s.mode == Start && s.index < |s.runs|
    requires s.runs[s.index].text == Some(t) && t != "" && s.offset > |t|
    ensures Step(s, params, v) == None
  {
  }

  /** The repaired scanner reads the same runs as the placeholder `${key}`. */
  lemma ResetOffsetJoinsKey(params: map<string, WordParam>)
    requires "key" in params && params["key"].Text?
    ensures var r := Scan(Init([Run(Some("a${ke"), []), Run(Some("y}b"), [])], []), params, Repaired);
      r.Some? && r.value.runs == [Run(Some("a" + params["key"].msg), []), Run(Some("b"), [])]
  {
    assert "a" + "${" + "ke" == "a${ke" && "y" + "}" + "b" == "y}b" && "ke" + "y" == "key";
    assert '$' !in "a" && '}' !in "ke" && '}' !in "y" && '$' !in "b";
    SplitKeyRepaired("a", "ke", "y", "b", [], [], params);
  }

  /**
   * The stale `replaceIndex` can also point past the end of the next run: "x${ab" | "}"
   * makes `key.append` throw, and the document is not produced.
   */
  lemma StaleOffsetThrows(params: map<string, WordParam>, v: Variant)
    requires v != Repaired
    ensures Scan(Init([Run(Some("x${ab"), []), Run(Some("}"), [])], []), params, v) == None
  {
    var s0 := Init([Run(Some("x${ab"), []), Run(Some("}"), [])], []);
    assert "x" + "${" + "ab" == "x${ab";
    SplitKeyOpens("x", "ab", "}", [], [], params, v);
    var s1 := State(s0.runs, 1, Start, "x", 0, 3, "ab", []);
    Advance(s0, s1, params, v);
    PastEndThrows(s1, "}", params, v);
  }

  /** The repaired scanner closes "x${ab" | "}" as the placeholder `${ab}`. */
  lemma ResetOffsetCloses(params: map<string, WordParam>)
    requires "ab" in params && params["ab"].Text?
    ensures var r := Scan(Init([Run(Some("x${ab"), []), Run(Some("}"), [])], []), params, Repaired);
      r.Some? && r.value.runs == [Run(Some("x" + params["ab"].msg), [])]
  {
    var s0 := Init([Run(Some("x${ab"), []), Run(Some("}"), [])], []);
    assert "x" + "${" + "ab" == "x${ab";
    SplitKeyOpens("x", "ab", "}", [], [], params, Repaired);
    var s1 := State(s0.runs, 1, Start, "x", 0, 0, "ab", []);
    Advance(s0, s1, params, Repaired);
    assert "ab" + "}"[0..0] == "ab";
    FirstAfter("}", 0, "", '}');
    var value := Run(Some("x" + params["ab"].msg), []);
    assert Remove(s1.runs[0 := value], 1) == [value];
    var s2 := State([value], 1, NotFound, "", 0, 0, "", []);
    assert Step(s1, params, Repaired) == Some(s2);
    Advance(s1, s2, params, Repaired);
  }

  /**
   * In the repaired scanner a key split anywhere over two runs, "p${k1" | "k2}q", is
   * read as `k1 + k2`, and the text after `}` stays in the second run.
   */
  lemma SplitKeyRepaired(p: string, k1: string, k2: string, q: string, a: seq<Picture>, b: seq<Picture>,
                         params: map<string, WordParam>)
    requires '$' !in p && k1 != "" && '}' !in k1 && '}' !in k2 && '$' !in q && q != ""
    requires k1 + k2 in params && params[k1 + k2].Text?
    ensures var r := Scan(Init([Run(Some(p + "${" + k1), a), Run(Some(k2 + "}" + q), b)], []), params, Repaired);
      r.Some? && r.value.runs == [Run(Some(p + params[k1 + k2].msg), a), Run(Some(q), b)]
  {
    var t0 := p + "${" + k1;
    var t1 := k2 + "}" + q;
    var s0 := Init([Run(Some(t0), a), Run(Some(t1), b)], []);
    var s1 := State(s0.runs, 1, Start, p, 0, 0, k1, []);
    SplitKeyOpens(p, k1, t1, a, b, params, Repaired);
    Advance(s0, s1, params, Repaired);
    var value := Run(Some(p + params[k1 + k2].msg), a);
    var s2 := State([value, Run(Some(q), b)], 1, NotFound, "", 0, 0, "", []);
    SplitKeyCloses(p, k1, k2, q, a, b, params);
    Advance(s1, s2, params, Repaired);
    NoneAfter(q, 0, '$');
    var s3 := s2.(index := 2, offset := -1);
    assert Step(s2, params, Repaired) == Some(s3);
    Advance(s2, s3, params, Repaired);
  }

  /**
   * "p${k1" opens the placeholder and, with no `}` in it, keeps `k1`; the offset is
   * left where the key started, except in the repaired copy, which resets it.
   */
  lemma SplitKeyOpens(p: string, k1: string, t1: string, a: seq<Picture>, b: seq<Picture>,
                      params: map<string, WordParam>, v: Variant)
    requires '$' !in p && k1 != "" && '}' !in k1
    ensures var t0 := p + "${" + k1;
      Step(Init([Run(Some(t0), a), Run(Some(t1), b)], []), params, v)
        == Some(State([Run(Some(t0), a), Run(Some(t1), b)], 1, Start, p, 0, if v == Repaired then 0 else |p| + 2, k1, []))
  {
    var t0 := p + "${" + k1;
    var s0 := Init([Run(Some(t0), a), Run(Some(t1), b)], []);
    Opens(s0, p, k1, params, v);
    assert IndexOf(t0, '}', |p| + 2) == -1 && "" + t0[|p| + 2..] == k1 by {
      assert t0[|p| + 2..] == k1;
      NoneAfter(t0, |p| + 2, '}');
    }
  }

  /** The `}` in "k2}q" closes the key `k1 + k2`; the value goes to the first run and `q` stays. */
  lemma SplitKeyCloses(p: string, k1: string, k2: string, q: string, a: seq<Picture>, b: seq<Picture>,
                       params: map<string, WordParam>)
    requires '}' !in k2 && q != ""
    requires k1 + k2 in params && params[k1 + k2].Text?
    ensures var t0, t1 := p + "${" + k1, k2 + "}" + q;
      Step(State([Run(Some(t0), a), Run(Some(t1), b)], 1, Start, p, 0, 0, k1, []), params, Repaired)
        == Some(State([Run(Some(p + params[k1 + k2].msg), a), Run(Some(q), b)], 1, NotFound, "", 0, 0, "", []))
  {
    var t0, t1 := p + "${" + k1, k2 + "}" + q;
    var value := Run(Some(p + params[k1 + k2].msg), a);
    assert IndexOf(t1, '}', 0) == |k2| && k1 + t1[0..|k2|] == k1 + k2 && t1[|k2| + 1..] == q by {
      assert t1[..|k2|] == k2 && t1[|k2|] == '}' && t1[|k2| + 1..] == q;
      FirstAfter(t1, 0, k2, '}');
    }
    var runs1 := [Run(Some(t0), a), Run(Some(t1), b)][0 := value];
    assert runs1[1 := runs1[1].(text := Some(t1[|k2| + 1..]))] == [value, Run(Some(q), b)];
  }

  lemma CloseKeepsCount(s: State, t: string, e: nat, params: map<string, WordParam>, v: Variant)
    requires Inv(s) && s.mode == Start && s.index < |s.runs|
    requires 0 <= s.offset <= e < |t|
    ensures |Close(s, t, e, params, v).runs| <= |s.runs| + (if v == Repaired && s.index == s.anchor then 1 else 0)
  {
  }

  lemma AtStartKeepsCount(s: State, t: string, params: map<string, WordParam>, v: Variant)
    requires Inv(s) && s.mode == Start && s.index < |s.runs|
    ensures AtStart(s, t, params, v).Some? ==>
      |AtStart(s, t, params, v).value.runs| <= |s.runs| + (if v == Repaired then 1 else 0)
  {
    if s.offset != |t| {
      var e := IndexOf(t, '}', s.offset);
      if e >= 0 {
        CloseKeepsCount(s, t, e, params, v);
      }
    }
  }

  /** One iteration never adds a run, except where the repaired scanner splits the anchor. */
  lemma StepKeepsCount(s: State, params: map<string, WordParam>, v: Variant)
    requires Inv(s) && s.index < |s.runs|
    ensures Step(s, params, v).Some? ==> |Step(s, params, v).value.runs| <= |s.runs| + (if v == Repaired then 1 else 0)
  {
    var text := s.runs[s.index].text;
    if text.Some? && text.value != "" {
      TextStepKeepsCount(s, text.value, params, v);
    }
  }

  /** The same for a run that holds text: each mode hands over to `AtDollar` or `AtStart`. */
  lemma TextStepKeepsCount(s: State, t: string, params: map<string, WordParam>, v: Variant)
    requires Inv(s) && s.index < |s.runs| && s.runs[s.index].text == Some(t) && t != ""
    ensures Step(s, params, v).Some? ==> |Step(s, params, v).value.runs| <= |s.runs| + (if v == Repaired then 1 else 0)
  {
    match s.mode
    case NotFound =>
      var i := IndexOf(t, '$', 0);
      if i >= 0 {
        var d := s.(anchor := s.index, prev := s.prev + t[..i], offset := i + 1, mode := Dollar);
        assert Step(s, params, v) == AtDollar(d, t, params, v);
        AtDollarKeepsCount(d, t, params, v);
      }
    case Dollar =>
      assert Step(s, params, v) == AtDollar(s, t, params, v);
      AtDollarKeepsCount(s, t, params, v);
    case Start =>
      assert Step(s, params, v) == AtStart(s, t, params, v);
      AtStartKeepsCount(s, t, params, v);
  }

  lemma AtDollarKeepsCount(s: State, t: string, params: map<string, WordParam>, v: Variant)
    requires s.mode == Dollar && s.index < |s.runs|
    requires s.anchor <= s.index && 0 <= s.offset <= |t|
    ensures AtDollar(s, t, params, v).Some? ==>
      |AtDollar(s, t, params, v).value.runs| <= |s.runs| + (if v == Repaired then 1 else 0)
  {
    if s.offset < |t| && t[s.offset] == '{' {
      AtStartKeepsCount(s.(offset := s.offset + 1, mode := Start), t, params, v);
    }
  }

  /**
   * The current and older scanners never add a run to a paragraph: runs are only
   * rewritten or removed.
   */
  lemma {:induction false} ScanKeepsCount(s: State, params: map<string, WordParam>, v: Variant)
    requires Inv(s) && v != Repaired
    ensures Scan(s, params, v).Some? ==> |Scan(s, params, v).value.runs| <= |s.runs|
    decreases Remaining(s)
  {
    if s.index < |s.runs| {
      StepKeepsCount(s, params, v);
      match Step(s, params, v)
      case None =>
      case Some(next) =>
        Advance(s, next, params, v);
        ScanKeepsCount(next, params, v);
    }
  }
}
