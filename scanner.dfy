/**
 * The run-level placeholder scanner of `PoiWordGenerator.replaceParagraph`, in
 * both Java copies.
 *
 * A paragraph is a list of runs; Word may split a placeholder `${key}` over
 * several of them. The scanner walks the runs with an index and a three-state
 * machine (no placeholder open / `$` seen / `${` seen), gathers the prefix
 * before `$` and the key, writes the result into the run that held the `$`
 * (the anchor), deletes the runs the placeholder covered and re-scans a run
 * whose tail follows the closing `}`.
 *
 * `Scan` is the scanner as a function of its state, one loop iteration per
 * `Step`; `Paragraph.ReplacePlaceholders` is the loop itself, proved to
 * compute `Scan`. The lemmas state what the scanner does to typical layouts,
 * including the two defects recorded in the README and the behaviour of the
 * repaired variant.
 */
module Scanner {
  import opened Wrappers
  import opened Text
  import opened Params

  /** How a picture's type is chosen: always JPEG (older copy) or from the image itself. */
  datatype PictureType = Jpeg | FromImage

  /** A picture attached to a run by `addPicture`. */
  datatype Picture = Picture(name: string, kind: PictureType, width: int, height: int, content: Bytes)

  /** A run: its first text element (`null` when it has none) and the pictures it carries. */
  datatype Run = Run(text: Option<string>, pictures: seq<Picture>)

  /**
   * Which generator: the current copy, the older copy (JPEG pictures named
   * `key.jpg`), or the current copy with both defects repaired.
   */
  datatype Variant = Core | Legacy | Repaired

  /** `ReplaceType`: no placeholder open, `$` seen, `${` seen. */
  datatype Mode = NotFound | Dollar | Start

  /**
   * The scanner's variables: the run list, `index`, `replaceType`, `prevText`,
   * the index of `replaceRun`, `replaceIndex`, `key`, and the data of every
   * table `createTable` inserted so far.
   */
  datatype State = State(
    runs: seq<Run>,
    index: nat,
    mode: Mode,
    prev: string,
    anchor: nat,
    offset: int,
    key: string,
    tables: seq<seq<seq<string>>>)

  /** The state at the start of a paragraph whose runs are `runs` and which already holds `tables`. */
  function Init(runs: seq<Run>, tables: seq<seq<seq<string>>>): State {
    State(runs, 0, NotFound, "", 0, 0, "", tables)
  }

  /** The text of a run, with `null` read as empty. */
  function TextOf(r: Run): string {
    r.text.GetOr("")
  }

  /**
   * What holds between iterations. The anchor is never deleted: only runs after
   * it are removed, so its index stays valid while a placeholder is open.
   */
  predicate Inv(s: State) {
    && s.index <= |s.runs|
    && (s.mode != NotFound ==> s.anchor <= s.index && s.anchor < |s.runs| && s.offset >= 0)
    && (s.mode == Dollar ==> s.offset == 0)
  }

  /** Runs plus characters: every iteration takes at least one away from what is left to scan. */
  function Weight(rs: seq<Run>): nat {
    if rs == [] then 0 else 1 + |TextOf(rs[0])| + Weight(rs[1..])
  }

  function Remaining(s: State): nat
    requires s.index <= |s.runs|
  {
    Weight(s.runs[s.index..])
  }

  /** The run list without the run at `i` (`removeRun`). */
  function Remove(rs: seq<Run>, i: nat): (r: seq<Run>)
    requires i < |rs|
    ensures |r| == |rs| - 1
    ensures r[..i] == rs[..i] && r[i..] == rs[i + 1..]
  {
    rs[..i] + rs[i + 1..]
  }

  lemma WeightAt(rs: seq<Run>, i: nat)
    requires i < |rs|
    ensures Weight(rs[i..]) == 1 + |TextOf(rs[i])| + Weight(rs[i + 1..])
  {
    assert rs[i..][1..] == rs[i + 1..];
  }

  /** The picture `addPicture` attaches for an Image value bound to `key`. */
  function PictureFor(key: string, content: Bytes, width: int, height: int, v: Variant): Picture {
    if v == Legacy then Picture(key + ".jpg", Jpeg, width, height, content)
    else Picture(key, FromImage, width, height, content)
  }

  /**
   * The anchor run after the value for `key` is written into it, and the tables
   * inserted so far: an unknown key is written back as `${key}`, a text follows
   * the prefix, a picture or a table leaves the prefix alone.
   */
  function Substitute(a: Run, prev: string, key: string, params: map<string, WordParam>, v: Variant,
                      tables: seq<seq<seq<string>>>): (Run, seq<seq<seq<string>>>)
  {
    if key !in params then (a.(text := Some(prev + "${" + key + "}")), tables)
    else match params[key]
      case Text(m) => (a.(text := Some(prev + m)), tables)
      case Image(c, w, h) => (a.(text := Some(prev), pictures := a.pictures + [PictureFor(key, c, w, h, v)]), tables)
      case Table(d) => (a.(text := Some(prev)), tables + [d])
  }

  /** The closing `}` of the open placeholder was found at `e` in the current run's text `t`. */
  function Close(s: State, t: string, e: nat, params: map<string, WordParam>, v: Variant): (r: State)
    requires Inv(s) && s.mode == Start && s.index < |s.runs|
    requires 0 <= s.offset <= e < |t|
    ensures Inv(r) && r.mode == NotFound && r.prev == "" && r.key == ""
  {
    var key := s.key + t[s.offset..e];
    var sub := Substitute(s.runs[s.anchor], s.prev, key, params, v, s.tables);
    var runs1 := s.runs[s.anchor := sub.0];
    var end := e + 1;
    var base := s.(runs := runs1, tables := sub.1, prev := "", key := "", mode := NotFound);
    if end < |t| then
      if v == Repaired && s.index == s.anchor then
        base.(runs := runs1[..s.index + 1] + [Run(Some(t[end..]), [])] + runs1[s.index + 1..], index := s.index + 1)
      else
        base.(runs := runs1[s.index := runs1[s.index].(text := Some(t[end..]))])
    else if s.index != s.anchor then
      base.(runs := Remove(runs1, s.index))
    else
      base.(index := s.index + 1)
  }

  /** The `Start` case: a placeholder is open and its key is being gathered from text `t`. */
  function AtStart(s: State, t: string, params: map<string, WordParam>, v: Variant): (r: Option<State>)
    requires Inv(s) && s.mode == Start && s.index < |s.runs|
    ensures r.Some? ==> Inv(r.value)
  {
    if s.offset == |t| then
      if s.index != s.anchor then Some(s.(runs := Remove(s.runs, s.index), offset := 0))
      else Some(s.(offset := 0, index := s.index + 1))
    else
      var e := IndexOf(t, '}', s.offset);
      if e < 0 then
        if s.offset > |t| then None
        else
          var s1 := s.(key := s.key + t[s.offset..], offset := if v == Repaired then 0 else s.offset);
          if s.index != s.anchor then Some(s1.(runs := Remove(s.runs, s.index)))
          else Some(s1.(index := s.index + 1))
      else Some(Close(s, t, e, params, v))
  }

  /** The `$` case: the character after `$` decides whether a placeholder opens. */
  function AtDollar(s: State, t: string, params: map<string, WordParam>, v: Variant): (r: Option<State>)
    requires s.mode == Dollar && s.index < |s.runs|
    requires s.anchor <= s.index && 0 <= s.offset <= |t|
    ensures r.Some? ==> Inv(r.value)
  {
    if s.offset == |t| then Some(s.(offset := 0, index := s.index + 1))
    else if t[s.offset] != '{' then Some(s.(mode := NotFound, prev := "", index := s.index + 1))
    else AtStart(s.(offset := s.offset + 1, mode := Start), t, params, v)
  }

  /** One iteration of the `for (index …)` loop over the runs; `None` is the exception it can raise. */
  function Step(s: State, params: map<string, WordParam>, v: Variant): (r: Option<State>)
    requires Inv(s) && s.index < |s.runs|
    ensures r.Some? ==> Inv(r.value)
  {
    var text := s.runs[s.index].text;
    if text.None? || text.value == "" then Some(s.(index := s.index + 1))
    else
      var t := text.value;
      match s.mode
      case NotFound =>
        var i := IndexOf(t, '$', 0);
        if i < 0 then Some(s.(offset := i, index := s.index + 1))
        else AtDollar(s.(anchor := s.index, prev := s.prev + t[..i], offset := i + 1, mode := Dollar), t, params, v)
      case Dollar => AtDollar(s, t, params, v)
      case Start => AtStart(s, t, params, v)
  }

  /** A state whose unscanned runs weigh less than those of `s` after its current run. */
  predicate Lighter(r: State, s: State)
    requires r.index <= |r.runs| && s.index < |s.runs|
  {
    Remaining(r) < 1 + |TextOf(s.runs[s.index])| + Weight(s.runs[s.index + 1..])
  }

  /** Replacing the run at `j` leaves the runs after `i >= j` alone. */
  lemma UpdateKeepsTail(rs: seq<Run>, j: nat, i: nat, x: Run)
    requires j <= i < |rs|
    ensures rs[j := x][i + 1..] == rs[i + 1..]
  {
  }

  lemma CloseDecreases(s: State, t: string, e: nat, params: map<string, WordParam>, v: Variant)
    requires Inv(s) && s.mode == Start && s.index < |s.runs| && TextOf(s.runs[s.index]) == t
    requires 0 <= s.offset <= e < |t|
    ensures Lighter(Close(s, t, e, params, v), s)
  {
    var runs1 := s.runs[s.anchor := Substitute(s.runs[s.anchor], s.prev, s.key + t[s.offset..e], params, v, s.tables).0];
    UpdateKeepsTail(s.runs, s.anchor, s.index, runs1[s.anchor]);
    if e + 1 < |t| {
      CloseKeepsTail(s, t, e, params, v, runs1);
    } else {
      CloseEndsRun(s, t, e, params, v, runs1);
    }
  }

  /** The `}` is not the run's last character: what follows it stays to be scanned. */
  lemma CloseKeepsTail(s: State, t: string, e: nat, params: map<string, WordParam>, v: Variant, runs1: seq<Run>)
    requires Inv(s) && s.mode == Start && s.index < |s.runs| && TextOf(s.runs[s.index]) == t
    requires 0 <= s.offset <= e && e + 1 < |t|
    requires runs1 == s.runs[s.anchor := Substitute(s.runs[s.anchor], s.prev, s.key + t[s.offset..e], params, v, s.tables).0]
    requires runs1[s.index + 1..] == s.runs[s.index + 1..]
    ensures Lighter(Close(s, t, e, params, v), s)
  {
    var r := Close(s, t, e, params, v);
    if v == Repaired && s.index == s.anchor {
      assert r.runs == runs1[..s.index + 1] + [Run(Some(t[e + 1..]), [])] + runs1[s.index + 1..];
      assert r.index == s.index + 1;
      InsertWeight(runs1, s.index, Run(Some(t[e + 1..]), []));
    } else {
      var x := runs1[s.index].(text := Some(t[e + 1..]));
      assert r.runs == runs1[s.index := x] && r.index == s.index;
      KeptTailWeight(runs1, s.index, x, s.runs[s.index + 1..]);
    }
  }

  /** The current run's text replaced by `x`'s, before a tail that is unchanged. */
  lemma KeptTailWeight(rs: seq<Run>, i: nat, x: Run, rest: seq<Run>)
    requires i < |rs| && rs[i + 1..] == rest
    ensures Weight(rs[i := x][i..]) == 1 + |TextOf(x)| + Weight(rest)
  {
    UpdateKeepsTail(rs, i, i, x);
    WeightAt(rs[i := x], i);
  }

  /** The `}` is the run's last character: the run is removed or passed. */
  lemma CloseEndsRun(s: State, t: string, e: nat, params: map<string, WordParam>, v: Variant, runs1: seq<Run>)
    requires Inv(s) && s.mode == Start && s.index < |s.runs| && TextOf(s.runs[s.index]) == t
    requires 0 <= s.offset <= e && e + 1 == |t|
    requires runs1 == s.runs[s.anchor := Substitute(s.runs[s.anchor], s.prev, s.key + t[s.offset..e], params, v, s.tables).0]
    requires runs1[s.index + 1..] == s.runs[s.index + 1..]
    ensures Lighter(Close(s, t, e, params, v), s)
  {
    if s.index != s.anchor {
      assert Remove(runs1, s.index)[s.index..] == runs1[s.index + 1..];
    }
  }

  /** Inserting `x` after position `i` puts it, then the old tail, after `i`. */
  lemma InsertWeight(rs: seq<Run>, i: nat, x: Run)
    requires i < |rs|
    ensures Weight((rs[..i + 1] + [x] + rs[i + 1..])[i + 1..]) == 1 + |TextOf(x)| + Weight(rs[i + 1..])
  {
    var rs' := rs[..i + 1] + [x] + rs[i + 1..];
    assert rs'[i + 1..][1..] == rs[i + 1..];
    assert rs'[i + 1..][0] == x;
  }

  lemma AtStartDecreases(s: State, t: string, params: map<string, WordParam>, v: Variant)
    requires Inv(s) && s.mode == Start && s.index < |s.runs| && TextOf(s.runs[s.index]) == t
    ensures AtStart(s, t, params, v).Some? ==> Lighter(AtStart(s, t, params, v).value, s)
  {
    var rest := s.runs[s.index + 1..];
    if s.offset == |t| || IndexOf(t, '}', s.offset) < 0 {
      if s.index != s.anchor {
        assert Remove(s.runs, s.index)[s.index..] == rest;
      }
    } else {
      CloseDecreases(s, t, IndexOf(t, '}', s.offset), params, v);
    }
  }

  lemma AtDollarDecreases(s: State, t: string, params: map<string, WordParam>, v: Variant)
    requires s.mode == Dollar && s.index < |s.runs| && TextOf(s.runs[s.index]) == t
    requires s.anchor <= s.index && 0 <= s.offset <= |t|
    ensures AtDollar(s, t, params, v).Some? ==> Lighter(AtDollar(s, t, params, v).value, s)
  {
    if s.offset < |t| && t[s.offset] == '{' {
      AtStartDecreases(s.(offset := s.offset + 1, mode := Start), t, params, v);
    }
  }

  /** Every iteration leaves less to scan, so the loop ends. */
  lemma StepDecreases(s: State, params: map<string, WordParam>, v: Variant)
    requires Inv(s) && s.index < |s.runs|
    ensures Step(s, params, v).Some? ==> Remaining(Step(s, params, v).value) < Remaining(s)
  {
    WeightAt(s.runs, s.index);
    var text := s.runs[s.index].text;
    if text.Some? && text.value != "" {
      TextStepLighter(s, text.value, params, v);
    }
  }

  /** A step over a run with text leaves a lighter state. */
  lemma TextStepLighter(s: State, t: string, params: map<string, WordParam>, v: Variant)
    requires Inv(s) && s.index < |s.runs| && s.runs[s.index].text == Some(t) && t != ""
    ensures Step(s, params, v).Some? ==> Lighter(Step(s, params, v).value, s)
  {
    match s.mode
    case NotFound =>
      var i := IndexOf(t, '$', 0);
      if i >= 0 {
        AtDollarDecreases(s.(anchor := s.index, prev := s.prev + t[..i], offset := i + 1, mode := Dollar), t, params, v);
      }
    case Dollar => AtDollarDecreases(s, t, params, v);
    case Start => AtStartDecreases(s, t, params, v);
  }

  /**
   * The whole loop from state `s`: the final state, or `None` when the loop throws
   * `StringIndexOutOfBoundsException`.
   */
  function Scan(s: State, params: map<string, WordParam>, v: Variant): Option<State>
    requires Inv(s)
    decreases Remaining(s)
  {
    if s.index >= |s.runs| then Some(s)
    else
      StepDecreases(s, params, v);
      match Step(s, params, v)
      case None => None
      case Some(next) => Scan(next, params, v)
  }

  /** The runs of a paragraph after the scanner, or `None` when it throws. */
  function ScanRuns(runs: seq<Run>, params: map<string, WordParam>, v: Variant): Option<seq<Run>> {
    match Scan(Init(runs, []), params, v)
    case None => None
    case Some(s) => Some(s.runs)
  }

  /** Taking one step to `r` does not change where the loop ends, and leaves less to scan. */
  lemma Advance(s: State, r: State, params: map<string, WordParam>, v: Variant)
    requires Inv(s) && s.index < |s.runs| && Step(s, params, v) == Some(r)
    ensures Inv(r) && Remaining(r) < Remaining(s)
    ensures Scan(s, params, v) == Scan(r, params, v)
  {
    StepDecreases(s, params, v);
  }

  /** An `XWPFParagraph`: its runs, and the tables `createTable` inserted at it. */
  class Paragraph {
    var runs: seq<Run>
    var tables: seq<seq<seq<string>>>

    constructor (runs: seq<Run>)
      ensures this.runs == runs && tables == []
    {
      this.runs := runs;
      tables := [];
    }

    /**
     * The `if (value == null) … else if (value instanceof …)` chain: writes the value
     * bound to `key` into the anchor run and records a table that `createTable`
     * inserts.
     */
    method WriteValue(anchor: nat, prev: string, key: string, params: map<string, WordParam>, v: Variant)
      requires anchor < |runs|
      modifies this
      ensures var sub := Substitute(old(runs)[anchor], prev, key, params, v, old(tables));
        runs == old(runs)[anchor := sub.0] && tables == sub.1
    {
      var a := runs[anchor];
      if key !in params {
        a := a.(text := Some(prev + "${" + key + "}"));
      } else {
        match params[key] {
          case Text(m) =>
            a := a.(text := Some(prev + m));
          case Image(c, w, h) =>
            a := a.(text := Some(prev), pictures := a.pictures + [PictureFor(key, c, w, h, v)]);
          case Table(d) =>
            a := a.(text := Some(prev));
            tables := tables + [d];
        }
      }
      runs := runs[anchor := a];
    }

    /**
     * The closing `}` of the open placeholder is at `e` in the current run's text `t`:
     * the value is written into the anchor run, and the current run keeps the text
     * after `}` (to be scanned again) or is removed when nothing follows.
     */
    method CloseAt(t: string, e: nat, index: nat, anchor: nat, offset: int, prev: string, key: string,
                   params: map<string, WordParam>, v: Variant) returns (index': nat)
      requires Inv(State(runs, index, Start, prev, anchor, offset, key, tables)) && index < |runs|
      requires 0 <= offset <= e < |t|
      modifies this
      ensures State(runs, index', NotFound, "", anchor, offset, "", tables) ==
        Close(State(old(runs), index, Start, prev, anchor, offset, key, old(tables)), t, e, params, v)
    {
      WriteValue(anchor, prev, key + t[offset..e], params, v);
      index' := index;
      var end := e + 1;
      if end < |t| {
        if v == Repaired && index == anchor {
          runs := runs[..index + 1] + [Run(Some(t[end..]), [])] + runs[index + 1..];
          index' := index + 1;
        } else {
          runs := runs[index := runs[index].(text := Some(t[end..]))];
        }
      } else if index != anchor {
        runs := Remove(runs, index);
      } else {
        index' := index + 1;
      }
    }

    /**
     * The `case Start` block: the key is gathered up to the closing `}`. `ok` is false
     * when `key.append` is handed a start past the end of the text.
     */
    method InStart(t: string, index: nat, anchor: nat, offset: int, prev: string, key: string,
                   params: map<string, WordParam>, v: Variant)
      returns (ok: bool, index': nat, mode': Mode, prev': string, offset': int, key': string)
      requires Inv(State(runs, index, Start, prev, anchor, offset, key, tables)) && index < |runs|
      modifies this
      ensures var r := AtStart(State(old(runs), index, Start, prev, anchor, offset, key, old(tables)), t, params, v);
        (ok <==> r.Some?) && (ok ==> r.value == State(runs, index', mode', prev', anchor, offset', key', tables))
    {
      ok, index', mode', prev', offset', key' := true, index, Start, prev, offset, key;
      if offset == |t| {
        if index != anchor {
          runs := Remove(runs, index);
        } else {
          index' := index + 1;
        }
        offset' := 0;
        return;
      }
      var e := IndexOf(t, '}', offset);
      if e < 0 {
        if offset > |t| {
          ok := false;
          return;
        }
        key' := key + t[offset..];
        if v == Repaired {
          offset' := 0;
        }
        if index != anchor {
          runs := Remove(runs, index);
        } else {
          index' := index + 1;
        }
        return;
      }
      index' := CloseAt(t, e, index, anchor, offset, prev, key, params, v);
      mode', prev', key' := NotFound, "", "";
    }

    /**
     * The `case $` block: a `{` right after the `$` opens a placeholder, anything else
     * abandons it; at the end of a run the decision waits for the next one.
     */
    method InDollar(t: string, index: nat, anchor: nat, offset: int, prev: string, key: string,
                    params: map<string, WordParam>, v: Variant)
      returns (ok: bool, index': nat, mode': Mode, prev': string, offset': int, key': string)
      requires anchor <= index < |runs| && 0 <= offset <= |t|
      modifies this
      ensures var r := AtDollar(State(old(runs), index, Dollar, prev, anchor, offset, key, old(tables)), t, params, v);
        (ok <==> r.Some?) && (ok ==> r.value == State(runs, index', mode', prev', anchor, offset', key', tables))
    {
      if offset == |t| {
        return true, index + 1, Dollar, prev, 0, key;
      }
      if t[offset] != '{' {
        return true, index + 1, NotFound, "", offset, key;
      }
      ok, index', mode', prev', offset', key' := InStart(t, index, anchor, offset + 1, prev, key, params, v);
    }

    /** One turn of the loop of `replacePlaceholders`, over the run at `index`: a step of the scan. */
    method Turn(index: nat, mode: Mode, prev: string, anchor: nat, offset: int, key: string,
                params: map<string, WordParam>, v: Variant)
      returns (ok: bool, index': nat, mode': Mode, prev': string, anchor': nat, offset': int, key': string)
      requires Inv(State(runs, index, mode, prev, anchor, offset, key, tables)) && index < |runs|
      modifies this
      ensures var r := Step(State(old(runs), index, mode, prev, anchor, offset, key, old(tables)), params, v);
        (ok <==> r.Some?) && (ok ==> r.value == State(runs, index', mode', prev', anchor', offset', key', tables))
    {
      ok, index', mode', prev', anchor', offset', key' := true, index, mode, prev, anchor, offset, key;
      var text := runs[index].text;
      if text.None? || text.value == "" {
        index' := index + 1;
        return;
      }
      var t := text.value;
      if mode == NotFound {
        offset' := IndexOf(t, '$', 0);
        if offset' < 0 {
          index' := index + 1;
          return;
        }
        anchor' := index;
        prev' := prev + t[..offset'];
        offset' := offset' + 1;
        mode' := Dollar;
      }
      if mode' == Dollar {
        ok, index', mode', prev', offset', key' := InDollar(t, index, anchor', offset', prev', key, params, v);
      } else {
        ok, index', mode', prev', offset', key' := InStart(t, index, anchor, offset, prev, key, params, v);
      }
    }

    /**
     * `replaceParagraph` for this paragraph. `ok` is false exactly when the Java loop
     * throws; otherwise the runs and the inserted tables are those `Scan` computes.
     */
    method ReplacePlaceholders(params: map<string, WordParam>, v: Variant) returns (ok: bool)
      modifies this
      ensures ok <==> Scan(Init(old(runs), old(tables)), params, v).Some?
      ensures ok ==> runs == Scan(Init(old(runs), old(tables)), params, v).value.runs
      ensures ok ==> tables == Scan(Init(old(runs), old(tables)), params, v).value.tables
    {
      ghost var goal := Scan(Init(runs, tables), params, v);
      var prev := "";
      var anchor: nat := 0;
      var offset := 0;
      var mode := NotFound;
      var key := "";
      var index: nat := 0;
      while index < |runs|
        invariant Inv(State(runs, index, mode, prev, anchor, offset, key, tables))
        invariant Scan(State(runs, index, mode, prev, anchor, offset, key, tables), params, v) == goal
        decreases Remaining(State(runs, index, mode, prev, anchor, offset, key, tables))
      {
        ghost var before := State(runs, index, mode, prev, anchor, offset, key, tables);
        ok, index, mode, prev, anchor, offset, key := Turn(index, mode, prev, anchor, offset, key, params, v);
        if !ok {
          return;
        }
        Advance(before, State(runs, index, mode, prev, anchor, offset, key, tables), params, v);
      }
      ok := true;
    }
  }
}
