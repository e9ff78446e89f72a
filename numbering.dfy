/**
 * `HeaderNumbering` of the md2doc-core template creator and of the Python
 * template creator: per-level counters and a stack of the numbers of the
 * headings enclosing the current one. The two copies behave alike.
 */
module Numbering {
  import opened Text

  /** The counters (a `HashMap` / `dict` from level to count) and the number stack. */
  datatype State = State(stack: seq<nat>, counters: map<int, nat>)

  /** `levelCounters.getOrDefault(level, 0)` / `level_counters.get(level, 0)`. */
  function Get(counters: map<int, nat>, level: int): nat {
    if level in counters then counters[level] else 0
  }

  function Min(a: nat, b: nat): nat {
    if a < b then a else b
  }

  /** The counters with every level from `i` to 6 set to 0, as the reset loop leaves them. */
  function ResetFrom(counters: map<int, nat>, i: int): (r: map<int, nat>)
    ensures forall j :: i <= j <= 6 ==> Get(r, j) == 0
    ensures forall j :: (j < i || j > 6) ==> Get(r, j) == Get(counters, j)
    decreases 7 - i
  {
    if i > 6 then counters else ResetFrom(counters[i := 0], i + 1)
  }

  /**
   * `enterLevel(level)` / `enter_level(level)`: deeper counters up to level 6 restart
   * at 0, this level's counter goes up by one, and the stack is cut to at most
   * `level - 1` entries before the new count is pushed. A level below 1 pops the
   * empty stack and throws, so callers pass the `#` count of a heading.
   */
  function Enter(n: State, level: int): (r: State)
    requires level >= 1
    ensures forall i :: level < i <= 6 ==> Get(r.counters, i) == 0
    ensures Get(r.counters, level) == Get(n.counters, level) + 1
    ensures forall i :: i != level && (i < level || i > 6) ==> Get(r.counters, i) == Get(n.counters, i)
    ensures |r.stack| == Min(|n.stack|, level - 1) + 1 && 1 <= |r.stack| <= level
    ensures r.stack[|r.stack| - 1] == Get(r.counters, level)
    ensures r.stack[..|r.stack| - 1] == n.stack[..|r.stack| - 1]
  {
    var reset := ResetFrom(n.counters, level + 1);
    var c := reset[level := Get(n.counters, level) + 1];
    assert forall i :: i != level ==> Get(c, i) == Get(reset, i);
    State(n.stack[..Min(|n.stack|, level - 1)] + [c[level]], c)
  }

  /** A new numbering: no counters, an empty stack. */
  const Fresh := State([], map[])

  /** The state after entering the heading levels in order, from a fresh numbering. */
  function Run(levels: seq<int>): State
    requires forall i :: 0 <= i < |levels| ==> levels[i] >= 1
  {
    if levels == [] then Fresh else Enter(Run(levels[..|levels| - 1]), levels[|levels| - 1])
  }

  /** How many entries of `levels` equal `level`. */
  function Occurrences(levels: seq<int>, level: int): nat {
    if levels == [] then 0
    else Occurrences(levels[..|levels| - 1], level) + (if levels[|levels| - 1] == level then 1 else 0)
  }

  /**
   * The level-1 counter is never reset: it counts the level-1 headings so far, so it
   * never decreases over a document.
   */
  lemma {:induction false} TopLevelCounts(levels: seq<int>)
    requires forall i :: 0 <= i < |levels| ==> levels[i] >= 1
    ensures Get(Run(levels).counters, 1) == Occurrences(levels, 1)
  {
    if levels != [] {
      TopLevelCounts(levels[..|levels| - 1]);
    }
  }

  /** `getNumber()` / `get_number()`: the stack entries joined with ".". */
  function NumberText(stack: seq<nat>): string {
    Join(seq(|stack|, i requires 0 <= i < |stack| => NatToString(stack[i])), ".")
  }

  /**
   * Headings are numbered by the headings that enclose them, not by their level: a
   * level-3 heading straight after a level-1 heading is "1.1".
   */
  lemma SkippedLevelExample()
    ensures NumberText(Run([1, 3]).stack) == "1.1"
  {
    assert [1, 3][..1] == [1];
    assert [1][..0] == [];
    var one := Enter(Fresh, 1);
    assert one.stack == [1];
    var two := Enter(one, 3);
    assert two.stack == [1, 1];
    assert Run([1, 3]) == two;
    var parts := seq(2, i requires 0 <= i < 2 => NatToString([1, 1][i]));
    assert parts == ["1", "1"];
    assert Join(parts, ".") == "1" + "." + Join(["1"], ".");
  }

  /** Joining one more piece at the end. */
  lemma {:induction false} JoinSnoc(parts: seq<string>, last: string, sep: string)
    requires parts != []
    ensures Join(parts + [last], sep) == Join(parts, sep) + sep + last
  {
    if |parts| == 1 {
      assert (parts + [last])[1..] == [last];
    } else {
      assert (parts + [last])[1..] == parts[1..] + [last];
      JoinSnoc(parts[1..], last, sep);
    }
  }

  /** The Java class, whose methods update the stack and the counter map in place. */
  class HeaderNumbering {
    var stack: seq<nat>
    var counters: map<int, nat>

    constructor ()
      ensures Value() == Fresh
    {
      stack := [];
      counters := map[];
    }

    function Value(): State
      reads this
    {
      State(stack, counters)
    }

    /** `enterLevel(level)`. */
    method EnterLevel(level: int)
      requires level >= 1
      modifies this
      ensures Value() == Enter(old(Value()), level)
    {
      ResetDeeper(level + 1);
      counters := counters[level := Get(counters, level) + 1];
      CutStack(level - 1);
      stack := stack + [counters[level]];
    }

    /** The reset loop of `enterLevel`: the counters of levels `from` to 6 go back to 0. */
    method ResetDeeper(from: int)
      modifies this
      ensures counters == ResetFrom(old(counters), from) && stack == old(stack)
    {
      var i := from;
      while i <= 6
        invariant ResetFrom(counters, i) == ResetFrom(old(counters), from) && stack == old(stack)
        decreases 7 - i
      {
        counters := counters[i := 0];
        i := i + 1;
      }
    }

    /** The popping loop of `enterLevel`: the stack is cut to at most `keep` entries. */
    method CutStack(keep: nat)
      modifies this
      ensures stack == old(stack)[..Min(|old(stack)|, keep)] && counters == old(counters)
    {
      while |stack| > keep
        invariant |stack| >= Min(|old(stack)|, keep)
        invariant stack == old(stack)[..|stack|]
        invariant counters == old(counters)
        decreases |stack|
      {
        stack := stack[..|stack| - 1];
      }
    }

    /** `getNumber()`: the StringBuilder loop. */
    method GetNumber() returns (s: string)
      ensures s == NumberText(stack)
    {
      var st := stack;
      ghost var parts := seq(|st|, i requires 0 <= i < |st| => NatToString(st[i]));
      s := "";
      var i := 0;
      while i < |stack|
        invariant 0 <= i <= |stack|
        invariant s == Join(parts[..i], ".")
      {
        if i > 0 {
          s := s + ".";
          JoinSnoc(parts[..i], parts[i], ".");
        } else {
          assert Join([parts[0]], ".") == parts[0];
        }
        s := s + NatToString(stack[i]);
        assert parts[..i + 1] == parts[..i] + [parts[i]];
        i := i + 1;
      }
      assert parts[..i] == parts;
    }
  }
}
