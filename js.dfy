/**
 * The handful of JavaScript runtime behaviours the tool handlers rely on:
 * falsy values in `a || fallback` and `cond ? x : y`, `Array.prototype.map`,
 * `Array.prototype.join`, `filter(Boolean)` on strings, `slice(0, n)` and
 * `String.prototype.toUpperCase` (on ASCII letters).
 *
 * `Split` is not used by the handlers: it is the inverse of `Join` with a
 * one-character separator, and it lets the other modules state what lines a
 * rendered text consists of.
 */
module Js {
  import opened Wrappers

  /** An optional string is truthy when present and not "". */
  predicate TruthyString(v: Option<string>) {
    v.Some? && v.value != ""
  }

  /**
   * An optional JSON number is truthy when present and not 0 (JSON carries
   * no NaN, the other falsy number).
   */
  predicate TruthyNumber(v: Option<real>) {
    v.Some? && v.value != 0.0
  }

  /**
   * `v || fallback` for an optional string: the value when it is present and
   * not "", the fallback otherwise; so it is "" only when the fallback is.
   */
  function OrElse(v: Option<string>, fallback: string): (r: string)
    ensures v.Some? && v.value != "" ==> r == v.value
    ensures v.None? || v.value == "" ==> r == fallback
    ensures r == "" ==> fallback == ""
  {
    if TruthyString(v) then v.value else fallback
  }

  /** `xs.map(f)`. */
  function Map<A, B>(f: A -> B, xs: seq<A>): (r: seq<B>)
    ensures |r| == |xs|
    ensures forall i :: 0 <= i < |xs| ==> r[i] == f(xs[i])
  {
    if |xs| == 0 then [] else [f(xs[0])] + Map(f, xs[1..])
  }

  /** The concatenation of a sequence of blocks, in order. */
  function Flatten<T>(xss: seq<seq<T>>): seq<T> {
    if |xss| == 0 then [] else xss[0] + Flatten(xss[1..])
  }

  /**
   * `parts.join(sep)`: "" for no parts, the parts separated by `sep`
   * otherwise, so the text starts with the first part and ends with the last.
   */
  function Join(parts: seq<string>, sep: string): (r: string)
    ensures |parts| == 0 ==> r == ""
    ensures |parts| >= 1 ==> |parts[0]| <= |r| && r[..|parts[0]|] == parts[0]
  {
    if |parts| == 0 then ""
    else if |parts| == 1 then parts[0]
    else parts[0] + sep + Join(parts[1..], sep)
  }

  /**
   * The pieces of `s` between occurrences of `sep`: at least one, and no
   * piece contains the separator.
   */
  function Split(s: string, sep: char): (r: seq<string>)
    ensures |r| >= 1
    ensures forall i :: 0 <= i < |r| ==> sep !in r[i]
    decreases |s|
  {
    if |s| == 0 then [""]
    else
      var rest := Split(s[1..], sep);
      if s[0] == sep then [""] + rest
      else [[s[0]] + rest[0]] + rest[1..]
  }

  /** The lines of a text. */
  function Lines(s: string): seq<string> {
    Split(s, '\n')
  }

  predicate NoNewline(s: string) {
    '\n' !in s
  }

  predicate AllNoNewline(lines: seq<string>) {
    forall i :: 0 <= i < |lines| ==> NoNewline(lines[i])
  }

  /**
   * `xs.filter(Boolean)` on strings: drops every "" and keeps the rest in
   * order. Its length is the input's less the number of "" entries, and
   * `CompactAppend` shows it works entry by entry.
   */
  function Compact(xs: seq<string>): (r: seq<string>)
    ensures forall i :: 0 <= i < |r| ==> r[i] != ""
    ensures (forall i :: 0 <= i < |xs| ==> xs[i] != "") ==> r == xs
    ensures |r| == |xs| - Blanks(xs)
  {
    if |xs| == 0 then []
    else (if xs[0] == "" then [] else [xs[0]]) + Compact(xs[1..])
  }

  /** The number of "" entries. */
  function Blanks(xs: seq<string>): nat {
    if |xs| == 0 then 0 else (if xs[0] == "" then 1 else 0) + Blanks(xs[1..])
  }

  /** `xs.slice(0, n)` for a non-negative `n`: the first `n` entries, or all of them. */
  function Take<T>(xs: seq<T>, n: nat): (r: seq<T>)
    ensures |r| == if n <= |xs| then n else |xs|
    ensures forall i :: 0 <= i < |r| ==> r[i] == xs[i]
  {
    if n <= |xs| then xs[..n] else xs
  }

  function UpperChar(c: char): char {
    if 'a' <= c <= 'z' then (c as int - 32) as char else c
  }

  /** `s.toUpperCase()`, on the ASCII letters. */
  function ToUpperCase(s: string): (r: string)
    ensures |r| == |s|
    ensures forall i :: 0 <= i < |s| ==> r[i] == UpperChar(s[i])
  {
    if |s| == 0 then "" else [UpperChar(s[0])] + ToUpperCase(s[1..])
  }

  // ---------------------------------------------------------------------
  // Split is the inverse of Join

  lemma {:induction false} SplitWithoutSeparator(a: string, sep: char)
    requires sep !in a
    ensures Split(a, sep) == [a]
    decreases |a|
  {
    if |a| > 0 {
      SplitWithoutSeparator(a[1..], sep);
      assert [a[0]] + a[1..] == a;
    }
  }

  lemma {:induction false} SplitAfterFirstSeparator(a: string, sep: char, b: string)
    requires sep !in a
    ensures Split(a + [sep] + b, sep) == [a] + Split(b, sep)
    decreases |a|
  {
    var s := a + [sep] + b;
    if |a| == 0 {
      assert s[1..] == b;
    } else {
      assert s[1..] == a[1..] + [sep] + b;
      SplitAfterFirstSeparator(a[1..], sep, b);
      assert [a[0]] + a[1..] == a;
    }
  }

  /** Joining separator-free parts and splitting the result gives the parts back. */
  lemma {:induction false} SplitJoin(parts: seq<string>, sep: char)
    requires |parts| >= 1
    requires forall i :: 0 <= i < |parts| ==> sep !in parts[i]
    ensures Split(Join(parts, [sep]), sep) == parts
    decreases |parts|
  {
    if |parts| == 1 {
      SplitWithoutSeparator(parts[0], sep);
    } else {
      SplitJoin(parts[1..], sep);
      SplitAfterFirstSeparator(parts[0], sep, Join(parts[1..], [sep]));
      assert [parts[0]] + parts[1..] == parts;
    }
  }

  /** Splitting a text and joining the pieces gives the text back. */
  lemma {:induction false} JoinSplit(s: string, sep: char)
    ensures Join(Split(s, sep), [sep]) == s
    decreases |s|
  {
    if |s| > 0 {
      var rest := Split(s[1..], sep);
      JoinSplit(s[1..], sep);
      if s[0] == sep {
        assert ([""] + rest)[1..] == rest;
      } else if |rest| > 1 {
        var r := [[s[0]] + rest[0]] + rest[1..];
        assert r[1..] == rest[1..];
      }
      assert [s[0]] + s[1..] == s;
    }
  }

  /** Lines joined by "\n" split back into those lines, when none holds a line break. */
  lemma LinesJoin(lines: seq<string>)
    ensures |lines| >= 1 && AllNoNewline(lines) ==> Lines(Join(lines, "\n")) == lines
  {
    if |lines| >= 1 && AllNoNewline(lines) {
      SplitJoin(lines, '\n');
    }
  }

  // ---------------------------------------------------------------------
  // Join over concatenations and blocks

  lemma {:induction false} JoinAppend(a: seq<string>, b: seq<string>, sep: string)
    requires |a| >= 1 && |b| >= 1
    ensures Join(a + b, sep) == Join(a, sep) + sep + Join(b, sep)
    decreases |a|
  {
    if |a| == 1 {
      assert (a + b)[1..] == b;
    } else {
      assert (a + b)[1..] == a[1..] + b;
      JoinAppend(a[1..], b, sep);
    }
  }

  lemma {:induction false} FlattenNonEmpty<T>(xss: seq<seq<T>>)
    requires |xss| >= 1 && |xss[0]| >= 1
    ensures |Flatten(xss)| >= 1
  {
  }

  /**
   * Joining rendered blocks, each the join of its own lines, is joining all
   * the lines of all the blocks.
   */
  lemma {:induction false} JoinOfBlocks<A>(xs: seq<A>, block: A -> seq<string>, render: A -> string, sep: string)
    requires |xs| >= 1
    requires forall i :: 0 <= i < |xs| ==> |block(xs[i])| >= 1 && render(xs[i]) == Join(block(xs[i]), sep)
    ensures Join(Map(render, xs), sep) == Join(Flatten(Map(block, xs)), sep)
    decreases |xs|
  {
    var blocks := Map(block, xs);
    assert Flatten(blocks) == blocks[0] + Flatten(blocks[1..]);
    assert blocks[1..] == Map(block, xs[1..]);
    if |xs| == 1 {
      assert Flatten(blocks[1..]) == [];
      assert Flatten(blocks) == block(xs[0]);
    } else {
      var rendered := Map(render, xs);
      assert rendered[1..] == Map(render, xs[1..]);
      JoinOfBlocks(xs[1..], block, render, sep);
      FlattenNonEmpty(blocks[1..]);
      JoinAppend(blocks[0], Flatten(blocks[1..]), sep);
    }
  }

  /** Blocks of `k` lines each flatten to `k` lines per block. */
  lemma {:induction false} FlattenUniform<T>(xss: seq<seq<T>>, k: nat)
    requires forall i :: 0 <= i < |xss| ==> |xss[i]| == k
    ensures |Flatten(xss)| == k * |xss|
    decreases |xss|
  {
    if |xss| > 0 {
      FlattenUniform(xss[1..], k);
    }
  }

  lemma {:induction false} FlattenNoNewline(xss: seq<seq<string>>)
    requires forall i :: 0 <= i < |xss| ==> AllNoNewline(xss[i])
    ensures AllNoNewline(Flatten(xss))
    decreases |xss|
  {
    if |xss| > 0 {
      FlattenNoNewline(xss[1..]);
      var f := Flatten(xss);
      assert f == xss[0] + Flatten(xss[1..]);
      forall i | 0 <= i < |f| ensures NoNewline(f[i]) {
        if i >= |xss[0]| {
          assert f[i] == Flatten(xss[1..])[i - |xss[0]|];
        }
      }
    }
  }

  /**
   * A report: a header line, a blank line, then the lines of every block.
   * `header:\n\n` followed by the joined blocks splits into exactly those lines.
   */
  lemma {:induction false} ReportLines(header: string, blocks: seq<string>, blockLines: seq<string>)
    requires |blockLines| >= 1 && AllNoNewline(blockLines) && NoNewline(header)
    requires Join(blocks, "\n") == Join(blockLines, "\n")
    ensures Lines(header + "\n\n" + Join(blocks, "\n")) == [header, ""] + blockLines
  {
    var top: seq<string> := [header, ""];
    var all := top + blockLines;
    assert top[1..] == [""];
    assert Join(top, "\n") == header + "\n";
    JoinAppend(top, blockLines, "\n");
    assert Join(all, "\n") == (header + "\n") + "\n" + Join(blockLines, "\n");
    var j := Join(blockLines, "\n");
    assert "\n\n" == "\n" + "\n";
    assert header + "\n\n" + j == (header + "\n") + "\n" + j;
    assert Join(all, "\n") == header + "\n\n" + Join(blocks, "\n");
    forall i | 0 <= i < |all| ensures NoNewline(all[i]) {
      if i >= 2 { assert all[i] == blockLines[i - 2]; }
    }
    LinesJoin(all);
  }

  // ---------------------------------------------------------------------
  // filter(Boolean) and toUpperCase

  lemma {:induction false} CompactAppend(xs: seq<string>, ys: seq<string>)
    ensures Compact(xs + ys) == Compact(xs) + Compact(ys)
    decreases |xs|
  {
    if |xs| > 0 {
      var head: seq<string> := if xs[0] == "" then [] else [xs[0]];
      assert (xs + ys)[0] == xs[0];
      assert (xs + ys)[1..] == xs[1..] + ys;
      CompactAppend(xs[1..], ys);
      assert Compact(xs + ys) == head + (Compact(xs[1..]) + Compact(ys));
      assert Compact(xs) == head + Compact(xs[1..]);
    } else {
      assert xs + ys == ys;
    }
  }

  lemma ToUpperCaseIdempotent(s: string)
    ensures ToUpperCase(ToUpperCase(s)) == ToUpperCase(s)
  {
  }

  lemma ToUpperCaseKeepsNewlinesOut(s: string)
    requires NoNewline(s)
    ensures NoNewline(ToUpperCase(s))
  {
    var u := ToUpperCase(s);
    forall i | 0 <= i < |u| ensures u[i] != '\n' {
      assert s[i] != '\n';
    }
  }
}
