/** Multi-line text: `Array.prototype.join` and the inverse view of a text as
    the lines between its newline characters. */
module Lines {

  /** `parts.join(sep)`: the items with `sep` between neighbours, so the
      text begins with the first item. */
  function Join(parts: seq<string>, sep: string): (r: string)
    ensures |parts| == 0 ==> r == ""
    ensures |parts| > 0 ==> |parts[0]| <= |r| && r[..|parts[0]|] == parts[0]
  {
    if |parts| == 0 then ""
    else if |parts| == 1 then parts[0]
    else parts[0] + sep + Join(parts[1..], sep)
  }

  /** The lines of `s`: the pieces between its newline characters; the
      empty text is one empty line. */
  function SplitLines(s: string): (r: seq<string>)
    ensures |r| > 0
    ensures forall i :: 0 <= i < |r| ==> '\n' !in r[i]
    decreases |s|
  {
    if |s| == 0 then [""]
    else
      var rest := SplitLines(s[1..]);
      if s[0] == '\n' then [""] + rest
      else [[s[0]] + rest[0]] + rest[1..]
  }

  /** The concatenation of a sequence of line lists. */
  function Flatten(blocks: seq<seq<string>>): (r: seq<string>)
  {
    if |blocks| == 0 then [] else blocks[0] + Flatten(blocks[1..])
  }

  /** The lines of each text in turn. */
  function SplitEach(texts: seq<string>): (r: seq<seq<string>>)
    ensures |r| == |texts|
    ensures forall i :: 0 <= i < |texts| ==> r[i] == SplitLines(texts[i])
  {
    seq(|texts|, i requires 0 <= i < |texts| => SplitLines(texts[i]))
  }

  /** A text without newlines is one line. */
  lemma {:induction false} SplitSingleLine(s: string)
    requires '\n' !in s
    ensures SplitLines(s) == [s]
    decreases |s|
  {
    if |s| > 0 {
      assert s[0] in s;
      assert s == [s[0]] + s[1..];
      assert '\n' !in s[1..] by {
        forall i | 0 <= i < |s| - 1 ensures s[1..][i] != '\n' {
          assert s[i + 1] in s;
        }
      }
      SplitSingleLine(s[1..]);
    }
  }

  /** Gluing two texts with a newline juxtaposes their lines. */
  lemma {:induction false} SplitAppend(a: string, b: string)
    ensures SplitLines(a + "\n" + b) == SplitLines(a) + SplitLines(b)
    decreases |a|
  {
    var s := a + "\n" + b;
    if |a| == 0 {
      assert s[1..] == b;
    } else {
      assert s[1..] == a[1..] + "\n" + b;
      SplitAppend(a[1..], b);
    }
  }

  /** The lines of a newline-joined list are the lines of its items, in order. */
  lemma {:induction false} SplitJoin(parts: seq<string>)
    requires |parts| > 0
    ensures SplitLines(Join(parts, "\n")) == Flatten(SplitEach(parts))
    decreases |parts|
  {
    var blocks := SplitEach(parts);
    if |parts| == 1 {
      assert Join(parts, "\n") == parts[0];
      assert Flatten(blocks) == blocks[0] + Flatten([]);
    } else {
      var rest := Join(parts[1..], "\n");
      assert Join(parts, "\n") == parts[0] + "\n" + rest;
      SplitAppend(parts[0], rest);
      SplitJoin(parts[1..]);
      assert blocks[1..] == SplitEach(parts[1..]);
      assert Flatten(blocks) == blocks[0] + Flatten(blocks[1..]);
    }
  }

  /** Joining newline-free lines and splitting the result gives them back. */
  lemma SplitJoinLines(lines: seq<string>)
    requires |lines| > 0
    requires forall i :: 0 <= i < |lines| ==> '\n' !in lines[i]
    ensures SplitLines(Join(lines, "\n")) == lines
  {
    SplitJoin(lines);
    FlattenSingletons(lines);
  }

  lemma {:induction false} FlattenSingletons(lines: seq<string>)
    requires forall i :: 0 <= i < |lines| ==> '\n' !in lines[i]
    ensures Flatten(SplitEach(lines)) == lines
    decreases |lines|
  {
    if |lines| > 0 {
      SplitSingleLine(lines[0]);
      assert SplitEach(lines)[1..] == SplitEach(lines[1..]);
      FlattenSingletons(lines[1..]);
    }
  }

  /** Blocks of n lines each flatten to n lines per block. */
  lemma {:induction false} FlattenLength(blocks: seq<seq<string>>, n: nat)
    requires forall i :: 0 <= i < |blocks| ==> |blocks[i]| == n
    ensures |Flatten(blocks)| == n * |blocks|
    decreases |blocks|
  {
    if |blocks| > 0 {
      FlattenLength(blocks[1..], n);
      MulStep(n, |blocks|);
    }
  }

  lemma MulStep(n: nat, k: nat)
    requires k > 0
    ensures n * k == n + n * (k - 1)
  {
  }
}
