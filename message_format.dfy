/** `formatMessageText`: how the chat widget lays out a message. The text is
    split into lines; each maximal run of bullet lines (`*`, `•` or `-`, then
    white space, then text) becomes one bulleted list, every other non-blank
    line a paragraph, and a blank line a line break unless it is the first or
    the last line. A message that yields nothing is shown as its raw text. */
module MessageFormat {
  import opened Wrappers
  import opened Text

  datatype Block = Paragraph(text: string) | LineBreak | BulletList(items: seq<string>)

  /** The layout: a sequence of blocks, or the raw text when there are none. */
  datatype Formatted = Blocks(blocks: seq<Block>) | RawText(text: string)

  predicate IsMarker(c: char) {
    c == '*' || c == '\U{2022}' || c == '-'
  }

  /** The characters that the regular-expression `.` does not match. */
  predicate IsLineTerminator(c: char) {
    c == '\n' || c == '\r' || c == '\U{2028}' || c == '\U{2029}'
  }

  /** The bullet test, read directly off the trimmed line: a marker followed
      by white space. (Since a trimmed line ends in a non-space character,
      some text always follows that white space.) */
  predicate IsListItem(line: string) {
    var t := Trim(line);
    |t| >= 2 && IsMarker(t[0]) && IsSpace(t[1])
  }

  /** What `/^[*•-]\s+.+/` accepts: a marker, one or more white-space
      characters, and then at least one character other than a line
      terminator. */
  ghost predicate MatchesBulletPattern(t: string) {
    |t| >= 1 && IsMarker(t[0]) &&
    exists k :: 2 <= k < |t| && !IsLineTerminator(t[k]) && AllSpace(t[1..k])
  }

  ghost predicate AllSpace(s: string) {
    forall i :: 0 <= i < |s| ==> IsSpace(s[i])
  }

  /** The bullet test agrees with the regular expression on every line. */
  lemma ListItemIsPatternMatch(line: string)
    ensures IsListItem(line) <==> MatchesBulletPattern(Trim(line))
  {
    var t := Trim(line);
    TrimEnds(line);
    if IsListItem(line) {
      TrimStartShape(t[1..]);
      var rest := TrimStart(t[1..]);
      var k := |t| - |rest|;
      assert rest != [] by {
        assert !IsSpace(t[|t| - 1]);
        assert t[1..][|t| - 2] == t[|t| - 1];
      }
      assert t[k] == rest[0];
      assert t[1..k] == t[1..][..|t[1..]| - |rest|];
      assert 2 <= k < |t| && !IsLineTerminator(t[k]) && AllSpace(t[1..k]);
    }
    if MatchesBulletPattern(t) {
      var k :| 2 <= k < |t| && !IsLineTerminator(t[k]) && AllSpace(t[1..k]);
      assert t[1..k][0] == t[1];
    }
  }

  /** The text of a bullet line: the trimmed line without its marker and the
      white space after it (what `replace(/^[*•-]\s+/, '')` leaves). */
  function ItemText(line: string): string
    requires IsListItem(line)
  {
    TrimStart(Trim(line)[1..])
  }

  /** The item text is never empty, starts with a non-space character, and is
      all of the trimmed line after the marker and its white space. */
  lemma ItemTextShape(line: string)
    requires IsListItem(line)
    ensures var t, x := Trim(line), ItemText(line);
      |x| > 0 && !IsSpace(x[0]) && 2 <= |t| - |x| &&
      t == t[..|t| - |x|] + x && AllSpace(t[1..|t| - |x|])
  {
    var t, x := Trim(line), ItemText(line);
    TrimEnds(line);
    TrimStartShape(t[1..]);
    assert t[1..][|t| - 2] == t[|t| - 1];
    assert t[1..|t| - |x|] == t[1..][..|t[1..]| - |x|];
  }

  /** A line classified on its own, with its index among `count` lines. */
  datatype Token = Item(text: string) | Other(block: Option<Block>)

  function LineToken(line: string, index: nat, count: nat): Token {
    if IsListItem(line) then Item(ItemText(line))
    else if !IsBlank(line) then Other(Some(Paragraph(line)))
    else if 0 < index < count - 1 then Other(Some(LineBreak))
    else Other(None)
  }

  /** The tokens of `lines`, each classified with its index. */
  function Tokens(lines: seq<string>): (ts: seq<Token>)
    ensures |ts| == |lines|
  {
    TokensFrom(lines, 0)
  }

  function TokensFrom(lines: seq<string>, from: nat): (ts: seq<Token>)
    requires from <= |lines|
    ensures |ts| == |lines| - from
    decreases |lines| - from
  {
    if from == |lines| then [] else [LineToken(lines[from], from, |lines|)] + TokensFrom(lines, from + 1)
  }

  lemma {:induction false} TokensFromAt(lines: seq<string>, from: nat, i: nat)
    requires from <= i < |lines|
    ensures TokensFrom(lines, from)[i - from] == LineToken(lines[i], i, |lines|)
    decreases i - from
  {
    var rest := TokensFrom(lines, from + 1);
    assert TokensFrom(lines, from) == [LineToken(lines[from], from, |lines|)] + rest;
    if from < i {
      TokensFromAt(lines, from + 1, i);
      assert rest[i - from - 1] == LineToken(lines[i], i, |lines|);
    }
  }

  /** Each line's token is that line classified with its index. */
  lemma TokenAt(lines: seq<string>, i: nat)
    requires i < |lines|
    ensures Tokens(lines)[i] == LineToken(lines[i], i, |lines|)
  {
    TokensFromAt(lines, 0, i);
  }

  /** Every token from `i` up to `j` is a bullet. */
  predicate ItemsBetween(ts: seq<Token>, i: nat, j: nat)
    requires i <= j <= |ts|
  {
    forall k :: i <= k < j ==> ts[k].Item?
  }

  /** Where the run of bullets that starts at `i` ends. */
  function RunEnd(ts: seq<Token>, i: nat): (j: nat)
    requires i <= |ts|
    ensures i <= j <= |ts| && ItemsBetween(ts, i, j)
    ensures j < |ts| ==> !ts[j].Item?
    decreases |ts| - i
  {
    if i == |ts| || !ts[i].Item? then i else RunEnd(ts, i + 1)
  }

  /** The texts of the bullets from `i` up to `j`, in order. */
  function TextsBetween(ts: seq<Token>, i: nat, j: nat): (xs: seq<string>)
    requires i <= j <= |ts| && ItemsBetween(ts, i, j)
    ensures |xs| == j - i
    decreases j - i
  {
    if i == j then [] else TextsBetween(ts, i, j - 1) + [ts[j - 1].text]
  }

  function BlockOf(t: Token): seq<Block>
    requires !t.Item?
  {
    if t.block.Some? then [t.block.value] else []
  }

  function Flush(items: seq<string>): seq<Block> {
    if items == [] then [] else [BulletList(items)]
  }

  /** The reference layout of the tokens from `i` on: each maximal run of
      bullets is one list; every other token contributes its block, if any. */
  function GroupFrom(ts: seq<Token>, i: nat): seq<Block>
    requires i <= |ts|
    decreases |ts| - i
  {
    if i == |ts| then []
    else if ts[i].Item? then
      var j := RunEnd(ts, i);
      [BulletList(TextsBetween(ts, i, j))] + GroupFrom(ts, j)
    else BlockOf(ts[i]) + GroupFrom(ts, i + 1)
  }

  function Group(ts: seq<Token>): seq<Block> {
    GroupFrom(ts, 0)
  }

  /** The layout of a message text. */
  function Render(text: string): Formatted {
    var blocks := Group(Tokens(Split(text, '\n')));
    if |blocks| > 0 then Blocks(blocks) else RawText(text)
  }

  /** A run is determined by where it stops. */
  lemma {:induction false} RunEndExact(ts: seq<Token>, i: nat, j: nat)
    requires i <= j <= |ts| && ItemsBetween(ts, i, j)
    requires j < |ts| ==> !ts[j].Item?
    ensures RunEnd(ts, i) == j
    decreases j - i
  {
    if i < j {
      RunEndExact(ts, i + 1, j);
    }
  }

  /** A run of bullets from `start` up to a non-bullet (or the end) lays out
      as one list in front of the layout of what follows. */
  lemma GroupRun(ts: seq<Token>, start: nat, i: nat)
    requires start <= i <= |ts| && ItemsBetween(ts, start, i)
    requires i < |ts| ==> !ts[i].Item?
    ensures GroupFrom(ts, start) == Flush(TextsBetween(ts, start, i)) + GroupFrom(ts, i)
  {
    if start < i {
      RunEndExact(ts, start, i);
    }
  }

  /** The loop's step at a line that is not a bullet: the pending run is
      flushed and the line's own block follows it. */
  lemma StepAtOther(ts: seq<Token>, start: nat, index: nat, formatted: seq<Block>)
    requires start <= index < |ts| && !ts[index].Item? && ItemsBetween(ts, start, index)
    requires formatted + GroupFrom(ts, start) == Group(ts)
    ensures formatted + Flush(TextsBetween(ts, start, index)) + BlockOf(ts[index]) + GroupFrom(ts, index + 1) == Group(ts)
  {
    GroupRun(ts, start, index);
  }

  /** The loop's step at a bullet: the run grows by the bullet's text. */
  lemma StepAtItem(ts: seq<Token>, start: nat, index: nat, pending: seq<string>)
    requires start <= index < |ts| && ts[index].Item?
    requires ItemsBetween(ts, start, index) && pending == TextsBetween(ts, start, index)
    ensures ItemsBetween(ts, start, index + 1)
    ensures pending + [ts[index].text] == TextsBetween(ts, start, index + 1)
  {
  }

  /** After the last line the pending run is flushed and nothing follows. */
  lemma StepAtEnd(ts: seq<Token>, start: nat, formatted: seq<Block>)
    requires start <= |ts| && ItemsBetween(ts, start, |ts|)
    requires formatted + GroupFrom(ts, start) == Group(ts)
    ensures formatted + Flush(TextsBetween(ts, start, |ts|)) == Group(ts)
  {
    GroupRun(ts, start, |ts|);
  }

  /** What the loop needs to know of one line's token. */
  lemma LineFacts(lines: seq<string>, i: nat)
    requires i < |lines|
    ensures IsListItem(lines[i]) ==> Tokens(lines)[i] == Item(ItemText(lines[i]))
    ensures !IsListItem(lines[i]) ==> !Tokens(lines)[i].Item?
    ensures !IsListItem(lines[i]) ==>
      BlockOf(Tokens(lines)[i]) ==
        (if !IsBlank(lines[i]) then [Paragraph(lines[i])]
         else if 0 < i < |lines| - 1 then [LineBreak]
         else [])
  {
    TokenAt(lines, i);
  }

  /** `formatMessageText`, as the source writes it: one pass over the lines
      that collects bullets in `listItems` while `inList`, and flushes them as
      one list at the next other line or at the end. */
  method FormatMessageText(text: string) returns (out: Formatted)
    ensures out == Render(text)
  {
    var lines := Split(text, '\n');
    var formatted: seq<Block> := [];
    var inList := false;
    var listItems: seq<string> := [];
    ghost var ts := Tokens(lines);
    ghost var start := 0;
    var index := 0;
    while index < |lines|
      invariant 0 <= start <= index <= |lines|
      invariant inList <==> |listItems| > 0
      invariant ItemsBetween(ts, start, index) && listItems == TextsBetween(ts, start, index)
      invariant formatted + GroupFrom(ts, start) == Group(ts)
    {
      var line := lines[index];
      LineFacts(lines, index);
      if IsListItem(line) {
        StepAtItem(ts, start, index, listItems);
        if !inList {
          inList := true;
        }
        listItems := listItems + [ItemText(line)];
      } else {
        StepAtOther(ts, start, index, formatted);
        ghost var expected := formatted + Flush(listItems) + BlockOf(ts[index]);
        if inList && |listItems| > 0 {
          formatted := formatted + [BulletList(listItems)];
          listItems := [];
          inList := false;
        }
        if !IsBlank(line) {
          formatted := formatted + [Paragraph(line)];
        } else if index > 0 && index < |lines| - 1 {
          formatted := formatted + [LineBreak];
        }
        assert formatted == expected;
        start := index + 1;
      }
      index := index + 1;
    }
    StepAtEnd(ts, start, formatted);
    if inList && |listItems| > 0 {
      formatted := formatted + [BulletList(listItems)];
    }
    if |formatted| > 0 {
      out := Blocks(formatted);
    } else {
      out := RawText(text);
    }
  }

  // Properties of the layout.

  /** The tokens the line classifier produces: no other line yields a list,
      and a line that yields nothing is the first or the last. */
  predicate WellFormed(ts: seq<Token>) {
    && (forall k :: 0 <= k < |ts| && ts[k].Other? && ts[k].block.Some? ==> !ts[k].block.value.BulletList?)
    && (forall k :: 0 < k < |ts| - 1 ==> ts[k] != Other(None))
  }

  lemma TokensWellFormed(lines: seq<string>)
    ensures WellFormed(Tokens(lines))
  {
    forall k | 0 <= k < |lines| {
      TokenAt(lines, k);
    }
  }

  /** Every list has at least one item and no two lists are adjacent: each
      list is a whole maximal run. */
  predicate Separated(bs: seq<Block>) {
    && (forall k :: 0 <= k < |bs| && bs[k].BulletList? ==> |bs[k].items| > 0)
    && (forall k :: 0 <= k < |bs| - 1 ==> !(bs[k].BulletList? && bs[k + 1].BulletList?))
  }

  /** After a run has ended, the layout does not continue with a list. */
  lemma AfterRunNoList(ts: seq<Token>, j: nat)
    requires WellFormed(ts) && 0 < j < |ts| && !ts[j].Item?
    ensures var g := GroupFrom(ts, j); g == [] || !g[0].BulletList?
  {
    if ts[j].block.None? {
      assert j == |ts| - 1;
    }
  }

  lemma {:induction false} GroupSeparated(ts: seq<Token>, i: nat)
    requires WellFormed(ts) && i <= |ts|
    ensures Separated(GroupFrom(ts, i))
    decreases |ts| - i
  {
    if i < |ts| {
      if ts[i].Item? {
        var j := RunEnd(ts, i);
        GroupSeparated(ts, j);
        if j < |ts| {
          AfterRunNoList(ts, j);
        }
        var g := GroupFrom(ts, j);
        assert GroupFrom(ts, i) == [BulletList(TextsBetween(ts, i, j))] + g;
        assert forall k :: 1 <= k < |g| + 1 ==> GroupFrom(ts, i)[k] == g[k - 1];
      } else {
        GroupSeparated(ts, i + 1);
        var b, g := BlockOf(ts[i]), GroupFrom(ts, i + 1);
        assert forall k :: |b| <= k < |b| + |g| ==> (b + g)[k] == g[k - |b|];
      }
    }
  }

  /** The content of a layout, read off in order: one piece per list item
      and one per other block. */
  datatype Piece = Bullet(text: string) | Line(block: Block)

  function BulletPieces(items: seq<string>): (ps: seq<Piece>)
    ensures |ps| == |items|
  {
    seq(|items|, k requires 0 <= k < |items| => Bullet(items[k]))
  }

  function BlockPieces(bs: seq<Block>): seq<Piece> {
    if bs == [] then []
    else (if bs[0].BulletList? then BulletPieces(bs[0].items) else [Line(bs[0])]) + BlockPieces(bs[1..])
  }

  /** The content of the tokens from `i` on: each bullet's text and each
      other line's block. */
  function TokenPieces(ts: seq<Token>, i: nat): seq<Piece>
    requires i <= |ts|
    decreases |ts| - i
  {
    if i == |ts| then []
    else
      var here := match ts[i]
        case Item(text) => [Bullet(text)]
        case Other(block) => if block.Some? then [Line(block.value)] else [];
      here + TokenPieces(ts, i + 1)
  }

  lemma {:induction false} TextsBetweenCons(ts: seq<Token>, i: nat, j: nat)
    requires i < j <= |ts| && ItemsBetween(ts, i, j)
    ensures TextsBetween(ts, i, j) == [ts[i].text] + TextsBetween(ts, i + 1, j)
    decreases j - i
  {
    if i + 1 < j {
      TextsBetweenCons(ts, i, j - 1);
    }
  }

  lemma {:induction false} RunPieces(ts: seq<Token>, i: nat, j: nat)
    requires i <= j <= |ts| && ItemsBetween(ts, i, j)
    ensures TokenPieces(ts, i) == BulletPieces(TextsBetween(ts, i, j)) + TokenPieces(ts, j)
    decreases j - i
  {
    if i < j {
      var x, rest := ts[i].text, TextsBetween(ts, i + 1, j);
      assert TokenPieces(ts, i + 1) == BulletPieces(rest) + TokenPieces(ts, j) by {
        RunPieces(ts, i + 1, j);
      }
      assert BulletPieces(TextsBetween(ts, i, j)) == [Bullet(x)] + BulletPieces(rest) by {
        TextsBetweenCons(ts, i, j);
        BulletPiecesCons(x, rest);
      }
      assert TokenPieces(ts, i) == [Bullet(x)] + TokenPieces(ts, i + 1) by {
        assert ts[i].Item?;
      }
      assert [Bullet(x)] + (BulletPieces(rest) + TokenPieces(ts, j)) ==
        ([Bullet(x)] + BulletPieces(rest)) + TokenPieces(ts, j);
    }
  }

  lemma BulletPiecesCons(x: string, rest: seq<string>)
    ensures BulletPieces([x] + rest) == [Bullet(x)] + BulletPieces(rest)
  {
    var l, r := BulletPieces([x] + rest), [Bullet(x)] + BulletPieces(rest);
    forall k | 0 <= k < |l|
      ensures l[k] == r[k]
    {
      if k > 0 {
        assert ([x] + rest)[k] == rest[k - 1];
      }
    }
  }

  lemma BlockPiecesCons(b: Block, bs: seq<Block>)
    ensures BlockPieces([b] + bs) == BlockPieces([b]) + BlockPieces(bs)
  {
    assert ([b] + bs)[1..] == bs;
  }

  /** The layout keeps every bullet text and every other line's block, in the
      order of the lines: grouping only puts brackets around the runs. */
  lemma {:induction false} GroupPieces(ts: seq<Token>, i: nat)
    requires WellFormed(ts) && i <= |ts|
    ensures BlockPieces(GroupFrom(ts, i)) == TokenPieces(ts, i)
    decreases |ts| - i
  {
    if i < |ts| {
      if ts[i].Item? {
        var j := RunEnd(ts, i);
        GroupPieces(ts, j);
        RunPieces(ts, i, j);
        BlockPiecesCons(BulletList(TextsBetween(ts, i, j)), GroupFrom(ts, j));
      } else {
        GroupPieces(ts, i + 1);
        var b := ts[i].block;
        if b.Some? {
          assert !b.value.BulletList?;
          assert BlockPieces([b.value]) == [Line(b.value)];
          BlockPiecesCons(b.value, GroupFrom(ts, i + 1));
        } else {
          assert GroupFrom(ts, i) == GroupFrom(ts, i + 1);
        }
      }
    }
  }

  /** The layout from `i` is empty exactly when every token from `i` yields
      nothing. */
  lemma {:induction false} GroupEmpty(ts: seq<Token>, i: nat)
    requires i <= |ts|
    ensures GroupFrom(ts, i) == [] <==> forall k :: i <= k < |ts| ==> ts[k] == Other(None)
    decreases |ts| - i
  {
    if i < |ts| && !ts[i].Item? {
      GroupEmpty(ts, i + 1);
    }
  }

  /** A message is shown as raw text exactly when it has at most two lines
      and every line is blank. */
  lemma RenderRaw(text: string)
    ensures Render(text).RawText? <==>
      var lines := Split(text, '\n');
      |lines| <= 2 && forall k :: 0 <= k < |lines| ==> IsBlank(lines[k])
  {
    var lines := Split(text, '\n');
    var ts := Tokens(lines);
    GroupEmpty(ts, 0);
    forall k | 0 <= k < |lines|
      ensures ts[k] == Other(None) <==> IsBlank(lines[k]) && !(0 < k < |lines| - 1)
    {
      TokenAt(lines, k);
      if IsListItem(lines[k]) {
        assert !IsBlank(lines[k]);
      }
    }
    if |lines| > 2 {
      assert !(ts[1] == Other(None));
    }
  }

  /** Every formatted message is laid out with whole runs as lists and keeps
      its lines' content in order. */
  lemma RenderLayout(text: string)
    ensures Render(text).Blocks? ==>
      Separated(Render(text).blocks) &&
      BlockPieces(Render(text).blocks) == TokenPieces(Tokens(Split(text, '\n')), 0)
  {
    var ts := Tokens(Split(text, '\n'));
    TokensWellFormed(Split(text, '\n'));
    GroupSeparated(ts, 0);
    GroupPieces(ts, 0);
  }

  /** Tokens that hold given item texts in order read back as those texts. */
  lemma {:induction false} ItemRunTexts(ts: seq<Token>, start: nat, items: seq<string>, m: nat)
    requires m <= |items| && start + |items| <= |ts|
    requires forall k :: 0 <= k < |items| ==> ts[start + k] == Item(items[k])
    ensures ItemsBetween(ts, start, start + m)
    ensures TextsBetween(ts, start, start + m) == items[..m]
    decreases m
  {
    if m > 0 {
      ItemRunTexts(ts, start, items, m - 1);
      assert items[..m] == items[..m - 1] + [items[m - 1]];
    }
  }

  /** The tokens of a heading line, a run of items, an empty line and a
      closing line. */
  predicate FramedTokens(ts: seq<Token>, heading: string, items: seq<string>, closing: string) {
    |ts| == |items| + 3 &&
    ts[0] == Other(Some(Paragraph(heading))) &&
    (forall k :: 0 <= k < |items| ==> ts[1 + k] == Item(items[k])) &&
    ts[|items| + 1] == Other(Some(LineBreak)) &&
    ts[|items| + 2] == Other(Some(Paragraph(closing)))
  }

  /** A heading line, a run of items, an empty line and a closing line lay
      out as a paragraph, one list, a line break and a paragraph. */
  lemma FramedGroup(ts: seq<Token>, heading: string, items: seq<string>, closing: string)
    requires |items| > 0 && FramedTokens(ts, heading, items, closing)
    ensures Group(ts) == [Paragraph(heading), BulletList(items), LineBreak, Paragraph(closing)]
  {
    var n := |items|;
    ItemRunTexts(ts, 1, items, n);
    assert items[..n] == items;
    RunEndExact(ts, 1, n + 1);
    assert GroupFrom(ts, n + 3) == [];
    assert GroupFrom(ts, n + 2) == [Paragraph(closing)];
    assert GroupFrom(ts, n + 1) == [LineBreak, Paragraph(closing)];
    assert GroupFrom(ts, 1) == [BulletList(items), LineBreak, Paragraph(closing)];
  }
}
