/**
 * The plain-text branch of the bot-reply renderer: a reply is split into
 * lines; lines whose trimmed text starts with "* " or "- " are list items,
 * consecutive items are grouped into one list, and every other non-blank
 * line is a paragraph of its trimmed text. The markup itself is not
 * modelled, only the sequence of blocks it is built from.
 */
module TextBlocks {

  /** One rendered block: a bulleted list or a paragraph. */
  datatype Block = List(items: seq<string>) | Para(text: string)

  // ---------------------------------------------------------------------
  // String.prototype.trim and String.prototype.split('\n')
  // ---------------------------------------------------------------------

  /** The characters `trim` removes: ECMAScript WhiteSpace and LineTerminator. */
  predicate IsSpace(c: char) {
    || c == '\t' || c == '\n' || c == '\U{B}' || c == '\U{C}' || c == '\r' || c == ' '
    || c == '\U{A0}' || c == '\U{1680}' || ('\U{2000}' <= c <= '\U{200A}')
    || c == '\U{2028}' || c == '\U{2029}' || c == '\U{202F}' || c == '\U{205F}'
    || c == '\U{3000}' || c == '\U{FEFF}'
  }

  predicate AllSpace(s: string) {
    forall i :: 0 <= i < |s| ==> IsSpace(s[i])
  }

  /** How many white-space characters `s` starts with. */
  function LeadingSpaces(s: string): (n: nat)
    ensures n <= |s|
    ensures forall i :: 0 <= i < n ==> IsSpace(s[i])
    ensures n < |s| ==> !IsSpace(s[n])
  {
    if s != [] && IsSpace(s[0]) then
      var n := 1 + LeadingSpaces(s[1..]);
      assert forall i :: 1 <= i < |s| ==> s[i] == s[1..][i - 1];
      n
    else 0
  }

  /** How many white-space characters `s` ends with. */
  function TrailingSpaces(s: string): (n: nat)
    ensures n <= |s|
    ensures forall i :: |s| - n <= i < |s| ==> IsSpace(s[i])
    ensures n < |s| ==> !IsSpace(s[|s| - n - 1])
  {
    if s != [] && IsSpace(s[|s| - 1]) then
      var n := 1 + TrailingSpaces(s[..|s| - 1]);
      assert forall i :: 0 <= i < |s| - 1 ==> s[i] == s[..|s| - 1][i];
      n
    else 0
  }

  /** `s` with its leading white space removed: a suffix of `s`, cut after white space only. */
  function TrimStart(s: string): (r: string)
    ensures |r| <= |s| && r == s[|s| - |r|..]
    ensures AllSpace(s[..|s| - |r|])
    ensures r == [] || !IsSpace(r[0])
  {
    s[LeadingSpaces(s)..]
  }

  /** `s` with its trailing white space removed: a prefix of `s`, cut before white space only. */
  function TrimEnd(s: string): (r: string)
    ensures |r| <= |s| && r == s[..|r|]
    ensures AllSpace(s[|r|..])
    ensures r == [] || !IsSpace(r[|r| - 1])
  {
    var n := TrailingSpaces(s);
    s[..|s| - n]
  }

  /** String.prototype.trim. */
  function Trim(s: string): (r: string)
    ensures r == [] || (!IsSpace(r[0]) && !IsSpace(r[|r| - 1]))
    ensures r == [] <==> AllSpace(s)
  {
    var t := TrimStart(s);
    var r := TrimEnd(t);
    assert t != [] ==> !AllSpace(s) by {
      if t != [] {
        assert s[|s| - |t|] == t[0];
      }
    }
    assert r == [] ==> AllSpace(s) by {
      if r == [] {
        assert t[|r|..] == t;
        assert s == s[..|s| - |t|] + t;
      }
    }
    r
  }

  /** String.prototype.split('\n'): the pieces between line feeds, always at least one. */
  function Split(s: string): (lines: seq<string>)
    ensures |lines| >= 1
  {
    if s == [] then [""]
    else
      var rest := Split(s[1..]);
      if s[0] == '\n' then [""] + rest else [[s[0]] + rest[0]] + rest[1..]
  }

  /** Array.prototype.join('\n'), the inverse of Split. */
  function Join(lines: seq<string>): string
    requires |lines| >= 1
  {
    if |lines| == 1 then lines[0] else lines[0] + "\n" + Join(lines[1..])
  }

  predicate NoLineFeed(lines: seq<string>) {
    forall i :: 0 <= i < |lines| ==> '\n' !in lines[i]
  }

  /** Splitting then joining gives the text back, and no piece holds a line feed. */
  lemma {:induction false} JoinSplit(s: string)
    ensures Join(Split(s)) == s
    ensures NoLineFeed(Split(s))
  {
    if s != [] {
      JoinSplit(s[1..]);
      var rest := Split(s[1..]);
      if s[0] != '\n' {
        var lines := Split(s);
        assert lines[0] == [s[0]] + rest[0] && lines[1..] == rest[1..];
        if |rest| > 1 {
          assert Join(rest) == rest[0] + "\n" + Join(rest[1..]);
        }
        assert '\n' !in lines[0] by {
          assert forall c :: c in lines[0] ==> c == s[0] || c in rest[0];
        }
        assert forall i :: 1 <= i < |lines| ==> lines[i] == rest[i];
      } else {
        assert Split(s)[1..] == rest;
      }
    }
  }

  /** Joining pieces free of line feeds then splitting gives the pieces back. */
  lemma {:induction false} SplitJoin(lines: seq<string>)
    requires |lines| >= 1 && NoLineFeed(lines)
    ensures Split(Join(lines)) == lines
    decreases |lines|, |lines[0]|
  {
    var head := lines[0];
    if head == [] {
      if |lines| > 1 {
        SplitJoin(lines[1..]);
        assert Join(lines) == "\n" + Join(lines[1..]);
        assert Join(lines)[1..] == Join(lines[1..]);
      }
    } else {
      var lines' := [head[1..]] + lines[1..];
      assert NoLineFeed(lines') by {
        assert '\n' !in head[1..] by {
          assert forall c :: c in head[1..] ==> c in head;
        }
        assert forall i :: 1 <= i < |lines'| ==> lines'[i] == lines[i];
      }
      SplitJoin(lines');
      assert head[0] != '\n' by { assert head[0] in head; }
      if |lines| == 1 {
        assert Join(lines)[1..] == Join(lines');
      } else {
        assert Join(lines')  == head[1..] + "\n" + Join(lines[1..]);
        assert Join(lines)[1..] == Join(lines');
      }
      assert [head[0]] + head[1..] == head;
    }
  }

  // ---------------------------------------------------------------------
  // Line classification
  // ---------------------------------------------------------------------

  /**
   * A line whose trimmed form starts with "* " or "- ". The trimmed form
   * ends with a non-space character, so a marker alone is never a bullet.
   */
  predicate IsBullet(line: string)
    ensures IsBullet(line) ==> |Trim(line)| >= 3
  {
    var t := Trim(line);
    |t| >= 2 && (t[0] == '*' || t[0] == '-') && t[1] == ' '
  }

  /** The text of a list item: the trimmed line without its two-character marker, trimmed again. */
  function ItemText(line: string): (item: string)
    requires IsBullet(line)
    ensures item != [] && !IsSpace(item[0]) && !IsSpace(item[|item| - 1])
  {
    var t := Trim(line);
    assert t[1] == ' ';
    assert |t| >= 3;
    var rest := t[2..];
    assert rest[|rest| - 1] == t[|t| - 1];
    Trim(rest)
  }


  /** What one line of a reply is, once trimmed: a list item, nothing, or a paragraph. */
  datatype Line = Bullet(item: string) | Blank | Plain(text: string)

  function Classify(line: string): (k: Line)
    ensures k.Bullet? <==> IsBullet(line)
    ensures k.Blank? <==> AllSpace(line)
    ensures k.Plain? ==> k.text != [] && k.text == Trim(line)
  {
    if IsBullet(line) then Bullet(ItemText(line))
    else if Trim(line) == [] then Blank
    else Plain(Trim(line))
  }

  function ClassifyAll(lines: seq<string>): (ks: seq<Line>)
    ensures |ks| == |lines|
    ensures forall i :: 0 <= i < |lines| ==> ks[i] == Classify(lines[i])
  {
    seq(|lines|, i requires 0 <= i < |lines| => Classify(lines[i]))
  }

  /** The classified lines with the blank ones dropped, in order. */
  function Shown(ks: seq<Line>): (r: seq<Line>)
  {
    if ks == [] then []
    else Shown(ks[..|ks| - 1]) + (if ks[|ks| - 1].Blank? then [] else [ks[|ks| - 1]])
  }

  /** The lines a block sequence shows, in order. */
  function Unfold(blocks: seq<Block>): seq<Line>
  {
    if blocks == [] then [] else Unfold(blocks[..|blocks| - 1]) + BlockLines(blocks[|blocks| - 1])
  }

  function BlockLines(b: Block): seq<Line>
  {
    match b
    case List(items) => ItemLines(items)
    case Para(text) => [Plain(text)]
  }

  function ItemLines(items: seq<string>): (ks: seq<Line>)
    ensures |ks| == |items|
    ensures forall i :: 0 <= i < |items| ==> ks[i] == Bullet(items[i])
  {
    seq(|items|, i requires 0 <= i < |items| => Bullet(items[i]))
  }

  // ---------------------------------------------------------------------
  // Specification of the grouping
  // ---------------------------------------------------------------------

  /** The renderer's accumulators: the blocks emitted so far and the pending list. */
  datatype Grouping = Grouping(done: seq<Block>, pending: seq<string>)

  /** A pending list is emitted only when it holds at least one item. */
  function Flush(pending: seq<string>): seq<Block>
  {
    if pending == [] then [] else [List(pending)]
  }

  /** What reading one more line does to the accumulators. */
  function Step(g: Grouping, k: Line): (r: Grouping)
    ensures g.done <= r.done
    ensures r.pending == [] <==> !k.Bullet?
  {
    match k
    case Bullet(item) => Grouping(g.done, g.pending + [item])
    case Blank => Grouping(g.done + Flush(g.pending), [])
    case Plain(text) => Grouping(g.done + Flush(g.pending) + [Para(text)], [])
  }

  /** The accumulators after reading the classified lines `ks`. */
  function Scan(ks: seq<Line>): (g: Grouping)
    ensures g.pending != [] <==> ks != [] && ks[|ks| - 1].Bullet?
  {
    if ks == [] then Grouping([], []) else Step(Scan(ks[..|ks| - 1]), ks[|ks| - 1])
  }

  /** The blocks of classified lines: the accumulated blocks and the final flush. */
  function Group(ks: seq<Line>): (blocks: seq<Block>)
    ensures Scan(ks).done <= blocks && |blocks| <= |Scan(ks).done| + 1
    ensures ks != [] && !ks[|ks| - 1].Bullet? ==> blocks == Scan(ks).done
  {
    Scan(ks).done + Flush(Scan(ks).pending)
  }

  /** The blocks rendered for a reply already split into lines. */
  function Blocks(lines: seq<string>): seq<Block>
  {
    Group(ClassifyAll(lines))
  }

  predicate ListsNonEmpty(blocks: seq<Block>) {
    forall i :: 0 <= i < |blocks| ==> blocks[i].List? ==> blocks[i].items != []
  }

  lemma PrefixSnoc<T>(s: seq<T>, i: nat)
    requires i < |s|
    ensures s[..i + 1] == s[..i] + [s[i]]
  {
  }

  lemma Associative<T>(a: seq<T>, b: seq<T>, c: seq<T>)
    ensures a + (b + c) == a + b + c
  {
  }

  lemma AppendDropLast<T>(a: seq<T>, b: seq<T>)
    requires b != []
    ensures (a + b)[..|a + b| - 1] == a + b[..|b| - 1]
    ensures (a + b)[|a + b| - 1] == b[|b| - 1]
  {
  }

  lemma {:induction false} UnfoldAppend(a: seq<Block>, b: seq<Block>)
    ensures Unfold(a + b) == Unfold(a) + Unfold(b)
    decreases |b|
  {
    if b == [] {
      assert a + b == a;
    } else {
      var b', last := b[..|b| - 1], b[|b| - 1];
      AppendDropLast(a, b);
      assert Unfold(a + b) == Unfold(a + b') + BlockLines(last);
      UnfoldAppend(a, b');
      assert Unfold(b) == Unfold(b') + BlockLines(last);
      Associative(Unfold(a), Unfold(b'), BlockLines(last));
    }
  }

  lemma UnfoldSingle(b: Block)
    ensures Unfold([b]) == BlockLines(b)
  {
    assert [b][..0] == [];
  }

  lemma UnfoldFlush(pending: seq<string>)
    ensures Unfold(Flush(pending)) == ItemLines(pending)
  {
    if pending != [] {
      UnfoldSingle(List(pending));
    }
  }

  lemma ListsNonEmptyAppend(a: seq<Block>, b: seq<Block>)
    requires ListsNonEmpty(a) && ListsNonEmpty(b)
    ensures ListsNonEmpty(a + b)
  {
    forall i | 0 <= i < |a + b| && (a + b)[i].List?
      ensures (a + b)[i].items != []
    {
      if i < |a| {
        assert (a + b)[i] == a[i];
      } else {
        assert (a + b)[i] == b[i - |a|];
      }
    }
  }

  lemma ScanSnoc(ks: seq<Line>, k: Line)
    ensures Scan(ks + [k]) == Step(Scan(ks), k)
    ensures Shown(ks + [k]) == Shown(ks) + (if k.Blank? then [] else [k])
  {
    AppendDropLast(ks, [k]);
  }

  /** The accumulators' invariant: together they show every line read so far. */
  predicate Shows(g: Grouping, ks: seq<Line>) {
    && Unfold(g.done) + ItemLines(g.pending) == Shown(ks)
    && ListsNonEmpty(g.done)
  }

  /** Closing the pending list and adding `extra` keeps every line shown. */
  lemma CloseShows(g: Grouping, ks: seq<Line>, extra: seq<Block>)
    requires Shows(g, ks) && ListsNonEmpty(extra)
    ensures Unfold(g.done + Flush(g.pending) + extra) == Shown(ks) + Unfold(extra)
    ensures ListsNonEmpty(g.done + Flush(g.pending) + extra)
  {
    var flushed := Flush(g.pending);
    UnfoldAppend(g.done, flushed);
    UnfoldAppend(g.done + flushed, extra);
    UnfoldFlush(g.pending);
    ListsNonEmptyAppend(g.done, flushed);
    ListsNonEmptyAppend(g.done + flushed, extra);
  }

  lemma StepShowsBullet(g: Grouping, ks: seq<Line>, item: string)
    requires Shows(g, ks)
    ensures Shows(Grouping(g.done, g.pending + [item]), ks + [Bullet(item)])
  {
    ScanSnoc(ks, Bullet(item));
    var shown, pending := Unfold(g.done), ItemLines(g.pending);
    ItemLinesSnoc(g.pending, item);
    Associative(shown, pending, [Bullet(item)]);
  }

  lemma ItemLinesSnoc(items: seq<string>, item: string)
    ensures ItemLines(items + [item]) == ItemLines(items) + [Bullet(item)]
  {
  }

  lemma StepShowsClose(g: Grouping, ks: seq<Line>, k: Line, extra: seq<Block>)
    requires Shows(g, ks) && !k.Bullet?
    requires extra == (if k.Blank? then [] else [Para(k.text)])
    ensures Shows(Grouping(g.done + Flush(g.pending) + extra, []), ks + [k])
  {
    ScanSnoc(ks, k);
    CloseShows(g, ks, extra);
    if k.Plain? {
      UnfoldSingle(Para(k.text));
    }
    assert Unfold([]) == [];
    assert ItemLines([]) == [];
  }

  lemma StepShows(g: Grouping, ks: seq<Line>, k: Line)
    requires Shows(g, ks)
    ensures Shows(Step(g, k), ks + [k])
  {
    match k
    case Bullet(item) =>
      StepShowsBullet(g, ks, item);
    case Blank =>
      assert g.done + Flush(g.pending) + [] == g.done + Flush(g.pending);
      StepShowsClose(g, ks, k, []);
    case Plain(text) =>
      StepShowsClose(g, ks, k, [Para(text)]);
  }

  lemma {:induction false} ScanShows(ks: seq<Line>)
    ensures Shows(Scan(ks), ks)
  {
    if ks != [] {
      var prefix := ks[..|ks| - 1];
      var k := ks[|ks| - 1];
      assert prefix + [k] == ks;
      ScanSnoc(prefix, k);
      ScanShows(prefix);
      StepShows(Scan(prefix), prefix, k);
    }
  }

  /**
   * Every bullet line yields exactly one list item, every non-blank other
   * line exactly one paragraph of its trimmed text, blank lines yield
   * nothing, and the blocks show them in line order: no line is lost or
   * duplicated, and no list is empty.
   */
  lemma GroupShowsEveryLine(ks: seq<Line>)
    ensures Unfold(Group(ks)) == Shown(ks)
    ensures ListsNonEmpty(Group(ks))
  {
    ScanShows(ks);
    var g := Scan(ks);
    CloseShows(g, ks, []);
    assert g.done + Flush(g.pending) + [] == Group(ks);
    assert Unfold([]) == [];
  }

  /** A bullet line right after another bullet line joins the same, last list. */
  lemma BulletExtendsList(ks: seq<Line>, item: string)
    requires ks != [] && ks[|ks| - 1].Bullet?
    ensures var b := Group(ks);
      && b != [] && b[|b| - 1].List?
      && Group(ks + [Bullet(item)]) == b[..|b| - 1] + [List(b[|b| - 1].items + [item])]
  {
    ScanSnoc(ks, Bullet(item));
    var prefix := ks[..|ks| - 1];
    assert prefix + [ks[|ks| - 1]] == ks;
    ScanSnoc(prefix, ks[|ks| - 1]);
    var g := Scan(ks);
    assert g.pending != [];
    var b := Group(ks);
    assert b[..|b| - 1] == g.done;
  }

  /** A bullet line first or after a non-bullet line opens a new list. */
  lemma BulletOpensList(ks: seq<Line>, item: string)
    requires ks == [] || !ks[|ks| - 1].Bullet?
    ensures Group(ks + [Bullet(item)]) == Group(ks) + [List([item])]
  {
    var g := Scan(ks);
    assert g.pending == [] by {
      if ks != [] {
        var prefix, last := ks[..|ks| - 1], ks[|ks| - 1];
        assert g == Step(Scan(prefix), last);
      }
    }
    ScanSnoc(ks, Bullet(item));
    assert Scan(ks + [Bullet(item)]) == Grouping(g.done, [item]);
  }

  /** A blank line closes the pending list and adds nothing. */
  lemma BlankLineClosesList(ks: seq<Line>)
    ensures Group(ks + [Blank]) == Group(ks)
    ensures Scan(ks + [Blank]).pending == []
  {
    ScanSnoc(ks, Blank);
  }

  /** A non-blank non-bullet line closes the pending list and adds its paragraph. */
  lemma PlainLineClosesList(ks: seq<Line>, text: string)
    ensures Group(ks + [Plain(text)]) == Group(ks) + [Para(text)]
    ensures Scan(ks + [Plain(text)]).pending == []
  {
    ScanSnoc(ks, Plain(text));
  }

  /** The rendered blocks show every line of the reply, in order; no list is empty. */
  lemma BlocksShowEveryLine(lines: seq<string>)
    ensures Unfold(Blocks(lines)) == Shown(ClassifyAll(lines))
    ensures ListsNonEmpty(Blocks(lines))
  {
    GroupShowsEveryLine(ClassifyAll(lines));
  }

  /** A string that starts and ends with non-space characters is its own trim. */
  lemma TrimKeepsTrimmed(s: string)
    requires s != [] && !IsSpace(s[0]) && !IsSpace(s[|s| - 1])
    ensures Trim(s) == s
  {
    assert TrimStart(s) == s;
  }

  /**
   * A line made of white space, a marker "*" or "-", a space and any further
   * white space, then an item that itself starts and ends with non-space
   * characters, followed by white space, is a list item holding exactly
   * that item.
   */
  lemma ClassifyMarkedLine(lead: string, marker: char, gap: string, item: string, trail: string)
    requires AllSpace(lead) && AllSpace(gap) && AllSpace(trail)
    requires marker == '*' || marker == '-'
    requires item != [] && !IsSpace(item[0]) && !IsSpace(item[|item| - 1])
    ensures Classify(lead + ([marker, ' '] + gap + item) + trail) == Bullet(item)
  {
    var rest := gap + item;
    var core := [marker, ' '] + rest;
    assert [marker, ' '] + gap + item == core;
    assert core[|core| - 1] == item[|item| - 1];
    TrimOfPadded(lead, core, trail);
    assert Trim(rest) == item by {
      assert rest == gap + item + [];
      TrimOfPadded(gap, item, []);
    }
    assert core[2..] == rest;
    ClassifyTrimmedBullet(lead + core + trail, core);
  }

  /** A line whose trimmed form starts with a marker and a space classifies by what follows them. */
  lemma ClassifyTrimmedBullet(line: string, core: string)
    requires Trim(line) == core
    requires |core| >= 2 && (core[0] == '*' || core[0] == '-') && core[1] == ' '
    ensures Classify(line) == Bullet(Trim(core[2..]))
  {
  }

  lemma {:induction false} TrimStartSkipsSpace(lead: string, rest: string)
    requires AllSpace(lead)
    requires rest == [] || !IsSpace(rest[0])
    ensures LeadingSpaces(lead + rest) == |lead|
    ensures TrimStart(lead + rest) == rest
    decreases |lead|
  {
    if lead == [] {
      assert lead + rest == rest;
    } else {
      assert (lead + rest)[0] == lead[0];
      assert (lead + rest)[1..] == lead[1..] + rest;
      TrimStartSkipsSpace(lead[1..], rest);
    }
  }

  lemma {:induction false} TrimEndSkipsSpace(rest: string, trail: string)
    requires AllSpace(trail)
    requires rest == [] || !IsSpace(rest[|rest| - 1])
    ensures TrailingSpaces(rest + trail) == |trail|
    ensures TrimEnd(rest + trail) == rest
    decreases |trail|
  {
    if trail == [] {
      assert rest + trail == rest;
    } else {
      var s := rest + trail;
      assert s[|s| - 1] == trail[|trail| - 1];
      assert s[..|s| - 1] == rest + trail[..|trail| - 1];
      TrimEndSkipsSpace(rest, trail[..|trail| - 1]);
    }
  }

  /** Trimming removes exactly the white-space padding around a trimmed core. */
  lemma TrimOfPadded(lead: string, core: string, trail: string)
    requires AllSpace(lead) && AllSpace(trail)
    requires core != [] && !IsSpace(core[0]) && !IsSpace(core[|core| - 1])
    ensures Trim(lead + core + trail) == core
  {
    assert lead + core + trail == lead + (core + trail);
    TrimStartSkipsSpace(lead, core + trail);
    TrimEndSkipsSpace(core, trail);
  }

  /** A marker followed by a space and nothing else is a paragraph holding the bare marker. */
  lemma MarkerAloneIsPlain(marker: char, trail: string)
    requires marker == '*' || marker == '-'
    requires AllSpace(trail)
    ensures Classify([marker] + trail) == Plain([marker])
  {
    TrimOfPadded([], [marker], trail);
    assert [] + [marker] + trail == [marker] + trail;
  }

  /** A line of white space only is blank. */
  lemma ClassifyBlank(line: string)
    requires AllSpace(line)
    ensures Classify(line) == Blank
  {
  }

  /** A blank line between two bullet lines splits them into two adjacent lists. */
  lemma BlankLineSeparatesLists(x: string, y: string)
    ensures Group([Bullet(x), Blank, Bullet(y)]) == [List([x]), List([y])]
  {
    assert Group([Bullet(x)]) == [List([x])] by {
      BulletOpensList([], x);
      assert [] + [Bullet(x)] == [Bullet(x)];
    }
    assert Group([Bullet(x), Blank]) == [List([x])] by {
      BlankLineClosesList([Bullet(x)]);
      assert [Bullet(x)] + [Blank] == [Bullet(x), Blank];
    }
    BulletOpensList([Bullet(x), Blank], y);
    assert [Bullet(x), Blank] + [Bullet(y)] == [Bullet(x), Blank, Bullet(y)];
  }

  // ---------------------------------------------------------------------
  // The renderer's loop
  // ---------------------------------------------------------------------

  /**
   * The body of the renderer's per-line callback: a bullet line adds its
   * item to the pending list; any other line first emits a pending list,
   * then a paragraph if the line is not blank.
   */
  method ReadLine(rendered: seq<Block>, currentList: seq<string>, line: string)
    returns (rendered': seq<Block>, currentList': seq<string>)
    ensures Grouping(rendered', currentList') == Step(Grouping(rendered, currentList), Classify(line))
  {
    rendered', currentList' := rendered, currentList;
    if IsBullet(line) {
      currentList' := currentList' + [ItemText(line)];
    } else {
      if |currentList'| > 0 {
        rendered' := rendered' + [List(currentList')];
        currentList' := [];
      }
      assert rendered' == rendered + Flush(currentList);
      if Trim(line) != "" {
        rendered' := rendered' + [Para(Trim(line))];
      }
    }
  }

  /** The forEach over the lines: after it, the state is the scan of every line. */
  method ReadLines(lines: seq<string>) returns (rendered: seq<Block>, currentList: seq<string>)
    ensures Grouping(rendered, currentList) == Scan(ClassifyAll(lines))
  {
    ghost var ks := ClassifyAll(lines);
    currentList := [];
    rendered := [];
    for i := 0 to |lines|
      invariant Grouping(rendered, currentList) == Scan(ks[..i])
    {
      PrefixSnoc(ks, i);
      ScanSnoc(ks[..i], ks[i]);
      rendered, currentList := ReadLine(rendered, currentList, lines[i]);
    }
    assert ks[..|lines|] == ks;
  }

  /**
   * The plain-text branch: split the reply on line feeds, read the lines
   * in order, and emit the list still pending after the last line.
   */
  method RenderText(response: string) returns (rendered: seq<Block>)
    ensures rendered == Blocks(Split(response))
    ensures Unfold(rendered) == Shown(ClassifyAll(Split(response)))
    ensures ListsNonEmpty(rendered)
  {
    var lines := Split(response);
    var currentList;
    rendered, currentList := ReadLines(lines);
    if |currentList| > 0 {
      rendered := rendered + [List(currentList)];
    }
    BlocksShowEveryLine(lines);
  }
}
