/** `Inbound::agent_body`: the quoted text is put in front of a reply as a block of `> ` lines. */
module Quotes {
  import opened Wrappers
  import opened Text
  import opened InboundModel

  function WithoutCarriageReturn(line: string): string {
    if line != "" && line[|line| - 1] == '\r' then line[..|line| - 1] else line
  }

  /** `str::lines`: terminators are removed, and a last line that is empty is not a line. */
  function LinesOf(pieces: seq<string>): seq<string> {
    if |pieces| == 0 then []
    else if |pieces| == 1 then (if pieces[0] == "" then [] else pieces)
    else [WithoutCarriageReturn(pieces[0])] + LinesOf(pieces[1..])
  }

  function Lines(s: string): seq<string> {
    LinesOf(Split(s, '\n'))
  }

  function Marked(lines: seq<string>): (r: seq<string>)
    ensures |r| == |lines| && forall i :: 0 <= i < |r| ==> r[i] == "> " + lines[i]
  {
    if lines == [] then [] else ["> " + lines[0]] + Marked(lines[1..])
  }

  function AgentBody(m: Inbound): string {
    if m.quotedBody.Some? && !Blank(m.quotedBody.value) then
      var block := Join(Marked(Lines(Trim(m.quotedBody.value))), "\n");
      if Blank(m.body) then block else block + "\n\n" + m.body
    else m.body
  }

  // ---------------------------------------------------------------- reading it back

  /** Where the first empty line begins, or the length of the text when it has none. */
  function FirstGap(s: string): (i: nat)
    ensures i <= |s|
  {
    if s == "" then 0
    else if |s| >= 2 && s[0] == '\n' && s[1] == '\n' then 0
    else 1 + FirstGap(s[1..])
  }

  function Unmarked(lines: seq<string>): seq<string> {
    if lines == [] then []
    else [if |lines[0]| >= 2 then lines[0][2..] else ""] + Unmarked(lines[1..])
  }

  /** The inverse: quoted lines up to the first empty line, the reply's own text after it. */
  function ReadBack(s: string): (seq<string>, Option<string>) {
    var i := FirstGap(s);
    (Unmarked(Split(s[..i], '\n')), if i + 2 <= |s| then Some(s[i + 2..]) else None)
  }

  /** No line of the text is empty, because a `>` follows every line break. */
  predicate Gapless(s: string) {
    forall i :: 0 <= i < |s| && s[i] == '\n' ==> i + 1 < |s| && s[i + 1] == '>'
  }

  lemma {:induction false} JoinIsGapless(lines: seq<string>)
    requires forall l :: l in lines ==> '\n' !in l
    ensures Gapless(Join(Marked(lines), "\n"))
    ensures lines != [] ==> Join(Marked(lines), "\n") != "" && Join(Marked(lines), "\n")[0] == '>'
  {
    if lines != [] {
      var head := "> " + lines[0];
      assert lines[0] in lines;
      assert '\n' !in head;
      if |lines| > 1 {
        JoinIsGapless(lines[1..]);
        var rest := Join(Marked(lines[1..]), "\n");
        assert Marked(lines)[1..] == Marked(lines[1..]);
        var all := head + "\n" + rest;
        assert Join(Marked(lines), "\n") == all;
        forall i | 0 <= i < |all| && all[i] == '\n' ensures i + 1 < |all| && all[i + 1] == '>' {
          if i > |head| {
            assert rest[i - |head| - 1] == '\n';
          }
        }
      }
    }
  }

  lemma {:induction false} FirstGapOfBlock(block: string, body: string)
    requires Gapless(block)
    ensures FirstGap(block) == |block|
    ensures block != "" ==> FirstGap(block + "\n\n" + body) == |block|
  {
    if block != "" {
      var tail := block[1..];
      assert Gapless(tail) by {
        forall i | 0 <= i < |tail| && tail[i] == '\n' ensures i + 1 < |tail| && tail[i + 1] == '>' {
          assert block[i + 1] == '\n';
        }
      }
      FirstGapOfBlock(tail, body);
      var s := block + "\n\n" + body;
      assert s[0] == block[0];
      assert s[1..] == tail + "\n\n" + body;
      if tail == "" {
        assert FirstGap(s[1..]) == 0;
      }
    }
  }

  lemma {:induction false} UnmarkedOfMarked(lines: seq<string>)
    ensures Unmarked(Marked(lines)) == lines
  {
    if lines != [] {
      UnmarkedOfMarked(lines[1..]);
      assert Marked(lines)[1..] == Marked(lines[1..]);
      assert ("> " + lines[0])[2..] == lines[0];
    }
  }

  lemma {:induction false} LinesHaveNoBreaks(pieces: seq<string>)
    requires forall p :: p in pieces ==> '\n' !in p
    requires |pieces| > 0 && (|pieces| == 1 ==> pieces[0] != "")
    ensures LinesOf(pieces) != []
    ensures forall l :: l in LinesOf(pieces) ==> '\n' !in l
  {
    if |pieces| > 1 {
      assert pieces[0] in pieces;
      if |pieces| == 2 && pieces[1] == "" {
      } else {
        LinesHaveNoBreaks(pieces[1..]);
      }
    }
  }

  lemma QuotedLines(quoted: string)
    requires !Blank(quoted)
    ensures var lines := Lines(Trim(quoted)); lines != [] && forall l :: l in lines ==> '\n' !in l
  {
    var q := Trim(quoted);
    var pieces := Split(q, '\n');
    if |pieces| == 1 && pieces[0] == "" {
      SplitLengths(q, '\n');
    }
    LinesHaveNoBreaks(pieces);
  }

  lemma {:induction false} SplitLengths(s: string, c: char)
    requires |Split(s, c)| == 1
    ensures Split(s, c)[0] == s
  {
    if s != "" {
      SplitLengths(s[1..], c);
    }
  }

  lemma BlockReadsBack(lines: seq<string>)
    requires lines != [] && forall l :: l in lines ==> '\n' !in l
    ensures var pieces := Split(Join(Marked(lines), "\n"), '\n'); pieces == Marked(lines) && Unmarked(pieces) == lines
  {
    var marked := Marked(lines);
    forall p | p in marked ensures '\n' !in p {
      var i :| 0 <= i < |marked| && marked[i] == p;
      assert lines[i] in lines;
    }
    SplitOfJoin(marked, '\n');
    UnmarkedOfMarked(lines);
  }

  lemma LinesReadBack(lines: seq<string>, body: string)
    requires lines != [] && forall l :: l in lines ==> '\n' !in l
    ensures var block := Join(Marked(lines), "\n");
            ReadBack(block) == (lines, None) && ReadBack(block + "\n\n" + body) == (lines, Some(body))
  {
    var block := Join(Marked(lines), "\n");
    JoinIsGapless(lines);
    FirstGapOfBlock(block, body);
    BlockReadsBack(lines);
    assert block[..|block|] == block;
    var s := block + "\n\n" + body;
    assert s[..|block|] == block && s[|block| + 2..] == body;
  }

  /** A reply is read back exactly: the quoted lines, and its own text unless that is blank. */
  lemma QuoteRoundTrip(m: Inbound)
    requires m.quotedBody.Some? && !Blank(m.quotedBody.value)
    ensures ReadBack(AgentBody(m)) ==
            (Lines(Trim(m.quotedBody.value)), if Blank(m.body) then None else Some(m.body))
  {
    QuotedLines(m.quotedBody.value);
    LinesReadBack(Lines(Trim(m.quotedBody.value)), m.body);
  }

  /** So two replies that reach the agent as the same text quote the same lines and say the same. */
  lemma QuoteIsUnambiguous(m: Inbound, n: Inbound)
    requires m.quotedBody.Some? && !Blank(m.quotedBody.value)
    requires n.quotedBody.Some? && !Blank(n.quotedBody.value)
    requires AgentBody(m) == AgentBody(n)
    ensures Lines(Trim(m.quotedBody.value)) == Lines(Trim(n.quotedBody.value))
    ensures m.body == n.body || (Blank(m.body) && Blank(n.body))
  {
    QuoteRoundTrip(m);
    QuoteRoundTrip(n);
  }

  // ---------------------------------------------------------------- the words themselves

  /** The text with `\r\n` for line breaks turned into `\n`. */
  function UnixBreaks(s: string): string {
    if s == "" then ""
    else if |s| >= 2 && s[0] == '\r' && s[1] == '\n' then "\n" + UnixBreaks(s[2..])
    else [s[0]] + UnixBreaks(s[1..])
  }

  lemma JoinAfter(x: string, y: string, rest: seq<string>)
    ensures Join([x + y] + rest, "\n") == x + Join([y] + rest, "\n")
  {
    if rest == [] {
      assert [x + y] + rest == [x + y] && [y] + rest == [y];
    } else {
      assert ([x + y] + rest)[1..] == rest && ([y] + rest)[1..] == rest;
      assert x + y + "\n" + Join(rest, "\n") == x + (y + "\n" + Join(rest, "\n"));
    }
  }

  lemma BreakStartsLine(s: string)
    requires s != "" && s[0] == '\n' && s[1..] != "" && Lines(s[1..]) != []
    ensures Join(Lines(s), "\n") == "\n" + Join(Lines(s[1..]), "\n")
  {
    var rest := Split(s[1..], '\n');
    assert Split(s, '\n') == [""] + rest && ([""] + rest)[1..] == rest;
    assert Lines(s) == [""] + LinesOf(rest) && ([""] + LinesOf(rest))[1..] == LinesOf(rest);
  }

  /** A character that is neither a break nor the first half of one belongs to the first line. */
  lemma CharacterStartsLine(s: string)
    requires |s| >= 2 && s[0] != '\n' && !(s[0] == '\r' && s[1] == '\n') && Lines(s[1..]) != []
    ensures Lines(s) != [] && Join(Lines(s), "\n") == [s[0]] + Join(Lines(s[1..]), "\n")
  {
    var rest := Split(s[1..], '\n');
    var pieces := Split(s, '\n');
    assert pieces == [[s[0]] + rest[0]] + rest[1..];
    if |rest| == 1 {
      assert pieces == [[s[0]] + rest[0]] && LinesOf(pieces) == pieces && LinesOf(rest) == rest;
    } else {
      assert rest[0] == "" ==> s[1] == '\n';
      FirstLineGrows(s[0], rest);
      JoinAfter([s[0]], WithoutCarriageReturn(rest[0]), LinesOf(rest[1..]));
    }
  }

  lemma FirstLineGrows(c: char, rest: seq<string>)
    requires |rest| > 1 && (rest[0] == "" ==> c != '\r')
    ensures LinesOf([[c] + rest[0]] + rest[1..]) == [[c] + WithoutCarriageReturn(rest[0])] + LinesOf(rest[1..])
  {
    var line := [c] + rest[0];
    assert ([line] + rest[1..])[1..] == rest[1..];
    if rest[0] == "" {
      assert line == [c];
    } else {
      assert line[|line| - 1] == rest[0][|rest[0]| - 1] && line[..|line| - 1] == [c] + rest[0][..|rest[0]| - 1];
    }
  }

  lemma WindowsBreakStartsLine(s: string)
    requires |s| > 2 && s[0] == '\r' && s[1] == '\n' && Lines(s[2..]) != []
    ensures Join(Lines(s), "\n") == "\n" + Join(Lines(s[2..]), "\n")
  {
    var rest := Split(s[2..], '\n');
    assert s[1..][1..] == s[2..] && Split(s[1..], '\n') == [""] + rest;
    assert [s[0]] + "" == "\r";
    assert Split(s, '\n') == ["\r"] + rest && (["\r"] + rest)[1..] == rest;
    assert Lines(s) == [""] + LinesOf(rest) && ([""] + LinesOf(rest))[1..] == LinesOf(rest);
  }

  /** Cutting a text into lines loses nothing of it but the form of its line breaks. */
  lemma {:induction false} LinesKeepTheText(s: string)
    requires s != "" && s[|s| - 1] != '\n'
    ensures Lines(s) != [] && Join(Lines(s), "\n") == UnixBreaks(s)
    decreases |s|
  {
    if |s| == 1 {
      assert s[1..] == "" && [s[0]] + "" == s;
      assert Split(s, '\n') == [s];
    } else if s[0] == '\n' {
      LinesKeepTheText(s[1..]);
      BreakStartsLine(s);
    } else if s[0] == '\r' && s[1] == '\n' {
      LinesKeepTheText(s[2..]);
      WindowsBreakStartsLine(s);
    } else {
      LinesKeepTheText(s[1..]);
      CharacterStartsLine(s);
    }
  }

  /** So what the agent can read back from a reply is the quoted text, trimmed. */
  lemma QuotedTextIsKept(m: Inbound)
    requires m.quotedBody.Some? && !AllSpaces(m.quotedBody.value)
    ensures Join(ReadBack(AgentBody(m)).0, "\n") == UnixBreaks(Trim(m.quotedBody.value))
  {
    BlankIsAllSpaces(m.quotedBody.value);
    QuoteRoundTrip(m);
    TrimmedLinesKeepTheText(Trim(m.quotedBody.value));
  }

  lemma TrimmedLinesKeepTheText(q: string)
    requires q != "" && Trimmed(q)
    ensures Join(Lines(q), "\n") == UnixBreaks(q)
  {
    LinesKeepTheText(q);
  }

  /** And a message that quotes nothing is presented as it is. */
  lemma UnquotedIsUnchanged(m: Inbound)
    requires m.quotedBody.None? || AllSpaces(m.quotedBody.value)
    ensures AgentBody(m) == m.body
  {
    if m.quotedBody.Some? {
      BlankIsAllSpaces(m.quotedBody.value);
    }
  }
}
