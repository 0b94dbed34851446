/** normalizeSummary read back by parseSections: what survives, and exactly when. */
module SummaryRoundTrip {
  import opened Messages
  import opened Text
  import opened Sections

  // ---------- sections of concatenated lines ----------

  ghost predicate StartsSection(lines: seq<Line>)
  {
    lines == [] || lines[0].header != ""
  }

  lemma {:induction false} LastHeaderOfPrefix(a: seq<Line>, b: seq<Line>, n: nat, name: string)
    requires n <= |a|
    ensures LastHeader(a + b, n, name) == LastHeader(a, n, name)
  {
    if n == 0 {
    } else {
      LastHeaderOfPrefix(a, b, n - 1, name);
    }
  }

  lemma {:induction false} LastHeaderConcat(a: seq<Line>, b: seq<Line>, n: nat, name: string)
    requires n <= |b|
    ensures LastHeader(a + b, |a| + n, name)
         == if LastHeader(b, n, name) >= 0 then |a| + LastHeader(b, n, name) else LastHeader(a, |a|, name)
  {
    if n == 0 {
      LastHeaderOfPrefix(a, b, |a|, name);
    } else {
      LastHeaderConcat(a, b, n - 1, name);
      assert (a + b)[|a| + n - 1] == b[n - 1];
    }
  }

  lemma SectionAtShift(a: seq<Line>, b: seq<Line>, h: nat)
    requires h < |b|
    ensures SectionAt(a + b, |a| + h) == SectionAt(b, h)
  {
    hide BodyOf, NextHeader;
    NextHeaderShift(a, b, h + 1);
    var j := NextHeader(b, h + 1);
    assert (a + b)[|a| + h + 1..|a| + j] == b[h + 1..j];
  }

  lemma SectionAtStays(a: seq<Line>, b: seq<Line>, h: nat)
    requires h < |a| && StartsSection(b)
    ensures SectionAt(a + b, h) == SectionAt(a, h)
  {
    hide BodyOf, NextHeader;
    NextHeaderStays(a, b, h + 1);
    var j := NextHeader(a, h + 1);
    assert (a + b)[h + 1..j] == a[h + 1..j];
  }

  // The last block that has a section decides it.
  lemma SectionConcat(a: seq<Line>, b: seq<Line>, name: string)
    requires StartsSection(b)
    ensures Section(a + b, name) == if Section(b, name).Some? then Section(b, name) else Section(a, name)
  {
    hide BodyOf, NextHeader, LastHeader;
    LastHeaderConcat(a, b, |b|, name);
    if LastHeader(b, |b|, name) >= 0 {
      SectionAtShift(a, b, LastHeader(b, |b|, name));
    } else if LastHeader(a, |a|, name) >= 0 {
      SectionAtStays(a, b, LastHeader(a, |a|, name));
    }
  }

  lemma NextHeaderShift(a: seq<Line>, b: seq<Line>, i: nat)
    requires i <= |b|
    ensures NextHeader(a + b, |a| + i) == |a| + NextHeader(b, i)
  {
    var j, k := NextHeader(a + b, |a| + i), NextHeader(b, i);
    assert k < |b| ==> (a + b)[|a| + k] == b[k];
    assert j < |a + b| ==> (a + b)[j] == b[j - |a|];
  }

  lemma NextHeaderStays(a: seq<Line>, b: seq<Line>, i: nat)
    requires i <= |a| && StartsSection(b)
    ensures NextHeader(a + b, i) == NextHeader(a, i)
  {
    var j, k := NextHeader(a + b, i), NextHeader(a, i);
    assert k < |a| ==> (a + b)[k] == a[k];
    assert k == |a| && b != [] ==> (a + b)[k] == b[0];
    assert j < |a| ==> (a + b)[j] == a[j];
  }

  // ---------- header-free texts ----------

  ghost predicate HeaderFree(text: string)
  {
    forall i :: 0 <= i < |Split(text, '\n')| ==> HeaderOf(Split(text, '\n')[i]) == ""
  }

  lemma HeaderOfTrimmed(line: string, c: char)
    requires IsSpace(c)
    ensures HeaderOf([c] + line) == HeaderOf(line)
    ensures HeaderOf(line + [c]) == HeaderOf(line)
  {
    TrimPrepend(c, line);
    TrimAppend(line, c);
  }

  lemma DropFirstSpace(s: string)
    requires s != "" && IsSpace(s[0]) && HeaderFree(s)
    ensures HeaderFree(s[1..])
  {
    hide HeaderOf;
    var rest := Split(s[1..], '\n');
    if s[0] == '\n' {
      assert forall i :: 0 <= i < |rest| ==> Split(s, '\n')[i + 1] == rest[i];
    } else {
      HeaderOfTrimmed(rest[0], s[0]);
      assert Split(s, '\n')[0] == [s[0]] + rest[0];
      assert forall i :: 1 <= i < |rest| ==> Split(s, '\n')[i] == rest[i];
    }
  }

  lemma {:induction false} SplitSnoc(s: string, c: char)
    requires c != '\n'
    ensures var parts := Split(s, '\n');
            Split(s + [c], '\n') == parts[..|parts| - 1] + [parts[|parts| - 1] + [c]]
  {
    if s == "" {
      assert "" + [c] == [c] && [c][1..] == "";
      assert [c] + "" == [c];
    } else {
      assert (s + [c])[1..] == s[1..] + [c];
      SplitSnoc(s[1..], c);
      var rest := Split(s[1..], '\n');
      if s[0] != '\n' && |rest| == 1 {
        assert [s[0]] + (rest[0] + [c]) == [s[0]] + rest[0] + [c];
      }
    }
  }

  lemma DropLastSpace(s: string)
    requires s != "" && IsSpace(s[|s| - 1]) && HeaderFree(s)
    ensures HeaderFree(s[..|s| - 1])
  {
    hide HeaderOf;
    var init, c := s[..|s| - 1], s[|s| - 1];
    var parts, all := Split(init, '\n'), Split(s, '\n');
    assert s == init + [c];
    if c == '\n' {
      assert s == init + ['\n'] + "";
      SplitConcat(init, "", '\n');
      assert forall i :: 0 <= i < |parts| ==> all[i] == parts[i];
    } else {
      SplitSnoc(init, c);
      HeaderOfTrimmed(parts[|parts| - 1], c);
      assert forall i :: 0 <= i < |parts| - 1 ==> all[i] == parts[i];
      assert all[|parts| - 1] == parts[|parts| - 1] + [c];
    }
  }

  lemma {:induction false} TrimLeftHeaderFree(s: string)
    requires HeaderFree(s)
    ensures HeaderFree(TrimLeft(s))
  {
    hide HeaderOf, Split, HeaderFree;
    if s != "" && IsSpace(s[0]) {
      DropFirstSpace(s);
      TrimLeftHeaderFree(s[1..]);
    }
  }

  lemma {:induction false} TrimRightHeaderFree(s: string)
    requires HeaderFree(s)
    ensures HeaderFree(TrimRight(s))
  {
    hide HeaderOf, Split, HeaderFree;
    if s != "" && IsSpace(s[|s| - 1]) {
      DropLastSpace(s);
      TrimRightHeaderFree(s[..|s| - 1]);
    }
  }

  lemma TrimHeaderFree(s: string)
    requires HeaderFree(s)
    ensures HeaderFree(TrimSpace(s))
  {
    TrimLeftHeaderFree(s);
    TrimRightHeaderFree(TrimLeft(s));
  }

  lemma EmptyHeaderFree()
    ensures HeaderFree("")
  {
    assert Split("", '\n') == [""];
    assert TrimSpace("") == "";
  }

  // No section that parseSections returns contains a header line.
  lemma SectionsHeaderFree(raw: string, name: string)
    ensures Section(Lines(raw), name).Some? ==> HeaderFree(Section(Lines(raw), name).value)
  {
    hide HeaderOf, TrimSpace, Split, ReplaceCRLF, Join;
    var lines := Lines(raw);
    var texts := Split(ReplaceCRLF(raw), '\n');
    var h := LastHeader(lines, |lines|, name);
    if h >= 0 {
      var j := NextHeader(lines, h + 1);
      var body := Texts(lines[h + 1..j]);
      assert body == texts[h + 1..j];
      var joined := Join(body, '\n');
      if body == [] {
        EmptyJoin();
        EmptyHeaderFree();
      } else {
        SplitParts(ReplaceCRLF(raw), '\n');
        SplitJoin(body, '\n');
        assert forall i :: 0 <= i < |body| ==> body[i] == lines[h + 1 + i].text;
      }
      TrimHeaderFree(joined);
    }
  }

  lemma EmptyJoin()
    ensures Join([], '\n') == ""
  {}

  // ---------- the printed text, line by line ----------

  function BlockTexts(bodies: seq<string>, i: nat): seq<string>
    requires |bodies| == 4 && i < 4
  {
    ["## " + NAMES[i]] + Split(bodies[i], '\n') + if i < 3 then [""] else []
  }

  function PrintedTexts(bodies: seq<string>, n: nat): seq<string>
    requires |bodies| == 4 && n <= 4
  {
    if n == 0 then [] else PrintedTexts(bodies, n - 1) + BlockTexts(bodies, n - 1)
  }

  lemma SplitAfterNewline(s: string, t: string)
    requires s == "" || s[|s| - 1] == '\n'
    ensures Split(s + t, '\n') == Split(s, '\n')[..|Split(s, '\n')| - 1] + Split(t, '\n')
  {
    if s == "" {
      assert s + t == t && Split(s, '\n') == [""];
    } else {
      var init := s[..|s| - 1];
      assert s + t == init + ['\n'] + t && s == init + ['\n'] + "";
      SplitConcat(init, t, '\n');
      SplitConcat(init, "", '\n');
    }
  }

  lemma SplitBlock(name: string, body: string, more: bool)
    requires '\n' !in name
    ensures Split(("## " + name) + "\n" + body + if more then "\n\n" else "", '\n')
         == ["## " + name] + Split(body, '\n') + if more then ["", ""] else []
  {
    hide Split;
    SplitPlain("## " + name, '\n');
    var tail := body + if more then "\n\n" else "";
    assert ("## " + name) + "\n" + body + (if more then "\n\n" else "") == ("## " + name) + ['\n'] + tail;
    SplitConcat("## " + name, tail, '\n');
    if more {
      SplitConcat(body, "\n", '\n');
      SplitConcat("", "", '\n');
      SplitPlain("", '\n');
      assert "" + ['\n'] + "" == "\n";
      assert tail == body + ['\n'] + "\n";
    } else {
      assert tail == body;
    }
  }

  function BlockString(bodies: seq<string>, i: nat): string
    requires |bodies| == 4 && i < 4
  {
    ("## " + NAMES[i]) + "\n" + bodies[i] + if i < 3 then "\n\n" else ""
  }

  lemma PrintedStep(bodies: seq<string>, n: nat)
    requires |bodies| == 4 && 0 < n <= 4
    ensures Printed(bodies, n) == Printed(bodies, n - 1) + BlockString(bodies, n - 1)
  {
    var tail := if n < 4 then "\n\n" else "";
    assert Printed(bodies, n) == Printed(bodies, n - 1) + ("## " + NAMES[n - 1] + "\n" + bodies[n - 1] + tail);
  }

  lemma PlainNames(i: nat)
    requires i < 4
    ensures '\n' !in NAMES[i]
  {}

  lemma {:induction false} PrintedLines(bodies: seq<string>, n: nat)
    requires |bodies| == 4 && n <= 4
    ensures Split(Printed(bodies, n), '\n') == PrintedTexts(bodies, n) + if n < 4 then [""] else []
    ensures n < 4 ==> Printed(bodies, n) == "" || Printed(bodies, n)[|Printed(bodies, n)| - 1] == '\n'
  {
    hide Split, Printed;
    if n == 0 {
      NothingPrinted(bodies);
    } else {
      PrintedStep(bodies, n);
      PrintedLines(bodies, n - 1);
      SplitAfterNewline(Printed(bodies, n - 1), BlockString(bodies, n - 1));
      PlainNames(n - 1);
      SplitBlock(NAMES[n - 1], bodies[n - 1], n < 4);
    }
  }

  lemma NothingPrinted(bodies: seq<string>)
    requires |bodies| == 4
    ensures Printed(bodies, 0) == "" && Split("", '\n') == [""]
  {}

  lemma HeaderOfName(name: string, lower: string)
    requires name != "" && Trimmed(name) && ToLower(name) == lower
    ensures HeaderOf("## " + name) == CanonicalSection(name)
  {
    hide TrimSpace, ToLower;
    var line := "## " + name;
    TrimOfTrimmed(line);
    TrimOfTrimmed(name);
    assert line[3..] == name;
  }

  lemma CanonicalName(name: string, lower: string)
    requires name != "" && Trimmed(name) && |name| == |lower|
    requires forall k :: 0 <= k < |name| ==> LowerChar(name[k]) == lower[k]
    ensures ToLower(name) == lower
  {}

  lemma HeaderLine(i: nat)
    requires i < 4
    ensures HeaderOf("## " + NAMES[i]) == NAMES[i]
  {
    hide HeaderOf, TrimSpace, ToLower;
    if i == 0 {
      CanonicalName("Goals", "goals");
      HeaderOfName("Goals", "goals");
      TrimOfTrimmed("Goals");
    } else if i == 1 {
      CanonicalName("Files", "files");
      HeaderOfName("Files", "files");
      TrimOfTrimmed("Files");
    } else if i == 2 {
      CanonicalName("State", "state");
      HeaderOfName("State", "state");
      TrimOfTrimmed("State");
    } else {
      CanonicalName("Decisions", "decisions");
      HeaderOfName("Decisions", "decisions");
      TrimOfTrimmed("Decisions");
    }
  }

  function Block(bodies: seq<string>, i: nat): seq<Line>
    requires |bodies| == 4 && i < 4
  {
    Tagged(BlockTexts(bodies, i))
  }

  // What a block says about a section: its own body if that is header-free; otherwise only the
  // header lines inside the body matter to the other sections.
  lemma BlockSection(bodies: seq<string>, i: nat, name: string)
    requires |bodies| == 4 && i < 4 && HeaderFree(bodies[i]) && Trimmed(bodies[i]) && name != ""
    ensures Section(Block(bodies, i), name) == if name == NAMES[i] then Some(bodies[i]) else None
  {
    hide HeaderOf, Split, TrimSpace, Join, IsSpace;
    var lines := Block(bodies, i);
    var body := Split(bodies[i], '\n');
    HeaderLine(i);
    BlankLine();
    assert lines[0].header == NAMES[i];
    forall k | 1 <= k < |lines| ensures lines[k].header == "" {
      if k <= |body| { assert BlockTexts(bodies, i)[k] == body[k - 1]; }
    }
    var h := LastHeader(lines, |lines|, name);
    assert h == if name == NAMES[i] then 0 else -1;
    if h == 0 {
      assert NextHeader(lines, 1) == |lines|;
      var texts := Texts(lines[1..|lines|]);
      assert texts == body + if i < 3 then [""] else [];
      BodyReads(bodies[i], i < 3);
    }
  }

  lemma BlankLine()
    ensures HeaderOf("") == ""
  {
    assert TrimSpace("") == "";
  }

  lemma BodyReads(body: string, more: bool)
    requires Trimmed(body)
    ensures TrimSpace(Join(Split(body, '\n') + if more then [""] else [], '\n')) == body
  {
    hide Split, Join, TrimSpace, IsSpace;
    JoinSplit(body, '\n');
    TrimOfTrimmed(body);
    if more {
      JoinAppendEmpty(Split(body, '\n'), '\n');
      NewlineIsSpace();
      TrimAppend(body, '\n');
    } else {
      assert Split(body, '\n') + [] == Split(body, '\n');
    }
  }

  lemma NewlineIsSpace()
    ensures IsSpace('\n')
  {}

  // ---------- the round trip ----------

  function PrintedBlocks(bodies: seq<string>, n: nat): seq<Line>
    requires |bodies| == 4 && n <= 4
  {
    if n == 0 then [] else PrintedBlocks(bodies, n - 1) + Block(bodies, n - 1)
  }

  lemma {:induction false} BlocksAreLines(bodies: seq<string>, n: nat)
    requires |bodies| == 4 && n <= 4
    ensures Tagged(PrintedTexts(bodies, n)) == PrintedBlocks(bodies, n)
  {
    hide HeaderOf, Split;
    if n == 0 {
    } else {
      BlocksAreLines(bodies, n - 1);
    }
  }

  lemma BlockStarts(bodies: seq<string>, i: nat)
    requires |bodies| == 4 && i < 4
    ensures StartsSection(Block(bodies, i)) && Block(bodies, i) != []
  {
    hide HeaderOf, Split;
    HeaderLine(i);
  }

  // Whether the text survives reading: the only line break the reader rewrites is CR LF.
  predicate Readable(text: string) { ReplaceCRLF(text) == text }

  lemma PrintedReads(bodies: seq<string>)
    requires |bodies| == 4 && Readable(Printed(bodies, 4))
    ensures Lines(Printed(bodies, 4)) == PrintedBlocks(bodies, 4)
  {
    hide HeaderOf, Split, ReplaceCRLF, Printed;
    PrintedLines(bodies, 4);
    BlocksAreLines(bodies, 4);
    assert PrintedTexts(bodies, 4) + [] == PrintedTexts(bodies, 4);
  }

  // Reading the first n blocks: the last one that has the section decides.
  lemma ReadStep(bodies: seq<string>, n: nat, name: string)
    requires |bodies| == 4 && 0 < n <= 4
    ensures Section(PrintedBlocks(bodies, n), name)
         == if Section(Block(bodies, n - 1), name).Some? then Section(Block(bodies, n - 1), name)
            else Section(PrintedBlocks(bodies, n - 1), name)
  {
    hide Section, StartsSection, Block;
    BlockStarts(bodies, n - 1);
    SectionConcat(PrintedBlocks(bodies, n - 1), Block(bodies, n - 1), name);
  }

  lemma {:induction false} ReadBack(bodies: seq<string>, n: nat, i: nat)
    requires |bodies| == 4 && i < n <= 4
    requires forall k :: i <= k < n ==> HeaderFree(bodies[k]) && Trimmed(bodies[k])
    ensures Section(PrintedBlocks(bodies, n), NAMES[i]) == Some(bodies[i])
  {
    hide Section, HeaderFree, Trimmed, Block;
    ReadStep(bodies, n, NAMES[i]);
    BlockSection(bodies, n - 1, NAMES[i]);
    if i < n - 1 { ReadBack(bodies, n - 1, i); }
  }

  // The bodies that come from the model's answer never contain a header line.
  lemma AnswerBodyHeaderFree(raw: string, name: string)
    ensures HeaderFree(BodyText(Section(Lines(raw), name)))
  {
    hide Section, Lines, HeaderFree, TrimSpace;
    SectionsHeaderFree(raw, name);
    var section := Section(Lines(raw), name);
    if section.Some? { TrimHeaderFree(section.value); } else { EmptyHeaderFree(); TrimHeaderFree(""); }
    NothingHeaderFree();
  }

  lemma AnswerBodies(raw: string, history: seq<Message>)
    ensures var bodies := Bodies(raw, history);
            HeaderFree(bodies[0]) && HeaderFree(bodies[2]) && HeaderFree(bodies[3])
  {
    hide Section, Lines, HeaderFree, TrimSpace, BodyText, FilesSection;
    AnswerBodyHeaderFree(raw, "Goals");
    AnswerBodyHeaderFree(raw, "State");
    AnswerBodyHeaderFree(raw, "Decisions");
  }

  lemma NothingHeaderFree()
    ensures HeaderFree(NOTHING)
  {
    SplitPlain(NOTHING, '\n');
    TrimOfTrimmed(NOTHING);
  }

  // Re-parsing the normalised summary returns its four bodies exactly when the file list holds
  // no section header line.
  lemma ReparseReturnsBodies(raw: string, history: seq<Message>)
    requires Readable(NormalizeSummary(raw, history))
    ensures var bodies := Bodies(raw, history);
            var again := Lines(NormalizeSummary(raw, history));
            (forall i :: 0 <= i < 4 ==> Section(again, NAMES[i]) == Some(bodies[i])) <==> HeaderFree(bodies[1])
  {
    hide Section, HeaderFree, Trimmed, Block, Lines, Printed, Bodies, Readable, PrintedBlocks;
    var bodies := Bodies(raw, history);
    PrintedReads(bodies);
    BodiesTrimmed(raw, history);
    AnswerBodies(raw, history);
    if HeaderFree(bodies[1]) {
      forall i | 0 <= i < 4 ensures Section(PrintedBlocks(bodies, 4), NAMES[i]) == Some(bodies[i]) {
        ReadBack(bodies, 4, i);
      }
    } else {
      SectionsHeaderFree(NormalizeSummary(raw, history), NAMES[1]);
    }
  }

  // ---------- idempotence ----------

  // Goals that a reader would find inside the file list, if a reference holds such a header line.
  function GoalsInFiles(bodies: seq<string>): Option<string>
    requires |bodies| == 4
  {
    Section(Block(bodies, 1), "Goals")
  }

  // Reading the printed text back, whatever the file list holds.
  lemma ReadAnyFiles(bodies: seq<string>)
    requires |bodies| == 4
    requires forall i :: 0 <= i < 4 ==> Trimmed(bodies[i])
    requires HeaderFree(bodies[0]) && HeaderFree(bodies[2]) && HeaderFree(bodies[3])
    ensures var lines := PrintedBlocks(bodies, 4);
            && Section(lines, "Goals") == (if GoalsInFiles(bodies).Some? then GoalsInFiles(bodies) else Some(bodies[0]))
            && Section(lines, "State") == Some(bodies[2])
            && Section(lines, "Decisions") == Some(bodies[3])
  {
    hide Section, HeaderFree, Trimmed, Block, PrintedBlocks;
    ReadBack(bodies, 4, 3);
    ReadBack(bodies, 4, 2);
    ReadStep(bodies, 4, "Goals");
    BlockSection(bodies, 3, "Goals");
    ReadStep(bodies, 3, "Goals");
    BlockSection(bodies, 2, "Goals");
    ReadStep(bodies, 2, "Goals");
    ReadBack(bodies, 1, 0);
  }

  // All that is printed behind the first section.
  function Tail(bodies: seq<string>): string
    requires |bodies| == 4
  {
    BlockString(bodies, 1) + BlockString(bodies, 2) + BlockString(bodies, 3)
  }

  lemma PrintedTail(bodies: seq<string>)
    requires |bodies| == 4
    ensures Printed(bodies, 4) == BlockString(bodies, 0) + Tail(bodies)
  {
    hide Printed, BlockString;
    PrintedStep(bodies, 4);
    PrintedStep(bodies, 3);
    PrintedStep(bodies, 2);
    PrintedStep(bodies, 1);
    NothingPrinted(bodies);
    assert Printed(bodies, 1) == BlockString(bodies, 0);
  }

  lemma PrefixEqual(a: string, b: string, c: string)
    requires a + c == b + c
    ensures a == b
  {
    assert |a| == |b|;
    assert (a + c)[..|a|] == a && (b + c)[..|b|] == b;
  }

  lemma GoalsOfBlock(a: seq<string>, b: seq<string>)
    requires |a| == |b| == 4 && BlockString(a, 0) == BlockString(b, 0)
    ensures a[0] == b[0]
  {
    var head := "## Goals" + "\n";
    assert BlockString(a, 0)[|head|..|head| + |a[0]|] == a[0];
    assert |a[0]| == |b[0]|;
    assert BlockString(b, 0)[|head|..|head| + |b[0]|] == b[0];
  }

  lemma PrintedGoalsInjective(a: seq<string>, b: seq<string>)
    requires |a| == |b| == 4 && a[1..] == b[1..] && Printed(a, 4) == Printed(b, 4)
    ensures a == b
  {
    hide Printed;
    PrintedTail(a);
    PrintedTail(b);
    forall i | 1 <= i < 4 ensures a[i] == b[i] { assert a[1..][i - 1] == b[1..][i - 1]; }
    assert Tail(a) == Tail(b);
    PrefixEqual(BlockString(a, 0), BlockString(b, 0), Tail(a));
    GoalsOfBlock(a, b);
  }

  // normalizeSummary is idempotent exactly when the file list brings no goals of its own.
  lemma NormalizeIdempotent(raw: string, history: seq<Message>)
    requires Readable(NormalizeSummary(raw, history))
    ensures var bodies := Bodies(raw, history);
            NormalizeSummary(NormalizeSummary(raw, history), history) == NormalizeSummary(raw, history)
            <==> GoalsInFiles(bodies).None? || BodyText(GoalsInFiles(bodies)) == bodies[0]
  {
    hide Section, HeaderFree, Trimmed, Block, Lines, Printed, Readable, PrintedBlocks, FilesSection, TrimSpace;
    var bodies := Bodies(raw, history);
    var out := NormalizeSummary(raw, history);
    PrintedReads(bodies);
    BodiesTrimmed(raw, history);
    AnswerBodies(raw, history);
    ReadAnyFiles(bodies);
    var again := Bodies(out, history);
    forall i | 0 <= i < 4 ensures BodyText(Some(bodies[i])) == bodies[i] { TrimOfTrimmed(bodies[i]); }
    assert again[1..] == bodies[1..];
    if Printed(again, 4) == Printed(bodies, 4) { PrintedGoalsInjective(again, bodies); }
    assert again[0] == bodies[0] ==> again == bodies;
  }

  // In particular when no attachment reference holds a section header line.
  lemma HeaderFreeIdempotent(raw: string, history: seq<Message>)
    requires Readable(NormalizeSummary(raw, history)) && HeaderFree(Bodies(raw, history)[1])
    ensures NormalizeSummary(NormalizeSummary(raw, history), history) == NormalizeSummary(raw, history)
  {
    hide Section, HeaderFree, Trimmed, Block, Lines, Printed, Readable, Bodies;
    NormalizeIdempotent(raw, history);
    BodiesTrimmed(raw, history);
    BlockSection(Bodies(raw, history), 1, "Goals");
  }

  // A reference with a Goals header line in it: its tail is read as the goals.
  lemma GoalsHeaderInFiles(bodies: seq<string>, pre: string, goals: string)
    requires |bodies| == 4 && bodies[1] == pre + "\n## Goals\n" + goals
    requires HeaderFree(goals) && Trimmed(goals)
    ensures GoalsInFiles(bodies) == Some(goals)
  {
    hide Section, HeaderOf, Split, HeaderFree, Trimmed;
    var rest := "## Goals" + ['\n'] + goals;
    assert bodies[1] == pre + ['\n'] + rest;
    SplitConcat(pre, rest, '\n');
    SplitConcat("## Goals", goals, '\n');
    PlainGoals();
    var a := Tagged(["## Files"] + Split(pre, '\n'));
    var b := Block([goals, "", "", ""], 0);
    assert "## " + NAMES[0] == "## Goals" && "## " + NAMES[1] == "## Files";
    assert Split(bodies[1], '\n') == Split(pre, '\n') + ["## Goals"] + Split(goals, '\n');
    assert BlockTexts(bodies, 1) == (["## Files"] + Split(pre, '\n')) + BlockTexts([goals, "", "", ""], 0);
    assert Block(bodies, 1) == a + b;
    BlockStarts([goals, "", "", ""], 0);
    SectionConcat(a, b, "Goals");
    BlockSection([goals, "", "", ""], 0, "Goals");
  }

  lemma PlainGoals()
    ensures Split("## Goals", '\n') == ["## Goals"]
  {
    SplitPlain("## Goals", '\n');
  }

  const ODD_FILES := "- x\n## Goals\ny: k"

  lemma OddText()
    ensures ODD_FILES == "- x" + "\n## Goals\n" + "y: k" && Trimmed(ODD_FILES)
    ensures '\r' !in ODD_FILES
  {}

  lemma OddBodies()
    ensures Bodies("", [ODD_MESSAGE])[0] == NOTHING && Bodies("", [ODD_MESSAGE])[1] == ODD_FILES
  {
    hide Section, Lines, TrimSpace, FilesSection, BodyText, Trimmed;
    OddFiles();
    OddText();
    NoGoals();
    TextOfTrimmed(ODD_FILES);
  }

  // A concrete failing input: one attachment whose path holds line breaks and a Goals header.
  lemma IdempotenceFails()
    ensures NormalizeSummary(NormalizeSummary("", [ODD_MESSAGE]), [ODD_MESSAGE]) != NormalizeSummary("", [ODD_MESSAGE])
  {
    hide NormalizeSummary, FilesSection, BodyText, GoalsInFiles, HeaderFree, Bodies, ReplaceCRLF, Readable, Trimmed;
    OddFiles();
    OddText();
    OddBodies();
    assert '\r' !in ReplaceCRLF("") by { ReplaceNothing(""); }
    CarriageFreeReadable("", [ODD_MESSAGE]);
    OddTail();
    GoalsHeaderInFiles(Bodies("", [ODD_MESSAGE]), "- x", "y: k");
    NormalizeIdempotent("", [ODD_MESSAGE]);
  }

  lemma OddTail()
    ensures HeaderFree("y: k") && Trimmed("y: k") && BodyText(Some("y: k")) == "y: k"
  {
    hide HeaderFree, TrimSpace;
    PlainLineHeaderFree("y: k");
    TextOfTrimmed("y: k");
  }

  lemma TextOfTrimmed(text: string)
    requires Trimmed(text) && text != ""
    ensures BodyText(Some(text)) == text
  {
    TrimOfTrimmed(text);
  }

  lemma NoGoals()
    ensures BodyText(Section(Lines(""), "Goals")) == NOTHING
  {
    hide HeaderOf;
    BlankLine();
    assert Lines("") == [Line("", "")];
    assert LastHeader(Lines(""), 1, "Goals") == -1;
    assert TrimSpace("") == "";
  }

  const ODD_ATTACHMENT := Attachment("", "", "", "", 0, "x\n## Goals\ny", "k")
  const ODD_MESSAGE := Message(1, "", User, "", [], "", [ODD_ATTACHMENT], EMPTY_ID, None, false)

  lemma PlainLineHeaderFree(line: string)
    requires '\n' !in line && Trimmed(line) && !("## " <= line)
    ensures HeaderFree(line)
  {
    SplitPlain(line, '\n');
    TrimOfTrimmed(line);
  }

  lemma SingleFile(ref: string)
    ensures Distinct([ref]) == [ref] && Join(Bulleted([ref]), '\n') == "- " + ref
  {
    assert [ref][..0] == [];
  }

  lemma OddRef()
    ensures AttachmentRef(ODD_ATTACHMENT) == "x\n## Goals\ny: k"
  {
    hide TrimSpace;
    TrimOfTrimmed("x\n## Goals\ny");
    TrimOfTrimmed("k");
  }

  lemma OddFiles()
    ensures FilesSection([ODD_MESSAGE]) == ODD_FILES
  {
    hide Distinct, Join, Bulleted, AttachmentRef;
    var ref := "x\n## Goals\ny: k";
    OddRef();
    assert [ODD_MESSAGE][..0] == [];
    assert AllRefs([ODD_MESSAGE]) == Refs([ODD_ATTACHMENT]) == [ref];
    SingleFile(ref);
    assert "- " + ref == ODD_FILES;
  }

  // ---------- texts without carriage returns ----------

  lemma {:induction false} JoinChars(parts: seq<string>, c: char)
    requires NoneContain(parts, c) && c != '\n'
    ensures c !in Join(parts, '\n')
  {
    if |parts| > 1 { JoinChars(parts[1..], c); }
  }

  lemma {:induction false} SplitChars(s: string, c: char)
    requires c !in s
    ensures NoneContain(Split(s, '\n'), c)
  {
    if s != "" { SplitChars(s[1..], c); }
  }

  lemma {:induction false} TrimChars(s: string, c: char)
    requires c !in s
    ensures c !in TrimSpace(s)
    decreases |s|
  {
    if s != "" && IsSpace(s[0]) { TrimChars(s[1..], c); }
  }

  lemma SectionChars(raw: string, name: string)
    requires '\r' !in ReplaceCRLF(raw)
    ensures '\r' !in BodyText(Section(Lines(raw), name))
  {
    hide HeaderOf, TrimSpace, Split, ReplaceCRLF, Join;
    var lines := Lines(raw);
    var h := LastHeader(lines, |lines|, name);
    SplitChars(ReplaceCRLF(raw), '\r');
    if h >= 0 {
      var j := NextHeader(lines, h + 1);
      var body := Texts(lines[h + 1..j]);
      assert body == Split(ReplaceCRLF(raw), '\n')[h + 1..j];
      JoinChars(body, '\r');
      TrimChars(Join(body, '\n'), '\r');
      TrimChars(TrimSpace(Join(body, '\n')), '\r');
    } else {
      TrimChars("", '\r');
    }
  }

  lemma {:induction false} PrintedChars(bodies: seq<string>, n: nat)
    requires |bodies| == 4 && n <= 4 && forall i :: 0 <= i < 4 ==> '\r' !in bodies[i]
    ensures '\r' !in Printed(bodies, n)
  {
    if n == 0 {
    } else {
      PrintedChars(bodies, n - 1);
    }
  }

  // An answer without lone carriage returns and references without any keep the text readable.
  lemma CarriageFreeReadable(raw: string, history: seq<Message>)
    requires '\r' !in ReplaceCRLF(raw) && '\r' !in FilesSection(history)
    ensures Readable(NormalizeSummary(raw, history))
  {
    hide Section, Lines, TrimSpace, FilesSection, ReplaceCRLF, Printed;
    SectionChars(raw, "Goals");
    SectionChars(raw, "State");
    SectionChars(raw, "Decisions");
    TrimChars(FilesSection(history), '\r');
    PrintedChars(Bodies(raw, history), 4);
    ReplaceNothing(NormalizeSummary(raw, history));
  }

  // ---------- the model's answer, read in what is printed ----------

  // Of the printed text: goals, state and decisions are those of the answer, or "None." where the
  // answer has none or a blank one, and the files are the file list.
  lemma AnswerSurvives(raw: string, history: seq<Message>, name: string)
    requires Readable(NormalizeSummary(raw, history)) && HeaderFree(FilesSection(history))
    requires name == "Goals" || name == "State" || name == "Decisions"
    ensures var kept, printed := Section(Lines(raw), name), Section(Lines(NormalizeSummary(raw, history)), name);
      printed == Some(if kept.Some? && TrimSpace(kept.value) != "" then TrimSpace(kept.value) else "None.")
    ensures Section(Lines(NormalizeSummary(raw, history)), "Files") == Some(FilesSection(history))
  {
    hide Section, HeaderFree, Lines, Printed, Readable, FilesSection, TrimSpace;
    FilesTrimmed(history);
    TrimOfTrimmed("");
    TrimOfTrimmed(FilesSection(history));
    var bodies := Bodies(raw, history);
    assert bodies[1] == FilesSection(history);
    ReparseReturnsBodies(raw, history);
    var again := Lines(NormalizeSummary(raw, history));
    assert forall i :: 0 <= i < 4 ==> Section(again, NAMES[i]) == Some(bodies[i]);
    assert Section(again, NAMES[0]) == Some(bodies[0]) && Section(again, NAMES[1]) == Some(bodies[1]);
    assert Section(again, NAMES[2]) == Some(bodies[2]) && Section(again, NAMES[3]) == Some(bodies[3]);
  }

  // ---------- the file list, item by item ----------

  // Path, file name or ID, whichever comes first and is not blank; caption or kind.
  ghost predicate RefParts(att: Attachment, name: string, desc: string)
  {
    && Trimmed(name) && Trimmed(desc) && name != "" && desc != ""
    && (TrimSpace(att.path) != "" ==> name == TrimSpace(att.path))
    && (TrimSpace(att.path) == "" && TrimSpace(att.filename) != "" ==> name == TrimSpace(att.filename))
    && (TrimSpace(att.path) == "" && TrimSpace(att.filename) == "" && TrimSpace(att.id) != "" ==>
          name == TrimSpace(att.id))
    && (TrimSpace(att.caption) != "" ==> desc == TrimSpace(att.caption))
    && (TrimSpace(att.caption) == "" && TrimSpace(att.kind) != "" ==> desc == TrimSpace(att.kind))
  }

  lemma RefNames(att: Attachment) returns (name: string, desc: string)
    ensures RefParts(att, name, desc) && AttachmentRef(att) == name + ": " + desc
  {
    hide TrimSpace;
    name := FirstNonEmpty(TrimSpace(att.path), TrimSpace(att.filename), TrimSpace(att.id), "attachment");
    desc := FirstNonEmpty(TrimSpace(att.caption), TrimSpace(att.kind), "", "attachment");
  }

  lemma RefTrimmed(att: Attachment)
    ensures AttachmentRef(att) != "" && Trimmed(AttachmentRef(att))
  {
    hide AttachmentRef;
    var name, desc := RefNames(att);
    var ref := AttachmentRef(att);
    assert ref[0] == name[0] && ref[|ref| - 1] == desc[|desc| - 1];
  }

  ghost predicate IsRef(history: seq<Message>, ref: string)
  {
    exists i, k :: RefAt(history, i, k, ref)
  }

  ghost predicate RefAt(history: seq<Message>, i: int, k: int, ref: string)
  {
    0 <= i < |history| && 0 <= k < |history[i].attachments| && ref == AttachmentRef(history[i].attachments[k])
  }

  lemma {:induction false} AllRefsAre(history: seq<Message>, ref: string)
    ensures ref in AllRefs(history) <==> IsRef(history, ref)
  {
    hide AttachmentRef;
    if history == [] {
    } else {
      var n := |history| - 1;
      AllRefsAre(history[..n], ref);
      LastRefs(history, ref);
    }
  }

  lemma LastRefs(history: seq<Message>, ref: string)
    requires history != []
    ensures var n := |history| - 1;
      && (IsRef(history, ref) <==> IsRef(history[..n], ref) || ref in Refs(history[n].attachments))
  {
    hide AttachmentRef;
    var n := |history| - 1;
    var refs := Refs(history[n].attachments);
    if i, k :| RefAt(history, i, k, ref) {
      if i < n { assert RefAt(history[..n], i, k, ref); } else { assert refs[k] == ref; }
    }
    if i, k :| RefAt(history[..n], i, k, ref) {
      assert RefAt(history, i, k, ref);
    }
    if ref in refs {
      var k :| 0 <= k < |refs| && refs[k] == ref;
      assert RefAt(history, n, k, ref);
    }
  }

  // The list has one line for each reference of the history, and "None." only if there is none.
  lemma FilesListed(history: seq<Message>) returns (refs: seq<string>)
    ensures forall ref :: ref in refs <==> IsRef(history, ref)
    ensures forall i, j :: 0 <= i < j < |refs| ==> refs[i] != refs[j]
    ensures if refs == [] then FilesSection(history) == "None."
            else FilesSection(history) == Join(seq(|refs|, i requires 0 <= i < |refs| => "- " + refs[i]), '\n')
  {
    hide Distinct, AllRefs, Join, IsRef;
    refs := Distinct(AllRefs(history));
    DistinctLists(AllRefs(history));
    forall ref ensures ref in refs <==> IsRef(history, ref) { AllRefsAre(history, ref); }
    assert Bulleted(refs) == seq(|refs|, i requires 0 <= i < |refs| => "- " + refs[i]);
  }

  lemma FilesTrimmed(history: seq<Message>)
    ensures FilesSection(history) != "" && Trimmed(FilesSection(history))
  {
    hide Distinct, AllRefs, Join, AttachmentRef;
    var refs := FilesListed(history);
    if refs != [] {
      var lines := seq(|refs|, i requires 0 <= i < |refs| => "- " + refs[i]);
      forall i | 0 <= i < |lines| ensures lines[i] != "" && Trimmed(lines[i]) {
        assert refs[i] in refs;
        var k, a :| RefAt(history, k, a, refs[i]);
        RefTrimmed(history[k].attachments[a]);
      }
      JoinTrimmed(lines, '\n');
    }
  }

  lemma {:induction false} JoinTrimmed(lines: seq<string>, sep: char)
    requires lines != [] && forall i :: 0 <= i < |lines| ==> lines[i] != "" && Trimmed(lines[i])
    ensures Join(lines, sep) != "" && Trimmed(Join(lines, sep))
  {
    if |lines| == 1 {
    } else {
      JoinTrimmed(lines[1..], sep);
    }
  }

  // ---------- which lines open a section ----------

  // "## " and a name in any spelling of upper and lower case; any other name opens none.
  lemma HeaderSpellings(name: string)
    requires name != "" && Trimmed(name)
    ensures HeaderOf("## " + name)
         == if ToLower(name) == "goals" then "Goals" else if ToLower(name) == "files" then "Files"
            else if ToLower(name) == "state" then "State" else if ToLower(name) == "decisions" then "Decisions" else ""
  {
    hide TrimSpace, ToLower, HeaderOf;
    HeaderOfName(name, ToLower(name));
    TrimOfTrimmed(name);
  }

  // The printed form: four sections in this order, whatever the answer.
  lemma PrintedForm(raw: string, history: seq<Message>)
    returns (goals: string, files: string, state: string, decisions: string)
    ensures goals != "" && files != "" && state != "" && decisions != ""
    ensures var one := "## Goals\n" + goals + "\n\n";
            var two := one + ("## Files\n" + files + "\n\n");
            var three := two + ("## State\n" + state + "\n\n");
            NormalizeSummary(raw, history) == three + ("## Decisions\n" + decisions)
  {
    hide Bodies, Printed;
    var bodies := Bodies(raw, history);
    BodiesTrimmed(raw, history);
    goals, files, state, decisions := bodies[0], bodies[1], bodies[2], bodies[3];
    NothingPrinted(bodies);
    PrintedNext(bodies, 0);
    PrintedNext(bodies, 1);
    PrintedNext(bodies, 2);
    PrintedNext(bodies, 3);
    OneSection("", "Goals", "## Goals\n", goals, "\n\n");
    OneSection(Printed(bodies, 1), "Files", "## Files\n", files, "\n\n");
    OneSection(Printed(bodies, 2), "State", "## State\n", state, "\n\n");
    OneSection(Printed(bodies, 3), "Decisions", "## Decisions\n", decisions, "");
    NoTail("## Goals\n" + goals + "\n\n", "## Decisions\n" + decisions);
  }

  lemma OneSection(text: string, name: string, open: string, body: string, tail: string)
    requires open == "## " + name + "\n"
    ensures text + "## " + name + "\n" + body + tail == text + (open + body + tail)
  {}

  lemma NoTail(first: string, last: string)
    ensures "" + first == first && last + "" == last
  {}
}
