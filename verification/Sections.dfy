/** Summary sections (internal/domain/service/compaction/service.go): the parser of the model's
    answer, the list of files, and the printer that normalises both. */
module Sections {
  import opened Messages
  import opened Text

  const NAMES := ["Goals", "Files", "State", "Decisions"]
  const NOTHING := "None."

  function CanonicalSection(name: string): string
  {
    var lower := ToLower(TrimSpace(name));
    if lower == "goals" then "Goals"
    else if lower == "files" then "Files"
    else if lower == "state" then "State"
    else if lower == "decisions" then "Decisions"
    else ""
  }

  // The section a line opens, or "".
  function HeaderOf(line: string): string
  {
    var trimmed := TrimSpace(line);
    if "## " <= trimmed then CanonicalSection(TrimSpace(trimmed[3..])) else ""
  }

  // strings.ReplaceAll(raw, "\r\n", "\n")
  function ReplaceCRLF(s: string): string
  {
    if |s| < 2 then s
    else if s[0] == '\r' && s[1] == '\n' then ['\n'] + ReplaceCRLF(s[2..])
    else [s[0]] + ReplaceCRLF(s[1..])
  }

  lemma {:induction false} ReplaceNothing(s: string)
    requires '\r' !in s
    ensures ReplaceCRLF(s) == s
  {
    if |s| >= 2 { ReplaceNothing(s[1..]); }
  }

  // Every carriage return before a line feed goes.
  lemma {:induction false} ReplacesEach(a: string, b: string)
    ensures ReplaceCRLF(a + "\r\n" + b) == ReplaceCRLF(a) + "\n" + ReplaceCRLF(b)
    decreases |a|
  {
    var s := a + "\r\n" + b;
    if a == "" {
      assert s[2..] == b;
    } else if |a| == 1 {
      assert s[1..] == "" + "\r\n" + b;
      ReplacesEach("", b);
    } else if a[0] == '\r' && a[1] == '\n' {
      assert s[2..] == a[2..] + "\r\n" + b;
      ReplacesEach(a[2..], b);
    } else {
      assert s[1..] == a[1..] + "\r\n" + b;
      ReplacesEach(a[1..], b);
    }
  }

  // A line with the section it opens ("" for none).
  datatype Line = Line(text: string, header: string)

  function Tagged(texts: seq<string>): (lines: seq<Line>)
    ensures |lines| == |texts|
    ensures forall i :: 0 <= i < |texts| ==> lines[i] == Line(texts[i], HeaderOf(texts[i]))
  {
    seq(|texts|, i requires 0 <= i < |texts| => Line(texts[i], HeaderOf(texts[i])))
  }

  function Texts(lines: seq<Line>): (texts: seq<string>)
    ensures |texts| == |lines|
    ensures forall i :: 0 <= i < |texts| ==> texts[i] == lines[i].text
  {
    seq(|lines|, i requires 0 <= i < |lines| => lines[i].text)
  }

  function Lines(raw: string): seq<Line> { Tagged(Split(ReplaceCRLF(raw), '\n')) }

  function BodyOf(lines: seq<Line>): string { TrimSpace(Join(Texts(lines), '\n')) }

  // ---------- what a section is, by positions ----------

  function NextHeader(lines: seq<Line>, i: nat): (j: nat)
    requires i <= |lines|
    ensures i <= j <= |lines|
    ensures forall k :: i <= k < j ==> lines[k].header == ""
    ensures j < |lines| ==> lines[j].header != ""
    decreases |lines| - i
  {
    if i == |lines| || lines[i].header != "" then i else NextHeader(lines, i + 1)
  }

  // The last header of that name among the first n lines, or -1.
  function LastHeader(lines: seq<Line>, n: nat, name: string): (h: int)
    requires n <= |lines|
    ensures -1 <= h < n
    ensures h >= 0 ==> lines[h].header == name
    ensures forall k :: h < k < n ==> lines[k].header != name
  {
    if n == 0 then -1
    else if lines[n - 1].header == name then n - 1
    else LastHeader(lines, n - 1, name)
  }

  function SectionAt(lines: seq<Line>, h: int): Option<string>
    requires -1 <= h < |lines|
  {
    if h < 0 then None else Some(BodyOf(lines[h + 1..NextHeader(lines, h + 1)]))
  }

  // The lines after the last header of that name, up to the next header of any name.
  function Section(lines: seq<Line>, name: string): Option<string>
  {
    SectionAt(lines, LastHeader(lines, |lines|, name))
  }

  // ---------- parseSections ----------

  function Lookup(sections: map<string, string>, name: string): Option<string>
  {
    if name in sections then Some(sections[name]) else None
  }

  // sections is complete for the headers among the first n lines.
  ghost predicate ParsedBefore(sections: map<string, string>, lines: seq<Line>, n: nat)
    requires n <= |lines|
  {
    forall name: string | name != "" :: Lookup(sections, name) == SectionAt(lines, LastHeader(lines, n, name))
  }

  lemma {:induction false} LastHeaderSkips(lines: seq<Line>, m: nat, n: nat, name: string)
    requires m <= n <= |lines|
    requires forall k :: m <= k < n ==> lines[k].header != name
    ensures LastHeader(lines, n, name) == LastHeader(lines, m, name)
  {
    if m == n {
    } else {
      LastHeaderSkips(lines, m, n - 1, name);
    }
  }

  // flush: the section opened at h ends at i.
  lemma FlushedAt(sections: map<string, string>, lines: seq<Line>, h: nat, i: nat)
    requires h < i <= |lines| && lines[h].header != ""
    requires forall k :: h < k < i ==> lines[k].header == ""
    requires i == |lines| || lines[i].header != ""
    requires ParsedBefore(sections, lines, h)
    ensures ParsedBefore(sections[lines[h].header := BodyOf(lines[h + 1..i])], lines, i)
  {
    hide BodyOf;
    var sections' := sections[lines[h].header := BodyOf(lines[h + 1..i])];
    forall name: string | name != ""
      ensures Lookup(sections', name) == SectionAt(lines, LastHeader(lines, i, name))
    {
      LastHeaderSkips(lines, h + 1, i, name);
      assert NextHeader(lines, h + 1) == i;
      assert Lookup(sections, name) == SectionAt(lines, LastHeader(lines, h, name));
    }
  }

  lemma NoHeaderYet(sections: map<string, string>, lines: seq<Line>, i: nat)
    requires i <= |lines| && ParsedBefore(sections, lines, 0)
    requires forall k :: 0 <= k < i ==> lines[k].header == ""
    ensures ParsedBefore(sections, lines, i)
  {
    forall name: string | name != ""
      ensures LastHeader(lines, i, name) == LastHeader(lines, 0, name)
    {
      LastHeaderSkips(lines, 0, i, name);
    }
  }

  // State of the scan after i lines: the open section started at h, or none is open.
  ghost predicate Scanned(
    sections: map<string, string>, current: string, body: seq<string>, lines: seq<Line>, h: int, i: nat)
    requires i <= |lines|
  {
    && -1 <= h < i
    && (forall k :: h < k < i ==> lines[k].header == "")
    && (if h < 0 then current == "" && ParsedBefore(sections, lines, 0)
        else current == lines[h].header != "" && body == Texts(lines[h + 1..i]) && ParsedBefore(sections, lines, h))
  }

  lemma Flushed(sections: map<string, string>, current: string, body: seq<string>, lines: seq<Line>, h: int, i: nat)
    requires i <= |lines| && Scanned(sections, current, body, lines, h, i)
    requires i == |lines| || lines[i].header != ""
    ensures ParsedBefore(if current == "" then sections else sections[current := TrimSpace(Join(body, '\n'))], lines, i)
  {
    hide TrimSpace, Join;
    if h < 0 { NoHeaderYet(sections, lines, i); } else { FlushedAt(sections, lines, h, i); }
  }

  method ParseSections(raw: string) returns (sections: map<string, string>)
    ensures forall name: string | name != "" :: Lookup(sections, name) == Section(Lines(raw), name)
  {
    hide TrimSpace, Join, HeaderOf, Split, ReplaceCRLF, BodyOf;
    var texts := Split(ReplaceCRLF(raw), '\n');
    ghost var lines := Tagged(texts);
    sections := map[];
    var current, body := "", [];
    ghost var h := -1;
    for i := 0 to |texts|
      invariant Scanned(sections, current, body, lines, h, i)
    {
      var next := HeaderOf(texts[i]);
      if next != "" {
        Flushed(sections, current, body, lines, h, i);
        if current != "" {
          sections := sections[current := TrimSpace(Join(body, '\n'))];
        }
        current, body, h := next, [], i;
      } else if current != "" {
        body := body + [texts[i]];
      }
    }
    Flushed(sections, current, body, lines, h, |texts|);
    if current != "" {
      sections := sections[current := TrimSpace(Join(body, '\n'))];
    }
  }

  // ---------- attachmentRefs and normalizeFilesSection ----------

  function FirstNonEmpty(a: string, b: string, c: string, last: string): string
  {
    if a != "" then a else if b != "" then b else if c != "" then c else last
  }

  function AttachmentRef(att: Attachment): string
  {
    FirstNonEmpty(TrimSpace(att.path), TrimSpace(att.filename), TrimSpace(att.id), "attachment")
    + ": " + FirstNonEmpty(TrimSpace(att.caption), TrimSpace(att.kind), "", "attachment")
  }

  function Refs(atts: seq<Attachment>): (refs: seq<string>)
    ensures |refs| == |atts|
  {
    seq(|atts|, i requires 0 <= i < |atts| => AttachmentRef(atts[i]))
  }

  function AllRefs(history: seq<Message>): seq<string>
  {
    if history == [] then []
    else AllRefs(history[..|history| - 1]) + Refs(history[|history| - 1].attachments)
  }

  // First occurrences, in order.
  function Distinct(refs: seq<string>): seq<string>
  {
    if refs == [] then []
    else
      var init, last := refs[..|refs| - 1], refs[|refs| - 1];
      Distinct(init) + if last in init then [] else [last]
  }

  function Bulleted(refs: seq<string>): (lines: seq<string>)
    ensures |lines| == |refs|
  {
    seq(|refs|, i requires 0 <= i < |refs| => "- " + refs[i])
  }

  function FilesSection(history: seq<Message>): string
  {
    var refs := Distinct(AllRefs(history));
    if refs == [] then NOTHING else Join(Bulleted(refs), '\n')
  }

  // Every attachment is listed, and listed once.
  lemma {:induction false} DistinctLists(refs: seq<string>)
    ensures forall x :: x in Distinct(refs) <==> x in refs
    ensures forall i, j :: 0 <= i < j < |Distinct(refs)| ==> Distinct(refs)[i] != Distinct(refs)[j]
  {
    if refs == [] {
    } else {
      var init, last := refs[..|refs| - 1], refs[|refs| - 1];
      DistinctLists(init);
      assert refs == init + [last];
    }
  }

  lemma DistinctStep(refs: seq<string>, x: string)
    ensures Distinct(refs + [x]) == Distinct(refs) + if x in refs then [] else [x]
    ensures Bulleted(Distinct(refs) + [x]) == Bulleted(Distinct(refs)) + ["- " + x]
  {
    assert (refs + [x])[..|refs|] == refs;
  }

  // The inner loop: the references of one message.
  method AddRefs(refs: seq<string>, seen0: set<string>, lines0: seq<string>, ghost before: seq<string>)
    returns (seen: set<string>, lines: seq<string>)
    requires (forall x :: x in seen0 <==> x in before) && lines0 == Bulleted(Distinct(before))
    ensures (forall x :: x in seen <==> x in before + refs) && lines == Bulleted(Distinct(before + refs))
  {
    hide Distinct, Bulleted;
    seen, lines := seen0, lines0;
    assert before + refs[..0] == before;
    for j := 0 to |refs|
      invariant forall x :: x in seen <==> x in before + refs[..j]
      invariant lines == Bulleted(Distinct(before + refs[..j]))
    {
      var ref := refs[j];
      DistinctStep(before + refs[..j], ref);
      assert before + refs[..j + 1] == before + refs[..j] + [ref];
      if ref in seen {
        assert Distinct(before + refs[..j]) + [] == Distinct(before + refs[..j]);
        continue;
      }
      seen := seen + {ref};
      lines := lines + ["- " + ref];
    }
    assert refs[..|refs|] == refs;
  }

  method NormalizeFilesSection(history: seq<Message>) returns (files: string)
    ensures files == FilesSection(history)
  {
    hide Distinct, AttachmentRef, Join;
    var seen: set<string>, lines: seq<string> := {}, [];
    NothingDistinct();
    for i := 0 to |history|
      invariant forall x :: x in seen <==> x in AllRefs(history[..i])
      invariant lines == Bulleted(Distinct(AllRefs(history[..i])))
    {
      assert history[..i + 1][..i] == history[..i];
      seen, lines := AddRefs(Refs(history[i].attachments), seen, lines, AllRefs(history[..i]));
    }
    assert history[..|history|] == history;
    files := if |lines| == 0 then NOTHING else Join(lines, '\n');
  }

  lemma NothingDistinct()
    ensures Distinct([]) == []
  {}

  // ---------- normalizeSummary ----------

  function BodyText(section: Option<string>): (body: string)
    ensures Trimmed(body) && body != ""
  {
    var content := TrimSpace(if section.Some? then section.value else "");
    if content == "" then NOTHING else content
  }

  // The four bodies that normalizeSummary prints.
  function Bodies(raw: string, history: seq<Message>): (bodies: seq<string>)
    ensures |bodies| == 4
  {
    var lines := Lines(raw);
    [BodyText(Section(lines, "Goals")), BodyText(Some(FilesSection(history))),
     BodyText(Section(lines, "State")), BodyText(Section(lines, "Decisions"))]
  }

  lemma BodiesTrimmed(raw: string, history: seq<Message>)
    ensures forall i :: 0 <= i < 4 ==> Trimmed(Bodies(raw, history)[i]) && Bodies(raw, history)[i] != ""
  {
    hide TrimSpace, Section, Lines, FilesSection, Trimmed, BodyText;
  }

  function Printed(bodies: seq<string>, n: nat): string
    requires |bodies| == 4 && n <= 4
  {
    if n == 0 then ""
    else Printed(bodies, n - 1) + "## " + NAMES[n - 1] + "\n" + bodies[n - 1] + if n < 4 then "\n\n" else ""
  }

  function NormalizeSummary(raw: string, history: seq<Message>): string
  {
    Printed(Bodies(raw, history), 4)
  }

  lemma NothingPrinted(bodies: seq<string>)
    requires |bodies| == 4
    ensures Printed(bodies, 0) == ""
  {}

  lemma PrintedNext(bodies: seq<string>, n: nat)
    requires |bodies| == 4 && n < 4
    ensures Printed(bodies, n + 1)
         == Printed(bodies, n) + "## " + NAMES[n] + "\n" + bodies[n] + if n < 3 then "\n\n" else ""
  {}

  // What the printing loop finds in the parsed sections, with the file list put in.
  lemma FoundBodies(raw: string, history: seq<Message>, sections: map<string, string>)
    requires "Files" in sections && sections["Files"] == FilesSection(history)
    requires forall name | name == "Goals" || name == "State" || name == "Decisions" ::
               Lookup(sections, name) == Section(Lines(raw), name)
    ensures forall i :: 0 <= i < 4 ==> BodyText(Lookup(sections, NAMES[i])) == Bodies(raw, history)[i]
  {
    hide Section, Lines, FilesSection, BodyText;
    assert Lookup(sections, "Files") == Some(FilesSection(history));
    assert NAMES[0] == "Goals" && NAMES[1] == "Files" && NAMES[2] == "State" && NAMES[3] == "Decisions";
  }

  method WriteSummary(raw: string, history: seq<Message>) returns (text: string)
    ensures text == NormalizeSummary(raw, history)
  {
    hide TrimSpace, Section, FilesSection, Lines, Printed, BodyText, Bodies;
    var sections := ParseSections(raw);
    ghost var bodies := Bodies(raw, history);
    var files := NormalizeFilesSection(history);
    sections := sections["Files" := files];
    FoundBodies(raw, history, sections);
    NothingPrinted(bodies);
    text := "";
    for i := 0 to 4
      invariant text == Printed(bodies, i)
    {
      var name := NAMES[i];
      var content := BodyText(Lookup(sections, name));
      PrintedNext(bodies, i);
      text := text + "## " + name + "\n" + content + if i < 3 then "\n\n" else "";
    }
  }
}
