/** Text as lines, the way Rust's `str` sees it. */
module TextLines {
  import opened Sequences

  predicate IsWhitespace(c: char) {
    || '\t' <= c <= '\r' || c == ' ' || c == '\U{0085}' || c == '\U{00A0}' || c == '\U{1680}'
    || '\U{2000}' <= c <= '\U{200A}' || c == '\U{2028}' || c == '\U{2029}' || c == '\U{202F}'
    || c == '\U{205F}' || c == '\U{3000}'
  }

  function TrimStart(s: string): string {
    if s != "" && IsWhitespace(s[0]) then TrimStart(s[1..]) else s
  }

  function TrimEnd(s: string): string {
    if s != "" && IsWhitespace(s[|s| - 1]) then TrimEnd(s[..|s| - 1]) else s
  }

  function Trim(s: string): string { TrimEnd(TrimStart(s)) }

  /** Where the first newline is, or the length if there is none. */
  function NewlineAt(text: string): (n: nat)
    ensures n <= |text| && (n < |text| ==> text[n] == '\n')
    ensures forall i :: 0 <= i < n ==> text[i] != '\n'
  {
    if text == "" || text[0] == '\n' then 0 else 1 + NewlineAt(text[1..])
  }

  function StripCr(line: string): string {
    if EndsInCr(line) then line[..|line| - 1] else line
  }

  predicate EndsInCr(line: string) { line != "" && line[|line| - 1] == '\r' }

  /** `str::lines`: a line ends in `\n` or `\r\n`; the last one may end without. */
  function Lines(text: string): seq<string>
    decreases |text|
  {
    if text == "" then []
    else
      var n := NewlineAt(text);
      if n == |text| then [text] else [StripCr(text[..n])] + Lines(text[n + 1..])
  }

  /** `lines.join("\n") + "\n"`. */
  function Join(lines: seq<string>): string {
    if |lines| == 0 then "\n"
    else if |lines| == 1 then lines[0] + "\n"
    else lines[0] + "\n" + Join(lines[1..])
  }

  predicate OneLine(line: string) { forall i :: 0 <= i < |line| ==> line[i] != '\n' }

  predicate AllOneLine(lines: seq<string>) { forall i :: 0 <= i < |lines| ==> OneLine(lines[i]) }

  lemma {:induction false} LinesAreLines(text: string)
    ensures AllOneLine(Lines(text))
    decreases |text|
  {
    if text != "" {
      var n := NewlineAt(text);
      if n < |text| {
        LinesAreLines(text[n + 1..]);
        var first, rest := StripCr(text[..n]), Lines(text[n + 1..]);
        assert OneLine(first);
        assert Lines(text) == [first] + rest;
        forall i | 0 <= i < |[first] + rest| ensures OneLine(([first] + rest)[i]) {
          assert i > 0 ==> ([first] + rest)[i] == rest[i - 1];
        }
      } else {
        assert Lines(text) == [text] && OneLine(text);
      }
    }
  }

  lemma NewlineAfter(line: string, rest: string)
    requires OneLine(line)
    ensures NewlineAt(line + "\n" + rest) == |line|
  {
    var text := line + "\n" + rest;
    assert text[|line|] == '\n';
    assert forall i :: 0 <= i < |line| ==> text[i] == line[i];
  }

  lemma FirstLine(line: string, rest: string)
    requires OneLine(line)
    ensures Lines(line + "\n" + rest) == [StripCr(line)] + Lines(rest)
  {
    var text := line + "\n" + rest;
    NewlineAfter(line, rest);
    assert text[..|line|] == line && text[|line| + 1..] == rest;
  }

  /** Reading back what was joined loses one trailing carriage return per line, and nothing else. */
  lemma {:induction false} LinesOfJoin(lines: seq<string>)
    requires AllOneLine(lines) && lines != []
    ensures Lines(Join(lines)) == Map(StripCr, lines)
  {
    if |lines| == 1 {
      assert lines[0] + "\n" == lines[0] + "\n" + "";
      FirstLine(lines[0], "");
    } else {
      LinesOfJoin(lines[1..]);
      FirstLine(lines[0], Join(lines[1..]));
      assert Map(StripCr, lines) == [StripCr(lines[0])] + Map(StripCr, lines[1..]);
    }
  }

  /** Different lists of lines make different texts. */
  lemma {:induction false} JoinInjective(a: seq<string>, b: seq<string>)
    requires AllOneLine(a) && AllOneLine(b) && |a| == |b|
    requires Join(a) == Join(b)
    ensures a == b
  {
    if |a| == 1 {
      assert a[0] + "\n" == b[0] + "\n";
      assert a[0] == (a[0] + "\n")[..|a[0]|] == (b[0] + "\n")[..|b[0]|] == b[0];
    } else if |a| > 1 {
      var ra, rb := Join(a[1..]), Join(b[1..]);
      NewlineAfter(a[0], ra);
      NewlineAfter(b[0], rb);
      var text := Join(a);
      assert text == a[0] + "\n" + ra == b[0] + "\n" + rb;
      assert a[0] == text[..|a[0]|] == b[0];
      assert ra == text[|a[0]| + 1..] == rb;
      JoinInjective(a[1..], b[1..]);
    }
  }
}

/** `consolidate_modulemap_files`: all modulemap files of a directory folded into one. */
module Modulemap {
  import opened Sequences
  import opened TextLines

  datatype Entry = Entry(isFile: bool, extension: Option<string>, contents: string)

  const MODULE := "module "
  const HEADER := "header "
  const RENAMED := "module MatrixSDKFFI {"

  predicate IsModulemap(e: Entry) { e.isFile && e.extension == Some("modulemap") }

  predicate IsModuleLine(line: string) { MODULE <= line }

  predicate IsHeader(line: string) { HEADER <= Trim(line) }

  function Rename(line: string): string { if IsModuleLine(line) then RENAMED else line }

  /** The elements of `s`, each at its first occurrence. */
  function Distinct(s: seq<string>): seq<string> {
    if s == [] then []
    else
      var front, last := Distinct(s[..|s| - 1]), s[|s| - 1];
      if last in front then front else front + [last]
  }

  function Headers(lines: seq<string>): seq<string> {
    if lines == [] then []
    else Headers(lines[..|lines| - 1]) + (if IsHeader(lines[|lines| - 1]) then [lines[|lines| - 1]] else [])
  }

  function HeadersOfFiles(files: seq<string>): seq<string> {
    if files == [] then [] else HeadersOfFiles(files[..|files| - 1]) + Headers(Lines(files[|files| - 1]))
  }

  /** One past the last header line, or 0 if there is none. */
  function AfterLastHeader(lines: seq<string>): (n: nat)
    ensures n <= |lines|
    ensures n > 0 ==> IsHeader(lines[n - 1])
    ensures forall i :: n <= i < |lines| ==> !IsHeader(lines[i])
  {
    if lines == [] then 0
    else if IsHeader(lines[|lines| - 1]) then |lines| else AfterLastHeader(lines[..|lines| - 1])
  }

  function Splice(lines: seq<string>, n: nat, block: seq<string>): seq<string>
    requires n <= |lines|
  {
    lines[..n] + block + lines[n..]
  }

  /** What is spliced in: nothing if the base has no header line to put it after. */
  function Block(files: seq<string>): seq<string>
    requires files != []
  {
    if AfterLastHeader(Lines(files[0])) == 0 then [] else Distinct(HeadersOfFiles(files[1..]))
  }

  /** The lines of the consolidated file: the renamed base with the other files' headers spliced in. */
  function Consolidated(files: seq<string>): seq<string>
    requires files != []
  {
    Splice(Map(Rename, Lines(files[0])), AfterLastHeader(Lines(files[0])), Block(files))
  }

  function Contents(dir: seq<Entry>): seq<string> {
    if dir == [] then []
    else Contents(dir[..|dir| - 1]) + (if IsModulemap(dir[|dir| - 1]) then [dir[|dir| - 1].contents] else [])
  }

  // ---- The code ----

  lemma HeadersStep(lines: seq<string>, i: nat)
    requires i < |lines|
    ensures Headers(lines[..i + 1]) == Headers(lines[..i]) + (if IsHeader(lines[i]) then [lines[i]] else [])
  {
    assert lines[..i + 1][..i] == lines[..i];
  }

  lemma DistinctSnoc(s: seq<string>, x: string)
    ensures Distinct(s + [x]) == if x in Distinct(s) then Distinct(s) else Distinct(s) + [x]
  {
    assert (s + [x])[..|s|] == s;
  }

  lemma DistinctHeadersStep(before: seq<string>, lines: seq<string>, i: nat)
    requires i < |lines|
    ensures var known := Distinct(before + Headers(lines[..i]));
            Distinct(before + Headers(lines[..i + 1]))
            == if IsHeader(lines[i]) && lines[i] !in known then known + [lines[i]] else known
  {
    HeadersStep(lines, i);
    var all := before + Headers(lines[..i]);
    if IsHeader(lines[i]) {
      DistinctSnoc(all, lines[i]);
      assert before + (Headers(lines[..i]) + [lines[i]]) == all + [lines[i]];
    } else {
      assert before + (Headers(lines[..i]) + []) == all;
    }
  }

  method CollectHeaders(contents: string, sofar: seq<string>, ghost before: seq<string>) returns (extra: seq<string>)
    requires sofar == Distinct(before)
    ensures extra == Distinct(before + Headers(Lines(contents)))
  {
    extra := sofar;
    var lines := Lines(contents);
    var i := 0;
    assert before + Headers(lines[..0]) == before;
    while i < |lines|
      invariant 0 <= i <= |lines|
      invariant extra == Distinct(before + Headers(lines[..i]))
    {
      DistinctHeadersStep(before, lines, i);
      if HEADER <= Trim(lines[i]) {
        if lines[i] !in extra {
          extra := extra + [lines[i]];
        }
      }
      i := i + 1;
    }
    assert lines[..i] == lines;
  }

  lemma RebuildStep(source: seq<string>, i: nat)
    requires i < |source|
    ensures Map(Rename, source[..i + 1]) == Map(Rename, source[..i]) + [Rename(source[i])]
    ensures AfterLastHeader(source[..i + 1]) == if IsHeader(source[i]) then i + 1 else AfterLastHeader(source[..i])
  {
    assert source[..i + 1][..i] == source[..i];
    assert source[..i + 1] == source[..i] + [source[i]];
    MapAppend(Rename, source[..i], [source[i]]);
    assert Map(Rename, [source[i]]) == [Rename(source[i])];
  }

  /** Rebuilds the base, remembering where its last header line is. */
  method RebuildBase(base: string) returns (lines: seq<string>, afterLastHeader: nat)
    ensures lines == Map(Rename, Lines(base))
    ensures afterLastHeader == AfterLastHeader(Lines(base))
  {
    var source := Lines(base);
    lines, afterLastHeader := [], 0;
    var i := 0;
    while i < |source|
      invariant 0 <= i <= |source|
      invariant lines == Map(Rename, source[..i])
      invariant afterLastHeader == AfterLastHeader(source[..i])
    {
      RebuildStep(source, i);
      if MODULE <= source[i] {
        ModuleLineIsNoHeader(source[i]);
        lines := lines + [RENAMED];
      } else {
        if HEADER <= Trim(source[i]) {
          afterLastHeader := |lines| + 1;
        }
        lines := lines + [source[i]];
      }
      i := i + 1;
    }
    assert source[..i] == source;
  }

  lemma ContentsStep(dir: seq<Entry>, i: nat)
    requires i < |dir|
    ensures Contents(dir[..i + 1]) == Contents(dir[..i]) + (if IsModulemap(dir[i]) then [dir[i].contents] else [])
  {
    assert dir[..i + 1][..i] == dir[..i];
  }

  lemma HeadersOfFilesSnoc(files: seq<string>, file: string)
    ensures HeadersOfFiles(files + [file]) == HeadersOfFiles(files) + Headers(Lines(file))
  {
    assert (files + [file])[..|files|] == files;
  }

  /** One more file: as the base it gives no headers. */
  lemma HeadersAfterBase(files: seq<string>, file: string)
    ensures HeadersOfFiles((files + [file])[1..])
            == if files == [] then [] else HeadersOfFiles(files[1..]) + Headers(Lines(file))
  {
    if files != [] {
      assert (files + [file])[1..] == files[1..] + [file];
      HeadersOfFilesSnoc(files[1..], file);
    }
  }

  /** The loop over the directory: the first modulemap file is the base, the others give their headers. */
  method ReadDirectory(dir: seq<Entry>) returns (base: Option<string>, extra: seq<string>)
    ensures base == if Contents(dir) == [] then None else Some(Contents(dir)[0])
    ensures base.Some? ==> extra == Distinct(HeadersOfFiles(Contents(dir)[1..]))
  {
    base, extra := None, [];
    ghost var files := [];
    var i := 0;
    while i < |dir|
      invariant 0 <= i <= |dir| && files == Contents(dir[..i])
      invariant base == if files == [] then None else Some(files[0])
      invariant extra == if files == [] then [] else Distinct(HeadersOfFiles(files[1..]))
    {
      ContentsStep(dir, i);
      if IsModulemap(dir[i]) {
        HeadersAfterBase(files, dir[i].contents);
        if base == None {
          base := Some(dir[i].contents);
        } else {
          extra := CollectHeaders(dir[i].contents, extra, HeadersOfFiles(files[1..]));
        }
        files := files + [dir[i].contents];
      }
      i := i + 1;
    }
    assert dir[..i] == dir;
  }

  /** `None` stands for the panic when there is no modulemap file. */
  method ConsolidateModulemapFiles(dir: seq<Entry>) returns (text: Option<string>)
    ensures text == if Contents(dir) == [] then None else Some(Join(Consolidated(Contents(dir))))
  {
    var base, extra := ReadDirectory(dir);
    if base == None {
      return None;
    }
    var lines, n := RebuildBase(base.value);
    if n > 0 {
      lines := lines[..n] + extra + lines[n..];
    } else {
      assert Splice(lines, 0, []) == lines;
    }
    text := Some(Join(lines));
  }

  // ---- What the result means ----

  lemma TrimKeepsStart(line: string)
    requires line != "" && !IsWhitespace(line[0])
    ensures Trim(line) != "" && Trim(line)[0] == line[0]
  {
    TrimEndKeepsStart(line);
  }

  lemma {:induction false} TrimEndKeepsStart(line: string)
    requires line != "" && !IsWhitespace(line[0])
    ensures TrimEnd(line) != "" && TrimEnd(line)[0] == line[0]
  {
    if IsWhitespace(line[|line| - 1]) {
      TrimEndKeepsStart(line[..|line| - 1]);
    }
  }

  lemma ModuleLineIsNoHeader(line: string)
    requires IsModuleLine(line)
    ensures !IsHeader(line) && !IsHeader(RENAMED)
  {
    assert line[0] == 'm' && RENAMED[0] == 'm' && HEADER[0] == 'h';
    TrimKeepsStart(line);
    TrimKeepsStart(RENAMED);
  }

  lemma RenameKeepsHeader(line: string)
    ensures IsHeader(Rename(line)) <==> IsHeader(line)
  {
    if IsModuleLine(line) {
      ModuleLineIsNoHeader(line);
    }
  }

  // The spliced block

  predicate NoRepeats(s: seq<string>) {
    forall i, j :: 0 <= i < j < |s| ==> s[i] != s[j]
  }

  function FirstIndex(s: seq<string>, x: string): (n: nat)
    requires x in s
    ensures n < |s| && s[n] == x && forall i :: 0 <= i < n ==> s[i] != x
  {
    if s[0] == x then 0 else 1 + FirstIndex(s[1..], x)
  }

  /** `Distinct` has the same elements, none twice, in the order in which they first appear. */
  lemma {:induction false} DistinctIsFirstOccurrences(s: seq<string>)
    ensures NoRepeats(Distinct(s))
    ensures forall x :: x in Distinct(s) <==> x in s
    ensures forall i, j :: 0 <= i < j < |Distinct(s)| ==> FirstIndex(s, Distinct(s)[i]) < FirstIndex(s, Distinct(s)[j])
  {
    if s != [] {
      var shorter, last := s[..|s| - 1], s[|s| - 1];
      DistinctIsFirstOccurrences(shorter);
      assert s == shorter + [last];
      var d := Distinct(s);
      forall i, j | 0 <= i < j < |d| ensures FirstIndex(s, d[i]) < FirstIndex(s, d[j]) {
        FirstIndexInPrefix(shorter, last, d[i]);
        if d[j] in shorter {
          FirstIndexInPrefix(shorter, last, d[j]);
        }
      }
    }
  }

  lemma FirstIndexInPrefix(s: seq<string>, last: string, x: string)
    requires x in s
    ensures FirstIndex(s + [last], x) == FirstIndex(s, x)
  {
    var n, m := FirstIndex(s, x), FirstIndex(s + [last], x);
    assert (s + [last])[n] == x;
    assert m < |s| ==> s[m] == (s + [last])[m];
  }

  /** Taking the block out again leaves the base, line by line, with its module lines renamed. */
  lemma WithoutBlockIsBase(files: seq<string>)
    requires files != []
    ensures var base, out := Lines(files[0]), Consolidated(files);
            var n, k := AfterLastHeader(base), |Block(files)|;
            && |out| == |base| + k && out[n..n + k] == Block(files)
            && out[..n] + out[n + k..] == Map(Rename, base)
  {
    SpliceOut(Map(Rename, Lines(files[0])), AfterLastHeader(Lines(files[0])), Block(files));
  }

  lemma SpliceOut(lines: seq<string>, n: nat, block: seq<string>)
    requires n <= |lines|
    ensures var out := Splice(lines, n, block);
            && |out| == |lines| + |block| && out[n..n + |block|] == block
            && out[..n] + out[n + |block|..] == lines
  {
    var out := Splice(lines, n, block);
    assert out[..n] == lines[..n] && out[n + |block|..] == lines[n..];
  }

  // Which headers survive

  function HeaderSet(lines: seq<string>): set<string> {
    set l | l in lines && IsHeader(l)
  }

  predicate HasHeader(file: string) { AfterLastHeader(Lines(file)) > 0 }

  function AllHeaders(files: seq<string>): set<string> {
    set f, l | f in files && l in Lines(f) && IsHeader(l) :: l
  }

  lemma {:induction false} HeadersAreHeaders(lines: seq<string>)
    ensures forall l :: l in Headers(lines) <==> l in HeaderSet(lines)
  {
    if lines != [] {
      HeadersAreHeaders(lines[..|lines| - 1]);
      assert lines == lines[..|lines| - 1] + [lines[|lines| - 1]];
    }
  }

  lemma {:induction false} HeadersOfFilesAreAll(files: seq<string>)
    ensures forall l :: l in HeadersOfFiles(files) <==> l in AllHeaders(files)
  {
    if files != [] {
      var front, last := files[..|files| - 1], files[|files| - 1];
      HeadersOfFilesAreAll(front);
      HeadersAreHeaders(Lines(last));
      assert files == front + [last];
      assert AllHeaders(files) == AllHeaders(front) + HeaderSet(Lines(last));
    }
  }

  lemma RenamedHeaderSet(lines: seq<string>)
    ensures HeaderSet(Map(Rename, lines)) == HeaderSet(lines)
  {
    var renamed := Map(Rename, lines);
    forall l ensures l in HeaderSet(renamed) <==> l in HeaderSet(lines) {
      if l in HeaderSet(renamed) {
        var i :| 0 <= i < |renamed| && renamed[i] == l;
        RenameKeepsHeader(lines[i]);
        if IsModuleLine(lines[i]) {
          ModuleLineIsNoHeader(lines[i]);
        }
        assert lines[i] == l;
      }
      if l in HeaderSet(lines) {
        var i :| 0 <= i < |lines| && lines[i] == l;
        if IsModuleLine(lines[i]) {
          ModuleLineIsNoHeader(lines[i]);
        }
        assert renamed[i] == l;
      }
    }
  }

  lemma HeaderSetOfSplice(lines: seq<string>, n: nat, block: seq<string>)
    requires n <= |lines|
    ensures HeaderSet(Splice(lines, n, block)) == HeaderSet(lines) + HeaderSet(block)
  {
    assert lines == lines[..n] + lines[n..];
  }

  lemma BlockHeaders(files: seq<string>)
    requires files != [] && HasHeader(files[0])
    ensures HeaderSet(Block(files)) == AllHeaders(files[1..])
  {
    DistinctIsFirstOccurrences(HeadersOfFiles(files[1..]));
    HeadersOfFilesAreAll(files[1..]);
  }

  lemma AllHeadersSplit(files: seq<string>)
    requires files != []
    ensures AllHeaders(files) == HeaderSet(Lines(files[0])) + AllHeaders(files[1..])
  {
    assert files == [files[0]] + files[1..];
  }

  /** All headers of all files end up in the result, unless the base has none of its own: then none do. */
  lemma SurvivingHeaders(files: seq<string>)
    requires files != []
    ensures HeaderSet(Consolidated(files)) == if HasHeader(files[0]) then AllHeaders(files) else {}
  {
    var lines := Lines(files[0]);
    RenamedHeaderSet(lines);
    HeaderSetOfSplice(Map(Rename, lines), AfterLastHeader(lines), Block(files));
    if HasHeader(files[0]) {
      BlockHeaders(files);
      AllHeadersSplit(files);
    } else {
      assert HeaderSet(lines) == {};
    }
  }

  /** The headers of the result do not depend on the order in which the directory lists its files. */
  ghost predicate OrderIrrelevant(files: seq<string>)
    requires files != []
  {
    forall p: seq<string> :: multiset(p) == multiset(files) && p != [] ==>
      HeaderSet(Consolidated(p)) == HeaderSet(Consolidated(files))
  }

  lemma AllHeadersOfReordered(files: seq<string>, p: seq<string>)
    requires multiset(p) == multiset(files)
    ensures AllHeaders(p) == AllHeaders(files)
    ensures forall f :: f in p <==> f in files
  {
    assert forall f :: f in p <==> f in multiset(p);
    assert forall f :: f in files <==> f in multiset(files);
  }

  function ToFront(files: seq<string>, i: nat): seq<string>
    requires i < |files|
  {
    [files[i]] + files[..i] + files[i + 1..]
  }

  lemma ToFrontReorders(files: seq<string>, i: nat)
    requires i < |files|
    ensures multiset(ToFront(files, i)) == multiset(files)
  {
    assert files == files[..i] + [files[i]] + files[i + 1..];
  }

  /** The order is irrelevant exactly when every file has a header line, or none has. */
  lemma OrderIrrelevantIff(files: seq<string>)
    requires files != []
    ensures OrderIrrelevant(files)
            <==> (forall f :: f in files ==> HasHeader(f)) || (forall f :: f in files ==> !HasHeader(f))
  {
    if (forall f :: f in files ==> HasHeader(f)) || (forall f :: f in files ==> !HasHeader(f)) {
      forall p: seq<string> | multiset(p) == multiset(files) && p != []
        ensures HeaderSet(Consolidated(p)) == HeaderSet(Consolidated(files))
      {
        AllHeadersOfReordered(files, p);
        SurvivingHeaders(p);
        SurvivingHeaders(files);
        assert p[0] in files && files[0] in files;
      }
    } else {
      MixedFilesDependOnOrder(files);
    }
  }

  lemma MixedFilesDependOnOrder(files: seq<string>)
    requires exists f :: f in files && HasHeader(f)
    requires exists f :: f in files && !HasHeader(f)
    ensures !OrderIrrelevant(files)
  {
    var with :| with in files && HasHeader(with);
    var without :| without in files && !HasHeader(without);
    var i :| 0 <= i < |files| && files[i] == with;
    var j :| 0 <= j < |files| && files[j] == without;
    FrontDecides(files, i);
    FrontDecides(files, j);
    Disagreement(files, ToFront(files, i), ToFront(files, j));
  }

  lemma Disagreement(files: seq<string>, p: seq<string>, q: seq<string>)
    requires files != [] && p != [] && q != []
    requires multiset(p) == multiset(files) && multiset(q) == multiset(files)
    requires HeaderSet(Consolidated(p)) != HeaderSet(Consolidated(q))
    ensures !OrderIrrelevant(files)
  {}

  /** With file `i` first, headers survive exactly if that file has one. */
  lemma FrontDecides(files: seq<string>, i: nat)
    requires i < |files|
    ensures multiset(ToFront(files, i)) == multiset(files)
    ensures HeaderSet(Consolidated(ToFront(files, i))) != {} <==> HasHeader(files[i])
  {
    var p := ToFront(files, i);
    ToFrontReorders(files, i);
    SurvivingHeaders(p);
    if HasHeader(files[i]) {
      var lines := Lines(p[0]);
      AllHeadersSplit(p);
      assert lines[AfterLastHeader(lines) - 1] in HeaderSet(lines);
    }
  }

  /** A file without a header line beside one with: which is listed first decides what survives. */
  lemma HeaderLostToOrder()
    ensures HeaderSet(Consolidated(["header a", "b"])) == {"header a"}
    ensures HeaderSet(Consolidated(["b", "header a"])) == {}
  {
    OnlyLine("header a");
    OnlyLine("b");
    FirstFileDecides("header a", "b");
  }

  lemma FirstFileDecides(header: string, plain: string)
    requires Lines(header) == [header] && IsHeader(header) && Lines(plain) == [plain] && !IsHeader(plain)
    ensures HeaderSet(Consolidated([header, plain])) == {header}
    ensures HeaderSet(Consolidated([plain, header])) == {}
  {
    SurvivingHeaders([header, plain]);
    SurvivingHeaders([plain, header]);
    assert AllHeaders([header, plain]) == {header};
  }

  lemma OnlyLine(line: string)
    requires line == "header a" || line == "b"
    ensures Lines(line) == [line] && (IsHeader(line) <==> line == "header a")
  {
    assert Trim(line) == line;
    assert NewlineAt(line) == |line|;
  }

  // Running it again

  /** A line as the output has it: no newline inside, and not to be renamed again. */
  predicate Settled(line: string) { OneLine(line) && Rename(line) == line }

  predicate AllSettled(lines: seq<string>) { forall i :: 0 <= i < |lines| ==> Settled(lines[i]) }

  lemma RenamedIsSettled(text: string)
    ensures AllSettled(Map(Rename, Lines(text)))
  {
    LinesAreLines(text);
    assert OneLine(RENAMED) && IsModuleLine(RENAMED);
  }

  lemma BlockIsSettled(files: seq<string>)
    requires files != []
    ensures AllSettled(Block(files))
  {
    var block := Block(files);
    DistinctIsFirstOccurrences(HeadersOfFiles(files[1..]));
    HeadersOfFilesAreAll(files[1..]);
    forall i | 0 <= i < |block| ensures Settled(block[i]) {
      assert block[i] in AllHeaders(files[1..]);
      var f :| f in files[1..] && block[i] in Lines(f) && IsHeader(block[i]);
      LinesAreLines(f);
      if IsModuleLine(block[i]) {
        ModuleLineIsNoHeader(block[i]);
      }
    }
  }

  lemma ConsolidatedIsSettled(files: seq<string>)
    requires files != []
    ensures AllSettled(Consolidated(files))
  {
    RenamedIsSettled(files[0]);
    BlockIsSettled(files);
  }

  lemma StripKeepsRenamed(line: string)
    requires Rename(line) == line
    ensures Rename(StripCr(line)) == StripCr(line)
  {
    if IsModuleLine(StripCr(line)) {
      assert line[..|MODULE|] == StripCr(line)[..|MODULE|];
      assert IsModuleLine(line);
      assert line == RENAMED && !EndsInCr(RENAMED);
    }
  }

  lemma {:induction false} StrippedIsRenamed(lines: seq<string>)
    requires AllSettled(lines)
    ensures Map(Rename, Map(StripCr, lines)) == Map(StripCr, lines)
  {
    var stripped := Map(StripCr, lines);
    forall i | 0 <= i < |lines| ensures Rename(stripped[i]) == stripped[i] {
      StripKeepsRenamed(lines[i]);
    }
  }

  /** A single file is only renamed. */
  lemma ConsolidatedAlone(text: string)
    ensures Consolidated([text]) == Map(Rename, Lines(text))
  {
    assert [text][1..] == [];
    assert Block([text]) == [];
    SpliceNothing(Map(Rename, Lines(text)), AfterLastHeader(Lines(text)));
  }

  lemma SpliceNothing(lines: seq<string>, n: nat)
    requires n <= |lines|
    ensures Splice(lines, n, []) == lines
  {}

  /** What a second run over its own output writes. */
  lemma SecondRun(files: seq<string>)
    requires files != [] && Consolidated(files) != []
    ensures Consolidated([Join(Consolidated(files))]) == Map(StripCr, Consolidated(files))
  {
    var out := Consolidated(files);
    ConsolidatedIsSettled(files);
    LinesOfJoin(out);
    StrippedIsRenamed(out);
    ConsolidatedAlone(Join(out));
  }

  /**
    Consolidating the output again changes nothing, exactly when no carriage return
    reaches it: in the first file only lines that are renamed end in one, and, if the
    others' headers are put in, none of those does. (Reading a line back strips one.)
   */
  lemma IdempotentIff(files: seq<string>)
    requires files != []
    ensures Join(Consolidated([Join(Consolidated(files))])) == Join(Consolidated(files))
            <==> && (forall line :: line in Lines(files[0]) && EndsInCr(line) ==> IsModuleLine(line))
                 && (AfterLastHeader(Lines(files[0])) > 0 ==>
                       forall line :: line in HeadersOfFiles(files[1..]) ==> !EndsInCr(line))
  {
    OutputEndsInCrIff(files);
    RepeatChangesNothingIff(files);
  }

  lemma RepeatChangesNothingIff(files: seq<string>)
    requires files != []
    ensures Join(Consolidated([Join(Consolidated(files))])) == Join(Consolidated(files))
            <==> forall i :: 0 <= i < |Consolidated(files)| ==> !EndsInCr(Consolidated(files)[i])
  {
    var out := Consolidated(files);
    if out == [] {
      EmptyOutput();
    } else {
      SecondRun(files);
      ConsolidatedIsSettled(files);
      StrippedIsSameIff(out);
      if Join(Map(StripCr, out)) == Join(out) {
        JoinInjective(Map(StripCr, out), out);
      }
    }
  }

  predicate NoneEndsInCr(lines: seq<string>) { forall line :: line in lines ==> !EndsInCr(line) }

  lemma SpliceEndsInCrIff(lines: seq<string>, n: nat, block: seq<string>)
    requires n <= |lines|
    ensures NoneEndsInCr(Splice(lines, n, block)) <==> NoneEndsInCr(lines) && NoneEndsInCr(block)
  {
    assert lines == lines[..n] + lines[n..];
    forall line ensures line in Splice(lines, n, block) <==> line in lines || line in block {}
  }

  lemma RenamedEndsInCrIff(lines: seq<string>)
    ensures NoneEndsInCr(Map(Rename, lines)) <==> forall line :: line in lines && EndsInCr(line) ==> IsModuleLine(line)
  {
    var renamed := Map(Rename, lines);
    assert !EndsInCr(RENAMED);
    if NoneEndsInCr(renamed) {
      forall line | line in lines && EndsInCr(line) ensures IsModuleLine(line) {
        var i :| 0 <= i < |lines| && lines[i] == line;
        assert renamed[i] in renamed;
      }
    }
    if forall line :: line in lines && EndsInCr(line) ==> IsModuleLine(line) {
      forall line | line in renamed ensures !EndsInCr(line) {
        var i :| 0 <= i < |renamed| && renamed[i] == line;
        assert lines[i] in lines;
      }
    }
  }

  lemma OutputEndsInCrIff(files: seq<string>)
    requires files != []
    ensures (forall i :: 0 <= i < |Consolidated(files)| ==> !EndsInCr(Consolidated(files)[i]))
            <==> && (forall line :: line in Lines(files[0]) && EndsInCr(line) ==> IsModuleLine(line))
                 && (AfterLastHeader(Lines(files[0])) > 0 ==> NoneEndsInCr(HeadersOfFiles(files[1..])))
  {
    var base, out := Lines(files[0]), Consolidated(files);
    SpliceEndsInCrIff(Map(Rename, base), AfterLastHeader(base), Block(files));
    RenamedEndsInCrIff(base);
    DistinctIsFirstOccurrences(HeadersOfFiles(files[1..]));
    assert NoneEndsInCr(out) <==> forall i :: 0 <= i < |out| ==> !EndsInCr(out[i]);
  }

  lemma {:induction false} StrippedIsSameIff(lines: seq<string>)
    ensures Map(StripCr, lines) == lines <==> forall i :: 0 <= i < |lines| ==> !EndsInCr(lines[i])
  {
    var stripped := Map(StripCr, lines);
    forall i | 0 <= i < |lines| ensures stripped[i] == lines[i] <==> !EndsInCr(lines[i]) {
      assert stripped[i] == StripCr(lines[i]);
    }
  }

  lemma EmptyOutput()
    ensures Join(Consolidated([Join([])])) == Join([])
  {
    var text := "\n";
    FirstLine("", "");
    assert "" + "\n" + "" == text;
    assert Lines(text) == [""];
    assert TrimStart("") == "" && TrimEnd("") == "";
    assert !IsHeader("") && !IsModuleLine("");
    assert [""][..0] == [];
    assert Map(Rename, [""]) == [""];
    assert Join([""]) == text;
  }

  /** Such an input exists: `\r\r\n` line ends survive the first run as `\r\n` and the second as `\n`. */
  lemma CarriageReturnsAreNotIdempotent()
    ensures Join(Consolidated(["a\r\r\n"])) == "a\r\n"
    ensures Join(Consolidated(["a\r\n"])) == "a\n"
  {
    FirstRunKeepsOne();
    SecondRunKeepsNone();
  }

  lemma FirstRunKeepsOne()
    ensures Join(Consolidated(["a\r\r\n"])) == "a\r\n"
  {
    PlainLine("a\r\r\n", "a\r\r");
    assert StripCr("a\r\r") == "a\r";
  }

  lemma SecondRunKeepsNone()
    ensures Join(Consolidated(["a\r\n"])) == "a\n"
  {
    PlainLine("a\r\n", "a\r");
    assert StripCr("a\r") == "a";
  }

  lemma PlainLine(text: string, line: string)
    requires text == line + "\n" && OneLine(line)
    requires line == "a\r\r" || line == "a\r"
    ensures Join(Consolidated([text])) == StripCr(line) + "\n"
  {
    FirstLine(line, "");
    assert text == line + "\n" + "";
    var l := StripCr(line);
    assert Lines(text) == [l] && l[0] == 'a';
    TrimKeepsStart(l);
    assert !IsHeader(l) && !IsModuleLine(l);
    assert [l][..0] == [];
    assert Map(Rename, [l]) == [l];
  }
}
