/** How a trip guide's text is shown behind the e-mail gate
    (src/components/TripGuide/EmailGatedTripGuide.tsx): the five quick
    facts read from it, its sections, and the gate's submission state. */
module GuideParser {
  import opened Js
  import opened ExpertSelection

  // ------------------------------------------------------------------ lines

  /** `content.split('\n').map(l => l.trim()).filter(Boolean)`. */
  function Lines(content: string): (lines: seq<string>)
    ensures forall line :: line in lines ==> line != [] && Trim(line) == line
  {
    TrimmedNonEmpty(Split(content, '\n'))
  }

  /** Each part trimmed, the empty ones dropped, the order kept. */
  function TrimmedNonEmpty(parts: seq<string>): (lines: seq<string>)
    ensures |lines| <= |parts|
    ensures forall line :: line in lines ==> line != [] && Trim(line) == line
    ensures |parts| == 1 ==> lines == if Trim(parts[0]) == [] then [] else [Trim(parts[0])]
  {
    if parts == [] then []
    else
      var t := Trim(parts[0]);
      var rest := TrimmedNonEmpty(parts[1..]);
      if t == [] then rest
      else
        TrimIdempotent(parts[0]);
        [t] + rest
  }

  /** The lines of a list of parts are those of its pieces, in order: each
      part is kept or dropped on its own. */
  lemma {:induction false} TrimmedNonEmptyConcat(a: seq<string>, b: seq<string>)
    ensures TrimmedNonEmpty(a + b) == TrimmedNonEmpty(a) + TrimmedNonEmpty(b)
    decreases |a|
  {
    if a == [] {
      assert a + b == b;
    } else {
      assert (a + b)[0] == a[0] && (a + b)[1..] == a[1..] + b;
      TrimmedNonEmptyConcat(a[1..], b);
    }
  }

  /** The lines of a text made of lines joined by line feeds are those
      lines, trimmed, with the blank ones dropped. */
  lemma LinesOfJoin(parts: seq<string>)
    requires parts != [] && forall i :: 0 <= i < |parts| ==> '\n' !in parts[i]
    ensures Lines(Join(parts, "\n")) == TrimmedNonEmpty(parts)
  {
    SplitJoin(parts, '\n');
  }

  // ------------------------------------------------------------------ facts

  /** The five quick facts, in the order they are looked for. */
  datatype FactKey = TripType | TripLength | Season | Group | Style

  const FactKeys: seq<FactKey> := [TripType, TripLength, Season, Group, Style]

  /** The words each fact pattern opens with: `^Trip\s*Type[:\s]+(.+)`,
      `^Trip\s*Length…`, `^Season…`, `^Group…`, `^Style…`, all with the `i`
      flag. */
  function Words(k: FactKey): seq<string> {
    match k
    case TripType => ["trip", "type"]
    case TripLength => ["trip", "length"]
    case Season => ["season"]
    case Group => ["group"]
    case Style => ["style"]
  }

  /** `line` has `word` at `i`, letters compared as the `i` flag compares
      them without the `u` flag (only ASCII letters fold). */
  predicate WordAt(line: string, i: nat, word: string) {
    i + |word| <= |line| && forall k :: 0 <= k < |word| ==> SameIgnoringCase(line[i + k], word[k])
  }

  /** The end of the run of `\s` characters that starts at `i`. */
  function SkipSpaces(line: string, i: nat): (j: nat)
    requires i <= |line|
    ensures i <= j <= |line|
    ensures forall k :: i <= k < j ==> IsSpace(line[k])
    ensures j == |line| || !IsSpace(line[j])
    decreases |line| - i
  {
    if i < |line| && IsSpace(line[i]) then SkipSpaces(line, i + 1) else i
  }

  /** `w1\s*w2…` matched at `i`, and where that match ends. Each word
      starts with a letter, which `\s` never matches, so `\s*` can only
      take the whole run of whitespace. */
  function WordsAt(line: string, i: nat, words: seq<string>): (r: Option<nat>)
    requires i <= |line|
    ensures r.Some? ==> i <= r.value <= |line|
    ensures r.Some? && words != [] ==> WordAt(line, i, words[0])
    decreases |words|
  {
    if words == [] then Some(i)
    else if !WordAt(line, i, words[0]) then None
    else if |words| == 1 then Some(i + |words[0]|)
    else WordsAt(line, SkipSpaces(line, i + |words[0]|), words[1..])
  }

  /** The class `[:\s]`. */
  predicate IsColonOrSpace(c: char) { c == ':' || IsSpace(c) }

  /** The end of the run of `[:\s]` characters that starts at `i`. */
  function RunEnd(line: string, i: nat): (j: nat)
    requires i <= |line|
    ensures i <= j <= |line|
    ensures forall k :: i <= k < j ==> IsColonOrSpace(line[k])
    ensures j == |line| || !IsColonOrSpace(line[j])
    decreases |line| - i
  {
    if i < |line| && IsColonOrSpace(line[i]) then RunEnd(line, i + 1) else i
  }

  /** Where `(.+)` starts when `[:\s]+` has taken `line[p..j]` and gives
      back only as much as it must: the last position in `(p, j]` holding a
      character that `.` matches (any but a line terminator). */
  function CaptureStart(line: string, p: nat, j: nat): (q: Option<nat>)
    requires p < j <= |line|
    ensures q.Some? ==> p < q.value <= j && q.value < |line| && !IsLineTerminator(line[q.value])
    ensures q.Some? ==> forall k :: q.value < k <= j && k < |line| ==> IsLineTerminator(line[k])
    ensures q.None? ==> forall k :: p < k <= j && k < |line| ==> IsLineTerminator(line[k])
    decreases j
  {
    if j < |line| && !IsLineTerminator(line[j]) then Some(j)
    else if j - 1 > p then CaptureStart(line, p, j - 1)
    else None
  }

  /** The first line terminator at or after `q`, or the end. */
  function LineEnd(line: string, q: nat): (e: nat)
    requires q <= |line|
    ensures q <= e <= |line|
    ensures forall k :: q <= k < e ==> !IsLineTerminator(line[k])
    ensures e == |line| || IsLineTerminator(line[e])
    decreases |line| - q
  {
    if q < |line| && !IsLineTerminator(line[q]) then LineEnd(line, q + 1) else q
  }

  /** `line.match(re)?.[1]` for a fact pattern: the words at the start, a
      non-empty run of `[:\s]`, then the longest run of characters `.`
      matches. */
  function Capture(line: string, words: seq<string>): (c: Option<string>)
    ensures c.Some? ==> c.value != [] && forall k :: 0 <= k < |c.value| ==> !IsLineTerminator(c.value[k])
  {
    match WordsAt(line, 0, words)
    case None => None
    case Some(p) =>
      var j := RunEnd(line, p);
      if j == p then None
      else
        match CaptureStart(line, p, j)
        case None => None
        case Some(q) => Some(line[q..LineEnd(line, q)])
  }

  /** On a trimmed line a capture never trims to nothing: it starts either
      after the whole `[:\s]` run, at a character outside it, or at the
      line's last character, which is then a ':'. */
  lemma CaptureOfTrimmedLine(line: string, words: seq<string>)
    requires line != [] && Trim(line) == line
    requires Capture(line, words).Some?
    ensures Trim(Capture(line, words).value) != []
  {
    var p := WordsAt(line, 0, words).value;
    var j := RunEnd(line, p);
    var q := CaptureStart(line, p, j).value;
    var c := Capture(line, words).value;
    assert c[0] == line[q];
    assert !IsSpace(line[|line| - 1]);
    if q < j && q < |line| - 1 {
      assert false;
    }
    if q < j && j < |line| {
      assert false;
    }
    assert !IsSpace(c[0]);
    var a :| TrimmedAt(c, Trim(c), a);
  }

  /** One line read for one key: a match is stored, trimmed, unless the key
      already holds a truthy (non-empty) text. */
  function Step(before: Option<string>, c: Option<string>): Option<string> {
    if c.Some? && !(before.Some? && before.value != []) then Some(Trim(c.value)) else before
  }

  /** `facts[key]` once the given lines have been read by the loop. */
  function FactAfter(lines: seq<string>, words: seq<string>): Option<string>
    decreases |lines|
  {
    if lines == [] then None
    else Step(FactAfter(lines[..|lines| - 1], words), Capture(lines[|lines| - 1], words))
  }

  /** Line `i` is the first that matches. */
  predicate FirstMatchAt(lines: seq<string>, words: seq<string>, i: int) {
    && 0 <= i < |lines| && Capture(lines[i], words).Some?
    && forall k :: 0 <= k < i ==> Capture(lines[k], words).None?
  }

  /** A first match among the earlier lines stays first with one more line. */
  lemma FirstMatchExtends(lines: seq<string>, words: seq<string>, i: int)
    requires lines != [] && FirstMatchAt(lines[..|lines| - 1], words, i)
    ensures FirstMatchAt(lines, words, i) && lines[i] == lines[..|lines| - 1][i]
  {
    var init := lines[..|lines| - 1];
    forall k | 0 <= k < i ensures Capture(lines[k], words).None? {
      assert init[k] == lines[k];
    }
  }

  /** The trimmed capture of the first line that matches its pattern. */
  function FirstCapture(lines: seq<string>, words: seq<string>): (r: Option<string>)
    ensures r.None? <==> forall i :: 0 <= i < |lines| ==> Capture(lines[i], words).None?
    ensures r.Some? ==> exists i :: FirstMatchAt(lines, words, i) && r.value == Trim(Capture(lines[i], words).value)
    decreases |lines|
  {
    if lines == [] then None
    else
      var init := lines[..|lines| - 1];
      var r := FirstCapture(init, words);
      if r.Some? then
        var i :| FirstMatchAt(init, words, i) && r.value == Trim(Capture(init[i], words).value);
        FirstMatchExtends(lines, words, i);
        r
      else
        assert forall i :: 0 <= i < |init| ==> init[i] == lines[i];
        match Capture(lines[|lines| - 1], words)
        case Some(c) =>
          assert FirstMatchAt(lines, words, |lines| - 1);
          Some(Trim(c))
        case None => None
  }

  /** Each fact is the trimmed capture of the first line that matches its
      pattern: later matches never overwrite it, since on trimmed lines no
      capture trims to the empty text. */
  lemma {:induction false} FirstMatchWins(lines: seq<string>, words: seq<string>)
    requires forall i :: 0 <= i < |lines| ==> lines[i] != [] && Trim(lines[i]) == lines[i]
    ensures FactAfter(lines, words) == FirstCapture(lines, words)
    ensures FactAfter(lines, words).Some? ==> FactAfter(lines, words).value != []
    decreases |lines|
  {
    if lines != [] {
      var init := lines[..|lines| - 1];
      FirstMatchWins(init, words);
      var last := lines[|lines| - 1];
      if Capture(last, words).Some? {
        CaptureOfTrimmedLine(last, words);
      }
    }
  }

  /** `facts[key]`, `None` when unset. */
  function Lookup(facts: map<FactKey, string>, k: FactKey): Option<string> {
    if k in facts then Some(facts[k]) else None
  }

  function KeyIndex(k: FactKey): (i: nat)
    ensures i < |FactKeys| && FactKeys[i] == k
  {
    match k
    case TripType => 0
    case TripLength => 1
    case Season => 2
    case Group => 3
    case Style => 4
  }

  /** The fact-reading loops: every line, every pattern. */
  method ParseFacts(lines: seq<string>) returns (facts: map<FactKey, string>)
    ensures forall k :: Lookup(facts, k) == FactAfter(lines, Words(k))
  {
    facts := map[];
    for n := 0 to |lines|
      invariant forall k :: Lookup(facts, k) == FactAfter(lines[..n], Words(k))
    {
      assert lines[..n + 1][..n] == lines[..n];
      facts := ScanLine(facts, lines[n]);
    }
    assert lines[..|lines|] == lines;
  }

  /** One pass of the inner loop: each pattern tried on the line, in turn. */
  method ScanLine(before: map<FactKey, string>, line: string) returns (facts: map<FactKey, string>)
    ensures forall k :: Lookup(facts, k) == Step(Lookup(before, k), Capture(line, Words(k)))
  {
    facts := before;
    for t := 0 to |FactKeys|
      invariant forall k :: Lookup(facts, k) ==
                  if KeyIndex(k) < t then Step(Lookup(before, k), Capture(line, Words(k))) else Lookup(before, k)
    {
      var key := FactKeys[t];
      assert KeyIndex(key) == t;
      var m := Capture(line, Words(key));
      if m.Some? && !(key in facts && facts[key] != []) {
        facts := facts[key := Trim(m.value)];
      }
    }
  }

  // --------------------------------------------------------------- sections

  /** `ParsedSection`. */
  datatype Section = Section(key: string, title: string, body: string)

  const KnownHeaders: seq<string> := [
    "\U{1F304} Why This Route Works",
    "\U{2708}\U{FE0F} Travel Snapshot",
    "\U{1F697} Recommended Transportation",
    "\U{1F9F3} What to Book Now",
    "\U{1F97E} Outdoor Activities to Prioritize",
    "\U{1F3DB}\U{FE0F} Top Cultural Experiences",
    "\U{1F9E0} Things You Maybe Haven't Thought Of",
    "\U{1F9ED} The Approach: Flexible Itinerary Flow"]

  /** `Adventure\s*Idea\s*\d` matched at `i` (the optional emoji before and
      the optional ':' or '.' after change nothing for `test`). */
  predicate IdeaAt(line: string, i: nat) {
    i <= |line| &&
    match WordsAt(line, i, ["adventure", "idea"])
    case None => false
    case Some(e) => SkipSpaces(line, e) < |line| && IsDigit(line[SkipSpaces(line, e)])
  }

  /** `IdeaAt` somewhere at or after `i`. */
  predicate IdeaFrom(line: string, i: nat)
    decreases |line| - i
  {
    i < |line| && (IdeaAt(line, i) || IdeaFrom(line, i + 1))
  }

  /** `headers.some(h => line.startsWith(h))`. */
  predicate StartsWithAny(line: string, headers: seq<string>) {
    headers != [] && (StartsWith(line, headers[0]) || StartsWithAny(line, headers[1..]))
  }

  /** Whether a line opens a section: for multi-idea guides the pattern
      anywhere in the line, for any other flow one of the known headers at
      its start. */
  predicate IsHeader(flowType: string, line: string) {
    if flowType == InspireMe then IdeaFrom(line, 0) else StartsWithAny(line, KnownHeaders)
  }

  /** The first header line at or after `from`, or the end. */
  function NextHeader(flowType: string, lines: seq<string>, from: nat): (h: nat)
    requires from <= |lines|
    ensures from <= h <= |lines|
    decreases |lines| - from
  {
    if from == |lines| || IsHeader(flowType, lines[from]) then from else NextHeader(flowType, lines, from + 1)
  }

  /** The next header is a header, and no line before it is one. */
  lemma {:induction false} NextHeaderIsNext(flowType: string, lines: seq<string>, from: nat)
    requires from <= |lines|
    ensures var h := NextHeader(flowType, lines, from);
            && (forall k :: from <= k < h ==> !IsHeader(flowType, lines[k]))
            && (h < |lines| ==> IsHeader(flowType, lines[h]))
    decreases |lines| - from
  {
    if from < |lines| && !IsHeader(flowType, lines[from]) {
      NextHeaderIsNext(flowType, lines, from + 1);
    }
  }

  /** The section a header at `h` opens: its title, its key, and the lines
      up to the next header joined by '\n' and trimmed. */
  function SectionAt(flowType: string, lines: seq<string>, h: nat): Section
    requires h < |lines|
  {
    var e := NextHeader(flowType, lines, h + 1);
    Section(Slug(lines[h]), lines[h], Trim(Join(lines[h + 1..e], "\n")))
  }

  /** Every section is keyed by the slug of its title and has a trimmed
      body. */
  predicate WellKeyed(sections: seq<Section>) {
    sections != [] ==>
      && sections[0].key == Slug(sections[0].title)
      && Trim(sections[0].body) == sections[0].body
      && WellKeyed(sections[1..])
  }

  /** The sections from header position `h` on. */
  function SectionsFrom(flowType: string, lines: seq<string>, h: nat): seq<Section>
    requires h <= |lines|
    decreases |lines| - h
  {
    if h == |lines| then []
    else
      [SectionAt(flowType, lines, h)] + SectionsFrom(flowType, lines, NextHeader(flowType, lines, h + 1))
  }

  /** All sections: lines before the first header belong to none. */
  function Sections(flowType: string, lines: seq<string>): seq<Section> {
    SectionsFrom(flowType, lines, NextHeader(flowType, lines, 0))
  }

  /** The header lines, in order. */
  function HeaderLines(flowType: string, lines: seq<string>): (hs: seq<string>)
    ensures |hs| <= |lines|
  {
    if lines == [] then []
    else (if IsHeader(flowType, lines[0]) then [lines[0]] else []) + HeaderLines(flowType, lines[1..])
  }

  function Titles(sections: seq<Section>): seq<string> {
    if sections == [] then [] else [sections[0].title] + Titles(sections[1..])
  }

  /** Non-header lines contribute no header. */
  lemma {:induction false} NoHeadersBetween(flowType: string, lines: seq<string>, from: nat)
    requires from <= |lines|
    ensures HeaderLines(flowType, lines[from..]) == HeaderLines(flowType, lines[NextHeader(flowType, lines, from)..])
    decreases |lines| - from
  {
    if from < |lines| && !IsHeader(flowType, lines[from]) {
      assert lines[from..][1..] == lines[from + 1..];
      NoHeadersBetween(flowType, lines, from + 1);
    }
  }

  /** Exactly one section per header line, in order, titled by it. */
  lemma {:induction false} OneSectionPerHeader(flowType: string, lines: seq<string>, h: nat)
    requires h <= |lines|
    ensures Titles(SectionsFrom(flowType, lines, NextHeader(flowType, lines, h))) == HeaderLines(flowType, lines[h..])
    decreases |lines| - h
  {
    var n := NextHeader(flowType, lines, h);
    NoHeadersBetween(flowType, lines, h);
    NextHeaderIsNext(flowType, lines, h);
    if n < |lines| {
      OneSectionPerHeader(flowType, lines, n + 1);
      HeaderLinesAtHeader(flowType, lines, n);
      TitlesAtHeader(flowType, lines, n);
    } else {
      assert lines[n..] == [];
      assert SectionsFrom(flowType, lines, n) == [];
    }
  }

  /** A header line heads the header lines from it on. */
  lemma HeaderLinesAtHeader(flowType: string, lines: seq<string>, n: nat)
    requires n < |lines| && IsHeader(flowType, lines[n])
    ensures HeaderLines(flowType, lines[n..]) == [lines[n]] + HeaderLines(flowType, lines[n + 1..])
  {
    assert lines[n..][1..] == lines[n + 1..];
  }

  /** A header line titles the first of the sections from it on. */
  lemma TitlesAtHeader(flowType: string, lines: seq<string>, n: nat)
    requires n < |lines|
    ensures Titles(SectionsFrom(flowType, lines, n)) ==
              [lines[n]] + Titles(SectionsFrom(flowType, lines, NextHeader(flowType, lines, n + 1)))
  {
    var rest := SectionsFrom(flowType, lines, NextHeader(flowType, lines, n + 1));
    var first := SectionAt(flowType, lines, n);
    assert SectionsFrom(flowType, lines, n) == [first] + rest;
    assert ([first] + rest)[1..] == rest;
  }

  lemma SectionsFollowHeaders(flowType: string, lines: seq<string>)
    ensures Titles(Sections(flowType, lines)) == HeaderLines(flowType, lines)
  {
    OneSectionPerHeader(flowType, lines, 0);
    assert lines[0..] == lines;
  }

  /** A section opened at line `h` is titled by that line, keyed by its
      slug, and has a trimmed body. */
  lemma SectionAtKeyed(flowType: string, lines: seq<string>, h: nat)
    requires h < |lines|
    ensures var s := SectionAt(flowType, lines, h);
            s.title == lines[h] && s.key == Slug(s.title) && Trim(s.body) == s.body
  {
    var e := NextHeader(flowType, lines, h + 1);
    TrimIdempotent(Join(lines[h + 1..e], "\n"));
  }

  /** From any position there are no more sections than lines left, each
      keyed by the slug of its title and with a trimmed body. */
  lemma {:induction false} SectionsFromKeyed(flowType: string, lines: seq<string>, h: nat)
    requires h <= |lines|
    ensures |SectionsFrom(flowType, lines, h)| <= |lines| - h
    ensures WellKeyed(SectionsFrom(flowType, lines, h))
    decreases |lines| - h
  {
    if h < |lines| {
      var first := SectionAt(flowType, lines, h);
      var rest := SectionsFrom(flowType, lines, NextHeader(flowType, lines, h + 1));
      var all := SectionsFrom(flowType, lines, h);
      assert all == [first] + rest;
      SectionAtKeyed(flowType, lines, h);
      SectionsFromKeyed(flowType, lines, NextHeader(flowType, lines, h + 1));
      assert all[1..] == rest;
    }
  }

  /** The guide has no more sections than lines, each keyed by the slug of
      its title and with a trimmed body. */
  lemma SectionsKeyed(flowType: string, lines: seq<string>)
    ensures |Sections(flowType, lines)| <= |lines|
    ensures WellKeyed(Sections(flowType, lines))
  {
    SectionsFromKeyed(flowType, lines, NextHeader(flowType, lines, 0));
  }

  /** The section-building loop of both flows: a header line opens a
      section, and the loop moves on past it. */
  method ParseSections(flowType: string, lines: seq<string>) returns (sections: seq<Section>)
    ensures sections == Sections(flowType, lines)
  {
    sections := [];
    var i := 0;
    while i < |lines|
      invariant 0 <= i <= |lines|
      invariant sections + SectionsFrom(flowType, lines, NextHeader(flowType, lines, i)) == Sections(flowType, lines)
      decreases |lines| - i
    {
      if IsHeader(flowType, lines[i]) {
        var section, next := ReadSection(flowType, lines, i);
        AppendAssoc(sections, [section], SectionsFrom(flowType, lines, next));
        sections := sections + [section];
        i := next;
        continue;
      }
      i := i + 1;
    }
  }

  lemma AppendAssoc<T>(a: seq<T>, b: seq<T>, c: seq<T>)
    ensures a + b + c == a + (b + c)
  {
  }

  /** The section a header line opens: its key and title, then the inner
      loop over the lines up to the next header. */
  method ReadSection(flowType: string, lines: seq<string>, i: nat) returns (section: Section, next: nat)
    requires i < |lines| && IsHeader(flowType, lines[i])
    ensures i < next <= |lines| && NextHeader(flowType, lines, next) == next
    ensures NextHeader(flowType, lines, i) == i
    ensures SectionsFrom(flowType, lines, i) == [section] + SectionsFrom(flowType, lines, next)
  {
    var title := lines[i];
    var key := Slug(title);
    var bodyLines := [];
    next := i + 1;
    while next < |lines| && !IsHeader(flowType, lines[next])
      invariant i < next <= |lines|
      invariant bodyLines == lines[i + 1..next]
      invariant NextHeader(flowType, lines, i + 1) == NextHeader(flowType, lines, next)
      decreases |lines| - next
    {
      bodyLines := bodyLines + [lines[next]];
      next := next + 1;
    }
    section := Section(key, title, Trim(Join(bodyLines, "\n")));
  }

  // ------------------------------------------------------------------- keys

  /** The characters of `s` in `[a-z0-9]`, in order. */
  function Alnums(s: string): (r: string)
    ensures forall i :: 0 <= i < |r| ==> IsLowerAlnum(r[i])
  {
    if s == [] then [] else (if IsLowerAlnum(s[0]) then [s[0]] else []) + Alnums(s[1..])
  }

  /** `s` without its leading run of characters outside `[a-z0-9]`. */
  function SkipRun(s: string): (r: string)
    ensures |r| <= |s| && (r == [] || IsLowerAlnum(r[0]))
    ensures Alnums(r) == Alnums(s)
  {
    if s != [] && !IsLowerAlnum(s[0]) then SkipRun(s[1..]) else s
  }

  /** What is left is a suffix, and everything skipped is outside
      `[a-z0-9]`. */
  lemma {:induction false} SkipRunSuffix(s: string)
    ensures var r := SkipRun(s);
            r == s[|s| - |r|..] && forall i :: 0 <= i < |s| - |r| ==> !IsLowerAlnum(s[i])
    decreases |s|
  {
    if s != [] && !IsLowerAlnum(s[0]) {
      SkipRunSuffix(s[1..]);
      var r := SkipRun(s[1..]);
      assert SkipRun(s) == r;
      assert s[1..][|s| - 1 - |r|..] == s[|s| - |r|..];
      forall i | 0 <= i < |s| - |r| ensures !IsLowerAlnum(s[i]) {
        if i > 0 {
          assert s[i] == s[1..][i - 1];
        }
      }
    }
  }

  /** `s.replace(/[^a-z0-9]+/gi, '-')` on lower-cased text: each maximal run
      of other characters becomes a single '-'. */
  function Squash(s: string): (r: string)
    ensures forall i :: 0 <= i < |r| ==> IsLowerAlnum(r[i]) || r[i] == '-'
    ensures forall i :: 0 <= i < |r| - 1 ==> !(r[i] == '-' && r[i + 1] == '-')
    ensures s != [] ==> r != [] && (IsLowerAlnum(r[0]) <==> IsLowerAlnum(s[0]))
    ensures r == [] <==> s == []
    ensures Alnums(r) == Alnums(s)
    ensures |s| == 1 && IsLowerAlnum(s[0]) ==> r == s
    decreases |s|
  {
    if s == [] then []
    else if IsLowerAlnum(s[0]) then
      var rest := Squash(s[1..]);
      assert Alnums(s) == [s[0]] + Alnums(s[1..]);
      [s[0]] + rest
    else
      var rest := Squash(SkipRun(s[1..]));
      assert Alnums("-" + rest) == Alnums(rest);
      assert Alnums(s) == Alnums(s[1..]);
      "-" + rest
  }

  /** Skipping a run across two texts: the run ends in the first text when
      it holds a letter or digit, and goes on into the second otherwise. */
  lemma {:induction false} SkipRunAppend(x: string, y: string)
    ensures SkipRun(x + y) == if SkipRun(x) != [] then SkipRun(x) + y else SkipRun(y)
    decreases |x|
  {
    if x == [] {
      assert x + y == y;
    } else if !IsLowerAlnum(x[0]) {
      assert (x + y)[0] == x[0] && (x + y)[1..] == x[1..] + y;
      SkipRunAppend(x[1..], y);
    } else {
      assert (x + y)[0] == x[0];
    }
  }

  /** A non-empty run with no letter or digit becomes one '-'. */
  lemma SquashSeparators(s: string)
    requires s != [] && forall i :: 0 <= i < |s| ==> !IsLowerAlnum(s[i])
    ensures Squash(s) == "-"
  {
    SkipRunSuffix(s[1..]);
    assert SkipRun(s[1..]) == [];
  }

  /** Two texts may be squashed apart when no run of separators spans the
      point where they meet. */
  predicate MeetAtLetter(a: string, b: string) {
    a == [] || b == [] || IsLowerAlnum(a[|a| - 1]) || IsLowerAlnum(b[0])
  }

  /** Squashing works piece by piece between letters and digits: with
      `SquashSeparators` and single letters left alone, this fixes where
      every '-' goes. */
  lemma {:induction false} SquashConcat(a: string, b: string)
    requires MeetAtLetter(a, b)
    ensures Squash(a + b) == Squash(a) + Squash(b)
    decreases |a|, 1
  {
    if a == [] {
      assert a + b == b;
    } else if b == [] {
      assert a + b == a;
    } else if IsLowerAlnum(a[0]) {
      SquashConcatAtLetter(a, b);
    } else {
      SquashConcatAtRun(a, b);
    }
  }

  lemma ConsAssoc(c: string, x: string, y: string)
    ensures c + (x + y) == (c + x) + y
  {
  }

  /** `SquashConcat` when `a` starts with a letter or digit, which is kept. */
  lemma {:induction false} SquashConcatAtLetter(a: string, b: string)
    requires a != [] && b != [] && IsLowerAlnum(a[0]) && MeetAtLetter(a, b)
    ensures Squash(a + b) == Squash(a) + Squash(b)
    decreases |a|, 0
  {
    assert (a + b)[0] == a[0] && (a + b)[1..] == a[1..] + b;
    assert Squash(a + b) == [a[0]] + Squash(a[1..] + b);
    assert Squash(a) == [a[0]] + Squash(a[1..]);
    assert MeetAtLetter(a[1..], b) by {
      if a[1..] != [] {
        assert a[1..][|a| - 2] == a[|a| - 1];
      }
    }
    SquashConcat(a[1..], b);
    ConsAssoc([a[0]], Squash(a[1..]), Squash(b));
  }

  /** `SquashConcat` when `a` starts with a run of separators, which
      becomes one '-'. */
  lemma {:induction false} SquashConcatAtRun(a: string, b: string)
    requires a != [] && b != [] && !IsLowerAlnum(a[0]) && MeetAtLetter(a, b)
    ensures Squash(a + b) == Squash(a) + Squash(b)
    decreases |a|, 0
  {
    assert (a + b)[0] == a[0] && (a + b)[1..] == a[1..] + b;
    var r := SkipRun(a[1..]);
    SkipRunSuffix(a[1..]);
    assert Squash(a + b) == "-" + Squash(SkipRun(a[1..] + b));
    assert Squash(a) == "-" + Squash(r);
    SkipRunAppend(a[1..], b);
    if r != [] {
      assert r[|r| - 1] == a[|a| - 1] by {
        assert r == a[1..][|a| - 1 - |r|..];
      }
      SquashConcat(r, b);
      ConsAssoc("-", Squash(r), Squash(b));
    } else {
      assert !IsLowerAlnum(a[|a| - 1]) by {
        if |a| > 1 {
          assert a[1..][|a| - 2] == a[|a| - 1];
        }
      }
      assert SkipRun(b) == b;
      assert Squash(r) == [] && Squash(a) == "-";
    }
  }

  /** A section key: `title.toLowerCase().replace(/[^a-z0-9]+/gi, '-')`.
      It keeps every letter and digit of the lower-cased title, in order. */
  function Slug(title: string): (key: string)
    ensures forall i :: 0 <= i < |key| ==> IsLowerAlnum(key[i]) || key[i] == '-'
    ensures forall i :: 0 <= i < |key| - 1 ==> !(key[i] == '-' && key[i + 1] == '-')
    ensures Alnums(key) == Alnums(ToLower(title))
    ensures |key| <= |title|
  {
    SquashShorter(ToLower(title));
    Squash(ToLower(title))
  }

  /** Titles joined where a letter or digit meets the join have the slugs
      of their pieces joined. */
  lemma SlugConcat(a: string, b: string)
    requires MeetAtLetter(ToLower(a), ToLower(b))
    ensures Slug(a + b) == Slug(a) + Slug(b)
  {
    var la, lb := ToLower(a), ToLower(b);
    assert ToLower(a + b) == la + lb by {
      assert forall i :: 0 <= i < |a + b| ==> ToLower(a + b)[i] == (la + lb)[i];
    }
    SquashConcat(la, lb);
  }

  /** A title with no ASCII letter or digit at all has the key "-". */
  lemma SlugOfSeparators(title: string)
    requires title != [] && forall i :: 0 <= i < |title| ==> !IsLowerAlnum(LowerChar(title[i]))
    ensures Slug(title) == "-"
  {
    SquashSeparators(ToLower(title));
  }

  /** A one-character title that is an ASCII letter or digit is its own key,
      lower-cased. */
  lemma SlugOfLetter(c: char)
    requires IsLowerAlnum(LowerChar(c))
    ensures Slug([c]) == [LowerChar(c)]
  {
    assert ToLower([c]) == [LowerChar(c)];
  }

  lemma {:induction false} SquashShorter(s: string)
    ensures |Squash(s)| <= |s|
    decreases |s|
  {
    if s != [] {
      if IsLowerAlnum(s[0]) {
        SquashShorter(s[1..]);
      } else {
        SquashShorter(SkipRun(s[1..]));
      }
    }
  }

  // ------------------------------------------------------------------ guide

  /** The `useMemo` parser: lines, then facts, then sections. */
  method ParseGuide(content: string, flowType: string) returns (facts: map<FactKey, string>, sections: seq<Section>)
    ensures forall k :: Lookup(facts, k) == FirstCapture(Lines(content), Words(k))
    ensures forall k :: k in facts ==> facts[k] != []
    ensures sections == Sections(flowType, Lines(content))
  {
    var lines := Lines(content);
    assert forall i :: 0 <= i < |lines| ==> lines[i] != [] && Trim(lines[i]) == lines[i] by {
      forall i | 0 <= i < |lines| ensures lines[i] != [] && Trim(lines[i]) == lines[i] {
        assert lines[i] in lines;
      }
    }
    facts := ParseFacts(lines);
    forall k ensures Lookup(facts, k) == FirstCapture(lines, Words(k)) && (k in facts ==> facts[k] != []) {
      FirstMatchWins(lines, Words(k));
    }
    sections := ParseSections(flowType, lines);
  }

  // -------------------------------------------------------------- the gate

  const FailedSubmission := "Failed to submit email"
  const UnexpectedSubmission := "An unexpected error occurred"

  /** The session key that remembers a submission for one guide. */
  function StorageKey(guideId: string): string {
    "tripguide-email-submitted-" + guideId
  }

  /** The session remembers a submission for this guide. */
  predicate Remembered(storage: map<string, string>, guideId: string) {
    StorageKey(guideId) in storage && storage[StorageKey(guideId)] == "true"
  }

  /** What `fetch` then `response.json()` gave: the response's `ok` flag and
      its parsed body, or what either of them threw. */
  type Reply = Result<(bool, Json), Thrown>

  /** The reply counts as a submission: `response.ok` and a truthy
      `result.success`. */
  predicate Accepted(reply: Reply) {
    reply.Ok? && reply.value.0 && reply.value.1 != JNull && Truthy(Get(reply.value.1, "success"))
  }

  /** The message of the `TypeError` thrown when a property of `null` is
      read, in the wording of the V8 engine. */
  function NullRead(property: string): string {
    "Cannot read properties of null (reading '" + property + "')"
  }

  /** What the `try` block throws for a reply that is not accepted: an
      `Error` carrying `result.error`, or a fixed text when that is falsy;
      reading a property of a `null` body throws a `TypeError` first. */
  function Rejection(reply: Reply): (t: Thrown)
    requires !Accepted(reply)
    ensures reply.Err? ==> t == reply.error
    ensures reply.Ok? && reply.value.1 == JNull ==>
              t == ErrorValue("TypeError", NullRead(if reply.value.0 then "success" else "error"))
    ensures reply.Ok? && reply.value.1 != JNull ==>
              var e := Get(reply.value.1, "error");
              t == Error(if Truthy(e) then Render(e.value) else FailedSubmission)
  {
    match reply
    case Err(t) => t
    case Ok((ok, result)) =>
      if result == JNull then
        ErrorValue("TypeError", NullRead(if ok then "success" else "error"))
      else
        var e := Get(result, "error");
        Error(if Truthy(e) then Render(e.value) else FailedSubmission)
  }

  /** The message the `catch` block shows. */
  function Shown(t: Thrown): (m: string)
    ensures t.ErrorValue? ==> m == t.message
    ensures t.OtherValue? ==> m == UnexpectedSubmission
  {
    MessageOr(t, UnexpectedSubmission)
  }

  /** The e-mail gate of one trip guide: its state, and the session storage
      it shares with later visits. */
  class EmailGate {
    const guideId: string
    var emailSubmitted: bool
    var isSubmitting: bool
    var error: Option<string>
    var storage: map<string, string>

    /** The gate is open whenever the session remembers a submission. A
        first render need not satisfy it; the mount effect establishes it and
        every handler keeps it. */
    predicate Valid()
      reads this
    {
      Remembered(storage, guideId) ==> emailSubmitted
    }

    /** A first render: closed, idle, no error. */
    constructor(guideId: string, storage: map<string, string>)
      ensures this.guideId == guideId && this.storage == storage
      ensures !emailSubmitted && !isSubmitting && error.None?
    {
      this.guideId := guideId;
      this.storage := storage;
      emailSubmitted := false;
      isSubmitting := false;
      error := None;
    }

    /** The mount effect: a submission remembered for this guide opens it. */
    method Restore()
      modifies this
      ensures emailSubmitted == (old(emailSubmitted) || Remembered(storage, guideId))
      ensures Valid()
      ensures storage == old(storage) && isSubmitting == old(isSubmitting) && error == old(error)
    {
      var key := StorageKey(guideId);
      if key in storage && storage[key] == "true" {
        emailSubmitted := true;
      }
    }

    /** The synchronous start of `handleEmailSubmit`. */
    method BeginSubmit()
      modifies this
      ensures isSubmitting && error.None?
      ensures emailSubmitted == old(emailSubmitted) && storage == old(storage)
      ensures old(Valid()) ==> Valid()
    {
      isSubmitting := true;
      error := None;
    }

    /** The rest of it, once the request has settled. An accepted reply
        writes the session key and opens the gate before the caller's
        callback runs; whatever the callback then throws is shown, but the
        gate stays open. Any other reply leaves the gate and the storage as
        they were and shows why. */
    method FinishSubmit(reply: Reply, callback: Option<Thrown>)
      requires isSubmitting
      modifies this
      ensures !isSubmitting
      ensures Accepted(reply) ==>
                && emailSubmitted
                && storage == old(storage)[StorageKey(guideId) := "true"]
                && error == (if callback.Some? then Some(Shown(callback.value)) else old(error))
      ensures !Accepted(reply) ==>
                && emailSubmitted == old(emailSubmitted) && storage == old(storage)
                && error == Some(Shown(Rejection(reply)))
      ensures old(Valid()) ==> Valid()
    {
      if Accepted(reply) {
        var key := StorageKey(guideId);
        storage := storage[key := "true"];
        emailSubmitted := true;
        if callback.Some? {
          error := Some(Shown(callback.value));
        }
      } else {
        error := Some(Shown(Rejection(reply)));
      }
      isSubmitting := false;
    }

    /** `handleEmailSubmit` as a whole: the error of an earlier attempt is
        always cleared, the gate opens exactly on an accepted reply (or
        stays open), and the gate is idle at the end. */
    method HandleEmailSubmit(reply: Reply, callback: Option<Thrown>)
      modifies this
      ensures !isSubmitting
      ensures emailSubmitted == (old(emailSubmitted) || Accepted(reply))
      ensures storage == if Accepted(reply) then old(storage)[StorageKey(guideId) := "true"] else old(storage)
      ensures error == if Accepted(reply) then (if callback.Some? then Some(Shown(callback.value)) else None)
                       else Some(Shown(Rejection(reply)))
      ensures Accepted(reply) ==> Remembered(storage, guideId)
      ensures old(Valid()) ==> Valid()
    {
      BeginSubmit();
      FinishSubmit(reply, callback);
    }
  }

  /** A submission is remembered: a later visit with the same session opens
      the gate on mount, with no new submission. */
  method RevisitAfterSubmit(gate: EmailGate, reply: Reply, callback: Option<Thrown>) returns (later: EmailGate)
    requires Accepted(reply)
    modifies gate
    ensures gate.emailSubmitted && gate.Valid()
    ensures later.emailSubmitted && later.guideId == gate.guideId && later.storage == gate.storage
    ensures later.Valid()
  {
    gate.HandleEmailSubmit(reply, callback);
    later := new EmailGate(gate.guideId, gate.storage);
    later.Restore();
  }
}
