/**
 * Cutting a summary into messages of bounded length: whole sections while they fit, whole lines of a section
 * that does not, and pieces of a line that is too long by itself.
 */
module Chunker {
  import opened Common

  const SECTION_BREAK := "\n\n"
  const LINE_BREAK := "\n"

  // ------------------------------------------------------------ split and join

  /** The first position at which `sep` occurs. */
  function FirstAt(s: string, sep: string): (k: Option<nat>)
    ensures k.Some? ==> k.value + |sep| <= |s| && sep <= s[k.value..]
  {
    if sep <= s then Some(0)
    else if s == "" then None
    else
      match FirstAt(s[1..], sep)
      case None => None
      case Some(k) => Some(k + 1)
  }

  predicate OccursAt(sep: string, s: string, i: nat) {
    i <= |s| && sep <= s[i..]
  }

  lemma {:induction false} FirstAtSound(s: string, sep: string)
    ensures match FirstAt(s, sep)
            case Some(k) => OccursAt(sep, s, k) && forall i: nat | i < k :: !OccursAt(sep, s, i)
            case None => forall i: nat :: !OccursAt(sep, s, i)
  {
    assert s[0..] == s;
    if !(sep <= s) && s != "" {
      FirstAtSound(s[1..], sep);
      forall i: nat
        ensures i > 0 ==> (OccursAt(sep, s, i) <==> OccursAt(sep, s[1..], i - 1))
      {
        if 0 < i <= |s| {
          assert s[1..][i - 1..] == s[i..];
        }
      }
    }
  }

  /** `str.split` with a non-empty separator: cut at each occurrence, leftmost first. */
  function Split(s: string, sep: string): (parts: seq<string>)
    requires sep != ""
    ensures parts != []
    decreases |s|
  {
    match FirstAt(s, sep)
    case None => [s]
    case Some(k) => [s[..k]] + Split(s[k + |sep|..], sep)
  }

  /** `sep.join`. */
  function Join(parts: seq<string>, sep: string): string {
    if parts == [] then ""
    else if |parts| == 1 then parts[0]
    else Join(parts[..|parts| - 1], sep) + sep + parts[|parts| - 1]
  }

  lemma {:induction false} JoinFront(first: string, parts: seq<string>, sep: string)
    requires parts != []
    ensures Join([first] + parts, sep) == first + sep + Join(parts, sep)
    decreases |parts|
  {
    var whole := [first] + parts;
    if |parts| == 1 {
      assert whole[..1] == [first];
    } else {
      var rest, last := parts[..|parts| - 1], parts[|parts| - 1];
      JoinFront(first, rest, sep);
      assert whole[..|whole| - 1] == [first] + rest;
      assert first + sep + Join(rest, sep) + sep + last == first + sep + (Join(rest, sep) + sep + last);
    }
  }

  /** Joining what was split gives the text back. */
  lemma {:induction false} JoinSplit(s: string, sep: string)
    requires sep != ""
    ensures Join(Split(s, sep), sep) == s
    decreases |s|
  {
    if FirstAt(s, sep).Some? {
      var k := FirstAt(s, sep).value;
      CutAt(s, k, sep);
      JoinSplit(s[k + |sep|..], sep);
      JoinFront(s[..k], Split(s[k + |sep|..], sep), sep);
      hide FirstAt, Join;
    }
  }

  lemma CutAt(s: string, k: nat, sep: string)
    requires k + |sep| <= |s| && sep <= s[k..]
    ensures s == s[..k] + sep + s[k + |sep|..]
  {
    assert s[k..][..|sep|] == sep;
  }

  /** No part contains the separator. */
  lemma {:induction false} SplitParts(s: string, sep: string)
    requires sep != ""
    ensures forall part, i: nat | part in Split(s, sep) :: !OccursAt(sep, part, i)
    decreases |s|
  {
    FirstAtSound(s, sep);
    if FirstAt(s, sep).Some? {
      var k := FirstAt(s, sep).value;
      SplitParts(s[k + |sep|..], sep);
      hide OccursAt, FirstAt;
      forall i: nat
        ensures !OccursAt(sep, s[..k], i)
      {
        if OccursAt(sep, s[..k], i) {
          OccursInPrefix(sep, s, k, i);
        }
      }
    }
  }

  lemma OccursInPrefix(sep: string, s: string, k: nat, i: nat)
    requires k <= |s| && sep != "" && OccursAt(sep, s[..k], i)
    ensures OccursAt(sep, s, i) && i < k
  {
    var n := |sep|;
    assert i + n <= k;
    forall j | 0 <= j < n
      ensures sep[j] == s[i..][j]
    {
      assert sep[j] == s[..k][i..][j] == s[i + j];
    }
  }

  lemma JoinMore(parts: seq<string>, last: string, sep: string)
    ensures Join(parts + [last], sep) == if parts == [] then last else Join(parts, sep) + sep + last
  {
    assert (parts + [last])[..|parts|] == parts;
  }

  // ------------------------------------------------------------ what a chunking keeps

  /** The chunks one after the other, each behind the separator that was cut before it. */
  function Weave(chunks: seq<string>, seps: seq<string>): string
    requires |chunks| == |seps|
  {
    if chunks == [] then ""
    else
      var n := |chunks| - 1;
      Weave(chunks[..n], seps[..n]) + seps[n] + chunks[n]
  }

  /** Nothing is lost but the separators at the cuts: none inside a line, a line break or a section break. */
  ghost predicate Reassembles(text: string, chunks: seq<string>) {
    exists seps: seq<string> :: IsWeaveOf(text, chunks, seps)
  }

  ghost predicate IsWeaveOf(text: string, chunks: seq<string>, seps: seq<string>) {
    && |seps| == |chunks|
    && (forall sep | sep in seps :: sep in {"", LINE_BREAK, SECTION_BREAK})
    && (chunks != [] ==> seps[0] == "")
    && Weave(chunks, seps) == text
  }

  function Stripped(s: string): string {
    if s == "" then "" else (if s[0] == '\n' then "" else [s[0]]) + Stripped(s[1..])
  }

  function Concat(chunks: seq<string>): string {
    if chunks == [] then "" else Concat(chunks[..|chunks| - 1]) + chunks[|chunks| - 1]
  }

  lemma {:induction false} StrippedConcat(a: string, b: string)
    ensures Stripped(a + b) == Stripped(a) + Stripped(b)
  {
    if a == "" {
      assert a + b == b;
    } else {
      var rest := a[1..] + b;
      StrippedConcat(a[1..], b);
      assert (a + b)[1..] == rest && (a + b)[0] == a[0];
      var head := if a[0] == '\n' then "" else [a[0]];
      assert Stripped(a + b) == head + Stripped(rest);
      assert head + (Stripped(a[1..]) + Stripped(b)) == (head + Stripped(a[1..])) + Stripped(b);
    }
  }

  /** So, newlines apart, the chunks hold the text. */
  lemma {:induction false} ReassembledStripped(text: string, chunks: seq<string>, seps: seq<string>)
    requires IsWeaveOf(text, chunks, seps)
    ensures Stripped(Concat(chunks)) == Stripped(text)
    decreases |chunks|
  {
    if chunks != [] {
      var n := |chunks| - 1;
      var before := Weave(chunks[..n], seps[..n]);
      assert forall sep | sep in seps[..n] :: sep in seps;
      ReassembledStripped(before, chunks[..n], seps[..n]);
      StrippedConcat(before, seps[n]);
      StrippedConcat(before + seps[n], chunks[n]);
      StrippedConcat(Concat(chunks[..n]), chunks[n]);
      assert seps[n] in seps;
      BreaksAreNewlines();
    }
  }

  lemma BreaksAreNewlines()
    ensures Stripped("") == Stripped(LINE_BREAK) == Stripped(SECTION_BREAK) == ""
  {
    assert LINE_BREAK[1..] == "" && SECTION_BREAK[1..] == LINE_BREAK;
  }

  /** The section, or line, is one of those that the chunk is joined from. */
  ghost predicate HoldsWhole(chunk: string, part: string, glue: string) {
    exists parts: seq<string> :: part in parts && chunk == Join(parts, glue)
  }

  /** It is already whole in a chunk, or among those being gathered. */
  ghost predicate Kept(part: string, chunks: seq<string>, gathered: seq<string>, glue: string) {
    part in gathered || exists c | c in chunks :: HoldsWhole(c, part, glue)
  }

  ghost predicate AllKept(parts: seq<string>, limit: nat, chunks: seq<string>, gathered: seq<string>, glue: string) {
    forall s | s in parts && |s| <= limit :: Kept(s, chunks, gathered, glue)
  }

  /** The lines, where they fit, of the sections that do not. */
  ghost predicate LinesKept(sections: seq<string>, limit: nat, chunks: seq<string>) {
    forall s | s in sections && |s| > limit :: AllKept(Split(s, LINE_BREAK), limit, chunks, [], LINE_BREAK)
  }

  lemma KeptByFlush(parts: seq<string>, limit: nat, chunks: seq<string>, gathered: seq<string>, glue: string)
    requires AllKept(parts, limit, chunks, gathered, glue)
    ensures AllKept(parts, limit, chunks + [Join(gathered, glue)], [], glue)
  {
    var chunk := Join(gathered, glue);
    forall s | s in parts && |s| <= limit
      ensures Kept(s, chunks + [chunk], [], glue)
    {
      assert Kept(s, chunks, gathered, glue);
      if s in gathered {
        assert HoldsWhole(chunk, s, glue) && chunk in chunks + [chunk];
      } else {
        var c :| c in chunks && HoldsWhole(c, s, glue);
        assert c in chunks + [chunk];
      }
    }
  }

  lemma KeptByMore(parts: seq<string>, limit: nat, chunks: seq<string>, more: seq<string>, gathered: seq<string>,
                   glue: string)
    requires AllKept(parts, limit, chunks, gathered, glue) && chunks <= more
    ensures AllKept(parts, limit, more, gathered, glue)
  {
    assert forall c | c in chunks :: c in more;
    forall s | s in parts && |s| <= limit
      ensures Kept(s, more, gathered, glue)
    {
      assert Kept(s, chunks, gathered, glue);
    }
  }

  lemma KeptByGather(parts: seq<string>, part: string, limit: nat, chunks: seq<string>, gathered: seq<string>, glue: string)
    requires AllKept(parts, limit, chunks, gathered, glue)
    ensures AllKept(parts + [part], limit, chunks, gathered + [part], glue)
  {
    forall s | s in parts + [part] && |s| <= limit
      ensures Kept(s, chunks, gathered + [part], glue)
    {
      assert s != part ==> s in parts && Kept(s, chunks, gathered, glue);
    }
  }

  lemma KeptByLong(parts: seq<string>, part: string, limit: nat, chunks: seq<string>, gathered: seq<string>, glue: string)
    requires AllKept(parts, limit, chunks, gathered, glue) && |part| > limit
    ensures AllKept(parts + [part], limit, chunks, gathered, glue)
  {
  }

  /** Gathering what is left of a part that was cut does not count for it. */
  lemma KeptByRest(parts: seq<string>, limit: nat, chunks: seq<string>, gathered: seq<string>, rest: string, glue: string)
    requires AllKept(parts, limit, chunks, gathered, glue)
    ensures AllKept(parts, limit, chunks, gathered + [rest], glue)
  {
    forall s | s in parts && |s| <= limit
      ensures Kept(s, chunks, gathered + [rest], glue)
    {
      assert Kept(s, chunks, gathered, glue);
    }
  }

  lemma LinesKeptByMore(sections: seq<string>, limit: nat, chunks: seq<string>, more: seq<string>)
    requires LinesKept(sections, limit, chunks) && chunks <= more
    ensures LinesKept(sections, limit, more)
  {
    hide AllKept;
    forall s | s in sections && |s| > limit
      ensures AllKept(Split(s, LINE_BREAK), limit, more, [], LINE_BREAK)
    {
      KeptByMore(Split(s, LINE_BREAK), limit, chunks, more, [], LINE_BREAK);
    }
  }

  lemma LinesKeptBySection(sections: seq<string>, section: string, limit: nat, chunks: seq<string>)
    requires LinesKept(sections, limit, chunks)
    requires |section| > limit ==> AllKept(Split(section, LINE_BREAK), limit, chunks, [], LINE_BREAK)
    ensures LinesKept(sections + [section], limit, chunks)
  {
    hide AllKept;
  }

  /** A part that fits is gathered, unless it would not fit behind what is gathered, which then becomes a chunk. */
  ghost predicate Packs(before: seq<string>, gathered: seq<string>, part: string, glue: string, limit: nat,
                        chunks: seq<string>, now: seq<string>) {
    || (chunks == before && now == gathered + [part])
    || (gathered != [] && |Join(gathered, glue)| + |glue| + |part| > limit
        && chunks == before + [Join(gathered, glue)] && now == [part])
  }

  /** From this chunk on, no two neighbours would fit together. */
  ghost predicate Tight(chunks: seq<string>, start: nat, glue: string, limit: nat) {
    forall i | start <= i < |chunks| - 1 :: |chunks[i]| + |glue| + |chunks[i + 1]| > limit
  }

  /** Nor would the last one with what is gathered. */
  ghost predicate TightSoFar(chunks: seq<string>, start: nat, gathered: seq<string>, glue: string, limit: nat) {
    && Tight(chunks, start, glue, limit) && start <= |chunks|
    && (|chunks| > start ==> gathered != [] && |chunks[|chunks| - 1]| + |glue| + |Join(gathered, glue)| > limit)
  }

  lemma PacksTight(before: seq<string>, start: nat, gathered: seq<string>, part: string, glue: string, limit: nat,
                   chunks: seq<string>, now: seq<string>)
    requires TightSoFar(before, start, gathered, glue, limit) && Packs(before, gathered, part, glue, limit, chunks, now)
    ensures TightSoFar(chunks, start, now, glue, limit)
  {
    JoinMore(gathered, part, glue);
    JoinMore([], part, glue);
    assert [] + [part] == [part];
    hide Join;
  }

  lemma FewTight(chunk: string, limit: nat)
    ensures Tight([], 0, SECTION_BREAK, limit) && Tight([chunk], 0, SECTION_BREAK, limit)
  {
  }

  lemma StillTight(chunks: seq<string>, start: nat, gathered: seq<string>, glue: string, limit: nat)
    requires TightSoFar(chunks, start, gathered, glue, limit)
    ensures Tight(chunks, start, glue, limit)
  {
  }

  lemma FlushTight(chunks: seq<string>, start: nat, gathered: seq<string>, glue: string, limit: nat)
    requires TightSoFar(chunks, start, gathered, glue, limit)
    ensures Tight(chunks + [Join(gathered, glue)], start, glue, limit)
  {
    hide Join;
  }

  /** No part is longer than the whole. */
  lemma {:induction false} PartFits(parts: seq<string>, part: string, sep: string)
    requires part in parts
    ensures |part| <= |Join(parts, sep)|
    decreases |parts|
  {
    var n := |parts| - 1;
    if part != parts[n] {
      PartFits(parts[..n], part, sep);
    }
  }

  // ------------------------------------------------------------ the loops

  /**
   * The text consumed so far: the chunks, and behind them, after the separator `lead`, what is still being
   * gathered, joined by `glue`.
   */
  ghost predicate Holds(text: string, chunks: seq<string>, seps: seq<string>, gathered: seq<string>, glue: string,
                        lead: string)
  {
    && |seps| == |chunks|
    && IsWeaveOf(Weave(chunks, seps), chunks, seps)
    && lead in {"", LINE_BREAK, SECTION_BREAK}
    && (chunks == [] ==> lead == "")
    && text == Weave(chunks, seps) + if gathered == [] then "" else lead + Join(gathered, glue)
  }

  predicate IsBreak(sep: string) {
    sep in {"", LINE_BREAK, SECTION_BREAK}
  }

  /** What has been gathered becomes a chunk. */
  lemma Flush(text: string, chunks: seq<string>, seps: seq<string>, gathered: seq<string>, glue: string, lead: string,
              next: string)
    requires Holds(text, chunks, seps, gathered, glue, lead) && gathered != [] && IsBreak(next)
    ensures forall g :: Holds(text, chunks + [Join(gathered, glue)], seps + [lead], [], g, next)
  {
    WeaveMore(chunks, seps, Join(gathered, glue), lead);
  }

  lemma WeaveMore(chunks: seq<string>, seps: seq<string>, chunk: string, sep: string)
    requires |chunks| == |seps|
    ensures Weave(chunks + [chunk], seps + [sep]) == Weave(chunks, seps) + sep + chunk
  {
    assert (chunks + [chunk])[..|chunks|] == chunks && (seps + [sep])[..|seps|] == seps;
  }

  /** One piece more is gathered. */
  lemma Gather(text: string, chunks: seq<string>, seps: seq<string>, gathered: seq<string>, glue: string, lead: string,
               piece: string)
    requires Holds(text, chunks, seps, gathered, glue, lead)
    ensures Holds(text + (if gathered == [] then lead else glue) + piece, chunks, seps, gathered + [piece], glue, lead)
  {
    JoinMore(gathered, piece, glue);
    Regrouped(Weave(chunks, seps), lead, Join(gathered, glue), glue, piece);
    hide Join, Weave, IsWeaveOf;
  }

  lemma Regrouped(woven: string, lead: string, joined: string, glue: string, piece: string)
    ensures woven + (lead + joined) + glue + piece == woven + (lead + (joined + glue + piece))
    ensures woven + "" + lead + piece == woven + (lead + piece)
  {
  }

  /** A piece becomes a chunk of its own; what follows it continues the same line. */
  lemma Cut(text: string, chunks: seq<string>, seps: seq<string>, glue: string, lead: string, piece: string)
    requires Holds(text, chunks, seps, [], glue, lead)
    ensures Holds(text + lead + piece, chunks + [piece], seps + [lead], [], glue, "")
  {
    WeaveMore(chunks, seps, piece, lead);
    assert Weave(chunks, seps) + "" == Weave(chunks, seps);
    assert text + lead + piece + "" == text + lead + piece;
  }

  predicate Within(chunks: seq<string>, limit: nat) {
    forall c | c in chunks :: |c| <= limit
  }

  /** The hard cuts: pieces of exactly the limit, until what is left of the line fits. */
  method CutLine(line: string, limit: nat, before: seq<string>, ghost text: string, ghost beforeSeps: seq<string>,
                 ghost lead: string)
    returns (rest: string, chunks: seq<string>, ghost seps: seq<string>, ghost eaten: string)
    requires limit > 0 && |line| > limit && Within(before, limit)
    requires Holds(text, before, beforeSeps, [], LINE_BREAK, lead)
    ensures line == eaten + rest && |rest| <= limit && Within(chunks, limit) && before <= chunks && chunks != before
    ensures forall i | |before| <= i < |chunks| :: |chunks[i]| == limit
    ensures Holds(text + lead + eaten, chunks, seps, [], LINE_BREAK, "")
  {
    hide Holds;
    Cut(text, before, beforeSeps, LINE_BREAK, lead, line[..limit]);
    rest, chunks := line[limit..], before + [line[..limit]];
    seps, eaten := beforeSeps + [lead], line[..limit];
    while |rest| > limit
      invariant line == eaten + rest && Within(chunks, limit) && before <= chunks && chunks != before
      invariant forall i | |before| <= i < |chunks| :: |chunks[i]| == limit
      invariant Holds(text + lead + eaten, chunks, seps, [], LINE_BREAK, "")
    {
      Cut(text + lead + eaten, chunks, seps, LINE_BREAK, "", rest[..limit]);
      Appended(text + lead, eaten, "", rest[..limit]);
      assert eaten + "" == eaten;
      chunks, seps, eaten := chunks + [rest[..limit]], seps + [""], eaten + rest[..limit];
      rest := rest[limit..];
    }
  }

  /** The text up to a section's line, and its line break if it is not the first. */
  function UpTo(text: string, lines: seq<string>, j: nat): string
    requires j <= |lines|
  {
    if j == 0 then text else text + Join(lines[..j], LINE_BREAK) + LINE_BREAK
  }

  lemma UpToNext(text: string, lines: seq<string>, j: nat)
    requires j < |lines|
    ensures UpTo(text, lines, j) + lines[j] == text + Join(lines[..j + 1], LINE_BREAK)
  {
    var before, line := lines[..j], lines[j];
    assert lines[..j + 1] == before + [line];
    JoinMore(before, line, LINE_BREAK);
    hide Join;
    Appended(text, Join(before, LINE_BREAK), LINE_BREAK, line);
  }

  lemma Appended(a: string, b: string, c: string, d: string)
    ensures a + b + c + d == a + (b + c + d)
  {
  }

  /** A section that does not fit: whole lines gathered while they fit. */
  method ChunkLines(section: string, limit: nat, before: seq<string>, ghost text: string, ghost beforeSeps: seq<string>,
                    ghost lead: string)
    returns (chunks: seq<string>, ghost seps: seq<string>)
    requires limit > 0 && Within(before, limit)
    requires Holds(text, before, beforeSeps, [], LINE_BREAK, lead)
    ensures Within(chunks, limit) && before <= chunks && chunks != before
    ensures Holds(text + lead + section, chunks, seps, [], SECTION_BREAK, SECTION_BREAK)
    ensures AllKept(Split(section, LINE_BREAK), limit, chunks, [], LINE_BREAK)
    ensures Within(Split(section, LINE_BREAK), limit) ==> Tight(chunks, |before|, LINE_BREAK, limit)
  {
    hide Holds, IsBreak, Join, Split, AllKept, Packs, Tight, TightSoFar, Within;
    var lines := Split(section, LINE_BREAK);
    JoinSplit(section, LINE_BREAK);
    chunks, seps := before, beforeSeps;
    var buffer: seq<string>, length: nat := [], 0;
    JoinNone(LINE_BREAK);
    ghost var mark := lead;
    ghost var start := text + lead;
    NoneKept(limit, chunks, LINE_BREAK);
    TightStart(chunks, LINE_BREAK, limit);
    for j := 0 to |lines|
      invariant Within(chunks, limit) && before <= chunks
      invariant j == 0 <==> buffer == []
      invariant j == 0 ==> chunks == before && seps == beforeSeps && mark == lead
      invariant length == |Join(buffer, LINE_BREAK)| <= limit
      invariant Holds(if j == 0 then text else start + Join(lines[..j], LINE_BREAK), chunks, seps, buffer, LINE_BREAK, mark)
      invariant AllKept(lines[..j], limit, chunks, buffer, LINE_BREAK)
      invariant Within(lines, limit) ==> TightSoFar(chunks, |before|, buffer, LINE_BREAK, limit)
    {
      ghost var known, gathered := chunks, buffer;
      UpToNext(start, lines, j);
      assert lines[..j + 1] == lines[..j] + [lines[j]];
      chunks, seps, buffer, length, mark := AddLine(lines[j], limit, chunks, buffer, length, lines[..j], seps, mark,
        if j == 0 then text else start + Join(lines[..j], LINE_BREAK));
      if Within(lines, limit) {
        OneWithin(lines, j, limit);
        PacksTight(known, |before|, gathered, lines[j], LINE_BREAK, limit, chunks, buffer);
      }
    }
    assert lines[..|lines|] == lines;
    Breaks();
    if Within(lines, limit) {
      FlushTight(chunks, |before|, buffer, LINE_BREAK, limit);
    }
    LastWithin(chunks, Join(buffer, LINE_BREAK), limit);
    Flush(start + section, chunks, seps, buffer, LINE_BREAK, mark, SECTION_BREAK);
    KeptByFlush(lines, limit, chunks, buffer, LINE_BREAK);
    seps := seps + [mark];
    chunks := chunks + [Join(buffer, LINE_BREAK)];
  }

  lemma TightStart(chunks: seq<string>, glue: string, limit: nat)
    ensures TightSoFar(chunks, |chunks|, [], glue, limit)
  {
  }

  lemma OneWithin(parts: seq<string>, i: nat, limit: nat)
    requires i < |parts| && Within(parts, limit)
    ensures |parts[i]| <= limit
  {
  }

  lemma LastWithin(chunks: seq<string>, last: string, limit: nat)
    requires Within(chunks, limit) && |last| <= limit
    ensures Within(chunks + [last], limit)
  {
  }

  lemma JoinNone(sep: string)
    ensures Join([], sep) == ""
  {
  }

  lemma Breaks()
    ensures IsBreak("") && IsBreak(LINE_BREAK) && IsBreak(SECTION_BREAK)
  {
  }

  /** One line of an oversized section. */
  method AddLine(line: string, limit: nat, before: seq<string>, gathered: seq<string>, gatheredLength: nat,
                 ghost done: seq<string>, ghost beforeSeps: seq<string>, ghost lead: string, ghost text: string)
    returns (chunks: seq<string>, ghost seps: seq<string>, buffer: seq<string>, length: nat, ghost mark: string)
    requires limit > 0 && Within(before, limit)
    requires gatheredLength == |Join(gathered, LINE_BREAK)| <= limit
    requires Holds(text, before, beforeSeps, gathered, LINE_BREAK, lead)
    requires AllKept(done, limit, before, gathered, LINE_BREAK)
    ensures Within(chunks, limit) && before <= chunks && buffer != []
    ensures AllKept(done + [line], limit, chunks, buffer, LINE_BREAK)
    ensures |line| <= limit ==> Packs(before, gathered, line, LINE_BREAK, limit, chunks, buffer)
    ensures length == |Join(buffer, LINE_BREAK)| <= limit
    ensures Holds(text + (if gathered == [] then lead else LINE_BREAK) + line, chunks, seps, buffer, LINE_BREAK, mark)
  {
    hide Holds, IsBreak, Join, AllKept;
    Breaks();
    JoinNone(LINE_BREAK);
    chunks, seps, buffer, length, mark := before, beforeSeps, gathered, gatheredLength, lead;
    var rest := line;
    ghost var sofar, kept := text, done;
    if |rest| > limit {
      if buffer != [] {
        Flush(sofar, chunks, seps, buffer, LINE_BREAK, mark, LINE_BREAK);
        KeptByFlush(done, limit, chunks, buffer, LINE_BREAK);
        chunks, seps, buffer, length, mark := chunks + [Join(buffer, LINE_BREAK)], seps + [mark], [], 0, LINE_BREAK;
      }
      ghost var eaten, known := "", chunks;
      rest, chunks, seps, eaten := CutLine(rest, limit, chunks, sofar, seps, mark);
      sofar, mark := sofar + mark + eaten, "";
      assert sofar + "" + rest == text + (if gathered == [] then lead else LINE_BREAK) + line;
      KeptByMore(done, limit, known, chunks, [], LINE_BREAK);
      KeptByLong(done, line, limit, chunks, [], LINE_BREAK);
      kept := done + [line];
    }
    var addition := |rest| + if buffer != [] then 1 else 0;
    JoinMore(buffer, rest, LINE_BREAK);
    if buffer != [] && length + addition > limit {
      Flush(sofar, chunks, seps, buffer, LINE_BREAK, mark, LINE_BREAK);
      KeptByFlush(kept, limit, chunks, buffer, LINE_BREAK);
      chunks, seps, mark := chunks + [Join(buffer, LINE_BREAK)], seps + [mark], LINE_BREAK;
      Gather(sofar, chunks, seps, [], LINE_BREAK, mark, rest);
      JoinMore([], rest, LINE_BREAK);
      assert [] + [rest] == [rest];
      KeptWith(kept, done, line, rest, limit, chunks, []);
      buffer, length := [rest], |rest|;
    } else {
      Gather(sofar, chunks, seps, buffer, LINE_BREAK, mark, rest);
      KeptWith(kept, done, line, rest, limit, chunks, buffer);
      length := length + addition;
      buffer := buffer + [rest];
    }
  }

  /** Gathering the line, or what is left of it once its cut was counted. */
  lemma KeptWith(kept: seq<string>, done: seq<string>, line: string, rest: string, limit: nat, chunks: seq<string>,
                 gathered: seq<string>)
    requires AllKept(kept, limit, chunks, gathered, LINE_BREAK)
    requires kept == done + [line] || (kept == done && rest == line)
    ensures AllKept(done + [line], limit, chunks, gathered + [rest], LINE_BREAK)
  {
    hide AllKept;
    if kept == done + [line] {
      KeptByRest(kept, limit, chunks, gathered, rest, LINE_BREAK);
    } else {
      KeptByGather(done, line, limit, chunks, gathered, LINE_BREAK);
    }
  }

  // ------------------------------------------------------------ sections

  function Lead(chunks: seq<string>): string {
    if chunks == [] then "" else SECTION_BREAK
  }

  /** The sections of a summary that does not fit. */
  method ChunkSections(summary: string, sections: seq<string>, limit: nat) returns (chunks: seq<string>, ghost seps: seq<string>)
    requires limit > 0 && sections != [] && Join(sections, SECTION_BREAK) == summary
    ensures Within(chunks, limit) && IsWeaveOf(summary, chunks, seps)
    ensures AllKept(sections, limit, chunks, [], SECTION_BREAK) && LinesKept(sections, limit, chunks)
    ensures Within(sections, limit) ==> Tight(chunks, 0, SECTION_BREAK, limit)
  {
    hide Holds, IsBreak, Join, AllKept, LinesKept, Packs, TightSoFar, Tight, IsWeaveOf, Within;
    chunks, seps := [], [];
    var parts: seq<string>, length: nat := [], 0;
    JoinNone(SECTION_BREAK);
    HoldsNone();
    NoneKept(limit, [], SECTION_BREAK);
    TightStart([], SECTION_BREAK, limit);
    NoneWithin(limit);
    for i := 0 to |sections|
      invariant Within(chunks, limit)
      invariant i == 0 <==> chunks == [] && parts == []
      invariant length == |Join(parts, SECTION_BREAK)| <= limit
      invariant Holds(Join(sections[..i], SECTION_BREAK), chunks, seps, parts, SECTION_BREAK, Lead(chunks))
      invariant AllKept(sections[..i], limit, chunks, parts, SECTION_BREAK)
      invariant LinesKept(sections[..i], limit, chunks)
      invariant Within(sections, limit) ==> TightSoFar(chunks, 0, parts, SECTION_BREAK, limit)
    {
      ghost var known, gathered := chunks, parts;
      assert sections[..i + 1] == sections[..i] + [sections[i]];
      JoinMore(sections[..i], sections[i], SECTION_BREAK);
      chunks, seps, parts, length := AddSection(sections[i], limit, chunks, parts, length, sections[..i], seps,
                                                Join(sections[..i], SECTION_BREAK));
      if Within(sections, limit) {
        OneWithin(sections, i, limit);
        PacksTight(known, 0, gathered, sections[i], SECTION_BREAK, limit, chunks, parts);
      }
    }
    assert sections[..|sections|] == sections;
    chunks, seps := LastSections(summary, sections, limit, chunks, seps, parts);
  }

  /** What is still gathered at the end becomes the last chunk. */
  method LastSections(summary: string, ghost sections: seq<string>, limit: nat, before: seq<string>,
                      ghost beforeSeps: seq<string>, parts: seq<string>)
    returns (chunks: seq<string>, ghost seps: seq<string>)
    requires Within(before, limit) && |Join(parts, SECTION_BREAK)| <= limit
    requires Holds(summary, before, beforeSeps, parts, SECTION_BREAK, Lead(before))
    requires AllKept(sections, limit, before, parts, SECTION_BREAK) && LinesKept(sections, limit, before)
    requires Within(sections, limit) ==> TightSoFar(before, 0, parts, SECTION_BREAK, limit)
    ensures Within(chunks, limit) && IsWeaveOf(summary, chunks, seps)
    ensures AllKept(sections, limit, chunks, [], SECTION_BREAK) && LinesKept(sections, limit, chunks)
    ensures Within(sections, limit) ==> Tight(chunks, 0, SECTION_BREAK, limit)
  {
    hide Holds, IsBreak, Join, AllKept, LinesKept, TightSoFar, Tight, IsWeaveOf, Within, Lead;
    chunks, seps := before, beforeSeps;
    if Within(sections, limit) {
      FlushTight(chunks, 0, parts, SECTION_BREAK, limit);
      StillTight(chunks, 0, parts, SECTION_BREAK, limit);
    }
    if parts == [] {
      HoldsAll(summary, chunks, seps, Lead(chunks));
      return;
    }
    Breaks();
    Flush(summary, chunks, seps, parts, SECTION_BREAK, Lead(chunks), SECTION_BREAK);
    KeptByFlush(sections, limit, chunks, parts, SECTION_BREAK);
    LinesKeptByMore(sections, limit, chunks, chunks + [Join(parts, SECTION_BREAK)]);
    LastWithin(chunks, Join(parts, SECTION_BREAK), limit);
    seps := seps + [Lead(chunks)];
    chunks := chunks + [Join(parts, SECTION_BREAK)];
    HoldsAll(summary, chunks, seps, SECTION_BREAK);
  }

  lemma NoneWithin(limit: nat)
    ensures Within([], limit)
  {
  }

  /**
   * Whatever the summary and the positive limit: every chunk is within the limit, nothing is lost but the
   * breaks at the cuts, a summary that fits is one chunk, every section that fits is whole in a chunk, and so
   * is every line that fits of a section that does not. If all sections fit, no two neighbouring chunks would
   * fit into one.
   */
  method ChunkSummary(summary: string, limit: nat) returns (chunks: seq<string>)
    requires limit > 0
    ensures Within(chunks, limit)
    ensures Reassembles(summary, chunks)
    ensures Stripped(Concat(chunks)) == Stripped(summary)
    ensures |summary| <= limit ==> chunks == if summary == "" then [] else [summary]
    ensures summary != "" ==> AllKept(Split(summary, SECTION_BREAK), limit, chunks, [], SECTION_BREAK)
    ensures summary != "" ==> LinesKept(Split(summary, SECTION_BREAK), limit, chunks)
    ensures Within(Split(summary, SECTION_BREAK), limit) ==> Tight(chunks, 0, SECTION_BREAK, limit)
  {
    hide Join, Split, Weave, IsWeaveOf, AllKept, LinesKept, Stripped, Concat, Tight;
    FewTight(summary, limit);
    WeaveFew(summary);
    if summary == "" {
      ReassembledStripped(summary, [], []);
      return [];
    }
    var sections := Split(summary, SECTION_BREAK);
    JoinSplit(summary, SECTION_BREAK);
    if |summary| <= limit {
      KeptInWhole(sections, limit);
      ReassembledStripped(summary, [summary], [""]);
      return [summary];
    }
    ghost var seps;
    chunks, seps := ChunkSections(summary, sections, limit);
    ReassembledStripped(summary, chunks, seps);
  }

  method AddSection(section: string, limit: nat, before: seq<string>, gathered: seq<string>, gatheredLength: nat,
                    ghost done: seq<string>, ghost beforeSeps: seq<string>, ghost text: string)
    returns (chunks: seq<string>, ghost seps: seq<string>, parts: seq<string>, length: nat)
    requires limit > 0 && Within(before, limit)
    requires gatheredLength == |Join(gathered, SECTION_BREAK)| <= limit
    requires Holds(text, before, beforeSeps, gathered, SECTION_BREAK, Lead(before))
    requires AllKept(done, limit, before, gathered, SECTION_BREAK) && LinesKept(done, limit, before)
    requires before == [] && gathered == [] ==> text == ""
    ensures Within(chunks, limit) && !(chunks == [] && parts == [])
    ensures length == |Join(parts, SECTION_BREAK)| <= limit
    ensures Holds(if before == [] && gathered == [] then section else text + SECTION_BREAK + section,
                  chunks, seps, parts, SECTION_BREAK, Lead(chunks))
    ensures AllKept(done + [section], limit, chunks, parts, SECTION_BREAK) && LinesKept(done + [section], limit, chunks)
    ensures |section| <= limit ==> Packs(before, gathered, section, SECTION_BREAK, limit, chunks, parts)
  {
    hide Holds, IsBreak, Join, AllKept, LinesKept;
    Breaks();
    JoinNone(SECTION_BREAK);
    assert before == [] && gathered == [] ==> text + "" + section == section;
    chunks, seps, parts, length := before, beforeSeps, gathered, gatheredLength;
    if |section| > limit {
      if parts != [] {
        Flush(text, chunks, seps, parts, SECTION_BREAK, Lead(chunks), SECTION_BREAK);
        KeptByFlush(done, limit, chunks, parts, SECTION_BREAK);
        chunks, seps, parts, length := chunks + [Join(parts, SECTION_BREAK)], seps + [Lead(chunks)], [], 0;
      }
      OtherGlue(text, chunks, seps, SECTION_BREAK, LINE_BREAK, Lead(chunks));
      ghost var known := chunks;
      chunks, seps := ChunkLines(section, limit, chunks, text, seps, Lead(chunks));
      KeptByMore(done, limit, known, chunks, [], SECTION_BREAK);
      KeptByLong(done, section, limit, chunks, [], SECTION_BREAK);
      LinesKeptByMore(done, limit, before, chunks);
      LinesKeptBySection(done, section, limit, chunks);
      return;
    }
    var addition := |section| + if parts != [] then 2 else 0;
    JoinMore(parts, section, SECTION_BREAK);
    if parts != [] && length + addition > limit {
      Flush(text, chunks, seps, parts, SECTION_BREAK, Lead(chunks), SECTION_BREAK);
      KeptByFlush(done, limit, chunks, parts, SECTION_BREAK);
      chunks, seps := chunks + [Join(parts, SECTION_BREAK)], seps + [Lead(chunks)];
      Gather(text, chunks, seps, [], SECTION_BREAK, SECTION_BREAK, section);
      KeptByGather(done, section, limit, chunks, [], SECTION_BREAK);
      JoinMore([], section, SECTION_BREAK);
      assert [] + [section] == [section];
      parts, length := [section], |section|;
    } else {
      Gather(text, chunks, seps, parts, SECTION_BREAK, Lead(chunks), section);
      KeptByGather(done, section, limit, chunks, parts, SECTION_BREAK);
      parts, length := parts + [section], length + addition;
    }
    LinesKeptByMore(done, limit, before, chunks);
    LinesKeptBySection(done, section, limit, chunks);
  }

  lemma OtherGlue(text: string, chunks: seq<string>, seps: seq<string>, glue: string, other: string, lead: string)
    requires Holds(text, chunks, seps, [], glue, lead)
    ensures Holds(text, chunks, seps, [], other, lead)
  {
  }

  lemma WeaveFew(text: string)
    ensures IsWeaveOf("", [], []) && IsWeaveOf(text, [text], [""])
  {
    assert [text][..0] == [] && [""][..0] == [];
  }

  lemma HoldsNone()
    ensures Join([], SECTION_BREAK) == "" && Holds("", [], [], [], SECTION_BREAK, Lead([]))
  {
  }

  lemma HoldsAll(text: string, chunks: seq<string>, seps: seq<string>, lead: string)
    requires Holds(text, chunks, seps, [], SECTION_BREAK, lead)
    ensures IsWeaveOf(text, chunks, seps) && Reassembles(text, chunks)
  {
    assert text == Weave(chunks, seps);
  }

  lemma NoneKept(limit: nat, chunks: seq<string>, glue: string)
    ensures AllKept([], limit, chunks, [], glue) && LinesKept([], limit, chunks)
  {
  }

  lemma KeptInWhole(sections: seq<string>, limit: nat)
    requires |Join(sections, SECTION_BREAK)| <= limit
    ensures AllKept(sections, limit, [Join(sections, SECTION_BREAK)], [], SECTION_BREAK)
    ensures LinesKept(sections, limit, [Join(sections, SECTION_BREAK)])
  {
    forall s | s in sections
      ensures HoldsWhole(Join(sections, SECTION_BREAK), s, SECTION_BREAK) && |s| <= limit
    {
      PartFits(sections, s, SECTION_BREAK);
    }
    assert Join(sections, SECTION_BREAK) in [Join(sections, SECTION_BREAK)];
  }
}
