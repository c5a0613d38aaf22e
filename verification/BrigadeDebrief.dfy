/** The log parser of the Brigade debrief.  A line is what the expressions of the source match in
    it, each independently of the others, so this covers every text. */
module BrigadeDebrief {
  import opened Options

  datatype Dissent = Dissent(raw: string, names: seq<string>)

  datatype Cohesion = Cohesion(percent: nat, agree: nat, total: nat)

  datatype Line = Line(
    header: Option<string>, aiCall: Option<string>, brigadeMark: bool, senateMark: bool, brigadeVote: Option<Vote>,
    senateVote: Option<Vote>, reason: Option<string>, decision: Option<Decision>, cohesion: Option<Cohesion>,
    dissent: Option<Dissent>, separator: bool, interrupt: bool)

  datatype Vote = Vote(name: string, action: string, confidence: string, reasoning: string)

  datatype Decision = Decision(direction: string, confidence: string, cohesion: Option<Cohesion>, dissent: seq<string>, raw: string)

  datatype Note = Superseded | Interrupted | Undecided

  datatype Report = Report(
    symbol: string, aiCalls: seq<string>, brigade: seq<Vote>, senate: seq<Vote>, decision: Option<Decision>,
    incomplete: bool, notes: seq<Note>)

  datatype Mode = NoMode | Brigade | Senate

  // ---------------------------------------------------------------- one block, on its own

  /** A block being read: its report so far, and whether a separator has closed it. */
  datatype Block = Block(report: Report, mode: Mode, brigadeReason: Option<nat>, senateReason: Option<nat>, closed: bool)

  predicate Pending(b: Block) {
    && (b.brigadeReason.Some? ==> b.brigadeReason.value < |b.report.brigade|)
    && (b.senateReason.Some? ==> b.senateReason.value < |b.report.senate|)
  }

  function Opened(symbol: string): Block {
    Block(Report(symbol, [], [], [], None, false, []), NoMode, None, None, false)
  }

  /** Reasoning lines of one senator, joined by a space. */
  function Joined(existing: string, addition: string): string {
    if existing == "" then addition else if addition == "" then existing else existing + " " + addition
  }

  function Fresh(d: Decision): Decision {
    Decision(d.direction, d.confidence, None, [], "")
  }

  /** What one line adds to an open block. */
  function Absorb(b: Block, l: Line): (r: Block)
    requires Pending(b)
    ensures Pending(r)
  {
    var c := b.report;
    if b.closed then b
    else if l.aiCall.Some? then b.(report := c.(aiCalls := c.aiCalls + [l.aiCall.value]))
    else if l.brigadeMark then b.(mode := Brigade)
    else if l.senateMark then b.(mode := Senate)
    else if b.mode.Brigade? && l.brigadeVote.Some? then
      b.(report := c.(brigade := c.brigade + [l.brigadeVote.value.(reasoning := "")]), brigadeReason := Some(|c.brigade|))
    else if b.mode.Brigade? && l.reason.Some? && b.brigadeReason.Some? then
      var k := b.brigadeReason.value;
      b.(report := c.(brigade := c.brigade[k := c.brigade[k].(reasoning := l.reason.value)]), brigadeReason := None)
    else if b.mode.Senate? && l.senateVote.Some? then
      b.(report := c.(senate := c.senate + [l.senateVote.value.(reasoning := "")]), senateReason := Some(|c.senate|))
    else if b.mode.Senate? && l.reason.Some? && b.senateReason.Some? then
      var k := b.senateReason.value;
      b.(report := c.(senate := c.senate[k := c.senate[k].(reasoning := Joined(c.senate[k].reasoning, l.reason.value))]))
    else if l.decision.Some? then b.(report := c.(decision := Some(Fresh(l.decision.value))))
    else if c.decision.Some? && l.cohesion.Some? then
      b.(report := c.(decision := Some(c.decision.value.(cohesion := l.cohesion))))
    else if c.decision.Some? && l.dissent.Some? then
      b.(report := c.(decision := Some(c.decision.value.(dissent := l.dissent.value.names, raw := l.dissent.value.raw))))
    else if l.separator then b.(closed := c.decision.Some?)
    else if l.interrupt then b.(report := c.(incomplete := true, notes := c.notes + [Interrupted]))
    else b
  }

  function Read(symbol: string, body: seq<Line>): (b: Block)
    ensures Pending(b)
  {
    if body == [] then Opened(symbol) else Absorb(Read(symbol, body[..|body| - 1]), body[|body| - 1])
  }

  /** The report of a block, given whether another header follows it. */
  function Settled(b: Block, followed: bool): Report {
    if b.closed then b.report
    else if followed then b.report.(incomplete := true, notes := b.report.notes + [Superseded])
    else if b.report.decision.None? then b.report.(incomplete := true, notes := b.report.notes + [Undecided])
    else b.report
  }

  // ---------------------------------------------------------------- the log as blocks

  datatype Section = Section(symbol: string, body: seq<Line>)

  /** A header and the lines up to the next one; lines before the first header belong to none. */
  function Sections(lines: seq<Line>): seq<Section> {
    if lines == [] then []
    else
      var n := |lines| - 1;
      var earlier := Sections(lines[..n]);
      if lines[n].header.Some? then earlier + [Section(lines[n].header.value, [])]
      else if earlier == [] then []
      else earlier[..|earlier| - 1] + [earlier[|earlier| - 1].(body := earlier[|earlier| - 1].body + [lines[n]])]
  }

  /** One report per section, each from its own lines alone. */
  function Reports(sections: seq<Section>): seq<Report> {
    seq(|sections|, i requires 0 <= i < |sections| =>
      Settled(Read(sections[i].symbol, sections[i].body), i < |sections| - 1))
  }

  function Headers(lines: seq<Line>): seq<string> {
    if lines == [] then []
    else Headers(lines[..|lines| - 1]) + if lines[|lines| - 1].header.Some? then [lines[|lines| - 1].header.value] else []
  }

  lemma {:induction false} SectionsPerHeader(lines: seq<Line>)
    ensures |Sections(lines)| == |Headers(lines)|
    ensures forall i :: 0 <= i < |Headers(lines)| ==> Sections(lines)[i].symbol == Headers(lines)[i]
  {
    if lines != [] { SectionsPerHeader(lines[..|lines| - 1]); }
  }

  /** Where the header lines are. */
  function HeaderLines(lines: seq<Line>): seq<nat> {
    if lines == [] then []
    else HeaderLines(lines[..|lines| - 1]) + if lines[|lines| - 1].header.Some? then [|lines| - 1] else []
  }

  /** A rising list of exactly the header lines. */
  ghost predicate AreHeaders(lines: seq<Line>, at: seq<nat>) {
    && (forall i :: 0 <= i < |lines| ==> (lines[i].header.Some? <==> i in at))
    && (forall i :: 0 <= i < |at| ==> at[i] < |lines| && lines[at[i]].header.Some?)
    && forall i, j :: 0 <= i < j < |at| ==> at[i] < at[j]
  }

  /** The i-th section is the i-th header and the lines up to the next one, or to the end. */
  predicate SectionAt(lines: seq<Line>, at: seq<nat>, sections: seq<Section>, i: nat) {
    && i < |at| && i < |sections|
    && var end := if i + 1 < |at| then at[i + 1] else |lines|;
    && at[i] < end <= |lines| && lines[at[i]].header.Some?
    && sections[i] == Section(lines[at[i]].header.value, lines[at[i] + 1..end])
  }

  /** What one more line makes of the headers and the sections. */
  lemma OneMoreLine(lines: seq<Line>, l: Line)
    ensures HeaderLines(lines + [l]) == HeaderLines(lines) + if l.header.Some? then [|lines|] else []
    ensures l.header.Some? ==> Sections(lines + [l]) == Sections(lines) + [Section(l.header.value, [])]
    ensures l.header.None? && Sections(lines) == [] ==> Sections(lines + [l]) == []
    ensures l.header.None? && Sections(lines) != [] ==>
              var k := |Sections(lines)| - 1;
              var last := Sections(lines)[k];
              Sections(lines + [l]) == Sections(lines)[..k] + [last.(body := last.body + [l])]
  {
    assert (lines + [l])[..|lines|] == lines;
  }

  lemma {:induction false} HeadersAre(lines: seq<Line>)
    ensures AreHeaders(lines, HeaderLines(lines)) && |HeaderLines(lines)| == |Sections(lines)|
  {
    if lines != [] {
      var n := |lines| - 1;
      HeadersAre(lines[..n]);
      assert lines == lines[..n] + [lines[n]];
      OneMoreLine(lines[..n], lines[n]);
      OneMoreHeader(lines[..n], HeaderLines(lines[..n]), lines[n]);
    }
  }

  lemma OneMoreHeader(lines: seq<Line>, at: seq<nat>, l: Line)
    requires AreHeaders(lines, at)
    ensures AreHeaders(lines + [l], at + if l.header.Some? then [|lines|] else [])
  {
    var longer := lines + [l];
    assert forall i :: 0 <= i < |lines| ==> longer[i] == lines[i];
    if l.header.None? {
      assert at + [] == at;
    }
  }

  /** The sections are the log: one for each header line, with exactly the lines up to the next
      header, so that no line from the first header on is lost, repeated or moved. */
  lemma {:induction false} SectionsAreTheLog(lines: seq<Line>)
    ensures AreHeaders(lines, HeaderLines(lines)) && |HeaderLines(lines)| == |Sections(lines)|
    ensures forall i: nat :: i < |Sections(lines)| ==> SectionAt(lines, HeaderLines(lines), Sections(lines), i)
  {
    HeadersAre(lines);
    if lines != [] {
      var n := |lines| - 1;
      var before, l := lines[..n], lines[n];
      HeadersAre(before);
      SectionsAreTheLog(before);
      assert lines == before + [l];
      OneMoreLine(before, l);
      var at, sections := HeaderLines(before), Sections(before);
      hide HeaderLines, Sections, SectionAt;
      forall i: nat | i < |Sections(lines)|
        ensures SectionAt(lines, HeaderLines(lines), Sections(lines), i)
      {
        if i < |sections| {
          SectionGrows(before, at, sections, l, i, HeaderLines(lines), Sections(lines));
        } else {
          SectionOpens(before, at, sections, l, HeaderLines(lines), Sections(lines));
        }
      }
    }
  }

  lemma SectionOpens(lines: seq<Line>, at: seq<nat>, sections: seq<Section>, l: Line, at': seq<nat>, sections': seq<Section>)
    requires l.header.Some? && |at| == |sections|
    requires at' == at + [|lines|] && sections' == sections + [Section(l.header.value, [])]
    ensures SectionAt(lines + [l], at', sections', |sections|)
  {
  }

  lemma SectionGrows(lines: seq<Line>, at: seq<nat>, sections: seq<Section>, l: Line, i: nat, at': seq<nat>, sections': seq<Section>)
    requires |at| == |sections| && i < |sections| && SectionAt(lines, at, sections, i)
    requires at' == at + if l.header.Some? then [|lines|] else []
    requires if l.header.Some? then sections' == sections + [Section(l.header.value, [])]
             else
               var k := |sections| - 1;
               sections' == sections[..k] + [sections[k].(body := sections[k].body + [l])]
    ensures SectionAt(lines + [l], at', sections', i)
  {
    var longer := lines + [l];
    var end := if i + 1 < |at| then at[i + 1] else |lines|;
    assert longer[at[i]] == lines[at[i]];
    assert longer[at[i] + 1..end] == lines[at[i] + 1..end];
    if i + 1 == |at| && l.header.None? {
      assert longer[at[i] + 1..|longer|] == lines[at[i] + 1..|lines|] + [l];
    }
  }

  lemma AbsorbFacts(b: Block, l: Line)
    requires Pending(b)
    ensures Absorb(b, l).report.symbol == b.report.symbol
    ensures (b.closed ==> b.report.decision.Some?) ==> (Absorb(b, l).closed ==> Absorb(b, l).report.decision.Some?)
    ensures (b.report.incomplete ==> Interrupted in b.report.notes) ==>
              (Absorb(b, l).report.incomplete ==> Interrupted in Absorb(b, l).report.notes)
  {
  }

  lemma {:induction false} ReadFacts(symbol: string, body: seq<Line>)
    ensures Read(symbol, body).report.symbol == symbol
    ensures Read(symbol, body).closed ==> Read(symbol, body).report.decision.Some?
    ensures Read(symbol, body).report.incomplete ==> Interrupted in Read(symbol, body).report.notes
  {
    hide Absorb;
    if body != [] {
      var n := |body| - 1;
      ReadFacts(symbol, body[..n]);
      AbsorbFacts(Read(symbol, body[..n]), body[n]);
    }
  }

  /** Exactly one report per header, in header order; every report not marked incomplete carries
      a decision, and every incomplete one says why. */
  lemma ReportsMatchHeaders(lines: seq<Line>)
    ensures var reports := Reports(Sections(lines));
      && |reports| == |Headers(lines)|
      && (forall i :: 0 <= i < |reports| ==> reports[i].symbol == Headers(lines)[i])
      && (forall r :: r in reports && !r.incomplete ==> r.decision.Some?)
      && (forall r :: r in reports && r.incomplete ==> r.notes != [])
  {
    SectionsPerHeader(lines);
    var sections, reports := Sections(lines), Reports(Sections(lines));
    forall i | 0 <= i < |reports|
      ensures reports[i].symbol == Headers(lines)[i]
      ensures !reports[i].incomplete ==> reports[i].decision.Some?
      ensures reports[i].incomplete ==> reports[i].notes != []
    {
      ReadFacts(sections[i].symbol, sections[i].body);
    }
  }

  /** A report is what its own section reads, and is incomplete exactly when the run was interrupted, or
      another symbol began before it was closed, or the log ended before its decision. */
  lemma IncompleteIff(lines: seq<Line>, i: nat)
    requires i < |Reports(Sections(lines))|
    ensures var sections, report := Sections(lines), Reports(Sections(lines))[i];
      var b := Read(sections[i].symbol, sections[i].body);
      && report == b.report.(incomplete := report.incomplete, notes := report.notes)
      && (report.incomplete <==> b.report.incomplete || (!b.closed && (i + 1 < |sections| || b.report.decision.None?)))
      && report.notes == b.report.notes + (if !b.closed && i + 1 < |sections| then [Superseded]
                                           else if !b.closed && b.report.decision.None? then [Undecided] else [])
  {
    hide Read, Sections;
  }

  /** A closed block ignores whatever follows it. */
  lemma {:induction false} ClosedStays(symbol: string, body: seq<Line>, more: seq<Line>)
    requires Read(symbol, body).closed
    ensures Read(symbol, body + more) == Read(symbol, body)
  {
    if more == [] {
      assert body + more == body;
    } else {
      assert (body + more)[..|body + more| - 1] == body + more[..|more| - 1];
      ClosedStays(symbol, body, more[..|more| - 1]);
    }
  }

  // ---------------------------------------------------------------- the parser

  /** The reports of all sections but the last, and the last one while it is open. */
  ghost predicate Progress(lines: seq<Line>, reports: seq<Report>, current: Option<Report>, mode: Mode,
                           brigadeReason: Option<nat>, senateReason: Option<nat>) {
    var sections := Sections(lines);
    if sections == [] then reports == [] && current == None
    else
      var n := |sections| - 1;
      var last := Read(sections[n].symbol, sections[n].body);
      var earlier := Reports(sections)[..n];
      if last.closed then current == None && reports == earlier + [last.report]
      else current.Some? && last == Block(current.value, mode, brigadeReason, senateReason, false) && reports == earlier
  }

  lemma NextHeader(lines: seq<Line>, i: nat, reports: seq<Report>, current: Option<Report>, mode: Mode,
                   brigadeReason: Option<nat>, senateReason: Option<nat>)
    requires i < |lines| && lines[i].header.Some?
    requires Progress(lines[..i], reports, current, mode, brigadeReason, senateReason)
    ensures var done := if current.None? then reports
                        else reports + [current.value.(incomplete := true, notes := current.value.notes + [Superseded])];
      Progress(lines[..i + 1], done, Some(Opened(lines[i].header.value).report), NoMode, None, None)
  {
    assert lines[..i + 1][..i] == lines[..i];
    var before, after := Sections(lines[..i]), Sections(lines[..i + 1]);
    var n := |before|;
    assert after[..n] == before;
    forall k | 0 <= k < n - 1
      ensures Reports(after)[k] == Reports(before)[k]
    {
    }
    if n > 0 {
      assert Reports(after)[..n] == Reports(before)[..n - 1] + [Settled(Read(before[n - 1].symbol, before[n - 1].body), true)];
    } else {
      assert Reports(after)[..n] == [];
    }
  }

  /** A line that is no header extends the last section. */
  lemma SectionsNext(lines: seq<Line>, i: nat)
    requires i < |lines| && lines[i].header.None?
    ensures Sections(lines[..i]) == [] ==> Sections(lines[..i + 1]) == []
    ensures Sections(lines[..i]) != [] ==>
              var before, after := Sections(lines[..i]), Sections(lines[..i + 1]);
              var n := |before| - 1;
              && |after| == n + 1 && after[..n] == before[..n] && after[n].symbol == before[n].symbol
              && Read(after[n].symbol, after[n].body) == Absorb(Read(before[n].symbol, before[n].body), lines[i])
              && Reports(after)[..n] == Reports(before)[..n]
  {
    hide Absorb;
    assert lines[..i + 1][..i] == lines[..i];
    var before, after := Sections(lines[..i]), Sections(lines[..i + 1]);
    if before != [] {
      var n := |before| - 1;
      assert after[..n] == before[..n];
      assert after[n].body[..|before[n].body|] == before[n].body;
      SameReports(before, after, n);
    }
  }

  lemma SameReports(a: seq<Section>, b: seq<Section>, n: nat)
    requires n < |a| && n < |b| && a[..n] == b[..n]
    ensures Reports(a)[..n] == Reports(b)[..n]
  {
    hide Read, Settled;
    forall k | 0 <= k < n
      ensures Reports(a)[k] == Reports(b)[k]
    {
      assert a[k] == a[..n][k] == b[..n][k] == b[k];
    }
  }

  lemma NextLine(lines: seq<Line>, i: nat, reports: seq<Report>, current: Option<Report>, mode: Mode,
                 brigadeReason: Option<nat>, senateReason: Option<nat>)
    requires i < |lines| && lines[i].header.None?
    requires Progress(lines[..i], reports, current, mode, brigadeReason, senateReason)
    ensures current.None? ==> Progress(lines[..i + 1], reports, None, mode, brigadeReason, senateReason)
    ensures current.Some? ==>
              var b := Block(current.value, mode, brigadeReason, senateReason, false);
              && Pending(b)
              && var b' := Absorb(b, lines[i]);
                 if b'.closed then Progress(lines[..i + 1], reports + [b'.report], None, NoMode, None, None)
                 else Progress(lines[..i + 1], reports, Some(b'.report), b'.mode, b'.brigadeReason, b'.senateReason)
  {
    hide Absorb, Read, Sections, Reports, Pending;
    SectionsNext(lines, i);
    var before := Sections(lines[..i]);
    if before != [] {
      ClosedAbsorbs(Read(before[|before| - 1].symbol, before[|before| - 1].body), lines[i]);
    }
  }

  lemma ClosedAbsorbs(b: Block, l: Line)
    requires Pending(b)
    ensures b.closed ==> Absorb(b, l) == b
  {
  }

  /** `parse_log`: whatever the text, the reports are those of its sections. */
  method ParseLog(lines: seq<Line>) returns (reports: seq<Report>)
    ensures reports == Reports(Sections(lines))
  {
    hide Progress, Read, Sections, Reports, Absorb;
    reports := [];
    var current: Option<Report> := None;
    var mode := NoMode;
    var brigadeReason: Option<nat> := None;
    var senateReason: Option<nat> := None;
    assert Progress(lines[..0], reports, current, mode, brigadeReason, senateReason) by { NothingRead(lines); }
    for i := 0 to |lines|
      invariant Progress(lines[..i], reports, current, mode, brigadeReason, senateReason)
    {
      var line := lines[i];
      if line.header.Some? {
        NextHeader(lines, i, reports, current, mode, brigadeReason, senateReason);
        if current.Some? {
          reports := reports + [current.value.(incomplete := true, notes := current.value.notes + [Superseded])];
        }
        current := Some(Report(line.header.value, [], [], [], None, false, []));
        mode, brigadeReason, senateReason := NoMode, None, None;
        continue;
      }
      NextLine(lines, i, reports, current, mode, brigadeReason, senateReason);
      if current.None? {
        continue;
      }
      var done := false;
      current, mode, brigadeReason, senateReason, done := ReadLine(line, current.value, mode, brigadeReason, senateReason);
      if done {
        reports := reports + [current.value];
        current, mode, brigadeReason, senateReason := None, NoMode, None, None;
      }
    }
    assert lines[..|lines|] == lines;
    if current.Some? {
      if current.value.decision.None? {
        current := Some(current.value.(incomplete := true, notes := current.value.notes + [Undecided]));
      }
      LastOpen(lines, reports, current.value, mode, brigadeReason, senateReason);
      reports := reports + [current.value];
    } else {
      LastClosed(lines, reports, mode, brigadeReason, senateReason);
    }
  }

  lemma NothingRead(lines: seq<Line>)
    ensures Progress(lines[..0], [], None, NoMode, None, None)
  {
  }

  lemma LastOpen(lines: seq<Line>, reports: seq<Report>, final: Report, mode: Mode, brigadeReason: Option<nat>, senateReason: Option<nat>)
    requires exists open: Report ::
               && Progress(lines, reports, Some(open), mode, brigadeReason, senateReason)
               && final == if open.decision.None? then open.(incomplete := true, notes := open.notes + [Undecided]) else open
    ensures reports + [final] == Reports(Sections(lines))
  {
    var sections := Sections(lines);
    var n := |sections| - 1;
    assert Reports(sections) == Reports(sections)[..n] + [Reports(sections)[n]];
  }

  lemma LastClosed(lines: seq<Line>, reports: seq<Report>, mode: Mode, brigadeReason: Option<nat>, senateReason: Option<nat>)
    requires Progress(lines, reports, None, mode, brigadeReason, senateReason)
    ensures reports == Reports(Sections(lines))
  {
    var sections := Sections(lines);
    if sections != [] {
      var n := |sections| - 1;
      assert Reports(sections) == Reports(sections)[..n] + [Reports(sections)[n]];
    }
  }

  /** Votes after one line: at most one more, without reasoning yet, and nothing else touched but
      the reasoning of the pending one. */
  predicate VotesStep(before: seq<Vote>, after: seq<Vote>, pending: Option<nat>) {
    && |before| <= |after| <= |before| + 1
    && (|after| > |before| ==> after[|before|].reasoning == "")
    && forall i :: 0 <= i < |before| ==>
         && after[i] == before[i].(reasoning := after[i].reasoning)
         && (after[i] != before[i] ==> pending == Some(i) && |after| == |before|)
  }

  function Entries(r: Report): nat {
    |r.aiCalls| + |r.brigade| + |r.senate|
  }

  /** A line on which only the separator or the interruption can match. */
  predicate Bare(l: Line) {
    && l.aiCall.None? && !l.brigadeMark && !l.senateMark && l.brigadeVote.None? && l.senateVote.None?
    && l.reason.None? && l.decision.None? && l.cohesion.None? && l.dissent.None?
  }

  /** One line adds one call or one vote at most and keeps every earlier one; votes and reasons of
      a council change only in that council's part of the block. */
  predicate EntriesStep(before: Block, after: Block) {
    var r, s := before.report, after.report;
    && s.symbol == r.symbol && r.aiCalls <= s.aiCalls && Entries(r) <= Entries(s) <= Entries(r) + 1
    && VotesStep(r.brigade, s.brigade, before.brigadeReason) && VotesStep(r.senate, s.senate, before.senateReason)
    && (s.brigade != r.brigade ==> before.mode.Brigade?) && (s.senate != r.senate ==> before.mode.Senate?)
  }

  /** A decision, once read, is never lost; only an interruption makes the report incomplete; and a
      separator after the decision closes it, nothing else does, and closing changes nothing. */
  predicate OutcomeStep(before: Block, after: Block, l: Line) {
    var r, s := before.report, after.report;
    && (r.decision.Some? ==> s.decision.Some?) && (s.decision != r.decision ==> Entries(s) == Entries(r))
    && (s.notes == r.notes || s.notes == r.notes + [Interrupted])
    && (s.incomplete <==> r.incomplete || s.notes != r.notes)
    && (after.closed ==> l.separator && r.decision.Some? && after == before.(closed := true))
    && (Bare(l) && l.separator ==> (after.closed <==> r.decision.Some?))
  }

  /** Whatever a line changes in a report, it put there: the call, vote, reason, decision, cohesion and
      dissent are the ones read in that line, and a new vote or decision starts without the parts that
      later lines bring. */
  predicate TakenFrom(before: Block, after: Block, l: Line) {
    var r, s := before.report, after.report;
    && (s.aiCalls != r.aiCalls ==> l.aiCall.Some? && s.aiCalls == r.aiCalls + [l.aiCall.value])
    && (|s.brigade| > |r.brigade| ==>
          l.brigadeVote.Some? && NewVote(s.brigade[|r.brigade|], l.brigadeVote.value) && after.brigadeReason == Some(|r.brigade|))
    && (|s.senate| > |r.senate| ==>
          l.senateVote.Some? && NewVote(s.senate[|r.senate|], l.senateVote.value) && after.senateReason == Some(|r.senate|))
    && (forall i :: 0 <= i < |r.brigade| && i < |s.brigade| && s.brigade[i] != r.brigade[i] ==>
          l.reason == Some(s.brigade[i].reasoning))
    && (forall i :: 0 <= i < |r.senate| && i < |s.senate| && s.senate[i] != r.senate[i] ==>
          l.reason.Some? && l.reason.value != "" && s.senate[i].reasoning
            == if r.senate[i].reasoning == "" then l.reason.value else r.senate[i].reasoning + " " + l.reason.value)
    && (s.decision != r.decision ==> DecisionFrom(r.decision, s.decision, l))
  }

  predicate NewVote(v: Vote, read: Vote) {
    v.name == read.name && v.action == read.action && v.confidence == read.confidence && v.reasoning == ""
  }

  predicate DecisionFrom(earlier: Option<Decision>, later: Option<Decision>, l: Line) {
    && later.Some?
    && (|| (&& l.decision.Some? && later.value.direction == l.decision.value.direction
            && later.value.confidence == l.decision.value.confidence
            && later.value.cohesion == None && later.value.dissent == [] && later.value.raw == "")
        || (earlier.Some? && l.cohesion.Some? && later.value == earlier.value.(cohesion := l.cohesion))
        || (earlier.Some? && l.dissent.Some?
            && later.value == earlier.value.(dissent := l.dissent.value.names, raw := l.dissent.value.raw)))
  }

  /** Nothing is missed: a line of one kind alone has its effect. */
  predicate Taken(before: Block, after: Block, l: Line) {
    var r, s := before.report, after.report;
    && (l.aiCall.Some? ==> |s.aiCalls| == |r.aiCalls| + 1)
    && (l.aiCall.None? && l.brigadeMark ==> after.mode == Brigade)
    && (l.aiCall.None? && !l.brigadeMark && l.senateMark ==> after.mode == Senate)
    && (l.aiCall.None? && !l.brigadeMark && !l.senateMark ==>
          && after.mode == before.mode
          && (before.mode == Brigade && l.brigadeVote.Some? ==> |s.brigade| == |r.brigade| + 1)
          && (before.mode == Senate && l.senateVote.Some? ==> |s.senate| == |r.senate| + 1)
          && (before.mode == Brigade && l.brigadeVote.None? && l.reason.Some? && before.brigadeReason.Some?
                && before.brigadeReason.value < |r.brigade| == |s.brigade| ==>
                s.brigade[before.brigadeReason.value].reasoning == l.reason.value)
          && (l.brigadeVote.None? && l.senateVote.None? && l.reason.None? ==>
                && (l.decision.Some? ==> s.decision.Some? && s.decision.value.direction == l.decision.value.direction)
                && (l.decision.None? && l.cohesion.Some? && r.decision.Some? ==>
                      s.decision.Some? && s.decision.value.cohesion == l.cohesion)
                && (l.decision.None? && l.cohesion.None? && l.dissent.Some? && r.decision.Some? ==>
                      s.decision.Some? && s.decision.value.dissent == l.dissent.value.names && s.decision.value.raw == l.dissent.value.raw)))
  }

  lemma TakenSteps(b: Block, l: Line)
    requires Pending(b) && !b.closed
    ensures TakenFrom(b, Absorb(b, l), l)
  {
  }

  lemma AllTaken(b: Block, l: Line)
    requires Pending(b) && !b.closed
    ensures Taken(b, Absorb(b, l), l)
  {
    hide Joined;
  }

  lemma SameVotes(votes: seq<Vote>, pending: Option<nat>)
    ensures VotesStep(votes, votes, pending)
  {
  }

  lemma OneMoreVote(votes: seq<Vote>, v: Vote, pending: Option<nat>)
    requires v.reasoning == ""
    ensures VotesStep(votes, votes + [v], pending)
  {
  }

  lemma ReasonedVote(votes: seq<Vote>, k: nat, text: string)
    requires k < |votes|
    ensures VotesStep(votes, votes[k := votes[k].(reasoning := text)], Some(k))
  {
  }

  lemma BrigadeSteps(b: Block, l: Line)
    requires Pending(b) && !b.closed
    ensures var r, s := b.report, Absorb(b, l).report;
      VotesStep(r.brigade, s.brigade, b.brigadeReason) && (s.brigade != r.brigade ==> b.mode.Brigade?)
  {
    hide VotesStep, Joined, Fresh;
    var r := b.report;
    SameVotes(r.brigade, b.brigadeReason);
    if l.brigadeVote.Some? { OneMoreVote(r.brigade, l.brigadeVote.value.(reasoning := ""), b.brigadeReason); }
    if l.reason.Some? && b.brigadeReason.Some? { ReasonedVote(r.brigade, b.brigadeReason.value, l.reason.value); }
  }

  lemma SenateSteps(b: Block, l: Line)
    requires Pending(b) && !b.closed
    ensures var r, s := b.report, Absorb(b, l).report;
      VotesStep(r.senate, s.senate, b.senateReason) && (s.senate != r.senate ==> b.mode.Senate?)
  {
    hide VotesStep, Joined, Fresh;
    var r := b.report;
    SameVotes(r.senate, b.senateReason);
    if l.senateVote.Some? { OneMoreVote(r.senate, l.senateVote.value.(reasoning := ""), b.senateReason); }
    if l.reason.Some? && b.senateReason.Some? {
      var k := b.senateReason.value;
      ReasonedVote(r.senate, k, Joined(r.senate[k].reasoning, l.reason.value));
    }
  }

  lemma EntriesSteps(b: Block, l: Line)
    requires Pending(b) && !b.closed
    ensures EntriesStep(b, Absorb(b, l))
  {
    BrigadeSteps(b, l);
    SenateSteps(b, l);
    hide VotesStep, Joined, Fresh;
  }

  lemma OutcomeSteps(b: Block, l: Line)
    requires Pending(b) && !b.closed
    ensures OutcomeStep(b, Absorb(b, l), l)
  {
    hide Joined, Fresh;
  }

  /** The body of the loop inside a block: updates the current report, one alternative per line. */
  method ReadLine(line: Line, report: Report, mode0: Mode, brigadeReason0: Option<nat>, senateReason0: Option<nat>)
      returns (current: Option<Report>, mode: Mode, brigadeReason: Option<nat>, senateReason: Option<nat>, done: bool)
    requires Pending(Block(report, mode0, brigadeReason0, senateReason0, false))
    ensures current.Some?
    ensures Absorb(Block(report, mode0, brigadeReason0, senateReason0, false), line)
              == Block(current.value, mode, brigadeReason, senateReason, done)
    ensures EntriesStep(Block(report, mode0, brigadeReason0, senateReason0, false),
                        Block(current.value, mode, brigadeReason, senateReason, done))
    ensures OutcomeStep(Block(report, mode0, brigadeReason0, senateReason0, false),
                        Block(current.value, mode, brigadeReason, senateReason, done), line)
    ensures TakenFrom(Block(report, mode0, brigadeReason0, senateReason0, false),
                      Block(current.value, mode, brigadeReason, senateReason, done), line)
    ensures Taken(Block(report, mode0, brigadeReason0, senateReason0, false),
                  Block(current.value, mode, brigadeReason, senateReason, done), line)
  {
    EntriesSteps(Block(report, mode0, brigadeReason0, senateReason0, false), line);
    OutcomeSteps(Block(report, mode0, brigadeReason0, senateReason0, false), line);
    TakenSteps(Block(report, mode0, brigadeReason0, senateReason0, false), line);
    AllTaken(Block(report, mode0, brigadeReason0, senateReason0, false), line);
    hide EntriesStep, OutcomeStep, TakenFrom, Taken;
    var c := report;
    mode, brigadeReason, senateReason, done := mode0, brigadeReason0, senateReason0, false;
    if line.aiCall.Some? {
      return Some(c.(aiCalls := c.aiCalls + [line.aiCall.value])), mode, brigadeReason, senateReason, false;
    }
    if line.brigadeMark {
      return Some(c), Brigade, brigadeReason, senateReason, false;
    }
    if line.senateMark {
      return Some(c), Senate, brigadeReason, senateReason, false;
    }
    if mode == Brigade {
      if line.brigadeVote.Some? {
        c := c.(brigade := c.brigade + [line.brigadeVote.value.(reasoning := "")]);
        return Some(c), mode, Some(|c.brigade| - 1), senateReason, false;
      }
      if line.reason.Some? && brigadeReason.Some? {
        var k := brigadeReason.value;
        c := c.(brigade := c.brigade[k := c.brigade[k].(reasoning := line.reason.value)]);
        return Some(c), mode, None, senateReason, false;
      }
    }
    if mode == Senate {
      if line.senateVote.Some? {
        c := c.(senate := c.senate + [line.senateVote.value.(reasoning := "")]);
        return Some(c), mode, brigadeReason, Some(|c.senate| - 1), false;
      }
      if line.reason.Some? && senateReason.Some? {
        var k := senateReason.value;
        c := c.(senate := c.senate[k := c.senate[k].(reasoning := Joined(c.senate[k].reasoning, line.reason.value))]);
        return Some(c), mode, brigadeReason, senateReason, false;
      }
    }
    if line.decision.Some? {
      return Some(c.(decision := Some(Fresh(line.decision.value)))), mode, brigadeReason, senateReason, false;
    }
    if c.decision.Some? {
      if line.cohesion.Some? {
        c := c.(decision := Some(c.decision.value.(cohesion := line.cohesion)));
        return Some(c), mode, brigadeReason, senateReason, false;
      }
      if line.dissent.Some? {
        c := c.(decision := Some(c.decision.value.(dissent := line.dissent.value.names, raw := line.dissent.value.raw)));
        return Some(c), mode, brigadeReason, senateReason, false;
      }
    }
    if line.separator {
      return Some(c), mode, brigadeReason, senateReason, c.decision.Some?;
    }
    if line.interrupt {
      c := c.(incomplete := true, notes := c.notes + [Interrupted]);
    }
    return Some(c), mode, brigadeReason, senateReason, false;
  }
}
