/**
 * `generateEmailForMissingData` of `components/EditableDataForm.tsx`: the draft e-mail to the
 * broker that lists, section by section, the fields the form counts as missing.
 */
module FormEmail {
  import opened Wrappers
  import opened Js
  import opened Types
  import opened Form

  /** One of the sections the scan visits: its title in the e-mail and its configured fields. */
  datatype ScanSection = ScanSection(title: string, cells: seq<Cell>)

  /** A `missingFieldsBySection` entry: a section title and its `- label` lines. */
  datatype MissingGroup = MissingGroup(title: string, lines: seq<string>)

  /** `sectionsToScan`, with each section's configured fields read from the record. */
  function ScannedSections(d: ExtractedData): (r: seq<ScanSection>)
    ensures |r| == 4
  {
    [ ScanSection(GeneralInformationTitle, AnagraficaCells(d.anagrafica)),
      ScanSection(PropertyDetailsTitle, PropertyCells(d.propertyDetails)),
      ScanSection(GeneralLiabilityTitle, GeneralLiabilityCells(d.generalLiabilityDetails)),
      ScanSection(ProductLiabilityTitle, ProductLiabilityCells(d.productLiabilityDetails)) ]
  }

  /** The line listing a missing field. */
  function Bullet(caption: string): string {
    "- " + caption
  }

  /** `missingInSection`: one `- label` per missing field, in configuration order. */
  function MissingLines(cells: seq<Cell>): (r: seq<string>)
    ensures |r| <= |cells|
  {
    if cells == [] then []
    else
      var last := cells[|cells| - 1];
      MissingLines(cells[..|cells| - 1]) + (if IsValueMissing(last.value) then [Bullet(last.caption)] else [])
  }

  /** A line is listed exactly when it is the bullet of a missing field. */
  lemma {:induction false} MissingLinesListsMissing(cells: seq<Cell>, line: string)
    ensures line in MissingLines(cells)
      <==> exists i :: 0 <= i < |cells| && IsValueMissing(cells[i].value) && line == Bullet(cells[i].caption)
  {
    if cells != [] {
      var init := cells[..|cells| - 1];
      MissingLinesListsMissing(init, line);
      if exists i :: 0 <= i < |init| && IsValueMissing(init[i].value) && line == Bullet(init[i].caption) {
        var i :| 0 <= i < |init| && IsValueMissing(init[i].value) && line == Bullet(init[i].caption);
        assert cells[i] == init[i];
      }
      if exists i :: 0 <= i < |cells| && IsValueMissing(cells[i].value) && line == Bullet(cells[i].caption) {
        var i :| 0 <= i < |cells| && IsValueMissing(cells[i].value) && line == Bullet(cells[i].caption);
        if i < |init| {
          assert init[i] == cells[i];
        }
      }
    }
  }

  /** A section lists nothing exactly when none of its fields is missing. */
  lemma {:induction false} MissingLinesEmpty(cells: seq<Cell>)
    ensures MissingLines(cells) == [] <==> forall i :: 0 <= i < |cells| ==> !IsValueMissing(cells[i].value)
  {
    if cells != [] {
      var init := cells[..|cells| - 1];
      MissingLinesEmpty(init);
      if MissingLines(cells) == [] {
        forall i | 0 <= i < |cells| ensures !IsValueMissing(cells[i].value) {
          if i < |init| {
            assert init[i] == cells[i];
          }
        }
      }
    }
  }

  /** `missingFieldsBySection`, in insertion order: the sections with at least one missing field. */
  function MissingGroups(secs: seq<ScanSection>): (r: seq<MissingGroup>)
    ensures |r| <= |secs|
  {
    if secs == [] then []
    else
      var last := secs[|secs| - 1];
      var lines := MissingLines(last.cells);
      MissingGroups(secs[..|secs| - 1]) + (if lines != [] then [MissingGroup(last.title, lines)] else [])
  }

  /** `g` is the group a section contributes: its title with its non-empty missing lines. */
  predicate IsGroupOf(sec: ScanSection, g: MissingGroup) {
    g.lines != [] && g == MissingGroup(sec.title, MissingLines(sec.cells))
  }

  /** A group is listed exactly when some section contributes it. */
  lemma {:induction false} MissingGroupsListsSections(secs: seq<ScanSection>, g: MissingGroup)
    ensures g in MissingGroups(secs) <==> exists i :: 0 <= i < |secs| && IsGroupOf(secs[i], g)
  {
    if secs != [] {
      var init := secs[..|secs| - 1];
      var last := secs[|secs| - 1];
      var lines := MissingLines(last.cells);
      var tail := if lines != [] then [MissingGroup(last.title, lines)] else [];
      assert MissingGroups(secs) == MissingGroups(init) + tail;
      assert g in tail <==> IsGroupOf(last, g);
      MissingGroupsListsSections(init, g);
      if exists i :: 0 <= i < |init| && IsGroupOf(init[i], g) {
        var i :| 0 <= i < |init| && IsGroupOf(init[i], g);
        assert secs[i] == init[i];
      }
      if exists i :: 0 <= i < |secs| && IsGroupOf(secs[i], g) {
        var i :| 0 <= i < |secs| && IsGroupOf(secs[i], g);
        if i < |init| {
          assert init[i] == secs[i];
        }
      }
    }
  }

  /** Some group is listed exactly when some field of some scanned section is missing. */
  lemma {:induction false} MissingGroupsEmpty(secs: seq<ScanSection>)
    ensures MissingGroups(secs) == []
      <==> forall i, j :: 0 <= i < |secs| && 0 <= j < |secs[i].cells| ==> !IsValueMissing(secs[i].cells[j].value)
  {
    if secs != [] {
      var init := secs[..|secs| - 1];
      var last := secs[|secs| - 1];
      MissingGroupsEmpty(init);
      MissingLinesEmpty(last.cells);
      if MissingGroups(secs) == [] {
        forall i, j | 0 <= i < |secs| && 0 <= j < |secs[i].cells| ensures !IsValueMissing(secs[i].cells[j].value) {
          if i < |init| {
            assert init[i] == secs[i];
          }
        }
      } else if MissingGroups(init) != [] {
        var i, j :| 0 <= i < |init| && 0 <= j < |init[i].cells| && IsValueMissing(init[i].cells[j].value);
        assert secs[i] == init[i];
      }
    }
  }

  // ---------------------------------------------------------------------------
  // The draft

  const SubjectPrefix := "Request for Information: Policy for "
  const Greeting := "Dear Broker,\n\nThank you for sending over the documentation"
  const RequestLead := "." + " To proceed with the underwriting process for "
  const RequestAsk := ", we kindly request the following missing or zero-value information:\n\n"
  const RequestClosing := "\n\nPlease provide these details at your earliest convenience.\n\nBest regards,\nYour Underwriting Team"
  const CompleteLead := " for "
  const CompleteClosing := ". All primary data fields appear to be complete based on our initial review.\n\nIf you have any additional information to provide, please let us know.\n\nBest regards,\nYour Underwriting Team"

  /** `${title}:\n${lines.join('\n')}`. */
  function GroupText(g: MissingGroup): string {
    g.title + ":\n" + Join(g.lines, "\n")
  }

  function GroupTexts(gs: seq<MissingGroup>): (r: seq<string>)
    ensures |r| == |gs|
  {
    if gs == [] then [] else [GroupText(gs[0])] + GroupTexts(gs[1..])
  }

  lemma {:induction false} GroupTextAt(gs: seq<MissingGroup>, i: int)
    requires 0 <= i < |gs|
    ensures GroupTexts(gs)[i] == GroupText(gs[i])
  {
    if i > 0 {
      GroupTextAt(gs[1..], i - 1);
    }
  }

  /** The subject line: the entity name, or `'N/A'` when it is falsy. */
  function EmailSubject(entityName: Option<string>): string {
    SubjectPrefix + OrText(entityName, "N/A")
  }

  /** The opening that only the request template has. */
  function RequestOpening(entityName: Option<string>): string {
    Greeting + RequestLead + OrText(entityName, "your client")
  }

  /** The body: the request template listing the groups when there are any, else the all-complete note. */
  function EmailBody(entityName: Option<string>, groups: seq<MissingGroup>): string {
    var client := OrText(entityName, "your client");
    if groups != [] then
      Greeting + RequestLead + client + RequestAsk + Join(GroupTexts(groups), "\n\n") + RequestClosing
    else
      Greeting + CompleteLead + client + CompleteClosing
  }

  /**
   * `generateEmailForMissingData`: scans the four sections in order and returns the subject
   * and body it puts in the e-mail dialog. Every section record is present in an
   * `ExtractedData`, so the source's `if (sectionData)` test always passes.
   */
  method GenerateEmailForMissingData(d: ExtractedData) returns (subject: string, body: string)
    ensures subject == EmailSubject(d.anagrafica.entityName)
    ensures body == EmailBody(d.anagrafica.entityName, MissingGroups(ScannedSections(d)))
  {
    subject := EmailSubject(d.anagrafica.entityName);
    body := DraftBody(d);
  }

  /** The body of the draft, built from the groups the scan collects. */
  method DraftBody(d: ExtractedData) returns (body: string)
    ensures body == EmailBody(d.anagrafica.entityName, MissingGroups(ScannedSections(d)))
  {
    var sections := ScannedSections(d);
    var groups := CollectMissingGroups(sections);
    body := EmailBody(d.anagrafica.entityName, groups);
  }

  /** The `sectionsToScan.forEach` loop and, within it, the `section.fields.forEach` loop. */
  method CollectMissingGroups(sections: seq<ScanSection>) returns (groups: seq<MissingGroup>)
    ensures groups == MissingGroups(sections)
  {
    groups := [];
    var i := 0;
    while i < |sections|
      invariant 0 <= i <= |sections|
      invariant groups == MissingGroups(sections[..i])
    {
      var section := sections[i];
      var missing: seq<string> := [];
      var j := 0;
      while j < |section.cells|
        invariant 0 <= j <= |section.cells|
        invariant missing == MissingLines(section.cells[..j])
      {
        var cell := section.cells[j];
        if IsValueMissing(cell.value) {
          missing := missing + [Bullet(cell.caption)];
        }
        MissingLinesStep(section.cells, j);
        j := j + 1;
      }
      assert section.cells[..j] == section.cells;
      if missing != [] {
        groups := groups + [MissingGroup(section.title, missing)];
      }
      MissingGroupsStep(sections, i);
      i := i + 1;
    }
    assert sections[..i] == sections;
  }

  lemma MissingLinesStep(cells: seq<Cell>, j: int)
    requires 0 <= j < |cells|
    ensures MissingLines(cells[..j + 1])
      == MissingLines(cells[..j]) + (if IsValueMissing(cells[j].value) then [Bullet(cells[j].caption)] else [])
  {
    assert cells[..j + 1][..j] == cells[..j];
  }

  lemma MissingGroupsStep(secs: seq<ScanSection>, i: int)
    requires 0 <= i < |secs|
    ensures MissingGroups(secs[..i + 1]) == MissingGroups(secs[..i])
      + (if MissingLines(secs[i].cells) != [] then [MissingGroup(secs[i].title, MissingLines(secs[i].cells))] else [])
  {
    assert secs[..i + 1][..i] == secs[..i];
  }

  // ---------------------------------------------------------------------------
  // What the draft says

  /** Some field of some section is missing. */
  predicate SomeFieldMissing(secs: seq<ScanSection>) {
    exists i, j :: 0 <= i < |secs| && 0 <= j < |secs[i].cells| && IsValueMissing(secs[i].cells[j].value)
  }

  /** Two texts that share a head but differ right after it: neither starts with the other. */
  lemma DivergeAfter(head: string, leadA: string, restA: string, leadB: string, restB: string, tailB: string)
    requires leadA != [] && leadB != [] && leadA[0] != leadB[0]
    ensures !StartsWith(head + leadB + restB + tailB, head + leadA + restA)
  {
    var k := |head|;
    var s, p := head + leadB + restB + tailB, head + leadA + restA;
    assert p[k] == leadA[0];
    assert s[k] == leadB[0];
  }

  /** With groups to list, the body is the request template. */
  lemma RequestBodyOpens(entityName: Option<string>, groups: seq<MissingGroup>)
    requires groups != []
    ensures StartsWith(EmailBody(entityName, groups), RequestOpening(entityName))
  {
    var client := OrText(entityName, "your client");
    var listed := Join(GroupTexts(groups), "\n\n");
    Regroup(Greeting, RequestLead, client, RequestAsk, listed, RequestClosing);
  }

  /** `a + b + c + d + e + f` starts with `a + b + c`. */
  lemma Regroup(a: string, b: string, c: string, d: string, e: string, f: string)
    ensures StartsWith(a + b + c + d + e + f, a + b + c)
  {
    assert a + b + c + d + e + f == (a + b + c) + (d + e + f);
  }

  /** Without groups, the body is the all-complete note, which parts from the request template after the greeting. */
  lemma CompleteBodyDiffers(entityName: Option<string>)
    ensures !StartsWith(EmailBody(entityName, []), RequestOpening(entityName))
  {
    var client := OrText(entityName, "your client");
    assert CompleteLead[0] == ' ';
    assert RequestLead[0] == '.';
    DivergeAfter(Greeting, RequestLead, client, CompleteLead, client, CompleteClosing);
  }

  /** The body opens like the request template exactly when there is some group to list. */
  lemma RequestOpeningIffGroups(entityName: Option<string>, groups: seq<MissingGroup>)
    ensures StartsWith(EmailBody(entityName, groups), RequestOpening(entityName)) <==> groups != []
  {
    if groups != [] {
      RequestBodyOpens(entityName, groups);
    } else {
      CompleteBodyDiffers(entityName);
    }
  }

  /** The body uses the request template exactly when some scanned field is missing. */
  lemma RequestTemplateIffMissing(entityName: Option<string>, secs: seq<ScanSection>)
    ensures StartsWith(EmailBody(entityName, MissingGroups(secs)), RequestOpening(entityName))
      <==> SomeFieldMissing(secs)
  {
    MissingGroupsEmpty(secs);
    RequestOpeningIffGroups(entityName, MissingGroups(secs));
  }

  /** Each missing field of a scanned section is listed, under its `- label` line, in the body. */
  lemma MissingFieldIsListed(entityName: Option<string>, secs: seq<ScanSection>, i: int, j: int)
    requires 0 <= i < |secs| && 0 <= j < |secs[i].cells|
    requires IsValueMissing(secs[i].cells[j].value)
    ensures Contains(EmailBody(entityName, MissingGroups(secs)), Bullet(secs[i].cells[j].caption))
  {
    var cell := secs[i].cells[j];
    var lines := MissingLines(secs[i].cells);
    var groups := MissingGroups(secs);
    MissingLinesListsMissing(secs[i].cells, Bullet(cell.caption));
    var g := MissingGroup(secs[i].title, lines);
    MissingGroupsListsSections(secs, g);
    assert IsGroupOf(secs[i], g);
    var k :| 0 <= k < |groups| && groups[k] == g;
    var m :| 0 <= m < |lines| && lines[m] == Bullet(cell.caption);
    JoinContainsPart(lines, "\n", m);
    ContainsWithin(g.title + ":\n", Join(lines, "\n"), "", Bullet(cell.caption));
    assert g.title + ":\n" + Join(lines, "\n") + "" == GroupText(g);
    GroupTextAt(groups, k);
    JoinContainsPart(GroupTexts(groups), "\n\n", k);
    ContainsTrans(Join(GroupTexts(groups), "\n\n"), GroupText(g), Bullet(cell.caption));
    ContainsWithin(Greeting + RequestLead + OrText(entityName, "your client") + RequestAsk,
                   Join(GroupTexts(groups), "\n\n"), RequestClosing, Bullet(cell.caption));
  }
}
