/**
 The plan comment: the texts of a change, which projects are shown and in which order,
 and the comments that are posted. How much of a plan a comment holds is in Sections.
 */
module Report {
  import opened Text
  import opened DiffText
  import opened Parts
  import opened Sections
  import opened Json
  import opened Options
  import AttributeDiff
  import Compute
  import PathText = Views

  const DEFAULT_MAX_DETAILS := 200

  /** One entry of a plan in the texts the encoders made of it. */
  datatype Change = Change(
    id: string,
    action: Compute.Action,
    changedKeys: seq<string>,
    changedPaths: seq<string>,
    attributeDiff: seq<string>,
    risks: seq<string>,
    currentYAML: string,
    desiredYAML: string)

  datatype Finding = Finding(severity: string, ruleID: string, message: string, resourceID: string)

  datatype ProjectPlan = ProjectPlan(project: string, changes: seq<Change>, summary: Compute.Summary, findings: seq<Finding>)

  // ----- From a plan to its texts -----

  /** The encoders: json.Marshal of a value, the YAML of a body, the risk tags. */
  datatype Encoder = Encoder(value: Value -> string, yaml: Fields -> string, risks: Compute.Change -> seq<string>)

  function AttributeLine(l: AttributeDiff.Line, e: Encoder): string {
    (if l.Minus? then "- " else "+ ") + PathText.DisplayPath(PathText.Dotted(l.path)) + ": " + e.value(l.value)
  }

  function YAMLOf(body: Option<Fields>, e: Encoder): string {
    if body.Some? then e.yaml(body.value) else ""
  }

  function Encoded(c: Compute.Change, e: Encoder): (r: Change) {
    Change(c.id, c.action, c.keys, c.pathTexts,
           seq(|c.lines|, i requires 0 <= i < |c.lines| => AttributeLine(c.lines[i], e)),
           if c.action == Compute.Patch then e.risks(c) else [],
           YAMLOf(c.current, e), YAMLOf(c.desired, e))
  }

  function EncodedAll(cs: seq<Compute.Change>, e: Encoder): (rs: seq<Change>)
    ensures |rs| == |cs|
  {
    seq(|cs|, i requires 0 <= i < |cs| => Encoded(cs[i], e))
  }

  // ----- Texts -----

  function ActionText(a: Compute.Action): string {
    match a
    case Create => "CREATE"
    case Patch => "PATCH"
    case Delete => "DELETE"
    case NoOp => "NO-OP"
  }

  /** fmt's %v of a string slice. */
  function ListText(xs: seq<string>): string {
    "[" + JoinWith(xs, " ") + "]"
  }

  function LineText(c: Change): string {
    "- `" + ActionText(c.action) + "` " + c.id
    + (if c.changedKeys != [] then " changed=" + ListText(c.changedKeys) else "")
    + (if c.changedPaths != [] then " paths=" + ListText(c.changedPaths) else "")
    + (if c.risks != [] then " risks=" + ListText(c.risks) else "")
    + "\n"
  }

  function DiffTextOf(lines: seq<string>): string {
    CutWithinText(lines);
    Shortened(lines)
  }

  function YAMLBlock(title: string, yaml: string): string {
    "```yaml\n# " + title + "\n" + TruncateYAMLBlock(yaml) + "\n```"
  }

  /** `renderChangeDetails`; empty when there is nothing to show. */
  function DetailsText(c: Change): string {
    match c.action
    case Create => if c.desiredYAML == "" then "" else "\n" + YAMLBlock("desired", c.desiredYAML) + "\n"
    case Delete => if c.currentYAML == "" then "" else "\n" + YAMLBlock("current", c.currentYAML) + "\n"
    case Patch =>
      if c.attributeDiff != [] then "\n```diff\n" + DiffTextOf(c.attributeDiff) + "\n```\n"
      else BodiesText(c.currentYAML, c.desiredYAML)
    case NoOp => ""
  }

  function BodiesText(current: string, desired: string): string {
    var parts := (if current != "" then [YAMLBlock("current", current)] else [])
               + (if desired != "" then [YAMLBlock("desired", desired)] else []);
    if parts == [] then "" else "\n" + JoinWith(parts, "\n") + "\n"
  }

  lemma ShortenedSize(lines: seq<string>)
    ensures |DiffTextOf(lines)| <= MAX_BLOCK + |MARKER|
  {
    CutWithinText(lines);
  }

  /** There is nothing to show of a change besides its headline. */
  predicate Bare(c: Change) {
    match c.action
    case Create => c.desiredYAML == ""
    case Delete => c.currentYAML == ""
    case Patch => c.attributeDiff == [] && c.currentYAML == "" && c.desiredYAML == ""
    case NoOp => true
  }

  const MAX_DETAILS := 2 * (MAX_BLOCK + |MARKER|) + 47

  lemma YAMLBlockSize(title: string, yaml: string)
    requires |title| == 7
    ensures 22 <= |YAMLBlock(title, yaml)| <= MAX_BLOCK + |MARKER| + 22
  {
    assert |"```yaml\n# "| == 10 && |"\n```"| == 4;
  }

  /** Details are empty exactly when there is nothing to show, and never take more than
      two blocks. */
  lemma DetailsBounded(c: Change)
    ensures DetailsText(c) == "" <==> Bare(c)
    ensures |DetailsText(c)| <= MAX_DETAILS
  {
    assert |"current"| == 7 && |"desired"| == 7;
    YAMLBlockSize("current", c.currentYAML);
    YAMLBlockSize("desired", c.desiredYAML);
    if c.action == Compute.Patch {
      if c.attributeDiff != [] {
        DiffBlockSize(c.attributeDiff);
      } else {
        JoinedTwo(YAMLBlock("current", c.currentYAML), YAMLBlock("desired", c.desiredYAML));
      }
    }
  }

  lemma DiffBlockSize(lines: seq<string>)
    ensures 14 <= |"\n```diff\n" + DiffTextOf(lines) + "\n```\n"| <= MAX_BLOCK + |MARKER| + 14
  {
    ShortenedSize(lines);
    assert |"\n```diff\n"| == 9 && |"\n```\n"| == 5;
  }

  lemma JoinedTwo(a: string, b: string)
    ensures JoinWith([a, b], "\n") == a + "\n" + b
    ensures JoinWith([a], "\n") == a && JoinWith([], "\n") == ""
  {
    assert [a, b][1..] == [b];
  }

  function SummaryText(s: Compute.Summary): string {
    "Summary: CREATE=" + Digits(s.creates) + " PATCH=" + Digits(s.patches)
    + " DELETE=" + Digits(s.deletes) + " NO-OP=" + Digits(s.noops)
  }

  function FindingText(f: Finding): string {
    "- `" + f.severity + "` `" + f.ruleID + "` " + f.message + " (" + f.resourceID + ")\n"
  }

  function ItemOf(c: Change): (it: Item) {
    Item(c.action == Compute.NoOp, LineText(c), DetailsText(c))
  }

  function ItemsOf(changes: seq<Change>): (items: seq<Item>)
    ensures |items| == |changes|
  {
    Mapped(changes, ItemOf)
  }

  function Mapped<T, U>(xs: seq<T>, f: T -> U): (ys: seq<U>)
    ensures |ys| == |xs|
  {
    seq(|xs|, i requires 0 <= i < |xs| => f(xs[i]))
  }

  lemma MappedGrows<T, U>(xs: seq<T>, f: T -> U, i: nat)
    requires i < |xs|
    ensures Mapped(xs[..i + 1], f) == Mapped(xs[..i], f) + [f(xs[i])]
  {
  }

  method RenderItems(changes: seq<Change>) returns (items: seq<Item>)
    ensures items == ItemsOf(changes)
  {
    items := [];
    for i := 0 to |changes|
      invariant items == ItemsOf(changes[..i])
    {
      var it := RenderItem(changes[i]);
      MappedGrows(changes, ItemOf, i);
      items := items + [it];
    }
    assert changes[..|changes|] == changes;
  }

  method RenderItem(c: Change) returns (it: Item)
    ensures it == ItemOf(c)
  {
    var details := RenderChangeDetails(c);
    it := Item(c.action == Compute.NoOp, LineText(c), details);
  }

  /** `renderChangeDetails`. */
  method RenderChangeDetails(c: Change) returns (text: string)
    ensures text == DetailsText(c)
    ensures text == "" <==> Bare(c)
    ensures |text| <= MAX_DETAILS
  {
    DetailsBounded(c);
    match c.action
    case Create =>
      if c.desiredYAML == "" {
        return "";
      }
      text := "\n" + YAMLBlock("desired", c.desiredYAML) + "\n";
    case Delete =>
      if c.currentYAML == "" {
        return "";
      }
      text := "\n" + YAMLBlock("current", c.currentYAML) + "\n";
    case Patch =>
      if |c.attributeDiff| > 0 {
        var block := TruncateDiffLines(c.attributeDiff);
        return "\n```diff\n" + block + "\n```\n";
      }
      text := RenderBodies(c.currentYAML, c.desiredYAML);
    case NoOp =>
      text := "";
  }

  /** The bodies of a patch that has no lines. */
  method RenderBodies(current: string, desired: string) returns (text: string)
    ensures text == BodiesText(current, desired)
  {
    var parts: seq<string> := [];
    if current != "" {
      parts := parts + [YAMLBlock("current", current)];
    }
    if desired != "" {
      parts := parts + [YAMLBlock("desired", desired)];
    }
    if |parts| == 0 {
      return "";
    }
    text := "\n" + JoinWith(parts, "\n") + "\n";
  }

  // ----- The aggregated comment -----

  predicate HasActionableChanges(p: ProjectPlan) {
    p.summary.creates > 0 || p.summary.patches > 0 || p.summary.deletes > 0 || |p.findings| > 0
  }

  function Visible(projects: seq<ProjectPlan>): (ps: seq<ProjectPlan>)
    ensures forall p :: p in ps <==> p in projects && HasActionableChanges(p)
  {
    if projects == [] then []
    else
      var n := |projects| - 1;
      var rest := Visible(projects[..n]);
      assert projects == projects[..n] + [projects[n]];
      if HasActionableChanges(projects[n]) then rest + [projects[n]] else rest
  }

  /** sort.SliceStable by project name: insertion after everything not greater. */
  function InsertPlan(ps: seq<ProjectPlan>, p: ProjectPlan): (r: seq<ProjectPlan>) {
    if ps == [] || !Less(p.project, ps[|ps| - 1].project) then ps + [p]
    else InsertPlan(ps[..|ps| - 1], p) + [ps[|ps| - 1]]
  }

  function SortPlans(ps: seq<ProjectPlan>): (r: seq<ProjectPlan>) {
    if ps == [] then [] else InsertPlan(SortPlans(ps[..|ps| - 1]), ps[|ps| - 1])
  }

  ghost predicate SortedByProject(ps: seq<ProjectPlan>) {
    forall i, j :: 0 <= i < j < |ps| ==> !Less(ps[j].project, ps[i].project)
  }

  lemma {:induction false} InsertPlanSorts(ps: seq<ProjectPlan>, p: ProjectPlan)
    requires SortedByProject(ps)
    ensures SortedByProject(InsertPlan(ps, p)) && multiset(InsertPlan(ps, p)) == multiset(ps) + multiset{p}
    decreases |ps|
  {
    if ps != [] {
      var n := |ps| - 1;
      var init, last := ps[..n], ps[n];
      assert ps == init + [last];
      if Less(p.project, last.project) {
        InsertPlanSorts(init, p);
        LastStaysLast(ps, p, InsertPlan(init, p));
      } else {
        NoneIsLess(ps, p);
      }
    }
  }

  lemma LastStaysLast(ps: seq<ProjectPlan>, p: ProjectPlan, r: seq<ProjectPlan>)
    requires ps != [] && SortedByProject(ps) && Less(p.project, ps[|ps| - 1].project)
    requires SortedByProject(r) && multiset(r) == multiset(ps[..|ps| - 1]) + multiset{p}
    ensures SortedByProject(r + [ps[|ps| - 1]])
  {
    var init, last := ps[..|ps| - 1], ps[|ps| - 1];
    forall i | 0 <= i < |r| ensures !Less(last.project, r[i].project) {
      assert r[i] in multiset(r);
      if r[i] == p {
        LessTrichotomy(p.project, last.project);
      } else {
        assert r[i] in init;
      }
    }
  }

  lemma NoneIsLess(ps: seq<ProjectPlan>, p: ProjectPlan)
    requires ps != [] && SortedByProject(ps) && !Less(p.project, ps[|ps| - 1].project)
    ensures SortedByProject(ps + [p])
  {
    var last := ps[|ps| - 1];
    forall i | 0 <= i < |ps| ensures !Less(p.project, ps[i].project) {
      if i < |ps| - 1 && Less(p.project, ps[i].project) {
        LessTrichotomy(ps[i].project, last.project);
        if Less(ps[i].project, last.project) { LessTransitive(p.project, ps[i].project, last.project); }
      }
    }
  }

  lemma {:induction false} SortPlansSorts(ps: seq<ProjectPlan>)
    ensures SortedByProject(SortPlans(ps)) && multiset(SortPlans(ps)) == multiset(ps)
    decreases |ps|
  {
    if ps != [] {
      var n := |ps| - 1;
      assert ps == ps[..n] + [ps[n]];
      SortPlansSorts(ps[..n]);
      InsertPlanSorts(SortPlans(ps[..n]), ps[n]);
    }
  }

  // The parts of the comment that come before the projects.

  function Sum(a: Compute.Summary, b: Compute.Summary): Compute.Summary {
    Compute.Summary(a.creates + b.creates, a.patches + b.patches, a.deletes + b.deletes, a.noops + b.noops)
  }

  function TotalOf(ps: seq<ProjectPlan>): Compute.Summary {
    if ps == [] then Compute.Summary(0, 0, 0, 0) else Sum(TotalOf(ps[..|ps| - 1]), ps[|ps| - 1].summary)
  }

  function PreambleText(sha: string, ps: seq<ProjectPlan>): string {
    Preamble(sha, |ps|, TotalOf(ps))
  }

  function Preamble(sha: string, projects: nat, total: Compute.Summary): string {
    "## Thule Plan\n\nCommit: `" + sha + "`  \nProjects: `" + Digits(projects) + "`\n\n" + SummaryText(total) + "\n\n"
  }

  function NoDiffText(sha: string, projects: nat): string {
    "## Thule Plan\n\nCommit: `" + sha + "`\n\n"
    + "Summary: no CREATE/PATCH/DELETE changes for touched manifests.\n"
    + (if projects > 0 then "Projects checked: `" + Digits(projects) + "`\n" else "")
    + "\n> Thule is read-only and did not apply any changes.\n"
  }

  function FileLine(file: string): string {
    "- `" + file + "`\n"
  }

  function MoreFiles(n: nat): string {
    "- ... truncated (" + Digits(n) + " additional files)\n"
  }

  /** The first files, each on its line, and how many more there are. */
  function FilesText(files: seq<string>, limit: nat): string {
    if |files| <= limit then Spelled(files, FileLine, |files|)
    else Spelled(files, FileLine, limit) + MoreFiles(|files| - limit)
  }

  function NoChangesFrame(sha: string, noFiles: bool, listing: string): string {
    "## Thule Plan\n\nCommit: `" + sha + "`\n\nSummary: no diffs generated.\n"
    + (if noFiles then "Reason: no changed files were detected for this event.\n\n"
       else "Reason: changed files did not map to rendered Kubernetes resources in configured Thule projects.\n\n")
    + "### Changed files\n"
    + (if noFiles then "- none\n" else listing)
    + "\n> Thule is read-only and did not apply any changes.\n"
  }

  function NoChangesText(sha: string, files: seq<string>, maxFiles: int): string {
    NoChangesFrame(sha, files == [], FilesText(files, if maxFiles <= 0 then 50 else maxFiles))
  }

  /** The file list of the no-changes comment: all files, or the first and a notice. */
  method ListFiles(files: seq<string>, limit: nat) returns (text: string)
    ensures text == FilesText(files, limit)
  {
    text := "";
    for i := 0 to |files|
      invariant i <= limit && text == Spelled(files, FileLine, i)
    {
      if i >= limit {
        text := text + MoreFiles(|files| - limit);
        return;
      }
      text := text + FileLine(files[i]);
    }
  }

  method BuildNoChangesComment(sha: string, files: seq<string>, maxFiles: int) returns (text: string)
    ensures text == NoChangesText(sha, files, maxFiles)
  {
    var listing := ListFiles(files, if maxFiles <= 0 then 50 else maxFiles);
    text := NoChangesFrame(sha, files == [], listing);
  }

  function ViewOf(p: ProjectPlan): (v: View)
    ensures |v.items| == |p.changes|
  {
    View("### Project: `" + p.project + "`\n", SummaryText(p.summary) + "\n\n", ItemsOf(p.changes), FindingTexts(p.findings))
  }

  function FindingTexts(fs: seq<Finding>): (ts: seq<string>)
    ensures |ts| == |fs|
  {
    seq(|fs|, i requires 0 <= i < |fs| => FindingText(fs[i]))
  }

  function Views(ps: seq<ProjectPlan>): (vs: seq<View>)
    ensures |vs| == |ps|
  {
    seq(|ps|, i requires 0 <= i < |ps| => ViewOf(ps[i]))
  }

  method RenderViews(ps: seq<ProjectPlan>) returns (vs: seq<View>)
    ensures vs == Views(ps)
  {
    vs := [];
    for i := 0 to |ps|
      invariant vs == Views(ps[..i])
    {
      var items := RenderItems(ps[i].changes);
      var v := View("### Project: `" + ps[i].project + "`\n", SummaryText(ps[i].summary) + "\n\n", items, FindingTexts(ps[i].findings));
      assert v == ViewOf(ps[i]);
      vs := vs + [v];
    }
    assert ps[..|ps|] == ps;
  }

  method CollectVisible(projects: seq<ProjectPlan>) returns (visible: seq<ProjectPlan>)
    ensures visible == Visible(projects)
  {
    visible := [];
    for i := 0 to |projects|
      invariant visible == Visible(projects[..i])
    {
      assert projects[..i + 1][..i] == projects[..i];
      if HasActionableChanges(projects[i]) {
        visible := visible + [projects[i]];
      }
    }
    assert projects[..|projects|] == projects;
  }

  method AddUp(ps: seq<ProjectPlan>) returns (total: Compute.Summary)
    ensures total == TotalOf(ps)
  {
    total := Compute.Summary(0, 0, 0, 0);
    for i := 0 to |ps|
      invariant total == TotalOf(ps[..i])
    {
      assert ps[..i + 1][..i] == ps[..i];
      total := Sum(total, ps[i].summary);
    }
    assert ps[..|ps|] == ps;
  }

  /** What a comment on some projects says, and its size: that nothing was planned,
      that no project has a change, or the projects that have, sorted. */
  ghost predicate IsReport(sha: string, projects: seq<ProjectPlan>, maxResourceDetails: int, text: string, parts: seq<Part>) {
    var limit := if maxResourceDetails <= 0 then 200 else maxResourceDetails;
    var shown := SortPlans(Visible(projects));
    if projects == [] then text == NoChangesText(sha, [], 0)
    else if Visible(projects) == [] then text == NoDiffText(sha, |projects|)
    else
      && text == TextOf(parts)
      && IsComment(parts, PreambleText(sha, shown), Views(shown), limit)
      && |text| <= Max(900000, |PreambleText(sha, shown)|) + 512
  }

  /** `BuildAggregatedPlanComment`. */
  method BuildAggregatedPlanComment(sha: string, projects: seq<ProjectPlan>, maxResourceDetails: int)
    returns (text: string, ghost parts: seq<Part>)
    requires forall p :: p in projects ==> |p.changes| < MAX_LENGTH
    ensures IsReport(sha, projects, maxResourceDetails, text, parts)
  {
    parts := [];
    var limit := if maxResourceDetails <= 0 then DEFAULT_MAX_DETAILS else maxResourceDetails;
    if |projects| == 0 {
      text := BuildNoChangesComment(sha, [], 0);
      return;
    }
    var visible := CollectVisible(projects);
    if |visible| == 0 {
      return NoDiffText(sha, |projects|), parts;
    }
    var shown := SortPlans(visible);
    SortPlansSorts(visible);
    var views := RenderViews(shown);
    forall v | v in views ensures |v.items| < MAX_LENGTH {
      var i :| 0 <= i < |views| && views[i] == v;
      assert shown[i] in multiset(shown);
      assert shown[i] in visible;
    }
    var total := AddUp(shown);
    text, parts := BuildComment(Preamble(sha, |shown|, total), views, limit);
  }

  // ----- Summary and changes -----

  /** The counters of a plan count the changes that are listed. */
  lemma ListedAreCounted(cs: seq<Compute.Change>, e: Encoder)
    ensures var s := Compute.Tally(cs); |Actionable(ItemsOf(EncodedAll(cs, e)))| == s.creates + s.patches + s.deletes
  {
    var items := ItemsOf(EncodedAll(cs, e));
    forall i | 0 <= i < |cs| ensures items[i].noop == (cs[i].action == Compute.NoOp) {
      FlagOf(cs[i], e);
      assert items[i] == ItemOf(Encoded(cs[i], e));
    }
    FlaggedAreCounted(cs, items);
  }

  lemma FlagOf(c: Compute.Change, e: Encoder)
    ensures ItemOf(Encoded(c, e)).noop == (c.action == Compute.NoOp)
  {
  }

  lemma {:induction false} FlaggedAreCounted(cs: seq<Compute.Change>, items: seq<Item>)
    requires |cs| <= |items| && forall i :: 0 <= i < |cs| ==> items[i].noop == (cs[i].action == Compute.NoOp)
    ensures var s := Compute.Tally(cs); |ActionableOf(items, |cs|)| == s.creates + s.patches + s.deletes
    decreases |cs|
  {
    if cs != [] { FlaggedAreCounted(cs[..|cs| - 1], items); }
  }

  /** Some change is not a NO-OP. */
  predicate Acts(cs: seq<Compute.Change>) {
    exists i :: 0 <= i < |cs| && cs[i].action != Compute.NoOp
  }

  lemma {:induction false} TallyActs(cs: seq<Compute.Change>)
    ensures Counts(Compute.Tally(cs)) <==> Acts(cs)
    decreases |cs|
  {
    if cs != [] {
      var init, last := cs[..|cs| - 1], cs[|cs| - 1];
      TallyActs(init);
      ActsStep(cs);
      CountActs(Compute.Tally(init), last.action);
      assert Compute.Tally(cs) == Compute.Tally(init).Count(last.action);
    }
  }

  predicate Counts(s: Compute.Summary) {
    s.creates > 0 || s.patches > 0 || s.deletes > 0
  }

  lemma CountActs(s: Compute.Summary, a: Compute.Action)
    ensures Counts(s.Count(a)) <==> Counts(s) || a != Compute.NoOp
  {
  }

  lemma ActsStep(cs: seq<Compute.Change>)
    requires cs != []
    ensures Acts(cs) <==> Acts(cs[..|cs| - 1]) || cs[|cs| - 1].action != Compute.NoOp
  {
    var init := cs[..|cs| - 1];
    if Acts(init) {
      var i :| 0 <= i < |init| && init[i].action != Compute.NoOp;
      assert cs[i] == init[i];
    }
    if Acts(cs) {
      var i :| 0 <= i < |cs| && cs[i].action != Compute.NoOp;
      if i < |init| { assert init[i] == cs[i]; }
    }
  }

  /** A project whose summary is that of its changes is shown exactly when it lists a
      change that is not a NO-OP, or has a finding. */
  lemma ShownIffListsChange(p: ProjectPlan, cs: seq<Compute.Change>, e: Encoder)
    requires p.changes == EncodedAll(cs, e) && p.summary == Compute.Tally(cs)
    ensures HasActionableChanges(p) <==> Actionable(ItemsOf(p.changes)) != [] || p.findings != []
    ensures HasActionableChanges(p) <==> Acts(cs) || p.findings != []
  {
    ListedAreCounted(cs, e);
    TallyActs(cs);
  }

  // ----- Totals -----

  /** Each total counter is the sum of that counter over the projects. */
  lemma {:induction false} TotalsAreSums(ps: seq<ProjectPlan>)
    ensures TotalOf(ps) == Compute.Summary(
      Summed(ps, (p: ProjectPlan) => p.summary.creates, |ps|), Summed(ps, (p: ProjectPlan) => p.summary.patches, |ps|),
      Summed(ps, (p: ProjectPlan) => p.summary.deletes, |ps|), Summed(ps, (p: ProjectPlan) => p.summary.noops, |ps|))
    decreases |ps|
  {
    if ps != [] {
      var n := |ps| - 1;
      TotalsAreSums(ps[..n]);
      assert ps == ps[..n] + [ps[n]];
      SummedPrefix(ps[..n], [ps[n]], (p: ProjectPlan) => p.summary.creates, n);
      SummedPrefix(ps[..n], [ps[n]], (p: ProjectPlan) => p.summary.patches, n);
      SummedPrefix(ps[..n], [ps[n]], (p: ProjectPlan) => p.summary.deletes, n);
      SummedPrefix(ps[..n], [ps[n]], (p: ProjectPlan) => p.summary.noops, n);
    }
  }

  // ----- What is reported of an entry -----

  /** The report shows of a CREATE the YAML of the desired body, of a DELETE that of the
      live one, and of a PATCH a line for each of its lines, marked by its sign. */
  lemma ReportShowsEntry(desired: seq<Compute.Resource>, actual: seq<Compute.Resource>, opts: Compute.DiffOptions, c: Compute.Change, e: Encoder)
    requires c in Compute.Plan(desired, actual, opts)
    ensures var r := Encoded(c, e);
      && r.id == c.id && r.action == c.action
      && (c.action == Compute.Create ==>
            c.id in Compute.Index(desired, opts) && r.desiredYAML == e.yaml(Compute.Index(desired, opts)[c.id]) && r.currentYAML == "")
      && (c.action == Compute.Delete ==>
            c.id in Compute.Index(actual, opts) && r.currentYAML == e.yaml(Compute.Index(actual, opts)[c.id]) && r.desiredYAML == "")
      && |r.attributeDiff| == |c.lines|
      && forall i :: 0 <= i < |c.lines| ==> MarkedBySign(r.attributeDiff[i], c.lines[i], e)
  {
    Compute.EntriesCarryBodies(desired, actual, opts, c);
    forall i | 0 <= i < |c.lines| ensures MarkedBySign(Encoded(c, e).attributeDiff[i], c.lines[i], e) {
      LineMarked(c.lines[i], e);
    }
  }

  /** The text starts with the sign of the line and ends with its value. */
  ghost predicate MarkedBySign(text: string, l: AttributeDiff.Line, e: Encoder) {
    && |text| > |e.value(l.value)|
    && text[0] == (if l.Minus? then '-' else '+')
    && text[|text| - |e.value(l.value)|..] == e.value(l.value)
  }

  lemma LineMarked(l: AttributeDiff.Line, e: Encoder)
    ensures MarkedBySign(AttributeLine(l, e), l, e)
  {
  }
}
