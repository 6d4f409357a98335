/**
 How much of a plan is written into a comment. `SectionParts` and `CommentParts` say
 exactly which parts are written, by how many bytes there are before them; the methods
 are the loops of `appendPlanSections` and `BuildAggregatedPlanComment`.
 */
module Sections {
  import opened Parts

  // ----- As many as fit -----

  /** The k-th element is within the limit on their number, and it still fits with all
      those before it, when `used` bytes are there already. */
  predicate Fits<T>(xs: seq<T>, size: T -> nat, limit: int, used: nat, k: nat) {
    k < |xs| && k < limit && used + Summed(xs, size, k + 1) <= MAX_COMMENT
  }

  /** The first element, from k on, that is not written in full. */
  function Stop<T>(xs: seq<T>, size: T -> nat, limit: int, used: nat, k: nat): (p: nat)
    requires k <= |xs|
    ensures k <= p <= |xs|
    decreases |xs| - k
  {
    if Fits(xs, size, limit, used, k) then Stop(xs, size, limit, used, k + 1) else k
  }

  /** Everything before the stop fits, and what is at the stop does not: an element is
      left out only at the limit on their number or where it would not have fitted. */
  lemma {:induction false} StopMeans<T>(xs: seq<T>, size: T -> nat, limit: int, used: nat, k: nat)
    requires k <= |xs|
    ensures var p := Stop(xs, size, limit, used, k);
      && (forall j :: k <= j < p ==> Fits(xs, size, limit, used, j))
      && (p < |xs| ==> p >= limit || MAX_COMMENT < used + Summed(xs, size, p + 1))
    decreases |xs| - k
  {
    if Fits(xs, size, limit, used, k) { StopMeans(xs, size, limit, used, k + 1); }
  }

  // ----- The changes of one project -----

  /** The changes a plan asks for among the first n, in order. */
  function ActionableOf(items: seq<Item>, n: nat): (its: seq<Item>)
    requires n <= |items|
    ensures |its| <= n
  {
    if n == 0 then []
    else ActionableOf(items, n - 1) + if items[n - 1].noop then [] else [items[n - 1]]
  }

  function Actionable(items: seq<Item>): (its: seq<Item>) {
    ActionableOf(items, |items|)
  }

  function FullSize(it: Item): (n: nat) {
    |it.line| + |it.details|
  }

  /** A change printed in full. */
  function Shown(it: Item): seq<Part> {
    if it.details == "" then [Line(it)] else [Line(it), Details(it)]
  }

  /** The first n changes printed in full. */
  function ShownAll(its: seq<Item>, n: nat): seq<Part>
    requires n <= |its|
  {
    if n == 0 then [] else ShownAll(its, n - 1) + Shown(its[n - 1])
  }

  /** How many changes are printed in full, `used` bytes being there already. */
  function Printed(its: seq<Item>, maxDetails: int, used: nat): (p: nat)
    ensures p <= |its|
  {
    Stop(its, FullSize, maxDetails, used, 0)
  }

  /** What follows the first p changes: nothing if these are all, and otherwise one
      notice that states how many are missing, after the headline of the next one if
      that still fits. `at` bytes are there already. */
  function ChangeTail(its: seq<Item>, p: nat, maxDetails: int, at: nat): seq<Part>
    requires p <= |its|
  {
    if p == |its| then []
    else if p >= maxDetails then [CountNotice(|its| - p)]
    else if at + |its[p].line| > MAX_COMMENT then [SizeNotice(|its| - p)]
    else [Line(its[p]), SizeNotice(|its| - p)]
  }

  /** The list of changes, with its notices. */
  function ChangeList(its: seq<Item>, maxDetails: int, used: nat): seq<Part> {
    var p := Printed(its, maxDetails, used);
    ShownAll(its, p) + ChangeTail(its, p, maxDetails, used + Summed(its, FullSize, p))
  }

  /** A change that is counted as missing is not printed in full: what follows the
      printed ones never shows it whole. */
  lemma CutChangeIncomplete(its: seq<Item>, maxDetails: int, used: nat, p: nat, at: nat)
    requires p == Printed(its, maxDetails, used) < |its| && at == used + Summed(its, FullSize, p)
    ensures !(Shown(its[p]) <= ChangeTail(its, p, maxDetails, at))
  {
    assert p >= maxDetails || MAX_COMMENT < at + FullSize(its[p]) by {
      StopMeans(its, FullSize, maxDetails, used, 0);
    }
    TailShowsNot(its, p, maxDetails, at);
  }

  lemma TailShowsNot(its: seq<Item>, p: nat, maxDetails: int, at: nat)
    requires p < |its| && (p >= maxDetails || MAX_COMMENT < at + FullSize(its[p]))
    ensures !(Shown(its[p]) <= ChangeTail(its, p, maxDetails, at))
  {
    var shown, tail := Shown(its[p]), ChangeTail(its, p, maxDetails, at);
    if |tail| == 2 {
      assert shown[1] == Details(its[p]) && tail[1] == SizeNotice(|its| - p);
    } else {
      assert shown[0] == Line(its[p]) && tail[0] != shown[0];
    }
  }

  lemma {:induction false} ActionablePrefix(items: seq<Item>, i: nat)
    requires i <= |items|
    ensures ActionableOf(items, i) <= Actionable(items)
    decreases |items| - i
  {
    if i < |items| { ActionablePrefix(items, i + 1); }
  }

  method CountActionable(items: seq<Item>) returns (total: nat)
    ensures total == |Actionable(items)|
  {
    total := 0;
    for i := 0 to |items|
      invariant total == |ActionableOf(items, i)|
    {
      if !items[i].noop {
        total := total + 1;
      }
    }
  }

  datatype Fit = Whole | NoRoom | NoRoomForDetails

  /** One change: its headline and its details, as far as they fit. */
  method PrintChange(b: Builder, it: Item) returns (fit: Fit)
    requires b.Valid()
    modifies b
    ensures b.Valid() && (fit == Whole <==> old(|b.text|) + FullSize(it) <= MAX_COMMENT)
    ensures fit == NoRoom <==> old(|b.text|) + |it.line| > MAX_COMMENT
    ensures fit == Whole ==> b.parts == old(b.parts) + Shown(it) && |b.text| == old(|b.text|) + FullSize(it)
    ensures fit == NoRoom ==> b.parts == old(b.parts) && |b.text| == old(|b.text|)
    ensures fit == NoRoomForDetails ==> b.parts == old(b.parts) + [Line(it)] && |b.text| <= MAX_COMMENT
  {
    if |b.text| + |it.line| > MAX_COMMENT {
      return NoRoom;
    }
    b.Write(Line(it));
    if it.details == "" {
      return Whole;
    }
    if |b.text| + |it.details| > MAX_COMMENT {
      return NoRoomForDetails;
    }
    b.Write(Details(it));
    return Whole;
  }

  method WriteNotice(b: Builder, notice: Part)
    requires b.Valid() && (notice.CountNotice? || notice.SizeNotice?) && notice.missing < MAX_LENGTH
    modifies b
    ensures b.Valid() && b.parts == old(b.parts) + [notice]
    ensures |b.text| <= old(|b.text|) + 80
  {
    NoticeSizes(notice.missing);
    b.Write(notice);
  }

  // The loop has come to change k; if that is not printed in full, the list ends here.
  lemma ListEnds(its: seq<Item>, maxDetails: int, used: nat, k: nat)
    requires k <= |its| && Stop(its, FullSize, maxDetails, used, k) == Printed(its, maxDetails, used)
    requires !Fits(its, FullSize, maxDetails, used, k)
    ensures Printed(its, maxDetails, used) == k
    ensures ChangeList(its, maxDetails, used) == ShownAll(its, k) + ChangeTail(its, k, maxDetails, used + Summed(its, FullSize, k))
  {
  }

  /** The first k changes are written, after the parts `before` of `used` bytes. */
  ghost predicate UpTo(b: Builder, its: seq<Item>, before: seq<Part>, used: nat, k: nat)
    requires k <= |its|
    reads b
  {
    b.Valid() && b.parts == before + ShownAll(its, k) && |b.text| == used + Summed(its, FullSize, k)
  }

  /** One turn of the loop over the changes: the k-th is printed in full, or the list
      ends with the notice that it calls for. */
  method AppendChange(b: Builder, it: Item, k: nat, total: nat, maxDetails: int, ghost its: seq<Item>, ghost before: seq<Part>, ghost used: nat)
    returns (more: bool)
    requires k < |its| == total < MAX_LENGTH && its[k] == it && UpTo(b, its, before, used, k)
    requires Stop(its, FullSize, maxDetails, used, k) == Printed(its, maxDetails, used)
    modifies b
    ensures b.Valid() && (more <==> Fits(its, FullSize, maxDetails, used, k))
    ensures more ==> UpTo(b, its, before, used, k + 1) && |b.text| <= MAX_COMMENT
    ensures !more ==> b.parts == before + ChangeList(its, maxDetails, used) && Printed(its, maxDetails, used) == k
    ensures !more ==> |b.text| <= Max(old(|b.text|), MAX_COMMENT) + 80
  {
    ghost var shown, at := ShownAll(its, k), |b.text|;
    assert Summed(its, FullSize, k + 1) == Summed(its, FullSize, k) + FullSize(it);
    if k >= maxDetails {
      ListEnds(its, maxDetails, used, k);
      WriteNotice(b, CountNotice(total - k));
      assert b.parts == before + (shown + [CountNotice(total - k)]);
      return false;
    }
    var fit := PrintChange(b, it);
    if fit == Whole {
      assert b.parts == before + (shown + Shown(it));
      return true;
    }
    WriteCut(b, it, fit, total - k, before, shown);
    ListEnds(its, maxDetails, used, k);
    assert ChangeTail(its, k, maxDetails, at) == CutTail(it, fit, total - k);
    return false;
  }

  /** What is left behind for a change that does not fit. */
  function CutTail(it: Item, fit: Fit, missing: nat): seq<Part> {
    if fit == NoRoomForDetails then [Line(it), SizeNotice(missing)] else [SizeNotice(missing)]
  }

  method WriteCut(b: Builder, it: Item, fit: Fit, missing: nat, ghost before: seq<Part>, ghost shown: seq<Part>)
    requires b.Valid() && missing < MAX_LENGTH
    requires b.parts == if fit == NoRoomForDetails then before + shown + [Line(it)] else before + shown
    modifies b
    ensures b.Valid() && b.parts == before + (shown + CutTail(it, fit, missing)) && |b.text| <= old(|b.text|) + 80
  {
    WriteNotice(b, SizeNotice(missing));
  }

  /** The loop over the changes in `appendPlanSections`, with its notices. */
  method AppendChanges(b: Builder, items: seq<Item>, maxDetails: int) returns (printed: nat)
    requires b.Valid() && maxDetails > 0 && |items| < MAX_LENGTH
    modifies b
    ensures b.Valid() && printed == Printed(Actionable(items), maxDetails, old(|b.text|))
    ensures b.parts == old(b.parts) + ChangeList(Actionable(items), maxDetails, old(|b.text|))
    ensures |b.text| <= Max(old(|b.text|), MAX_COMMENT) + 80
  {
    ghost var its, before, used := Actionable(items), b.parts, |b.text|;
    printed := 0;
    var total := CountActionable(items);
    for i := 0 to |items|
      invariant printed == |ActionableOf(items, i)| <= |its| && UpTo(b, its, before, used, printed)
      invariant |b.text| <= Max(used, MAX_COMMENT)
      invariant Stop(its, FullSize, maxDetails, used, printed) == Printed(its, maxDetails, used)
    {
      if items[i].noop {
        continue;
      }
      ActionablePrefix(items, i + 1);
      var more := AppendChange(b, items[i], printed, total, maxDetails, its, before, used);
      if !more {
        return;
      }
      printed := printed + 1;
    }
    ListEnds(its, maxDetails, used, printed);
    assert b.parts == before + (ShownAll(its, printed) + []);
  }

  // ----- The findings -----

  function Length(s: string): nat { |s| }

  function FindingLines(texts: seq<string>, n: nat): seq<Part>
    requires n <= |texts|
  {
    if n == 0 then [] else FindingLines(texts, n - 1) + [FindingLine(texts[n - 1])]
  }

  /** The findings, up to the first that does not fit. */
  function FindingList(texts: seq<string>, used: nat): seq<Part> {
    if texts == [] then [NoneLine]
    else
      var n := Stop(texts, Length, |texts|, used, 0);
      FindingLines(texts, n) + if n < |texts| then [LimitNotice] else []
  }

  method AppendFindings(b: Builder, texts: seq<string>)
    requires b.Valid()
    modifies b
    ensures b.Valid() && b.parts == old(b.parts) + FindingList(texts, old(|b.text|))
    ensures |b.text| <= Max(old(|b.text|), MAX_COMMENT) + 37
  {
    ghost var before, used := b.parts, |b.text|;
    if texts == [] {
      b.Write(NoneLine);
      return;
    }
    for i := 0 to |texts|
      invariant b.Valid() && b.parts == before + FindingLines(texts, i) && |b.text| == used + Summed(texts, Length, i)
      invariant |b.text| <= Max(used, MAX_COMMENT)
      invariant Stop(texts, Length, |texts|, used, i) == Stop(texts, Length, |texts|, used, 0)
    {
      if |b.text| + |texts[i]| > MAX_COMMENT {
        b.Write(LimitNotice);
        assert b.parts == before + (FindingLines(texts, i) + [LimitNotice]);
        return;
      }
      b.Write(FindingLine(texts[i]));
      assert b.parts == before + (FindingLines(texts, i) + [FindingLine(texts[i])]);
    }
    assert b.parts == before + (FindingLines(texts, |texts|) + []);
  }

  // ----- The section of one project -----

  function NoneIf(empty: bool): seq<Part> {
    if empty then [NoneLine] else []
  }

  /** The changes under their heading. */
  function ChangeParts(its: seq<Item>, maxDetails: int, used: nat): seq<Part> {
    [ChangesHeading] + ChangeList(its, maxDetails, used + 13) + NoneIf(Printed(its, maxDetails, used + 13) == 0)
  }

  function SectionParts(its: seq<Item>, texts: seq<string>, maxDetails: int, used: nat): seq<Part> {
    var changes := ChangeParts(its, maxDetails, used);
    changes + [FindingsHeading] + FindingList(texts, used + Total(changes) + 22)
  }

  ghost predicate Asked(parts: seq<Part>, n: nat) {
    n == |parts|
  }

  /** The same for proofs that only pass parts on: those that open them say Asked. */
  ghost predicate IsChanges(parts: seq<Part>, its: seq<Item>, maxDetails: int, used: nat) {
    forall n {:trigger Asked(parts, n)} :: n == |parts| ==> parts == ChangeParts(its, maxDetails, used)
  }

  ghost predicate IsSection(parts: seq<Part>, its: seq<Item>, texts: seq<string>, maxDetails: int, used: nat) {
    forall n {:trigger Asked(parts, n)} :: n == |parts| ==> parts == SectionParts(its, texts, maxDetails, used)
  }

  method AppendChangeParts(b: Builder, items: seq<Item>, maxDetails: int) returns (ghost changes: seq<Part>)
    requires b.Valid() && maxDetails > 0 && |items| < MAX_LENGTH
    modifies b
    ensures b.Valid() && b.parts == old(b.parts) + changes
    ensures IsChanges(changes, Actionable(items), maxDetails, old(|b.text|))
    ensures |b.text| <= Max(old(|b.text|), MAX_COMMENT) + 100
  {
    ghost var before, its, used := b.parts, Actionable(items), |b.text| + 13;
    b.Write(ChangesHeading);
    var printed := AppendChanges(b, items, maxDetails);
    ghost var so := b.parts;
    if printed == 0 {
      b.Write(NoneLine);
    }
    assert b.parts == so + NoneIf(printed == 0);
    changes := [ChangesHeading] + ChangeList(its, maxDetails, used) + NoneIf(printed == 0);
    assert changes == ChangeParts(its, maxDetails, old(|b.text|));
    assert b.parts == before + changes;
  }

  /** `appendPlanSections`. */
  method AppendPlanSections(b: Builder, items: seq<Item>, texts: seq<string>, maxDetails: int) returns (ghost section: seq<Part>)
    requires b.Valid() && maxDetails > 0 && |items| < MAX_LENGTH
    modifies b
    ensures b.Valid() && b.parts == old(b.parts) + section
    ensures IsSection(section, Actionable(items), texts, maxDetails, old(|b.text|))
    ensures |b.text| <= Max(old(|b.text|), MAX_COMMENT) + 159
  {
    ghost var before := b.parts;
    b.Length();
    ghost var changes := AppendChangeParts(b, items, maxDetails);
    b.Length();
    TotalConcat(before, changes);
    b.Write(FindingsHeading);
    ghost var findings := FindingList(texts, |b.text|);
    AppendFindings(b, texts);
    section := changes + [FindingsHeading] + findings;
    MakesSection(section, Actionable(items), texts, maxDetails, old(|b.text|), changes, findings);
    assert b.parts == before + section;
  }

  lemma MakesSection(section: seq<Part>, its: seq<Item>, texts: seq<string>, maxDetails: int, used: nat, changes: seq<Part>, findings: seq<Part>)
    requires IsChanges(changes, its, maxDetails, used) && findings == FindingList(texts, used + Total(changes) + 22)
    requires section == changes + [FindingsHeading] + findings
    ensures IsSection(section, its, texts, maxDetails, used)
  {
    assert Asked(changes, |changes|);
    assert section == SectionParts(its, texts, maxDetails, used);
  }

  // ----- All projects -----

  function Gap(i: nat): seq<Part> {
    if i > 0 then [Newline] else []
  }

  function Heading(v: View, i: nat): seq<Part> {
    Gap(i) + [Fixed(v.header), Fixed(v.summary)]
  }

  /** Bytes of the heading lines of the i-th project. */
  function HeadingSize(v: View, i: nat): nat {
    |Gap(i)| + |v.header| + |v.summary|
  }

  /** What is written in place of a project whose heading lines do not fit. */
  function CutParts(v: View, i: nat, used: nat): seq<Part> {
    if used + |Gap(i)| + |v.header| > MAX_COMMENT then Gap(i) + [Newline, LimitNotice]
    else Gap(i) + [Fixed(v.header), LimitNotice]
  }

  /** What writes the section of a project after so many bytes. The comment as a whole
      is described for any such function; it is SectionParts that is used. */
  type Writer = (View, nat) -> seq<Part>

  ghost predicate Opened(v: View, used: nat) {
    true
  }

  ghost predicate WritesSections(w: Writer, maxDetails: int) {
    forall v, used {:trigger Opened(v, used)} ::
      w(v, used) == SectionParts(Actionable(v.items), v.findings, maxDetails, used)
  }

  function SectionWriter(maxDetails: int): (w: Writer) {
    (v: View, used: nat) => SectionParts(Actionable(v.items), v.findings, maxDetails, used)
  }

  /** There is such a writer. */
  lemma AWriter(maxDetails: int) returns (w: Writer)
    ensures WritesSections(w, maxDetails)
  {
    w := SectionWriter(maxDetails);
  }

  lemma SectionIs(section: seq<Part>, v: View, w: Writer, maxDetails: int, used: nat)
    requires WritesSections(w, maxDetails)
    ensures IsSection(section, Actionable(v.items), v.findings, maxDetails, used) <==> section == w(v, used)
  {
    assert Opened(v, used) && Asked(section, |section|);
  }

  /** The i-th project: its heading and its section, after the projects before it. */
  function Block(views: seq<View>, w: Writer, used: nat, i: nat): seq<Part>
    requires i < |views|
    decreases i, 1
  {
    Heading(views[i], i) + w(views[i], Position(views, w, used, i) + HeadingSize(views[i], i))
  }

  /** The first n projects, and the bytes that precede the next. */
  function BlocksUpTo(views: seq<View>, w: Writer, used: nat, n: nat): seq<Part>
    requires n <= |views|
    decreases n, 0
  {
    if n == 0 then [] else BlocksUpTo(views, w, used, n - 1) + Block(views, w, used, n - 1)
  }

  function Position(views: seq<View>, w: Writer, used: nat, n: nat): nat
    requires n <= |views|
    decreases n, 0
  {
    if n == 0 then used else Position(views, w, used, n - 1) + Total(Block(views, w, used, n - 1))
  }

  predicate HasRoom(views: seq<View>, w: Writer, used: nat, i: nat) {
    i < |views| && Position(views, w, used, i) + HeadingSize(views[i], i) <= MAX_COMMENT
  }

  /** How many projects are shown: up to the first whose heading lines do not fit. */
  function ProjectsShown(views: seq<View>, w: Writer, used: nat, i: nat): (n: nat)
    requires i <= |views|
    ensures i <= n <= |views| && !HasRoom(views, w, used, n)
    decreases |views| - i
  {
    if HasRoom(views, w, used, i) then ProjectsShown(views, w, used, i + 1) else i
  }

  function ProjectParts(views: seq<View>, w: Writer, used: nat): seq<Part> {
    var n := ProjectsShown(views, w, used, 0);
    BlocksUpTo(views, w, used, n) + Ending(views, w, used, n)
  }

  /** What follows the first n projects. */
  function Ending(views: seq<View>, w: Writer, used: nat, n: nat): seq<Part>
    requires n <= |views|
  {
    if n < |views| then CutParts(views[n], n, Position(views, w, used, n)) else []
  }

  /** All that a comment consists of. */
  function CommentParts(preamble: string, views: seq<View>, w: Writer): seq<Part> {
    [Fixed(preamble)] + ProjectParts(views, w, |preamble|) + [Footer]
  }

  /** The parts are those of the comment. */
  ghost predicate IsComment(parts: seq<Part>, preamble: string, views: seq<View>, maxDetails: int) {
    forall w {:trigger WritesSections(w, maxDetails)} :: WritesSections(w, maxDetails) ==> parts == CommentParts(preamble, views, w)
  }

  /** The heading lines of a project, or the notice that they do not fit. */
  method AppendHeading(b: Builder, v: View, i: nat) returns (ok: bool)
    requires b.Valid()
    modifies b
    ensures b.Valid() && (ok <==> old(|b.text|) + HeadingSize(v, i) <= MAX_COMMENT)
    ensures b.parts == old(b.parts) + if ok then Heading(v, i) else CutParts(v, i, old(|b.text|))
    ensures ok ==> |b.text| == old(|b.text|) + HeadingSize(v, i)
    ensures !ok ==> |b.text| <= Max(old(|b.text|), MAX_COMMENT) + 39
  {
    ghost var before, used := b.parts, |b.text|;
    if i > 0 {
      b.Write(Newline);
    }
    assert b.parts == before + Gap(i) && |b.text| == used + |Gap(i)|;
    if |b.text| + |v.header| > MAX_COMMENT {
      b.Write(Newline);
      b.Write(LimitNotice);
      assert b.parts == before + (Gap(i) + [Newline, LimitNotice]);
      return false;
    }
    b.Write(Fixed(v.header));
    if |b.text| + |v.summary| > MAX_COMMENT {
      b.Write(LimitNotice);
      assert b.parts == before + (Gap(i) + [Fixed(v.header), LimitNotice]);
      return false;
    }
    b.Write(Fixed(v.summary));
    assert b.parts == before + (Gap(i) + [Fixed(v.header), Fixed(v.summary)]);
    return true;
  }

  /** The project at position i, or the notice that it does not fit. */
  method AppendProject(b: Builder, v: View, i: nat, maxDetails: int) returns (ok: bool, ghost added: seq<Part>, ghost section: seq<Part>)
    requires b.Valid() && maxDetails > 0 && |v.items| < MAX_LENGTH
    modifies b
    ensures b.Valid() && b.parts == old(b.parts) + added
    ensures ok <==> old(|b.text|) + HeadingSize(v, i) <= MAX_COMMENT
    ensures ok ==> added == Heading(v, i) + section && |b.text| <= MAX_COMMENT + 159
    ensures ok ==> IsSection(section, Actionable(v.items), v.findings, maxDetails, old(|b.text|) + HeadingSize(v, i))
    ensures !ok ==> added == CutParts(v, i, old(|b.text|)) && |b.text| <= Max(old(|b.text|), MAX_COMMENT) + 39
  {
    ghost var before := b.parts;
    added, section := CutParts(v, i, |b.text|), [];
    ok := AppendHeading(b, v, i);
    if ok {
      section := AppendPlanSections(b, v.items, v.findings, maxDetails);
      added := Heading(v, i) + section;
      assert b.parts == before + added;
    }
  }

  /** The first i projects are written, after the parts `before` of `used` bytes. */
  ghost predicate ProjectsUpTo(b: Builder, views: seq<View>, w: Writer, before: seq<Part>, used: nat, i: nat)
    requires i <= |views|
    reads b
  {
    b.Valid() && b.parts == before + BlocksUpTo(views, w, used, i) && |b.text| == Position(views, w, used, i)
  }

  /** One turn of the loop over the projects. */
  method AppendNext(b: Builder, views: seq<View>, i: nat, maxDetails: int, ghost w: Writer, ghost before: seq<Part>, ghost used: nat)
    returns (ok: bool)
    requires i < |views| && maxDetails > 0 && |views[i].items| < MAX_LENGTH
    requires WritesSections(w, maxDetails) && ProjectsUpTo(b, views, w, before, used, i)
    modifies b
    ensures b.Valid() && (ok <==> HasRoom(views, w, used, i))
    ensures ok ==> ProjectsUpTo(b, views, w, before, used, i + 1) && |b.text| <= MAX_COMMENT + 159
    ensures ok ==> ProjectsShown(views, w, used, i + 1) == ProjectsShown(views, w, used, i)
    ensures !ok ==> b.parts == before + (BlocksUpTo(views, w, used, i) + Ending(views, w, used, i))
    ensures !ok ==> |b.text| <= Max(old(|b.text|), MAX_COMMENT) + 39
  {
    ghost var done, parts := BlocksUpTo(views, w, used, i), b.parts;
    b.Length();
    ghost var block, section;
    ok, block, section := AppendProject(b, views[i], i, maxDetails);
    b.Length();
    TotalConcat(parts, block);
    assert b.parts == before + (done + block);
    if ok {
      NextProject(views, w, maxDetails, used, i, section);
    }
  }

  /** The loop over the projects. */
  method AppendProjects(b: Builder, views: seq<View>, maxDetails: int, ghost w: Writer)
    requires b.Valid() && maxDetails > 0 && WritesSections(w, maxDetails) && forall v :: v in views ==> |v.items| < MAX_LENGTH
    modifies b
    ensures b.Valid() && b.parts == old(b.parts) + ProjectParts(views, w, old(|b.text|))
    ensures |b.text| <= Max(old(|b.text|), MAX_COMMENT) + 198
  {
    ghost var before, used := b.parts, |b.text|;
    for i := 0 to |views|
      invariant ProjectsUpTo(b, views, w, before, used, i) && |b.text| <= Max(used, MAX_COMMENT) + 159
      invariant ProjectsShown(views, w, used, i) == ProjectsShown(views, w, used, 0)
    {
      var ok := AppendNext(b, views, i, maxDetails, w, before, used);
      if !ok {
        LastProject(views, w, used, i);
        return;
      }
    }
    LastProject(views, w, used, |views|);
    assert b.parts == before + (BlocksUpTo(views, w, used, |views|) + []);
  }

  lemma NextProject(views: seq<View>, w: Writer, maxDetails: int, used: nat, i: nat, section: seq<Part>)
    requires WritesSections(w, maxDetails) && HasRoom(views, w, used, i)
    requires IsSection(section, Actionable(views[i].items), views[i].findings, maxDetails,
                       Position(views, w, used, i) + HeadingSize(views[i], i))
    ensures BlocksUpTo(views, w, used, i + 1) == BlocksUpTo(views, w, used, i) + (Heading(views[i], i) + section)
    ensures Position(views, w, used, i + 1) == Position(views, w, used, i) + Total(Heading(views[i], i) + section)
    ensures ProjectsShown(views, w, used, i + 1) == ProjectsShown(views, w, used, i)
  {
    SectionIs(section, views[i], w, maxDetails, Position(views, w, used, i) + HeadingSize(views[i], i));
    assert Block(views, w, used, i) == Heading(views[i], i) + section;
  }

  lemma LastProject(views: seq<View>, w: Writer, used: nat, i: nat)
    requires i <= |views| && !HasRoom(views, w, used, i) && ProjectsShown(views, w, used, i) == ProjectsShown(views, w, used, 0)
    ensures ProjectParts(views, w, used) == BlocksUpTo(views, w, used, i) + Ending(views, w, used, i)
  {
  }

  /** The comment of at least one visible project: exactly what it consists of, and
      that it stays within the limit, or the preamble, plus 512 bytes. */
  method BuildComment(preamble: string, views: seq<View>, maxDetails: int) returns (text: string, ghost parts: seq<Part>)
    requires maxDetails > 0 && forall v :: v in views ==> |v.items| < MAX_LENGTH
    ensures text == TextOf(parts) && IsComment(parts, preamble, views, maxDetails)
    ensures |text| <= Max(900000, |preamble|) + 512
  {
    var b := new Builder();
    ghost var w := AWriter(maxDetails);
    b.Write(Fixed(preamble));
    assert b.parts == [Fixed(preamble)];
    AppendProjects(b, views, maxDetails, w);
    b.Write(Footer);
    parts := b.parts;
    MakesComment(parts, preamble, views, maxDetails, w, ProjectParts(views, w, |preamble|));
    text := b.String();
  }

  // Two writers of the same sections write the same comment.
  lemma MakesComment(parts: seq<Part>, preamble: string, views: seq<View>, maxDetails: int, w: Writer, projects: seq<Part>)
    requires WritesSections(w, maxDetails) && projects == ProjectParts(views, w, |preamble|)
    requires parts == [Fixed(preamble)] + projects + [Footer]
    ensures IsComment(parts, preamble, views, maxDetails)
  {
    forall x | WritesSections(x, maxDetails) ensures parts == CommentParts(preamble, views, x) {
      SameShown(views, w, x, maxDetails, |preamble|, 0);
      SameBlocks(views, w, x, maxDetails, |preamble|, ProjectsShown(views, w, |preamble|, 0));
    }
  }

  lemma {:induction false} SameBlocks(views: seq<View>, w: Writer, x: Writer, maxDetails: int, used: nat, n: nat)
    requires n <= |views| && WritesSections(w, maxDetails) && WritesSections(x, maxDetails)
    ensures BlocksUpTo(views, w, used, n) == BlocksUpTo(views, x, used, n)
    ensures Position(views, w, used, n) == Position(views, x, used, n)
  {
    if n > 0 {
      SameBlocks(views, w, x, maxDetails, used, n - 1);
      SameSection(views[n - 1], w, x, maxDetails, Position(views, w, used, n - 1) + HeadingSize(views[n - 1], n - 1));
      assert Block(views, w, used, n - 1) == Block(views, x, used, n - 1);
    }
  }

  lemma SameSection(v: View, w: Writer, x: Writer, maxDetails: int, used: nat)
    requires WritesSections(w, maxDetails) && WritesSections(x, maxDetails)
    ensures w(v, used) == x(v, used)
  {
    assert Opened(v, used);
  }

  lemma {:induction false} SameShown(views: seq<View>, w: Writer, x: Writer, maxDetails: int, used: nat, i: nat)
    requires i <= |views| && WritesSections(w, maxDetails) && WritesSections(x, maxDetails)
    ensures ProjectsShown(views, w, used, i) == ProjectsShown(views, x, used, i)
    decreases |views| - i
  {
    SameBlocks(views, w, x, maxDetails, used, i);
    if HasRoom(views, w, used, i) { SameShown(views, w, x, maxDetails, used, i + 1); }
  }

  // ----- What is listed -----

  /** A plan lists exactly the changes that are not NO-OPs. */
  lemma {:induction false} ActionableMeans(items: seq<Item>, n: nat)
    requires n <= |items|
    ensures forall it :: it in ActionableOf(items, n) <==> it in items[..n] && !it.noop
  {
    if n > 0 {
      ActionableMeans(items, n - 1);
      assert items[..n] == items[..n - 1] + [items[n - 1]];
    }
  }

  /** The changes whose headlines are among the parts, in order. */
  function Headlines(parts: seq<Part>): (its: seq<Item>) {
    if parts == [] then []
    else Headlines(parts[..|parts| - 1]) + if parts[|parts| - 1].Line? then [parts[|parts| - 1].item] else []
  }

  lemma {:induction false} HeadlinesConcat(xs: seq<Part>, ys: seq<Part>)
    ensures Headlines(xs + ys) == Headlines(xs) + Headlines(ys)
    decreases |ys|
  {
    if ys == [] {
      assert xs + ys == xs;
    } else {
      var n := |ys| - 1;
      HeadlinesConcat(xs, ys[..n]);
      assert (xs + ys)[..|xs| + n] == xs + ys[..n];
    }
  }

  /** What is printed in full are the first n changes, in their order, each headline
      followed by its details if there are any. */
  lemma ShownInOrder(its: seq<Item>, n: nat)
    requires n <= |its|
    ensures Headlines(ShownAll(its, n)) == its[..n] && DetailsFollow(ShownAll(its, n))
  {
    ShownHeadlines(its, n);
    ShownDetails(its, n);
  }

  lemma {:induction false} ShownHeadlines(its: seq<Item>, n: nat)
    requires n <= |its|
    ensures Headlines(ShownAll(its, n)) == its[..n]
  {
    if n > 0 {
      ShownHeadlines(its, n - 1);
      OneHeadlineMore(ShownAll(its, n - 1), its[n - 1], its[..n - 1]);
      OneTaken(its, n);
    }
  }

  lemma OneHeadlineMore(parts: seq<Part>, it: Item, its: seq<Item>)
    requires Headlines(parts) == its
    ensures Headlines(parts + Shown(it)) == its + [it]
  {
    HeadlinesConcat(parts, Shown(it));
    HeadlineOf(it);
  }

  lemma OneTaken<T>(xs: seq<T>, n: nat)
    requires 0 < n <= |xs|
    ensures xs[..n - 1] + [xs[n - 1]] == xs[..n]
  {
  }

  lemma {:induction false} ShownDetails(its: seq<Item>, n: nat)
    requires n <= |its|
    ensures DetailsFollow(ShownAll(its, n))
  {
    if n > 0 {
      ShownDetails(its, n - 1);
      FollowConcat(ShownAll(its, n - 1), its[n - 1]);
    }
  }

  ghost predicate DetailsFollow(parts: seq<Part>) {
    forall i :: 0 <= i < |parts| && parts[i].Line? && parts[i].item.details != "" ==>
      i + 1 < |parts| && parts[i + 1] == Details(parts[i].item)
  }

  lemma FollowConcat(parts: seq<Part>, it: Item)
    requires DetailsFollow(parts)
    ensures DetailsFollow(parts + Shown(it))
  {
    var all := parts + Shown(it);
    forall i | 0 <= i < |all| && all[i].Line? && all[i].item.details != ""
      ensures i + 1 < |all| && all[i + 1] == Details(all[i].item)
    {
      if i < |parts| {
        assert all[i] == parts[i] && all[i + 1] == parts[i + 1];
      } else {
        assert all[i] == Shown(it)[i - |parts|];
      }
    }
  }

  lemma HeadlineOf(it: Item)
    ensures Headlines(Shown(it)) == [it]
  {
    assert Shown(it)[..1] == [Line(it)] && [Line(it)][..0] == [];
    assert Headlines([]) == [] && Headlines([Line(it)]) == [it];
  }
}
