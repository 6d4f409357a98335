/**
 What a comment announces, over all its projects: a notice of missing resources
 appears exactly when some change is not printed in full and states exactly how many,
 and nothing is left out that the limits would have let in.
 */
module Announcements {
  import opened Parts
  import opened Sections

  predicate IsNotice(p: Part, n: nat) {
    p == CountNotice(n) || p == SizeNotice(n)
  }

  ghost predicate Announces(parts: seq<Part>, n: nat) {
    exists i :: 0 <= i < |parts| && IsNotice(parts[i], n)
  }

  lemma AnnouncesConcat(xs: seq<Part>, ys: seq<Part>, n: nat)
    ensures Announces(xs + ys, n) <==> Announces(xs, n) || Announces(ys, n)
  {
    if Announces(xs, n) {
      var i :| 0 <= i < |xs| && IsNotice(xs[i], n);
      assert IsNotice((xs + ys)[i], n);
    }
    if Announces(ys, n) {
      var i :| 0 <= i < |ys| && IsNotice(ys[i], n);
      assert IsNotice((xs + ys)[|xs| + i], n);
    }
  }

  /** Exactly n of the changes are not printed in full. */
  predicate Lacks(its: seq<Item>, maxDetails: int, used: nat, n: nat) {
    n > 0 && Printed(its, maxDetails, used) == |its| - n
  }

  // ----- One section -----

  lemma {:induction false} ShownAnnouncesNothing(its: seq<Item>, k: nat, n: nat)
    requires k <= |its|
    ensures !Announces(ShownAll(its, k), n)
  {
    if k > 0 {
      ShownAnnouncesNothing(its, k - 1, n);
      AnnouncesConcat(ShownAll(its, k - 1), Shown(its[k - 1]), n);
    }
  }

  lemma TailAnnounces(its: seq<Item>, p: nat, maxDetails: int, at: nat, n: nat)
    requires p <= |its|
    ensures Announces(ChangeTail(its, p, maxDetails, at), n) <==> n > 0 && p == |its| - n
  {
    var tail := ChangeTail(its, p, maxDetails, at);
    if p < |its| { assert IsNotice(tail[|tail| - 1], |its| - p); }
  }

  lemma ListAnnounces(its: seq<Item>, maxDetails: int, used: nat, n: nat)
    ensures Announces(ChangeList(its, maxDetails, used), n) <==> Lacks(its, maxDetails, used, n)
  {
    var p := Printed(its, maxDetails, used);
    var at := used + Summed(its, FullSize, p);
    ShownAnnouncesNothing(its, p, n);
    TailAnnounces(its, p, maxDetails, at, n);
    AnnouncesConcat(ShownAll(its, p), ChangeTail(its, p, maxDetails, at), n);
  }

  lemma ChangesAnnounce(its: seq<Item>, maxDetails: int, used: nat, n: nat)
    ensures Announces(ChangeParts(its, maxDetails, used), n) <==> Lacks(its, maxDetails, used + 13, n)
  {
    var list := ChangeList(its, maxDetails, used + 13);
    var none := NoneIf(Printed(its, maxDetails, used + 13) == 0);
    ListAnnounces(its, maxDetails, used + 13, n);
    AnnouncesConcat([ChangesHeading], list, n);
    AnnouncesConcat([ChangesHeading] + list, none, n);
  }

  lemma {:induction false} FindingsAnnounceNothing(texts: seq<string>, k: nat, n: nat)
    requires k <= |texts|
    ensures !Announces(FindingLines(texts, k), n)
  {
    if k > 0 {
      FindingsAnnounceNothing(texts, k - 1, n);
      AnnouncesConcat(FindingLines(texts, k - 1), [FindingLine(texts[k - 1])], n);
    }
  }

  lemma FindingListAnnouncesNothing(texts: seq<string>, used: nat, n: nat)
    ensures !Announces(FindingList(texts, used), n)
  {
    if texts != [] {
      var k := Stop(texts, Length, |texts|, used, 0);
      FindingsAnnounceNothing(texts, k, n);
      AnnouncesConcat(FindingLines(texts, k), if k < |texts| then [LimitNotice] else [], n);
    }
  }

  /** A section announces n missing resources exactly when some change is not printed in
      full and n is how many. */
  lemma SectionAnnounces(section: seq<Part>, its: seq<Item>, texts: seq<string>, maxDetails: int, used: nat, n: nat)
    requires IsSection(section, its, texts, maxDetails, used)
    ensures Announces(section, n) <==> Lacks(its, maxDetails, used + 13, n)
  {
    var changes, findings := SectionOf(section, its, texts, maxDetails, used);
    ChangesAnnounce(its, maxDetails, used, n);
    FindingListAnnouncesNothing(texts, used + Total(changes) + 22, n);
    AnnouncesConcat(changes, [FindingsHeading], n);
    AnnouncesConcat(changes + [FindingsHeading], findings, n);
  }

  lemma SectionOf(section: seq<Part>, its: seq<Item>, texts: seq<string>, maxDetails: int, used: nat)
    returns (changes: seq<Part>, findings: seq<Part>)
    requires IsSection(section, its, texts, maxDetails, used)
    ensures changes == ChangeParts(its, maxDetails, used) && findings == FindingList(texts, used + Total(changes) + 22)
    ensures section == changes + [FindingsHeading] + findings
  {
    assert Asked(section, |section|);
    changes := ChangeParts(its, maxDetails, used);
    findings := FindingList(texts, used + Total(changes) + 22);
  }

  /** The first change that is not printed in full is beyond the detail limit, or would
      not have fitted; all before it are within both limits. */
  lemma LacksForReason(its: seq<Item>, maxDetails: int, used: nat, n: nat)
    requires Lacks(its, maxDetails, used, n)
    ensures |its| - n >= maxDetails || MAX_COMMENT < used + Summed(its, FullSize, |its| - n + 1)
    ensures forall k :: 0 <= k < |its| - n ==> Fits(its, FullSize, maxDetails, used, k)
  {
    StopMeans(its, FullSize, maxDetails, used, 0);
  }

  // ----- The projects of a comment -----

  /** The bytes before the first change of the i-th project. */
  function Start(views: seq<View>, w: Writer, used: nat, i: nat): nat
    requires i < |views|
  {
    Position(views, w, used, i) + HeadingSize(views[i], i) + 13
  }

  /** How many changes of the i-th project are printed in full. */
  function PrintedAt(views: seq<View>, w: Writer, maxDetails: int, used: nat, i: nat): (p: nat)
    requires i < |views|
    ensures p <= |Actionable(views[i].items)|
  {
    Printed(Actionable(views[i].items), maxDetails, Start(views, w, used, i))
  }

  /** The i-th project lacks exactly n of its changes. */
  ghost predicate LacksAt(views: seq<View>, w: Writer, maxDetails: int, used: nat, i: nat, n: nat)
    requires i < |views|
  {
    Lacks(Actionable(views[i].items), maxDetails, Start(views, w, used, i), n)
  }

  ghost predicate SomeLacks(views: seq<View>, w: Writer, maxDetails: int, used: nat, k: nat, n: nat)
    requires k <= |views|
  {
    exists i :: 0 <= i < k && LacksAt(views, w, maxDetails, used, i, n)
  }

  lemma WrittenAnnounces(v: View, w: Writer, maxDetails: int, used: nat, n: nat)
    requires WritesSections(w, maxDetails)
    ensures Announces(w(v, used), n) <==> Lacks(Actionable(v.items), maxDetails, used + 13, n)
  {
    SectionIs(w(v, used), v, w, maxDetails, used);
    SectionAnnounces(w(v, used), Actionable(v.items), v.findings, maxDetails, used, n);
  }

  lemma {:induction false} BlocksAnnounce(views: seq<View>, w: Writer, maxDetails: int, used: nat, k: nat, n: nat)
    requires k <= |views| && WritesSections(w, maxDetails)
    ensures Announces(BlocksUpTo(views, w, used, k), n) <==> SomeLacks(views, w, maxDetails, used, k, n)
  {
    if k > 0 {
      var v, at := views[k - 1], Position(views, w, used, k - 1) + HeadingSize(views[k - 1], k - 1);
      BlocksAnnounce(views, w, maxDetails, used, k - 1, n);
      WrittenAnnounces(v, w, maxDetails, at, n);
      AnnouncesConcat(Heading(v, k - 1), w(v, at), n);
      AnnouncesConcat(BlocksUpTo(views, w, used, k - 1), Block(views, w, used, k - 1), n);
      SomeLacksStep(views, w, maxDetails, used, k, n);
    }
  }

  lemma SomeLacksStep(views: seq<View>, w: Writer, maxDetails: int, used: nat, k: nat, n: nat)
    requires 0 < k <= |views|
    ensures SomeLacks(views, w, maxDetails, used, k, n) <==>
      SomeLacks(views, w, maxDetails, used, k - 1, n) || LacksAt(views, w, maxDetails, used, k - 1, n)
  {
    if SomeLacks(views, w, maxDetails, used, k - 1, n) {
      var i :| 0 <= i < k - 1 && LacksAt(views, w, maxDetails, used, i, n);
      assert 0 <= i < k && LacksAt(views, w, maxDetails, used, i, n);
    }
  }

  /** Over a whole comment: a notice of n missing resources appears exactly when some
      project shown lacks exactly n. */
  lemma CommentAnnounces(preamble: string, views: seq<View>, w: Writer, maxDetails: int, parts: seq<Part>, n: nat)
    requires WritesSections(w, maxDetails) && IsComment(parts, preamble, views, maxDetails)
    ensures Announces(parts, n) <==>
      SomeLacks(views, w, maxDetails, |preamble|, ProjectsShown(views, w, |preamble|, 0), n)
  {
    var shown := ProjectsShown(views, w, |preamble|, 0);
    var blocks, ending := BlocksUpTo(views, w, |preamble|, shown), Ending(views, w, |preamble|, shown);
    BlocksAnnounce(views, w, maxDetails, |preamble|, shown, n);
    EndingAnnouncesNothing(views, w, |preamble|, shown, n);
    FrameAnnounces(preamble, blocks, ending, n);
    assert parts == [Fixed(preamble)] + (blocks + ending) + [Footer];
  }

  lemma EndingAnnouncesNothing(views: seq<View>, w: Writer, used: nat, k: nat, n: nat)
    requires k <= |views|
    ensures !Announces(Ending(views, w, used, k), n)
  {
  }

  lemma FrameAnnounces(preamble: string, blocks: seq<Part>, ending: seq<Part>, n: nat)
    requires !Announces(ending, n)
    ensures Announces([Fixed(preamble)] + (blocks + ending) + [Footer], n) <==> Announces(blocks, n)
  {
    AnnouncesConcat(blocks, ending, n);
    AnnouncesConcat([Fixed(preamble)], blocks + ending, n);
    AnnouncesConcat([Fixed(preamble)] + (blocks + ending), [Footer], n);
  }

  // ----- What is shown, and why not more -----

  /** The heading of the i-th project and its first p changes, in full. */
  function Opening(v: View, i: nat, p: nat): seq<Part>
    requires p <= |Actionable(v.items)|
  {
    Heading(v, i) + ([ChangesHeading] + ShownAll(Actionable(v.items), p))
  }

  /** The comment shows the first p changes of the i-th project in full, and there are
      no more, or no more may be shown, or the next would have exceeded the limit. */
  ghost predicate ShowsAsMuch(parts: seq<Part>, v: View, i: nat, maxDetails: int, p: nat)
    requires p <= |Actionable(v.items)|
  {
    exists before, after :: parts == before + Opening(v, i, p) + after
      && (p == |Actionable(v.items)| || p >= maxDetails
          || 900000 < |TextOf(before + Opening(v, i, p))| + FullSize(Actionable(v.items)[p]))
  }

  lemma {:induction false} PositionIsTotal(views: seq<View>, w: Writer, used: nat, k: nat)
    requires k <= |views|
    ensures Position(views, w, used, k) == used + Total(BlocksUpTo(views, w, used, k))
  {
    if k > 0 {
      PositionIsTotal(views, w, used, k - 1);
      TotalConcat(BlocksUpTo(views, w, used, k - 1), Block(views, w, used, k - 1));
    }
  }

  lemma {:induction false} BlocksInclude(views: seq<View>, w: Writer, used: nat, k: nat, i: nat) returns (rest: seq<Part>)
    requires i < k <= |views|
    ensures BlocksUpTo(views, w, used, k) == BlocksUpTo(views, w, used, i) + Block(views, w, used, i) + rest
    decreases k
  {
    if i == k - 1 {
      rest := [];
    } else {
      rest := BlocksInclude(views, w, used, k - 1, i);
      rest := rest + Block(views, w, used, k - 1);
    }
  }

  lemma {:induction false} ShownTotal(its: seq<Item>, p: nat)
    requires p <= |its|
    ensures Total(ShownAll(its, p)) == Summed(its, FullSize, p)
  {
    if p > 0 {
      ShownTotal(its, p - 1);
      TotalConcat(ShownAll(its, p - 1), Shown(its[p - 1]));
      TotalShown(its[p - 1]);
    }
  }

  lemma TotalShown(it: Item)
    ensures Total(Shown(it)) == FullSize(it)
  {
    TotalOne(Line(it));
    if it.details != "" {
      TotalOne(Details(it));
      TotalConcat([Line(it)], [Details(it)]);
      assert [Line(it)] + [Details(it)] == Shown(it);
    }
  }

  lemma HeadingTotal(v: View, i: nat)
    ensures Total(Heading(v, i)) == HeadingSize(v, i)
  {
    TotalOne(Newline);
    TotalOne(Fixed(v.header));
    TotalOne(Fixed(v.summary));
    TotalConcat([Fixed(v.header)], [Fixed(v.summary)]);
    assert [Fixed(v.header)] + [Fixed(v.summary)] == [Fixed(v.header), Fixed(v.summary)];
    TotalConcat(Gap(i), [Fixed(v.header), Fixed(v.summary)]);
    assert Total([]) == 0;
  }

  lemma OpeningTotal(v: View, i: nat, p: nat)
    requires p <= |Actionable(v.items)|
    ensures Total(Opening(v, i, p)) == HeadingSize(v, i) + 13 + Summed(Actionable(v.items), FullSize, p)
  {
    var shown := ShownAll(Actionable(v.items), p);
    HeadingTotal(v, i);
    ShownTotal(Actionable(v.items), p);
    TotalOne(ChangesHeading);
    TotalConcat([ChangesHeading], shown);
    TotalConcat(Heading(v, i), [ChangesHeading] + shown);
  }

  lemma ChangesOpen(changes: seq<Part>, its: seq<Item>, maxDetails: int, used: nat) returns (tail: seq<Part>)
    requires changes == ChangeParts(its, maxDetails, used)
    ensures changes == [ChangesHeading] + ShownAll(its, Printed(its, maxDetails, used + 13)) + tail
  {
    var p := Printed(its, maxDetails, used + 13);
    var notice := ChangeTail(its, p, maxDetails, used + 13 + Summed(its, FullSize, p));
    tail := notice + NoneIf(p == 0);
    Regroup([ChangesHeading], ShownAll(its, p), notice, NoneIf(p == 0));
  }

  lemma Regroup(a: seq<Part>, b: seq<Part>, c: seq<Part>, d: seq<Part>)
    ensures a + b + c + d == a + (b + c + d) == a + (b + c) + d == a + b + (c + d)
  {
  }

  lemma SectionOpens(section: seq<Part>, its: seq<Item>, texts: seq<string>, maxDetails: int, used: nat) returns (after: seq<Part>)
    requires IsSection(section, its, texts, maxDetails, used)
    ensures section == [ChangesHeading] + ShownAll(its, Printed(its, maxDetails, used + 13)) + after
  {
    var changes, findings := SectionOf(section, its, texts, maxDetails, used);
    var tail := ChangesOpen(changes, its, maxDetails, used);
    after := tail + [FindingsHeading] + findings;
    Regroup([ChangesHeading] + ShownAll(its, Printed(its, maxDetails, used + 13)), tail, [FindingsHeading], findings);
  }

  lemma BlockOpens(views: seq<View>, w: Writer, maxDetails: int, used: nat, i: nat) returns (after: seq<Part>)
    requires i < |views| && WritesSections(w, maxDetails)
    ensures Block(views, w, used, i) == Opening(views[i], i, PrintedAt(views, w, maxDetails, used, i)) + after
  {
    var v, its, at := views[i], Actionable(views[i].items), Position(views, w, used, i) + HeadingSize(views[i], i);
    SectionIs(w(v, at), v, w, maxDetails, at);
    after := SectionOpens(w(v, at), its, v.findings, maxDetails, at);
    Regroup(Heading(v, i), [ChangesHeading] + ShownAll(its, Printed(its, maxDetails, at + 13)), after, []);
  }

  /** The bytes of the comment before the k-th project. */
  lemma TextBefore(preamble: string, views: seq<View>, w: Writer, k: nat)
    requires k <= |views|
    ensures Total([Fixed(preamble)] + BlocksUpTo(views, w, |preamble|, k)) == Position(views, w, |preamble|, k)
  {
    TotalOne(Fixed(preamble));
    TotalConcat([Fixed(preamble)], BlocksUpTo(views, w, |preamble|, k));
    PositionIsTotal(views, w, |preamble|, k);
  }

  // The comment around the i-th project.
  lemma CommentAround(preamble: string, views: seq<View>, w: Writer, maxDetails: int, i: nat) returns (after: seq<Part>)
    requires i < ProjectsShown(views, w, |preamble|, 0) && WritesSections(w, maxDetails)
    ensures CommentParts(preamble, views, w) ==
      ([Fixed(preamble)] + BlocksUpTo(views, w, |preamble|, i)) + Opening(views[i], i, PrintedAt(views, w, maxDetails, |preamble|, i)) + after
  {
    var n := ProjectsShown(views, w, |preamble|, 0);
    var rest := BlocksInclude(views, w, |preamble|, n, i);
    var tail := BlockOpens(views, w, maxDetails, |preamble|, i);
    var ending := Ending(views, w, |preamble|, n);
    after := tail + rest + ending + [Footer];
    Around([Fixed(preamble)], BlocksUpTo(views, w, |preamble|, i),
           Opening(views[i], i, PrintedAt(views, w, maxDetails, |preamble|, i)), tail, rest, ending);
  }

  lemma Around(head: seq<Part>, blocks: seq<Part>, opening: seq<Part>, tail: seq<Part>, rest: seq<Part>, ending: seq<Part>)
    ensures head + ((blocks + (opening + tail) + rest) + ending) + [Footer]
         == (head + blocks) + opening + (tail + rest + ending + [Footer])
  {
  }

  /** Of every project shown, the comment shows as much as the limits let in. */
  lemma ProjectsShowAsMuch(preamble: string, views: seq<View>, w: Writer, maxDetails: int, parts: seq<Part>, i: nat)
    requires WritesSections(w, maxDetails) && IsComment(parts, preamble, views, maxDetails)
    requires i < ProjectsShown(views, w, |preamble|, 0)
    ensures ShowsAsMuch(parts, views[i], i, maxDetails, PrintedAt(views, w, maxDetails, |preamble|, i))
  {
    var after := CommentAround(preamble, views, w, maxDetails, i);
    var before := [Fixed(preamble)] + BlocksUpTo(views, w, |preamble|, i);
    TextBefore(preamble, views, w, i);
    AsMuch(parts, views[i], i, maxDetails, before, PrintedAt(views, w, maxDetails, |preamble|, i), after);
  }

  lemma AsMuch(parts: seq<Part>, v: View, i: nat, maxDetails: int, before: seq<Part>, p: nat, after: seq<Part>)
    requires p == Printed(Actionable(v.items), maxDetails, Total(before) + HeadingSize(v, i) + 13)
    requires parts == before + Opening(v, i, p) + after
    ensures ShowsAsMuch(parts, v, i, maxDetails, p)
  {
    var its := Actionable(v.items);
    assert |TextOf(before + Opening(v, i, p))| == Total(before) + HeadingSize(v, i) + 13 + Summed(its, FullSize, p) by {
      TextTotal(before + Opening(v, i, p));
      TotalConcat(before, Opening(v, i, p));
      OpeningTotal(v, i, p);
    }
    assert p < |its| ==> p >= maxDetails || MAX_COMMENT < |TextOf(before + Opening(v, i, p))| + FullSize(its[p]) by {
      StopMeans(its, FullSize, maxDetails, Total(before) + HeadingSize(v, i) + 13, 0);
    }
  }

  /** A project is left out only when its heading lines would have exceeded the limit
      after all that is written before it, and then the comment says so. */
  lemma OmittedForSize(preamble: string, views: seq<View>, w: Writer, maxDetails: int, parts: seq<Part>)
    requires WritesSections(w, maxDetails) && IsComment(parts, preamble, views, maxDetails)
    requires ProjectsShown(views, w, |preamble|, 0) < |views|
    ensures var n := ProjectsShown(views, w, |preamble|, 0);
      var before := [Fixed(preamble)] + BlocksUpTo(views, w, |preamble|, n);
      && before <= parts
      && 900000 < |TextOf(before)| + HeadingSize(views[n], n)
      && LimitNotice in parts
  {
    var n := ProjectsShown(views, w, |preamble|, 0);
    var before, ending := [Fixed(preamble)] + BlocksUpTo(views, w, |preamble|, n), Ending(views, w, |preamble|, n);
    assert parts == before + (ending + [Footer]);
    assert ending[|ending| - 1] == LimitNotice;
    TextTotal(before);
    TextBefore(preamble, views, w, n);
  }
}
