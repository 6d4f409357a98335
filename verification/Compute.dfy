/**
 `Compute`: the plan of one project, from the desired and the live resources.
 `Plan` is what it returns; the theorems say what a reader of the plan may rely on.
 */
module Compute {
  import opened Json
  import opened Options
  import opened Text
  import opened Normalize
  import opened Projection
  import opened AttributeDiff
  import opened Positions
  import opened Views
  import LinePositions
  import NormalForm
  import Noise

  datatype Resource = Resource(apiVersion: string, kind: string, namespace: string, name: string, body: Fields)
  {
    function ID(): (id: string) {
      var ns := if namespace == "" then "_cluster" else namespace;
      apiVersion + "|" + kind + "|" + ns + "|" + name
    }
  }

  datatype Action = Create | Patch | Delete | NoOp

  /** One entry of the plan. The bodies stand for the YAML texts made from them. */
  datatype Change = Change(
    id: string,
    action: Action,
    keys: seq<string>,
    paths: set<Path>,
    pathTexts: seq<string>,
    lines: seq<Line>,
    current: Option<Fields>,
    desired: Option<Fields>)

  datatype Summary = Summary(creates: nat, patches: nat, deletes: nat, noops: nat)
  {
    function Total(): nat { creates + patches + deletes + noops }

    function Count(a: Action): (s: Summary)
      ensures s.Total() == Total() + 1
    {
      match a
      case Create => this.(creates := creates + 1)
      case Patch => this.(patches := patches + 1)
      case Delete => this.(deletes := deletes + 1)
      case NoOp => this.(noops := noops + 1)
    }
  }

  datatype DiffOptions = DiffOptions(pruneDeletes: bool, ignoreFields: seq<string>, ignoreActualExtraFields: bool)

  function NormalBody(r: Resource, ignore: seq<string>): (b: Fields) {
    Normalized(r.kind, r.body, ignore)
  }

  /** Each resource with its identity and its normalized body. */
  datatype Entry = Entry(id: string, body: Fields)

  function EntryOf(r: Resource, ignore: seq<string>): (e: Entry) {
    Entry(r.ID(), NormalBody(r, ignore))
  }

  function Entries(rs: seq<Resource>, ignore: seq<string>): (es: seq<Entry>)
    ensures |es| == |rs|
  {
    seq(|rs|, i requires 0 <= i < |rs| => EntryOf(rs[i], ignore))
  }

  predicate HasId(es: seq<Entry>, id: string) {
    exists i :: 0 <= i < |es| && es[i].id == id
  }

  type Bodies = map<string, Fields>

  /** The entries by identity; a later one replaces an earlier one. */
  function ById(es: seq<Entry>): (m: Bodies) {
    if es == [] then map[]
    else ById(es[..|es| - 1])[es[|es| - 1].id := es[|es| - 1].body]
  }

  function Index(rs: seq<Resource>, opts: DiffOptions): (m: Bodies) {
    ById(Entries(rs, opts.ignoreFields))
  }

  /** The live body that is compared: projected onto the desired one if asked. */
  function Compared(d: Fields, a: Fields, opts: DiffOptions): (b: Fields) {
    if opts.ignoreActualExtraFields then Project(Obj(d), Obj(a)).fields else a
  }

  function Bare(id: string, action: Action): Change {
    Change(id, action, [], {}, [], [], None, None)
  }

  /** The entry for one identity; None when a live-only resource is not pruned. */
  function Classify(id: string, d: Option<Fields>, a: Option<Fields>, opts: DiffOptions): (c: Option<Change>)
    requires d.Some? || a.Some?
    ensures c.Some? ==> c.value.id == id
  {
    if a.None? then Some(Bare(id, Create).(desired := d))
    else if d.None? then
      if opts.pruneDeletes then Some(Bare(id, Delete).(current := a)) else None
    else
      var b := Compared(d.value, a.value, opts);
      if d.value == b then Some(Bare(id, NoOp))
      else Some(Change(id, Patch,
                       SortedKeys(ChangedKeySet(d.value, b)),
                       ChangedPaths(Obj(d.value), Obj(b)),
                       SortedKeys(PathTexts(ChangedPaths(Obj(d.value), Obj(b)))),
                       Lines(Obj(d.value), Obj(b)),
                       Some(b), d))
  }

  function Lookup(m: Bodies, id: string): Option<Fields> {
    if id in m then Some(m[id]) else None
  }

  /** The entries of the first n identities. */
  function PlanOver(ids: seq<string>, n: nat, dm: Bodies, am: Bodies, opts: DiffOptions): (cs: seq<Change>)
    requires n <= |ids| && forall id :: id in ids ==> id in dm || id in am
  {
    if n == 0 then []
    else Extended(PlanOver(ids, n - 1, dm, am, opts), EntryFor(ids[n - 1], dm, am, opts))
  }

  function EntryFor(id: string, dm: Bodies, am: Bodies, opts: DiffOptions): (c: Option<Change>)
    requires id in dm || id in am
  {
    Classify(id, Lookup(dm, id), Lookup(am, id), opts)
  }

  function Extended(cs: seq<Change>, c: Option<Change>): (r: seq<Change>) {
    match c case None => cs case Some(x) => cs + [x]
  }

  function PlanOf(dm: Bodies, am: Bodies, opts: DiffOptions): (cs: seq<Change>) {
    var ids := SortedKeys(dm.Keys + am.Keys);
    PlanOver(ids, |ids|, dm, am, opts)
  }

  function Plan(desired: seq<Resource>, actual: seq<Resource>, opts: DiffOptions): (cs: seq<Change>) {
    PlanOf(Index(desired, opts), Index(actual, opts), opts)
  }

  function Tally(cs: seq<Change>): (s: Summary)
  {
    if cs == [] then Summary(0, 0, 0, 0)
    else Tally(cs[..|cs| - 1]).Count(cs[|cs| - 1].action)
  }

  function CountOf(cs: seq<Change>, a: Action): nat {
    if cs == [] then 0
    else CountOf(cs[..|cs| - 1], a) + if cs[|cs| - 1].action == a then 1 else 0
  }

  /** The counters are the per-action counts and add up to the length of the plan. */
  lemma {:induction false} TallyCounts(cs: seq<Change>)
    ensures var s := Tally(cs);
      && s.creates == CountOf(cs, Create) && s.patches == CountOf(cs, Patch)
      && s.deletes == CountOf(cs, Delete) && s.noops == CountOf(cs, NoOp)
      && s.Total() == |cs|
    decreases |cs|
  {
    if cs != [] { TallyCounts(cs[..|cs| - 1]); }
  }

  method Compute(desired: seq<Resource>, actual: seq<Resource>, opts: DiffOptions)
    returns (changes: seq<Change>, summary: Summary)
    ensures changes == Plan(desired, actual, opts)
    ensures summary == Tally(changes) && summary.Total() == |changes|
  {
    var dm := Collect(desired, opts);
    var am := Collect(actual, opts);
    changes, summary := Compare(dm, am, opts);
    TallyCounts(changes);
  }

  method Compare(dm: Bodies, am: Bodies, opts: DiffOptions) returns (changes: seq<Change>, summary: Summary)
    ensures changes == PlanOf(dm, am, opts)
    ensures summary == Tally(changes)
  {
    var sorted := SortedKeys(dm.Keys + am.Keys);
    changes, summary := CompareAll(sorted, dm, am, opts);
  }

  method CompareAll(sorted: seq<string>, dm: Bodies, am: Bodies, opts: DiffOptions)
    returns (changes: seq<Change>, summary: Summary)
    requires forall id :: id in sorted ==> id in dm || id in am
    ensures changes == PlanOver(sorted, |sorted|, dm, am, opts)
    ensures summary == Tally(changes)
  {
    changes, summary := [], Summary(0, 0, 0, 0);
    for n := 0 to |sorted|
      invariant changes == PlanOver(sorted, n, dm, am, opts)
      invariant summary == Tally(changes)
    {
      var k := sorted[n];
      assert k in sorted;
      var c := ChangeFor(k, dm, am, opts);
      changes, summary := Append(changes, summary, c);
    }
  }

  method Append(changes: seq<Change>, summary: Summary, c: Option<Change>)
    returns (changes': seq<Change>, summary': Summary)
    requires summary == Tally(changes)
    ensures changes' == Extended(changes, c)
    ensures summary' == Tally(changes')
  {
    changes', summary' := changes, summary;
    if c.Some? {
      TallyStep(changes, c.value);
      changes' := changes + [c.value];
      summary' := summary.Count(c.value.action);
    }
  }

  lemma TallyStep(cs: seq<Change>, c: Change)
    ensures Tally(cs + [c]) == Tally(cs).Count(c.action)
  {
    assert (cs + [c])[..|cs|] == cs;
  }

  method Collect(rs: seq<Resource>, opts: DiffOptions) returns (m: Bodies)
    ensures m == Index(rs, opts)
  {
    ghost var es := Entries(rs, opts.ignoreFields);
    m := map[];
    for i := 0 to |rs|
      invariant m == ById(es[..i])
    {
      assert es[..i + 1][..i] == es[..i];
      m := m[rs[i].ID() := NormalBody(rs[i], opts.ignoreFields)];
    }
    assert es[..|rs|] == es;
  }

  method ChangeFor(id: string, dm: Bodies, am: Bodies, opts: DiffOptions) returns (c: Option<Change>)
    requires id in dm || id in am
    ensures c == EntryFor(id, dm, am, opts)
  {
    var d, a := Lookup(dm, id), Lookup(am, id);
    if d.Some? && a.Some? {
      var b := a.value;
      if opts.ignoreActualExtraFields {
        b := Project(Obj(d.value), Obj(a.value)).fields;
      }
      if d.value == b {
        return Some(Bare(id, NoOp));
      }
      var keys := ChangedTopLevelKeys(d.value, b);
      var texts, paths := ChangedFieldPaths(Obj(d.value), Obj(b));
      var lines := BuildAttributeDiffLines(Obj(d.value), Obj(b));
      return Some(Change(id, Patch, keys, paths, texts, lines, Some(b), d));
    }
    if d.Some? {
      return Some(Bare(id, Create).(desired := d));
    }
    if opts.pruneDeletes {
      return Some(Bare(id, Delete).(current := a));
    }
    return None;
  }

  // ----- Shape of the plan -----

  /** The identity has an entry: it is desired, or live and pruned. */
  predicate Listed(dm: Bodies, am: Bodies, opts: DiffOptions, id: string) {
    id in dm || (id in am && opts.pruneDeletes)
  }

  predicate Planned(cs: seq<Change>, id: string) {
    exists i :: 0 <= i < |cs| && cs[i].id == id
  }

  ghost predicate SortedById(cs: seq<Change>) {
    forall i, j :: 0 <= i < j < |cs| ==> Less(cs[i].id, cs[j].id)
  }

  ghost predicate EachClassified(cs: seq<Change>, dm: Bodies, am: Bodies, opts: DiffOptions) {
    forall i :: 0 <= i < |cs| ==>
      && Listed(dm, am, opts, cs[i].id)
      && Some(cs[i]) == EntryFor(cs[i].id, dm, am, opts)
  }

  // One identity more.
  lemma PlanExtends(ids: seq<string>, n: nat, earlier: seq<Change>, c: Change)
    requires 0 < n <= |ids| && StrictlySorted(ids) && c.id == ids[n - 1]
    requires SortedById(earlier) && forall i :: 0 <= i < |earlier| ==> earlier[i].id in ids[..n - 1]
    ensures SortedById(earlier + [c]) && forall i :: 0 <= i <= |earlier| ==> (earlier + [c])[i].id in ids[..n]
    ensures forall id :: Planned(earlier, id) || id == c.id ==> Planned(earlier + [c], id)
  {
    forall i | 0 <= i < |earlier| ensures Less(earlier[i].id, c.id) && earlier[i].id in ids[..n] {
      var before := ids[..n - 1];
      assert earlier[i].id in before;
      var j :| 0 <= j < |before| && before[j] == earlier[i].id;
      assert ids[..n][j] == ids[j] == before[j];
    }
    assert ids[..n][n - 1] == c.id;
    ExtendedPlans(earlier, c);
  }

  /** The plan over the first n identities. */
  ghost predicate Shape(cs: seq<Change>, ids: seq<string>, n: nat, dm: Bodies, am: Bodies, opts: DiffOptions)
    requires n <= |ids|
  {
    && EachClassified(cs, dm, am, opts)
    && SortedById(cs)
    && (forall i :: 0 <= i < |cs| ==> cs[i].id in ids[..n])
    && (forall i :: 0 <= i < n && Listed(dm, am, opts, ids[i]) ==> Planned(cs, ids[i]))
  }

  lemma ShapeExtends(cs: seq<Change>, ids: seq<string>, n: nat, dm: Bodies, am: Bodies, opts: DiffOptions, c: Change)
    requires 0 < n <= |ids| && StrictlySorted(ids) && Shape(cs, ids, n - 1, dm, am, opts)
    requires c.id == ids[n - 1] && Listed(dm, am, opts, c.id) && EntryFor(c.id, dm, am, opts) == Some(c)
    ensures Shape(cs + [c], ids, n, dm, am, opts)
  {
    PlanExtends(ids, n, cs, c);
  }

  lemma ShapeStays(cs: seq<Change>, ids: seq<string>, n: nat, dm: Bodies, am: Bodies, opts: DiffOptions)
    requires 0 < n <= |ids| && Shape(cs, ids, n - 1, dm, am, opts) && !Listed(dm, am, opts, ids[n - 1])
    ensures Shape(cs, ids, n, dm, am, opts)
  {
    assert ids[..n] == ids[..n - 1] + [ids[n - 1]];
  }

  lemma EntryIffListed(id: string, dm: Bodies, am: Bodies, opts: DiffOptions)
    requires id in dm || id in am
    ensures EntryFor(id, dm, am, opts).Some? <==> Listed(dm, am, opts, id)
    ensures EntryFor(id, dm, am, opts).Some? ==> EntryFor(id, dm, am, opts).value.id == id
  {
  }

  lemma {:induction false} PlanOverShape(ids: seq<string>, n: nat, dm: Bodies, am: Bodies, opts: DiffOptions)
    requires n <= |ids| && StrictlySorted(ids) && forall id :: id in ids ==> id in dm || id in am
    ensures Shape(PlanOver(ids, n, dm, am, opts), ids, n, dm, am, opts)
    decreases n
  {
    if n > 0 {
      PlanOverShape(ids, n - 1, dm, am, opts);
      var earlier, here := PlanOver(ids, n - 1, dm, am, opts), EntryFor(ids[n - 1], dm, am, opts);
      EntryIffListed(ids[n - 1], dm, am, opts);
      if here.Some? {
        ShapeExtends(earlier, ids, n, dm, am, opts, here.value);
      } else {
        ShapeStays(earlier, ids, n, dm, am, opts);
      }
    }
  }

  lemma ExtendedPlans(cs: seq<Change>, c: Change)
    ensures forall id :: Planned(cs, id) || id == c.id ==> Planned(cs + [c], id)
  {
    var ds := cs + [c];
    assert ds[|cs|].id == c.id;
    forall id | Planned(cs, id) ensures Planned(ds, id) {
      var i :| 0 <= i < |cs| && cs[i].id == id;
      assert ds[i].id == id;
    }
  }

  lemma PlanOfShape(dm: Bodies, am: Bodies, opts: DiffOptions)
    ensures var cs := PlanOf(dm, am, opts);
      && EachClassified(cs, dm, am, opts)
      && SortedById(cs)
      && (forall id :: Planned(cs, id) <==> Listed(dm, am, opts, id))
  {
    var ids := SortedKeys(dm.Keys + am.Keys);
    var cs := PlanOver(ids, |ids|, dm, am, opts);
    PlanOverShape(ids, |ids|, dm, am, opts);
    forall id | Listed(dm, am, opts, id) ensures Planned(cs, id) {
      assert id in ids;
    }
  }

  lemma {:induction false} PlanOverLength(ids: seq<string>, n: nat, dm: Bodies, am: Bodies, opts: DiffOptions)
    requires n <= |ids| && forall id :: id in ids ==> id in dm || id in am
    ensures |PlanOver(ids, n, dm, am, opts)| <= n
  {
    if n > 0 { PlanOverLength(ids, n - 1, dm, am, opts); }
  }

  lemma {:induction false} ByIdLength(es: seq<Entry>)
    ensures |ById(es)| <= |es|
    decreases |es|
  {
    if es != [] {
      var init := ById(es[..|es| - 1]);
      ByIdLength(es[..|es| - 1]);
      assert ById(es).Keys == init.Keys + {es[|es| - 1].id};
      assert |ById(es)| == |ById(es).Keys| && |init| == |init.Keys|;
    }
  }

  /** A plan has no more entries than there are resources. */
  lemma PlanLength(desired: seq<Resource>, actual: seq<Resource>, opts: DiffOptions)
    ensures |Plan(desired, actual, opts)| <= |desired| + |actual|
  {
    var dm, am := Index(desired, opts), Index(actual, opts);
    var ids := SortedKeys(dm.Keys + am.Keys);
    PlanOverLength(ids, |ids|, dm, am, opts);
    ByIdLength(Entries(desired, opts.ignoreFields));
    ByIdLength(Entries(actual, opts.ignoreFields));
    assert |dm.Keys + am.Keys| <= |dm.Keys| + |am.Keys|;
    assert |dm| == |dm.Keys| && |am| == |am.Keys|;
  }

  lemma {:induction false} ByIdKeys(es: seq<Entry>, id: string)
    ensures id in ById(es) <==> HasId(es, id)
    decreases |es|
  {
    if es != [] {
      var n := |es| - 1;
      ByIdKeys(es[..n], id);
      if HasId(es[..n], id) {
        var i :| 0 <= i < n && es[..n][i].id == id;
        assert es[i].id == id;
      }
      if HasId(es, id) && es[n].id != id {
        var i :| 0 <= i < |es| && es[i].id == id;
        assert es[..n][i].id == id;
      }
    }
  }

  /** Some resource of the list has this identity. */
  predicate Occurs(rs: seq<Resource>, id: string) {
    exists i :: 0 <= i < |rs| && rs[i].ID() == id
  }

  lemma IndexKeys(rs: seq<Resource>, opts: DiffOptions, id: string)
    ensures id in Index(rs, opts) <==> Occurs(rs, id)
  {
    var es := Entries(rs, opts.ignoreFields);
    ByIdKeys(es, id);
    if Occurs(rs, id) {
      var i :| 0 <= i < |rs| && rs[i].ID() == id;
      assert es[i].id == id;
    }
    if HasId(es, id) {
      var i :| 0 <= i < |es| && es[i].id == id;
      assert rs[i].ID() == id;
    }
  }

  /** The plan is strictly sorted by identity and has one entry for exactly the
      desired identities plus, when pruning, the live-only ones. */
  lemma PlanCoversExactly(desired: seq<Resource>, actual: seq<Resource>, opts: DiffOptions)
    ensures SortedById(Plan(desired, actual, opts))
    ensures forall id :: Planned(Plan(desired, actual, opts), id) <==>
      Occurs(desired, id) || (opts.pruneDeletes && Occurs(actual, id))
  {
    PlanOfShape(Index(desired, opts), Index(actual, opts), opts);
    forall id ensures Planned(Plan(desired, actual, opts), id) <==>
      Occurs(desired, id) || (opts.pruneDeletes && Occurs(actual, id))
    {
      IndexKeys(desired, opts, id);
      IndexKeys(actual, opts, id);
    }
  }

  /** Which action an entry has, by where its identity occurs. */
  lemma PlanActions(desired: seq<Resource>, actual: seq<Resource>, opts: DiffOptions, c: Change)
    requires c in Plan(desired, actual, opts)
    ensures c.action == Create <==> Occurs(desired, c.id) && !Occurs(actual, c.id)
    ensures c.action == Delete <==> !Occurs(desired, c.id) && Occurs(actual, c.id)
    ensures c.action == Patch || c.action == NoOp <==> Occurs(desired, c.id) && Occurs(actual, c.id)
  {
    var dm, am := Index(desired, opts), Index(actual, opts);
    PlanOfShape(dm, am, opts);
    IndexKeys(desired, opts, c.id);
    IndexKeys(actual, opts, c.id);
    ActionsOf(c.id, Lookup(dm, c.id), Lookup(am, c.id), opts);
  }

  lemma ActionsOf(id: string, d: Option<Fields>, a: Option<Fields>, opts: DiffOptions)
    requires d.Some? || a.Some?
    ensures var c := Classify(id, d, a, opts); c.Some? ==>
      && (c.value.action == Create <==> d.Some? && a.None?)
      && (c.value.action == Delete <==> d.None? && a.Some?)
      && (c.value.action == Patch || c.value.action == NoOp <==> d.Some? && a.Some?)
  {
  }

  // ----- NO-OP and PATCH entries -----

  lemma {:induction false} ByIdNoNull(es: seq<Entry>)
    requires forall i :: 0 <= i < |es| ==> NoNullFields(Obj(es[i].body))
    ensures forall id :: id in ById(es) ==> NoNullFields(Obj(ById(es)[id]))
    decreases |es|
  {
    if es != [] { ByIdNoNull(es[..|es| - 1]); }
  }

  /** Normalization leaves no null map value anywhere in what is compared. */
  lemma NormalBodyNoNull(r: Resource, ignore: seq<string>)
    ensures NoNullFields(Obj(NormalBody(r, ignore)))
  {
    var ps := IgnorePaths(ignore);
    var c := Obj(Stripped(r.kind, r.body));
    NormalForm.StrippedIsClean(r.kind, r.body);
    IgnoreLoopIsWithout(c, ps);
    NormalForm.WithoutKeepsNoNull(c, set p | p in ps);
  }

  lemma IndexNoNull(rs: seq<Resource>, opts: DiffOptions, id: string)
    requires id in Index(rs, opts)
    ensures NoNullFields(Obj(Index(rs, opts)[id]))
  {
    var es := Entries(rs, opts.ignoreFields);
    forall i | 0 <= i < |es| ensures NoNullFields(Obj(es[i].body)) {
      NormalBodyNoNull(rs[i], opts.ignoreFields);
    }
    ByIdNoNull(es);
  }

  /** With extra live fields ignored, an identity on both sides is a NO-OP exactly
      when the normalized desired body is contained in the normalized live one. */
  lemma NoOpIffEmbedded(desired: seq<Resource>, actual: seq<Resource>, opts: DiffOptions, c: Change)
    requires opts.ignoreActualExtraFields && c in Plan(desired, actual, opts)
    requires c.id in Index(desired, opts) && c.id in Index(actual, opts)
    ensures c.action == NoOp <==> Embeds(Obj(Index(desired, opts)[c.id]), Obj(Index(actual, opts)[c.id]))
    ensures c.action == NoOp || c.action == Patch
  {
    var dm, am := Index(desired, opts), Index(actual, opts);
    PlanOfShape(dm, am, opts);
    NoOpOf(c.id, dm[c.id], am[c.id], opts);
  }

  lemma NoOpOf(id: string, d: Fields, a: Fields, opts: DiffOptions)
    requires opts.ignoreActualExtraFields
    ensures var c := Classify(id, Some(d), Some(a), opts).value;
      (c.action == NoOp <==> Embeds(Obj(d), Obj(a))) && (c.action == NoOp || c.action == Patch)
  {
    ProjectEqualsIffEmbeds(Obj(d), Obj(a));
  }

  /** What every PATCH entry of every plan says: its lines turn the body shown as
      current into the one shown as desired, none of its views is empty, and the
      three views name the same top-level keys. With extra live fields ignored no
      line is a removal of its own. */
  ghost predicate SoundPatch(c: Change, opts: DiffOptions) {
    && c.current.Some? && c.desired.Some? && c.current.value != c.desired.value
    && Run(Obj(c.current.value), c.lines) == Some(Obj(c.desired.value))
    && c.keys != [] && c.paths != {} && c.lines != []
    && (forall k :: k in c.keys <==> PathStartsWith(c.paths, k))
    && (forall k :: k in c.keys <==> LineStartsWith(c.lines, k))
    && c.paths == KeyPrefixes(c.lines)
    && (opts.ignoreActualExtraFields ==> Paired(c.lines))
  }

  lemma PatchEntriesAreSound(desired: seq<Resource>, actual: seq<Resource>, opts: DiffOptions, c: Change)
    requires c in Plan(desired, actual, opts) && c.action == Patch
    ensures SoundPatch(c, opts)
  {
    var dm, am := Index(desired, opts), Index(actual, opts);
    PlanOfShape(dm, am, opts);
    ActionsOf(c.id, Lookup(dm, c.id), Lookup(am, c.id), opts);
    IndexNoNull(desired, opts, c.id);
    IndexNoNull(actual, opts, c.id);
    PatchIsSound(c.id, dm[c.id], am[c.id], opts);
  }

  lemma PatchIsSound(id: string, d: Fields, a: Fields, opts: DiffOptions)
    requires NoNullFields(Obj(d)) && NoNullFields(Obj(a))
    ensures var c := Classify(id, Some(d), Some(a), opts).value; c.action == Patch ==> SoundPatch(c, opts)
  {
    var b := Compared(d, a, opts);
    if d != b {
      ProjectKeepsNoNullFields(Obj(d), Obj(a));
      LinesAreAnEditScript(Obj(d), Obj(b));
      ViewsAgree(d, b);
      PathsAreLinePrefixes(Obj(d), Obj(b));
      ProjectedLinesPaired(Obj(d), Obj(a));
      assert ChangedKeySet(d, b) != {};
    }
  }

  /** Comparing a set of resources with itself plans nothing. */
  lemma PlanOfSelf(rs: seq<Resource>, opts: DiffOptions, c: Change)
    requires c in Plan(rs, rs, opts)
    ensures c.action == NoOp
  {
    var dm := Index(rs, opts);
    PlanOfShape(dm, dm, opts);
    ProjectSelf(Obj(dm[c.id]));
  }

  /** Nothing is to be done: every desired identity is live and contained in what is
      live, and when pruning nothing else is live. */
  ghost predicate Satisfied(dm: Bodies, am: Bodies, prune: bool) {
    && (forall id :: id in dm ==> id in am && Embeds(Obj(dm[id]), Obj(am[id])))
    && (prune ==> forall id :: id in am ==> id in dm)
  }

  /** A plan asks for a change exactly when something is to be done. */
  lemma ActsIffUnsatisfied(desired: seq<Resource>, actual: seq<Resource>, opts: DiffOptions)
    requires opts.ignoreActualExtraFields
    ensures (exists c :: c in Plan(desired, actual, opts) && c.action != NoOp) <==>
      !Satisfied(Index(desired, opts), Index(actual, opts), opts.pruneDeletes)
  {
    var dm, am, cs := Index(desired, opts), Index(actual, opts), Plan(desired, actual, opts);
    PlanOfShape(dm, am, opts);
    forall c | c in cs && c.action != NoOp ensures !Satisfied(dm, am, opts.pruneDeletes) {
      EntryActs(c, dm, am, opts);
    }
    if !Satisfied(dm, am, opts.pruneDeletes) {
      var id :| if id in dm then id in am ==> !Embeds(Obj(dm[id]), Obj(am[id])) else opts.pruneDeletes && id in am;
      assert Planned(cs, id);
      var i :| 0 <= i < |cs| && cs[i].id == id;
      EntryActs(cs[i], dm, am, opts);
      assert cs[i] in cs;
    }
  }

  lemma EntryActs(c: Change, dm: Bodies, am: Bodies, opts: DiffOptions)
    requires opts.ignoreActualExtraFields && Listed(dm, am, opts, c.id) && Some(c) == EntryFor(c.id, dm, am, opts)
    ensures c.action == NoOp <==> c.id in dm && c.id in am && Embeds(Obj(dm[c.id]), Obj(am[c.id]))
  {
    if c.id in dm && c.id in am { NoOpOf(c.id, dm[c.id], am[c.id], opts); }
  }

  // ----- What the plan does not depend on -----

  ghost predicate DistinctIds(rs: seq<Resource>) {
    forall i, j :: 0 <= i < j < |rs| ==> rs[i].ID() != rs[j].ID()
  }

  lemma {:induction false} ByIdOfDistinct(es: seq<Entry>, e: Entry)
    requires forall i, j :: 0 <= i < j < |es| ==> es[i].id != es[j].id
    requires e in es
    ensures e.id in ById(es) && ById(es)[e.id] == e.body
    decreases |es|
  {
    var n := |es| - 1;
    var i :| 0 <= i < |es| && es[i] == e;
    if i < n {
      assert es[..n][i] == e;
      ByIdOfDistinct(es[..n], e);
    }
  }

  lemma SameIds(es: seq<Entry>, fs: seq<Entry>, id: string)
    requires forall e :: e in es ==> e in fs
    ensures HasId(es, id) ==> HasId(fs, id)
  {
    if HasId(es, id) {
      var i :| 0 <= i < |es| && es[i].id == id;
      assert es[i] in es;
      var j :| 0 <= j < |fs| && fs[j] == es[i];
      assert fs[j].id == id;
    }
  }

  lemma ByIdOfSameEntries(es: seq<Entry>, fs: seq<Entry>)
    requires forall i, j :: 0 <= i < j < |es| ==> es[i].id != es[j].id
    requires forall i, j :: 0 <= i < j < |fs| ==> fs[i].id != fs[j].id
    requires forall e :: e in es <==> e in fs
    ensures ById(es) == ById(fs)
  {
    var l, r := ById(es), ById(fs);
    forall id ensures id in l <==> id in r {
      ByIdKeys(es, id);
      ByIdKeys(fs, id);
      SameIds(es, fs, id);
      SameIds(fs, es, id);
    }
    assert l.Keys == r.Keys;
    forall id | id in l ensures l[id] == r[id] {
      ByIdKeys(es, id);
      var i :| 0 <= i < |es| && es[i].id == id;
      ByIdOfDistinct(es, es[i]);
      ByIdOfDistinct(fs, es[i]);
    }
  }

  lemma IndexIgnoresOrder(rs: seq<Resource>, qs: seq<Resource>, opts: DiffOptions)
    requires DistinctIds(rs) && DistinctIds(qs) && multiset(rs) == multiset(qs)
    ensures Index(rs, opts) == Index(qs, opts)
  {
    var es, fs := Entries(rs, opts.ignoreFields), Entries(qs, opts.ignoreFields);
    EntriesOfPermutation(rs, qs, opts.ignoreFields);
    EntriesOfPermutation(qs, rs, opts.ignoreFields);
    forall i, j | 0 <= i < j < |es| ensures es[i].id != es[j].id { assert rs[i].ID() != rs[j].ID(); }
    forall i, j | 0 <= i < j < |fs| ensures fs[i].id != fs[j].id { assert qs[i].ID() != qs[j].ID(); }
    ByIdOfSameEntries(es, fs);
  }

  lemma EntriesOfPermutation(rs: seq<Resource>, qs: seq<Resource>, ignore: seq<string>)
    requires multiset(rs) == multiset(qs)
    ensures forall e :: e in Entries(rs, ignore) ==> e in Entries(qs, ignore)
  {
    var es, fs := Entries(rs, ignore), Entries(qs, ignore);
    forall e | e in es ensures e in fs {
      var i :| 0 <= i < |es| && es[i] == e;
      assert rs[i] in multiset(rs);
      assert rs[i] in qs;
      var j :| 0 <= j < |qs| && qs[j] == rs[i];
      assert fs[j] == e;
    }
  }

  /** With distinct identities the order of either input is irrelevant. */
  lemma PlanIgnoresOrder(desired: seq<Resource>, desired': seq<Resource>,
                         actual: seq<Resource>, actual': seq<Resource>, opts: DiffOptions)
    requires DistinctIds(desired) && DistinctIds(desired') && multiset(desired) == multiset(desired')
    requires DistinctIds(actual) && DistinctIds(actual') && multiset(actual) == multiset(actual')
    ensures Plan(desired, actual, opts) == Plan(desired', actual', opts)
  {
    IndexIgnoresOrder(desired, desired', opts);
    IndexIgnoresOrder(actual, actual', opts);
  }

  /** r with some server noise added or removed. */
  function Noisy(r: Resource, es: seq<Noise.Edit>): Resource {
    r.(body := Noise.PerturbAll(r.kind, r.body, es))
  }

  /** Server noise on any live resources leaves the whole plan unchanged. */
  lemma PlanIgnoresNoise(desired: seq<Resource>, actual: seq<Resource>, noise: seq<seq<Noise.Edit>>, opts: DiffOptions)
    requires |noise| == |actual|
    ensures Plan(desired, seq(|actual|, i requires 0 <= i < |actual| => Noisy(actual[i], noise[i])), opts)
         == Plan(desired, actual, opts)
  {
    var noisy := seq(|actual|, i requires 0 <= i < |actual| => Noisy(actual[i], noise[i]));
    var es, fs := Entries(actual, opts.ignoreFields), Entries(noisy, opts.ignoreFields);
    forall i | 0 <= i < |actual| ensures es[i] == fs[i] {
      Noise.AllNoiseInvisible(actual[i].kind, actual[i].body, noise[i], opts.ignoreFields);
    }
    assert es == fs;
  }

  // ----- What an entry carries -----

  /** The bodies an entry shows: the desired one for a CREATE, the live one for a DELETE,
      none for a NO-OP; and for a PATCH the desired one and the live one, or of the live
      one what the desired one mentions. */
  ghost predicate CarriesBodies(c: Change, dm: Bodies, am: Bodies, opts: DiffOptions) {
    match c.action
    case Create => c.id in dm && c.desired == Some(dm[c.id]) && c.current == None
    case Delete => c.id in am && c.current == Some(am[c.id]) && c.desired == None
    case NoOp => c.current == None && c.desired == None
    case Patch =>
      && c.id in dm && c.id in am && c.desired == Some(dm[c.id]) && c.current.Some?
      && (if opts.ignoreActualExtraFields then ProjectedFrom(Obj(c.current.value), Obj(dm[c.id]), Obj(am[c.id]))
          else c.current == Some(am[c.id]))
  }

  lemma EntriesCarryBodies(desired: seq<Resource>, actual: seq<Resource>, opts: DiffOptions, c: Change)
    requires c in Plan(desired, actual, opts)
    ensures CarriesBodies(c, Index(desired, opts), Index(actual, opts), opts)
    ensures c.action != Patch ==> c.keys == [] && c.paths == {} && c.pathTexts == [] && c.lines == []
  {
    var dm, am := Index(desired, opts), Index(actual, opts);
    PlanOfShape(dm, am, opts);
    EntryCarries(c, dm, am, opts);
  }

  lemma EntryCarries(c: Change, dm: Bodies, am: Bodies, opts: DiffOptions)
    requires Listed(dm, am, opts, c.id) && Some(c) == EntryFor(c.id, dm, am, opts)
    ensures CarriesBodies(c, dm, am, opts)
    ensures c.action != Patch ==> c.keys == [] && c.paths == {} && c.pathTexts == [] && c.lines == []
  {
    if c.id in dm && c.id in am {
      var d, a := Obj(dm[c.id]), Obj(am[c.id]);
      ProjectionExact(Project(d, a), d, a);
    }
  }

  /** The lines of a PATCH are exactly those at the differences between the two bodies it
      shows, and its keys exactly those whose values differ. */
  lemma PatchShowsDifferences(desired: seq<Resource>, actual: seq<Resource>, opts: DiffOptions, c: Change, l: Line, k: string)
    requires c in Plan(desired, actual, opts) && c.action == Patch
    ensures c.current.Some? && c.desired.Some?
    ensures l in c.lines <==> LinePositions.Shows(l, Some(Obj(c.desired.value)), Some(Obj(c.current.value)))
    ensures k in c.keys <==> Get(c.desired.value, k) != Get(c.current.value, k)
  {
    var dm, am := Index(desired, opts), Index(actual, opts);
    PlanOfShape(dm, am, opts);
    ActionsOf(c.id, Lookup(dm, c.id), Lookup(am, c.id), opts);
    var d, b := dm[c.id], Compared(dm[c.id], am[c.id], opts);
    assert c.lines == Lines(Obj(d), Obj(b)) && c.keys == SortedKeys(ChangedKeySet(d, b));
    LinePositions.LinesAtDifferences(Obj(d), Obj(b), l);
    assert k in ChangedKeySet(d, b) <==> Get(d, k) != Get(b, k);
  }

  /** The body of an identity is the normal form of the last resource that has it. */
  lemma {:induction false} LastWins(rs: seq<Resource>, opts: DiffOptions, i: nat)
    requires i < |rs| && forall j :: i < j < |rs| ==> rs[j].ID() != rs[i].ID()
    ensures rs[i].ID() in Index(rs, opts) && Index(rs, opts)[rs[i].ID()] == Normalized(rs[i].kind, rs[i].body, opts.ignoreFields)
  {
    var es := Entries(rs, opts.ignoreFields);
    forall j | i < j < |es| ensures es[j].id != es[i].id { assert rs[j].ID() != rs[i].ID(); }
    LastEntryWins(es, i);
  }

  lemma {:induction false} LastEntryWins(es: seq<Entry>, i: nat)
    requires i < |es| && forall j :: i < j < |es| ==> es[j].id != es[i].id
    ensures es[i].id in ById(es) && ById(es)[es[i].id] == es[i].body
    decreases |es|
  {
    if i < |es| - 1 { LastEntryWins(es[..|es| - 1], i); }
  }

  // ----- Identities -----

  function NamespaceOf(r: Resource): string {
    if r.namespace == "" then "_cluster" else r.namespace
  }

  /** Names of API versions, kinds and namespaces hold no bar; then two resources share an
      identity exactly when all four parts agree, a missing namespace being _cluster. */
  lemma SameIdentityIff(r: Resource, q: Resource)
    requires '|' !in r.apiVersion && '|' !in r.kind && '|' !in r.namespace
    requires '|' !in q.apiVersion && '|' !in q.kind && '|' !in q.namespace
    ensures r.ID() == q.ID() <==>
      r.apiVersion == q.apiVersion && r.kind == q.kind && NamespaceOf(r) == NamespaceOf(q) && r.name == q.name
  {
    if r.ID() == q.ID() {
      var rn, qn := NamespaceOf(r), NamespaceOf(q);
      var r3, q3 := rn + ['|'] + r.name, qn + ['|'] + q.name;
      var r2, q2 := r.kind + ['|'] + r3, q.kind + ['|'] + q3;
      assert r.ID() == r.apiVersion + ['|'] + r2 && q.ID() == q.apiVersion + ['|'] + q2;
      FieldEnds(r.apiVersion, r2, q.apiVersion, q2, '|');
      FieldEnds(r.kind, r3, q.kind, q3, '|');
      FieldEnds(rn, r.name, qn, q.name, '|');
    }
  }
}
