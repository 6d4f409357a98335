/**
 What a plan comment is made of. The builder keeps, beside the text, the list of
 parts written, so that what a comment says can be told apart from what the
 resources' own names and values happen to spell. Strings are sequences of bytes.
 */
module Parts {
  import opened Text

  const MAX_COMMENT := 900000

  /** What is printed of a change: its headline and details, if it is not a NO-OP. */
  datatype Item = Item(noop: bool, line: string, details: string)

  /** A project in the texts that are written for it. */
  datatype View = View(header: string, summary: string, items: seq<Item>, findings: seq<string>)

  /** What the builder writes. */
  datatype Part =
    | Fixed(text: string)               // the preamble, a project's heading lines
    | Newline
    | ChangesHeading
    | FindingsHeading
    | Footer
    | Line(item: Item)
    | Details(item: Item)
    | CountNotice(missing: nat)         // more resources than may be shown
    | SizeNotice(missing: nat)          // resources that did not fit
    | NoneLine
    | FindingLine(text: string)
    | LimitNotice                       // findings or projects that did not fit

  function PartText(p: Part): (s: string) {
    match p
    case Fixed(text) => text
    case Newline => "\n"
    case ChangesHeading => "#### Changes\n"
    case FindingsHeading => "\n#### Policy Findings\n"
    case Footer =>
      "\n> Thule is read-only and did not apply these changes. Flux or repository operators must reconcile/apply.\n"
    case Line(it) => it.line
    case Details(it) => it.details
    case CountNotice(n) => "- ... truncated (" + Digits(n) + " additional resources)\n"
    case SizeNotice(n) => "- ... truncated (" + Digits(n) + " additional resources; comment size limit)\n"
    case NoneLine => "- none\n"
    case FindingLine(text) => text
    case LimitNotice => "- ... truncated (comment size limit)\n"
  }

  /** How many bytes a part takes. */
  function Size(p: Part): (n: nat) {
    match p
    case Fixed(text) => |text|
    case Newline => 1
    case ChangesHeading => 13
    case FindingsHeading => 22
    case Footer => 106
    case Line(it) => |it.line|
    case Details(it) => |it.details|
    case CountNotice(n) => 40 + |Digits(n)|
    case SizeNotice(n) => 60 + |Digits(n)|
    case NoneLine => 7
    case FindingLine(text) => |text|
    case LimitNotice => 37
  }

  lemma SizeOfText(p: Part)
    ensures |PartText(p)| == Size(p)
  {
  }

  // ----- Lists in text and in bytes -----

  /** The first n elements of a list, each as f spells it. */
  function Spelled<T>(xs: seq<T>, f: T -> string, n: nat): (s: string)
    requires n <= |xs|
  {
    if n == 0 then "" else Spelled(xs, f, n - 1) + f(xs[n - 1])
  }

  lemma {:induction false} SpelledPrefix<T>(xs: seq<T>, more: seq<T>, f: T -> string, n: nat)
    requires n <= |xs|
    ensures Spelled(xs + more, f, n) == Spelled(xs, f, n)
  {
    if n > 0 { SpelledPrefix(xs, more, f, n - 1); }
  }

  lemma SpelledGrows<T>(xs: seq<T>, x: T, f: T -> string)
    ensures Spelled(xs + [x], f, |xs| + 1) == Spelled(xs, f, |xs|) + f(x)
  {
    SpelledPrefix(xs, [x], f, |xs|);
  }

  /** The sum of f over the first n elements. */
  function Summed<T>(xs: seq<T>, f: T -> nat, n: nat): (sum: nat)
    requires n <= |xs|
  {
    if n == 0 then 0 else Summed(xs, f, n - 1) + f(xs[n - 1])
  }

  lemma {:induction false} SpelledLength<T>(xs: seq<T>, f: T -> string, size: T -> nat, n: nat)
    requires n <= |xs| && forall x :: |f(x)| == size(x)
    ensures |Spelled(xs, f, n)| == Summed(xs, size, n)
  {
    if n > 0 { SpelledLength(xs, f, size, n - 1); }
  }

  lemma {:induction false} SummedConcat<T>(xs: seq<T>, ys: seq<T>, f: T -> nat, n: nat)
    requires n <= |ys|
    ensures Summed(xs + ys, f, |xs| + n) == Summed(xs, f, |xs|) + Summed(ys, f, n)
  {
    if n > 0 {
      SummedConcat(xs, ys, f, n - 1);
    } else {
      SummedPrefix(xs, ys, f, |xs|);
    }
  }

  lemma {:induction false} SummedPrefix<T>(xs: seq<T>, more: seq<T>, f: T -> nat, n: nat)
    requires n <= |xs|
    ensures Summed(xs + more, f, n) == Summed(xs, f, n)
  {
    if n > 0 { SummedPrefix(xs, more, f, n - 1); }
  }

  /** The text of a list of parts, and how many bytes it takes. */
  function TextOf(parts: seq<Part>): (s: string) {
    Spelled(parts, PartText, |parts|)
  }

  function Total(parts: seq<Part>): (n: nat) {
    Summed(parts, Size, |parts|)
  }

  lemma TotalConcat(xs: seq<Part>, ys: seq<Part>)
    ensures Total(xs + ys) == Total(xs) + Total(ys)
  {
    SummedConcat(xs, ys, Size, |ys|);
  }

  lemma TotalOne(p: Part)
    ensures Total([p]) == Size(p)
  {
    assert Summed([p], Size, 0) == 0;
  }

  lemma TextTotal(parts: seq<Part>)
    ensures |TextOf(parts)| == Total(parts)
  {
    forall p ensures |PartText(p)| == Size(p) { SizeOfText(p); }
    SpelledLength(parts, PartText, Size, |parts|);
  }

  // ----- The builder -----

  ghost predicate Spells(parts: seq<Part>, text: string) {
    true
  }

  class Builder {
    var text: string
    ghost var parts: seq<Part>

    /** The text is that of the parts. Spells keeps it out of proofs that only move
        parts about: they have to ask for it by name. */
    ghost predicate Valid()
      reads this
    {
      forall t {:trigger Spells(parts, t)} :: t == text ==> t == TextOf(parts)
    }

    constructor ()
      ensures Valid() && text == "" && parts == []
    {
      text, parts := "", [];
      new;
      assert text == TextOf(parts);
    }

    method Write(p: Part)
      requires Valid()
      modifies this
      ensures Valid() && parts == old(parts) + [p]
      ensures |text| == old(|text|) + Size(p)
    {
      SizeOfText(p);
      assert Spells(parts, text);
      SpelledGrows(parts, p, PartText);
      text := text + PartText(p);
      parts := parts + [p];
      assert text == TextOf(parts);
    }

    method String() returns (t: string)
      requires Valid()
      ensures t == text && t == TextOf(parts)
    {
      assert Spells(parts, text);
      t := text;
    }

    lemma Length()
      requires Valid()
      ensures |text| == Total(parts)
    {
      assert Spells(parts, text);
      TextTotal(parts);
    }
  }

  // ----- Counters -----

  function Pow10(k: nat): nat {
    if k == 0 then 1 else 10 * Pow10(k - 1)
  }

  lemma {:induction false} DigitsLength(n: nat, k: nat)
    requires k >= 1 && n < Pow10(k)
    ensures |Digits(n)| <= k
    decreases k
  {
    if n >= 10 {
      assert k > 1;
      DigitsLength(n / 10, k - 1);
    }
  }

  /** Lengths of Go slices fit in 63 bits, so a counter has at most 20 digits. */
  const MAX_LENGTH := 0x8000_0000_0000_0000

  lemma CounterLength(n: nat)
    requires n < MAX_LENGTH
    ensures |Digits(n)| <= 20
  {
    assert Pow10(5) == 100000;
    assert Pow10(10) == 10000000000;
    assert Pow10(15) == 1000000000000000;
    assert Pow10(20) == 100000000000000000000;
    DigitsLength(n, 20);
  }

  lemma NoticeSizes(n: nat)
    requires n < MAX_LENGTH
    ensures Size(CountNotice(n)) <= 80 && Size(SizeNotice(n)) <= 80
  {
    CounterLength(n);
  }

  function Max(a: int, b: int): int { if a < b then b else a }
}
