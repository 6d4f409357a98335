/**
 The texts shown for one change: `truncateDiffLines` and `truncateYAMLBlock`.
 A string here is the sequence of its bytes.
 */
module DiffText {
  import opened Text

  const MAX_BLOCK := 12000
  const MARKER := "\n# ... truncated ..."

  function TrimLeft(s: string): (r: string)
    ensures |r| <= |s|
  {
    if s != [] && IsAsciiSpace(s[0]) then TrimLeft(s[1..]) else s
  }

  function TrimRight(s: string): (r: string)
    ensures |r| <= |s|
  {
    if s != [] && IsAsciiSpace(s[|s| - 1]) then TrimRight(s[..|s| - 1]) else s
  }

  function TrimSpace(s: string): (r: string)
    ensures |r| <= |s|
  {
    TrimRight(TrimLeft(s))
  }

  /** The lines, each on its own line. */
  function Joined(lines: seq<string>): (s: string) {
    if |lines| == 0 then ""
    else if |lines| == 1 then lines[0]
    else Joined(lines[..|lines| - 1]) + "\n" + lines[|lines| - 1]
  }

  /** The block shows every line in full. An empty last line that would end exactly
      at the limit is cut off with the marker all the same. */
  predicate Fits(lines: seq<string>) {
    && |Joined(lines)| <= MAX_BLOCK
    && !(|lines| > 1 && |Joined(lines)| == MAX_BLOCK && lines[|lines| - 1] == "")
  }

  /** Some line but the last ends one byte before the limit. */
  predicate EndsOneShort(lines: seq<string>) {
    exists j :: 0 < j < |lines| && |Joined(lines[..j])| == MAX_BLOCK - 1
  }

  function CutAt(lines: seq<string>): (n: nat) {
    if EndsOneShort(lines) then MAX_BLOCK - 1 else MAX_BLOCK
  }

  /** What the block shows: everything, or everything up to the limit and a marker. */
  function Shortened(lines: seq<string>): (s: string)
    requires Fits(lines) || |Joined(lines)| >= CutAt(lines)
  {
    if Fits(lines) then TrimSpace(Joined(lines))
    else TrimSpace(Joined(lines)[..CutAt(lines)] + MARKER)
  }

  lemma {:induction false} JoinedPrefix(lines: seq<string>, j: nat)
    requires 0 < j <= |lines|
    ensures Joined(lines[..j]) <= Joined(lines)
    ensures j < |lines| ==> |Joined(lines)| >= |Joined(lines[..j])| + 1 + |lines[j]|
    ensures j < |lines| - 1 ==> |Joined(lines)| > |Joined(lines[..j])| + 1 + |lines[j]|
    decreases |lines|
  {
    if j == |lines| {
      assert lines[..j] == lines;
    } else {
      var init := lines[..|lines| - 1];
      assert init[..j] == lines[..j];
      JoinedPrefix(init, j);
    }
  }

  lemma JoinedStep(lines: seq<string>, i: nat)
    requires i < |lines|
    ensures Joined(lines[..i + 1]) == if i == 0 then lines[0] else Joined(lines[..i]) + "\n" + lines[i]
  {
    assert lines[..i + 1][..i] == lines[..i];
  }

  /** A text that does not fit is long enough to be cut. */
  lemma CutWithinText(lines: seq<string>)
    ensures Fits(lines) || |Joined(lines)| >= CutAt(lines)
  {
  }

  // The three ways out of the loop, at line i with text written so far.

  lemma CutBetweenLines(lines: seq<string>, i: nat)
    requires 0 < i < |lines| && MAX_BLOCK - 1 <= |Joined(lines[..i])| <= MAX_BLOCK
    requires forall j :: 0 < j < i ==> |Joined(lines[..j])| < MAX_BLOCK - 1
    ensures !Fits(lines) && CutAt(lines) == |Joined(lines[..i])|
    ensures Joined(lines)[..CutAt(lines)] == Joined(lines[..i])
  {
    JoinedPrefix(lines, i);
    forall j | i < j < |lines| ensures |Joined(lines[..j])| >= MAX_BLOCK {
      assert lines[..j][..i] == lines[..i];
      JoinedPrefix(lines[..j], i);
    }
  }

  lemma CutInsideLine(lines: seq<string>, i: nat, start: string)
    requires i < |lines| && |start| <= MAX_BLOCK < |start| + |lines[i]|
    requires start == (if i == 0 then "" else Joined(lines[..i]) + "\n")
    requires forall j :: 0 < j <= i ==> |Joined(lines[..j])| < MAX_BLOCK - 1
    ensures !Fits(lines) && CutAt(lines) == MAX_BLOCK
    ensures Joined(lines)[..MAX_BLOCK] == start + lines[i][..MAX_BLOCK - |start|]
  {
    JoinedStep(lines, i);
    JoinedPrefix(lines, i + 1);
    var upTo := Joined(lines[..i + 1]);
    assert upTo == start + lines[i];
    forall j | i < j < |lines| ensures |Joined(lines[..j])| > MAX_BLOCK {
      assert lines[..j][..i + 1] == lines[..i + 1];
      JoinedPrefix(lines[..j], i + 1);
    }
    assert Joined(lines)[..MAX_BLOCK] == upTo[..MAX_BLOCK];
  }

  lemma NothingCut(lines: seq<string>)
    requires |lines| > 0 && |Joined(lines)| <= MAX_BLOCK
    requires forall j :: 0 < j < |lines| ==> |Joined(lines[..j])| < MAX_BLOCK - 1
    ensures Fits(lines)
  {
    JoinedStep(lines, |lines| - 1);
    assert lines[..|lines|] == lines;
  }

  /** `truncateDiffLines`: the lines joined and trimmed, or their first bytes and a marker. */
  method TruncateDiffLines(lines: seq<string>) returns (text: string)
    ensures Fits(lines) || |Joined(lines)| >= CutAt(lines)
    ensures text == Shortened(lines)
    ensures |text| <= MAX_BLOCK + |MARKER|
  {
    CutWithinText(lines);
    if |lines| == 0 {
      return "";
    }
    var b := "";
    var remaining := MAX_BLOCK;
    for i := 0 to |lines|
      invariant b == Joined(lines[..i])
      invariant remaining == MAX_BLOCK - |b| && 0 <= remaining
      invariant forall j :: 0 < j < i ==> |Joined(lines[..j])| < MAX_BLOCK - 1
    {
      if i > 0 {
        if remaining <= 1 {
          CutBetweenLines(lines, i);
          return TrimSpace(b + MARKER);
        }
        b := b + "\n";
        remaining := remaining - 1;
      }
      if |lines[i]| > remaining {
        CutInsideLine(lines, i, b);
        return TrimSpace(b + lines[i][..remaining] + MARKER);
      }
      JoinedStep(lines, i);
      b := b + lines[i];
      remaining := remaining - |lines[i]|;
    }
    assert lines[..|lines|] == lines;
    NothingCut(lines);
    return TrimSpace(b);
  }

  /** When every line is non-empty the block is cut exactly when the text is too long. */
  lemma CutIffTooLong(lines: seq<string>)
    requires forall i :: 0 <= i < |lines| ==> lines[i] != ""
    ensures Fits(lines) <==> |Joined(lines)| <= 12000
  {
  }

  /** With an empty last line a text exactly at the limit is cut too. */
  lemma EmptyLastLineIsCut(line: string)
    requires |line| == MAX_BLOCK - 1
    ensures |Joined([line, ""])| == MAX_BLOCK && !Fits([line, ""])
  {
    assert [line, ""][..1] == [line];
  }

  // ----- YAML blocks -----

  /** A text without spaces at either end. */
  predicate Trimmed(s: string) {
    s != "" ==> !IsAsciiSpace(s[0]) && !IsAsciiSpace(s[|s| - 1])
  }

  lemma {:induction false} TrimLeftMeans(s: string)
    ensures TrimLeft(s) != "" ==> !IsAsciiSpace(TrimLeft(s)[0])
    decreases |s|
  {
    if s != [] && IsAsciiSpace(s[0]) { TrimLeftMeans(s[1..]); }
  }

  /** Trimming at the right keeps a prefix and drops only spaces. */
  lemma {:induction false} TrimRightMeans(s: string)
    ensures TrimRight(s) <= s
    ensures TrimRight(s) != "" ==> !IsAsciiSpace(TrimRight(s)[|TrimRight(s)| - 1])
    ensures forall j :: |TrimRight(s)| <= j < |s| ==> IsAsciiSpace(s[j])
    decreases |s|
  {
    if s != [] && IsAsciiSpace(s[|s| - 1]) { TrimRightMeans(s[..|s| - 1]); }
  }

  lemma TrimSpaceTrims(s: string)
    ensures Trimmed(TrimSpace(s))
  {
    TrimLeftMeans(s);
    TrimRightMeans(TrimLeft(s));
  }

  /** A long block keeps a prefix of the trimmed text, of at most 12000 bytes, from which
      only spaces before the limit are missing, and says that it is cut. */
  lemma LongBlockIsPrefix(input: string) returns (k: nat)
    requires |TrimSpace(input)| > MAX_BLOCK
    ensures 0 < k <= MAX_BLOCK && TruncateYAMLBlock(input) == TrimSpace(input)[..k] + MARKER
    ensures !IsAsciiSpace(TrimSpace(input)[k - 1])
    ensures forall j :: k <= j < MAX_BLOCK ==> IsAsciiSpace(TrimSpace(input)[j])
  {
    var trimmed := TrimSpace(input);
    var head := trimmed[..MAX_BLOCK];
    TrimSpaceTrims(input);
    TrimRightMeans(head);
    assert TrimLeft(head) == head;
    k := |TrimRight(head)|;
    assert TrimRight(head) == trimmed[..k];
  }

  function TruncateYAMLBlock(input: string): (text: string)
    ensures |text| <= MAX_BLOCK + |MARKER|
    ensures |TrimSpace(input)| <= MAX_BLOCK ==> text == TrimSpace(input)
  {
    var trimmed := TrimSpace(input);
    if |trimmed| <= MAX_BLOCK then trimmed
    else TrimSpace(trimmed[..MAX_BLOCK]) + MARKER
  }

  /** Trimming takes spaces off both ends and nothing else. */
  lemma TrimSpaceMeans(s: string) returns (left: string, right: string)
    ensures s == left + TrimSpace(s) + right && Trimmed(TrimSpace(s))
    ensures (forall c :: c in left ==> IsAsciiSpace(c)) && (forall c :: c in right ==> IsAsciiSpace(c))
  {
    left := TrimLeftDrops(s);
    right := TrimRightDrops(TrimLeft(s));
    TrimSpaceTrims(s);
    assert left + (TrimSpace(s) + right) == left + TrimSpace(s) + right;
  }

  lemma TrimRightDrops(s: string) returns (right: string)
    ensures s == TrimRight(s) + right && forall c :: c in right ==> IsAsciiSpace(c)
  {
    TrimRightMeans(s);
    right := s[|TrimRight(s)|..];
    forall c | c in right ensures IsAsciiSpace(c) {
      var j :| 0 <= j < |right| && right[j] == c;
      assert s[|TrimRight(s)| + j] == c;
    }
  }

  lemma {:induction false} TrimLeftDrops(s: string) returns (left: string)
    ensures s == left + TrimLeft(s) && forall c :: c in left ==> IsAsciiSpace(c)
    decreases |s|
  {
    left := "";
    if s != [] && IsAsciiSpace(s[0]) {
      left := TrimLeftDrops(s[1..]);
      left := [s[0]] + left;
    }
  }

  /** The lines are joined by newlines. */
  lemma {:induction false} JoinedIsJoin(lines: seq<string>)
    ensures Joined(lines) == JoinWith(lines, "\n")
    decreases |lines|
  {
    if |lines| > 1 {
      var n := |lines| - 1;
      JoinedIsJoin(lines[..n]);
      JoinLast(lines, "\n");
    }
  }

  lemma {:induction false} JoinLast(parts: seq<string>, sep: string)
    requires |parts| > 1
    ensures JoinWith(parts, sep) == JoinWith(parts[..|parts| - 1], sep) + sep + parts[|parts| - 1]
    decreases |parts|
  {
    var n := |parts| - 1;
    if n == 1 {
      assert parts[1..] == [parts[1]] && parts[..1] == [parts[0]];
    } else {
      JoinLast(parts[1..], sep);
      assert parts[1..][..n - 1] == parts[..n][1..];
    }
  }
}
