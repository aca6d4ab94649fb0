/**
  Installing the boot-counting snippet in GRUB's custom.cfg (`merge_custom_cfg` in
  bootguard/src/state.rs): the block between the two marks is replaced, or one is
  appended. `MergeTwiceIff` says for which texts a second merge changes nothing. The
  snippet is any text in which no mark starts, as in bootguard/src/grub-custom.cfg.
*/
module MergeCfg {
  import opened Options

  const BEGIN := "# BEGIN agenticlinux-bootguard v1"
  const END := "# END agenticlinux-bootguard"

  // ---- searching -----------------------------------------------------------

  predicate At(s: string, p: string, i: int) {
    0 <= i && i + |p| <= |s| && s[i..i + |p|] == p
  }

  predicate Lacks(s: string, p: string) {
    forall i :: 0 <= i < |s| ==> !At(s, p, i)
  }

  function FindFrom(s: string, p: string, i: nat): (r: Option<nat>)
    requires p != ""
    ensures r.Some? ==> i <= r.value && At(s, p, r.value) && forall j :: i <= j < r.value ==> !At(s, p, j)
    ensures r.None? ==> forall j :: i <= j < |s| ==> !At(s, p, j)
    decreases |s| - i
  {
    if i >= |s| then None else if At(s, p, i) then Some(i) else FindFrom(s, p, i + 1)
  }

  /** The first occurrence. */
  function Find(s: string, p: string): Option<nat>
    requires p != ""
  {
    FindFrom(s, p, 0)
  }

  lemma FoundAt(s: string, p: string, i: nat)
    requires p != "" && At(s, p, i)
    requires forall j :: 0 <= j < i ==> !At(s, p, j)
    ensures Find(s, p) == Some(i)
  {
  }

  // ---- merging -------------------------------------------------------------

  function BlockOf(snippet: string): string {
    BEGIN + "\n" + snippet + END + "\n"
  }

  predicate HasBlock(text: string) {
    var b, e := Find(text, BEGIN), Find(text, END);
    b.Some? && e.Some? && b.value < e.value
  }

  /** Where the block ends, the newline behind its end mark included. */
  function BlockEnd(text: string): (end: nat)
    requires Find(text, END).Some?
    ensures end <= |text|
  {
    var end := Find(text, END).value + |END|;
    if end < |text| && text[end] == '\n' then end + 1 else end
  }

  function Separator(text: string): string {
    if text == "" || text[|text| - 1] == '\n' then "" else "\n"
  }

  function Merge(text: string, snippet: string): string {
    if HasBlock(text) then text[..Find(text, BEGIN).value] + BlockOf(snippet) + text[BlockEnd(text)..]
    else text + Separator(text) + BlockOf(snippet)
  }

  // ---- the marks -----------------------------------------------------------

  /** A '#' only at its start, and on one line: marks never overlap. */
  predicate IsMark(p: string) {
    p != "" && p[0] == '#' && forall k :: 0 < k < |p| ==> p[k] != '#' && p[k] != '\n'
  }

  lemma Marks()
    ensures IsMark(BEGIN) && IsMark(END)
    ensures BEGIN[2] == 'B' && END[2] == 'E'
  {
  }

  /** No mark starts inside this text, whatever comes behind it. */
  predicate NoMark(text: string) {
    forall i :: 0 <= i < |text| && text[i] == '#' ==> i + 2 < |text| && text[i + 2] != 'B' && text[i + 2] != 'E'
  }

  // ---- where the marks are after a merge -----------------------------------

  lemma AtBytes(s: string, p: string, i: nat)
    requires At(s, p, i)
    ensures forall q :: i <= q < i + |p| ==> s[q] == p[q - i]
  {
    assert forall q :: i <= q < i + |p| ==> s[q] == s[i..i + |p|][q - i];
  }

  lemma NotAt(s: string, p: string, i: nat, k: nat)
    requires k < |p| && i + k < |s| && s[i + k] != p[k]
    ensures !At(s, p, i)
  {
    assert i + |p| <= |s| ==> s[i..i + |p|][k] == s[i + k];
  }

  /** A mark does not reach into a text that starts with a '#'. */
  lemma NotAcross(x: string, y: string, p: string, i: nat)
    requires IsMark(p) && y != "" && y[0] == '#'
    requires i < |x| && At(x + y, p, i)
    ensures At(x, p, i)
  {
    AtBytes(x + y, p, i);
    assert (x + y)[|x|] == '#';
    assert (x + y)[i..i + |p|] == x[i..i + |p|];
  }

  lemma NotAcrossNewline(x: string, p: string, i: nat)
    requires IsMark(p) && At(x + "\n", p, i)
    ensures At(x, p, i)
  {
    AtBytes(x + "\n", p, i);
    assert (x + "\n")[|x|] == '\n';
    assert (x + "\n")[i..i + |p|] == x[i..i + |p|];
  }

  lemma LacksAfterSeparator(text: string, p: string)
    requires IsMark(p) && Lacks(text, p)
    ensures Lacks(text + Separator(text), p)
  {
    if Separator(text) == "" {
      assert text + "" == text;
    } else {
      forall i | 0 <= i < |text + "\n"| ensures !At(text + "\n", p, i) {
        if At(text + "\n", p, i) {
          NotAcrossNewline(text, p, i);
          assert false;
        }
      }
    }
  }

  /** What is first in a text is still first when more is appended. */
  lemma FirstStays(x: string, y: string, p: string)
    requires p != "" && Find(x, p).Some?
    ensures Find(x + y, p) == Find(x, p)
  {
    var i := Find(x, p).value;
    var t := x + y;
    assert t[i..i + |p|] == x[i..i + |p|];
    forall j | 0 <= j < i ensures !At(t, p, j) {
      assert t[j..j + |p|] == x[j..j + |p|];
      assert !At(x, p, j);
    }
    FoundAt(t, p, i);
  }

  lemma BeginIn(x: string, snippet: string, rest: string)
    requires Lacks(x, BEGIN)
    ensures Find(x + BlockOf(snippet) + rest, BEGIN) == Some(|x|)
  {
    Marks();
    var block := BlockOf(snippet) + rest;
    var t := x + block;
    assert x + BlockOf(snippet) + rest == t;
    assert block[0] == '#';
    forall j | 0 <= j < |x| ensures !At(t, BEGIN, j) {
      if At(t, BEGIN, j) {
        NotAcross(x, block, BEGIN, j);
        assert false;
      }
    }
    assert t[|x|..|x| + |BEGIN|] == BEGIN;
    FoundAt(t, BEGIN, |x|);
  }

  /** Inside a block, no end mark starts before the one at its end. */
  lemma NoEndInside(x: string, snippet: string, rest: string, j: nat)
    requires NoMark(snippet)
    requires |x| <= j < |x| + |BEGIN| + 1 + |snippet|
    ensures !At(x + BlockOf(snippet) + rest, END, j)
  {
    Marks();
    var t := x + BlockOf(snippet) + rest;
    var start := |x| + |BEGIN| + 1;
    if j == |x| {
      assert t[j + 2] == BEGIN[2];
      NotAt(t, END, j, 2);
    } else if j < start - 1 {
      assert t[j] == BEGIN[j - |x|];
      NotAt(t, END, j, 0);
    } else if j == start - 1 || snippet[j - start] != '#' {
      assert t[j] == if j == start - 1 then '\n' else snippet[j - start];
      NotAt(t, END, j, 0);
    } else {
      assert t[j + 2] == snippet[j - start + 2];
      NotAt(t, END, j, 2);
    }
  }

  lemma EndIn(x: string, snippet: string, rest: string)
    requires NoMark(snippet) && Lacks(x, END)
    ensures Find(x + BlockOf(snippet) + rest, END) == Some(|x| + |BEGIN| + 1 + |snippet|)
  {
    Marks();
    var block := BlockOf(snippet) + rest;
    var t := x + BlockOf(snippet) + rest;
    var e := |x| + |BEGIN| + 1 + |snippet|;
    assert x + block == t && block[0] == '#';
    forall j | 0 <= j < e ensures !At(t, END, j) {
      if j < |x| {
        if At(x + block, END, j) {
          NotAcross(x, block, END, j);
          assert false;
        }
      } else {
        NoEndInside(x, snippet, rest, j);
      }
    }
    assert t[e..e + |END|] == END;
    FoundAt(t, END, e);
  }

  lemma BlockEndIn(x: string, snippet: string, rest: string)
    requires NoMark(snippet) && Lacks(x, END)
    ensures var t := x + BlockOf(snippet) + rest;
      Find(t, END) == Some(|x| + |BEGIN| + 1 + |snippet|) && BlockEnd(t) == |x| + |BlockOf(snippet)|
  {
    EndIn(x, snippet, rest);
    hide Find;
    var t := x + BlockOf(snippet) + rest;
    assert t[|x| + |BlockOf(snippet)| - 1] == BlockOf(snippet)[|BlockOf(snippet)| - 1] == '\n';
  }

  // ---- the theorems --------------------------------------------------------

  /** A block already there, of this or of an older version, is replaced; not one byte
      around it changes. */
  lemma {:induction false} OldBlockIsReplaced(before: string, older: string, rest: string, newer: string)
    requires Lacks(before, BEGIN) && Lacks(before, END) && NoMark(older)
    ensures Merge(before + BlockOf(older) + rest, newer) == before + BlockOf(newer) + rest
  {
    var t := before + BlockOf(older) + rest;
    BeginIn(before, older, rest);
    BlockEndIn(before, older, rest);
    assert t[..|before|] == before && t[|before| + |BlockOf(older)|..] == rest;
  }

  /** Both marks in order, or none: the texts on which the merge works as promised. */
  predicate WellMarked(text: string) {
    HasBlock(text) || (Find(text, BEGIN).None? && Find(text, END).None?)
  }

  /** What the merge leaves before its block. */
  function Kept(text: string): string {
    if HasBlock(text) then text[..Find(text, BEGIN).value] else text + Separator(text)
  }

  function Behind(text: string): string {
    if HasBlock(text) then text[BlockEnd(text)..] else ""
  }

  lemma MergeShape(text: string, snippet: string)
    ensures Merge(text, snippet) == Kept(text) + BlockOf(snippet) + Behind(text)
  {
    assert text + Separator(text) + BlockOf(snippet) + "" == text + Separator(text) + BlockOf(snippet);
  }

  /** A block that replaces none comes behind the whole text, on a line of its own; at most a
      newline is put between. */
  lemma StartsOnItsOwnLine(text: string, snippet: string)
    requires !HasBlock(text)
    ensures var t := Merge(text, snippet);
      var start := |t| - |BEGIN + "\n" + snippet + END + "\n"|;
      && |text| <= start <= |text| + 1
      && t[..|text|] == text && t[start..] == BEGIN + "\n" + snippet + END + "\n"
      && (start == 0 || t[start - 1] == '\n')
      && (text == "" || text[|text| - 1] == '\n' ==> start == |text|)
  {
    var t, x := Merge(text, snippet), text + Separator(text);
    assert t == x + BlockOf(snippet) && t[..|text|] == text && t[|x|..] == BlockOf(snippet);
    assert t[..|x|] == x;
  }

  lemma KeptLacksMarks(text: string)
    requires WellMarked(text)
    ensures Lacks(Kept(text), BEGIN) && Lacks(Kept(text), END)
  {
    Marks();
    if HasBlock(text) {
      var b := Find(text, BEGIN).value;
      forall i, p | 0 <= i < b && (p == BEGIN || p == END) && At(text[..b], p, i) ensures false {
        assert text[i..i + |p|] == text[..b][i..i + |p|];
        assert At(text, p, i);
      }
    } else {
      LacksAfterSeparator(text, BEGIN);
      LacksAfterSeparator(text, END);
    }
  }

  lemma {:induction false} Idempotent(text: string, snippet: string)
    requires NoMark(snippet) && WellMarked(text)
    ensures Merge(Merge(text, snippet), snippet) == Merge(text, snippet)
  {
    MergeShape(text, snippet);
    KeptLacksMarks(text);
    OldBlockIsReplaced(Kept(text), snippet, Behind(text), snippet);
  }

  lemma OrphanBeginStays(text: string, snippet: string)
    requires NoMark(snippet) && Find(text, BEGIN).Some? && Find(text, END).None?
    ensures var t := text + Separator(text) + BlockOf(snippet);
      Find(t, BEGIN) == Find(text, BEGIN) && HasBlock(t) && BlockEnd(t) == |t|
  {
    hide At, Find, BlockEnd, Lacks, HasBlock, BlockOf, Separator;
    var x, more := text + Separator(text), Separator(text) + BlockOf(snippet);
    var t := x + BlockOf(snippet);
    Marks();
    FirstStays(text, more, BEGIN);
    NoneIsLacked(text, END);
    LacksAfterSeparator(text, END);
    BlockEndIn(x, snippet, "");
    assert text + more == t && x + BlockOf(snippet) + "" == t;
    BeginBeforeEnd(text, x, snippet);
  }

  lemma NoneIsLacked(text: string, p: string)
    requires p != "" && Find(text, p).None?
    ensures Lacks(text, p)
  {
  }

  lemma BeginBeforeEnd(text: string, x: string, snippet: string)
    requires |text| <= |x| && Find(text, BEGIN).Some?
    requires var t := x + BlockOf(snippet);
      Find(t, BEGIN) == Find(text, BEGIN) && Find(t, END) == Some(|x| + |BEGIN| + 1 + |snippet|)
    ensures HasBlock(x + BlockOf(snippet))
  {
    hide Find, BlockOf;
    FoundInside(text, BEGIN);
  }

  lemma FoundInside(text: string, p: string)
    requires p != "" && Find(text, p).Some?
    ensures Find(text, p).value + |p| <= |text|
  {
  }

  /** A begin mark without an end mark: the second merge cuts the text behind it. */
  lemma {:induction false} OrphanBegin(text: string, snippet: string)
    requires NoMark(snippet) && Find(text, BEGIN).Some? && Find(text, END).None?
    ensures |Merge(Merge(text, snippet), snippet)| < |Merge(text, snippet)|
  {
    OrphanBeginStays(text, snippet);
  }

  lemma BeginBehind(text: string, snippet: string)
    requires Find(text, BEGIN).None?
    ensures Find(text + Separator(text) + BlockOf(snippet), BEGIN) == Some(|text + Separator(text)|)
  {
    var x := text + Separator(text);
    Marks();
    LacksAfterSeparator(text, BEGIN);
    BeginIn(x, snippet, "");
    assert x + BlockOf(snippet) + "" == x + BlockOf(snippet);
  }

  lemma OrphanEndStays(text: string, snippet: string)
    requires Find(text, END).Some?
    requires Find(text, BEGIN).None? || Find(text, END).value <= Find(text, BEGIN).value
    ensures !HasBlock(text + Separator(text) + BlockOf(snippet))
  {
    var more := Separator(text) + BlockOf(snippet);
    FirstStays(text, more, END);
    assert text + more == text + Separator(text) + BlockOf(snippet);
    assert Find(text, END).value <= |text|;
    if Find(text, BEGIN).None? {
      BeginBehind(text, snippet);
    } else {
      FirstStays(text, more, BEGIN);
    }
    hide Find, At, BlockOf, Separator;
  }

  /** An end mark before the first begin mark: every merge appends another block. */
  lemma {:induction false} OrphanEnd(text: string, snippet: string)
    requires Find(text, END).Some?
    requires Find(text, BEGIN).None? || Find(text, END).value <= Find(text, BEGIN).value
    ensures |Merge(Merge(text, snippet), snippet)| > |Merge(text, snippet)|
  {
    OrphanEndStays(text, snippet);
  }

  /** Merging twice is merging once exactly for the texts that are well marked. */
  lemma {:induction false} MergeTwiceIff(text: string, snippet: string)
    requires NoMark(snippet)
    ensures Merge(Merge(text, snippet), snippet) == Merge(text, snippet) <==> WellMarked(text)
  {
    if WellMarked(text) {
      Idempotent(text, snippet);
    } else if Find(text, END).None? {
      OrphanBegin(text, snippet);
    } else {
      OrphanEnd(text, snippet);
    }
  }

  /** After a merge of a well-marked text the first marks enclose the current block, and
      what was around the old one is still around it. */
  lemma {:induction false} BlockIsCurrent(text: string, snippet: string)
    requires NoMark(snippet) && WellMarked(text)
    ensures var t := Merge(text, snippet);
      && HasBlock(t)
      && t[Find(t, BEGIN).value..BlockEnd(t)] == BlockOf(snippet)
      && t[..Find(t, BEGIN).value] == Kept(text)
      && t[BlockEnd(t)..] == Behind(text)
  {
    MergeShape(text, snippet);
    KeptLacksMarks(text);
    BeginIn(Kept(text), snippet, Behind(text));
    BlockEndIn(Kept(text), snippet, Behind(text));
  }

  // ---- what setup does with it ---------------------------------------------

  ghost predicate Contains(s: string, p: string) {
    exists i :: At(s, p, i)
  }

  /** The part of `setup` that installs: it merges only if the current snippet is missing. */
  ghost function SetUp(text: string, snippet: string): string {
    if Contains(text, BEGIN) && Contains(text, snippet) then text else Merge(text, snippet)
  }

  /** So that a second `setup` changes nothing, orphan marks or not. */
  lemma SetUpTwice(text: string, snippet: string)
    ensures Contains(SetUp(text, snippet), BEGIN) && Contains(SetUp(text, snippet), snippet)
    ensures SetUp(SetUp(text, snippet), snippet) == SetUp(text, snippet)
  {
    var t, start := Merge(text, snippet), |Kept(text)|;
    MergeShape(text, snippet);
    hide Merge, Kept, Behind;
    var behind := start + |BEGIN| + 1;
    assert t[start..start + |BEGIN|] == BEGIN;
    assert At(t, BEGIN, start);
    assert t[behind..behind + |snippet|] == snippet;
    assert At(t, snippet, behind);
  }
}
