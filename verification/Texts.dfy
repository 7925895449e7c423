/** White space as Python's string methods and patterns understand it, and the letter case
    of ASCII text. */
module Texts {

  /** The characters Python counts as white space. */
  predicate IsSpace(c: char) {
    var n := c as int;
    0x9 <= n <= 0xD || 0x1C <= n <= 0x20 || n == 0x85 || n == 0xA0 || n == 0x1680
    || 0x2000 <= n <= 0x200A || n == 0x2028 || n == 0x2029 || n == 0x202F || n == 0x205F || n == 0x3000
  }

  predicate IsBlank(s: string) {
    forall c | c in s :: IsSpace(c)
  }

  function TrimLeft(s: string): string {
    if s != "" && IsSpace(s[0]) then TrimLeft(s[1..]) else s
  }

  function TrimRight(s: string): string {
    if s != "" && IsSpace(s[|s| - 1]) then TrimRight(s[..|s| - 1]) else s
  }

  function Strip(s: string): string { TrimRight(TrimLeft(s)) }

  function LowerChar(c: char): char {
    if 'A' <= c <= 'Z' then (c as int + 32) as char else c
  }

  function Lower(s: string): string {
    seq(|s|, i requires 0 <= i < |s| => LowerChar(s[i]))
  }

  /** No white space at either end. */
  predicate IsStripped(s: string) {
    s != "" ==> !IsSpace(s[0]) && !IsSpace(s[|s| - 1])
  }

  lemma {:induction false} TrimRightStrips(s: string)
    ensures var t := TrimRight(s);
            && t <= s && (t != "" ==> !IsSpace(t[|t| - 1]))
    decreases |s|
  {
    if s != "" && IsSpace(s[|s| - 1]) {
      TrimRightStrips(s[..|s| - 1]);
    }
  }

  lemma {:induction false} TrimLeftStrips(s: string)
    ensures var t := TrimLeft(s); t != "" ==> !IsSpace(t[0])
    decreases |s|
  {
    if s != "" && IsSpace(s[0]) {
      TrimLeftStrips(s[1..]);
    }
  }

  lemma StripStrips(s: string)
    ensures IsStripped(Strip(s))
  {
    TrimLeftStrips(s);
    TrimRightStrips(TrimLeft(s));
  }

  lemma StrippedStays(s: string)
    requires IsStripped(s)
    ensures Strip(s) == s
  {
  }

  // ---------------------------------------------------------------------
  // Collapsing white space
  // ---------------------------------------------------------------------

  /** Every run of white space becomes one space. */
  function Collapse(s: string, afterSpace: bool := false): string {
    if s == "" then ""
    else if IsSpace(s[0]) then (if afterSpace then "" else " ") + Collapse(s[1..], true)
    else [s[0]] + Collapse(s[1..], false)
  }

  function NonSpace(s: string): string {
    if s == "" then "" else (if IsSpace(s[0]) then "" else [s[0]]) + NonSpace(s[1..])
  }

  predicate StartsWithSpace(s: string) { s != "" && s[0] == ' ' }
  predicate EndsWithSpace(s: string) { s != "" && s[|s| - 1] == ' ' }

  /** Only single ordinary spaces. */
  predicate IsClean(s: string) {
    forall i | 0 <= i < |s| && IsSpace(s[i]) :: s[i] == ' ' && (i + 1 < |s| ==> !IsSpace(s[i + 1]))
  }

  /** Whether collapsing, possibly right after a space, has nothing to do. */
  predicate Collapsed(s: string, afterSpace: bool) {
    IsClean(s) && (afterSpace ==> !StartsWithSpace(s))
  }

  lemma CleanCons(c: char, s: string)
    ensures IsClean([c] + s) <==>
            IsClean(s) && (IsSpace(c) ==> c == ' ' && (s != "" ==> !IsSpace(s[0])))
  {
    hide IsSpace;
    var all := [c] + s;
    assert all[0] == c && all[1..] == s;
    if IsClean(all) {
      assert forall i | 0 <= i < |s| && IsSpace(s[i]) ::
          s[i] == all[i + 1] && (i + 1 < |s| ==> s[i + 1] == all[i + 2]);
    }
  }

  lemma CollapseCons(c: char, s: string, afterSpace: bool)
    ensures Collapse([c] + s, afterSpace)
            == if !IsSpace(c) then [c] + Collapse(s, false)
               else if afterSpace then Collapse(s, true) else " " + Collapse(s, true)
  {
    hide IsSpace;
    assert ([c] + s)[1..] == s;
  }

  lemma StartsClean(s: string)
    requires IsClean(s) && s != ""
    ensures StartsWithSpace(s) <==> IsSpace(s[0])
  {
  }

  lemma {:induction false} CollapseIsCollapsed(s: string, afterSpace: bool)
    ensures Collapsed(Collapse(s, afterSpace), afterSpace)
  {
    if s != "" {
      hide Collapse, IsClean, IsSpace;
      var c, tail := s[0], s[1..];
      assert s == [c] + tail;
      CollapseCons(c, tail, afterSpace);
      CollapseIsCollapsed(tail, IsSpace(c));
      var rest := Collapse(tail, IsSpace(c));
      CleanCons(c, rest);
      CleanCons(' ', rest);
      assert IsSpace(' ') by { SpaceIsSpace(); }
      if rest != "" {
        StartsClean(rest);
      }
    }
  }

  lemma SpaceIsSpace()
    ensures IsSpace(' ')
  {
  }

  lemma NonSpaceCons(c: char, s: string)
    ensures NonSpace([c] + s) == if IsSpace(c) then NonSpace(s) else [c] + NonSpace(s)
  {
    hide IsSpace;
    assert ([c] + s)[1..] == s;
  }

  lemma BlankCons(c: char, s: string)
    ensures IsBlank([c] + s) <==> IsSpace(c) && IsBlank(s)
  {
    hide IsSpace;
    assert c in [c] + s && forall d | d in s :: d in [c] + s;
  }

  /** Collapsing keeps all that is not white space. */
  lemma {:induction false} CollapseKeepsText(s: string, afterSpace: bool)
    ensures NonSpace(Collapse(s, afterSpace)) == NonSpace(s)
    ensures IsBlank(Collapse(s, afterSpace)) <==> IsBlank(s)
  {
    if s != "" {
      hide Collapse, NonSpace, IsBlank, IsSpace;
      var c, tail := s[0], s[1..];
      assert s == [c] + tail;
      CollapseCons(c, tail, afterSpace);
      CollapseKeepsText(tail, IsSpace(c));
      var rest := Collapse(tail, IsSpace(c));
      SpaceIsSpace();
      NonSpaceCons(c, tail);
      NonSpaceCons(c, rest);
      NonSpaceCons(' ', rest);
      BlankCons(c, tail);
      BlankCons(c, rest);
      BlankCons(' ', rest);
    }
  }

  lemma CollapseIsClean(s: string)
    ensures IsClean(Collapse(s))
    ensures IsBlank(Collapse(s)) <==> IsBlank(s)
    ensures NonSpace(Collapse(s)) == NonSpace(s)
  {
    hide Collapse, NonSpace, IsBlank;
    CollapseIsCollapsed(s, false);
    CollapseKeepsText(s, false);
  }

  /** Collapsing leaves a clean text alone. */
  lemma {:induction false} CollapsedStays(s: string, afterSpace: bool)
    requires Collapsed(s, afterSpace)
    ensures Collapse(s, afterSpace) == s
  {
    if s != "" {
      hide Collapse, IsClean, IsSpace;
      var c, tail := s[0], s[1..];
      assert s == [c] + tail;
      CleanCons(c, tail);
      StartsClean(s);
      if tail != "" && IsSpace(c) {
        StartsClean(tail);
      }
      CollapsedStays(tail, IsSpace(c));
      CollapseCons(c, tail, afterSpace);
    }
  }

  lemma CleanConcat(a: string, b: string)
    requires a != "" && b != "" && IsClean(a) && IsClean(b)
    ensures IsClean(a + b) <==> !(EndsWithSpace(a) && StartsWithSpace(b))
    ensures forall c | c in a + b && IsSpace(c) :: c == ' '
  {
    var all := a + b;
    if EndsWithSpace(a) && StartsWithSpace(b) {
      assert all[|a| - 1] == ' ' && all[|a|] == ' ';
    }
  }

  lemma TrimLeftOfClean(s: string)
    requires IsClean(s) && !IsBlank(s)
    ensures var t := TrimLeft(s);
            && t != "" && IsClean(t) && !IsSpace(t[0]) && !StartsWithSpace(t) && !IsBlank(t)
            && NonSpace(t) == NonSpace(s)
    ensures TrimLeft(s) == if StartsWithSpace(s) then s[1..] else s
  {
    assert s != "";
    if IsSpace(s[0]) {
      assert s == [s[0]] + s[1..];
      CleanCons(s[0], s[1..]);
      assert s[1..] != "";
      assert !IsSpace(s[1]);
      assert TrimLeft(s[1..]) == s[1..];
      assert s[1] in s[1..];
    }
  }

  lemma {:induction false} NonSpaceConcat(a: string, b: string)
    ensures NonSpace(a + b) == NonSpace(a) + NonSpace(b)
  {
    if a == "" {
      assert a + b == b;
    } else {
      hide IsSpace;
      assert (a + b)[1..] == a[1..] + b;
      NonSpaceConcat(a[1..], b);
    }
  }

  lemma {:induction false} BlankHasNoText(s: string)
    requires IsBlank(s)
    ensures NonSpace(s) == ""
  {
    if s != "" {
      BlankHasNoText(s[1..]);
    }
  }
}
