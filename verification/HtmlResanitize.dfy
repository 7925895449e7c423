/** Sanitizing the sanitizer's own output. The tokenizer reads each emitted tag as a
    tag and each stretch of text between tags, unescaped, as one piece of data. */
module HtmlResanitize {
  import opened Texts
  import opened Wrappers
  import opened HtmlSanitizer
  import opened HtmlProperties

  function EventOf(p: Piece): Event {
    match p
    case Open(tag) => StartTag(tag)
    case Close(tag) => EndTag(tag)
    case LineBreak => StartTag("br")
    case Text(raw) => Data(raw)
  }

  function EventsOf(ps: seq<Piece>): seq<Event> {
    if ps == [] then [] else EventsOf(ps[..|ps| - 1]) + [EventOf(ps[|ps| - 1])]
  }

  /** Joins neighbouring texts. */
  function Merge(ps: seq<Piece>): seq<Piece> {
    if ps == [] then []
    else MergedOnto(Merge(ps[..|ps| - 1]), ps[|ps| - 1])
  }

  function MergedOnto(m: seq<Piece>, p: Piece): seq<Piece> {
    if p.Text? && m != [] && m[|m| - 1].Text? then m[..|m| - 1] + [Text(m[|m| - 1].raw + p.raw)] else m + [p]
  }

  /** The events that the tokenizer delivers for emitted pieces. */
  function Reread(ps: seq<Piece>): seq<Event> {
    EventsOf(Merge(ps))
  }

  function Squeeze(ps: seq<Piece>): seq<Piece> {
    if ps == [] then []
    else
      var last := ps[|ps| - 1];
      Squeeze(ps[..|ps| - 1]) + [if last.Text? then Text(Collapse(last.raw)) else last]
  }

  // ---------------------------------------------------------------------
  // Merged pieces
  // ---------------------------------------------------------------------

  predicate OrdinarySpaces(s: string) {
    forall c | c in s && IsSpace(c) :: c == ' '
  }

  predicate MergedAt(ps: seq<Piece>, i: nat)
    requires i < |ps|
  {
    match ps[i]
    case Open(tag) => tag in BLOCK_TAGS
    case Close(tag) => tag in BLOCK_TAGS
    case LineBreak => true
    case Text(raw) =>
      && !IsBlank(raw) && OrdinarySpaces(raw)
      && (i > 0 ==> !ps[i - 1].Text?)
      && (i == 0 ==> !StartsWithSpace(raw))
  }

  predicate Merged(ps: seq<Piece>) {
    forall i | 0 <= i < |ps| :: MergedAt(ps, i)
  }

  lemma MergedFront(ps: seq<Piece>)
    requires Merged(ps) && ps != []
    ensures Merged(ps[..|ps| - 1]) && MergedAt(ps, |ps| - 1)
  {
    var front := ps[..|ps| - 1];
    forall i | 0 <= i < |front| ensures MergedAt(front, i) {
      assert MergedAt(ps, i);
    }
  }

  lemma MergedGrows(ps: seq<Piece>, p: Piece)
    requires Merged(ps) && MergedAt(ps + [p], |ps|)
    ensures Merged(ps + [p])
  {
    var all := ps + [p];
    forall i | 0 <= i < |all| ensures MergedAt(all, i) {
      if i < |ps| {
        assert MergedAt(ps, i);
      }
    }
  }

  lemma TextJoins(m: seq<Piece>, a: string, b: string)
    requires Merged(m + [Text(a)]) && b != "" && OrdinarySpaces(b)
    ensures Merged(m + [Text(a + b)])
  {
    var all := m + [Text(a)];
    MergedFront(all);
    assert all[..|m|] == m;
    var c :| c in a && !IsSpace(c);
    assert c in a + b;
    assert MergedAt(m + [Text(a + b)], |m|);
    MergedGrows(m, Text(a + b));
  }

  lemma {:induction false} MergeIsMerged(ps: seq<Piece>)
    requires Tidy(ps)
    ensures Merged(Merge(ps))
    ensures ps != [] ==> Merge(ps) != [] && (Merge(ps)[|Merge(ps)| - 1].Text? <==> ps[|ps| - 1].Text?)
  {
    if ps != [] {
      hide Tidy, Merged, IsBlank, IsClean, OrdinarySpaces;
      var front, last := ps[..|ps| - 1], ps[|ps| - 1];
      TidyFront(ps);
      TidyLast(ps);
      MergeIsMerged(front);
      var m := Merge(front);
      if last.Text? {
        CleanIsOrdinary(last.raw);
      }
      if last.Text? && m != [] && m[|m| - 1].Text? {
        assert m == m[..|m| - 1] + [Text(m[|m| - 1].raw)];
        TextJoins(m[..|m| - 1], m[|m| - 1].raw, last.raw);
      } else {
        assert MergedAt(m + [last], |m|);
        MergedGrows(m, last);
      }
    }
  }

  /** The same tags, the same text, the same string. */
  ghost predicate SameContent(a: seq<Piece>, b: seq<Piece>) {
    Replay(a) == Replay(b) && TagsOf(a) == TagsOf(b) && RawText(a) == RawText(b) && Render(a) == Render(b)
  }

  lemma SameSnoc(a: seq<Piece>, b: seq<Piece>, p: Piece)
    requires SameContent(a, b)
    ensures SameContent(a + [p], b + [p])
  {
    hide Replay, TagsOf, RawText, Render;
    Snoc(a, p);
    Snoc(b, p);
  }

  lemma SameJoin(ps: seq<Piece>, a: string, b: string)
    ensures SameContent(ps + [Text(a)] + [Text(b)], ps + [Text(a + b)])
  {
    hide Replay, TagsOf, RawText, Render, Escape;
    Snoc(ps, Text(a));
    Snoc(ps + [Text(a)], Text(b));
    Snoc(ps, Text(a + b));
    EscapeConcat(a, b);
    assert RawText(ps) + (a + b) == RawText(ps) + a + b;
    assert Render(ps) + (Escape(a) + Escape(b)) == Render(ps) + Escape(a) + Escape(b);
    assert TagsOf(ps) + [] == TagsOf(ps);
  }

  lemma MergingKeepsContent(m: seq<Piece>, p: Piece)
    ensures SameContent(m + [p], MergedOnto(m, p))
  {
    if p.Text? && m != [] && m[|m| - 1].Text? {
      hide SameContent;
      var n, t := m[..|m| - 1], m[|m| - 1].raw;
      assert m == n + [Text(t)];
      SameJoin(n, t, p.raw);
    }
  }

  lemma {:induction false} MergeKeepsContent(ps: seq<Piece>)
    ensures SameContent(Merge(ps), ps)
  {
    if ps != [] {
      hide SameContent, MergedOnto;
      var front, last := ps[..|ps| - 1], ps[|ps| - 1];
      MergeKeepsContent(front);
      assert ps == front + [last];
      SameSnoc(Merge(front), front, last);
      MergingKeepsContent(Merge(front), last);
      SameTransitive(Merge(ps), Merge(front) + [last], ps);
    }
  }

  lemma SameTransitive(a: seq<Piece>, b: seq<Piece>, c: seq<Piece>)
    requires SameContent(b, a) && SameContent(b, c)
    ensures SameContent(a, c)
  {
  }

  lemma CleanIsOrdinary(s: string)
    requires IsClean(s)
    ensures OrdinarySpaces(s)
  {
  }

  lemma Snoc(ps: seq<Piece>, p: Piece)
    ensures Replay(ps + [p]) ==
            match Replay(ps)
            case None => None
            case Some(open) =>
              match p
              case Open(tag) => Some(open + [tag])
              case Close(tag) => if open != [] && open[|open| - 1] == tag then Some(open[..|open| - 1]) else None
              case _ => Some(open)
    ensures TagsOf(ps + [p]) == TagsOf(ps) + if p.Text? then [] else [p]
    ensures RawText(ps + [p]) == RawText(ps) + (match p case Text(raw) => raw case _ => "")
    ensures Render(ps + [p]) == Render(ps) + Show(p)
  {
    assert (ps + [p])[..|ps|] == ps;
  }

  // ---------------------------------------------------------------------
  // The second pass
  // ---------------------------------------------------------------------

  lemma {:induction false} SqueezeFits(ps: seq<Piece>)
    ensures |Squeeze(ps)| == |ps|
    ensures ps != [] ==>
              var p, q := ps[|ps| - 1], Squeeze(ps)[|ps| - 1];
              if p.Text? then q == Text(Collapse(p.raw)) else q == p
  {
    if ps != [] {
      SqueezeFits(ps[..|ps| - 1]);
    }
  }

  lemma MergedStart(ps: seq<Piece>)
    requires Merged(ps) && ps != [] && ps[0].Text?
    ensures ps[0].raw != "" && !IsSpace(ps[0].raw[0])
  {
    assert MergedAt(ps, 0);
    var raw := ps[0].raw;
    NothingIsBlank();
    assert raw[0] in raw;
  }

  lemma CollapseKeepsStart(s: string)
    requires s != "" && !IsSpace(s[0])
    ensures Collapse(s) != "" && Collapse(s)[0] == s[0] && TrimLeft(Collapse(s)) == Collapse(s)
  {
  }

  lemma SecondStepText(front: seq<Piece>, raw: string, open: seq<string>)
    requires Merged(front + [Text(raw)])
    ensures Step(Doc(Squeeze(front), open, 0), Data(raw)) == Doc(Squeeze(front) + [Text(Collapse(raw))], open, 0)
  {
    hide Merged, IsBlank, Collapse, TrimLeft;
    var m := front + [Text(raw)];
    MergedFront(m);
    CollapseIsClean(raw);
    SqueezeFits(front);
    if front == [] {
      MergedStart(m);
      CollapseKeepsStart(raw);
      assert Squeeze(front) + [Text(Collapse(raw))] == [Text(Collapse(raw))];
    }
  }

  lemma SecondStepTag(pieces: seq<Piece>, p: Piece, open: seq<string>)
    requires !p.Text? && (p.Open? || p.Close? ==> p.tag in BLOCK_TAGS)
    requires p.Close? ==> open != [] && open[|open| - 1] == p.tag
    ensures Step(Doc(pieces, open, 0), EventOf(p))
            == Doc(pieces + [p],
                   match p
                   case Open(tag) => open + [tag]
                   case Close(_) => open[..|open| - 1]
                   case _ => open,
                   0)
  {
    if p.Close? {
      assert p.tag in open;
    }
  }

  lemma EventsSnoc(ps: seq<Piece>, p: Piece)
    ensures EventsOf(ps + [p]) == EventsOf(ps) + [EventOf(p)]
  {
    assert (ps + [p])[..|ps|] == ps;
  }

  lemma SecondPassSnoc(ps: seq<Piece>, p: Piece)
    requires Merged(ps + [p]) && Replay(ps + [p]).Some? && Replay(ps).Some?
    requires Run(EventsOf(ps)) == Doc(Squeeze(ps), Replay(ps).value, 0)
    ensures Run(EventsOf(ps + [p])) == Doc(Squeeze(ps + [p]), Replay(ps + [p]).value, 0)
  {
    hide Merged, Step, Run, EventsOf, Squeeze, Replay, IsBlank, OrdinarySpaces;
    MergedFront(ps + [p]);
    EventsSnoc(ps, p);
    RunSnoc(EventsOf(ps), EventOf(p));
    SqueezeSnoc(ps, p);
    ReplayGrows(ps, p);
    if p.Text? {
      SecondStepText(ps, p.raw, Replay(ps).value);
    } else {
      SecondStepTag(Squeeze(ps), p, Replay(ps).value);
    }
  }

  /** Fed with its own output, the sanitizer emits the same tags and collapsed text. */
  lemma {:induction false} SecondPass(m: seq<Piece>)
    requires Merged(m) && Replay(m).Some?
    ensures Run(EventsOf(m)) == Doc(Squeeze(m), Replay(m).value, 0)
    decreases |m|
  {
    if m != [] {
      hide Merged, Run, EventsOf, Squeeze;
      var front, last := m[..|m| - 1], m[|m| - 1];
      assert m == front + [last];
      MergedFront(m);
      ReplayGrows(front, last);
      SecondPass(front);
      SecondPassSnoc(front, last);
    }
  }

  lemma {:induction false} CollapseKeepsEnd(s: string, afterSpace: bool)
    requires s != "" && !IsSpace(s[|s| - 1])
    ensures var t := Collapse(s, afterSpace); t != "" && t[|t| - 1] == s[|s| - 1]
    decreases |s|
  {
    hide Collapse, IsSpace;
    var c, tail := s[0], s[1..];
    var rest := Collapse(tail, IsSpace(c));
    assert s == [c] + tail;
    CollapseCons(c, tail, afterSpace);
    if tail == "" {
      CollapseOfNothing();
    } else {
      CollapseKeepsEnd(tail, IsSpace(c));
      assert ([c] + rest)[|rest|] == rest[|rest| - 1] == (" " + rest)[|rest|];
    }
  }

  lemma CollapseOfNothing()
    ensures Collapse("", false) == "" && Collapse("", true) == ""
  {
  }

  lemma SqueezingKeeps(a: seq<Piece>, b: seq<Piece>, p: Piece)
    requires TagsOf(a) == TagsOf(b) && NonSpace(RawText(a)) == NonSpace(RawText(b))
    ensures var q := if p.Text? then Text(Collapse(p.raw)) else p;
            && TagsOf(a + [q]) == TagsOf(b + [p])
            && NonSpace(RawText(a + [q])) == NonSpace(RawText(b + [p]))
  {
    hide TagsOf, RawText, NonSpace, Collapse, Render, Replay;
    Snoc(b, p);
    Snoc(a, if p.Text? then Text(Collapse(p.raw)) else p);
    if p.Text? {
      CollapseIsClean(p.raw);
      NonSpaceConcat(RawText(b), p.raw);
      NonSpaceConcat(RawText(a), Collapse(p.raw));
    } else {
      assert RawText(b) + "" == RawText(b) && RawText(a) + "" == RawText(a);
    }
  }

  lemma SqueezeNothing()
    ensures Squeeze([]) == []
  {
  }

  lemma {:induction false} SqueezeKeeps(ps: seq<Piece>)
    ensures TagsOf(Squeeze(ps)) == TagsOf(ps)
    ensures NonSpace(RawText(Squeeze(ps))) == NonSpace(RawText(ps))
  {
    hide TagsOf, RawText, NonSpace, Collapse, Squeeze, Render;
    if ps == [] {
      SqueezeNothing();
    } else {
      var front, last := ps[..|ps| - 1], ps[|ps| - 1];
      SqueezeKeeps(front);
      SqueezeSnoc(front, last);
      SqueezingKeeps(Squeeze(front), front, last);
      assert front + [last] == ps;
    }
  }

  /** Sanitizing again what the sanitizer made of an event stream. */
  function SanitizedTwice(events: seq<Event>): string {
    Sanitized(Reread(Kept(events)))
  }

  /** Squeezed pieces end in no space. */
  lemma SqueezedIsTrimmed(ps: seq<Piece>)
    requires Tidy(ps) && Merged(Merge(ps))
    requires ps != [] && ps[|ps| - 1].Text? ==> !EndsWithSpace(ps[|ps| - 1].raw)
    ensures TrimEnd(Squeeze(Merge(ps))) == Squeeze(Merge(ps))
  {
    hide Tidy, Merged, Collapse, IsBlank;
    var m := Merge(ps);
    if m != [] {
      SqueezeFits(m);
      if m[|m| - 1].Text? {
        MergeKeepsEnd(ps);
        CollapseKeepsEnd(m[|m| - 1].raw, false);
      }
    }
  }

  lemma SecondOutput(events: seq<Event>)
    ensures var m := Merge(Kept(events));
            && Merged(m)
            && Kept(Reread(Kept(events))) == Squeeze(m)
            && SanitizedTwice(events) == Render(Squeeze(m))
  {
    hide Tidy, Merged, Kept, Render, Collapse, Sanitized, Replay, RawText, NonSpace, Squeeze, TrimEnd, Merge;
    var ps := Kept(events);
    KeptIsSound(events);
    MergeIsMerged(ps);
    MergeKeepsContent(ps);
    SecondPass(Merge(ps));
    SqueezedIsTrimmed(ps);
    KeptOf(Reread(ps));
    KeptIsSound(Reread(ps));
  }

  lemma KeptOf(events: seq<Event>)
    ensures Kept(events) == TrimEnd(Finished(events))
  {
  }

  lemma MergeKeepsEnd(ps: seq<Piece>)
    requires Tidy(ps) && ps != []
    requires ps[|ps| - 1].Text? && !EndsWithSpace(ps[|ps| - 1].raw)
    ensures var m := Merge(ps);
            m != [] && m[|m| - 1].Text? && m[|m| - 1].raw != ""
            && !IsSpace(m[|m| - 1].raw[|m[|m| - 1].raw| - 1])
  {
    hide Tidy;
    TidyLast(ps);
    var raw, m := ps[|ps| - 1].raw, Merge(ps[..|ps| - 1]);
    assert !IsSpace(raw[|raw| - 1]);
    hide IsClean, IsBlank, TidyAt, Merge;
    MergeLast(ps);
    var all := Merge(ps)[|Merge(ps)| - 1].raw;
    assert all[|all| - |raw|..][|raw| - 1] == raw[|raw| - 1];
  }

  lemma MergeLast(ps: seq<Piece>)
    requires ps != [] && ps[|ps| - 1].Text?
    ensures var m := Merge(ps);
            && m != [] && m[|m| - 1].Text?
            && |m[|m| - 1].raw| >= |ps[|ps| - 1].raw|
            && m[|m| - 1].raw[|m[|m| - 1].raw| - |ps[|ps| - 1].raw|..] == ps[|ps| - 1].raw
  {
    var raw, m := ps[|ps| - 1].raw, Merge(ps[..|ps| - 1]);
    if m != [] && m[|m| - 1].Text? {
      assert Merge(ps)[|m| - 1].raw == m[|m| - 1].raw + raw;
    } else {
      assert Merge(ps)[|m|].raw == "" + raw;
    }
  }

  /** The second pass keeps every tag and every visible character. */
  lemma ResanitizingKeepsTagsAndText(events: seq<Event>)
    ensures var first, second := Lex(Sanitized(events), None), Lex(SanitizedTwice(events), None);
            && first.Some? && second.Some?
            && second.value.tags == first.value.tags
            && NonSpace(second.value.text) == NonSpace(first.value.text)
  {
    hide Tidy, Merged, Kept, Render, Collapse, Sanitized, Replay, RawText, NonSpace, Lex, TagsOf, Rests;
    var ps := Kept(events);
    KeptIsSound(events);
    KeptIsSound(Reread(ps));
    SecondOutput(events);
    MergeKeepsContent(ps);
    SqueezeKeeps(Merge(ps));
    LexRender(ps);
    LexRender(Squeeze(Merge(ps)));
    EscapeOfNonSpace(RawText(ps));
    EscapeOfNonSpace(RawText(Squeeze(Merge(ps))));
  }

  // ---------------------------------------------------------------------
  // When the second pass changes nothing
  // ---------------------------------------------------------------------

  ghost predicate DoubledAt(ps: seq<Piece>, i: nat) {
    && 0 < i < |ps| && ps[i - 1].Text? && ps[i].Text?
    && EndsWithSpace(ps[i - 1].raw) && StartsWithSpace(ps[i].raw)
  }

  /** Two spaces meet where one text ends and the next begins. */
  ghost predicate Doubled(ps: seq<Piece>) {
    exists i: nat :: DoubledAt(ps, i)
  }

  lemma DoubledSnoc(ps: seq<Piece>, p: Piece)
    ensures Doubled(ps + [p]) <==> Doubled(ps) || DoubledAt(ps + [p], |ps|)
  {
    var all := ps + [p];
    if Doubled(ps) {
      var i: nat :| DoubledAt(ps, i);
      assert DoubledAt(all, i);
    }
    if Doubled(all) {
      var i: nat :| DoubledAt(all, i);
      assert i < |ps| ==> DoubledAt(ps, i);
    }
  }

  predicate AllClean(ps: seq<Piece>) {
    forall p | p in ps && p.Text? :: IsClean(p.raw)
  }

  lemma AllCleanSnoc(ps: seq<Piece>, p: Piece)
    ensures AllClean(ps + [p]) <==> AllClean(ps) && (p.Text? ==> IsClean(p.raw))
  {
    assert p in ps + [p] && forall q | q in ps :: q in ps + [p];
  }

  /** What merging knows about the text it ends with. */
  predicate EndsAlike(m: seq<Piece>, ps: seq<Piece>) {
    ps != [] && ps[|ps| - 1].Text? ==>
      && m != [] && m[|m| - 1].Text? && m[|m| - 1].raw != "" && OrdinarySpaces(m[|m| - 1].raw)
      && (EndsWithSpace(m[|m| - 1].raw) <==> EndsWithSpace(ps[|ps| - 1].raw))
  }

  /** Merged texts stay clean exactly when no two spaces meet. */
  lemma {:induction false} MergeIsCleanUnlessDoubled(ps: seq<Piece>)
    requires Tidy(ps)
    ensures AllClean(Merge(ps)) <==> !Doubled(ps)
    ensures EndsAlike(Merge(ps), ps)
  {
    if ps != [] {
      hide Tidy, AllClean, Doubled, EndsAlike, IsClean, IsBlank;
      var front, last := ps[..|ps| - 1], ps[|ps| - 1];
      TidyFront(ps);
      TidyLast(ps);
      MergeIsCleanUnlessDoubled(front);
      MergeIsMerged(front);
      var m := Merge(front);
      assert ps == front + [last];
      DoubledSnoc(front, last);
      if last.Text? && m != [] && m[|m| - 1].Text? {
        var n := m[..|m| - 1];
        assert m == n + [Text(m[|m| - 1].raw)];
        JoinStep(front, n, m[|m| - 1].raw, last.raw);
      } else {
        AllCleanSnoc(m, last);
        assert !DoubledAt(ps, |front|);
        assert EndsAlike(m + [last], ps) by { if last.Text? { CleanIsOrdinary(last.raw); } }
      }
    } else {
      assert !Doubled([]);
    }
  }

  lemma JoinStep(front: seq<Piece>, n: seq<Piece>, a: string, b: string)
    requires front != [] && front[|front| - 1].Text? && EndsAlike(n + [Text(a)], front)
    requires b != "" && IsClean(b)
    ensures AllClean(n + [Text(a + b)]) <==>
            AllClean(n + [Text(a)]) && !DoubledAt(front + [Text(b)], |front|)
    ensures EndsAlike(n + [Text(a + b)], front + [Text(b)])
  {
    hide AllClean, IsClean, OrdinarySpaces;
    AllCleanSnoc(n, Text(a));
    AllCleanSnoc(n, Text(a + b));
    CleanIsOrdinary(b);
    JoinIsClean(a, b);
  }

  lemma JoinIsClean(a: string, b: string)
    requires a != "" && b != "" && OrdinarySpaces(a) && OrdinarySpaces(b) && IsClean(b)
    ensures IsClean(a + b) <==> IsClean(a) && !(EndsWithSpace(a) && StartsWithSpace(b))
    ensures OrdinarySpaces(a + b) && (EndsWithSpace(a + b) <==> EndsWithSpace(b))
  {
    if IsClean(a) {
      CleanConcat(a, b);
    } else {
      var i :| 0 <= i < |a| && IsSpace(a[i]) && !(a[i] == ' ' && (i + 1 < |a| ==> !IsSpace(a[i + 1])));
      assert a[i] in a;
      assert (a + b)[i] == a[i] && (a + b)[i + 1] == a[i + 1];
    }
  }

  lemma CollapsedCons(c: char, s: string, afterSpace: bool)
    requires IsSpace(c) ==> c == ' '
    requires OrdinarySpaces(s)
    ensures Collapsed([c] + s, afterSpace) <==> !(afterSpace && IsSpace(c)) && Collapsed(s, IsSpace(c))
  {
    CleanCons(c, s);
    if s != "" {
      assert s[0] in s;
    }
  }

  lemma EscapeLengthCons(c: char, s: string)
    ensures |Escape([c] + s)| == |EscapeChar(c)| + |Escape(s)| && |EscapeChar(c)| >= 1
  {
    assert ([c] + s)[1..] == s;
  }

  lemma OrdinaryCons(c: char, s: string)
    requires OrdinarySpaces([c] + s)
    ensures (IsSpace(c) ==> c == ' ') && OrdinarySpaces(s)
  {
    assert c in [c] + s && forall d | d in s :: d in [c] + s;
  }

  /** Collapsing shortens the escaped form of any text that is not collapsed already. */
  lemma {:induction false} CollapseShortens(s: string, afterSpace: bool)
    requires OrdinarySpaces(s) && !Collapsed(s, afterSpace)
    ensures |Escape(Collapse(s, afterSpace))| < |Escape(s)|
    decreases |s|
  {
    hide Escape, EscapeChar, OrdinarySpaces, Collapse, IsSpace;
    if s != "" {
      hide Collapsed;
      var c, tail := s[0], s[1..];
      assert s == [c] + tail;
      OrdinaryCons(c, tail);
      CollapsedCons(c, tail, afterSpace);
      CollapseCons(c, tail, afterSpace);
      EscapeLengthCons(c, tail);
      EscapeLengthCons(c, Collapse(tail, IsSpace(c)));
      if Collapsed(tail, IsSpace(c)) {
        CollapsedStays(tail, IsSpace(c));
      } else {
        CollapseShortens(tail, IsSpace(c));
      }
    }
  }

  lemma RenderLengthSnoc(ps: seq<Piece>, p: Piece)
    ensures |Render(ps + [p])| == |Render(ps)| + |Show(p)|
  {
    PiecesGrow(ps, p);
  }

  lemma SqueezeSnoc(ps: seq<Piece>, p: Piece)
    ensures Squeeze(ps + [p]) == Squeeze(ps) + [if p.Text? then Text(Collapse(p.raw)) else p]
  {
    assert (ps + [p])[..|ps|] == ps;
  }

  ghost predicate SqueezesWell(m: seq<Piece>) {
    && (AllClean(m) ==> Squeeze(m) == m)
    && |Render(Squeeze(m))| <= |Render(m)|
    && (!AllClean(m) ==> |Render(Squeeze(m))| < |Render(m)|)
  }

  lemma SqueezesWellSnoc(ps: seq<Piece>, p: Piece)
    requires SqueezesWell(ps) && (p.Text? ==> OrdinarySpaces(p.raw))
    ensures SqueezesWell(ps + [p])
  {
    hide AllClean, IsClean, Render, Collapse, OrdinarySpaces, Escape, Squeeze;
    AllCleanSnoc(ps, p);
    SqueezeSnoc(ps, p);
    RenderLengthSnoc(ps, p);
    if p.Text? {
      if Collapsed(p.raw, false) {
        CollapsedStays(p.raw, false);
      } else {
        CollapseShortens(p.raw, false);
      }
      RenderLengthSnoc(Squeeze(ps), Text(Collapse(p.raw)));
    } else {
      RenderLengthSnoc(Squeeze(ps), p);
    }
  }

  lemma MergedTail(m: seq<Piece>)
    requires Merged(m) && m != []
    ensures Merged(m[..|m| - 1])
    ensures m[|m| - 1].Text? ==> OrdinarySpaces(m[|m| - 1].raw)
    ensures m == m[..|m| - 1] + [m[|m| - 1]]
  {
    hide Merged, IsBlank, OrdinarySpaces;
    MergedFront(m);
  }

  /** Squeezing clean pieces changes nothing; squeezing others shortens their string. */
  lemma {:induction false} SqueezeShortens(m: seq<Piece>)
    requires Merged(m)
    ensures SqueezesWell(m)
    decreases |m|
  {
    if m != [] {
      hide Merged, SqueezesWell, OrdinarySpaces;
      MergedTail(m);
      SqueezeShortens(m[..|m| - 1]);
      SqueezesWellSnoc(m[..|m| - 1], m[|m| - 1]);
    }
  }

  // ---------------------------------------------------------------------
  // The guard, on the events
  // ---------------------------------------------------------------------

  /** What stands at the end of the output. */
  datatype End = Empty | Markup | Word | Space

  /** All that the condition needs to know of the events so far: how many dropped elements
      and which allowed ones are open, and how the output ends. */
  datatype Shape = Shape(depth: nat, open: seq<string>, end: End)

  /** The open tags without the innermost one of this name and all inside it. */
  function Popped(open: seq<string>, name: string): seq<string> {
    if open == [] then []
    else if open[|open| - 1] == name then open[..|open| - 1]
    else Popped(open[..|open| - 1], name)
  }

  function Reshaped(s: Shape, e: Event): Shape {
    var depth := DepthAfter(s.depth, e);
    match e
    case Data(text) =>
      if s.depth > 0 || IsBlank(text) || text == "" then s
      else s.(end := if IsSpace(text[|text| - 1]) then Space else Word)
    case EndTag(name) =>
      if s.depth == 0 && name in BLOCK_TAGS && name !in DROP_CONTENT_TAGS && name in s.open
      then Shape(depth, Popped(s.open, name), Markup) else s.(depth := depth)
    case other =>
      if s.depth > 0 || other.name in DROP_CONTENT_TAGS then s.(depth := depth)
      else if other.name == "br" then s.(end := Markup)
      else if other.name in BLOCK_TAGS then Shape(depth, s.open + [other.name], Markup)
      else s
  }

  function ShapeOf(events: seq<Event>): Shape {
    if events == [] then Shape(0, [], Empty) else Reshaped(ShapeOf(events[..|events| - 1]), events[|events| - 1])
  }

  /** Visible data that begins with white space comes right behind visible data that ends
      in white space. */
  predicate SpacesMeet(s: Shape, e: Event) {
    e.Data? && s.depth == 0 && s.end.Space? && !IsBlank(e.text) && e.text != "" && IsSpace(e.text[0])
  }

  /** Told from the events alone. */
  predicate SpacesEverMeet(events: seq<Event>) {
    exists i | 0 <= i < |events| :: SpacesMeet(ShapeOf(events[..i]), events[i])
  }

  function EndOf(ps: seq<Piece>): End {
    if ps == [] then Empty
    else if !ps[|ps| - 1].Text? then Markup
    else if EndsWithSpace(ps[|ps| - 1].raw) then Space else Word
  }

  function ShapeOfDoc(d: Doc): Shape { Shape(d.drop, d.open, EndOf(d.pieces)) }

  lemma EndOfSnoc(ps: seq<Piece>, p: Piece)
    ensures EndOf(ps + [p]) == if !p.Text? then Markup else if EndsWithSpace(p.raw) then Space else Word
  {
  }

  lemma {:induction false} ClosingShape(d: Doc, name: string)
    requires name in d.open
    ensures ClosedThrough(d, name).open == Popped(d.open, name)
    ensures EndOf(ClosedThrough(d, name).pieces) == Markup && ClosedThrough(d, name).drop == d.drop
    decreases |d.open|
  {
    hide EndOf;
    var top := d.open[|d.open| - 1];
    EndOfSnoc(d.pieces, Close(top));
    if top != name {
      ClosingShape(d.(pieces := d.pieces + [Close(top)], open := d.open[..|d.open| - 1]), name);
    }
  }

  lemma {:induction false} CollapseEndsInSpace(s: string, afterSpace: bool)
    requires s != "" && IsSpace(s[|s| - 1])
    ensures var t := Collapse(s, afterSpace);
            (t == "" ==> afterSpace && IsBlank(s)) && (t != "" ==> EndsWithSpace(t))
    decreases |s|
  {
    hide Collapse, IsSpace, IsBlank;
    var c, tail := s[0], s[1..];
    var rest := Collapse(tail, IsSpace(c));
    assert s == [c] + tail;
    CollapseCons(c, tail, afterSpace);
    BlankCons(c, tail);
    if tail == "" {
      CollapseOfNothing();
      NothingIsBlank();
    } else {
      CollapseEndsInSpace(tail, IsSpace(c));
    }
  }

  /** The text that is shown for visible data ends as the data does. */
  lemma ShownEnds(text: string)
    requires !IsBlank(text) && text != ""
    ensures Collapse(text) != "" && (EndsWithSpace(Collapse(text)) <==> IsSpace(text[|text| - 1]))
    ensures TrimLeft(Collapse(text)) != ""
    ensures EndsWithSpace(TrimLeft(Collapse(text))) <==> IsSpace(text[|text| - 1])
  {
    hide Collapse, IsBlank, NonSpace, IsClean, TrimLeft;
    CollapseIsClean(text);
    TrimLeftOfClean(Collapse(text));
    if IsSpace(text[|text| - 1]) {
      CollapseEndsInSpace(text, false);
      assert Collapse(text) != "" by { NothingIsBlank(); }
    } else {
      CollapseKeepsEnd(text, false);
    }
  }

  lemma DataShape(d: Doc, text: string)
    ensures ShapeOfDoc(WithData(d, text)) == Reshaped(ShapeOfDoc(d), Data(text))
  {
    hide Collapse, TrimLeft, IsBlank, IsSpace, EndOf, NonSpace, IsClean, DepthAfter;
    var normalized := Collapse(text);
    CollapseIsClean(text);
    NothingIsBlank();
    if d.drop == 0 && !IsBlank(normalized) {
      ShownEnds(text);
      EndOfSnoc([], Text(TrimLeft(normalized)));
      assert [] + [Text(TrimLeft(normalized))] == [Text(TrimLeft(normalized))];
      EndOfSnoc(d.pieces, Text(normalized));
      EndOfSnoc(d.pieces + [Text(" ")], Text(normalized));
      assert d.pieces + [Text(" "), Text(normalized)] == d.pieces + [Text(" ")] + [Text(normalized)];
    }
  }

  lemma StepShape(d: Doc, e: Event)
    ensures ShapeOfDoc(Step(d, e)) == Reshaped(ShapeOfDoc(d), e)
  {
    hide WithData, ClosedThrough, EndOf, IsBlank, IsSpace, Popped;
    match e
    case Data(text) => DataShape(d, text);
    case EndTag(name) =>
      if name in d.open {
        ClosingShape(d, name);
      }
    case other =>
      EndOfSnoc(d.pieces, LineBreak);
      EndOfSnoc(d.pieces, Open(other.name));
  }

  lemma {:induction false} RunShape(events: seq<Event>)
    ensures ShapeOfDoc(Run(events)) == ShapeOf(events)
  {
    if events != [] {
      hide Step, Reshaped, ShapeOfDoc;
      RunShape(events[..|events| - 1]);
      StepShape(Run(events[..|events| - 1]), events[|events| - 1]);
    }
  }

  /** Emitting this event puts a text that begins with a space behind one that ends in a
      space. */
  predicate Doubles(d: Doc, e: Event) {
    SpacesMeet(ShapeOfDoc(d), e)
  }

  lemma {:induction false} ClosingKeepsDoubled(d: Doc, name: string)
    ensures Doubled(ClosedThrough(d, name).pieces) <==> Doubled(d.pieces)
    decreases |d.open|
  {
    hide Doubled;
    if d.open != [] {
      var top := d.open[|d.open| - 1];
      DoubledSnoc(d.pieces, Close(top));
      if top != name {
        ClosingKeepsDoubled(d.(pieces := d.pieces + [Close(top)], open := d.open[..|d.open| - 1]), name);
      }
    }
  }

  lemma {:induction false} ClosingAllKeepsDoubled(d: Doc)
    ensures Doubled(ClosedAll(d).pieces) <==> Doubled(d.pieces)
    decreases |d.open|
  {
    hide Doubled;
    if d.open != [] {
      var top := d.open[|d.open| - 1];
      DoubledSnoc(d.pieces, Close(top));
      ClosingAllKeepsDoubled(d.(pieces := d.pieces + [Close(top)], open := d.open[..|d.open| - 1]));
    }
  }

  lemma CollapsedStart(s: string)
    requires s != ""
    ensures StartsWithSpace(Collapse(s)) <==> IsSpace(s[0])
  {
  }

  lemma DataDoubles(d: Doc, text: string)
    ensures Doubled(WithData(d, text).pieces) <==> Doubled(d.pieces) || Doubles(d, Data(text))
  {
    hide Doubled, IsClean, Collapse, TrimLeft, IsBlank;
    var normalized := Collapse(text);
    CollapseIsClean(text);
    if d.drop == 0 && !IsBlank(normalized) {
      assert text != "" by { NothingIsBlank(); }
      CollapsedStart(text);
      if d.pieces == [] {
        DoubledSnoc([], Text(TrimLeft(normalized)));
        assert [] + [Text(TrimLeft(normalized))] == [Text(TrimLeft(normalized))];
        assert d.pieces == [];
      } else if LeavesGap(d.pieces[|d.pieces| - 1]) || StartsWithSpace(normalized) {
        DoubledSnoc(d.pieces, Text(normalized));
      } else {
        var spaced := d.pieces + [Text(" ")];
        DoubledSnoc(d.pieces, Text(" "));
        DoubledSnoc(spaced, Text(normalized));
        assert d.pieces + [Text(" "), Text(normalized)] == spaced + [Text(normalized)];
      }
    }
  }

  lemma StepDoubles(d: Doc, e: Event)
    ensures Doubled(Step(d, e).pieces) <==> Doubled(d.pieces) || Doubles(d, e)
  {
    hide Doubled, WithData, ClosedThrough;
    match e
    case Data(text) => DataDoubles(d, text);
    case EndTag(name) => ClosingKeepsDoubled(d, name);
    case other => DoubledSnoc(d.pieces, if other.name == "br" then LineBreak else Open(other.name));
  }

  lemma MeetingSnoc(events: seq<Event>, e: Event)
    ensures SpacesEverMeet(events + [e]) <==> SpacesEverMeet(events) || SpacesMeet(ShapeOf(events), e)
  {
    hide SpacesMeet, ShapeOf;
    var all := events + [e];
    assert all[..|events|] == events;
    forall i | 0 <= i < |events| ensures all[..i] == events[..i] && all[i] == events[i] {
    }
    if SpacesEverMeet(all) {
      var i :| 0 <= i < |all| && SpacesMeet(ShapeOf(all[..i]), all[i]);
      assert i < |events| ==> SpacesMeet(ShapeOf(events[..i]), events[i]);
    }
    if SpacesEverMeet(events) {
      var i :| 0 <= i < |events| && SpacesMeet(ShapeOf(events[..i]), events[i]);
      assert SpacesMeet(ShapeOf(all[..i]), all[i]);
    }
  }

  lemma RunSnoc(events: seq<Event>, e: Event)
    ensures Run(events + [e]) == Step(Run(events), e)
  {
    assert (events + [e])[..|events|] == events;
  }

  lemma {:induction false} RunDoubles(events: seq<Event>)
    ensures Doubled(Run(events).pieces) <==> SpacesEverMeet(events)
    decreases |events|
  {
    if events == [] {
      assert !Doubled([]);
    } else {
      hide Doubled, Step, SpacesMeet, SpacesEverMeet, Run, ShapeOf, ShapeOfDoc;
      var front, last := events[..|events| - 1], events[|events| - 1];
      RunDoubles(front);
      assert events == front + [last];
      StepDoubles(Run(front), last);
      RunSnoc(front, last);
      RunShape(front);
      MeetingSnoc(front, last);
    }
  }

  lemma TrimEndKeepsDoubled(ps: seq<Piece>)
    requires Tidy(ps) && Rests(ps)
    ensures Doubled(TrimEnd(ps)) <==> Doubled(ps)
  {
    if ps != [] {
      hide Doubled;
      var front, last := ps[..|ps| - 1], ps[|ps| - 1];
      TidyLast(ps);
      assert ps == front + [last];
      DoubledSnoc(front, last);
      if last.Text? && EndsWithSpace(last.raw) {
        var kept := Text(last.raw[..|last.raw| - 1]);
        DroppedLastSpace(last.raw);
        DoubledSnoc(front, kept);
        assert DoubledAt(front + [kept], |front|) <==> DoubledAt(ps, |front|);
      }
    }
  }

  /** Sanitizing twice gives the string of sanitizing once exactly when visible data that
      begins with white space never comes right behind visible data that ends in it. */
  lemma IdempotentUnlessSpacesMeet(events: seq<Event>)
    ensures SanitizedTwice(events) == Sanitized(events) <==> !SpacesEverMeet(events)
  {
    hide Tidy, Merged, Kept, Render, Sanitized, Doubled, SpacesEverMeet, AllClean, Replay, RawText, NonSpace, Rests;
    var ps := Kept(events);
    var m := Merge(ps);
    KeptIsSound(events);
    SecondOutput(events);
    MergeKeepsContent(ps);
    SqueezeShortens(m);
    MergeIsCleanUnlessDoubled(ps);
    FinishedIsWellFormed(events);
    KeptOf(events);
    TrimEndKeepsDoubled(Finished(events));
    ClosingAllKeepsDoubled(Run(events));
    RunDoubles(events);
  }

  /** The smallest case of a doubled space: data "a " followed by data " b". */
  lemma TwoSpacesCanMeet()
    ensures SanitizedTwice([Data("a "), Data(" b")]) != Sanitized([Data("a "), Data(" b")])
  {
    var events := [Data("a "), Data(" b")];
    var first := events[..1];
    assert first == [Data("a ")] && first[..0] == [];
    assert 'a' in "a " && !IsSpace('a');
    assert ShapeOf(first) == Shape(0, [], Space) by { assert "a "[1] == ' '; }
    assert 'b' in " b" && !IsSpace('b');
    assert SpacesMeet(ShapeOf(events[..1]), events[1]);
    IdempotentUnlessSpacesMeet(events);
  }
}
