/** The white space between the texts that the display-HTML sanitizer
    (src/shared/text/html.py) puts next to each other. */
module HtmlSpacing {
  import opened Texts
  import opened HtmlSanitizer
  import opened HtmlProperties
  import opened HtmlResanitize

  // ---------------------------------------------------------------------
  // Collapsing texts behind one another
  // ---------------------------------------------------------------------

  predicate EndsInSpace(s: string, before: bool) {
    if s == "" then before else IsSpace(s[|s| - 1])
  }

  lemma EndsCons(c: char, s: string, before: bool)
    ensures EndsInSpace([c] + s, before) == EndsInSpace(s, IsSpace(c))
  {
    hide IsSpace;
  }

  lemma {:induction false} CollapseConcat(a: string, b: string, afterSpace: bool)
    ensures Collapse(a + b, afterSpace) == Collapse(a, afterSpace) + Collapse(b, EndsInSpace(a, afterSpace))
    decreases |a|
  {
    hide IsSpace, Collapse;
    if a == "" {
      assert a + b == b;
      CollapseOfNothing();
    } else {
      var c, tail := a[0], a[1..];
      assert a == [c] + tail && a + b == [c] + (tail + b);
      CollapseCons(c, tail, afterSpace);
      CollapseCons(c, tail + b, afterSpace);
      CollapseConcat(tail, b, IsSpace(c));
      EndsCons(c, tail, afterSpace);
    }
  }

  lemma {:induction false} CollapseAgain(s: string, inner: bool, outer: bool)
    requires inner ==> outer
    ensures Collapse(Collapse(s, inner), outer) == Collapse(s, outer)
  {
    if s != "" {
      hide Collapse, IsSpace;
      var c, tail := s[0], s[1..];
      assert s == [c] + tail;
      CollapseCons(c, tail, inner);
      CollapseCons(c, tail, outer);
      CollapseAgain(tail, IsSpace(c), IsSpace(c));
      CollapseAgain(tail, true, true);
      CollapseCons(c, Collapse(tail, false), outer);
      CollapseCons(' ', Collapse(tail, true), outer);
      assert IsSpace(' ') by { SpaceIsSpace(); }
    }
  }

  lemma TrimLeftCons(c: char, s: string)
    ensures TrimLeft([c] + s) == if IsSpace(c) then TrimLeft(s) else [c] + s
  {
    hide IsSpace;
    assert ([c] + s)[1..] == s;
  }

  lemma {:induction false} TrimmedCollapse(s: string, afterSpace: bool)
    ensures TrimLeft(Collapse(s, afterSpace)) == Collapse(TrimLeft(s))
  {
    if s != "" {
      hide IsSpace, Collapse, TrimLeft;
      var c, tail := s[0], s[1..];
      assert s == [c] + tail;
      SpaceIsSpace();
      TrimLeftCons(c, tail);
      CollapseCons(c, tail, afterSpace);
      CollapseCons(c, tail, false);
      TrimmedCollapse(tail, true);
      TrimLeftCons(' ', Collapse(tail, true));
      TrimLeftCons(c, Collapse(tail, false));
    }
  }

  // ---------------------------------------------------------------------
  // The text behind the last tag
  // ---------------------------------------------------------------------

  /** What has been emitted behind the last tag. */
  function TailText(ps: seq<Piece>): string {
    if ps == [] || !ps[|ps| - 1].Text? then "" else TailText(ps[..|ps| - 1]) + ps[|ps| - 1].raw
  }

  /** The visible data behind the last tag that is emitted, one piece of data parted from the
      next by a space. Told from the events alone. */
  function NextData(s: Shape, e: Event, tail: string): string {
    if e.Data? && s.depth == 0 && !IsBlank(e.text) then
      match s.end
      case Empty => TrimLeft(e.text)
      case Markup => e.text
      case Word => tail + " " + e.text
      case Space => tail + " " + e.text
    else if Reshaped(s, e).end.Markup? then ""
    else tail
  }

  function TailData(events: seq<Event>): string {
    if events == [] then ""
    else
      var front, last := events[..|events| - 1], events[|events| - 1];
      NextData(ShapeOf(front), last, TailData(front))
  }

  ghost predicate Alike(end: End, text: string, data: string) {
    && Collapse(text) == Collapse(data)
    && (end.Empty? || end.Markup? <==> text == "")
    && (text == "" <==> data == "")
    && (text != "" ==> (IsSpace(text[|text| - 1]) <==> end.Space?) && (IsSpace(data[|data| - 1]) <==> end.Space?))
  }

  lemma TailSnoc(ps: seq<Piece>, p: Piece)
    ensures TailText(ps + [p]) == if p.Text? then TailText(ps) + p.raw else ""
  {
    assert (ps + [p])[..|ps|] == ps;
  }

  lemma DataBehind(data: string, more: string)
    ensures Collapse(data + " " + more)
            == Collapse(data) + (if EndsInSpace(data, false) then "" else " ") + Collapse(more, true)
  {
    hide Collapse, IsSpace, EndsInSpace;
    SpaceIsSpace();
    assert data + " " + more == data + ([' '] + more);
    CollapseConcat(data, [' '] + more, false);
    CollapseCons(' ', more, EndsInSpace(data, false));
    assert Collapse(data) + "" == Collapse(data);
    assert Collapse(data) + (" " + Collapse(more, true)) == Collapse(data) + " " + Collapse(more, true);
  }

  /** The separator that goes between a text that ends so and the one shown for the data. */
  function Gap(space: bool, more: string): string {
    if space || StartsWithSpace(Collapse(more)) then "" else " "
  }

  lemma ShownBehind(text: string, more: string)
    requires more != ""
    ensures Collapse(text + Gap(EndsInSpace(text, false), more) + Collapse(more))
            == Collapse(text) + (if EndsInSpace(text, false) then "" else " ") + Collapse(more, true)
  {
    hide Collapse, IsSpace, EndsInSpace;
    SpaceIsSpace();
    var space, shown := EndsInSpace(text, false), Collapse(more);
    var gap := Gap(space, more);
    assert text + gap + shown == text + (gap + shown);
    CollapseConcat(text, gap + shown, false);
    CollapseAgain(more, false, true);
    CollapseAgain(more, false, false);
    CollapsedStart(more);
    if gap == "" {
      assert gap + shown == shown;
      if !space {
        StartingSpace(more);
        assert Collapse(text) + (" " + Collapse(more, true)) == Collapse(text) + " " + Collapse(more, true);
      }
    } else {
      assert gap + shown == [' '] + shown;
      CollapseCons(' ', shown, false);
      assert Collapse(text) + (" " + Collapse(more, true)) == Collapse(text) + " " + Collapse(more, true);
    }
  }

  /** Visible data behind text: the pieces end alike and collapse alike, with or without a
      separating space. */
  lemma BehindText(end: End, text: string, data: string, more: string)
    requires Alike(end, text, data) && (end.Word? || end.Space?) && more != "" && !IsBlank(more)
    ensures Alike(if IsSpace(more[|more| - 1]) then Space else Word, text + Gap(end.Space?, more) + Collapse(more),
                  data + " " + more)
  {
    hide IsSpace, Collapse, IsBlank, TrimLeft, Gap;
    ShownEnds(more);
    CollapseIsClean(more);
    CleanEnds(Collapse(more));
    DataBehind(data, more);
    ShownBehind(text, more);
  }

  lemma CleanEnds(s: string)
    requires IsClean(s) && s != ""
    ensures IsSpace(s[|s| - 1]) <==> EndsWithSpace(s)
  {
    hide IsSpace;
    SpaceIsSpace();
  }

  /** A text that begins with white space collapses to the same behind a space that it brings
      along. */
  lemma StartingSpace(s: string)
    requires s != "" && IsSpace(s[0])
    ensures " " + Collapse(s, true) == Collapse(s, false)
  {
    hide IsSpace, Collapse;
    assert s == [s[0]] + s[1..];
    CollapseCons(s[0], s[1..], true);
    CollapseCons(s[0], s[1..], false);
  }

  /** Visible data behind nothing, or behind a tag. */
  lemma BehindTag(end: End, text: string, data: string, more: string)
    requires Alike(end, text, data) && (end.Empty? || end.Markup?) && more != "" && !IsBlank(more)
    ensures var next := if IsSpace(more[|more| - 1]) then Space else Word;
            && Alike(next, TrimLeft(Collapse(more)), TrimLeft(more))
            && Alike(next, Collapse(more), more)
  {
    hide IsSpace, Collapse, TrimLeft, IsBlank;
    ShownEnds(more);
    CollapseIsClean(more);
    var shown := Collapse(more);
    TrimLeftOfClean(shown);
    CleanEnds(shown);
    CleanEnds(TrimLeft(shown));
    CollapseAgain(more, false, false);
    TrimmedCollapse(more, false);
    TrimLeftKeepsEnd(more);
    assert Collapse(TrimLeft(shown)) == TrimLeft(shown) by { CollapsedStays(TrimLeft(shown), false); }
  }

  lemma {:induction false} TrimLeftKeepsEnd(s: string)
    requires s != "" && !IsBlank(s)
    ensures TrimLeft(s) != "" && TrimLeft(s)[|TrimLeft(s)| - 1] == s[|s| - 1]
  {
    hide IsSpace, TrimLeft, IsBlank;
    var c, tail := s[0], s[1..];
    assert s == [c] + tail;
    TrimLeftCons(c, tail);
    BlankCons(c, tail);
    if IsSpace(c) {
      NothingIsBlank();
      TrimLeftKeepsEnd(tail);
    }
  }

  /** The pieces behind visible data. */
  lemma TextTail(ps: seq<Piece>, shown: string)
    ensures TailText(ps + [Text(shown)]) == TailText(ps) + shown
    ensures TailText(ps + [Text(" "), Text(shown)]) == TailText(ps) + " " + shown
    ensures TailText([Text(shown)]) == shown
  {
    hide TailText;
    TailSnoc(ps, Text(shown));
    TailSnoc(ps, Text(" "));
    TailSnoc(ps + [Text(" ")], Text(shown));
    TailSnoc([], Text(shown));
    NothingAlike();
    assert ps + [Text(" "), Text(shown)] == ps + [Text(" ")] + [Text(shown)];
    assert [] + [Text(shown)] == [Text(shown)] && "" + shown == shown;
  }

  lemma DataBehindTag(d: Doc, text: string, tail: string)
    requires Alike(EndOf(d.pieces), TailText(d.pieces), tail)
    requires d.drop == 0 && text != "" && !IsBlank(text) && (EndOf(d.pieces).Empty? || EndOf(d.pieces).Markup?)
    ensures Alike(if IsSpace(text[|text| - 1]) then Space else Word, TailText(WithData(d, text).pieces),
                  if EndOf(d.pieces).Empty? then TrimLeft(text) else text)
  {
    hide Alike, Collapse, TrimLeft, IsBlank, IsSpace, TailText, EndOf, WithData;
    var ps, shown := d.pieces, Collapse(text);
    AlikeMeans(EndOf(ps), TailText(ps), tail);
    ShownBehindTag(d, text);
    BehindTag(EndOf(ps), TailText(ps), tail, text);
    TextTail(ps, shown);
    TextTail(ps, TrimLeft(shown));
    assert "" + shown == shown;
  }

  lemma ShownBehindTag(d: Doc, text: string)
    requires d.drop == 0 && !IsBlank(text) && (EndOf(d.pieces).Empty? || EndOf(d.pieces).Markup?)
    ensures WithData(d, text).pieces
            == if EndOf(d.pieces).Empty? then [Text(TrimLeft(Collapse(text)))] else d.pieces + [Text(Collapse(text))]
  {
    hide Collapse, TrimLeft, IsBlank, EndOf;
    BlankCollapse(text);
    EndOfMeans(d.pieces);
  }

  lemma BlankCollapse(text: string)
    ensures IsBlank(Collapse(text)) <==> IsBlank(text)
    ensures text == "" ==> IsBlank(text)
  {
    hide Collapse;
    CollapseIsClean(text);
  }

  lemma DataBehindText(d: Doc, text: string, tail: string)
    requires Alike(EndOf(d.pieces), TailText(d.pieces), tail)
    requires d.drop == 0 && text != "" && !IsBlank(text) && (EndOf(d.pieces).Word? || EndOf(d.pieces).Space?)
    ensures Alike(if IsSpace(text[|text| - 1]) then Space else Word, TailText(WithData(d, text).pieces),
                  tail + " " + text)
  {
    hide Alike, Collapse, TrimLeft, IsBlank, IsSpace, TailText, EndOf;
    var ps, shown := d.pieces, Collapse(text);
    BlankCollapse(text);
    EndOfMeans(ps);
    BehindText(EndOf(ps), TailText(ps), tail, text);
    TextTail(ps, shown);
    assert TailText(ps) + "" + shown == TailText(ps) + shown;
  }

  lemma DataTail(d: Doc, text: string, tail: string)
    requires Alike(EndOf(d.pieces), TailText(d.pieces), tail)
    ensures var after := WithData(d, text);
            Alike(EndOf(after.pieces), TailText(after.pieces), NextData(ShapeOfDoc(d), Data(text), tail))
  {
    hide Alike, Collapse, TrimLeft, IsBlank, IsSpace, TailText, EndOf;
    AlikeMeans(EndOf(d.pieces), TailText(d.pieces), tail);
    DataShape(d, text);
    BlankCollapse(text);
    if d.drop == 0 && !IsBlank(text) {
      if EndOf(d.pieces).Empty? || EndOf(d.pieces).Markup? {
        DataBehindTag(d, text, tail);
      } else {
        DataBehindText(d, text, tail);
      }
    } else {
      assert WithData(d, text) == d;
    }
  }

  lemma EndOfMeans(ps: seq<Piece>)
    ensures EndOf(ps).Empty? <==> ps == []
    ensures ps != [] ==> (EndOf(ps).Markup? <==> !ps[|ps| - 1].Text?)
    ensures ps != [] && ps[|ps| - 1].Text? ==> (EndOf(ps).Space? <==> EndsWithSpace(ps[|ps| - 1].raw))
  {
  }

  lemma AlikeMeans(end: End, text: string, data: string)
    requires Alike(end, text, data)
    ensures end.Empty? || end.Markup? ==> text == "" && data == ""
  {
  }

  lemma {:induction false} ClosingTail(d: Doc, name: string)
    requires name in d.open
    ensures TailText(ClosedThrough(d, name).pieces) == ""
    decreases |d.open|
  {
    hide TailText;
    var top := d.open[|d.open| - 1];
    TailSnoc(d.pieces, Close(top));
    if top != name {
      ClosingTail(d.(pieces := d.pieces + [Close(top)], open := d.open[..|d.open| - 1]), name);
    }
  }

  lemma NothingAlike()
    ensures Alike(Markup, "", "") && Alike(Empty, "", "") && TailText([]) == ""
  {
  }

  lemma TagTail(d: Doc, e: Event, tail: string)
    requires !e.Data? && Alike(EndOf(d.pieces), TailText(d.pieces), tail)
    ensures var after := Step(d, e);
            Alike(EndOf(after.pieces), TailText(after.pieces), NextData(ShapeOfDoc(d), e, tail))
  {
    hide Alike, TailText, EndOf, ClosedThrough, Popped;
    AlikeMeans(EndOf(d.pieces), TailText(d.pieces), tail);
    NothingAlike();
    if e.EndTag? {
      if e.name in d.open {
        ClosingTail(d, e.name);
        ClosingShape(d, e.name);
      }
    } else {
      EndOfSnoc(d.pieces, LineBreak);
      EndOfSnoc(d.pieces, Open(e.name));
      TailSnoc(d.pieces, LineBreak);
      TailSnoc(d.pieces, Open(e.name));
    }
  }

  /** At any time, what has been emitted behind the last tag reads, up to repeated white space,
      as the visible data since then with a space between one piece of data and the next: texts
      never run into each other, and no gap is added that the data does not have. */
  lemma {:induction false} TextsArePartedBySpaces(events: seq<Event>)
    ensures Alike(EndOf(Run(events).pieces), TailText(Run(events).pieces), TailData(events))
    ensures Collapse(TailText(Run(events).pieces)) == Collapse(TailData(events))
  {
    hide NextData, Step, EndOf, ShapeOfDoc, Collapse;
    if events == [] {
      NothingAlike();
      assert EndOf([]) == Empty by { EndOfMeans([]); }
    } else {
      var front, last := events[..|events| - 1], events[|events| - 1];
      TextsArePartedBySpaces(front);
      RunShape(front);
      hide Alike, TailText;
      if last.Data? {
        DataTail(Run(front), last.text, TailData(front));
        assert Step(Run(front), last) == WithData(Run(front), last.text) by { StepOfData(Run(front), last); }
      } else {
        TagTail(Run(front), last, TailData(front));
      }
      AlikeCollapses(EndOf(Run(events).pieces), TailText(Run(events).pieces), TailData(events));
    }
  }

  lemma StepOfData(d: Doc, e: Event)
    requires e.Data?
    ensures Step(d, e) == WithData(d, e.text)
  {
  }

  lemma AlikeCollapses(end: End, text: string, data: string)
    requires Alike(end, text, data)
    ensures Collapse(text) == Collapse(data)
  {
  }
}
