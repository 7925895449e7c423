/** What the sanitizer promises about its output, read as a string, and about
    sanitizing that output again. */
module HtmlProperties {
  import opened Texts
  import opened Wrappers
  import opened HtmlSanitizer

  /** The pieces of a finished document. */
  function Finished(events: seq<Event>): seq<Piece> {
    ClosedAll(Run(events)).pieces
  }

  lemma FinishedIsWellFormed(events: seq<Event>)
    ensures var ps := Finished(events); Tidy(ps) && Rests(ps) && Replay(ps) == Some([])
  {
    RunIsWellFormed(events);
    ClosedAllKeeps(Run(events));
  }

  // ---------------------------------------------------------------------
  // What should come out, told from the events alone
  // ---------------------------------------------------------------------

  function DepthAfter(depth: nat, e: Event): nat {
    match e
    case EndTag(name) => if name in DROP_CONTENT_TAGS && depth > 0 then depth - 1 else depth
    case Data(_) => depth
    case other => if other.name in DROP_CONTENT_TAGS then depth + 1 else depth
  }

  function TextShown(depth: nat, e: Event): string {
    if e.Data? && depth == 0 then e.text else ""
  }

  function StartShown(depth: nat, e: Event): seq<string> {
    if (e.StartTag? || e.StartEndTag?) && depth == 0 && (e.name in BLOCK_TAGS || e.name == "br") then [e.name] else []
  }

  /** How many dropped elements are open. */
  function Depth(events: seq<Event>): nat {
    if events == [] then 0 else DepthAfter(Depth(events[..|events| - 1]), events[|events| - 1])
  }

  /** The text outside dropped elements. */
  function VisibleText(events: seq<Event>): string {
    if events == [] then ""
    else
      var front, last := events[..|events| - 1], events[|events| - 1];
      VisibleText(front) + TextShown(Depth(front), last)
  }

  /** The allow-listed tags that open outside dropped elements. */
  function VisibleStarts(events: seq<Event>): seq<string> {
    if events == [] then []
    else
      var front, last := events[..|events| - 1], events[|events| - 1];
      VisibleStarts(front) + StartShown(Depth(front), last)
  }

  function RawText(ps: seq<Piece>): string {
    if ps == [] then ""
    else RawText(ps[..|ps| - 1]) + (match ps[|ps| - 1] case Text(raw) => raw case _ => "")
  }

  function StartsOf(ps: seq<Piece>): seq<string> {
    if ps == [] then []
    else
      StartsOf(ps[..|ps| - 1]) +
      (match ps[|ps| - 1] case Open(tag) => [tag] case LineBreak => ["br"] case _ => [])
  }

  lemma PiecesGrow(ps: seq<Piece>, p: Piece)
    ensures RawText(ps + [p]) == RawText(ps) + (match p case Text(raw) => raw case _ => "")
    ensures StartsOf(ps + [p])
            == StartsOf(ps) + (match p case Open(tag) => [tag] case LineBreak => ["br"] case _ => [])
    ensures Render(ps + [p]) == Render(ps) + Show(p)
  {
    assert (ps + [p])[..|ps|] == ps;
  }

  lemma {:induction false} ClosingAddsNothing(d: Doc, name: string)
    ensures RawText(ClosedThrough(d, name).pieces) == RawText(d.pieces)
    ensures StartsOf(ClosedThrough(d, name).pieces) == StartsOf(d.pieces)
    ensures ClosedThrough(d, name).drop == d.drop
    decreases |d.open|
  {
    if d.open != [] {
      var top := d.open[|d.open| - 1];
      PiecesGrow(d.pieces, Close(top));
      if top != name {
        ClosingAddsNothing(d.(pieces := d.pieces + [Close(top)], open := d.open[..|d.open| - 1]), name);
      }
    }
  }

  lemma {:induction false} ClosingAllAddsNothing(d: Doc)
    ensures RawText(ClosedAll(d).pieces) == RawText(d.pieces)
    ensures StartsOf(ClosedAll(d).pieces) == StartsOf(d.pieces)
    decreases |d.open|
  {
    if d.open != [] {
      var top := d.open[|d.open| - 1];
      PiecesGrow(d.pieces, Close(top));
      ClosingAllAddsNothing(d.(pieces := d.pieces + [Close(top)], open := d.open[..|d.open| - 1]));
    }
  }

  lemma TextGrows(ps: seq<Piece>, raw: string)
    ensures NonSpace(RawText(ps + [Text(raw)])) == NonSpace(RawText(ps)) + NonSpace(raw)
    ensures StartsOf(ps + [Text(raw)]) == StartsOf(ps)
  {
    hide NonSpace;
    PiecesGrow(ps, Text(raw));
    NonSpaceConcat(RawText(ps), raw);
  }

  lemma DataAddsItsText(d: Doc, text: string)
    requires WellFormed(d)
    ensures NonSpace(RawText(WithData(d, text).pieces))
            == NonSpace(RawText(d.pieces)) + (if d.drop == 0 then NonSpace(text) else "")
    ensures StartsOf(WithData(d, text).pieces) == StartsOf(d.pieces)
  {
    hide WellFormed, IsClean, RawText, StartsOf, NonSpace, Collapse, TrimLeft, IsBlank;
    var normalized := Collapse(text);
    CollapseIsClean(text);
    if d.drop == 0 {
      if IsBlank(normalized) {
        BlankHasNoText(normalized);
      } else if d.pieces == [] {
        TrimLeftOfClean(normalized);
        TextGrows([], TrimLeft(normalized));
        assert [] + [Text(TrimLeft(normalized))] == [Text(TrimLeft(normalized))];
      } else if LeavesGap(d.pieces[|d.pieces| - 1]) || StartsWithSpace(normalized) {
        TextGrows(d.pieces, normalized);
      } else {
        var spaced := d.pieces + [Text(" ")];
        TextGrows(d.pieces, " ");
        TextGrows(spaced, normalized);
        SpaceIsNoText();
        assert d.pieces + [Text(" "), Text(normalized)] == spaced + [Text(normalized)];
      }
    }
  }

  lemma SpaceIsNoText()
    ensures NonSpace(" ") == ""
  {
    BlankHasNoText(" ");
  }

  lemma Nothing()
    ensures RawText([]) == "" && StartsOf([]) == []
  {
  }

  lemma StartShows(d: Doc, name: string)
    ensures var e := StartTag(name);
            var after := Started(d, name);
            && after.drop == DepthAfter(d.drop, e)
            && RawText(after.pieces) == RawText(d.pieces)
            && StartsOf(after.pieces) == StartsOf(d.pieces) + StartShown(d.drop, e)
  {
    hide RawText, StartsOf, Render, Show;
    PiecesGrow(d.pieces, if name == "br" then LineBreak else Open(name));
    assert RawText(d.pieces) + "" == RawText(d.pieces);
  }

  lemma EndShows(d: Doc, name: string)
    ensures var after := Ended(d, name);
            && after.drop == DepthAfter(d.drop, EndTag(name))
            && RawText(after.pieces) == RawText(d.pieces)
            && StartsOf(after.pieces) == StartsOf(d.pieces)
  {
    hide RawText, StartsOf, ClosedThrough;
    ClosingAddsNothing(d, name);
  }

  lemma StepShows(d: Doc, e: Event)
    requires WellFormed(d)
    ensures var after := Step(d, e);
            && after.drop == DepthAfter(d.drop, e)
            && NonSpace(RawText(after.pieces)) == NonSpace(RawText(d.pieces)) + NonSpace(TextShown(d.drop, e))
            && StartsOf(after.pieces) == StartsOf(d.pieces) + StartShown(d.drop, e)
  {
    hide WellFormed, RawText, StartsOf, NonSpace, WithData, Started, Ended;
    BlankHasNoText("");
    assert StartsOf(d.pieces) + [] == StartsOf(d.pieces);
    assert NonSpace(RawText(d.pieces)) + "" == NonSpace(RawText(d.pieces));
    match e
    case Data(text) =>
      DataAddsItsText(d, text);
      DataKeepsDepth(d, text);
    case EndTag(name) => EndShows(d, name);
    case StartTag(name) => StartShows(d, name);
    case StartEndTag(name) => StartShows(d, name);
  }

  /** The text outside dropped elements comes out in order and complete up to white
      space, the allow-listed tags outside them open in order, and the sanitizer
      knows how deep it is. */
  lemma {:induction false} RunShowsWhatIsVisible(events: seq<Event>)
    ensures var d := Run(events);
            && d.drop == Depth(events)
            && NonSpace(RawText(d.pieces)) == NonSpace(VisibleText(events))
            && StartsOf(d.pieces) == VisibleStarts(events)
  {
    hide WellFormed, RawText, StartsOf, Step, NonSpace, TextShown, StartShown;
    if events == [] {
      Nothing();
    } else {
      var front, last := events[..|events| - 1], events[|events| - 1];
      RunShowsWhatIsVisible(front);
      RunIsWellFormed(front);
      StepShows(Run(front), last);
      NonSpaceConcat(VisibleText(front), TextShown(Depth(front), last));
    }
  }

  lemma DataKeepsDepth(d: Doc, text: string)
    ensures WithData(d, text).drop == d.drop
  {
  }

  /** Inside a dropped element nothing at all is emitted. */
  lemma DroppedEmitsNothing(events: seq<Event>, e: Event)
    requires Depth(events) > 0
    ensures Run(events + [e]).pieces == Run(events).pieces
  {
    RunShowsWhatIsVisible(events);
    assert (events + [e])[..|events|] == events;
  }

  // ---------------------------------------------------------------------
  // The output as a string
  // ---------------------------------------------------------------------

  /** A reader of HTML that knows nothing but angle brackets. */
  datatype Lexed = Lexed(tags: seq<Piece>, text: string)

  function TagPiece(name: string): Piece {
    if name == "br" then LineBreak
    else if name != "" && name[0] == '/' then Close(name[1..])
    else Open(name)
  }

  function Lex(s: string, name: Option<string>): Option<Lexed> {
    if s == "" then (if name.None? then Some(Lexed([], "")) else None)
    else if name.Some? then
      if s[0] == '>' then
        match Lex(s[1..], None)
        case None => None
        case Some(rest) => Some(Lexed([TagPiece(name.value)] + rest.tags, rest.text))
      else if s[0] == '<' then None
      else Lex(s[1..], Some(name.value + [s[0]]))
    else if s[0] == '<' then Lex(s[1..], Some(""))
    else if s[0] == '>' then None
    else
      match Lex(s[1..], None)
      case None => None
      case Some(rest) => Some(Lexed(rest.tags, [s[0]] + rest.text))
  }

  function Joined(a: Option<Lexed>, b: Option<Lexed>): Option<Lexed> {
    if a.None? || b.None? then None
    else Some(Lexed(a.value.tags + b.value.tags, a.value.text + b.value.text))
  }

  lemma {:induction false} LexConcat(a: string, b: string, name: Option<string>)
    requires Lex(a, name).Some?
    ensures Lex(a + b, name) == Joined(Lex(a, name), Lex(b, None))
    decreases |a|
  {
    if a == "" {
      assert a + b == b;
      if Lex(b, None).Some? {
        var l := Lex(b, None).value;
        assert [] + l.tags == l.tags && "" + l.text == l.text;
      }
    } else {
      assert (a + b)[1..] == a[1..] + b && (a + b)[0] == a[0];
      if name.Some? {
        LexConcat(a[1..], b, if a[0] == '>' then None else Some(name.value + [a[0]]));
      } else {
        LexConcat(a[1..], b, if a[0] == '<' then Some("") else None);
      }
      if Lex(b, None).Some? && Lex(a[1..], None).Some? {
        var la, lb := Lex(a[1..], None).value, Lex(b, None).value;
        assert [a[0]] + (la.text + lb.text) == [a[0]] + la.text + lb.text;
        if name.Some? {
          var tag := TagPiece(name.value);
          assert [tag] + (la.tags + lb.tags) == [tag] + la.tags + lb.tags;
        }
      }
    }
  }

  predicate StartsWith(s: string, prefix: string) {
    |prefix| <= |s| && forall i | 0 <= i < |prefix| :: s[i] == prefix[i]
  }

  /** What a reader makes of the three character references. */
  function Unescape(s: string): string {
    if s == "" then ""
    else if StartsWith(s, "&amp;") then "&" + Unescape(s[5..])
    else if StartsWith(s, "&lt;") then "<" + Unescape(s[4..])
    else if StartsWith(s, "&gt;") then ">" + Unescape(s[4..])
    else [s[0]] + Unescape(s[1..])
  }

  lemma ReferenceReads(c: char, rest: string)
    ensures Unescape(EscapeChar(c) + rest) == [c] + Unescape(rest)
  {
    hide Unescape;
    var s := EscapeChar(c) + rest;
    if c == '&' {
      assert s[5..] == rest;
    } else if c == '<' {
      assert s[4..] == rest && "&amp;"[1] == 'a' && s[1] == 'l';
    } else if c == '>' {
      assert s[4..] == rest && "&amp;"[1] == 'a' && "&lt;"[1] == 'l' && s[1] == 'g';
    } else {
      assert s[0] == c && s[1..] == rest && "&amp;"[0] == "&lt;"[0] == "&gt;"[0] == '&';
    }
    UnescapeStep(s);
  }

  lemma UnescapeStep(s: string)
    requires s != ""
    ensures Unescape(s) == if StartsWith(s, "&amp;") then "&" + Unescape(s[5..])
                           else if StartsWith(s, "&lt;") then "<" + Unescape(s[4..])
                           else if StartsWith(s, "&gt;") then ">" + Unescape(s[4..])
                           else [s[0]] + Unescape(s[1..])
  {
  }

  /** Escaped text reads back as it was, character by character. */
  lemma {:induction false} EscapedTextReadsBack(s: string)
    ensures Unescape(Escape(s)) == s
  {
    hide Unescape, EscapeChar;
    if s == "" {
      assert Unescape("") == "" by { NothingReads(); }
    } else {
      EscapedTextReadsBack(s[1..]);
      ReferenceReads(s[0], Escape(s[1..]));
    }
  }

  lemma NothingReads()
    ensures Unescape("") == ""
  {
  }

  predicate NoAngles(s: string) {
    '<' !in s && '>' !in s
  }

  lemma {:induction false} LexPlain(s: string)
    requires NoAngles(s)
    ensures Lex(s, None) == Some(Lexed([], s))
  {
    if s != "" {
      assert s == [s[0]] + s[1..];
      LexPlain(s[1..]);
    }
  }

  lemma {:induction false} LexName(s: string, name: string)
    requires NoAngles(s)
    ensures Lex(s + ">", Some(name)) == Some(Lexed([TagPiece(name + s)], ""))
    decreases |s|
  {
    if s == "" {
      assert s + ">" == ">" && ">"[1..] == "" && name + s == name;
      assert [TagPiece(name)] + [] == [TagPiece(name)];
    } else {
      assert (s + ">")[1..] == s[1..] + ">";
      assert name + [s[0]] + s[1..] == name + s;
      LexName(s[1..], name + [s[0]]);
    }
  }

  lemma LexOpen(rest: string)
    ensures Lex("<" + rest, None) == Lex(rest, Some(""))
  {
    assert ("<" + rest)[1..] == rest;
  }

  lemma {:induction false} LexTag(name: string)
    requires NoAngles(name)
    ensures Lex("<" + name + ">", None) == Some(Lexed([TagPiece(name)], ""))
  {
    hide Lex;
    LexName(name, "");
    LexOpen(name + ">");
    assert "<" + name + ">" == "<" + (name + ">") && "" + name == name;
  }

  lemma {:induction false} EscapedHasNoAngles(s: string)
    ensures NoAngles(Escape(s))
  {
    if s != "" {
      EscapedHasNoAngles(s[1..]);
    }
  }

  lemma LexShow(ps: seq<Piece>, i: nat)
    requires i < |ps| && TidyAt(ps, i)
    ensures Lex(Show(ps[i]), None)
            == Some(match ps[i] case Text(raw) => Lexed([], Escape(raw)) case tag => Lexed([tag], ""))
  {
    hide Lex, Escape, IsClean, IsBlank;
    match ps[i]
    case Open(tag) => LexTag(tag);
    case Close(tag) =>
      LexTag("/" + tag);
      assert "<" + ("/" + tag) + ">" == "</" + tag + ">" && ("/" + tag)[1..] == tag;
    case LineBreak =>
      LexTag("br");
      assert "<" + "br" + ">" == "<br>";
    case Text(raw) =>
      EscapedHasNoAngles(raw);
      LexPlain(Escape(raw));
  }

  function TagsOf(ps: seq<Piece>): seq<Piece> {
    if ps == [] then []
    else TagsOf(ps[..|ps| - 1]) + if ps[|ps| - 1].Text? then [] else [ps[|ps| - 1]]
  }

  lemma TidyFront(ps: seq<Piece>)
    requires Tidy(ps) && ps != []
    ensures Tidy(ps[..|ps| - 1])
  {
    var front := ps[..|ps| - 1];
    forall i | 0 <= i < |front| ensures TidyAt(front, i) {
      assert TidyAt(ps, i);
    }
  }

  lemma TidyLast(ps: seq<Piece>)
    requires Tidy(ps) && ps != []
    ensures TidyAt(ps, |ps| - 1)
  {
  }

  lemma EscapeOfNothing()
    ensures Escape("") == ""
  {
  }

  lemma {:induction false} LexRender(ps: seq<Piece>)
    requires Tidy(ps)
    ensures Lex(Render(ps), None) == Some(Lexed(TagsOf(ps), Escape(RawText(ps))))
  {
    if ps != [] {
      hide Tidy, Lex, Show, Escape;
      var front, last := ps[..|ps| - 1], ps[|ps| - 1];
      TidyFront(ps);
      LexRender(front);
      assert TidyAt(ps, |ps| - 1) by { TidyLast(ps); }
      LexShow(ps, |ps| - 1);
      LexConcat(Render(front), Show(last), None);
      EscapeConcat(RawText(front), match last case Text(raw) => raw case _ => "");
      EscapeOfNothing();
    }
  }

  lemma {:induction false} ReplayOfTags(ps: seq<Piece>)
    ensures Replay(TagsOf(ps)) == Replay(ps)
  {
    if ps != [] {
      var front, last := ps[..|ps| - 1], ps[|ps| - 1];
      ReplayOfTags(front);
      ReplayGrows(TagsOf(front), last);
      assert TagsOf(front) + [] == TagsOf(front);
    }
  }

  predicate IsAllowed(p: Piece) {
    match p
    case Open(tag) => tag in BLOCK_TAGS
    case Close(tag) => tag in BLOCK_TAGS
    case LineBreak => true
    case Text(_) => false
  }

  lemma {:induction false} TagsAreAllowed(ps: seq<Piece>)
    requires Tidy(ps)
    ensures forall p | p in TagsOf(ps) :: IsAllowed(p)
  {
    if ps != [] {
      TidyFront(ps);
      TagsAreAllowed(ps[..|ps| - 1]);
      assert TidyAt(ps, |ps| - 1);
    }
  }

  // ---------------------------------------------------------------------
  // The final strip takes at most one trailing space
  // ---------------------------------------------------------------------

  function TrimEnd(ps: seq<Piece>): seq<Piece> {
    if ps != [] && ps[|ps| - 1].Text? && EndsWithSpace(ps[|ps| - 1].raw) then
      var raw := ps[|ps| - 1].raw;
      ps[..|ps| - 1] + [Text(raw[..|raw| - 1])]
    else ps
  }

  lemma {:induction false} RenderHead(ps: seq<Piece>)
    requires Tidy(ps) && ps != []
    ensures Render(ps) != "" && !IsSpace(Render(ps)[0])
  {
    if |ps| == 1 {
      assert TidyAt(ps, 0);
      assert Render(ps) == "" + Show(ps[0]) by { assert ps[..0] == []; }
      if ps[0].Text? {
        EscapeEnds(ps[0].raw);
      }
    } else {
      TidyFront(ps);
      RenderHead(ps[..|ps| - 1]);
    }
  }

  lemma DroppedLastSpace(raw: string)
    requires IsClean(raw) && !IsBlank(raw) && EndsWithSpace(raw)
    ensures var kept := raw[..|raw| - 1];
            && kept != "" && IsClean(kept) && !EndsWithSpace(kept) && !IsBlank(kept)
            && (StartsWithSpace(kept) <==> StartsWithSpace(raw))
            && !IsSpace(kept[|kept| - 1])
            && Escape(raw) == Escape(kept) + " "
            && NonSpace(kept) == NonSpace(raw)
  {
    var kept := raw[..|raw| - 1];
    assert raw == kept + " ";
    SpaceBehind(kept);
    hide Escape, NonSpace;
    assert forall i | 0 <= i < |kept| :: kept[i] == raw[i];
    var c :| c in raw && !IsSpace(c);
    assert c in kept;
    assert IsSpace(raw[|kept|]) && raw[|kept| - 1] == kept[|kept| - 1];
    assert !IsSpace(raw[|kept| - 1]);
  }

  lemma SpaceBehind(s: string)
    ensures Escape(s + " ") == Escape(s) + " "
    ensures NonSpace(s + " ") == NonSpace(s)
  {
    EscapeConcat(s, " ");
    NonSpaceConcat(s, " ");
    EscapedCharText(' ');
    BlankHasNoText(" ");
  }

  lemma EscapeLast(raw: string)
    requires raw != ""
    ensures Escape(raw) != ""
    ensures IsSpace(Escape(raw)[|Escape(raw)| - 1]) ==> IsSpace(raw[|raw| - 1])
  {
    hide Escape, EscapeChar, IsSpace;
    EscapeFinishes(raw);
    EscapeCharEnds(raw[|raw| - 1]);
  }

  /** Trimming ends at the first character that is not a space. */
  lemma TrimRightStops(s: string)
    requires s != "" && !IsSpace(s[|s| - 1])
    ensures TrimRight(s) == s && TrimRight(s + " ") == s
  {
    assert (s + " ")[..|s|] == s;
    assert TrimRight(s + " ") == TrimRight(s);
  }

  lemma RenderTail(ps: seq<Piece>)
    requires Tidy(ps) && Rests(ps) && ps != []
    ensures TrimRight(Render(ps)) == Render(TrimEnd(ps))
    ensures Tidy(TrimEnd(ps)) && Rests(TrimEnd(ps))
    ensures Replay(TrimEnd(ps)) == Replay(ps)
    ensures NonSpace(RawText(TrimEnd(ps))) == NonSpace(RawText(ps))
  {
    hide Tidy, RawText, Replay, NonSpace, TrimRight, Escape, Render, IsSpace, IsClean;
    var front, last := ps[..|ps| - 1], ps[|ps| - 1];
    TidyLast(ps);
    assert ps == front + [last];
    if last.Text? && EndsWithSpace(last.raw) {
      DroppedLastSpace(last.raw);
      TextTail(front, last.raw);
    } else {
      ShownTail(ps);
      TrimRightStops(Render(ps));
    }
  }

  lemma ShownTail(ps: seq<Piece>)
    requires ps != [] && TidyAt(ps, |ps| - 1) && (ps[|ps| - 1].Text? ==> !EndsWithSpace(ps[|ps| - 1].raw))
    ensures Render(ps) != "" && !IsSpace(Render(ps)[|Render(ps)| - 1])
  {
    hide Escape;
    var last := ps[|ps| - 1];
    if last.Text? {
      EscapeLast(last.raw);
      assert IsSpace(last.raw[|last.raw| - 1]) ==> last.raw[|last.raw| - 1] == ' ';
    }
    assert Render(ps) == Render(ps[..|ps| - 1]) + Show(last);
  }

  lemma TextTail(front: seq<Piece>, raw: string)
    requires Tidy(front + [Text(raw)])
    requires IsClean(raw) && !IsBlank(raw) && EndsWithSpace(raw)
    ensures var kept := raw[..|raw| - 1];
            var ps, trimmed := front + [Text(raw)], front + [Text(kept)];
            && TrimRight(Render(ps)) == Render(trimmed)
            && Tidy(trimmed) && Rests(trimmed)
            && Replay(trimmed) == Replay(ps)
            && NonSpace(RawText(trimmed)) == NonSpace(RawText(ps))
  {
    var kept := raw[..|raw| - 1];
    DroppedLastSpace(raw);
    TextTailIsTidy(front, raw, kept);
    hide Tidy, IsClean, Escape, NonSpace, RawText, Replay, Render, IsBlank, TrimRight;
    TextGrows(front, kept);
    TextGrows(front, raw);
    ReplayGrows(front, Text(kept));
    ReplayGrows(front, Text(raw));
    PiecesGrow(front, Text(kept));
    PiecesGrow(front, Text(raw));
    EscapeLast(kept);
    SpaceTrimmed(Render(front), Escape(kept));
  }

  lemma SpaceTrimmed(a: string, b: string)
    requires b != "" && !IsSpace(b[|b| - 1])
    ensures TrimRight(a + (b + " ")) == a + b
  {
    assert a + (b + " ") == a + b + " ";
    TrimRightStops(a + b);
  }

  lemma TextTailIsTidy(front: seq<Piece>, raw: string, kept: string)
    requires Tidy(front + [Text(raw)]) && raw != ""
    requires kept != "" && IsClean(kept) && !IsBlank(kept) && (StartsWithSpace(kept) ==> StartsWithSpace(raw))
    ensures Tidy(front + [Text(kept)]) && Rests(front + [Text(kept)])
  {
    var ps := front + [Text(raw)];
    TidyLast(ps);
    TidyFront(ps);
    assert ps[..|ps| - 1] == front;
    assert TidyAt(front + [Text(kept)], |front|);
    TidyGrows(front, Text(kept));
  }

  lemma StripIsTrimEnd(ps: seq<Piece>)
    requires Tidy(ps) && Rests(ps)
    ensures Strip(Render(ps)) == Render(TrimEnd(ps))
  {
    if ps != [] {
      RenderHead(ps);
      RenderTail(ps);
    }
  }

  // ---------------------------------------------------------------------
  // Main results, first pass
  // ---------------------------------------------------------------------

  /** The pieces of the sanitized string. */
  function Kept(events: seq<Event>): seq<Piece> {
    TrimEnd(Finished(events))
  }

  lemma KeptIsSound(events: seq<Event>)
    ensures var ps := Kept(events);
            && Sanitized(events) == Render(ps)
            && Tidy(ps) && Rests(ps) && Replay(ps) == Some([])
            && (ps != [] && ps[|ps| - 1].Text? ==> !EndsWithSpace(ps[|ps| - 1].raw))
            && NonSpace(RawText(ps)) == NonSpace(VisibleText(events))
  {
    hide Tidy, Rests, Replay, RawText, NonSpace, Render, Strip;
    FinishedIsWellFormed(events);
    var ps := Finished(events);
    StripIsTrimEnd(ps);
    RunShowsWhatIsVisible(events);
    ClosingAllAddsNothing(Run(events));
    if ps != [] {
      RenderTail(ps);
      LastIsTrimmed(ps);
    }
  }

  lemma LastIsTrimmed(ps: seq<Piece>)
    requires ps != [] && Tidy(ps) && Rests(ps)
    ensures var t := TrimEnd(ps); t != [] && (t[|t| - 1].Text? ==> !EndsWithSpace(t[|t| - 1].raw))
  {
    assert TidyAt(ps, |ps| - 1);
    if ps[|ps| - 1].Text? && EndsWithSpace(ps[|ps| - 1].raw) {
      DroppedLastSpace(ps[|ps| - 1].raw);
    }
  }

  /** For every event stream the output string consists of allow-listed tags, well
      nested, and of text whose visible characters are exactly the escaped visible
      characters of the data outside dropped elements, in order. */
  lemma OutputIsSafe(events: seq<Event>)
    ensures var lexed := Lex(Sanitized(events), None);
            && lexed.Some?
            && (forall p | p in lexed.value.tags :: IsAllowed(p))
            && Replay(lexed.value.tags) == Some([])
            && NonSpace(lexed.value.text) == NonSpace(Escape(VisibleText(events)))
  {
    hide Tidy, Rests, Replay, RawText, NonSpace, Render, Strip, Lex, VisibleText, Kept, Sanitized;
    var ps := Kept(events);
    KeptIsSound(events);
    LexRender(ps);
    TagsAreAllowed(ps);
    ReplayOfTags(ps);
    EscapeOfNonSpace(RawText(ps));
    EscapeOfNonSpace(VisibleText(events));
  }
}
