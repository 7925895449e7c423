/** The display-HTML sanitizer (src/shared/text/html.py): a stack machine fed with
    the events of the HTML tokenizer. Tag names arrive case-folded. */
module HtmlSanitizer {
  import opened Texts
  import opened Wrappers

  datatype Event = StartTag(name: string) | EndTag(name: string) | StartEndTag(name: string) | Data(text: string)

  const DROP_CONTENT_TAGS: set<string> :=
    {"script", "style", "noscript", "template", "iframe", "object", "embed", "svg"}

  /** The allow-listed tags that have content; "br" is allow-listed beside them. */
  const BLOCK_TAGS: set<string> := {"p", "ul", "ol", "li", "strong", "em"}

  // ---------------------------------------------------------------------
  // Text
  // ---------------------------------------------------------------------

  function EscapeChar(c: char): string {
    if c == '&' then "&amp;" else if c == '<' then "&lt;" else if c == '>' then "&gt;" else [c]
  }

  function Escape(s: string): string {
    if s == "" then "" else EscapeChar(s[0]) + Escape(s[1..])
  }

  // ---------------------------------------------------------------------
  // What the sanitizer emits
  // ---------------------------------------------------------------------

  /** `Text` holds the text before it is escaped. */
  datatype Piece = Open(tag: string) | Close(tag: string) | LineBreak | Text(raw: string)

  function Show(p: Piece): string {
    match p
    case Open(tag) => "<" + tag + ">"
    case Close(tag) => "</" + tag + ">"
    case LineBreak => "<br>"
    case Text(raw) => Escape(raw)
  }

  function Render(ps: seq<Piece>): string {
    if ps == [] then "" else Render(ps[..|ps| - 1]) + Show(ps[|ps| - 1])
  }

  /** What the sanitizer has emitted, the tags still open, and how deep it is inside
      dropped elements. */
  datatype Doc = Doc(pieces: seq<Piece>, open: seq<string>, drop: nat)

  const EMPTY := Doc([], [], 0)

  function Started(d: Doc, name: string): Doc {
    if name in DROP_CONTENT_TAGS then d.(drop := d.drop + 1)
    else if d.drop > 0 then d
    else if name == "br" then d.(pieces := d.pieces + [LineBreak])
    else if name !in BLOCK_TAGS then d
    else d.(pieces := d.pieces + [Open(name)], open := d.open + [name])
  }

  /** Closes the open tags down to the innermost one with the given name. */
  function ClosedThrough(d: Doc, name: string): Doc
    decreases |d.open|
  {
    if d.open == [] then d
    else
      var top := d.open[|d.open| - 1];
      var popped := d.(pieces := d.pieces + [Close(top)], open := d.open[..|d.open| - 1]);
      if top == name then popped else ClosedThrough(popped, name)
  }

  function Ended(d: Doc, name: string): Doc {
    if name in DROP_CONTENT_TAGS then d.(drop := if d.drop > 0 then d.drop - 1 else 0)
    else if d.drop > 0 || name !in BLOCK_TAGS || name !in d.open then d
    else ClosedThrough(d, name)
  }

  /** A tag, or text that ends in a space, needs no separator after it. */
  predicate LeavesGap(p: Piece) {
    p.Text? ==> EndsWithSpace(p.raw)
  }

  function WithData(d: Doc, text: string): Doc {
    var normalized := Collapse(text);
    if d.drop > 0 || IsBlank(normalized) then d
    else if d.pieces == [] then d.(pieces := [Text(TrimLeft(normalized))])
    else if LeavesGap(d.pieces[|d.pieces| - 1]) || StartsWithSpace(normalized)
    then d.(pieces := d.pieces + [Text(normalized)])
    else d.(pieces := d.pieces + [Text(" "), Text(normalized)])
  }

  function Step(d: Doc, e: Event): Doc {
    match e
    case StartTag(name) => Started(d, name)
    case StartEndTag(name) => Started(d, name)
    case EndTag(name) => Ended(d, name)
    case Data(text) => WithData(d, text)
  }

  function Run(events: seq<Event>): Doc {
    if events == [] then EMPTY else Step(Run(events[..|events| - 1]), events[|events| - 1])
  }

  function ClosedAll(d: Doc): Doc
    decreases |d.open|
  {
    if d.open == [] then d
    else
      var top := d.open[|d.open| - 1];
      ClosedAll(d.(pieces := d.pieces + [Close(top)], open := d.open[..|d.open| - 1]))
  }

  // ---------------------------------------------------------------------
  // What the emitted pieces always satisfy
  // ---------------------------------------------------------------------

  /** A text is clean and not empty; a separating space stands behind other text. */
  predicate TidyAt(ps: seq<Piece>, i: nat)
    requires i < |ps|
  {
    match ps[i]
    case Open(tag) => tag in BLOCK_TAGS
    case Close(tag) => tag in BLOCK_TAGS
    case LineBreak => true
    case Text(raw) =>
      && raw != "" && IsClean(raw)
      && (IsBlank(raw) ==> i > 0 && ps[i - 1].Text?)
      && (i == 0 ==> !StartsWithSpace(raw))
  }

  predicate Tidy(ps: seq<Piece>) {
    forall i | 0 <= i < |ps| :: TidyAt(ps, i)
  }

  /** A separating space is followed by the text it separates. */
  predicate Rests(ps: seq<Piece>) {
    ps != [] && ps[|ps| - 1].Text? ==> !IsBlank(ps[|ps| - 1].raw)
  }

  /** The tags left open by a sequence of pieces, if every closing tag closes the
      innermost open one. */
  function Replay(ps: seq<Piece>): Option<seq<string>> {
    if ps == [] then Some([])
    else
      match Replay(ps[..|ps| - 1])
      case None => None
      case Some(open) =>
        match ps[|ps| - 1]
        case Open(tag) => Some(open + [tag])
        case Close(tag) => if open != [] && open[|open| - 1] == tag then Some(open[..|open| - 1]) else None
        case _ => Some(open)
  }

  predicate WellFormed(d: Doc) {
    && Tidy(d.pieces) && Rests(d.pieces)
    && Replay(d.pieces) == Some(d.open)
    && (forall tag | tag in d.open :: tag in BLOCK_TAGS)
  }

  lemma TidyGrows(ps: seq<Piece>, p: Piece)
    requires Tidy(ps) && TidyAt(ps + [p], |ps|)
    ensures Tidy(ps + [p])
  {
    var all := ps + [p];
    forall i | 0 <= i < |all| ensures TidyAt(all, i) {
      if i < |ps| {
        assert TidyAt(ps, i);
      }
    }
  }

  lemma ReplayGrows(ps: seq<Piece>, p: Piece)
    ensures Replay(ps + [p]) ==
            match Replay(ps)
            case None => None
            case Some(open) =>
              match p
              case Open(tag) => Some(open + [tag])
              case Close(tag) => if open != [] && open[|open| - 1] == tag then Some(open[..|open| - 1]) else None
              case _ => Some(open)
  {
    assert (ps + [p])[..|ps|] == ps;
  }

  // ---------------------------------------------------------------------
  // Facts about text
  // ---------------------------------------------------------------------

  lemma {:induction false} EscapeConcat(a: string, b: string)
    ensures Escape(a + b) == Escape(a) + Escape(b)
  {
    if a == "" {
      assert a + b == b;
    } else {
      assert (a + b)[1..] == a[1..] + b;
      EscapeConcat(a[1..], b);
    }
  }

  lemma {:induction false} EscapeOfNonSpace(s: string)
    ensures NonSpace(Escape(s)) == Escape(NonSpace(s))
  {
    if s != "" {
      EscapeOfNonSpace(s[1..]);
      NonSpaceConcat(EscapeChar(s[0]), Escape(s[1..]));
      var head := if IsSpace(s[0]) then "" else [s[0]];
      EscapeConcat(head, NonSpace(s[1..]));
      assert NonSpace(EscapeChar(s[0])) == Escape(head) by { EscapedCharText(s[0]); }
    }
  }

  lemma EscapedCharText(c: char)
    ensures NonSpace(EscapeChar(c)) == if IsSpace(c) then "" else EscapeChar(c)
    ensures Escape([c]) == EscapeChar(c)
  {
    assert [c][1..] == "";
    if c == '&' {
      NonSpaceWord("&amp;");
    } else if c == '<' {
      NonSpaceWord("&lt;");
    } else if c == '>' {
      NonSpaceWord("&gt;");
    } else {
      assert NonSpace([c]) == (if IsSpace(c) then "" else [c]) + NonSpace([c][1..]);
    }
  }

  lemma {:induction false} NonSpaceWord(s: string)
    requires forall c | c in s :: !IsSpace(c)
    ensures NonSpace(s) == s
  {
    if s != "" {
      assert s[0] in s;
      NonSpaceWord(s[1..]);
    }
  }

  lemma EscapeCharEnds(c: char)
    ensures var t := EscapeChar(c);
            && t != "" && (t[0] == ' ' <==> c == ' ') && (t[|t| - 1] == ' ' <==> c == ' ') && t[|t| - 1] != '>'
            && (IsSpace(t[|t| - 1]) ==> IsSpace(c))
  {
  }

  lemma EscapeStarts(s: string)
    requires s != ""
    ensures Escape(s) != "" && Escape(s)[0] == EscapeChar(s[0])[0]
  {
    hide IsSpace;
  }

  lemma EscapeFinishes(s: string)
    requires s != ""
    ensures var t := EscapeChar(s[|s| - 1]);
            Escape(s) != "" && Escape(s)[|Escape(s)| - 1] == t[|t| - 1]
  {
    hide Escape, IsSpace;
    var front, last := s[..|s| - 1], s[|s| - 1];
    assert s == front + [last];
    EscapeConcat(front, [last]);
    EscapedCharText(last);
    EscapeCharEnds(last);
  }

  lemma EscapeEnds(s: string)
    requires s != ""
    ensures Escape(s) != "" && |Escape(s)| >= |s|
    ensures StartsWithSpace(Escape(s)) <==> StartsWithSpace(s)
    ensures EndsWithSpace(Escape(s)) <==> EndsWithSpace(s)
    ensures Escape(s)[|Escape(s)| - 1] != '>'
    ensures Escape(s) == " " ==> s == " "
  {
    hide Escape, EscapeChar, IsSpace;
    EscapeStarts(s);
    EscapeFinishes(s);
    EscapeCharEnds(s[0]);
    EscapeCharEnds(s[|s| - 1]);
    EscapeIsLonger(s);
    if Escape(s) == " " {
      assert s == [s[0]];
    }
  }

  lemma {:induction false} EscapeIsLonger(s: string)
    ensures |Escape(s)| >= |s|
  {
    if s != "" {
      EscapeIsLonger(s[1..]);
    }
  }

  // ---------------------------------------------------------------------
  // Every event keeps the pieces well nested
  // ---------------------------------------------------------------------

  lemma StartedKeeps(d: Doc, name: string)
    requires WellFormed(d)
    ensures WellFormed(Started(d, name))
  {
    if name == "br" {
      TidyGrows(d.pieces, LineBreak);
      ReplayGrows(d.pieces, LineBreak);
    } else if name in BLOCK_TAGS {
      TidyGrows(d.pieces, Open(name));
      ReplayGrows(d.pieces, Open(name));
    }
  }

  lemma PopKeeps(d: Doc)
    requires WellFormed(d) && d.open != []
    ensures var top := d.open[|d.open| - 1];
            WellFormed(d.(pieces := d.pieces + [Close(top)], open := d.open[..|d.open| - 1]))
  {
    var top := d.open[|d.open| - 1];
    assert top in d.open;
    TidyGrows(d.pieces, Close(top));
    ReplayGrows(d.pieces, Close(top));
  }

  lemma {:induction false} ClosedThroughKeeps(d: Doc, name: string)
    requires WellFormed(d)
    ensures WellFormed(ClosedThrough(d, name))
    decreases |d.open|
  {
    hide WellFormed;
    if d.open != [] {
      var top := d.open[|d.open| - 1];
      var popped := d.(pieces := d.pieces + [Close(top)], open := d.open[..|d.open| - 1]);
      PopKeeps(d);
      if top != name {
        ClosedThroughKeeps(popped, name);
      }
    }
  }

  /** Well formed, except that a separating space may stand last. */
  predicate NearlyWellFormed(d: Doc) {
    Tidy(d.pieces) && Replay(d.pieces) == Some(d.open) && (forall tag | tag in d.open :: tag in BLOCK_TAGS)
  }

  lemma TextKeeps(d: Doc, raw: string)
    requires NearlyWellFormed(d) && IsClean(raw) && !IsBlank(raw) && (d.pieces == [] ==> !StartsWithSpace(raw))
    ensures WellFormed(d.(pieces := d.pieces + [Text(raw)]))
  {
    hide Tidy, Replay, IsClean;
    assert raw != "" by { assert IsBlank(""); }
    hide IsBlank;
    assert TidyAt(d.pieces + [Text(raw)], |d.pieces|);
    TidyGrows(d.pieces, Text(raw));
    ReplayGrows(d.pieces, Text(raw));
  }

  lemma SpaceKeeps(d: Doc)
    requires WellFormed(d) && d.pieces != [] && d.pieces[|d.pieces| - 1].Text?
    ensures NearlyWellFormed(d.(pieces := d.pieces + [Text(" ")]))
  {
    hide Tidy, Replay;
    assert TidyAt(d.pieces + [Text(" ")], |d.pieces|);
    TidyGrows(d.pieces, Text(" "));
    ReplayGrows(d.pieces, Text(" "));
  }

  lemma {:induction false} WithDataKeeps(d: Doc, text: string)
    requires WellFormed(d)
    ensures WellFormed(WithData(d, text))
  {
    hide Tidy, Replay, IsClean, IsBlank, Collapse, TrimLeft, Rests;
    var normalized := Collapse(text);
    CollapseIsClean(text);
    if d.drop == 0 && !IsBlank(normalized) {
      if d.pieces == [] {
        TrimLeftOfClean(normalized);
        TextKeeps(d, TrimLeft(normalized));
        assert [] + [Text(TrimLeft(normalized))] == [Text(TrimLeft(normalized))];
      } else if LeavesGap(d.pieces[|d.pieces| - 1]) || StartsWithSpace(normalized) {
        TextKeeps(d, normalized);
      } else {
        var spaced := d.(pieces := d.pieces + [Text(" ")]);
        SpaceKeeps(d);
        TextKeeps(spaced, normalized);
        assert d.pieces + [Text(" "), Text(normalized)] == spaced.pieces + [Text(normalized)];
      }
    }
  }

  lemma StepKeeps(d: Doc, e: Event)
    requires WellFormed(d)
    ensures WellFormed(Step(d, e))
  {
    hide WellFormed;
    match e
    case StartTag(name) => StartedKeeps(d, name);
    case StartEndTag(name) => StartedKeeps(d, name);
    case EndTag(name) =>
      assert WellFormed(d.(drop := if d.drop > 0 then d.drop - 1 else 0)) by { DropIsFree(d); }
      ClosedThroughKeeps(d, name);
    case Data(text) => WithDataKeeps(d, text);
  }

  lemma DropIsFree(d: Doc)
    requires WellFormed(d)
    ensures forall n: nat :: WellFormed(d.(drop := n))
  {
  }

  /** Replaying what was emitted gives exactly the tags the sanitizer holds open. */
  lemma {:induction false} RunIsWellFormed(events: seq<Event>)
    ensures WellFormed(Run(events))
  {
    hide WellFormed;
    if events == [] {
      assert WellFormed(EMPTY) by { EmptyIsWellFormed(); }
    } else {
      RunIsWellFormed(events[..|events| - 1]);
      StepKeeps(Run(events[..|events| - 1]), events[|events| - 1]);
    }
  }

  lemma EmptyIsWellFormed()
    ensures WellFormed(EMPTY)
  {
  }

  lemma {:induction false} ClosedAllKeeps(d: Doc)
    requires WellFormed(d)
    ensures WellFormed(ClosedAll(d)) && ClosedAll(d).open == []
    decreases |d.open|
  {
    hide WellFormed;
    if d.open != [] {
      PopKeeps(d);
      var top := d.open[|d.open| - 1];
      ClosedAllKeeps(d.(pieces := d.pieces + [Close(top)], open := d.open[..|d.open| - 1]));
    }
  }

  // ---------------------------------------------------------------------
  // The sanitizer object
  // ---------------------------------------------------------------------

  function ShowEach(ps: seq<Piece>): seq<string> {
    if ps == [] then [] else ShowEach(ps[..|ps| - 1]) + [Show(ps[|ps| - 1])]
  }

  lemma ShowEachGrows(ps: seq<Piece>, p: Piece)
    ensures ShowEach(ps + [p]) == ShowEach(ps) + [Show(p)]
  {
    assert (ps + [p])[..|ps|] == ps;
  }

  lemma {:induction false} ShowEachFits(ps: seq<Piece>)
    ensures |ShowEach(ps)| == |ps|
    ensures ps != [] ==> ShowEach(ps)[|ps| - 1] == Show(ps[|ps| - 1])
  {
    if ps != [] {
      ShowEachFits(ps[..|ps| - 1]);
    }
  }

  /** What the last emitted string says about the last piece. */
  lemma LastPart(ps: seq<Piece>)
    requires ps != [] && Tidy(ps)
    ensures var last := Show(ps[|ps| - 1]);
            && |ShowEach(ps)| == |ps| && ShowEach(ps)[|ps| - 1] == last && last != ""
            && (LeavesGap(ps[|ps| - 1]) <==> last[|last| - 1] in {'>', ' '})
            && (last == " " ==> ps[|ps| - 1] == Text(" "))
  {
    ShowEachFits(ps);
    assert TidyAt(ps, |ps| - 1);
    var p := ps[|ps| - 1];
    if p.Text? {
      EscapeEnds(p.raw);
    }
  }

  predicate EndsWithGap(part: string) {
    part != "" && part[|part| - 1] in {'>', ' '}
  }

  lemma NothingIsBlank()
    ensures IsBlank("")
  {
  }

  lemma SpaceShowsAsSpace()
    ensures Show(Text(" ")) == " "
  {
    EscapedCharText(' ');
  }

  lemma TextRemains(data: string)
    requires !IsBlank(Collapse(data))
    ensures Collapse(data) != "" && TrimLeft(Collapse(data)) != ""
  {
    hide Collapse, NonSpace, IsClean, TrimLeft, IsBlank, StartsWithSpace, IsSpace;
    NothingIsBlank();
    CollapseIsClean(data);
    TrimLeftOfClean(Collapse(data));
  }

  /** Between two events the last emitted string is never a lone space. */
  lemma LastPartAtRest(d: Doc)
    requires WellFormed(d)
    ensures ShowEach(d.pieces) == [] <==> d.pieces == []
    ensures d.pieces != [] ==>
              var parts := ShowEach(d.pieces);
              parts[|parts| - 1] != " "
              && (LeavesGap(d.pieces[|d.pieces| - 1]) <==> EndsWithGap(parts[|parts| - 1]))
  {
    ShowEachFits(d.pieces);
    if d.pieces != [] {
      LastPart(d.pieces);
      assert IsBlank(" ");
    }
  }

  class DisplayHTMLSanitizer {
    var parts: seq<string>
    var openTags: seq<string>
    var dropDepth: nat
    ghost var pieces: seq<Piece>

    ghost function Now(): Doc
      reads this
    {
      Doc(pieces, openTags, dropDepth)
    }

    /** `parts` spells the pieces out, and these are well nested around the open tags. */
    ghost predicate Valid()
      reads this
    {
      parts == ShowEach(pieces) && WellFormed(Now())
    }

    constructor ()
      ensures Valid() && Now() == EMPTY
    {
      parts, openTags, dropDepth, pieces := [], [], 0, [];
    }

    method Append(part: string, ghost piece: Piece)
      requires parts == ShowEach(pieces) && part == Show(piece)
      modifies this`parts, this`pieces
      ensures parts == ShowEach(pieces) && pieces == old(pieces) + [piece]
    {
      ShowEachGrows(pieces, piece);
      parts := parts + [part];
      pieces := pieces + [piece];
    }

    method HandleStartTag(tag: string)
      requires Valid()
      modifies this
      ensures Valid() && Now() == Started(old(Now()), tag)
    {
      hide WellFormed, ShowEach;
      StartedKeeps(Now(), tag);
      if tag in DROP_CONTENT_TAGS {
        dropDepth := dropDepth + 1;
        return;
      }
      if dropDepth > 0 {
        return;
      }
      if tag !in BLOCK_TAGS && tag != "br" {
        return;
      }
      if tag == "br" {
        Append("<br>", LineBreak);
        return;
      }
      Append("<" + tag + ">", Open(tag));
      openTags := openTags + [tag];
    }

    method HandleStartEndTag(tag: string)
      requires Valid()
      modifies this
      ensures Valid() && Now() == Started(old(Now()), tag)
    {
      HandleStartTag(tag);
    }

    method HandleEndTag(tag: string)
      requires Valid()
      modifies this
      ensures Valid() && Now() == Ended(old(Now()), tag)
    {
      hide WellFormed, ShowEach;
      if tag in DROP_CONTENT_TAGS {
        DropIsFree(Now());
        if dropDepth > 0 {
          dropDepth := dropDepth - 1;
        }
        return;
      }
      if dropDepth > 0 {
        return;
      }
      if tag !in BLOCK_TAGS {
        return;
      }
      if tag !in openTags {
        return;
      }
      while openTags != []
        invariant Valid() && openTags != []
        invariant ClosedThrough(Now(), tag) == ClosedThrough(old(Now()), tag)
        invariant tag in openTags
        decreases |openTags|
      {
        PopKeeps(Now());
        var top := openTags[|openTags| - 1];
        openTags := openTags[..|openTags| - 1];
        Append("</" + top + ">", Close(top));
        if top == tag {
          break;
        }
      }
    }

    method HandleData(data: string)
      requires Valid()
      modifies this
      ensures Valid() && Now() == WithData(old(Now()), data)
    {
      hide WellFormed, Collapse, TrimLeft, Escape, IsBlank, ShowEach;
      WithDataKeeps(Now(), data);
      if dropDepth > 0 {
        return;
      }
      var normalized := Collapse(data);
      if IsBlank(normalized) {
        return;
      }
      TextRemains(data);
      LastPartAtRest(Now());
      if parts != [] && !EndsWithGap(parts[|parts| - 1]) {
        if !StartsWithSpace(normalized) {
          SpaceShowsAsSpace();
          Append(" ", Text(" "));
        }
      } else if parts == [] {
        normalized := TrimLeft(normalized);
      }
      if normalized == "" {
        assert false;
      }
      var escaped := Escape(normalized);
      EscapeEnds(normalized);
      if parts != [] && parts[|parts| - 1] == " " && StartsWithSpace(escaped) {
        assert false;
      }
      if escaped == "" {
        assert false;
      }
      Append(escaped, Text(normalized));
      assert [Text(" ")] + [Text(normalized)] == [Text(" "), Text(normalized)];
      assert old(pieces) + [Text(" ")] + [Text(normalized)] == old(pieces) + ([Text(" ")] + [Text(normalized)]);
      assert Now().pieces == WithData(old(Now()), data).pieces;
    }

    method GetSanitizedHtml() returns (html: string)
      requires Valid()
      modifies this
      ensures Valid() && Now() == ClosedAll(old(Now()))
      ensures html == Render(pieces)
    {
      hide WellFormed, ShowEach;
      while openTags != []
        invariant Valid()
        invariant ClosedAll(Now()) == ClosedAll(old(Now()))
        decreases |openTags|
      {
        PopKeeps(Now());
        var top := openTags[|openTags| - 1];
        openTags := openTags[..|openTags| - 1];
        Append("</" + top + ">", Close(top));
      }
      html := Joined();
    }

    method Joined() returns (html: string)
      requires parts == ShowEach(pieces)
      ensures html == Render(pieces)
    {
      hide Show;
      html := "";
      var i := 0;
      ShowEachFits(pieces);
      while i < |parts|
        invariant 0 <= i <= |parts| && html == Render(pieces[..i])
      {
        assert pieces[..i + 1][..i] == pieces[..i];
        ShowEachAt(pieces, i);
        html := html + parts[i];
        i := i + 1;
      }
      assert pieces[..i] == pieces;
    }
  }

  lemma {:induction false} ShowEachAt(ps: seq<Piece>, i: nat)
    requires i < |ps|
    ensures |ShowEach(ps)| == |ps| && ShowEach(ps)[i] == Show(ps[i])
  {
    ShowEachFits(ps);
    if i < |ps| - 1 {
      ShowEachAt(ps[..|ps| - 1], i);
    }
  }

  /** The whole function, over an arbitrary tokenizer. */
  method SanitizeDisplayHtml(value: Option<string>, tokenize: string -> seq<Event>) returns (html: Option<string>)
    ensures html == SanitizedHtml(value, tokenize)
  {
    hide WellFormed, ShowEach, Started, Ended, WithData, Strip, Render, ClosedAll;
    if value.None? {
      return None;
    }
    var text := Strip(value.value);
    if text == "" {
      return None;
    }
    var parser := new DisplayHTMLSanitizer();
    var events := tokenize(text);
    var i := 0;
    while i < |events|
      invariant 0 <= i <= |events| && fresh(parser)
      invariant parser.Valid() && parser.Now() == Run(events[..i])
    {
      assert events[..i + 1][..i] == events[..i];
      match events[i] {
        case StartTag(name) => parser.HandleStartTag(name);
        case EndTag(name) => parser.HandleEndTag(name);
        case StartEndTag(name) => parser.HandleStartEndTag(name);
        case Data(data) => parser.HandleData(data);
      }
      i := i + 1;
    }
    assert events[..i] == events;
    var joined := parser.GetSanitizedHtml();
    var sanitized := Strip(joined);
    html := if sanitized == "" then None else Some(sanitized);
  }

  /** What is left of an event stream. */
  function Sanitized(events: seq<Event>): string {
    Strip(Render(ClosedAll(Run(events)).pieces))
  }

  function SanitizedHtml(value: Option<string>, tokenize: string -> seq<Event>): Option<string> {
    match value
    case None => None
    case Some(v) =>
      if Strip(v) == "" || Sanitized(tokenize(Strip(v))) == "" then None
      else Some(Sanitized(tokenize(Strip(v))))
  }
}
