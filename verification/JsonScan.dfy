/** The string-aware brace scanner that cuts a JSON object out of a page
    (src/cli/pipeline.py, `extract_balanced_json_object`), proved against the
    grammar of JSON texts in RFC 8259. */
module JsonScan {
  import opened Wrappers

  datatype ScanError = UnterminatedObject

  // ---------------------------------------------------------------------
  // The scanner
  // ---------------------------------------------------------------------

  /** What the loop remembers; `Closed` is the state in which it has returned. */
  datatype Scan = Scanning(depth: int, inString: bool, escaped: bool) | Closed

  const START := Scanning(0, false, false)

  function Step(st: Scan, c: char): Scan {
    match st
    case Closed => Closed
    case Scanning(depth, inString, escaped) =>
      if inString then
        if escaped then st.(escaped := false)
        else if c == '\\' then st.(escaped := true)
        else if c == '"' then st.(inString := false)
        else st
      else if c == '"' then st.(inString := true)
      else if c == '{' then st.(depth := depth + 1)
      else if c == '}' then (if depth == 1 then Closed else st.(depth := depth - 1))
      else st
  }

  function Run(st: Scan, s: string): Scan
    decreases |s|
  {
    if s == "" then st else Run(Step(st, s[0]), s[1..])
  }

  /** The object that starts at `start`: the shortest piece of text whose
      scan closes, or nothing when no piece does. */
  function BalancedObject(text: string, start: nat, end: nat): Option<string>
    requires start <= end <= |text|
    decreases |text| - end
  {
    if Run(START, text[start..end]) == Closed then Some(text[start..end])
    else if end == |text| then None
    else BalancedObject(text, start, end + 1)
  }

  method ExtractBalancedJsonObject(text: string, start: nat) returns (r: Result<string, ScanError>)
    ensures start > |text| ==> r.Failure?
    ensures start <= |text| ==>
              r == match BalancedObject(text, start, start)
                   case Some(found) => Success(found)
                   case None => Failure(UnterminatedObject)
  {
    if start > |text| {
      return Failure(UnterminatedObject);
    }
    var depth, inString, escaped := 0, false, false;
    var index := start;
    while index < |text|
      invariant start <= index <= |text|
      invariant Run(START, text[start..index]) == Scanning(depth, inString, escaped)
      invariant BalancedObject(text, start, start) == BalancedObject(text, start, index)
    {
      var c := text[index];
      RunSnoc(START, text[start..index], c);
      assert text[start..index] + [c] == text[start..index + 1];
      if inString {
        if escaped {
          escaped := false;
        } else if c == '\\' {
          escaped := true;
        } else if c == '"' {
          inString := false;
        }
      } else if c == '"' {
        inString := true;
      } else if c == '{' {
        depth := depth + 1;
      } else if c == '}' {
        depth := depth - 1;
        if depth == 0 {
          return Success(text[start..index + 1]);
        }
      }
      index := index + 1;
    }
    r := Failure(UnterminatedObject);
  }

  lemma {:induction false} RunConcat(st: Scan, a: string, b: string)
    ensures Run(st, a + b) == Run(Run(st, a), b)
    decreases |a|
  {
    if a == "" {
      assert a + b == b;
    } else {
      assert (a + b)[1..] == a[1..] + b;
      RunConcat(Step(st, a[0]), a[1..], b);
    }
  }

  lemma RunSnoc(st: Scan, a: string, c: char)
    ensures Run(st, a + [c]) == Step(Run(st, a), c)
  {
    RunConcat(st, a, [c]);
    assert [c][1..] == "";
  }

  lemma {:induction false} RunClosed(s: string)
    ensures Run(Closed, s) == Closed
  {
    if s != "" {
      RunClosed(s[1..]);
    }
  }

  // ---------------------------------------------------------------------
  // JSON texts: sections 2 to 7 of RFC 8259, with the insignificant white
  // space of each structural character and the exact spelling of strings.
  // ---------------------------------------------------------------------

  datatype StringChar = Unescaped(c: char) | Escape(c: char)

  datatype Json =
    | Null | True | False
    | Number(text: string)
    | String(chars: seq<StringChar>)
    | Array(blank: string, items: Items)
    | Object(blank: string, members: Members)

  datatype Items =
    | NoItems
    | Item(before: string, value: Json, after: string, rest: Items)

  datatype Members =
    | NoMembers
    | Member(before: string, key: seq<StringChar>, beforeColon: string,
             afterColon: string, value: Json, after: string, rest: Members)

  predicate IsBlank(s: string) {
    forall c | c in s :: c in " \t\n\r"
  }

  /** Section 6 draws numbers from these characters. */
  predicate IsNumberText(s: string) {
    forall c | c in s :: c in "+-.0123456789eE"
  }

  /** Section 7: a quotation mark or a reverse solidus must be escaped. `Escape(c)`
      stands for a reverse solidus followed by c; a \uXXXX escape is `Escape('u')`
      followed by four unescaped characters. */
  predicate IsStringText(s: seq<StringChar>) {
    forall e | e in s :: e.Unescaped? ==> e.c != '"' && e.c != '\\'
  }

  predicate WellFormed(v: Json) {
    match v
    case Null => true
    case True => true
    case False => true
    case Number(text) => IsNumberText(text)
    case String(chars) => IsStringText(chars)
    case Array(blank, items) => IsBlank(blank) && WellFormedItems(items)
    case Object(blank, members) => IsBlank(blank) && WellFormedMembers(members)
  }

  predicate WellFormedItems(items: Items) {
    match items
    case NoItems => true
    case Item(before, value, after, rest) =>
      IsBlank(before) && IsBlank(after) && WellFormed(value) && WellFormedItems(rest)
  }

  predicate WellFormedMembers(members: Members) {
    match members
    case NoMembers => true
    case Member(before, key, beforeColon, afterColon, value, after, rest) =>
      && IsBlank(before) && IsBlank(beforeColon) && IsBlank(afterColon) && IsBlank(after)
      && IsStringText(key) && WellFormed(value) && WellFormedMembers(rest)
  }

  function RenderChars(s: seq<StringChar>): string {
    if s == [] then ""
    else (match s[0] case Unescaped(c) => [c] case Escape(c) => ['\\', c]) + RenderChars(s[1..])
  }

  function RenderString(s: seq<StringChar>): string {
    "\"" + RenderChars(s) + "\""
  }

  function Render(v: Json): string {
    match v
    case Null => "null"
    case True => "true"
    case False => "false"
    case Number(text) => text
    case String(chars) => RenderString(chars)
    case Array(blank, items) => "[" + (blank + RenderItems(items)) + "]"
    case Object(blank, members) => "{" + (blank + RenderMembers(members)) + "}"
  }

  /** What stands between the braces of an object. */
  function RenderBody(v: Json): string
    requires v.Object?
  {
    v.blank + RenderMembers(v.members)
  }

  function RenderItems(items: Items): string {
    match items
    case NoItems => ""
    case Item(before, value, after, rest) =>
      before + (Render(value) + (after + ((if rest.NoItems? then "" else ",") + RenderItems(rest))))
  }

  function RenderMembers(members: Members): string {
    match members
    case NoMembers => ""
    case Member(before, key, beforeColon, afterColon, value, after, rest) =>
      before + (RenderString(key) + (beforeColon + (":" + (afterColon +
      (Render(value) + (after + ((if rest.NoMembers? then "" else ",") + RenderMembers(rest))))))))
  }

  // ---------------------------------------------------------------------
  // Inside an open object every value leaves the scanner where it was
  // ---------------------------------------------------------------------

  function Inside(depth: nat): Scan {
    Scanning(depth, false, false)
  }

  ghost predicate Neutral(depth: nat, s: string) {
    Run(Inside(depth), s) == Inside(depth)
  }

  lemma NeutralConcat(depth: nat, a: string, b: string)
    requires Neutral(depth, a) && Neutral(depth, b)
    ensures Neutral(depth, a + b)
  {
    RunConcat(Inside(depth), a, b);
  }

  lemma {:induction false} PlainIsNeutral(depth: nat, s: string)
    requires forall c | c in s :: c != '"' && c != '{' && c != '}'
    ensures Neutral(depth, s)
  {
    if s != "" {
      assert s[0] in s && forall c | c in s[1..] :: c in s;
      PlainIsNeutral(depth, s[1..]);
    }
  }

  lemma {:induction false} CharsStayInString(depth: nat, s: seq<StringChar>)
    requires IsStringText(s)
    ensures Run(Scanning(depth, true, false), RenderChars(s)) == Scanning(depth, true, false)
  {
    if s != [] {
      var st := Scanning(depth, true, false);
      var head := match s[0] case Unescaped(c) => [c] case Escape(c) => ['\\', c];
      assert s[0] in s;
      if s[0].Escape? {
        assert head[1..] == [s[0].c];
        assert Run(Scanning(depth, true, true), [s[0].c]) == st;
      }
      CharsStayInString(depth, s[1..]);
      RunConcat(st, head, RenderChars(s[1..]));
    }
  }

  lemma StringIsNeutral(depth: nat, s: seq<StringChar>)
    requires IsStringText(s)
    ensures Neutral(depth, RenderString(s))
  {
    var open := Scanning(depth, true, false);
    CharsStayInString(depth, s);
    assert Run(Inside(depth), "\"") == open by { assert "\""[1..] == ""; }
    RunConcat(Inside(depth), "\"", RenderChars(s));
    RunSnoc(Inside(depth), "\"" + RenderChars(s), '"');
  }

  lemma WordsAreNeutral(depth: nat)
    ensures Neutral(depth, "null") && Neutral(depth, "true") && Neutral(depth, "false")
  {
    hide Run;
    PlainIsNeutral(depth, "null");
    PlainIsNeutral(depth, "true");
    PlainIsNeutral(depth, "false");
  }

  lemma BracketsAreNeutral(depth: nat, blank: string, items: string)
    requires Neutral(depth, blank) && Neutral(depth, items)
    ensures Neutral(depth, "[" + (blank + items) + "]")
  {
    PlainIsNeutral(depth, "[");
    PlainIsNeutral(depth, "]");
    hide Neutral;
    NeutralConcat(depth, blank, items);
    NeutralConcat(depth, "[", blank + items);
    NeutralConcat(depth, "[" + (blank + items), "]");
  }

  lemma {:induction false} ValueIsNeutral(depth: nat, v: Json)
    requires depth >= 1 && WellFormed(v)
    ensures Neutral(depth, Render(v))
    decreases v
  {
    hide Run;
    match v
    case Null => WordsAreNeutral(depth);
    case True => WordsAreNeutral(depth);
    case False => WordsAreNeutral(depth);
    case Number(text) => PlainIsNeutral(depth, text);
    case String(chars) => StringIsNeutral(depth, chars);
    case Array(blank, items) =>
      PlainIsNeutral(depth, blank);
      ItemsAreNeutral(depth, items);
      BracketsAreNeutral(depth, blank, RenderItems(items));
    case Object(_, members) =>
      MembersAreNeutral(depth + 1, members);
      BodyThenBrace(depth, v);
  }

  lemma {:induction false} ItemsAreNeutral(depth: nat, items: Items)
    requires depth >= 1 && WellFormedItems(items)
    ensures Neutral(depth, RenderItems(items))
    decreases items
  {
    match items
    case NoItems =>
    case Item(before, value, after, rest) =>
      var comma := if rest.NoItems? then "" else ",";
      ItemsAreNeutral(depth, rest);
      ValueIsNeutral(depth, value);
      PlainIsNeutral(depth, comma);
      PlainIsNeutral(depth, after);
      PlainIsNeutral(depth, before);
      NeutralConcat(depth, comma, RenderItems(rest));
      NeutralConcat(depth, after, comma + RenderItems(rest));
      NeutralConcat(depth, Render(value), after + (comma + RenderItems(rest)));
      NeutralConcat(depth, before, Render(value) + (after + (comma + RenderItems(rest))));
  }

  lemma {:induction false} MembersAreNeutral(depth: nat, members: Members)
    requires depth >= 1 && WellFormedMembers(members)
    ensures Neutral(depth, RenderMembers(members))
    decreases members
  {
    match members
    case NoMembers =>
    case Member(before, key, beforeColon, afterColon, value, after, rest) =>
      var comma := if rest.NoMembers? then "" else ",";
      MembersAreNeutral(depth, rest);
      ValueIsNeutral(depth, value);
      PlainIsNeutral(depth, comma);
      PlainIsNeutral(depth, after);
      PlainIsNeutral(depth, afterColon);
      PlainIsNeutral(depth, ":");
      PlainIsNeutral(depth, beforeColon);
      StringIsNeutral(depth, key);
      PlainIsNeutral(depth, before);
      var t0 := comma + RenderMembers(rest);
      var t1 := after + t0;
      var t2 := Render(value) + t1;
      var t3 := afterColon + t2;
      var t4 := ":" + t3;
      var t5 := beforeColon + t4;
      NeutralConcat(depth, comma, RenderMembers(rest));
      NeutralConcat(depth, after, t0);
      NeutralConcat(depth, Render(value), t1);
      NeutralConcat(depth, afterColon, t2);
      NeutralConcat(depth, ":", t3);
      NeutralConcat(depth, beforeColon, t4);
      NeutralConcat(depth, RenderString(key), t5);
      NeutralConcat(depth, before, RenderString(key) + t5);
  }

  /** From any depth the opening brace and the body lead one level deeper, and the
      closing brace leads back, or closes the scan when the object is outermost. */
  lemma BodyThenBrace(depth: nat, v: Json)
    requires v.Object? && WellFormed(v)
    requires Neutral(depth + 1, RenderMembers(v.members))
    ensures Run(Inside(depth), "{" + RenderBody(v)) == Inside(depth + 1)
    ensures Run(Inside(depth), Render(v)) == if depth == 0 then Closed else Inside(depth)
  {
    PlainIsNeutral(depth + 1, v.blank);
    NeutralConcat(depth + 1, v.blank, RenderMembers(v.members));
    assert Run(Inside(depth), "{") == Inside(depth + 1) by { assert "{"[1..] == ""; }
    RunConcat(Inside(depth), "{", RenderBody(v));
    RunSnoc(Inside(depth), "{" + RenderBody(v), '}');
  }

  // ---------------------------------------------------------------------
  // Main results
  // ---------------------------------------------------------------------

  /** Once a piece closes, so does every longer piece. */
  lemma ClosedPersists(text: string, start: nat, i: nat, j: nat)
    requires start <= i <= j <= |text|
    requires Run(START, text[start..i]) == Closed
    ensures Run(START, text[start..j]) == Closed
  {
    assert text[start..j] == text[start..i] + text[i..j];
    RunConcat(START, text[start..i], text[i..j]);
    RunClosed(text[i..j]);
  }

  lemma {:induction false} SearchFinds(text: string, start: nat, from: nat, end: nat)
    requires start <= from <= end <= |text| && start < end
    requires Run(START, text[start..end]) == Closed
    requires Run(START, text[start..end - 1]) != Closed
    ensures BalancedObject(text, start, from) == Some(text[start..end])
    decreases end - from
  {
    if from < end {
      if Run(START, text[start..from]) == Closed {
        ClosedPersists(text, start, from, end - 1);
      }
      SearchFinds(text, start, from + 1, end);
    }
  }

  lemma {:induction false} SearchFails(text: string, start: nat, from: nat)
    requires start <= from <= |text|
    requires Run(START, text[start..]) != Closed
    ensures BalancedObject(text, start, from) == None
    decreases |text| - from
  {
    assert text[start..|text|] == text[start..];
    if Run(START, text[start..from]) == Closed {
      ClosedPersists(text, start, from, |text|);
    }
    if from < |text| {
      SearchFails(text, start, from + 1);
    }
  }

  /** The scan of an object closes on its last character and not before. */
  lemma ObjectClosesAtItsEnd(o: Json)
    requires o.Object? && WellFormed(o)
    ensures Run(START, Render(o)) == Closed
    ensures Run(START, "{" + RenderBody(o)) == Inside(1)
    ensures Render(o) == "{" + RenderBody(o) + "}"
  {
    MembersAreNeutral(1, o.members);
    BodyThenBrace(0, o);
  }

  /** Whatever surrounds it, a rendered object is cut out exactly. */
  lemma RenderedObjectIsExtracted(prefix: string, o: Json, suffix: string)
    requires o.Object? && WellFormed(o)
    ensures BalancedObject(prefix + Render(o) + suffix, |prefix|, |prefix|) == Some(Render(o))
  {
    var text := prefix + Render(o) + suffix;
    var end := |prefix| + |Render(o)|;
    ObjectClosesAtItsEnd(o);
    assert text[|prefix|..end] == Render(o);
    assert text[|prefix|..end - 1] == "{" + RenderBody(o);
    SearchFinds(text, |prefix|, |prefix|, end);
  }

  /** A page that breaks off inside the object is rejected, wherever it breaks off. */
  lemma TruncatedObjectIsRejected(prefix: string, o: Json, kept: nat)
    requires o.Object? && WellFormed(o)
    requires kept < |Render(o)|
    ensures BalancedObject(prefix + Render(o)[..kept], |prefix|, |prefix|) == None
  {
    var text := prefix + Render(o)[..kept];
    ObjectClosesAtItsEnd(o);
    assert text[|prefix|..] == Render(o)[..kept];
    var body := "{" + RenderBody(o);
    if Run(START, Render(o)[..kept]) == Closed {
      assert body[0..kept] == Render(o)[..kept];
      assert body == body[0..|body|];
      ClosedPersists(body, 0, kept, |body|);
    }
    SearchFails(text, |prefix|, |prefix|);
  }

  /** Two rendered objects with a common beginning are the same text: the
      scanner's answer is the only object that can start at a position. */
  lemma ObjectsArePrefixFree(a: Json, b: Json, restA: string, restB: string)
    requires a.Object? && WellFormed(a) && b.Object? && WellFormed(b)
    requires Render(a) + restA == Render(b) + restB
    ensures Render(a) == Render(b)
  {
    RenderedObjectIsExtracted("", a, restA);
    RenderedObjectIsExtracted("", b, restB);
    assert "" + Render(a) + restA == Render(a) + restA;
    assert "" + Render(b) + restB == Render(b) + restB;
  }
}
