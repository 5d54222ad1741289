/**
 * The HTML transcript writer: the colour table for a white page, the two text
 * filters the page template uses, and the listener that keeps the page's topic,
 * participants, event log and verdict as the events arrive.
 */
module HtmlReport {
  import opened Wrappers
  import opened PyText
  import opened Events

  // ---------------------------------------------------------------------------
  // Colours
  // ---------------------------------------------------------------------------

  /** Terminal colour names and the CSS colours that read well on white. */
  const CssColors: map<string, string> := map[
    "cyan" := "#00838f", "yellow" := "#e65100", "magenta" := "#8e24aa", "green" := "#2e7d32",
    "red" := "#c62828", "blue" := "#1565c0", "white" := "#757575", "black" := "#222222"]

  /** The colour used for a name the table does not know. */
  const UnknownCss := "#666666"

  /** The CSS colour of a terminal colour name, looked up case-insensitively. */
  function Css(name: string): (css: string)
    ensures css == UnknownCss || css in CssColors.Values
  {
    var key := Lower(name);
    if key in CssColors then CssColors[key] else UnknownCss
  }

  predicate NoUpper(s: string) {
    forall k :: 0 <= k < |s| ==> !('A' <= s[k] <= 'Z')
  }

  /** Lower-casing leaves a string without capitals unchanged, and yields one. */
  lemma LowerRule(s: string)
    ensures NoUpper(s) ==> Lower(s) == s
    ensures NoUpper(Lower(s))
  {
  }

  /**
   * The lookup ignores case, every name in the table gets its own entry, and a
   * name that is in the table in no casing gets the default.
   */
  lemma CssRule(name: string)
    ensures Css(Lower(name)) == Css(name)
    ensures name in CssColors ==> Css(name) == CssColors[name]
    ensures Lower(name) !in CssColors ==> Css(name) == UnknownCss
  {
    LowerRule(name);
    LowerRule(Lower(name));
    if name in CssColors {
      TableLowercase(name);
    }
  }

  lemma TableLowercase(key: string)
    requires key in CssColors
    ensures NoUpper(key)
  {
    assert key in {"cyan", "yellow", "magenta", "green", "red", "blue", "white", "black"};
  }

  // ---------------------------------------------------------------------------
  // Text filters
  // ---------------------------------------------------------------------------

  /** The `wordwrap_collapse` filter: the words of the text, one space apart. */
  function WordwrapCollapse(text: string): (r: string)
    ensures Words(r) == Words(text)
    ensures SingleSpaced(r) && Stripped(r)
  {
    CollapseProperties(text);
    Collapse(text)
  }

  /** Collapsing twice is collapsing once. */
  lemma WordwrapCollapseIdempotent(text: string)
    ensures WordwrapCollapse(WordwrapCollapse(text)) == WordwrapCollapse(text)
  {
    CollapseProperties(text);
  }

  /** One paragraph per block that is not blank, its whitespace collapsed. */
  function Kept(blocks: seq<string>): (parts: seq<string>)
    ensures |parts| <= |blocks|
    ensures forall i :: 0 <= i < |parts| ==> parts[i] != [] && SingleSpaced(parts[i]) && Stripped(parts[i])
  {
    if blocks == [] then []
    else
      var rest := Kept(blocks[1..]);
      if AllSpace(blocks[0]) then rest
      else
        CollapseProperties(blocks[0]);
        BlankWords(blocks[0]);
        [Collapse(blocks[0])] + rest
  }

  /** A text has no words exactly when it is blank. */
  lemma {:induction false} BlankWords(s: string)
    ensures Words(s) == [] <==> AllSpace(s)
    decreases |s|
  {
    if s != [] && IsSpace(s[0]) {
      BlankWords(s[1..]);
      assert forall k :: 1 <= k < |s| ==> s[k] == s[1..][k - 1];
    }
  }

  /** The paragraph texts: the stripped text cut at blank lines, blank blocks dropped. */
  function ParagraphTexts(text: string): seq<string> {
    Kept(SplitBlocks(Strip(text)))
  }

  /** Keeping paragraphs of two runs of blocks keeps those of each, in order. */
  lemma {:induction false} KeptAppend(a: seq<string>, b: seq<string>)
    ensures Kept(a + b) == Kept(a) + Kept(b)
  {
    if a != [] {
      KeptAppend(a[1..], b);
      assert (a + b)[0] == a[0];
      assert (a + b)[1..] == a[1..] + b;
      var x := if AllSpace(a[0]) then [] else [Collapse(a[0])];
      assert x + (Kept(a[1..]) + Kept(b)) == (x + Kept(a[1..])) + Kept(b);
    } else {
      assert a + b == b;
    }
  }

  /** Something is kept exactly when some block is not blank. */
  lemma {:induction false} KeptNone(blocks: seq<string>)
    ensures Kept(blocks) != [] <==> exists i :: 0 <= i < |blocks| && !AllSpace(blocks[i])
  {
    if blocks != [] {
      KeptNone(blocks[1..]);
      assert forall i :: 1 <= i < |blocks| ==> blocks[i] == blocks[1..][i - 1];
    }
  }

  /** Joining blank blocks with a blank separator gives a blank text. */
  lemma {:induction false} JoinBlank(sep: string, parts: seq<string>)
    requires AllSpace(sep)
    requires forall i :: 0 <= i < |parts| ==> AllSpace(parts[i])
    ensures AllSpace(Join(sep, parts))
  {
    if |parts| > 1 {
      JoinBlank(sep, parts[1..]);
      var rest := Join(sep, parts[1..]);
      assert Join(sep, parts) == parts[0] + sep + rest;
      forall k | 0 <= k < |parts[0] + sep + rest|
        ensures IsSpace((parts[0] + sep + rest)[k])
      {
        if k < |parts[0]| {
        } else if k < |parts[0]| + |sep| {
          assert (parts[0] + sep + rest)[k] == sep[k - |parts[0]|];
        } else {
          assert (parts[0] + sep + rest)[k] == rest[k - |parts[0]| - |sep|];
        }
      }
    }
  }

  /** A text has no paragraphs exactly when it is blank. */
  lemma NoParagraphs(text: string)
    ensures ParagraphTexts(text) == [] <==> AllSpace(text)
  {
    var stripped := Strip(text);
    var blocks := SplitBlocks(stripped);
    KeptNone(blocks);
    SplitBlocksJoin(stripped);
    if !AllSpace(text) && forall i :: 0 <= i < |blocks| ==> AllSpace(blocks[i]) {
      JoinBlank("\n\n", blocks);
      assert false;
    }
    if AllSpace(text) {
      assert blocks == [[]];
    }
  }

  /** A block that is not blank adds exactly one paragraph, its words one space apart. */
  lemma OneParagraphPerBlock(before: seq<string>, block: string, after: seq<string>)
    requires !AllSpace(block)
    ensures Kept(before + [block] + after) == Kept(before) + [Collapse(block)] + Kept(after)
  {
    KeptAppend(before + [block], after);
    KeptAppend(before, [block]);
    assert [block][1..] == [];
  }

  /** The characters `escape` replaces with an entity. */
  predicate Special(c: char) {
    c == '&' || c == '<' || c == '>' || c == '"' || c == '\''
  }

  /** The HTML entity of one character (the character itself when it needs none). */
  function EscapeChar(c: char): (r: string)
    ensures |r| >= 1 && r[0] == (if Special(c) then '&' else c)
    ensures forall k :: 0 <= k < |r| ==> r[k] != '<' && r[k] != '>'
  {
    match c
    case '&' => "&amp;"
    case '<' => "&lt;"
    case '>' => "&gt;"
    case '"' => "&#34;"
    case '\'' => "&#39;"
    case _ => [c]
  }

  /** Markup escaping of a text. */
  function Escape(s: string): (r: string)
    ensures forall k :: 0 <= k < |r| ==> r[k] != '<' && r[k] != '>'
  {
    if s == [] then []
    else
      var head, tail := EscapeChar(s[0]), Escape(s[1..]);
      assert forall k :: |head| <= k < |head + tail| ==> (head + tail)[k] == tail[k - |head|];
      head + tail
  }

  /** Reads the entities `Escape` writes back as characters. */
  function Unescape(s: string): string
    decreases |s|
  {
    if s == [] then []
    else if s[0] != '&' then [s[0]] + Unescape(s[1..])
    else if "&amp;" <= s then "&" + Unescape(s[5..])
    else if "&lt;" <= s then "<" + Unescape(s[4..])
    else if "&gt;" <= s then ">" + Unescape(s[4..])
    else if "&#34;" <= s then "\"" + Unescape(s[5..])
    else if "&#39;" <= s then "'" + Unescape(s[5..])
    else "&" + Unescape(s[1..])
  }

  /** Unescaping undoes escaping. */
  lemma {:induction false} EscapeRoundTrip(s: string)
    ensures Unescape(Escape(s)) == s
  {
    if s != [] {
      EscapeRoundTrip(s[1..]);
      UnescapeHead(s[0], Escape(s[1..]));
    }
  }

  lemma UnescapeHead(c: char, tail: string)
    ensures Unescape(EscapeChar(c) + tail) == [c] + Unescape(tail)
  {
    var head := EscapeChar(c);
    var t := head + tail;
    assert t[|head|..] == tail;
    assert head <= t;
    match c
    case '&' =>
    case '<' => assert t[1] == 'l';
    case '>' => assert t[1] == 'g';
    case '"' => assert t[1] == '#' && t[3] == '4';
    case '\'' => assert t[1] == '#' && t[3] == '9';
    case _ => assert t[0] == c && t[1..] == tail;
  }

  /** One paragraph element. */
  function Element(p: string): string {
    "<p>" + Escape(p) + "</p>"
  }

  /** The elements of the paragraphs, one after the other. */
  function Elements(parts: seq<string>): string {
    if parts == [] then [] else Element(parts[0]) + Elements(parts[1..])
  }

  /** The `paragraphs` filter: each paragraph of the text, escaped, in a `<p>` element. */
  function Paragraphs(text: string): string {
    Elements(ParagraphTexts(text))
  }

  /** The index of the first `<` in `s`, or its length when there is none. */
  function FirstTag(s: string): (n: nat)
    ensures n <= |s|
    ensures forall k :: 0 <= k < n ==> s[k] != '<'
    ensures n < |s| ==> s[n] == '<'
  {
    if s == [] || s[0] == '<' then 0 else 1 + FirstTag(s[1..])
  }

  /** Reads the paragraph texts back out of a run of `<p>` elements. */
  function ReadElements(html: string): seq<string>
    decreases |html|
  {
    if |html| < 7 || html[..3] != "<p>" then []
    else
      var n := FirstTag(html[3..]);
      if 3 + n + 4 <= |html| then [Unescape(html[3..3 + n])] + ReadElements(html[3 + n + 4..])
      else []
  }

  /** Reading one element back gives its text, then the rest. */
  lemma ReadElement(p: string, rest: string)
    ensures ReadElements(Element(p) + rest) == [p] + ReadElements(rest)
  {
    var e := Escape(p);
    var html := Element(p) + rest;
    ElementParts(e, rest);
    assert FirstTag(html[3..]) == |e| by {
      FirstTagAfter(e, "</p>" + rest);
    }
    ReadElementsStep(html, e, rest);
    EscapeRoundTrip(p);
  }

  /** Where the pieces of an element sit in the markup. */
  lemma ElementParts(e: string, rest: string)
    ensures var html := "<p>" + e + "</p>" + rest;
      |html| >= 7 && html[..3] == "<p>" && html[3..] == e + ("</p>" + rest) &&
      3 + |e| + 4 <= |html| && html[3..3 + |e|] == e && html[3 + |e| + 4..] == rest
  {
    var html := "<p>" + e + "</p>" + rest;
    assert html == "<p>" + (e + ("</p>" + rest));
  }

  lemma ReadElementsStep(html: string, e: string, rest: string)
    requires |html| >= 7 && html[..3] == "<p>" && FirstTag(html[3..]) == |e|
    requires 3 + |e| + 4 <= |html| && html[3..3 + |e|] == e && html[3 + |e| + 4..] == rest
    ensures ReadElements(html) == [Unescape(e)] + ReadElements(rest)
  {
  }

  lemma {:induction false} FirstTagAfter(e: string, rest: string)
    requires forall k :: 0 <= k < |e| ==> e[k] != '<'
    requires rest != [] && rest[0] == '<'
    ensures FirstTag(e + rest) == |e|
  {
    if e == [] {
      assert e + rest == rest;
    } else {
      FirstTagAfter(e[1..], rest);
      assert (e + rest)[1..] == e[1..] + rest;
    }
  }

  /** The paragraph elements read back as the paragraphs, in order. */
  lemma {:induction false} ElementsRoundTrip(parts: seq<string>)
    ensures ReadElements(Elements(parts)) == parts
  {
    if parts != [] {
      ElementsRoundTrip(parts[1..]);
      ReadElement(parts[0], Elements(parts[1..]));
    }
  }

  /** The filter's output holds one element per paragraph text, in order. */
  lemma ParagraphsRoundTrip(text: string)
    ensures ReadElements(Paragraphs(text)) == ParagraphTexts(text)
    ensures Paragraphs(text) == [] <==> AllSpace(text)
  {
    ElementsRoundTrip(ParagraphTexts(text));
    NoParagraphs(text);
    if ParagraphTexts(text) != [] {
      assert |Paragraphs(text)| >= |Element(ParagraphTexts(text)[0])|;
    }
  }

  // ---------------------------------------------------------------------------
  // The page state
  // ---------------------------------------------------------------------------

  /** A participant card: name, CSS colour and personality text. */
  datatype Participant = Participant(name: string, color: string, bio: string)

  /**
   * One logged event: its kind ("plan", "think", "turn" or "score"), speaker, CSS
   * colour and content; a score entry also names its target and the target's colour.
   */
  datatype Logged = Logged(
    kind: string,
    speaker: string,
    color: string,
    content: string,
    target: Option<string>,
    targetColor: Option<string>)

  datatype VerdictBox = VerdictBox(judge: string, color: string, content: string)

  /** The page as a value: what the template is given. */
  datatype Page = Page(
    topic: string,
    participants: seq<Participant>,
    colors: map<string, string>,
    events: seq<Logged>,
    verdict: Option<VerdictBox>)

  const Blank := Page("", [], map[], [], None)

  /** The metadata each kind needs: HEADER and SCORE events are read by key. */
  predicate Readable(e: DebateEvent) {
    (e.kind == Header ==> e.metadata.HeaderMeta?) && (e.kind == Score ==> e.metadata.ScoreMeta?)
  }

  /** The participant colours as CSS colours. */
  function CssMap(colors: map<string, string>): (css: map<string, string>)
    ensures css.Keys == colors.Keys
    ensures forall n :: n in css ==> css[n] == Css(colors[n])
  {
    map n | n in colors :: Css(colors[n])
  }

  /** `mapping.get(key, default)`. */
  function Get(m: map<string, string>, key: string, default: string): string {
    if key in m then m[key] else default
  }

  /** The participant cards, in participant order. */
  function Cards(names: seq<string>, css: map<string, string>, bios: map<string, string>): (cards: seq<Participant>)
    ensures |cards| == |names|
  {
    seq(|names|, i requires 0 <= i < |names| =>
      Participant(names[i], Get(css, names[i], "#666"), Get(bios, names[i], "")))
  }

  /** The log kind of an event that is logged. */
  function LogKind(t: EventType): string {
    match t
    case Plan => "plan"
    case Think => "think"
    case Turn => "turn"
    case _ => "score"
  }

  /** Whether an event adds an entry to the log. */
  predicate IsLogged(t: EventType) {
    t == Plan || t == Think || t == Turn || t == Score
  }

  /** One event's effect on the page. */
  function Step(p: Page, e: DebateEvent): Page
    requires Readable(e)
  {
    var color := Css(e.color);
    match e.kind
    case Header =>
      var css := CssMap(e.metadata.colors);
      p.(topic := e.metadata.topic, colors := css,
         participants := Cards(e.metadata.participants, css, e.metadata.personalities))
    case Score =>
      var target := e.metadata.target;
      p.(events := p.events + [Logged("score", e.speaker, color, e.content, Some(target),
                                      Some(Get(p.colors, target, "#666")))])
    case Verdict => p.(verdict := Some(VerdictBox(e.speaker, color, e.content)))
    case _ => p.(events := p.events + [Logged(LogKind(e.kind), e.speaker, color, e.content, None, None)])
  }

  predicate AllReadable(events: seq<DebateEvent>) {
    forall i :: 0 <= i < |events| ==> Readable(events[i])
  }

  /** A blank page after `events` in order. */
  function Render(events: seq<DebateEvent>): Page
    requires AllReadable(events)
  {
    if events == [] then Blank
    else Step(Render(events[..|events| - 1]), events[|events| - 1])
  }

  /** What a log entry says, without its colours. */
  datatype Line = Line(kind: string, speaker: string, content: string)

  function LineOf(l: Logged): Line {
    Line(l.kind, l.speaker, l.content)
  }

  function Lines(log: seq<Logged>): (lines: seq<Line>)
    ensures |lines| == |log|
  {
    if log == [] then [] else Lines(log[..|log| - 1]) + [LineOf(log[|log| - 1])]
  }

  /** The log an event sequence should produce: one line per PLAN, THINK, TURN or SCORE, in order. */
  function Transcript(events: seq<DebateEvent>): seq<Line> {
    if events == [] then []
    else
      var e := events[|events| - 1];
      Transcript(events[..|events| - 1]) + (if IsLogged(e.kind) then [Line(LogKind(e.kind), e.speaker, e.content)] else [])
  }

  /**
   * The log holds one entry per PLAN, THINK, TURN and SCORE event, in arrival
   * order, with that event's speaker and content; HEADER and VERDICT events add
   * nothing to it.
   */
  lemma {:induction false} LogIsTranscript(events: seq<DebateEvent>)
    requires AllReadable(events)
    ensures Lines(Render(events).events) == Transcript(events)
  {
    if events != [] {
      var prefix := events[..|events| - 1];
      assert AllReadable(prefix) by {
        assert forall i :: 0 <= i < |prefix| ==> prefix[i] == events[i];
      }
      LogIsTranscript(prefix);
      var before := Render(prefix).events;
      var after := Render(events).events;
      if IsLogged(events[|events| - 1].kind) {
        assert after[..|after| - 1] == before;
      } else {
        assert after == before;
      }
    }
  }

  /** Earlier log entries are never changed: each step only appends. */
  lemma StepAppends(p: Page, e: DebateEvent)
    requires Readable(e)
    ensures p.events <= Step(p, e).events
    ensures |Step(p, e).events| == |p.events| + (if IsLogged(e.kind) then 1 else 0)
  {
  }

  /** Topic, colours and participant cards come from the last HEADER; a blank page has none. */
  lemma {:induction false} LastHeaderWins(events: seq<DebateEvent>)
    requires AllReadable(events)
    ensures var p := Render(events);
      match LastOf(events, Header)
      case None => p.topic == "" && p.colors == map[] && p.participants == []
      case Some(h) =>
        h.metadata.HeaderMeta? &&
        p.topic == h.metadata.topic && p.colors == CssMap(h.metadata.colors) &&
        p.participants == Cards(h.metadata.participants, p.colors, h.metadata.personalities)
  {
    if events != [] {
      var prefix := events[..|events| - 1];
      assert AllReadable(prefix) by {
        assert forall i :: 0 <= i < |prefix| ==> prefix[i] == events[i];
      }
      LastHeaderWins(prefix);
      var e := events[|events| - 1];
      assert Render(events) == Step(Render(prefix), e);
      if e.kind == Header {
        assert LastOf(events, Header) == Some(e);
      } else {
        assert LastOf(events, Header) == LastOf(prefix, Header);
        HeaderKept(Render(prefix), e);
      }
    }
  }

  /** Events other than HEADER leave the topic, colours and cards alone. */
  lemma HeaderKept(p: Page, e: DebateEvent)
    requires Readable(e) && e.kind != Header
    ensures var q := Step(p, e);
      q.topic == p.topic && q.colors == p.colors && q.participants == p.participants
  {
  }

  /** The verdict box shows the last VERDICT's judge, colour and content. */
  lemma {:induction false} LastVerdictWins(events: seq<DebateEvent>)
    requires AllReadable(events)
    ensures var p := Render(events);
      match LastOf(events, Verdict)
      case None => p.verdict == None
      case Some(v) => p.verdict == Some(VerdictBox(v.speaker, Css(v.color), v.content))
  {
    if events != [] {
      var prefix := events[..|events| - 1];
      assert AllReadable(prefix) by {
        assert forall i :: 0 <= i < |prefix| ==> prefix[i] == events[i];
      }
      LastVerdictWins(prefix);
    }
  }

  /**
   * A participant card carries the name at its position, the CSS colour of that
   * name when the HEADER gave one and "#666" otherwise, and its personality or "".
   */
  lemma CardsRule(names: seq<string>, css: map<string, string>, bios: map<string, string>, i: nat)
    requires i < |names|
    ensures var c := Cards(names, css, bios)[i];
      c.name == names[i] &&
      (names[i] in css ==> c.color == css[names[i]]) && (names[i] !in css ==> c.color == "#666") &&
      (names[i] in bios ==> c.bio == bios[names[i]]) && (names[i] !in bios ==> c.bio == "")
  {
  }

  /**
   * A SCORE entry colours its target as the last HEADER before it did, and "#666"
   * when that HEADER gave the target no colour or no HEADER came.
   */
  lemma ScoreTargetColor(events: seq<DebateEvent>)
    requires AllReadable(events) && events != [] && events[|events| - 1].kind == Score
    ensures var e, p := events[|events| - 1], Render(events);
      p.events != [] &&
      match LastOf(events[..|events| - 1], Header)
      case None => p.events[|p.events| - 1].targetColor == Some("#666")
      case Some(h) =>
        h.metadata.HeaderMeta? &&
        p.events[|p.events| - 1].targetColor == Some(Get(CssMap(h.metadata.colors), e.metadata.target, "#666"))
  {
    var prefix := events[..|events| - 1];
    assert AllReadable(prefix) by {
      assert forall i :: 0 <= i < |prefix| ==> prefix[i] == events[i];
    }
    LastHeaderWins(prefix);
    assert Render(events) == Step(Render(prefix), events[|events| - 1]);
  }

  class HtmlOutput {
    var topic: string
    var participants: seq<Participant>
    var colors: map<string, string>
    var events: seq<Logged>
    var verdict: Option<VerdictBox>

    function State(): Page
      reads this
    {
      Page(topic, participants, colors, events, verdict)
    }

    /** The output path and the template are not modelled. */
    constructor ()
      ensures State() == Blank
    {
      topic := "";
      participants := [];
      colors := map[];
      events := [];
      verdict := None;
    }

    /** Hears one event; the page file would be rewritten afterwards. */
    method Call(e: DebateEvent)
      requires Readable(e)
      modifies this
      ensures State() == Step(old(State()), e)
    {
      var color := Css(e.color);
      if e.kind == Header {
        topic := e.metadata.topic;
        colors := CssMap(e.metadata.colors);
        participants := Cards(e.metadata.participants, colors, e.metadata.personalities);
      } else if e.kind == Plan {
        events := events + [Logged("plan", e.speaker, color, e.content, None, None)];
      } else if e.kind == Think {
        events := events + [Logged("think", e.speaker, color, e.content, None, None)];
      } else if e.kind == Turn {
        events := events + [Logged("turn", e.speaker, color, e.content, None, None)];
      } else if e.kind == Score {
        var target := e.metadata.target;
        events := events + [Logged("score", e.speaker, color, e.content, Some(target),
                                   Some(Get(colors, target, "#666")))];
      } else if e.kind == Verdict {
        verdict := Some(VerdictBox(e.speaker, color, e.content));
      }
    }
  }
}
