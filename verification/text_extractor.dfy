/** The formatters of MAC_Text_Extractor.js: `showList`, `showEvent`, `showCommonEvent` and
    `showMap`, which turn RPG Maker event data into the plain text written to the extract. */
module TextExtractor {
  import opened Wrappers
  import opened Strings

  /** Event command codes the extractor prints: the "Show Text" header, one line of message
      text, and "Show Choices". */
  const ShowTextCode: int := 101
  const TextLineCode: int := 401
  const ShowChoicesCode: int := 102

  const ChoiceHeader: string := "\nChoice:\n"
  const ChoicePrefix: string := "  -"
  const PageSeparator: string := "\n-----\n\n"

  /** An entry of a command's `parameters` array: a string, an array of strings, or anything
      else (numbers, objects), which the extractor never prints. */
  datatype Parameter = Text(text: string) | TextList(items: seq<string>) | Other

  datatype EventCommand = EventCommand(code: int, parameters: seq<Parameter>)

  /** What the editor guarantees and the extractor relies on: a text line carries its text as
      the first parameter, and Show Choices carries its list of options there. */
  predicate WellFormed(c: EventCommand)
  {
    && (c.code == TextLineCode ==> |c.parameters| > 0 && c.parameters[0].Text?)
    && (c.code == ShowChoicesCode ==> |c.parameters| > 0 && c.parameters[0].TextList?)
  }

  /** An event command as the editor writes it. */
  type Command = c: EventCommand | WellFormed(c) witness EventCommand(0, [])

  datatype Page = Page(list: seq<Command>)

  /** A map event; `noExtraction` is its `<NoExtraction>` note tag. */
  datatype Event = Event(id: int, name: string, noExtraction: bool, pages: seq<Page>)

  datatype CommonEvent = CommonEvent(id: int, name: string, list: seq<Command>)

  /** A map's data: its `<NoExtraction>` tag and its `events` array, whose empty slots
      (index 0, deleted events) are `null`. */
  datatype MapData = MapData(noExtraction: bool, events: seq<Option<Event>>)

  /** The command codes that contribute to the text. */
  predicate Emits(code: int)
  {
    code == ShowTextCode || code == TextLineCode || code == ShowChoicesCode
  }

  /** Each option of a Show Choices command as one bulleted line. */
  function Bullets(options: seq<string>): (r: seq<string>)
    ensures |r| == |options|
    ensures forall k :: 0 <= k < |r| ==> r[k] == ChoicePrefix + options[k]
  {
    seq(|options|, k requires 0 <= k < |options| => ChoicePrefix + options[k])
  }

  /** What one command appends to `showList`'s accumulator. */
  function CommandText(c: Command): (r: string)
    ensures !Emits(c.code) <==> r == ""
    ensures c.code == ShowTextCode || c.code == ShowChoicesCode ==> r[0] == '\n'
    ensures c.code == ShowTextCode ==> r == "\n"
    ensures c.code == TextLineCode ==> r == c.parameters[0].text + "\n"
    ensures c.code == ShowChoicesCode ==>
              r == ChoiceHeader + Join(Bullets(c.parameters[0].items), "\n") + "\n"
  {
    if c.code == ShowTextCode then "\n"
    else if c.code == TextLineCode then c.parameters[0].text + "\n"
    else if c.code == ShowChoicesCode then ChoiceHeader + Join(Bullets(c.parameters[0].items), "\n") + "\n"
    else ""
  }

  /** `showList`'s accumulator after the whole command list: each command's text, in order. */
  function ListText(list: seq<Command>): (r: string)
    ensures |list| == 0 ==> r == ""
    ensures |list| == 1 ==> r == CommandText(list[0])
    decreases |list|
  {
    if |list| == 0 then ""
    else
      CommandText(list[0]) + ListText(list[1..])
  }

  /** Only the three printing codes produce text: a list prints nothing exactly when none of
      its commands has one of them. */
  lemma {:induction false} ListTextEmptyIff(list: seq<Command>)
    ensures ListText(list) == "" <==> forall k :: 0 <= k < |list| ==> !Emits(list[k].code)
    decreases |list|
  {
    if |list| > 0 {
      assert forall k :: 0 <= k < |list| - 1 ==> list[1..][k] == list[k + 1];
      ListTextEmptyIff(list[1..]);
      if ListText(list) == "" {
        assert CommandText(list[0]) == "";
        forall k | 0 <= k < |list| ensures !Emits(list[k].code) {
          if k > 0 {
            assert list[k] == list[1..][k - 1];
          }
        }
      }
    }
  }

  /** Text accumulates in list order: a list's text is its parts' texts, concatenated. */
  lemma {:induction false} ListTextConcat(a: seq<Command>, b: seq<Command>)
    ensures ListText(a + b) == ListText(a) + ListText(b)
    decreases |a|
  {
    if |a| == 0 {
      assert a + b == b;
    } else {
      assert (a + b)[0] == a[0];
      assert (a + b)[1..] == a[1..] + b;
      ListTextConcat(a[1..], b);
    }
  }

  /** A command with a code the extractor ignores can be removed without changing the text. */
  lemma SilentCommandIgnored(a: seq<Command>, c: Command, b: seq<Command>)
    requires !Emits(c.code)
    ensures ListText(a + [c] + b) == ListText(a + b)
  {
    assert [c][1..] == [];
    assert ListText([c]) == "";
    calc {
      ListText(a + [c] + b);
      { ListTextConcat(a + [c], b); }
      ListText(a + [c]) + ListText(b);
      { ListTextConcat(a, [c]); }
      ListText(a) + "" + ListText(b);
      { assert ListText(a) + "" == ListText(a); }
      ListText(a) + ListText(b);
      { ListTextConcat(a, b); }
      ListText(a + b);
    }
  }

  /** showList: the accumulated text without its first character (`substring(1)`), which in
      editor-made lists is the line break that opens a Show Text or Show Choices block. */
  function ShowList(list: seq<Command>): (r: string)
    ensures |list| > 0 && (list[0].code == ShowTextCode || list[0].code == ShowChoicesCode) ==>
              ListText(list) == "\n" + r
  {
    var text := ListText(list);
    if |text| == 0 then "" else text[1..]
  }

  /** A list without Show Text, text lines or Show Choices prints nothing. */
  lemma ShowListSilent(list: seq<Command>)
    requires forall k :: 0 <= k < |list| ==> !Emits(list[k].code)
    ensures ShowList(list) == ""
  {
    ListTextEmptyIff(list);
  }

  /** Commands after a list that already printed something are appended after its text. */
  lemma ShowListAppend(a: seq<Command>, b: seq<Command>)
    requires ListText(a) != ""
    ensures ShowList(a + b) == ShowList(a) + ListText(b)
  {
    ListTextConcat(a, b);
    DropFirstOfConcat(ListText(a), ListText(b));
  }

  /** Whatever non-printing commands (comments, branches, waits, switches) come first, a list
      whose first printing command is Show Text or Show Choices renders as its accumulated
      text without that command's opening line break. */
  lemma ShowListAfterSilentPrefix(a: seq<Command>, b: seq<Command>)
    requires forall k :: 0 <= k < |a| ==> !Emits(a[k].code)
    requires |b| > 0 && (b[0].code == ShowTextCode || b[0].code == ShowChoicesCode)
    ensures ListText(a + b) == "\n" + ShowList(a + b)
  {
    ListTextEmptyIff(a);
    ListTextConcat(a, b);
    assert ListText(a + b) == ListText(b);
    assert ListText(b)[0] == '\n';
  }

  /** `pages.map(showList)`: each page's text, empty or not. */
  function PageStrings(pages: seq<Page>): (r: seq<string>)
    ensures |r| == |pages|
    ensures forall k :: 0 <= k < |pages| ==> r[k] == ShowList(pages[k].list)
  {
    seq(|pages|, k requires 0 <= k < |pages| => ShowList(pages[k].list))
  }

  /** `pages.map(showList).filter(s => s.length > 0)`: the pages' non-empty texts. */
  function PageTexts(pages: seq<Page>): (r: seq<string>)
    ensures |r| <= |pages|
    ensures |pages| == 1 ==> r == if ShowList(pages[0].list) == "" then [] else [ShowList(pages[0].list)]
  {
    NonEmpty(PageStrings(pages))
  }

  /** The page texts are exactly the non-empty page strings; there are none exactly when no
      page prints anything. */
  lemma PageTextsExact(pages: seq<Page>)
    ensures forall t :: t in PageTexts(pages) <==> t != "" && exists k :: 0 <= k < |pages| && ShowList(pages[k].list) == t
    ensures PageTexts(pages) == [] <==> forall k :: 0 <= k < |pages| ==> ShowList(pages[k].list) == ""
  {
    var strings := PageStrings(pages);
    NonEmptyExact(strings);
    forall t | t != "" && exists k :: 0 <= k < |pages| && ShowList(pages[k].list) == t
      ensures t in PageTexts(pages)
    {
      var k :| 0 <= k < |pages| && ShowList(pages[k].list) == t;
      assert strings[k] == t;
    }
  }

  /** Page texts keep page order across a split of the page list. */
  lemma PageTextsConcat(a: seq<Page>, b: seq<Page>)
    ensures PageTexts(a + b) == PageTexts(a) + PageTexts(b)
  {
    assert PageStrings(a + b) == PageStrings(a) + PageStrings(b);
    NonEmptyConcat(PageStrings(a), PageStrings(b));
  }

  function EventHeader(e: Event): string
  {
    "--- Event " + e.name + " (" + IntToString(e.id) + ") ---\n\n"
  }

  /** showEvent: nothing for a missing or tagged event or one whose pages print nothing;
      otherwise a header naming the event, then the non-empty pages separated by a rule. */
  function ShowEvent(e: Option<Event>): (r: string)
    ensures e.None? || e.value.noExtraction ==> r == ""
    ensures r != "" ==> PageTexts(e.value.pages) != [] && r == EventHeader(e.value) + Join(PageTexts(e.value.pages), PageSeparator)
  {
    if e.None? || e.value.noExtraction then ""
    else
      var texts := PageTexts(e.value.pages);
      if |texts| == 0 then "" else EventHeader(e.value) + Join(texts, PageSeparator)
  }

  /** An event prints nothing exactly when it is missing, tagged `<NoExtraction>`, or none of
      its pages prints anything. */
  lemma ShowEventEmptyIff(e: Option<Event>)
    ensures ShowEvent(e) == "" <==>
              || e.None?
              || e.value.noExtraction
              || forall k :: 0 <= k < |e.value.pages| ==> ShowList(e.value.pages[k].list) == ""
  {
    if e.Some? && !e.value.noExtraction {
      PageTextsExact(e.value.pages);
    }
  }

  /** An untagged event's text depends on its pages only through their non-empty texts. */
  lemma ShowEventFromTexts(e: Event, pages: seq<Page>)
    requires !e.noExtraction
    ensures var texts := PageTexts(pages);
            ShowEvent(Some(e.(pages := pages))) == if |texts| == 0 then "" else EventHeader(e) + Join(texts, PageSeparator)
  {
    var e' := e.(pages := pages);
    assert EventHeader(e') == EventHeader(e);
  }

  /** A page that prints nothing has no trace in the event's text: no empty section, no
      extra separator. */
  lemma SilentPageIgnored(e: Event, a: seq<Page>, p: Page, b: seq<Page>)
    requires ShowList(p.list) == ""
    ensures ShowEvent(Some(e.(pages := a + [p] + b))) == ShowEvent(Some(e.(pages := a + b)))
  {
    assert [p][1..] == [];
    assert PageTexts([p]) == [];
    calc {
      PageTexts(a + [p] + b);
      { PageTextsConcat(a + [p], b); }
      PageTexts(a + [p]) + PageTexts(b);
      { PageTextsConcat(a, [p]); }
      PageTexts(a) + [] + PageTexts(b);
      { assert PageTexts(a) + [] == PageTexts(a); }
      PageTexts(a) + PageTexts(b);
      { PageTextsConcat(a, b); }
      PageTexts(a + b);
    }
    if !e.noExtraction {
      ShowEventFromTexts(e, a + [p] + b);
      ShowEventFromTexts(e, a + b);
    }
  }

  /** Two page groups that each print something are separated by exactly one rule, in page
      order. */
  lemma EventPagesInOrder(e: Event, a: seq<Page>, b: seq<Page>)
    requires !e.noExtraction
    requires PageTexts(a) != [] && PageTexts(b) != []
    ensures ShowEvent(Some(e.(pages := a + b))) ==
              ShowEvent(Some(e.(pages := a))) + PageSeparator + Join(PageTexts(b), PageSeparator)
  {
    PageTextsConcat(a, b);
    PrefixedJoinConcat(EventHeader(e), PageTexts(a), PageTexts(b), PageSeparator);
    ShowEventFromTexts(e, a);
    ShowEventFromTexts(e, a + b);
  }

  function CommonEventHeader(name: string, id: int): string
  {
    "--- Common Event " + name + " (" + IntToString(id) + ") ---\n\n"
  }

  /** showCommonEvent(id), given the common event stored at `id` (or none): nothing for a
      missing event or one whose list prints nothing, otherwise a header naming the requested
      id, then the list's text. */
  function ShowCommonEvent(id: int, e: Option<CommonEvent>): (r: string)
    ensures r == "" <==> e.None? || ShowList(e.value.list) == ""
    ensures r != "" ==> |r| > |CommonEventHeader(e.value.name, id)| && r[..|CommonEventHeader(e.value.name, id)|] == CommonEventHeader(e.value.name, id)
  {
    if e.None? then ""
    else
      var text := ShowList(e.value.list);
      if |text| == 0 then "" else CommonEventHeader(e.value.name, id) + text
  }

  /** A common event prints like a single-page map event with the same list: the same body
      under a different header. */
  lemma CommonEventLikeOnePageEvent(id: int, ce: CommonEvent)
    ensures var ev := Event(id, ce.name, false, [Page(ce.list)]);
            && (ShowCommonEvent(id, Some(ce)) == "" <==> ShowEvent(Some(ev)) == "")
            && (ShowEvent(Some(ev)) != "" ==>
                  ShowEvent(Some(ev)) == EventHeader(ev) + ShowList(ce.list)
                  && ShowCommonEvent(id, Some(ce)) == CommonEventHeader(ce.name, id) + ShowList(ce.list))
  {
    var ev := Event(id, ce.name, false, [Page(ce.list)]);
    assert PageTexts(ev.pages) == (if ShowList(ce.list) != "" then [ShowList(ce.list)] else []) + PageTexts([]);
  }

  /** The text of a run of map events: every event that prints something, followed by a line
      break, in index order. */
  function EventsText(events: seq<Option<Event>>): (r: string)
    ensures r != "" ==> r[|r| - 1] == '\n'
    decreases |events|
  {
    if |events| == 0 then ""
    else
      var text := ShowEvent(events[0]);
      (if |text| > 0 then text + "\n" else "") + EventsText(events[1..])
  }

  /** A run of events prints nothing exactly when each of them prints nothing. */
  lemma {:induction false} EventsTextEmptyIff(events: seq<Option<Event>>)
    ensures EventsText(events) == "" <==> forall k :: 0 <= k < |events| ==> ShowEvent(events[k]) == ""
    decreases |events|
  {
    if |events| > 0 {
      var tail := events[1..];
      assert forall k :: 0 <= k < |tail| ==> tail[k] == events[k + 1];
      EventsTextEmptyIff(tail);
      if EventsText(events) == "" {
        forall k | 0 <= k < |events| ensures ShowEvent(events[k]) == "" {
          if k > 0 {
            assert events[k] == tail[k - 1];
          }
        }
      }
    }
  }

  /** Map text keeps event order across a split of the event list. */
  lemma {:induction false} EventsTextConcat(a: seq<Option<Event>>, b: seq<Option<Event>>)
    ensures EventsText(a + b) == EventsText(a) + EventsText(b)
    decreases |a|
  {
    if |a| == 0 {
      assert a + b == b;
    } else {
      assert (a + b)[0] == a[0];
      assert (a + b)[1..] == a[1..] + b;
      EventsTextConcat(a[1..], b);
    }
  }

  /** showMap: nothing for a map tagged `<NoExtraction>`, otherwise its events' text. */
  function ShowMap(m: MapData): (r: string)
    ensures m.noExtraction ==> r == ""
    ensures r == "" <==> m.noExtraction || forall k :: 0 <= k < |m.events| ==> ShowEvent(m.events[k]) == ""
    ensures r != "" ==> r[|r| - 1] == '\n'
  {
    if m.noExtraction then "" else EventsTextEmptyIff(m.events); EventsText(m.events)
  }

  /** Appending an event to an untagged map appends its text and a line break, or nothing when
      the event prints nothing (an empty slot, a tagged event, an event without text). */
  lemma ShowMapAppendEvent(m: MapData, e: Option<Event>)
    requires !m.noExtraction
    ensures ShowMap(m.(events := m.events + [e])) ==
              ShowMap(m) + (if ShowEvent(e) == "" then "" else ShowEvent(e) + "\n")
  {
    var text := ShowEvent(e);
    assert EventsText([e]) == (if |text| > 0 then text + "\n" else "") + EventsText([]);
    calc {
      ShowMap(m.(events := m.events + [e]));
      EventsText(m.events + [e]);
      { EventsTextConcat(m.events, [e]); }
      EventsText(m.events) + EventsText([e]);
      ShowMap(m) + (if text == "" then "" else text + "\n");
    }
  }
}
