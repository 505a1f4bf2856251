/** Recording the extended-IO controller's event log in the journal: each poll reads the journal
    back as JSON text and writes the log lines that do not occur in it. */
module EventRecord {
  import opened Common

  const EIO: string := "IOT2050_EVENTS.eio"

  // ---------- text ----------

  predicate OccursAt(hay: string, needle: string, i: nat) {
    i + |needle| <= |hay| && hay[i..i + |needle|] == needle
  }

  /** Python's needle in hay. */
  predicate Contains(hay: string, needle: string) {
    exists i: nat :: i <= |hay| && OccursAt(hay, needle, i)
  }

  predicate Printable(c: char) {
    ' ' <= c <= '~'
  }

  /** No character that JSON text writes differently. */
  predicate NeedsNoEscape(s: string) {
    forall i :: 0 <= i < |s| ==> Printable(s[i]) && s[i] != '"' && s[i] != '\\'
  }

  function HexDigit(n: nat): (c: char)
    requires n < 16
    ensures Printable(c) && c !in {'"', '\\'}
  {
    if n < 10 then ('0' as int + n) as char else ('a' as int + n - 10) as char
  }

  function Hex4(n: nat): (s: string) {
    "\\u" + [HexDigit(n / 4096 % 16), HexDigit(n / 256 % 16), HexDigit(n / 16 % 16), HexDigit(n % 16)]
  }

  /** How json.dumps writes a character inside a string: ASCII only. */
  function EscapeChar(c: char): string {
    if c == '"' then "\\\""
    else if c == '\\' then "\\\\"
    else if c == '\n' then "\\n"
    else if c == '\r' then "\\r"
    else if c == '\t' then "\\t"
    else if c as int == 8 then "\\b"
    else if c as int == 12 then "\\f"
    else if Printable(c) then [c]
    else if c as int < 0x1_0000 then Hex4(c as int)
    else Hex4(0xd800 + (c as int - 0x1_0000) / 1024) + Hex4(0xdc00 + (c as int - 0x1_0000) % 1024)
  }

  function Escape(s: string): string {
    if s == "" then "" else EscapeChar(s[0]) + Escape(s[1..])
  }

  /** One item of a JSON list, on its own line. */
  function Item(event: string): string {
    "\n    \"" + Escape(event) + "\""
  }

  function Items(events: seq<string>): string {
    if events == [] then ""
    else if |events| == 1 then Item(events[0])
    else Items(events[..|events| - 1]) + "," + Item(events[|events| - 1])
  }

  /** json.dumps(events, indent=4). */
  function Dump(events: seq<string>): string {
    if events == [] then "[]" else "[" + Items(events) + "\n" + "]"
  }

  function Selected(entries: seq<string>, eventType: string): seq<string> {
    if entries == [] then []
    else Selected(entries[..|entries| - 1], eventType)
         + if Contains(entries[|entries| - 1], eventType) then [entries[|entries| - 1]] else []
  }

  function Message(event: string): string {
    EIO + ": " + event
  }

  /** The lines a poll adds to a journal whose read-back is existed. */
  function NewLines(lines: seq<string>, existed: string): seq<string> {
    if lines == [] then []
    else NewLines(lines[..|lines| - 1], existed)
         + if Contains(lines[|lines| - 1], "power") || Contains(existed, lines[|lines| - 1]) then []
           else [Message(lines[|lines| - 1])]
  }

  function ReadBack(entries: seq<string>): string {
    Dump(Selected(entries, EIO))
  }

  function Polled(entries: seq<string>, lines: seq<string>): seq<string> {
    entries + NewLines(lines, ReadBack(entries))
  }

  // ---------- the program ----------

  class Journal {
    var entries: seq<string>

    constructor ()
      ensures entries == []
    {
      entries := [];
    }

    /** write_event; an empty event is an error. */
    method WriteEvent(eventType: string, event: string) returns (r: Result<()>)
      modifies this
      ensures event == "" ==> r.Err? && entries == old(entries)
      ensures event != "" ==> r.Ok? && entries == old(entries) + [eventType + ": " + event]
    {
      if event == "" {
        return Err(ValueError);
      }
      entries := entries + [eventType + ": " + event];
      r := Ok(());
    }

    /** read_specified_event. */
    method ReadSpecifiedEvent(eventType: string) returns (text: string)
      ensures text == Dump(Selected(entries, eventType))
    {
      hide Contains, Dump;
      var events: seq<string> := [];
      for i := 0 to |entries|
        invariant events == Selected(entries[..i], eventType)
      {
        assert entries[..i + 1][..i] == entries[..i];
        if Contains(entries[i], eventType) {
          events := events + [entries[i]];
        }
      }
      assert entries[..|entries|] == entries;
      text := Dump(events);
    }

    /** One round of record_eio_events over the controller's log lines. */
    method Poll(lines: seq<string>)
      modifies this
      ensures entries == Polled(old(entries), lines)
    {
      hide Contains, Dump, Selected;
      var existed := ReadSpecifiedEvent(EIO);
      for i := 0 to |lines|
        invariant entries == old(entries) + NewLines(lines[..i], existed)
      {
        assert lines[..i + 1][..i] == lines[..i];
        if Contains(lines[i], "power") || Contains(existed, lines[i]) {
          continue;
        }
        EmptyOccurs(existed);
        var r := WriteEvent(EIO, lines[i]);
      }
      assert lines[..|lines|] == lines;
    }
  }

  lemma EmptyOccurs(hay: string)
    ensures Contains(hay, "")
  {
    assert OccursAt(hay, "", 0);
  }

  // ---------- occurrences ----------

  lemma ContainsIn(before: string, needle: string, after: string)
    ensures Contains(before + needle + after, needle)
  {
    assert OccursAt(before + needle + after, needle, |before|);
  }

  lemma ContainsTrans(hay: string, mid: string, needle: string)
    requires Contains(hay, mid) && Contains(mid, needle)
    ensures Contains(hay, needle)
  {
    var i: nat :| i <= |hay| && OccursAt(hay, mid, i);
    var j: nat :| j <= |mid| && OccursAt(mid, needle, j);
    forall k | 0 <= k < |needle|
      ensures hay[i + j + k] == needle[k]
    {
      OccursChar(mid, needle, j, k);
      OccursChar(hay, mid, i, j + k);
    }
    assert OccursAt(hay, needle, i + j);
  }

  lemma OccursChar(hay: string, needle: string, i: nat, k: nat)
    requires OccursAt(hay, needle, i) && k < |needle|
    ensures hay[i + k] == needle[k]
  {
    assert hay[i..i + |needle|][k] == hay[i + k];
  }

  lemma {:induction false} PlainEscapes(s: string)
    requires NeedsNoEscape(s)
    ensures Escape(s) == s
  {
    if s != "" {
      PlainEscapes(s[1..]);
    }
  }

  lemma ItemShows(event: string)
    ensures Contains(Item(event), Escape(event))
  {
    hide Escape;
    ContainsIn("\n    \"", Escape(event), "\"");
  }

  lemma {:induction false} ItemOccurs(events: seq<string>, i: nat)
    requires i < |events|
    ensures Contains(Items(events), Escape(events[i]))
  {
    hide Item, Escape, Contains;
    var n := |events| - 1;
    ItemShows(events[i]);
    if i == n && n > 0 {
      ContainsIn(Items(events[..n]) + ",", Item(events[n]), "");
      assert Items(events) == Items(events[..n]) + "," + Item(events[n]) + "";
      ContainsTrans(Items(events), Item(events[n]), Escape(events[n]));
    } else if n > 0 {
      ItemOccurs(events[..n], i);
      Prefix(Items(events[..n]), "," + Item(events[n]), Escape(events[i]));
      assert Items(events) == Items(events[..n]) + ("," + Item(events[n]));
    }
  }

  lemma Prefix(a: string, b: string, needle: string)
    requires Contains(a, needle)
    ensures Contains(a + b, needle)
  {
    hide Contains;
    ContainsIn("", a, b);
    assert "" + a + b == a + b;
    ContainsTrans(a + b, a, needle);
  }

  lemma DumpOccurs(events: seq<string>, i: nat)
    requires i < |events|
    ensures Contains(Dump(events), Escape(events[i]))
  {
    hide Contains, Items, Escape;
    ItemOccurs(events, i);
    ContainsIn("[", Items(events), "\n" + "]");
    assert Dump(events) == "[" + Items(events) + ("\n" + "]");
    ContainsTrans(Dump(events), Items(events), Escape(events[i]));
  }

  predicate OneLine(s: string) {
    '\n' !in s
  }

  lemma SliceBehind(front: string, back: string, k: nat, n: nat)
    requires k + n <= |back|
    ensures (front + back)[|front| + k..|front| + k + n] == back[k..k + n]
  {
  }

  /** A text without line break that occurs around a line break occurs on one side of it. */
  lemma SplitAtBreak(a: string, b: string, needle: string)
    requires OneLine(needle) && Contains(a + "\n" + b, needle)
    ensures Contains(a, needle) || Contains(b, needle)
  {
    var all := a + "\n" + b;
    var i: nat :| i <= |all| && OccursAt(all, needle, i);
    var n := |needle|;
    if i + n <= |a| {
      assert a[i..i + n] == all[i..i + n];
      assert OccursAt(a, needle, i);
    } else if i > |a| {
      var k := i - |a| - 1;
      SliceBehind(a + "\n", b, k, n);
      assert OccursAt(b, needle, k);
    } else {
      OccursChar(all, needle, i, |a| - i);
    }
  }

  /** Adding events behind a non-empty list keeps its items in front. */
  lemma {:induction false} ItemsGrow(events: seq<string>, more: seq<string>)
    requires events != []
    ensures Items(events) <= Items(events + more)
  {
    hide Item;
    if more == [] {
      assert events + more == events;
    } else {
      var n := |more| - 1;
      ItemsGrow(events, more[..n]);
      var all := events + more;
      assert all[..|all| - 1] == events + more[..n];
    }
  }

  /** A one-line text of a dump stays in it when events are added, unless it is the dump of the
      empty list. */
  lemma DumpGrows(events: seq<string>, more: seq<string>, line: string)
    requires OneLine(line) && Contains(Dump(events), line) && (events != [] || line != "[]" || more == [])
    ensures Contains(Dump(events + more), line)
  {
    hide Contains, Items, OneLine;
    if more == [] {
      assert events + more == events;
    } else if events == [] {
      assert events + more == more;
      BracketOccurs(more, line);
    } else {
      var a, b := "[" + Items(events), "[" + Items(events + more);
      ItemsGrow(events, more);
      SplitAtBreak(a, "]", line);
      if Contains(a, line) {
        Prefix(a, b[|a|..] + "\n" + "]", line);
        assert a + (b[|a|..] + "\n" + "]") == b + "\n" + "]";
      } else {
        ContainsIn(b + "\n", "]", "");
        assert b + "\n" + "]" + "" == b + "\n" + "]";
        ContainsTrans(b + "\n" + "]", "]", line);
      }
    }
  }

  lemma BracketOccurs(events: seq<string>, line: string)
    requires events != [] && Contains("[]", line) && line != "[]"
    ensures Contains(Dump(events), line)
  {
    hide Items;
    var i: nat :| i <= 2 && OccursAt("[]", line, i);
    if |line| == 1 {
      OccursChar("[]", line, i, 0);
      assert line == [line[0]];
    } else {
      assert |line| == 2 ==> line == "[]";
    }
    var text := "[" + Items(events) + "\n" + "]";
    assert OccursAt(text, "", 0) && OccursAt(text, "[", 0) && OccursAt(text, "]", |text| - 1);
  }

  // ---------- convergence ----------

  lemma {:induction false} SelectedAppend(a: seq<string>, b: seq<string>)
    requires forall e :: e in b ==> Contains(e, EIO)
    ensures Selected(a + b, EIO) == Selected(a, EIO) + b
  {
    hide Contains, EIO;
    if b == [] {
      assert a + b == a;
    } else {
      var n := |b| - 1;
      var all, last := a + b, b[n];
      SelectedAppend(a, b[..n]);
      assert all[..|all| - 1] == a + b[..n] && all[|all| - 1] == last;
      assert Selected(all, EIO) == Selected(all[..|all| - 1], EIO) + [last];
      assert b == b[..n] + [last];
    }
  }

  /** e records a line of the log that is no power line. */
  ghost predicate FromLog(lines: seq<string>, e: string) {
    exists l :: l in lines && !Contains(l, "power") && e == Message(l)
  }

  lemma {:induction false} NewLinesAre(lines: seq<string>, existed: string)
    ensures forall e :: e in NewLines(lines, existed) ==> Contains(e, EIO) && FromLog(lines, e)
    ensures forall l ::
          l in lines && !Contains(l, "power") && !Contains(existed, l) ==> Message(l) in NewLines(lines, existed)
  {
    hide Contains, Message;
    if lines != [] {
      var n := |lines| - 1;
      NewLinesAre(lines[..n], existed);
      MessageSelected(lines[n]);
      assert lines == lines[..n] + [lines[n]];
    }
  }

  lemma MessageSelected(line: string)
    ensures Contains(Message(line), EIO)
  {
    assert OccursAt(Message(line), EIO, 0);
  }

  /** The text a poll skips for the wrong reason: it is how an empty list is dumped. */
  predicate Confusing(entries: seq<string>, line: string) {
    line == "[]" && Selected(entries, EIO) == []
  }

  /** The line occurs in its own message as JSON writes it. */
  predicate SurvivesEscape(line: string) {
    OneLine(line) && Contains(Escape(Message(line)), line)
  }

  /** After a poll, every line that is no power line and survives JSON escaping, with quotes or
      backslashes or without, occurs in the journal's read-back. */
  lemma PollRecords(entries: seq<string>, lines: seq<string>, line: string)
    requires line in lines && !Contains(line, "power") && SurvivesEscape(line) && !Confusing(entries, line)
    ensures Contains(ReadBack(Polled(entries, lines)), line)
  {
    hide Contains, Dump, Message, Escape, NewLines, Selected;
    var existed := ReadBack(entries);
    var more := NewLines(lines, existed);
    var had := Selected(entries, EIO);
    NewLinesAre(lines, existed);
    SelectedAppend(entries, more);
    if Contains(existed, line) {
      DumpGrows(had, more, line);
    } else {
      var all := had + more;
      assert Message(line) in more;
      var k :| 0 <= k < |more| && more[k] == Message(line);
      assert all[|had| + k] == Message(line);
      DumpOccurs(all, |had| + k);
      ContainsTrans(Dump(all), Escape(Message(line)), line);
    }
  }

  lemma PlainIsOneLine(line: string)
    requires NeedsNoEscape(line)
    ensures OneLine(line)
  {
  }

  lemma PlainMessage(line: string)
    requires NeedsNoEscape(line)
    ensures Escape(Message(line)) == Message(line) && Contains(Message(line), line)
  {
    assert OccursAt(Message(line), line, |EIO| + 2);
    assert NeedsNoEscape(EIO) && NeedsNoEscape(": ");
    PlainEscapes(Message(line));
  }

  /** The journal only grows, and only by lines of the log. */
  lemma PollOnlyAppends(entries: seq<string>, lines: seq<string>)
    ensures entries <= Polled(entries, lines)
    ensures forall i :: |entries| <= i < |Polled(entries, lines)| ==>
              FromLog(lines, Polled(entries, lines)[i])
  {
    NewLinesAre(lines, ReadBack(entries));
    var more := NewLines(lines, ReadBack(entries));
    assert forall i :: |entries| <= i < |Polled(entries, lines)| ==> Polled(entries, lines)[i] in more;
  }

  // ---------- where it does not converge ----------

  lemma {:induction false} EscapeIsPrintable(s: string)
    ensures forall i :: 0 <= i < |Escape(s)| ==> Printable(Escape(s)[i])
  {
    if s != "" {
      EscapeIsPrintable(s[1..]);
    }
  }

  lemma {:induction false} ItemsPrintable(events: seq<string>)
    ensures forall i :: 0 <= i < |Items(events)| ==> Printable(Items(events)[i]) || Items(events)[i] == '\n'
  {
    if events != [] {
      var n := |events| - 1;
      EscapeIsPrintable(events[n]);
      ItemsPrintable(events[..n]);
    }
  }

  /** A line with a character outside printable ASCII never occurs in the read-back, so every poll
      writes it again. */
  lemma UnprintableRepeats(entries: seq<string>, lines: seq<string>, line: string, k: nat)
    requires line in lines && !Contains(line, "power")
    requires k < |line| && !Printable(line[k]) && line[k] != '\n'
    ensures !Contains(ReadBack(entries), line)
    ensures Message(line) in NewLines(lines, ReadBack(entries))
    ensures |Polled(entries, lines)| > |entries|
  {
    var text := ReadBack(entries);
    ItemsPrintable(Selected(entries, EIO));
    if Contains(text, line) {
      var i: nat :| i <= |text| && OccursAt(text, line, i);
      OccursChar(text, line, i, k);
    }
    NewLinesAre(lines, text);
  }

  // ---------- quotes and backslashes ----------

  /** A quote is escaped, opens an item, closes one, or ends the text. */
  predicate QuotesFramed(t: string) {
    forall p :: 0 <= p < |t| ==> FramedAt(t, p)
  }

  predicate FramedAt(t: string, p: nat)
    requires p < |t|
  {
    t[p] == '"' ==> (p > 0 && t[p - 1] in {'\\', ' '}) || p == |t| - 1 || t[p + 1] in {',', '\n'}
  }

  predicate QuotesEscaped(t: string) {
    forall p :: 0 <= p < |t| && t[p] == '"' ==> p > 0 && t[p - 1] == '\\'
  }

  const ESCAPES: set<char> := {'"', '\\', 'n', 'r', 't', 'b', 'f', 'u'}

  /** The first of a run of backslashes begins an escape. */
  predicate SlashesLead(t: string) {
    forall p :: 0 <= p < |t| ==> LeadsAt(t, p)
  }

  predicate LeadsAt(t: string, p: nat)
    requires p < |t|
  {
    t[p] == '\\' && (p == 0 || t[p - 1] != '\\') ==> p + 1 < |t| && t[p + 1] in ESCAPES
  }

  lemma FramedAppend(a: string, b: string)
    ensures QuotesEscaped(a) && QuotesEscaped(b) ==> QuotesEscaped(a + b)
    ensures SlashesLead(a) && SlashesLead(b) ==> SlashesLead(a + b)
    ensures QuotesFramed(a) && QuotesFramed(b) && b != "" && b[0] in {',', '\n'} ==> QuotesFramed(a + b)
  {
    if SlashesLead(a) && SlashesLead(b) {
      forall p | 0 <= p < |a + b|
        ensures LeadsAt(a + b, p)
      {
        assert if p < |a| then LeadsAt(a, p) else LeadsAt(b, p - |a|);
      }
    }
    if QuotesFramed(a) && QuotesFramed(b) && b != "" && b[0] in {',', '\n'} {
      forall p | 0 <= p < |a + b|
        ensures FramedAt(a + b, p)
      {
        assert if p < |a| then FramedAt(a, p) else FramedAt(b, p - |a|);
      }
    }
  }

  lemma {:induction false} EscapeFramed(s: string)
    ensures QuotesEscaped(Escape(s)) && SlashesLead(Escape(s))
  {
    hide EscapeChar;
    if s != "" {
      EscapeFramed(s[1..]);
      CharFramed(s[0]);
      FramedAppend(EscapeChar(s[0]), Escape(s[1..]));
    }
  }

  lemma CharFramed(c: char)
    ensures QuotesEscaped(EscapeChar(c)) && SlashesLead(EscapeChar(c))
  {
    hide Hex4;
    if c as int >= 0x1_0000 {
      var offset := c as int - 0x1_0000;
      HexFramed(0xd800 + offset / 1024);
      HexFramed(0xdc00 + offset % 1024);
      FramedAppend(Hex4(0xd800 + offset / 1024), Hex4(0xdc00 + offset % 1024));
    } else {
      HexFramed(c as int);
    }
  }

  lemma HexFramed(n: nat)
    ensures QuotesEscaped(Hex4(n)) && SlashesLead(Hex4(n))
  {
    hide HexDigit;
    assert Hex4(n)[0] == '\\' && Hex4(n)[1] == 'u';
    assert forall p :: 2 <= p < 6 ==> Hex4(n)[p] !in {'"', '\\'};
  }

  lemma ItemFramed(event: string)
    ensures QuotesFramed(Item(event)) && SlashesLead(Item(event)) && Item(event) != "" && Item(event)[0] == '\n'
  {
    hide Escape;
    EscapeFramed(event);
    var front, text := "\n    \"", Escape(event);
    assert |front| == 6 && front[4] == ' ' && front[5] == '"' && forall p :: 0 <= p < 5 ==> front[p] != '"';
    FramedAppend(front, text);
    FramedAppend(front + text, "\"");
    assert Item(event) == front + text + "\"";
  }

  lemma {:induction false} ItemsFramed(events: seq<string>)
    requires events != []
    ensures QuotesFramed(Items(events)) && SlashesLead(Items(events))
    ensures Items(events) != "" && Items(events)[0] == '\n'
  {
    hide Item, QuotesFramed, SlashesLead;
    var n := |events| - 1;
    ItemFramed(events[n]);
    if n > 0 {
      ItemsFramed(events[..n]);
      CommaFramed();
      FramedAppend(Items(events[..n]), ",");
      FramedAppend(Items(events[..n]) + ",", Item(events[n]));
    }
  }

  lemma CommaFramed()
    ensures QuotesFramed(",") && SlashesLead(",") && QuotesFramed("[") && SlashesLead("[")
    ensures QuotesFramed("\n" + "]") && SlashesLead("\n" + "]") && QuotesFramed("[]") && SlashesLead("[]")
  {
  }

  lemma DumpFramed(events: seq<string>)
    ensures QuotesFramed(Dump(events)) && SlashesLead(Dump(events))
  {
    hide Items, QuotesFramed, SlashesLead;
    CommaFramed();
    if events != [] {
      var items, close := Items(events), "\n" + "]";
      ItemsFramed(events);
      FramedAppend("[", items);
      assert close != "" && close[0] == '\n';
      FramedAppend("[" + items, close);
      assert Dump(events) == "[" + items + close;
    }
  }

  /** An interior quote or backslash that JSON text never shows in this surrounding. */
  predicate Broken(line: string, k: nat) {
    && 0 < k < |line| - 1
    && ((line[k] == '"' && line[k - 1] !in {'\\', ' '} && line[k + 1] !in {',', '\n'})
        || (line[k] == '\\' && line[k - 1] != '\\' && line[k + 1] !in ESCAPES))
  }

  lemma Surrounded(text: string, p: nat)
    requires QuotesFramed(text) && SlashesLead(text) && p < |text|
    ensures LeadsAt(text, p) && FramedAt(text, p)
  {
  }

  /** Such a line never occurs in the read-back, so every poll writes it again. */
  lemma BrokenRepeats(entries: seq<string>, lines: seq<string>, line: string, k: nat)
    requires line in lines && !Contains(line, "power") && Broken(line, k)
    ensures !Contains(ReadBack(entries), line)
    ensures Message(line) in NewLines(lines, ReadBack(entries))
    ensures |Polled(entries, lines)| > |entries|
  {
    hide Dump, Selected;
    var text := ReadBack(entries);
    DumpFramed(Selected(entries, EIO));
    if Contains(text, line) {
      var i: nat :| i <= |text| && OccursAt(text, line, i);
      OccursChar(text, line, i, k - 1);
      OccursChar(text, line, i, k);
      OccursChar(text, line, i, k + 1);
      Surrounded(text, i + k);
    }
    NewLinesAre(lines, text);
  }

  /** The line "[]" is skipped over a journal without entries: it occurs in the empty list's dump. */
  lemma EmptyListIsSkipped()
    ensures Polled([], ["[]", "x"]) == [Message("x")]
  {
    hide Message;
    assert OccursAt("[]", "[]", 0);
    if Contains("[]", "x") {
      var i: nat :| i <= 2 && OccursAt("[]", "x", i);
      OccursChar("[]", "x", i, 0);
    }
    assert !Contains("x", "power");
    assert ["[]", "x"][..1] == ["[]"] && ["[]"][..0] == [];
    assert NewLines(["[]"][..0], "[]") == [];
  }

  predicate PairAt(s: string, i: nat) {
    i + 1 < |s| && s[i] == '[' && s[i + 1] == ']'
  }

  ghost predicate HasPair(s: string) {
    exists i: nat :: PairAt(s, i)
  }

  lemma PairOccurs(s: string, i: nat)
    ensures OccursAt(s, "[]", i) <==> PairAt(s, i)
  {
    if i + 2 <= |s| {
      var t := s[i..i + 2];
      assert t == [s[i], s[i + 1]];
      assert t == "[]" <==> t[0] == '[' && t[1] == ']';
    }
  }

  lemma HasPairIff(s: string)
    ensures Contains(s, "[]") <==> HasPair(s)
  {
    hide OccursAt;
    if Contains(s, "[]") {
      var i: nat :| i <= |s| && OccursAt(s, "[]", i);
      PairOccurs(s, i);
    }
    if HasPair(s) {
      var i: nat :| PairAt(s, i);
      PairOccurs(s, i);
    }
  }

  lemma SplitPair(a: string, b: string)
    ensures Contains(a + b, "[]") <==>
      Contains(a, "[]") || Contains(b, "[]") || (a != "" && b != "" && a[|a| - 1] == '[' && b[0] == ']')
  {
    hide Contains;
    HasPairIff(a);
    HasPairIff(b);
    HasPairIff(a + b);
    SplitHasPair(a, b);
  }

  lemma SplitHasPair(a: string, b: string)
    ensures HasPair(a + b)
       <==> HasPair(a) || HasPair(b) || (a != "" && b != "" && a[|a| - 1] == '[' && b[0] == ']')
  {
    var all := a + b;
    if HasPair(all) {
      var i: nat :| PairAt(all, i);
      assert i + 2 <= |a| ==> PairAt(a, i);
      assert i >= |a| ==> PairAt(b, i - |a|);
    }
    if HasPair(a) {
      var i: nat :| PairAt(a, i);
      assert PairAt(all, i);
    }
    if HasPair(b) {
      var i: nat :| PairAt(b, i);
      assert PairAt(all, |a| + i);
    }
    if a != "" && b != "" && a[|a| - 1] == '[' && b[0] == ']' {
      assert PairAt(all, |a| - 1);
    }
  }

  lemma NoPairIn(s: string)
    requires '[' !in s || ']' !in s
    ensures !Contains(s, "[]")
  {
    if Contains(s, "[]") {
      var i: nat :| i <= |s| && OccursAt(s, "[]", i);
      if '[' !in s {
        OccursChar(s, "[]", i, 0);
      } else {
        OccursChar(s, "[]", i, 1);
      }
    }
  }

  lemma ItemHoldsPair(event: string)
    ensures Contains(Item(event), "[]") <==> Contains(Escape(event), "[]")
    ensures |Item(event)| > 0 && Item(event)[0] == '\n' && Item(event)[|Item(event)| - 1] == '"'
  {
    hide Escape, Contains;
    var front, text := "\n    \"", Escape(event);
    NoPairIn(front);
    NoPairIn("\"");
    SplitPair(front, text);
    SplitPair(front + text, "\"");
  }

  predicate SomeHoldsPair(events: seq<string>) {
    exists i :: 0 <= i < |events| && Contains(Escape(events[i]), "[]")
  }

  lemma {:induction false} ItemsHoldPair(events: seq<string>)
    requires events != []
    ensures Contains(Items(events), "[]") <==> SomeHoldsPair(events)
    ensures |Items(events)| > 0 && Items(events)[0] == '\n' && Items(events)[|Items(events)| - 1] == '"'
  {
    hide Escape, Contains, Item;
    var n := |events| - 1;
    ItemHoldsPair(events[n]);
    if n > 0 {
      ItemsHoldPair(events[..n]);
      NoPairIn(",");
      SplitPair(Items(events[..n]), ",");
      SplitPair(Items(events[..n]) + ",", Item(events[n]));
      assert SomeHoldsPair(events) <==> SomeHoldsPair(events[..n]) || Contains(Escape(events[n]), "[]") by {
        if i :| 0 <= i < |events| && Contains(Escape(events[i]), "[]") && i < n {
          assert events[..n][i] == events[i];
        }
      }
    }
  }

  /** The dump of a list with items holds "[]" only inside an item. */
  lemma DumpHoldsPair(events: seq<string>)
    requires events != []
    ensures Contains(Dump(events), "[]") <==> SomeHoldsPair(events)
  {
    hide Escape, Contains, Items;
    ItemsHoldPair(events);
    NoPairIn("[");
    NoPairIn("\n");
    NoPairIn("]");
    SplitPair("[", Items(events));
    SplitPair("[" + Items(events), "\n");
    SplitPair("[" + Items(events) + "\n", "]");
  }

  /** The line "[]" counts as recorded in a journal without events, where other lines are then
      recorded, none of which holds it. */
  predicate Swallowed(entries: seq<string>, lines: seq<string>) {
    Selected(entries, EIO) == [] && NewLines(lines, "[]") != [] && !SomeHoldsPair(NewLines(lines, "[]"))
  }

  /** A line that is no power line and needs no escaping occurs in the read-back after a poll,
      exactly unless it is the one line that is swallowed. */
  lemma PollRecordsIff(entries: seq<string>, lines: seq<string>, line: string)
    requires line in lines && !Contains(line, "power") && NeedsNoEscape(line)
    ensures Contains(ReadBack(Polled(entries, lines)), line) <==> !(line == "[]" && Swallowed(entries, lines))
  {
    hide Contains, Message, Escape, NeedsNoEscape, NewLines, Selected, Items, SomeHoldsPair;
    if !Confusing(entries, line) {
      PlainIsOneLine(line);
      PlainMessage(line);
      PollRecords(entries, lines, line);
    } else {
      var more := NewLines(lines, "[]");
      NewLinesAre(lines, "[]");
      SelectedAppend(entries, more);
      assert Selected(entries, EIO) + more == more;
      if more == [] {
        BracketsOccur();
      } else {
        DumpHoldsPair(more);
      }
    }
  }

  lemma {:induction false} NothingNewIff(lines: seq<string>, existed: string)
    ensures NewLines(lines, existed) == [] <==> forall l :: l in lines && !Contains(l, "power") ==> Contains(existed, l)
  {
    hide Contains;
    if lines != [] {
      var n := |lines| - 1;
      NothingNewIff(lines[..n], existed);
      assert lines == lines[..n] + [lines[n]];
    }
  }

  /** Polling a log without escapes a second time adds nothing, exactly unless it swallows "[]". */
  lemma PollConvergesIff(entries: seq<string>, lines: seq<string>)
    requires forall l :: l in lines && !Contains(l, "power") ==> NeedsNoEscape(l)
    ensures Polled(Polled(entries, lines), lines) == Polled(entries, lines)
            <==> !("[]" in lines && Swallowed(entries, lines))
  {
    hide Contains, Message, Escape, NeedsNoEscape, NewLines, Selected, Items, ReadBack, Swallowed;
    var next := Polled(entries, lines);
    forall l | l in lines && !Contains(l, "power")
      ensures Contains(ReadBack(next), l) <==> !(l == "[]" && Swallowed(entries, lines))
    {
      PollRecordsIff(entries, lines, l);
    }
    NothingNewIff(lines, ReadBack(next));
    NoPowerInBrackets();
  }

  lemma NoPowerInBrackets()
    ensures !Contains("[]", "power")
  {
  }

  /** So "[]" is lost behind a first line "x". */
  lemma EmptyListIsLost()
    ensures Swallowed([], ["[]", "x"])
  {
    hide Contains, Message, Escape, NewLines, Items;
    EmptyListIsSkipped();
    assert Dump([]) == "[]" && Selected([], EIO) == [];
    assert [] + NewLines(["[]", "x"], "[]") == NewLines(["[]", "x"], "[]");
    BracketFree();
    PlainMessage("x");
    NoPairIn(Message("x"));
  }

  lemma BracketFree()
    ensures '[' !in Message("x") && NeedsNoEscape("x")
  {
    assert '[' !in EIO;
  }

  lemma BracketsOccur()
    ensures Contains("[]", "[]")
  {
    assert OccursAt("[]", "[]", 0);
  }

  // ---------- order ----------

  /** The places of the texts that are kept, in order. */
  function Places(xs: seq<string>, keep: string -> bool): (ks: seq<nat>)
    ensures forall i :: 0 <= i < |ks| ==> ks[i] < |xs|
  {
    if xs == [] then []
    else Places(xs[..|xs| - 1], keep) + if keep(xs[|xs| - 1]) then [|xs| - 1] else []
  }

  predicate Ascending(ks: seq<nat>) {
    forall i, j :: 0 <= i < j < |ks| ==> ks[i] < ks[j]
  }

  lemma {:induction false} PlacesAre(xs: seq<string>, keep: string -> bool)
    ensures Ascending(Places(xs, keep))
    ensures forall k: nat :: k in Places(xs, keep) <==> k < |xs| && keep(xs[k])
  {
    if xs != [] {
      var init := xs[..|xs| - 1];
      PlacesAre(init, keep);
      forall k: nat
        ensures k in Places(xs, keep) <==> k < |xs| && keep(xs[k])
      {
        assert k < |init| ==> init[k] == xs[k];
      }
    }
  }

  /** The texts at these places, in their order, each behind a prefix. */
  predicate Picked(ys: seq<string>, prefix: string, xs: seq<string>, ks: seq<nat>) {
    |ys| == |ks| && forall i :: 0 <= i < |ys| ==> ks[i] < |xs| && ys[i] == prefix + xs[ks[i]]
  }

  /** A line that a poll records: no power line, and not in the read-back. */
  predicate IsNew(line: string, existed: string) {
    !Contains(line, "power") && !Contains(existed, line)
  }

  lemma {:induction false} NewLinesPicked(lines: seq<string>, existed: string)
    ensures Picked(NewLines(lines, existed), "IOT2050_EVENTS.eio: ", lines, Places(lines, l => IsNew(l, existed)))
  {
    hide Contains;
    if lines != [] {
      var init, last := lines[..|lines| - 1], lines[|lines| - 1];
      NewLinesPicked(init, existed);
      assert EIO + ": " == "IOT2050_EVENTS.eio: ";
    }
  }

  /** What a poll appends: one event for each line that is no power line and was not in the read-back
      before, in the order of the log. */
  lemma PollOrder(entries: seq<string>, lines: seq<string>)
    ensures entries <= Polled(entries, lines)
    ensures exists ks: seq<nat> ::
              && Ascending(ks)
              && (forall k: nat :: k in ks <==> k < |lines| && IsNew(lines[k], ReadBack(entries)))
              && Picked(Polled(entries, lines)[|entries|..], "IOT2050_EVENTS.eio: ", lines, ks)
  {
    hide Contains, ReadBack, NewLines;
    var existed := ReadBack(entries);
    var keep := (l: string) => IsNew(l, existed);
    var ks := Places(lines, keep);
    PlacesAre(lines, keep);
    NewLinesPicked(lines, existed);
    assert Polled(entries, lines)[|entries|..] == NewLines(lines, existed);
  }

  lemma {:induction false} SelectedPicked(entries: seq<string>, eventType: string)
    ensures Picked(Selected(entries, eventType), "", entries, Places(entries, e => Contains(e, eventType)))
  {
    hide Contains;
    if entries != [] {
      var last := entries[|entries| - 1];
      SelectedPicked(entries[..|entries| - 1], eventType);
      assert "" + last == last;
    }
  }

  /** What is read back: the entries that mention the type, in the order of the journal. */
  lemma ReadOrder(entries: seq<string>, eventType: string)
    ensures exists ks: seq<nat> ::
              && Ascending(ks)
              && (forall k: nat :: k in ks <==> k < |entries| && Contains(entries[k], eventType))
              && Picked(Selected(entries, eventType), "", entries, ks)
  {
    hide Contains, Selected;
    var keep := (e: string) => Contains(e, eventType);
    PlacesAre(entries, keep);
    SelectedPicked(entries, eventType);
    assert forall k: nat :: k in Places(entries, keep) <==> k < |entries| && Contains(entries[k], eventType);
  }

  /** JSON text, by example: the short escapes and a character outside ASCII. */
  lemma JsonChars()
    ensures EscapeChar('"') == "\\\"" && EscapeChar('\\') == "\\\\"
    ensures EscapeChar('\n') == "\\n" && EscapeChar('\r') == "\\r" && EscapeChar('\t') == "\\t"
    ensures EscapeChar('\U{8}') == "\\b" && EscapeChar('\U{c}') == "\\f" && EscapeChar('\U{e9}') == "\\u00e9"
  {
  }

  /** And a list. */
  lemma JsonList()
    ensures Dump([]) == "[]" && Dump(["a", "b"]) == "[\n    \"a\",\n    \"b\"\n]"
  {
    hide Item;
    PlainItem('a');
    PlainItem('b');
    assert ["a", "b"][..1] == ["a"] && Items(["a"]) == Item("a");
    assert Items(["a", "b"]) == Item("a") + "," + Item("b");
  }

  lemma PlainItem(c: char)
    requires c in {'a', 'b'}
    ensures Item([c]) == "\n    \"" + [c] + "\""
  {
    OneChar(c, "");
    assert [c] + "" == [c];
  }

  lemma OneChar(c: char, rest: string)
    ensures Escape([c] + rest) == EscapeChar(c) + Escape(rest)
  {
    assert ([c] + rest)[1..] == rest;
  }
}
