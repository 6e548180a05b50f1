/**
 The event-stream reader of internal/sse/sse.go: lines are cut at newlines, data
 lines are collected, and a blank line or the end of the stream dispatches what
 was collected.
 */
module Sse {
  // ---------------------------------------------------------------------- lines

  /** The index of the first newline, or the length. */
  function FirstNewline(s: string): (n: nat)
    ensures n <= |s| && (n < |s| ==> s[n] == '\n') && '\n' !in s[..n]
  {
    if s == [] || s[0] == '\n' then 0
    else
      var m := FirstNewline(s[1..]);
      assert s[..m + 1] == [s[0]] + s[1..][..m];
      m + 1
  }

  /** One trailing carriage return is dropped. */
  function DropCR(s: string): string {
    if s != [] && s[|s| - 1] == '\r' then s[..|s| - 1] else s
  }

  /** bufio.ScanLines over a whole stream: a last line without a newline counts if it is not empty. */
  function Lines(s: string): seq<string>
    decreases |s|
  {
    if s == [] then []
    else
      var n := FirstNewline(s);
      if n == |s| then [DropCR(s)] else [DropCR(s[..n])] + Lines(s[n + 1..])
  }

  lemma {:induction false} FirstNewlineIs(text: string, rest: string)
    requires '\n' !in text
    ensures FirstNewline(text + ['\n'] + rest) == |text|
  {
    if text == [] {
      assert text + ['\n'] + rest == ['\n'] + rest;
    } else {
      assert (text + ['\n'] + rest)[1..] == text[1..] + ['\n'] + rest;
      FirstNewlineIs(text[1..], rest);
    }
  }

  lemma {:induction false} NoNewline(text: string)
    requires '\n' !in text
    ensures FirstNewline(text) == |text|
  {
    if text != [] { NoNewline(text[1..]); }
  }

  lemma LinesCons(text: string, rest: string)
    requires '\n' !in text
    ensures Lines(text + ['\n'] + rest) == [DropCR(text)] + Lines(rest)
  {
    var s := text + ['\n'] + rest;
    FirstNewlineIs(text, rest);
    assert s[..|text|] == text && s[|text| + 1..] == rest;
  }

  lemma LinesLast(text: string)
    requires '\n' !in text && text != []
    ensures Lines(text) == [DropCR(text)]
  {
    NoNewline(text);
  }

  // --------------------------------------------------------------------- events

  predicate HasPrefix(s: string, prefix: string) {
    |prefix| <= |s| && s[..|prefix|] == prefix
  }

  /** The value of a data line: what follows the colon, without one leading space. */
  function DataOf(line: string): string
    requires HasPrefix(line, "data:")
  {
    var data := line[5..];
    if HasPrefix(data, " ") then data[1..] else data
  }

  /** Lines joined by newlines. */
  function Join(parts: seq<string>): string {
    if parts == [] then "" else if |parts| == 1 then parts[0] else parts[0] + ['\n'] + Join(parts[1..])
  }

  function Flush(group: seq<string>): seq<string> {
    if group == [] then [] else [Join(group)]
  }

  /** The events that lines complete, group being the data values since the last event. */
  function Events(lines: seq<string>, group: seq<string>): seq<string> {
    if lines == [] then Flush(group)
    else if lines[0] == "" then Flush(group) + Events(lines[1..], [])
    else if HasPrefix(lines[0], "data:") then Events(lines[1..], group + [DataOf(lines[0])])
    else Events(lines[1..], group)
  }

  /** The buffer that holds group: each value followed by a newline. */
  function Buffered(group: seq<string>): string {
    if group == [] then "" else Buffered(group[..|group| - 1]) + group[|group| - 1] + ['\n']
  }

  lemma {:induction false} JoinSnoc(parts: seq<string>, part: string)
    requires parts != []
    ensures Join(parts + [part]) == Join(parts) + ['\n'] + part
  {
    if |parts| == 1 {
      assert (parts + [part])[1..] == [part];
    } else {
      JoinSnoc(parts[1..], part);
      assert (parts + [part])[1..] == parts[1..] + [part];
    }
  }

  /** Without its last newline the buffer is the joined values. */
  lemma {:induction false} BufferedIsJoined(group: seq<string>)
    requires group != []
    ensures Buffered(group) == Join(group) + ['\n']
  {
    var front, last := group[..|group| - 1], group[|group| - 1];
    assert group == front + [last];
    if front != [] {
      BufferedIsJoined(front);
      JoinSnoc(front, last);
    }
  }

  lemma BufferedSnoc(group: seq<string>, value: string)
    ensures Buffered(group + [value]) == Buffered(group) + value + ['\n']
  {
    assert (group + [value])[..|group|] == group;
  }

  /** strings.TrimSuffix(s, "\n") */
  function TrimNewline(s: string): string {
    if s != [] && s[|s| - 1] == '\n' then s[..|s| - 1] else s
  }

  /** dispatch: an empty buffer is not an event, but one that holds an empty value is. */
  lemma Dispatched(group: seq<string>)
    ensures Buffered(group) == "" <==> group == []
    ensures Flush(group) == if Buffered(group) == "" then [] else [TrimNewline(Buffered(group))]
  {
    if group != [] {
      BufferedIsJoined(group);
      assert (Join(group) + ['\n'])[..|Join(group)|] == Join(group);
    }
  }

  /** The read loop of connect, collecting what it hands to the handler. */
  method ReadEvents(stream: string) returns (events: seq<string>)
    ensures events == Events(Lines(stream), [])
  {
    hide Flush, Buffered, TrimNewline, Lines;
    var lines := Lines(stream);
    events := [];
    var event := "";
    ghost var group: seq<string> := [];
    Dispatched([]);
    for i := 0 to |lines|
      invariant event == Buffered(group) && events + Events(lines[i..], group) == Events(lines, [])
    {
      var line := lines[i];
      assert lines[i..][0] == line && lines[i..][1..] == lines[i + 1..];
      if line == "" {
        Dispatched(group);
        if event != "" {
          events, event := events + [TrimNewline(event)], "";
        }
        group := [];
        Dispatched([]);
      } else if HasPrefix(line, "data:") {
        BufferedSnoc(group, DataOf(line));
        event := event + DataOf(line) + ['\n'];
        group := group + [DataOf(line)];
      }
    }
    Dispatched(group);
    if event != "" { events := events + [TrimNewline(event)]; }
  }

  // ------------------------------------------------------------------ the stream

  /** A line as a server writes it: a data value, anything the reader skips, or a blank. */
  datatype Item =
    | Data(text: string, space: bool, crlf: bool)
    | Skipped(text: string, crlf: bool)
    | Blank(crlf: bool)
  {
    function Text(): string {
      match this
      case Data(text, space, _) => "data:" + (if space then " " else "") + text
      case Skipped(text, _) => text
      case Blank(_) => ""
    }

    /** Its characters survive the reader: no newline inside, no carriage return lost, no space lost. */
    predicate Valid() {
      && '\n' !in Text() && (!crlf ==> DropCR(Text()) == Text())
      && (Data? && !space ==> !HasPrefix(text, " "))
      && (Skipped? ==> text != "" && !HasPrefix(text, "data:"))
    }
  }

  /** The stream of items; the line ending of the last one is missing if the connection breaks off there. */
  function Render(items: seq<Item>, open: bool): string {
    if items == [] then ""
    else if open && |items| == 1 then items[0].Text()
    else items[0].Text() + (if items[0].crlf then ['\r', '\n'] else ['\n']) + Render(items[1..], open)
  }

  predicate ValidStream(items: seq<Item>, open: bool) {
    && (forall i :: 0 <= i < |items| ==> items[i].Valid())
    && (open && items != [] ==> var last := items[|items| - 1]; !last.Blank? && DropCR(last.Text()) == last.Text())
  }

  /** What items carry: the data values between blanks. */
  function Payloads(items: seq<Item>, group: seq<string>): seq<string> {
    if items == [] then Flush(group)
    else
      match items[0]
      case Blank(_) => Flush(group) + Payloads(items[1..], [])
      case Data(text, _, _) => Payloads(items[1..], group + [text])
      case Skipped(_, _) => Payloads(items[1..], group)
  }

  lemma ItemLine(item: Item, rest: string)
    requires item.Valid()
    ensures Lines(item.Text() + (if item.crlf then ['\r', '\n'] else ['\n']) + rest) == [item.Text()] + Lines(rest)
  {
    if item.crlf {
      var text := item.Text() + ['\r'];
      assert item.Text() + ['\r', '\n'] + rest == text + ['\n'] + rest;
      LinesCons(text, rest);
      assert DropCR(text) == item.Text();
    } else {
      LinesCons(item.Text(), rest);
    }
  }

  lemma DataText(item: Item)
    requires item.Valid() && item.Data?
    ensures HasPrefix(item.Text(), "data:") && DataOf(item.Text()) == item.text
  {
    var t := item.Text();
    assert t[..5] == "data:";
    assert t[5..] == (if item.space then " " else "") + item.text;
    if item.space { assert t[5..][..1] == " " && t[5..][1..] == item.text; }
  }

  lemma BlankOrNot(item: Item)
    requires item.Valid()
    ensures item.Text() == "" <==> item.Blank?
    ensures HasPrefix(item.Text(), "data:") <==> item.Data?
  {
    if item.Data? { DataText(item); }
  }

  /** The first line of a stream and what follows it. */
  lemma FirstLine(items: seq<Item>, open: bool)
    requires ValidStream(items, open) && items != []
    ensures Lines(Render(items, open)) == [items[0].Text()] + Lines(Render(items[1..], open))
    ensures ValidStream(items[1..], open)
  {
    BlankOrNot(items[0]);
    if open && |items| == 1 {
      LinesLast(items[0].Text());
    } else {
      ItemLine(items[0], Render(items[1..], open));
    }
  }

  /**
   The reader recovers what the server wrote: whatever valid lines the stream
   is made of, with either line ending, with or without the space after the
   colon, with comments and other fields anywhere, and also when the stream ends
   in the middle of an event or of a line.
   */
  lemma {:induction false} ReaderRecovers(items: seq<Item>, open: bool, group: seq<string>)
    requires ValidStream(items, open)
    ensures Events(Lines(Render(items, open)), group) == Payloads(items, group)
    decreases |items|
  {
    hide Flush, Lines, Render;
    if items == [] {
      EmptyStream(open);
    } else {
      var item, rest := items[0], items[1..];
      FirstLine(items, open);
      BlankOrNot(item);
      assert ([item.Text()] + Lines(Render(rest, open)))[1..] == Lines(Render(rest, open));
      match item {
        case Data(text, _, _) => DataText(item); ReaderRecovers(rest, open, group + [text]);
        case Blank(_) => ReaderRecovers(rest, open, []);
        case Skipped(_, _) => ReaderRecovers(rest, open, group);
      }
    }
  }

  lemma EmptyStream(open: bool)
    ensures Lines(Render([], open)) == []
  {
  }

  // -------------------------------------------------------------- the round trip

  /** The lines of a payload: always at least one. */
  function Split(p: string): (parts: seq<string>)
    ensures parts != [] && forall i :: 0 <= i < |parts| ==> '\n' !in parts[i]
    decreases |p|
  {
    var n := FirstNewline(p);
    if n == |p| then [p] else [p[..n]] + Split(p[n + 1..])
  }

  lemma {:induction false} JoinSplit(p: string)
    ensures Join(Split(p)) == p
    decreases |p|
  {
    hide FirstNewline, Join, Split;
    var n := FirstNewline(p);
    SplitAt(p);
    if n < |p| {
      JoinSplit(p[n + 1..]);
      JoinCons(p[..n], Split(p[n + 1..]));
      CutAtNewline(p, n);
    } else {
      JoinOne(p);
    }
  }

  lemma SplitAt(p: string)
    ensures var n := FirstNewline(p); Split(p) == if n == |p| then [p] else [p[..n]] + Split(p[n + 1..])
  {
    hide FirstNewline;
  }

  lemma JoinOne(part: string)
    ensures Join([part]) == part
  {
  }

  lemma JoinCons(part: string, parts: seq<string>)
    requires parts != []
    ensures Join([part] + parts) == part + ['\n'] + Join(parts)
  {
    assert ([part] + parts)[1..] == parts;
  }

  lemma CutAtNewline(p: string, n: nat)
    requires n < |p| && p[n] == '\n'
    ensures p == p[..n] + ['\n'] + p[n + 1..]
  {
  }

  function DataLines(parts: seq<string>, crlf: bool): (items: seq<Item>)
    ensures |items| == |parts| && forall i :: 0 <= i < |parts| ==> items[i] == Data(parts[i], true, crlf)
  {
    seq(|parts|, i requires 0 <= i < |parts| => Data(parts[i], true, crlf))
  }

  /** A server's encoding of payloads: one data line per line, and a blank after each payload. */
  function Encode(payloads: seq<string>, crlf: bool): seq<Item> {
    if payloads == [] then [] else DataLines(Split(payloads[0]), crlf) + [Blank(crlf)] + Encode(payloads[1..], crlf)
  }

  lemma {:induction false} DataCollects(parts: seq<string>, crlf: bool, rest: seq<Item>, group: seq<string>)
    ensures Payloads(DataLines(parts, crlf) + rest, group) == Payloads(rest, group + parts)
    decreases |parts|
  {
    if parts == [] {
      assert DataLines(parts, crlf) + rest == rest && group + parts == group;
    } else {
      var items := DataLines(parts, crlf) + rest;
      assert items[1..] == DataLines(parts[1..], crlf) + rest;
      DataCollects(parts[1..], crlf, rest, group + [parts[0]]);
      assert group + [parts[0]] + parts[1..] == group + parts;
    }
  }

  lemma {:induction false} EncodeCarries(payloads: seq<string>, crlf: bool)
    ensures Payloads(Encode(payloads, crlf), []) == payloads
    decreases |payloads|
  {
    if payloads != [] {
      var parts, rest := Split(payloads[0]), Encode(payloads[1..], crlf);
      assert Encode(payloads, crlf) == DataLines(parts, crlf) + ([Blank(crlf)] + rest);
      DataCollects(parts, crlf, [Blank(crlf)] + rest, []);
      assert [] + parts == parts && ([Blank(crlf)] + rest)[1..] == rest;
      JoinSplit(payloads[0]);
      EncodeCarries(payloads[1..], crlf);
    }
  }

  /** No line of p ends in a carriage return, which a line ending of "\n" alone would lose. */
  predicate KeepsCR(p: string) {
    forall i :: 0 <= i < |Split(p)| ==> DropCR(Split(p)[i]) == Split(p)[i]
  }

  lemma DataLineIsValid(part: string, crlf: bool)
    requires '\n' !in part && (!crlf ==> DropCR(part) == part)
    ensures Data(part, true, crlf).Valid()
  {
    var t := Data(part, true, crlf).Text();
    assert t == "data: " + part;
    assert part != [] ==> t[|t| - 1] == part[|part| - 1];
  }

  /** A line of an encoding. */
  predicate Plain(item: Item, crlf: bool) {
    item.crlf == crlf && (item.Blank? || (item.Data? && item.space && '\n' !in item.text))
  }

  lemma {:induction false} EncodeIsPlain(payloads: seq<string>, crlf: bool)
    ensures forall i :: 0 <= i < |Encode(payloads, crlf)| ==> Plain(Encode(payloads, crlf)[i], crlf)
    decreases |payloads|
  {
    if payloads != [] { EncodeIsPlain(payloads[1..], crlf); }
  }

  // ------------------------------------------------- comments and other fields

  /** The items without those the reader skips. */
  function Strip(items: seq<Item>): seq<Item> {
    if items == [] then [] else (if items[0].Skipped? then [] else [items[0]]) + Strip(items[1..])
  }

  lemma {:induction false} StripKeeps(items: seq<Item>, i: nat)
    requires i < |items| && !items[i].Skipped?
    ensures items[i] in Strip(items)
  {
    if i > 0 { StripKeeps(items[1..], i - 1); }
  }

  lemma {:induction false} NothingToStrip(items: seq<Item>)
    requires forall i :: 0 <= i < |items| ==> !items[i].Skipped?
    ensures Strip(items) == items
  {
    if items != [] { NothingToStrip(items[1..]); }
  }

  lemma {:induction false} StripCarries(items: seq<Item>, group: seq<string>)
    ensures Payloads(items, group) == Payloads(Strip(items), group)
    decreases |items|
  {
    hide Flush;
    if items != [] {
      var rest := items[1..];
      if items[0].Skipped? {
        assert Strip(items) == Strip(rest);
      } else {
        assert Strip(items)[1..] == Strip(rest);
      }
      match items[0] {
        case Blank(_) => StripCarries(rest, []);
        case Data(text, _, _) => StripCarries(rest, group + [text]);
        case Skipped(_, _) => StripCarries(rest, group);
      }
    }
  }

  /** An encoding of payloads with lines that the reader skips anywhere in it. */
  ghost predicate Interleaves(items: seq<Item>, payloads: seq<string>, crlf: bool) {
    Strip(items) == Encode(payloads, crlf) && forall i :: 0 <= i < |items| && items[i].Skipped? ==> items[i].Valid()
  }

  lemma InterleavedItem(items: seq<Item>, payloads: seq<string>, crlf: bool, i: nat)
    requires Interleaves(items, payloads, crlf) && i < |items|
    ensures if items[i].Skipped? then items[i].Valid() else Plain(items[i], crlf)
  {
    hide Plain, Strip, Encode;
    EncodeIsPlain(payloads, crlf);
    if !items[i].Skipped? { StripKeeps(items, i); }
  }

  lemma InterleavedIsValid(items: seq<Item>, payloads: seq<string>)
    requires Interleaves(items, payloads, true)
    ensures ValidStream(items, false)
  {
    hide Interleaves;
    forall i | 0 <= i < |items| ensures items[i].Valid() {
      InterleavedItem(items, payloads, true, i);
      if items[i].Data? { DataLineIsValid(items[i].text, true); }
    }
  }

  // ------------------------------------------- carriage returns at line ends

  function Dropped(parts: seq<string>): (r: seq<string>)
    ensures |r| == |parts| && forall i :: 0 <= i < |parts| ==> r[i] == DropCR(parts[i])
  {
    seq(|parts|, i requires 0 <= i < |parts| => DropCR(parts[i]))
  }

  /** A payload after each of its lines has lost a final carriage return. */
  function Received(p: string): string {
    Join(Dropped(Split(p)))
  }

  lemma {:induction false} DroppedIsShorter(parts: seq<string>)
    ensures |Join(Dropped(parts))| <= |Join(parts)|
    ensures |Join(Dropped(parts))| == |Join(parts)| <==> Dropped(parts) == parts
    decreases |parts|
  {
    if |parts| >= 1 {
      assert Dropped(parts)[1..] == Dropped(parts[1..]);
      DroppedIsShorter(parts[1..]);
      assert Dropped(parts) == [DropCR(parts[0])] + Dropped(parts[1..]) && parts == [parts[0]] + parts[1..];
    }
  }

  lemma ReceivedIff(p: string)
    ensures Received(p) == p <==> KeepsCR(p)
  {
    JoinSplit(p);
    DroppedIsShorter(Split(p));
  }

  /** The item that the reader takes the line of part for. */
  function Seen(part: string): Item {
    Data(DropCR(part), true, DropCR(part) != part)
  }

  function SeenLines(parts: seq<string>): (items: seq<Item>)
    ensures |items| == |parts| && forall i :: 0 <= i < |parts| ==> items[i] == Seen(parts[i])
  {
    seq(|parts|, i requires 0 <= i < |parts| => Seen(parts[i]))
  }

  function SeenEncode(payloads: seq<string>): seq<Item> {
    if payloads == [] then [] else SeenLines(Split(payloads[0])) + [Blank(false)] + SeenEncode(payloads[1..])
  }

  function LineOf(item: Item): string {
    item.Text() + if item.crlf then ['\r', '\n'] else ['\n']
  }

  lemma SeenIsWritten(part: string)
    requires '\n' !in part
    ensures LineOf(Seen(part)) == LineOf(Data(part, true, false)) && Seen(part).Valid()
  {
    if DropCR(part) != part {
      assert part == DropCR(part) + ['\r'];
      DataLineIsValid(DropCR(part), true);
    } else {
      DataLineIsValid(part, false);
    }
  }

  lemma {:induction false} SameRender(items: seq<Item>, items': seq<Item>)
    requires |items| == |items'| && forall i :: 0 <= i < |items| ==> LineOf(items[i]) == LineOf(items'[i])
    ensures Render(items, false) == Render(items', false)
    decreases |items|
  {
    if items != [] {
      assert LineOf(items[0]) == LineOf(items'[0]);
      SameRender(items[1..], items'[1..]);
    }
  }

  function SeenItem(item: Item): Item {
    if item.Data? then Seen(item.text) else item
  }

  function SeenAll(items: seq<Item>): (seen: seq<Item>)
    ensures |seen| == |items| && forall i :: 0 <= i < |items| ==> seen[i] == SeenItem(items[i])
  {
    seq(|items|, i requires 0 <= i < |items| => SeenItem(items[i]))
  }

  /** The reader takes an interleaved encoding for items that lose nothing. */
  lemma SeenIsValid(items: seq<Item>, payloads: seq<string>)
    requires Interleaves(items, payloads, false)
    ensures ValidStream(SeenAll(items), false) && Render(SeenAll(items), false) == Render(items, false)
  {
    hide Interleaves, LineOf, Render;
    var seen := SeenAll(items);
    forall i | 0 <= i < |items| ensures seen[i].Valid() && LineOf(seen[i]) == LineOf(items[i]) {
      InterleavedItem(items, payloads, false, i);
      if items[i].Data? { SeenIsWritten(items[i].text); }
    }
    SameRender(seen, items);
  }

  lemma {:induction false} SeenStrip(items: seq<Item>)
    ensures Strip(SeenAll(items)) == SeenAll(Strip(items))
    decreases |items|
  {
    if items != [] {
      SeenStrip(items[1..]);
      assert SeenAll(items)[1..] == SeenAll(items[1..]);
      assert SeenItem(items[0]).Skipped? <==> items[0].Skipped?;
      if !items[0].Skipped? {
        assert SeenAll(Strip(items)) == [SeenItem(items[0])] + SeenAll(Strip(items[1..]));
      }
    }
  }

  lemma {:induction false} SeenOfEncode(payloads: seq<string>)
    ensures SeenAll(Encode(payloads, false)) == SeenEncode(payloads)
    decreases |payloads|
  {
    hide Seen;
    if payloads != [] {
      SeenOfEncode(payloads[1..]);
      var parts, rest := Split(payloads[0]), Encode(payloads[1..], false);
      assert SeenAll(DataLines(parts, false)) == SeenLines(parts);
      assert SeenAll(DataLines(parts, false) + [Blank(false)] + rest)
          == SeenAll(DataLines(parts, false)) + [Blank(false)] + SeenAll(rest);
    }
  }

  lemma {:induction false} SeenCollects(parts: seq<string>, rest: seq<Item>, group: seq<string>)
    ensures Payloads(SeenLines(parts) + rest, group) == Payloads(rest, group + Dropped(parts))
    decreases |parts|
  {
    if parts == [] {
      assert SeenLines(parts) + rest == rest && group + Dropped(parts) == group;
    } else {
      var items := SeenLines(parts) + rest;
      assert items[1..] == SeenLines(parts[1..]) + rest;
      SeenCollects(parts[1..], rest, group + [DropCR(parts[0])]);
      assert group + [DropCR(parts[0])] + Dropped(parts[1..]) == group + Dropped(parts);
    }
  }

  function AllReceived(payloads: seq<string>): (r: seq<string>)
    ensures |r| == |payloads| && forall i :: 0 <= i < |payloads| ==> r[i] == Received(payloads[i])
  {
    seq(|payloads|, i requires 0 <= i < |payloads| => Received(payloads[i]))
  }

  lemma {:induction false} SeenCarries(payloads: seq<string>)
    ensures Payloads(SeenEncode(payloads), []) == AllReceived(payloads)
    decreases |payloads|
  {
    if payloads != [] {
      var parts, rest := Split(payloads[0]), SeenEncode(payloads[1..]);
      assert SeenEncode(payloads) == SeenLines(parts) + ([Blank(false)] + rest);
      SeenCollects(parts, [Blank(false)] + rest, []);
      assert [] + Dropped(parts) == Dropped(parts) && ([Blank(false)] + rest)[1..] == rest;
      SeenCarries(payloads[1..]);
      assert AllReceived(payloads) == [Received(payloads[0])] + AllReceived(payloads[1..]);
    }
  }

  lemma EncodeIsInterleaved(payloads: seq<string>, crlf: bool)
    ensures Interleaves(Encode(payloads, crlf), payloads, crlf)
  {
    hide Encode, Strip;
    EncodeIsPlain(payloads, crlf);
    NothingToStrip(Encode(payloads, crlf));
  }

  /**
   The round trip. With "\r\n" endings every payload, empty ones and ones of
   several lines included, arrives as it was sent. With "\n" endings the payloads
   arrive as sent if and only if no line of any of them ends in a carriage
   return. Comments and other fields may stand anywhere between the lines.
   */
  lemma RoundTrip(items: seq<Item>, payloads: seq<string>, crlf: bool)
    requires Interleaves(items, payloads, crlf)
    ensures Events(Lines(Render(items, false)), []) == payloads
      <==> (crlf || forall i :: 0 <= i < |payloads| ==> KeepsCR(payloads[i]))
  {
    hide Events, Payloads, Lines, Render, Encode, SeenEncode, KeepsCR, ValidStream, Received, Strip;
    if crlf {
      InterleavedIsValid(items, payloads);
      ReaderRecovers(items, false, []);
      StripCarries(items, []);
      EncodeCarries(payloads, crlf);
    } else {
      SeenIsValid(items, payloads);
      ReaderRecovers(SeenAll(items), false, []);
      StripCarries(SeenAll(items), []);
      SeenStrip(items);
      SeenOfEncode(payloads);
      SeenCarries(payloads);
      forall i | 0 <= i < |payloads| ensures AllReceived(payloads)[i] == payloads[i] <==> KeepsCR(payloads[i]) {
        ReceivedIff(payloads[i]);
      }
    }
  }
}
