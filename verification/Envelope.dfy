/** The Sentry envelope: a header line, then items whose payload is framed by a
    byte count or by the next newline. */
module Envelope {

  datatype Option<+T> = None | Some(value: T)

  newtype byte = x: int | 0 <= x < 256

  type Bytes = seq<byte>

  const NL: byte := 10

  /** What the rest of the hub reads from an item header line. */
  datatype ItemHeader = ItemHeader(kind: string, length: Option<int>)

  /** The JSON decoders, the white-space test, and the largest slice the
      runtime allocates. */
  datatype Library<E> = Library(
    header: Bytes -> bool, item: Bytes -> Option<ItemHeader>, event: Bytes -> Option<E>,
    blank: Bytes -> bool, maxAlloc: int)

  datatype Outcome<E> = Parsed(events: seq<E>) | Failed | Panicked

  // ----------------------------------------------------------------- framing

  /** The bytes before the first newline, and those after it. */
  function TakeLine(s: Bytes): (r: (Bytes, Bytes))
    ensures |r.1| <= |s| && (s != [] ==> |r.1| < |s|)
  {
    if s == [] then ([], [])
    else if s[0] == NL then ([], s[1..])
    else ([s[0]] + TakeLine(s[1..]).0, TakeLine(s[1..]).1)
  }

  lemma {:induction false} TakeLineSplits(s: Bytes)
    ensures NL !in TakeLine(s).0
    ensures if NL in s then s == TakeLine(s).0 + [NL] + TakeLine(s).1 else TakeLine(s) == (s, [])
  {
    if s != [] {
      assert s == [s[0]] + s[1..];
      if s[0] != NL { TakeLineSplits(s[1..]); }
    }
  }

  function DropNewline(s: Bytes): (r: Bytes)
    ensures |r| <= |s|
  {
    if s != [] && s[0] == NL then s[1..] else s
  }

  /** The payload and the bytes after it; None when too few bytes are left. */
  function TakePayload(s: Bytes, length: Option<int>): (r: Option<(Bytes, Bytes)>)
    requires length.Some? ==> length.value >= 0
    ensures r.Some? ==> |r.value.1| <= |s|
  {
    match length
    case None => Some(TakeLine(s))
    case Some(n) => if |s| < n then None else Some((s[..n], DropNewline(s[n..])))
  }

  function EventIn<E>(lib: Library<E>, kind: string, payload: Bytes): seq<E> {
    if kind != "event" then []
    else match lib.event(payload)
      case None => []
      case Some(e) => [e]
  }

  function Prepend<E>(events: seq<E>, rest: Outcome<E>): Outcome<E> {
    if rest.Parsed? then Parsed(events + rest.events) else rest
  }

  predicate Allocates<E>(lib: Library<E>, length: Option<int>) {
    length.Some? ==> 0 <= length.value <= lib.maxAlloc
  }

  /** The items from here to the end of the body. */
  function ParseItems<E>(lib: Library<E>, s: Bytes): Outcome<E>
    decreases |s|
  {
    if s == [] then Parsed([])
    else
      var (line, after) := TakeLine(s);
      if lib.blank(line) then ParseItems(lib, after)
      else match lib.item(line)
        case None => Failed
        case Some(ih) =>
          if !Allocates(lib, ih.length) then Panicked
          else match TakePayload(after, ih.length)
            case None => Failed
            case Some((payload, rest)) => Prepend(EventIn(lib, ih.kind, payload), ParseItems(lib, rest))
  }

  function ParseEnvelope<E>(lib: Library<E>, body: Bytes): Outcome<E> {
    if body == [] || !lib.header(TakeLine(body).0) then Failed else ParseItems(lib, TakeLine(body).1)
  }

  // ------------------------------------------------------------------ printer

  datatype Payload = Sized(data: Bytes, newline: bool) | Line(data: Bytes)

  datatype Part = Blank(line: Bytes) | Item(header: Bytes, payload: Payload)

  /** How the body ends: after a complete part, or with a line left open. */
  datatype Tail = Closed | OpenBlank(line: Bytes) | OpenHeader(header: Bytes) | OpenLine(header: Bytes, data: Bytes)

  function PrintPart(p: Part): Bytes {
    match p
    case Blank(line) => line + [NL]
    case Item(header, Sized(data, newline)) => header + [NL] + data + if newline then [NL] else []
    case Item(header, Line(data)) => header + [NL] + data + [NL]
  }

  function PrintTail(t: Tail): Bytes {
    match t
    case Closed => []
    case OpenBlank(line) => line
    case OpenHeader(header) => header
    case OpenLine(header, data) => header + [NL] + data
  }

  function Print(parts: seq<Part>, tail: Tail): Bytes {
    if parts == [] then PrintTail(tail) else PrintPart(parts[0]) + Print(parts[1..], tail)
  }

  /** A header line that frames its payload by `length`. */
  predicate Frames<E>(lib: Library<E>, header: Bytes, length: Option<int>) {
    && NL !in header && !lib.blank(header)
    && lib.item(header).Some? && lib.item(header).value.length == length
    && (length.Some? ==> 0 <= length.value <= lib.maxAlloc)
  }

  predicate GoodPart<E>(lib: Library<E>, p: Part) {
    match p
    case Blank(line) => NL !in line && lib.blank(line)
    case Item(header, Sized(data, _)) => Frames(lib, header, Some(|data|))
    case Item(header, Line(data)) => Frames(lib, header, None) && NL !in data
  }

  predicate GoodTail<E>(lib: Library<E>, t: Tail) {
    match t
    case Closed => true
    case OpenBlank(line) => line != [] && NL !in line && lib.blank(line)
    case OpenHeader(header) => header != [] && (Frames(lib, header, None) || Frames(lib, header, Some(0)))
    case OpenLine(header, data) => Frames(lib, header, None) && NL !in data
  }

  predicate Good<E>(lib: Library<E>, parts: seq<Part>, tail: Tail) {
    GoodTail(lib, tail) && forall i :: 0 <= i < |parts| ==> GoodPart(lib, parts[i])
  }

  function KindOf<E>(lib: Library<E>, header: Bytes): string {
    if lib.item(header).Some? then lib.item(header).value.kind else ""
  }

  /** The event an item carries: only one of type "event" whose payload decodes. */
  function Carried<E>(lib: Library<E>, header: Bytes, data: Bytes): seq<E> {
    if KindOf(lib, header) == "event" && lib.event(data).Some? then [lib.event(data).value] else []
  }

  function PartEvents<E>(lib: Library<E>, p: Part): seq<E> {
    match p
    case Blank(_) => []
    case Item(header, payload) => Carried(lib, header, payload.data)
  }

  function TailEvents<E>(lib: Library<E>, t: Tail): seq<E> {
    match t
    case Closed => []
    case OpenBlank(_) => []
    case OpenHeader(header) => Carried(lib, header, [])
    case OpenLine(header, data) => Carried(lib, header, data)
  }

  /** The decodable event payloads, in order. */
  function Events<E>(lib: Library<E>, parts: seq<Part>, tail: Tail): seq<E> {
    if parts == [] then TailEvents(lib, tail) else PartEvents(lib, parts[0]) + Events(lib, parts[1..], tail)
  }

  // -------------------------------------------------------------- round trip

  lemma {:induction false} TakeLineOf(line: Bytes, rest: Bytes)
    requires NL !in line
    ensures TakeLine(line + [NL] + rest) == (line, rest)
    ensures TakeLine(line) == (line, [])
  {
    if line == [] {
      assert line + [NL] + rest == [NL] + rest;
    } else {
      TakeLineOf(line[1..], rest);
      assert (line + [NL] + rest)[1..] == line[1..] + [NL] + rest;
      assert [line[0]] + line[1..] == line;
    }
  }

  /** A stray newline is a blank line. */
  lemma NewlineIsBlank<E>(lib: Library<E>, s: Bytes)
    requires lib.blank([])
    ensures ParseItems(lib, DropNewline(s)) == ParseItems(lib, s)
  {
    if s != [] && s[0] == NL {
      assert TakeLine(s) == ([], s[1..]);
    }
  }

  lemma PrependNone<E>(o: Outcome<E>)
    ensures Prepend([], o) == o
  {
    if o.Parsed? { assert [] + o.events == o.events; }
  }

  /** One item, once its payload has been framed. */
  lemma ParseItem<E>(lib: Library<E>, header: Bytes, length: Option<int>, after: Bytes, payload: Bytes, rest: Bytes)
    requires Frames(lib, header, length) && TakePayload(after, length) == Some((payload, rest))
    ensures ParseItems(lib, header + [NL] + after)
            == Prepend(EventIn(lib, KindOf(lib, header), payload), ParseItems(lib, rest))
  {
    TakeLineOf(header, after);
    assert header + [NL] + after != [];
  }

  lemma TakeSized(data: Bytes, newline: bool, rest: Bytes)
    ensures TakePayload(data + (if newline then [NL] else []) + rest, Some(|data|))
            == Some((data, if newline then rest else DropNewline(rest)))
  {
    var after := data + (if newline then [NL] else []) + rest;
    assert after[..|data|] == data;
    assert after[|data|..] == (if newline then [NL] + rest else rest);
    assert ([NL] + rest)[1..] == rest;
  }

  lemma ParsePart<E>(lib: Library<E>, p: Part, rest: Bytes)
    requires lib.blank([]) && GoodPart(lib, p)
    ensures ParseItems(lib, PrintPart(p) + rest) == Prepend(PartEvents(lib, p), ParseItems(lib, rest))
  {
    match p {
      case Blank(line) =>
        TakeLineOf(line, rest);
        assert line + [NL] + rest != [];
        PrependNone(ParseItems(lib, rest));
      case Item(header, Sized(data, newline)) =>
        var after := data + (if newline then [NL] else []) + rest;
        assert PrintPart(p) + rest == header + [NL] + after;
        TakeSized(data, newline, rest);
        ParseItem(lib, header, Some(|data|), after, data, if newline then rest else DropNewline(rest));
        NewlineIsBlank(lib, rest);
      case Item(header, Line(data)) =>
        var after := data + [NL] + rest;
        assert PrintPart(p) + rest == header + [NL] + after;
        TakeLineOf(data, rest);
        ParseItem(lib, header, None, after, data, rest);
    }
  }

  lemma ParseTail<E>(lib: Library<E>, t: Tail)
    requires GoodTail(lib, t)
    ensures ParseItems(lib, PrintTail(t)) == Parsed(TailEvents(lib, t))
  {
    match t {
      case Closed =>
      case OpenBlank(line) => TakeLineOf(line, []);
      case OpenHeader(header) => TakeLineOf(header, []);
      case OpenLine(header, data) =>
        TakeLineOf(header, data);
        TakeLineOf(data, []);
    }
  }

  /** Parsing what was printed gives back exactly the decodable events. */
  lemma {:induction false} ItemsRoundTrip<E>(lib: Library<E>, parts: seq<Part>, tail: Tail)
    requires lib.blank([]) && Good(lib, parts, tail)
    ensures ParseItems(lib, Print(parts, tail)) == Parsed(Events(lib, parts, tail))
  {
    if parts == [] {
      ParseTail(lib, tail);
    } else {
      ItemsRoundTrip(lib, parts[1..], tail);
      ParsePart(lib, parts[0], Print(parts[1..], tail));
    }
  }

  // ---------------------------------------------------------------- converse

  /** The parts and the tail a parse walks through. */
  function Walk<E>(lib: Library<E>, s: Bytes): (r: (seq<Part>, Tail))
    requires ParseItems(lib, s).Parsed?
    decreases |s|
  {
    if s == [] then ([], Closed)
    else
      var (line, after) := TakeLine(s);
      if lib.blank(line) then
        if NL !in s then ([], OpenBlank(line))
        else
          var (parts, tail) := Walk(lib, after);
          ([Blank(line)] + parts, tail)
      else if NL !in s then ([], OpenHeader(line))
      else
        var ih := lib.item(line).value;
        if ih.length.None? && NL !in after then ([], OpenLine(line, after))
        else
          var (payload, rest) := TakePayload(after, ih.length).value;
          var (parts, tail) := Walk(lib, rest);
          ([Item(line, Framed(ih.length, after, payload, rest))] + parts, tail)
  }

  lemma GoodCons<E>(lib: Library<E>, p: Part, parts: seq<Part>, tail: Tail)
    requires GoodPart(lib, p) && Good(lib, parts, tail)
    ensures Good(lib, [p] + parts, tail) && Print([p] + parts, tail) == PrintPart(p) + Print(parts, tail)
  {
    assert ([p] + parts)[1..] == parts;
  }

  /** The payload as the walk records it. */
  function Framed(length: Option<int>, after: Bytes, payload: Bytes, rest: Bytes): Payload {
    if length.None? then Line(payload) else Sized(payload, |payload| + |rest| < |after|)
  }

  lemma SizedSplits(after: Bytes, n: nat)
    requires n <= |after|
    ensures var rest := DropNewline(after[n..]);
            after == after[..n] + (if n + |rest| < |after| then [NL] else []) + rest
  {
    var left := after[n..];
    assert after == after[..n] + left;
    if left != [] && left[0] == NL { assert left == [NL] + left[1..]; }
  }

  lemma WalkItem<E>(lib: Library<E>, line: Bytes, after: Bytes, ih: ItemHeader, payload: Bytes, rest: Bytes)
    requires NL !in line && !lib.blank(line) && lib.item(line) == Some(ih) && Allocates(lib, ih.length)
    requires ih.length.None? ==> NL in after
    requires TakePayload(after, ih.length) == Some((payload, rest))
    ensures var p := Item(line, Framed(ih.length, after, payload, rest));
            GoodPart(lib, p) && line + [NL] + after == PrintPart(p) + rest
  {
    if ih.length.None? {
      TakeLineSplits(after);
      assert line + [NL] + (payload + [NL] + rest) == line + [NL] + payload + [NL] + rest;
    } else {
      SizedSplits(after, ih.length.value);
      var end: Bytes := if |payload| + |rest| < |after| then [NL] else [];
      assert line + [NL] + (payload + end + rest) == line + [NL] + payload + end + rest;
    }
  }

  /** Whatever parses is the print of a well-formed envelope. */
  lemma {:induction false} WalkPrints<E>(lib: Library<E>, s: Bytes)
    requires ParseItems(lib, s).Parsed?
    ensures var (parts, tail) := Walk(lib, s); Good(lib, parts, tail) && Print(parts, tail) == s
    decreases |s|
  {
    if s != [] {
      var (line, after) := TakeLine(s);
      TakeLineSplits(s);
      TakeLineSplits(after);
      if NL in s {
        if lib.blank(line) {
          WalkPrints(lib, after);
          GoodCons(lib, Blank(line), Walk(lib, after).0, Walk(lib, after).1);
        } else {
          var ih := lib.item(line).value;
          if !(ih.length.None? && NL !in after) {
            var (payload, rest) := TakePayload(after, ih.length).value;
            WalkItem(lib, line, after, ih, payload, rest);
            WalkPrints(lib, rest);
            GoodCons(lib, Item(line, Framed(ih.length, after, payload, rest)), Walk(lib, rest).0, Walk(lib, rest).1);
          }
        }
      }
    }
  }

  /** A whole envelope: header line, parts, tail; `open` when the body ends
      inside the header line. */
  predicate IsEnvelope<E>(lib: Library<E>, body: Bytes, head: Bytes, parts: seq<Part>, tail: Tail) {
    && NL !in head && lib.header(head) && Good(lib, parts, tail)
    && (body == head + [NL] + Print(parts, tail) || (body == head && head != [] && parts == [] && tail == Closed))
  }

  /** Round trip: the printed envelope parses to its decodable events. */
  lemma EnvelopeRoundTrip<E>(lib: Library<E>, body: Bytes, head: Bytes, parts: seq<Part>, tail: Tail)
    requires lib.blank([]) && IsEnvelope(lib, body, head, parts, tail)
    ensures ParseEnvelope(lib, body) == Parsed(Events(lib, parts, tail))
  {
    TakeLineOf(head, Print(parts, tail));
    ItemsRoundTrip(lib, parts, tail);
  }

  /** A body is accepted if and only if it is a well-formed envelope. */
  lemma AcceptedIffEnvelope<E>(lib: Library<E>, body: Bytes)
    requires lib.blank([])
    ensures ParseEnvelope(lib, body).Parsed? <==> exists head, parts, tail :: IsEnvelope(lib, body, head, parts, tail)
  {
    if ParseEnvelope(lib, body).Parsed? {
      var (head, after) := TakeLine(body);
      TakeLineSplits(body);
      WalkPrints(lib, after);
      var (parts, tail) := Walk(lib, after);
      assert IsEnvelope(lib, body, head, parts, tail);
    }
    if head, parts, tail :| IsEnvelope(lib, body, head, parts, tail) {
      EnvelopeRoundTrip(lib, body, head, parts, tail);
    }
  }

  /** A part that carries no decodable event: a blank line, another item type,
      or an event whose payload does not decode. */
  predicate Silent<E>(lib: Library<E>, p: Part) {
    p.Item? ==> KindOf(lib, p.header) != "event" || lib.event(p.payload.data) == None
  }

  lemma Regroup<E>(x: seq<E>, y: seq<E>, z: seq<E>)
    ensures x + (y + z) == x + y + z
  {
  }

  lemma {:induction false} EventsSplit<E>(lib: Library<E>, a: seq<Part>, b: seq<Part>, tail: Tail)
    ensures Events(lib, a + b, tail) == Events(lib, a, Closed) + Events(lib, b, tail)
  {
    if a == [] {
      assert a + b == b;
    } else {
      EventsSplit(lib, a[1..], b, tail);
      assert (a + b)[1..] == a[1..] + b && (a + b)[0] == a[0];
      Regroup(PartEvents(lib, a[0]), Events(lib, a[1..], Closed), Events(lib, b, tail));
    }
  }

  lemma EventsSkip<E>(lib: Library<E>, a: seq<Part>, p: Part, b: seq<Part>, tail: Tail)
    requires Silent(lib, p)
    ensures Events(lib, a + ([p] + b), tail) == Events(lib, a + b, tail)
  {
    EventsSplit(lib, a, [p] + b, tail);
    EventsSplit(lib, a, b, tail);
    assert ([p] + b)[1..] == b;
    assert [] + Events(lib, b, tail) == Events(lib, b, tail);
  }

  lemma GoodSkip<E>(lib: Library<E>, a: seq<Part>, p: Part, b: seq<Part>, tail: Tail)
    requires Good(lib, a + ([p] + b), tail)
    ensures Good(lib, a + b, tail)
  {
    var full, cut := a + ([p] + b), a + b;
    forall i | 0 <= i < |cut| ensures GoodPart(lib, cut[i]) {
      assert GoodPart(lib, full[if i < |a| then i else i + 1]);
    }
  }

  /** Adding or removing such a part anywhere changes nothing. */
  lemma SilentPartChangesNothing<E>(lib: Library<E>, head: Bytes, a: seq<Part>, p: Part, b: seq<Part>, tail: Tail)
    requires lib.blank([]) && NL !in head && lib.header(head)
    requires Good(lib, a + ([p] + b), tail) && Silent(lib, p)
    ensures ParseEnvelope(lib, head + [NL] + Print(a + ([p] + b), tail))
            == ParseEnvelope(lib, head + [NL] + Print(a + b, tail))
  {
    GoodSkip(lib, a, p, b, tail);
    EventsSkip(lib, a, p, b, tail);
    EnvelopeRoundTrip(lib, head + [NL] + Print(a + ([p] + b), tail), head, a + ([p] + b), tail);
    EnvelopeRoundTrip(lib, head + [NL] + Print(a + b, tail), head, a + b, tail);
  }

  // ------------------------------------------------------------------ failure

  /** A header line whose length no slice can have: the code does not check
      the sign, and neither does it bound the size. */
  predicate BadLength<E>(lib: Library<E>, header: Bytes) {
    NL !in header && !lib.blank(header) && lib.item(header).Some?
    && lib.item(header).value.length.Some? && !(0 <= lib.item(header).value.length.value <= lib.maxAlloc)
  }

  /** Well-formed parts, then such a header line, then anything. */
  predicate Breaks<E>(lib: Library<E>, s: Bytes, parts: seq<Part>, header: Bytes, more: Bytes) {
    && Good(lib, parts, Closed) && BadLength(lib, header)
    && (s == Print(parts, Closed) + (header + [NL] + more) || (header != [] && s == Print(parts, Closed) + header))
  }

  lemma BadLengthPanics<E>(lib: Library<E>, header: Bytes, more: Bytes)
    requires BadLength(lib, header)
    ensures ParseItems(lib, header + [NL] + more).Panicked? && (header != [] ==> ParseItems(lib, header).Panicked?)
  {
    TakeLineOf(header, more);
    assert header + [NL] + more != [];
  }

  lemma {:induction false} PartsThenPanic<E>(lib: Library<E>, parts: seq<Part>, rest: Bytes)
    requires lib.blank([]) && Good(lib, parts, Closed) && ParseItems(lib, rest).Panicked?
    ensures ParseItems(lib, Print(parts, Closed) + rest).Panicked?
  {
    if parts == [] {
      assert Print(parts, Closed) + rest == rest;
    } else {
      PartsThenPanic(lib, parts[1..], rest);
      ParsePart(lib, parts[0], Print(parts[1..], Closed) + rest);
      assert Print(parts, Closed) + rest == PrintPart(parts[0]) + (Print(parts[1..], Closed) + rest);
    }
  }

  lemma BreaksCons<E>(lib: Library<E>, p: Part, rest: Bytes, parts: seq<Part>, header: Bytes, more: Bytes)
    requires GoodPart(lib, p) && Breaks(lib, rest, parts, header, more)
    ensures Breaks(lib, PrintPart(p) + rest, [p] + parts, header, more)
  {
    GoodCons(lib, p, parts, Closed);
    var text := Print(parts, Closed);
    Regroup(PrintPart(p), text, header + [NL] + more);
    Regroup(PrintPart(p), text, header);
  }

  lemma BreaksHere<E>(lib: Library<E>, s: Bytes)
    requires s != [] && BadLength(lib, TakeLine(s).0)
    ensures Breaks(lib, s, [], TakeLine(s).0, TakeLine(s).1)
  {
    TakeLineSplits(s);
    var (header, more) := TakeLine(s);
    var none: Bytes := [];
    assert none + (header + [NL] + more) == header + [NL] + more && none + header == header;
  }

  lemma {:induction false} PanicBreaks<E>(lib: Library<E>, s: Bytes)
      returns (parts: seq<Part>, header: Bytes, more: Bytes)
    requires ParseItems(lib, s).Panicked?
    ensures Breaks(lib, s, parts, header, more)
    decreases |s|
  {
    var (line, after) := TakeLine(s);
    TakeLineSplits(s);
    if lib.blank(line) {
      parts, header, more := PanicBreaks(lib, after);
      BreaksCons(lib, Blank(line), after, parts, header, more);
      parts := [Blank(line)] + parts;
    } else {
      var ih := lib.item(line).value;
      if !Allocates(lib, ih.length) {
        BreaksHere(lib, s);
        return [], line, after;
      }
      var (payload, rest) := TakePayload(after, ih.length).value;
      parts, header, more := PanicBreaks(lib, rest);
      TakeLineSplits(after);
      WalkItem(lib, line, after, ih, payload, rest);
      var p := Item(line, Framed(ih.length, after, payload, rest));
      BreaksCons(lib, p, rest, parts, header, more);
      parts := [p] + parts;
    }
  }

  /** Tolerance has a hole: the parse crashes on a body if and only if, after a
      good header line and some well-formed parts, it reaches an item header
      whose declared length is negative or too large to allocate. */
  lemma PanicsIffBadLength<E>(lib: Library<E>, body: Bytes)
    requires lib.blank([])
    ensures ParseEnvelope(lib, body).Panicked? <==>
              && body != [] && lib.header(TakeLine(body).0)
              && exists parts, header, more :: Breaks(lib, TakeLine(body).1, parts, header, more)
  {
    if ParseEnvelope(lib, body).Panicked? {
      var parts, header, more := PanicBreaks(lib, TakeLine(body).1);
    }
    if parts, header, more :| Breaks(lib, TakeLine(body).1, parts, header, more) {
      BadLengthPanics(lib, header, more);
      PartsThenPanic(lib, parts, header + [NL] + more);
      if header != [] { PartsThenPanic(lib, parts, header); }
    }
  }

  /** `{"length":-1}` */
  const MINUS_ONE_ITEM: Bytes := [123, 34, 108, 101, 110, 103, 116, 104, 34, 58, 45, 49, 125]

  /** A body that crashes the parser under every decoder that reads `{}` as a
      header and `{"length":-1}` as an item of that length: those two lines. */
  lemma NegativeLengthPanics<E>(lib: Library<E>, kind: string)
    requires lib.header([123, 125]) && !lib.blank(MINUS_ONE_ITEM)
    requires lib.item(MINUS_ONE_ITEM) == Some(ItemHeader(kind, Some(-1)))
    ensures ParseEnvelope(lib, [123, 125] + [NL] + MINUS_ONE_ITEM).Panicked?
  {
    TakeLineOf([123, 125], MINUS_ONE_ITEM);
    BadLengthPanics(lib, MINUS_ONE_ITEM, []);
  }

  // --------------------------------------------------------------- the reader

  /** A buffered reader over the body: its position only moves forward. */
  class Reader {
    const body: Bytes
    var pos: nat

    constructor (body: Bytes)
      ensures this.body == body && pos == 0 && Valid() && Left() == body
    {
      this.body := body;
      pos := 0;
    }

    ghost predicate Valid()
      reads this
    {
      pos <= |body|
    }

    ghost function Left(): Bytes
      requires Valid()
      reads this
    {
      body[pos..]
    }

    /** None at the end of the body. */
    method ReadLine() returns (line: Option<Bytes>)
      requires Valid()
      modifies this
      ensures Valid() && pos >= old(pos)
      ensures if old(Left()) == [] then line == None && Left() == []
              else line == Some(TakeLine(old(Left())).0) && Left() == TakeLine(old(Left())).1 && pos > old(pos)
    {
      if pos == |body| { return None; }
      ghost var left := Left();
      var start := pos;
      while pos < |body| && body[pos] != NL
        invariant start <= pos <= |body|
        invariant NL !in body[start..pos]
      {
        pos := pos + 1;
      }
      line := Some(body[start..pos]);
      if pos < |body| {
        assert left == body[start..pos] + [NL] + body[pos + 1..];
        TakeLineOf(body[start..pos], body[pos + 1..]);
        pos := pos + 1;
      } else {
        assert left == body[start..pos];
        TakeLineOf(left, []);
      }
    }

    /** None when the body ends inside the payload. */
    method ReadItemPayload(length: Option<int>) returns (payload: Option<Bytes>)
      requires Valid() && (length.Some? ==> length.value >= 0)
      modifies this
      ensures Valid() && pos >= old(pos)
      ensures match TakePayload(old(Left()), length)
              case None => payload == None
              case Some((data, rest)) => payload == Some(data) && Left() == rest
    {
      if length.None? {
        var line := ReadLine();
        return Some(if line.None? then [] else line.value);
      }
      var n := length.value;
      if |body| - pos < n { return None; }
      ghost var left := Left();
      payload := Some(body[pos..pos + n]);
      assert left[..n] == body[pos..pos + n] && left[n..] == body[pos + n..];
      pos := pos + n;
      if pos < |body| && body[pos] == NL { pos := pos + 1; }
    }
  }

  lemma PrependTwice<E>(a: seq<E>, b: seq<E>, o: Outcome<E>)
    ensures Prepend(a + b, o) == Prepend(a, Prepend(b, o))
  {
    if o.Parsed? { assert a + b + o.events == a + (b + o.events); }
  }

  method Parse<E>(lib: Library<E>, body: Bytes) returns (r: Outcome<E>)
    ensures r == ParseEnvelope(lib, body)
  {
    var reader := new Reader(body);
    var headerLine := reader.ReadLine();
    if headerLine.None? || !lib.header(headerLine.value) { return Failed; }
    ghost var whole := ParseItems(lib, reader.Left());
    PrependNone(whole);
    var events: seq<E> := [];
    while true
      invariant reader.Valid() && fresh(reader) && reader.body == body
      invariant whole == ParseEnvelope(lib, body) == Prepend(events, ParseItems(lib, reader.Left()))
      decreases |body| - reader.pos
    {
      ghost var left := reader.Left();
      var line := reader.ReadLine();
      if line.None? { return Parsed(events); }
      if lib.blank(line.value) { continue; }
      var ih := lib.item(line.value);
      if ih.None? { return Failed; }
      if ih.value.length.Some? && !(0 <= ih.value.length.value <= lib.maxAlloc) { return Panicked; }
      var payload := reader.ReadItemPayload(ih.value.length);
      if payload.None? { return Failed; }
      ghost var found := EventIn(lib, ih.value.kind, payload.value);
      PrependTwice(events, found, ParseItems(lib, reader.Left()));
      PrependNone(ParseItems(lib, reader.Left()));
      if ih.value.kind != "event" { continue; }
      var e := lib.event(payload.value);
      if e.None? { continue; }
      events := events + [e.value];
    }
  }
}
