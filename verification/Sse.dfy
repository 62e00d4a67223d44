/**
 The server-sent-events parser.  A callback may fail at any event depending on everything delivered so far,
 so it is a function of the history; `Run` is the parser's pending event and that history.
 */
module Sse {
  import opened Optional
  import Decimal
  import opened Strings

  datatype Event = Event(event: string, data: string, id: string, retry: Option<nat>)

  datatype Pending = Pending(event: string, data: string, id: string, retry: Option<nat>, hasData: bool)

  const NOTHING := Pending([], [], [], None, false)

  const MAX_RETRY: nat := 0x7fff_ffff_ffff_ffff

  type Callback = seq<Event> -> bool

  datatype Run = Run(pending: Pending, delivered: seq<Event>, failed: bool)

  // -------------------------------------------------------------------- lines

  /** One trailing carriage return belongs to the line end. */
  function Strip(line: string): string {
    if line != [] && line[|line| - 1] == '\r' then line[..|line| - 1] else line
  }

  datatype Kind = EventName | DataLine | Identifier | RetryTime | Unknown

  function KindOf(field: string): Kind {
    if field == "event" then EventName
    else if field == "data" then DataLine
    else if field == "id" then Identifier
    else if field == "retry" then RetryTime
    else Unknown
  }

  function FieldOf(line: string): Kind {
    KindOf(line[..FindFrom(line, ':', 0)])
  }

  /** What follows the colon, without one leading space. */
  function ValueOf(line: string): string {
    var colon := FindFrom(line, ':', 0);
    if colon == |line| then []
    else if colon + 1 < |line| && line[colon + 1] == ' ' then line[colon + 2..]
    else line[colon + 1..]
  }

  function RetryOf(value: string): Option<nat> {
    if value == [] || exists i | 0 <= i < |value| :: !Decimal.Digit(value[i]) then None
    else if Decimal.Value(value) <= MAX_RETRY then Some(Decimal.Value(value))
    else None
  }

  /** A non-empty line that is not a comment. */
  function WithField(p: Pending, kind: Kind, value: string): Pending {
    match kind
    case EventName => p.(event := value)
    case DataLine => p.(data := (if p.hasData then p.data + ['\n'] else p.data) + value, hasData := true)
    case Identifier => p.(id := value)
    case RetryTime => if RetryOf(value).Some? then p.(retry := RetryOf(value)) else p
    case Unknown => p
  }

  function EventOf(p: Pending): Event {
    Event(if p.event == [] then "message" else p.event, p.data, p.id, p.retry)
  }

  function Dispatched(callback: Callback, r: Run): Run {
    if !r.pending.hasData then r.(pending := NOTHING)
    else
      var delivered := r.delivered + [EventOf(r.pending)];
      Run(NOTHING, delivered, !callback(delivered))
  }

  function Consumed(callback: Callback, r: Run, line: string): Run {
    if line == [] then Dispatched(callback, r)
    else if line[0] == ':' then r
    else r.(pending := WithField(r.pending, FieldOf(line), ValueOf(line)))
  }

  // ------------------------------------------------------------------- chunks

  datatype State = State(run: Run, buffer: string)

  /** Takes complete lines off the buffer until there is none or the callback fails. */
  function Drain(callback: Callback, r: Run, buffer: string): State
    decreases |buffer|
  {
    var pos := FindFrom(buffer, '\n', 0);
    if r.failed || pos == |buffer| then State(r, buffer)
    else Drain(callback, Consumed(callback, r, Strip(buffer[..pos])), buffer[pos + 1..])
  }

  function Feed(callback: Callback, st: State, chunk: string): State {
    Drain(callback, st.run, st.buffer + chunk)
  }

  /** Feeding stops at the first failure. */
  function FeedAll(callback: Callback, st: State, chunks: seq<string>): State
    decreases |chunks|
  {
    if chunks == [] || st.run.failed then st else FeedAll(callback, Feed(callback, st, chunks[0]), chunks[1..])
  }

  function Finish(callback: Callback, st: State): Run {
    var r := if st.buffer == [] then st.run else Consumed(callback, st.run, Strip(st.buffer));
    if st.run.failed then st.run else if r.failed then r else Dispatched(callback, r)
  }

  function Concat(chunks: seq<string>): string
    decreases |chunks|
  {
    if chunks == [] then [] else chunks[0] + Concat(chunks[1..])
  }

  // ------------------------------------------------------- the whole-input view

  /** The complete lines of the input, and what is left after the last line feed. */
  function Lines(input: string): seq<string>
    decreases |input|
  {
    var pos := FindFrom(input, '\n', 0);
    if pos == |input| then [] else [Strip(input[..pos])] + Lines(input[pos + 1..])
  }

  function Tail(input: string): string
    decreases |input|
  {
    var pos := FindFrom(input, '\n', 0);
    if pos == |input| then input else Tail(input[pos + 1..])
  }

  /** Line by line, up to the first failing callback. */
  function Fold(callback: Callback, r: Run, lines: seq<string>): Run
    decreases |lines|
  {
    if r.failed || lines == [] then r else Fold(callback, Consumed(callback, r, lines[0]), lines[1..])
  }

  /** The specification: all complete lines, then an unterminated last line, then a last event. */
  function Whole(callback: Callback, input: string): Run {
    var r := Fold(callback, Run(NOTHING, [], false), Lines(input));
    if r.failed then r
    else
      var s := if Tail(input) == [] then r else Consumed(callback, r, Strip(Tail(input)));
      if s.failed then s else Dispatched(callback, s)
  }

  lemma {:induction false} DrainIsFold(callback: Callback, r: Run, buffer: string)
    ensures Drain(callback, r, buffer).run == Fold(callback, r, Lines(buffer))
    ensures !Drain(callback, r, buffer).run.failed ==> Drain(callback, r, buffer).buffer == Tail(buffer)
    decreases |buffer|
  {
    var pos := FindFrom(buffer, '\n', 0);
    if !r.failed && pos < |buffer| {
      DrainIsFold(callback, Consumed(callback, r, Strip(buffer[..pos])), buffer[pos + 1..]);
      assert Lines(buffer)[1..] == Lines(buffer[pos + 1..]);
    }
  }

  lemma {:induction false} FoundEarlier(a: string, b: string, c: char, i: nat)
    requires i <= |a|
    ensures FindFrom(a, c, i) < |a| ==> FindFrom(a + b, c, i) == FindFrom(a, c, i)
    decreases |a| - i
  {
    if i < |a| && a[i] != c { FoundEarlier(a, b, c, i + 1); }
  }

  /** Draining in two goes is draining at once. */
  lemma {:induction false} DrainSplits(callback: Callback, r: Run, a: string, b: string)
    ensures var first := Drain(callback, r, a);
            if first.run.failed then Drain(callback, r, a + b).run == first.run
            else Drain(callback, r, a + b) == Drain(callback, first.run, first.buffer + b)
    decreases |a|
  {
    var pos := FindFrom(a, '\n', 0);
    if !r.failed && pos < |a| {
      FoundEarlier(a, b, '\n', 0);
      assert (a + b)[..pos] == a[..pos];
      assert (a + b)[pos + 1..] == a[pos + 1..] + b;
      DrainSplits(callback, Consumed(callback, r, Strip(a[..pos])), a[pos + 1..], b);
    }
  }

  lemma {:induction false} FeedJoins(callback: Callback, r: Run, a: string, chunk: string)
    requires !Drain(callback, r, a).run.failed
    ensures Feed(callback, Drain(callback, r, a), chunk) == Drain(callback, r, a + chunk)
  {
    DrainSplits(callback, r, a, chunk);
  }

  lemma {:induction false} FailureStays(callback: Callback, r: Run, a: string, b: string)
    requires Drain(callback, r, a).run.failed
    ensures Drain(callback, r, a + b).run == Drain(callback, r, a).run
  {
    DrainSplits(callback, r, a, b);
  }

  lemma {:induction false} Regroup(a: string, chunks: seq<string>)
    requires chunks != []
    ensures (a + chunks[0]) + Concat(chunks[1..]) == a + Concat(chunks)
  {
  }

  /** The two parser states agree as far as anyone can tell: after a failure the buffer no longer counts. */
  predicate SameOutcome(a: State, b: State) {
    a.run == b.run && (!a.run.failed ==> a.buffer == b.buffer)
  }

  lemma {:induction false} FeedAllIsDrain(callback: Callback, r: Run, a: string, st: State, chunks: seq<string>)
    requires st == Drain(callback, r, a)
    ensures SameOutcome(FeedAll(callback, st, chunks), Drain(callback, r, a + Concat(chunks)))
    decreases |chunks|
  {
    if chunks == [] {
      assert a + Concat(chunks) == a;
    } else if st.run.failed {
      FailureStays(callback, r, a, Concat(chunks));
    } else {
      FeedJoins(callback, r, a, chunks[0]);
      FeedAllIsDrain(callback, r, a + chunks[0], Feed(callback, st, chunks[0]), chunks[1..]);
      Regroup(a, chunks);
    }
  }

  /** For every input, every way of cutting it up and every callback, feeding the pieces and finishing
      delivers exactly what the whole input means, and fails exactly when it does. */
  lemma {:induction false} ChunksDoNotMatter(callback: Callback, chunks: seq<string>)
    ensures Finish(callback, FeedAll(callback, State(Run(NOTHING, [], false), []), chunks)) ==
              Whole(callback, Concat(chunks))
  {
    var r := Run(NOTHING, [], false);
    assert Drain(callback, r, []) == State(r, []);
    FeedAllIsDrain(callback, r, [], State(r, []), chunks);
    assert [] + Concat(chunks) == Concat(chunks);
    DrainIsFold(callback, r, Concat(chunks));
  }

  // ------------------------------------------------------ what a block of lines means

  /** The values a block of lines gives for one kind of field. */
  function Values(block: seq<string>, kind: Kind): seq<string>
    decreases |block|
  {
    if block == [] then []
    else
      var n := |block| - 1;
      Values(block[..n], kind) + (if IsField(block[n], kind) then [ValueOf(block[n])] else [])
  }

  predicate IsField(line: string, kind: Kind) {
    line != [] && line[0] != ':' && FieldOf(line) == kind
  }

  function Joined(values: seq<string>): string
    decreases |values|
  {
    if values == [] then []
    else if |values| == 1 then values[0]
    else Joined(values[..|values| - 1]) + ['\n'] + values[|values| - 1]
  }

  function Last(values: seq<string>): string {
    if values == [] then [] else values[|values| - 1]
  }

  function LastRetry(values: seq<string>): Option<nat>
    decreases |values|
  {
    if values == [] then None
    else if RetryOf(values[|values| - 1]).Some? then RetryOf(values[|values| - 1])
    else LastRetry(values[..|values| - 1])
  }

  /** The event a block describes: data lines joined by line feeds, the last name and id, the last
      well-formed retry time. */
  function Described(block: seq<string>): Pending {
    Pending(Last(Values(block, EventName)), Joined(Values(block, DataLine)), Last(Values(block, Identifier)),
            LastRetry(Values(block, RetryTime)), Values(block, DataLine) != [])
  }

  lemma {:induction false} ValuesGrow(block: seq<string>, line: string, kind: Kind)
    ensures Values(block + [line], kind) ==
              if IsField(line, kind) then Values(block, kind) + [ValueOf(line)] else Values(block, kind)
  {
    assert (block + [line])[..|block|] == block;
  }

  lemma {:induction false} LastRetryGrows(values: seq<string>, v: string)
    ensures LastRetry(values + [v]) == if RetryOf(v).Some? then RetryOf(v) else LastRetry(values)
  {
    assert (values + [v])[..|values|] == values;
  }

  lemma {:induction false} DescribedGrows(block: seq<string>, line: string)
    requires line != []
    ensures Described(block + [line]) ==
              if line[0] == ':' then Described(block) else WithField(Described(block), FieldOf(line), ValueOf(line))
  {
    var v := ValueOf(line);
    ValuesGrow(block, line, EventName);
    ValuesGrow(block, line, DataLine);
    ValuesGrow(block, line, Identifier);
    ValuesGrow(block, line, RetryTime);
    if line[0] != ':' {
      match FieldOf(line) {
        case EventName => assert Last(Values(block, EventName) + [v]) == v;
        case DataLine => JoinedGrows(Values(block, DataLine), v);
        case Identifier => assert Last(Values(block, Identifier) + [v]) == v;
        case RetryTime => LastRetryGrows(Values(block, RetryTime), v);
        case Unknown =>
      }
    }
  }

  lemma {:induction false} JoinedGrows(values: seq<string>, v: string)
    ensures Joined(values + [v]) == (if values == [] then [] else Joined(values) + ['\n']) + v
  {
    assert (values + [v])[..|values|] == values;
  }

  lemma {:induction false} FoldAppends(callback: Callback, r: Run, lines: seq<string>, line: string)
    ensures var s := Fold(callback, r, lines);
            Fold(callback, r, lines + [line]) == if s.failed then s else Consumed(callback, s, line)
    decreases |lines|
  {
    if !r.failed {
      if lines == [] {
        assert [line][1..] == [];
        assert lines + [line] == [line];
      } else {
        assert (lines + [line])[1..] == lines[1..] + [line];
        FoldAppends(callback, Consumed(callback, r, lines[0]), lines[1..], line);
      }
    }
  }

  /** Lines without a blank one among them build up exactly the event they describe and deliver nothing. */
  lemma {:induction false} BlockMeaning(callback: Callback, delivered: seq<Event>, block: seq<string>)
    requires forall i | 0 <= i < |block| :: block[i] != []
    ensures Fold(callback, Run(NOTHING, delivered, false), block) == Run(Described(block), delivered, false)
    decreases |block|
  {
    if block != [] {
      var n := |block| - 1;
      BlockMeaning(callback, delivered, block[..n]);
      FoldAppends(callback, Run(NOTHING, delivered, false), block[..n], block[n]);
      DescribedGrows(block[..n], block[n]);
      assert block[..n] + [block[n]] == block;
    }
  }

  // ------------------------------------------------- what the whole input means

  /** Every line of the input: the complete ones and an unterminated last one. */
  function AllLines(input: string): seq<string> {
    Lines(input) + (if Tail(input) == [] then [] else [Strip(Tail(input))])
  }

  /** The lines cut into blocks at blank lines; `current` is the block being read. */
  function BlocksFrom(current: seq<string>, lines: seq<string>): seq<seq<string>>
    decreases |lines|
  {
    if lines == [] then [current]
    else if lines[0] == [] then [current] + BlocksFrom([], lines[1..])
    else BlocksFrom(current + [lines[0]], lines[1..])
  }

  /** The events of the blocks that have data, in order. */
  function EventsOf(blocks: seq<seq<string>>): seq<Event>
    decreases |blocks|
  {
    if blocks == [] then []
    else
      (if Described(blocks[0]).hasData then [EventOf(Described(blocks[0]))] else []) + EventsOf(blocks[1..])
  }

  /** What a stream of lines announces. */
  function Announced(lines: seq<string>): seq<Event> { EventsOf(BlocksFrom([], lines)) }

  /** Handing events to the callback until it fails. */
  function Handed(callback: Callback, delivered: seq<Event>, events: seq<Event>): Run
    decreases |events|
  {
    if events == [] then Run(NOTHING, delivered, false)
    else
      var now := delivered + [events[0]];
      if callback(now) then Handed(callback, now, events[1..]) else Run(NOTHING, now, true)
  }

  /** The events handed over are those up to the first failing callback. */
  lemma {:induction false} HandedIsCut(callback: Callback, delivered: seq<Event>, events: seq<Event>) returns (n: nat)
    ensures n <= |events|
    ensures Handed(callback, delivered, events) ==
              Run(NOTHING, delivered + events[..n], n > 0 && !callback(delivered + events[..n]))
    ensures forall m | 0 < m < n :: callback(delivered + events[..m])
    ensures n < |events| ==> n > 0 && !callback(delivered + events[..n])
    decreases |events|
  {
    if events == [] {
      n := 0;
      assert delivered + events[..0] == delivered;
    } else {
      var now := delivered + [events[0]];
      assert now == delivered + events[..1];
      if callback(now) {
        var k := HandedIsCut(callback, now, events[1..]);
        n := k + 1;
        forall m: nat | m <= k ensures now + events[1..][..m] == delivered + events[..m + 1] { }
        forall m | 0 < m < n ensures callback(delivered + events[..m]) {
          if m > 1 { assert callback(now + events[1..][..m - 1]); }
        }
      } else {
        n := 1;
      }
    }
  }

  /** From a block half read, folding over the rest and dispatching hands over the events announced. */
  lemma {:induction false} FoldHands(
    callback: Callback, delivered: seq<Event>, current: seq<string>, lines: seq<string>)
    ensures Ending(callback, Fold(callback, Run(Described(current), delivered, false), lines)) ==
              Handed(callback, delivered, EventsOf(BlocksFrom(current, lines)))
    decreases |lines|
  {
    var r := Run(Described(current), delivered, false);
    if lines == [] {
      assert [current][1..] == [];
      DispatchHands(callback, delivered, current, []);
    } else if lines[0] == [] {
      var rest := BlocksFrom([], lines[1..]);
      assert ([current] + rest)[1..] == rest;
      DispatchHands(callback, delivered, current, EventsOf(rest));
      var s := Dispatched(callback, r);
      if !s.failed {
        assert Described([]) == NOTHING;
        FoldHands(callback, s.delivered, [], lines[1..]);
      }
    } else {
      DescribedGrows(current, lines[0]);
      FoldHands(callback, delivered, current + [lines[0]], lines[1..]);
    }
  }

  /** The dispatch at the end of the input, unless a callback has failed. */
  function Ending(callback: Callback, r: Run): Run { if r.failed then r else Dispatched(callback, r) }

  lemma {:induction false} DispatchHands(
    callback: Callback, delivered: seq<Event>, block: seq<string>, later: seq<Event>)
    ensures var events := (if Described(block).hasData then [EventOf(Described(block))] else []) + later;
            var s := Dispatched(callback, Run(Described(block), delivered, false));
            Handed(callback, delivered, events) == if s.failed then s else Handed(callback, s.delivered, later)
    ensures !Dispatched(callback, Run(Described(block), delivered, false)).failed ==>
              Dispatched(callback, Run(Described(block), delivered, false)).pending == NOTHING
  {
    if Described(block).hasData {
      assert ([EventOf(Described(block))] + later)[1..] == later;
    } else {
      assert [] + later == later;
    }
  }

  /** The events delivered for any input are exactly those its blank-line-separated blocks describe,
      leaving out blocks without data, in order, up to the first failing callback. */
  lemma {:induction false} WholeHandsAnnounced(callback: Callback, input: string)
    ensures Whole(callback, input) == Handed(callback, [], Announced(AllLines(input)))
  {
    var r := Run(NOTHING, [], false);
    assert Described([]) == NOTHING;
    FoldHands(callback, [], [], AllLines(input));
    if Tail(input) == [] {
      assert AllLines(input) == Lines(input);
    } else {
      FoldAppends(callback, r, Lines(input), Strip(Tail(input)));
    }
  }

  /** So does feeding the input in any pieces. */
  lemma {:induction false} ChunksHandAnnounced(callback: Callback, chunks: seq<string>)
    ensures Finish(callback, FeedAll(callback, State(Run(NOTHING, [], false), []), chunks)) ==
              Handed(callback, [], Announced(AllLines(Concat(chunks))))
  {
    ChunksDoNotMatter(callback, chunks);
    WholeHandsAnnounced(callback, Concat(chunks));
  }

  // --------------------------------------------------------------- the parser

  class SseParser {
    var buffer: string
    var event: string
    var data: string
    var id: string
    var retry: Option<nat>
    var hasData: bool
    var delivered: seq<Event>

    function PendingEvent(): Pending
      reads this
    {
      Pending(event, data, id, retry, hasData)
    }

    /** The run so far; `delivered` are the events handed to the callback. */
    function View(failed: bool): Run
      reads this
    {
      Run(PendingEvent(), delivered, failed)
    }

    constructor ()
      ensures View(false) == Run(NOTHING, [], false) && buffer == []
    {
      buffer, event, data, id := [], [], [], [];
      retry, hasData, delivered := None, false, [];
    }

    method Reset()
      modifies this
      ensures PendingEvent() == NOTHING && buffer == old(buffer) && delivered == old(delivered)
    {
      event, data, id := [], [], [];
      retry, hasData := None, false;
    }

    method Dispatch(callback: Callback) returns (ok: bool)
      modifies this
      ensures View(!ok) == Dispatched(callback, old(View(false))) && buffer == old(buffer)
    {
      if !hasData {
        Reset();
        return true;
      }
      var e := Event(if event == [] then "message" else event, data, id, retry);
      Reset();
      delivered := delivered + [e];
      ok := callback(delivered);
    }

    method ConsumeLine(line: string, callback: Callback) returns (ok: bool)
      modifies this
      ensures View(!ok) == Consumed(callback, old(View(false)), line) && buffer == old(buffer)
    {
      if line == [] {
        ok := Dispatch(callback);
        return;
      }
      ok := true;
      if line[0] == ':' {
        return;
      }
      var value := ValueOf(line);
      match FieldOf(line) {
        case EventName => event := value;
        case DataLine =>
          if hasData {
            data := data + ['\n'];
          }
          data := data + value;
          hasData := true;
        case Identifier => id := value;
        case RetryTime =>
          if RetryOf(value).Some? {
            retry := RetryOf(value);
          }
        case Unknown =>
      }
    }

    /** `feed`: complete lines are consumed, the rest waits in the buffer. */
    method FeedChunk(chunk: string, callback: Callback) returns (ok: bool)
      modifies this
      ensures State(View(!ok), buffer) == Feed(callback, State(old(View(false)), old(buffer)), chunk)
    {
      buffer := buffer + chunk;
      ghost var goal := Drain(callback, View(false), buffer);
      ok := true;
      while true
        invariant ok && Drain(callback, View(false), buffer) == goal
        decreases |buffer|
      {
        var pos := FindFrom(buffer, '\n', 0);
        if pos == |buffer| {
          return;
        }
        var line := buffer[..pos];
        buffer := buffer[pos + 1..];
        if line != [] && line[|line| - 1] == '\r' {
          line := line[..|line| - 1];
        }
        ok := ConsumeLine(line, callback);
        if !ok {
          return;
        }
      }
    }

    /** `finish`: an unterminated last line counts, and so does an event no blank line ended. */
    method FinishAll(callback: Callback) returns (ok: bool)
      modifies this
      ensures View(!ok) == Finish(callback, State(old(View(false)), old(buffer)))
    {
      if buffer != [] {
        var line := buffer;
        buffer := [];
        if line[|line| - 1] == '\r' {
          line := line[..|line| - 1];
        }
        ok := ConsumeLine(line, callback);
        if !ok {
          return;
        }
      }
      ok := Dispatch(callback);
    }
  }
}
