/**
 Terminal output: batched by the service, published in order, and retained by the store only up to a bound. Text is in
 UTF-16 code units, as the host counts it. How the library's reducer appends data to a terminal's parts is a parameter.
 */
module TerminalOutputSpec {
  type CodeUnit = x: nat | x < 0x1_0000
  type Text = seq<CodeUnit>

  datatype Part = Unclassified(value: Text) | Command(id: nat, output: Text)

  const MAX_RETAINED_TERMINAL_CHARS := 1_000_000
  const OUTPUT_BATCH_THRESHOLD_CHARS := 16 * 1024

  function TerminalOutput(part: Part): Text {
    match part case Unclassified(value) => value case Command(_, output) => output
  }

  function WithTerminalOutput(part: Part, output: Text): (changed: Part)
    ensures TerminalOutput(changed) == output && (changed.Unclassified? <==> part.Unclassified?)
  {
    match part case Unclassified(_) => Unclassified(output) case Command(id, _) => Command(id, output)
  }

  function Output(parts: seq<Part>): Text {
    if parts == [] then [] else Output(parts[..|parts| - 1]) + TerminalOutput(parts[|parts| - 1])
  }

  function Last(text: Text, n: nat): Text {
    if |text| <= n then text else text[|text| - n..]
  }

  /** Keeps the newest output, `room` code units of it. */
  function Trim(parts: seq<Part>, room: nat): seq<Part> {
    if parts == [] then []
    else
      var newest := parts[|parts| - 1];
      var output := TerminalOutput(newest);
      if |output| <= room then Trim(parts[..|parts| - 1], room - |output|) + [newest]
      else if room > 0 then [WithTerminalOutput(newest, output[|output| - room..])]
      else []
  }

  // ── Trimming ──────────────────────────────────────────────────────────────

  lemma LastOfConcat(a: Text, b: Text, n: nat)
    ensures |b| <= n ==> Last(a + b, n) == Last(a, n - |b|) + b
    ensures |b| > n ==> Last(a + b, n) == Last(b, n)
  {
    if |b| > n {
      assert (a + b)[|a + b| - n..] == b[|b| - n..];
    } else if |a + b| > n {
      assert (a + b)[|a + b| - n..] == a[|a + b| - n..] + b;
    }
  }

  lemma OutputSnoc(parts: seq<Part>, part: Part)
    ensures Output(parts + [part]) == Output(parts) + TerminalOutput(part)
  {
    assert (parts + [part])[..|parts + [part]| - 1] == parts;
  }

  /** Trimming keeps exactly the last `room` code units. */
  lemma {:induction false} TrimKeepsLast(parts: seq<Part>, room: nat)
    ensures Output(Trim(parts, room)) == Last(Output(parts), room)
    decreases |parts|
  {
    if parts != [] {
      var before, newest := parts[..|parts| - 1], parts[|parts| - 1];
      var output := TerminalOutput(newest);
      LastOfConcat(Output(before), output, room);
      if |output| <= room {
        TrimKeepsLast(before, room - |output|);
        OutputSnoc(Trim(before, room - |output|), newest);
      } else {
        TrimCuts(parts, room);
      }
    }
  }

  /** A newest part that is too long is all that stays, cut to its end. */
  lemma TrimCuts(parts: seq<Part>, room: nat)
    requires parts != [] && |TerminalOutput(parts[|parts| - 1])| > room
    ensures Output(Trim(parts, room)) == Last(TerminalOutput(parts[|parts| - 1]), room)
  {
    var newest := parts[|parts| - 1];
    var output := TerminalOutput(newest);
    if room > 0 {
      OutputOfOne(WithTerminalOutput(newest, output[|output| - room..]));
    } else {
      assert output[|output| - room..] == [];
    }
  }

  lemma OutputOfOne(part: Part)
    ensures Output([part]) == TerminalOutput(part)
  {
    assert [part][..0] == [] && Output([]) == [];
  }

  /** Output within the bound is left as it is, part for part. */
  lemma {:induction false} TrimLeavesShort(parts: seq<Part>, room: nat)
    requires |Output(parts)| <= room
    ensures Trim(parts, room) == parts
    decreases |parts|
  {
    if parts != [] {
      var before, newest := parts[..|parts| - 1], parts[|parts| - 1];
      TrimLeavesShort(before, room - |TerminalOutput(newest)|);
      assert parts == before + [newest];
    }
  }

  /** Keeping the last n of what was kept and what is new is keeping the last n of everything. */
  lemma LastOfLast(a: Text, b: Text, n: nat)
    ensures Last(Last(a, n) + b, n) == Last(a + b, n)
  {
    LastOfConcat(Last(a, n), b, n);
    LastOfConcat(a, b, n);
    if |b| <= n && |a| > n {
      assert a[|a| - n..][n - (n - |b|)..] == a[|a| - (n - |b|)..];
    }
  }

  // ── One terminal over time ────────────────────────────────────────────────

  /** `received` and `published` are since the last clear. */
  datatype Terminal = Terminal(
    present: bool, running: bool, listening: bool, pending: Text, timer: bool, content: seq<Part>,
    received: Text, published: Text)

  const Created := Terminal(true, true, true, [], false, [], [], [])

  /** How the library adds data to a terminal's parts: all this needs to know is where the text goes. */
  ghost predicate Appends(append: (seq<Part>, Text) -> seq<Part>) {
    forall parts, data :: Output(append(parts, data)) == Output(parts) + data
  }

  type Append = (seq<Part>, Text) -> seq<Part>

  function Publish(append: Append, t: Terminal, data: Text): Terminal {
    t.(content := Trim(append(t.content, data), MAX_RETAINED_TERMINAL_CHARS), published := t.published + data)
  }

  function Flush(append: Append, t: Terminal): Terminal {
    var t1 := t.(timer := false, pending := []);
    if !t.present || t.pending == [] then t1 else Publish(append, t1, t.pending)
  }

  function Discard(t: Terminal): Terminal {
    t.(timer := false, pending := [])
  }

  function OnData(append: Append, t: Terminal, data: Text): Terminal {
    if !t.present || data == [] then t
    else
      var t1 := t.(pending := t.pending + data, received := t.received + data);
      if |t1.pending| >= OUTPUT_BATCH_THRESHOLD_CHARS then Flush(append, t1) else t1.(timer := true)
  }

  function OnExit(append: Append, t: Terminal): Terminal {
    if !t.present || !t.running then t else Flush(append, t).(listening := false, running := false)
  }

  function Clear(t: Terminal): Terminal {
    Discard(t.(content := [], received := [], published := []))
  }

  function Remove(append: Append, t: Terminal, notify: bool): Terminal {
    if !t.present then t
    else (if notify then Flush(append, t) else Discard(t)).(present := false, listening := false, running := false)
  }

  datatype Step = Data(data: Text) | TimerFires | Cleared | Exits | Disposed | ShutDown

  predicate Enabled(t: Terminal, step: Step) {
    match step
    case Data(_) => t.listening
    case TimerFires => t.timer
    case Cleared => t.present
    case Exits => t.present
    case Disposed => true
    case ShutDown => true
  }

  function Next(append: Append, t: Terminal, step: Step): Terminal
    requires Enabled(t, step)
  {
    match step
    case Data(data) => OnData(append, t, data)
    case TimerFires => Flush(append, t)
    case Cleared => Clear(t)
    case Exits => OnExit(append, t)
    case Disposed => Remove(append, t, true)
    case ShutDown => Remove(append, t, false)
  }

  predicate Trace(append: Append, t: Terminal, steps: seq<Step>)
    decreases |steps|
  {
    steps == [] || (Enabled(t, steps[0]) && Trace(append, Next(append, t, steps[0]), steps[1..]))
  }

  function Run(append: Append, t: Terminal, steps: seq<Step>): Terminal
    requires Trace(append, t, steps)
    decreases |steps|
  {
    if steps == [] then t else Run(append, Next(append, t, steps[0]), steps[1..])
  }

  /** Nothing received is lost, repeated or reordered; what waits has a timer and is less than a full batch; and what is
      retained is the last million code units of what was published. */
  predicate Inv(t: Terminal) {
    && (t.present ==> t.published + t.pending == t.received)
    && (t.pending != [] ==> t.present && t.timer && t.listening && |t.pending| < OUTPUT_BATCH_THRESHOLD_CHARS)
    && (t.listening ==> t.present && t.running)
    && Output(t.content) == Last(t.published, MAX_RETAINED_TERMINAL_CHARS)
  }

  lemma PublishRetainsLast(append: Append, t: Terminal, data: Text)
    requires Appends(append) && Output(t.content) == Last(t.published, MAX_RETAINED_TERMINAL_CHARS)
    ensures var e := Publish(append, t, data);
            Output(e.content) == Last(e.published, MAX_RETAINED_TERMINAL_CHARS)
  {
    TrimKeepsLast(append(t.content, data), MAX_RETAINED_TERMINAL_CHARS);
    LastOfLast(t.published, data, MAX_RETAINED_TERMINAL_CHARS);
  }

  lemma FlushKeeps(append: Append, t: Terminal)
    requires Appends(append) && Output(t.content) == Last(t.published, MAX_RETAINED_TERMINAL_CHARS)
    requires (t.present ==> t.published + t.pending == t.received) && (t.listening ==> t.present && t.running)
    ensures var e := Flush(append, t); Inv(e) && (t.present ==> e.published == e.received)
  {
    PublishRetainsLast(append, t, t.pending);
    assert t.pending == [] ==> t.published + t.pending == t.published;
  }

  lemma Arrived(published: Text, pending: Text, data: Text)
    ensures published + (pending + data) == (published + pending) + data
  {
  }

  /** Output that waits with what is pending, for its timer. */
  lemma WaitingKeeps(t: Terminal, data: Text)
    requires Inv(t) && t.listening && data != [] && |t.pending + data| < OUTPUT_BATCH_THRESHOLD_CHARS
    ensures Inv(t.(pending := t.pending + data, received := t.received + data, timer := true))
  {
    Arrived(t.published, t.pending, data);
  }

  lemma DataKeeps(append: Append, t: Terminal, data: Text)
    requires Appends(append) && Inv(t) && t.listening
    ensures Inv(OnData(append, t, data))
  {
    if data != [] {
      if |t.pending + data| < OUTPUT_BATCH_THRESHOLD_CHARS {
        WaitingKeeps(t, data);
      } else {
        Arrived(t.published, t.pending, data);
        FlushKeeps(append, t.(pending := t.pending + data, received := t.received + data));
      }
    }
  }

  lemma StepKeeps(append: Append, t: Terminal, step: Step)
    requires Appends(append) && Inv(t) && Enabled(t, step)
    ensures Inv(Next(append, t, step))
  {
    match step
    case Data(data) => DataKeeps(append, t, data);
    case TimerFires => FlushKeeps(append, t);
    case Cleared =>
    case Exits => FlushKeeps(append, t);
    case Disposed => FlushKeeps(append, t);
    case ShutDown =>
  }

  lemma {:induction false} RunKeeps(append: Append, t: Terminal, steps: seq<Step>)
    requires Appends(append) && Inv(t) && Trace(append, t, steps)
    ensures Inv(Run(append, t, steps))
    decreases |steps|
  {
    if steps != [] {
      StepKeeps(append, t, steps[0]);
      RunKeeps(append, Next(append, t, steps[0]), steps[1..]);
    }
  }

  /** On every run, while the terminal exists, what was published and then what is pending is all that was received since
      the last clear, and the retained content is the last million code units of what was published since then. */
  lemma OutputIsConserved(append: Append, steps: seq<Step>)
    requires Appends(append) && Trace(append, Created, steps)
    ensures var t := Run(append, Created, steps);
            && (t.present ==> t.published + t.pending == t.received)
            && Output(t.content) == Last(t.published, MAX_RETAINED_TERMINAL_CHARS)
            && |Output(t.content)| <= MAX_RETAINED_TERMINAL_CHARS
            && (t.pending != [] ==> t.timer && |t.pending| < OUTPUT_BATCH_THRESHOLD_CHARS)
  {
    RunKeeps(append, Created, steps);
  }

  /** Once its process has exited, and when it is disposed, everything a terminal received has been published; a shutdown
      of the whole service drops what was pending and publishes nothing more. */
  lemma EndPublishesEverything(append: Append, steps: seq<Step>, step: Step)
    requires Appends(append) && Trace(append, Created, steps) && Enabled(Run(append, Created, steps), step)
    ensures var t := Run(append, Created, steps); var e := Next(append, t, step);
            t.present ==>
              && (step.Exits? ==> e.published == e.received && e.pending == [])
              && (step.Disposed? ==> e.published == e.received && e.pending == [])
              && (step.ShutDown? ==> e.published == t.published && e.pending == [])
  {
    RunKeeps(append, Created, steps);
    FlushKeeps(append, Run(append, Created, steps));
  }
}

/** The terminal entry and the store's trimming in their own form. */
module TerminalService {
  import opened Spec = TerminalOutputSpec

  function Reversed(parts: seq<Part>): seq<Part> {
    if parts == [] then [] else [parts[|parts| - 1]] + Reversed(parts[..|parts| - 1])
  }

  /** Walks the reduced parts from the newest, collecting them until the bound is reached. */
  method ReduceTerminal(reduced: seq<Part>, bound: nat := MAX_RETAINED_TERMINAL_CHARS) returns (content: seq<Part>)
    ensures content == Spec.Trim(reduced, bound)
  {
    var remaining := bound;
    var newestFirst: seq<Part> := [];
    var index := |reduced|;
    ghost var whole := Trim(reduced, bound);
    assert reduced[..|reduced|] == reduced;
    while index > 0
      invariant 0 <= index <= |reduced| && remaining >= 0
      invariant whole == Trim(reduced[..index], remaining) + Reversed(newestFirst)
    {
      index := index - 1;
      var part := reduced[index];
      var output := TerminalOutput(part);
      TrimNewest(reduced[..index + 1], reduced[..index], part, remaining, newestFirst);
      if |output| <= remaining {
        newestFirst := newestFirst + [part];
        remaining := remaining - |output|;
        continue;
      }
      if remaining > 0 {
        newestFirst := newestFirst + [WithTerminalOutput(part, output[|output| - remaining..])];
      }
      return Reversed(newestFirst);
    }
    assert reduced[..0] == [] && [] + Reversed(newestFirst) == Reversed(newestFirst);
    content := Reversed(newestFirst);
  }

  /** What trimming does with the newest part, in front of the newer parts already kept. */
  lemma TrimNewest(parts: seq<Part>, before: seq<Part>, newest: Part, room: nat, newestFirst: seq<Part>)
    requires parts == before + [newest]
    ensures var output := TerminalOutput(newest); var kept := Trim(parts, room) + Reversed(newestFirst);
            && (|output| <= room ==> kept == Trim(before, room - |output|) + Reversed(newestFirst + [newest]))
            && (|output| > room > 0 ==> kept == Reversed(newestFirst + [WithTerminalOutput(newest, output[|output| - room..])]))
            && (|output| > room == 0 ==> kept == Reversed(newestFirst))
  {
    var output := TerminalOutput(newest);
    assert parts[..|parts| - 1] == before;
    ReversedSnoc(newestFirst, newest);
    if |output| <= room {
      var older := Trim(before, room - |output|);
      assert (older + [newest]) + Reversed(newestFirst) == older + ([newest] + Reversed(newestFirst));
    } else if room > 0 {
      ReversedSnoc(newestFirst, WithTerminalOutput(newest, output[|output| - room..]));
    }
  }

  lemma ReversedSnoc(parts: seq<Part>, part: Part)
    ensures Reversed(parts + [part]) == [part] + Reversed(parts)
  {
    assert (parts + [part])[..|parts + [part]| - 1] == parts;
  }

  class TerminalEntry {
    var present: bool
    var running: bool
    var listening: bool
    var pendingData: Text
    var flushTimer: bool
    var content: seq<Part>
    ghost var received: Text
    ghost var published: Text
    const append: Append

    ghost function View(): Spec.Terminal
      reads this
    {
      Terminal(present, running, listening, pendingData, flushTimer, content, received, published)
    }

    constructor (append: Append)
      ensures View() == Created && this.append == append
    {
      this.append := append;
      present, running, listening, pendingData, flushTimer := true, true, true, [], false;
      content, received, published := [], [], [];
    }

    method OnData(data: Text)
      modifies this
      ensures View() == Spec.OnData(append, old(View()), data)
    {
      if !present || |data| == 0 {
        return;
      }
      pendingData := pendingData + data;
      received := received + data;
      if |pendingData| >= OUTPUT_BATCH_THRESHOLD_CHARS {
        FlushPendingData();
        return;
      }
      if !flushTimer {
        flushTimer := true;
      }
    }

    method FlushPendingData()
      modifies this
      ensures View() == Spec.Flush(append, old(View()))
    {
      flushTimer := false;
      var data := pendingData;
      pendingData := [];
      if !present || |data| == 0 {
        return;
      }
      content := ReduceTerminal(append(content, data));
      published := published + data;
    }

    method DiscardPendingData()
      modifies this
      ensures View() == Spec.Discard(old(View()))
    {
      flushTimer := false;
      pendingData := [];
    }

    /** The client's clear, already reduced, and the service's reaction to it. */
    method OnCleared()
      modifies this
      ensures View() == Spec.Clear(old(View()))
    {
      content, received, published := [], [], [];
      DiscardPendingData();
    }

    method OnExit()
      modifies this
      ensures View() == Spec.OnExit(append, old(View()))
    {
      if !present || !running {
        return;
      }
      FlushPendingData();
      listening := false;
      running := false;
    }

    method Remove(notify: bool)
      modifies this
      ensures View() == Spec.Remove(append, old(View()), notify)
    {
      if !present {
        return;
      }
      if notify {
        FlushPendingData();
      } else {
        DiscardPendingData();
      }
      present, listening, running := false, false, false;
    }
  }
}
