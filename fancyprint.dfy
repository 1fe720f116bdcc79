/** fancyprint/fancyprint.py: the chunk context, `_fprint`, `colorize`, the `Fancyfier`
    line buffer and `print_enum`.

    Standard output is a `Stdout` object whose `log` holds one entry per `print` call (the
    argument; `print`'s own newline is implied). The process-wide `settings` dictionary and
    `MESSAGE_FILTER` are an `Env` value handed to every call that reads them. */
module FancyPrint {
  import opened Wrappers
  import opened Misc
  import opened PyStr

  /** The `settings` dictionary. `autoflush` only decides when the stream is flushed, so it
      never changes what lands in the log. */
  datatype Settings = Settings(autoflush: bool, autocloseChunks: bool, nocolor: bool)

  const DefaultSettings: Settings := Settings(false, true, false)

  /** What every emission reads: the settings and the set of suppressed types. */
  datatype Env = Env(settings: Settings, filter: set<MessageType>)

  /** Standard output: the entries written so far, oldest first. */
  class Stdout {
    var log: seq<string>

    constructor ()
      ensures log == []
    {
      log := [];
    }

    /** The builtin `print(line)`, which no filter guards. */
    method Print(line: string)
      modifies this
      ensures log == old(log) + [line]
    {
      log := log + [line];
    }
  }

  /** `colorize`: the message itself under `nocolor`, otherwise wrapped in the colour's
      escape sequence and the reset sequence. */
  function Colorize(nocolor: bool, msg: string, color: string): (r: string)
    ensures nocolor ==> r == msg
    ensures !nocolor ==> r == color + msg + EndColor
  {
    if nocolor then msg else color + msg + EndColor
  }

  /** What `_fprint(line, t)` adds to the log: the line, unless its type is filtered. */
  function Emitted(filter: set<MessageType>, t: MessageType, line: string): (r: seq<string>)
    ensures |r| <= 1
    ensures r == [] <==> t in filter
    ensures r != [] ==> r == [line]
  {
    if t in filter then [] else [line]
  }

  /** `_fprint`. */
  method FPrint(out: Stdout, env: Env, line: string, t: MessageType)
    modifies out
    ensures out.log == old(out.log) + Emitted(env.filter, t, line)
  {
    if t in env.filter {
      return;
    }
    out.Print(line);
  }

  /** The two fields of a `FancyPrintContext`. */
  datatype ChunkState = ChunkState(open: bool, msgtype: Option<MessageType>)

  const Closed: ChunkState := ChunkState(false, None)

  /** An open chunk always has a type with a colour. A closed one may keep a type: opening
      a chunk with VOID sets the type before the colour lookup fails. */
  predicate Coherent(st: ChunkState) {
    st.open ==> st.msgtype.Some? && HasColor(st.msgtype.value)
  }

  function ActiveColor(st: ChunkState): string
    requires Coherent(st) && st.open
  {
    ColorOf(st.msgtype.value).value
  }

  /** The result of one call on a context: the new fields, what it added to the log, and
      whether it returned or raised. */
  datatype Step = Step(state: ChunkState, emitted: seq<string>, status: Status)

  /** The header of a chunk's first line: start glyph and label padded to five. */
  function StartHeader(nocolor: bool, t: MessageType, color: string): (r: string)
    ensures nocolor ==> r == ChunkStart + " " + LJust(Label(t), 5)
    ensures !nocolor ==> r == color + ChunkStart + " " + LJust(Label(t), 5) + EndColor
  {
    Colorize(nocolor, ChunkStart + " " + LJust(Label(t), 5), color)
  }

  /** The header of a single-line message. */
  function SingleHeader(nocolor: bool, t: MessageType, color: string): (r: string)
    ensures nocolor ==> r == SingleLineChunk + " " + LJust(Label(t), 5)
    ensures !nocolor ==> r == color + SingleLineChunk + " " + LJust(Label(t), 5) + EndColor
  {
    Colorize(nocolor, SingleLineChunk + " " + LJust(Label(t), 5), color)
  }

  /** The closing marker and the blank line that `end_chunk` prints. */
  function EndLines(nocolor: bool, color: string): (r: seq<string>)
    ensures |r| == 2 && r[1] == "\n"
    ensures nocolor ==> r[0] == ChunkEnd
    ensures !nocolor ==> r[0] == color + ChunkEnd + EndColor
  {
    [Colorize(nocolor, ChunkEnd, color), "\n"]
  }

  /** `end_chunk`: always leaves the context closed with no type; only an open chunk
      prints its two closing entries, and the filter is not consulted. */
  function EndChunkStep(env: Env, st: ChunkState): (r: Step)
    requires Coherent(st)
    ensures r.state == Closed && r.status == Done
    ensures |r.emitted| == if st.open then 2 else 0
    ensures st.open ==> r.emitted == EndLines(env.settings.nocolor, ActiveColor(st))
  {
    if st.open then Step(Closed, EndLines(env.settings.nocolor, ActiveColor(st)), Done)
    else Step(Closed, [], Done)
  }

  /** `new_chunk(message, t)`. */
  function NewChunkStep(env: Env, st: ChunkState, message: string, t: MessageType): (r: Step)
    requires Coherent(st)
    ensures Coherent(r.state)
    // a filtered type is a no-op, even on an open chunk
    ensures t in env.filter ==> r == Step(st, [], Done)
    // without auto-close an open chunk makes it raise, changing nothing
    ensures t !in env.filter && st.open && !env.settings.autocloseChunks ==>
      r == Step(st, [], Raised(ChunkAlreadyOpen))
    // otherwise the old chunk is closed first and the type is recorded; it opens, and
    // its header is printed, exactly when the type has a colour
    ensures t !in env.filter && !(st.open && !env.settings.autocloseChunks) ==>
      r.state.msgtype == Some(t) &&
      (r.state.open <==> HasColor(t)) &&
      r.status == (if HasColor(t) then Done else Raised(KeyError)) &&
      r.emitted ==
        (if st.open then EndLines(env.settings.nocolor, ActiveColor(st)) else []) +
        (if HasColor(t)
         then [StartHeader(env.settings.nocolor, t, ColorOf(t).value) + " " + message]
         else [])
  {
    if t in env.filter then Step(st, [], Done)
    else if st.open && !env.settings.autocloseChunks then Step(st, [], Raised(ChunkAlreadyOpen))
    else
      var closing := if st.open then EndChunkStep(env, st).emitted else [];
      match ColorOf(t)
      case None => Step(ChunkState(false, Some(t)), closing, Raised(KeyError))
      case Some(color) =>
        var header := StartHeader(env.settings.nocolor, t, color);
        Step(ChunkState(true, Some(t)), closing + Emitted(env.filter, t, header + " " + message), Done)
  }

  /** The type `print` filters a continuation line by: its own, else the chunk's. */
  function EffectiveType(st: ChunkState, t: Option<MessageType>): (r: MessageType)
    requires st.msgtype.Some?
    ensures t.Some? ==> r == t.value
    ensures t.None? ==> r == st.msgtype.value
  {
    if t.Some? then t.value else st.msgtype.value
  }

  /** A continuation line: the continuation glyph in the chunk's colour, then the label
      of `t` in its own colour (or a blank label in the chunk's colour), then the message.
      Fails when `t` has no colour. */
  function ContinuationLine(nocolor: bool, st: ChunkState, t: Option<MessageType>, message: string): (r: Result<string>)
    requires Coherent(st) && st.open
    ensures r.Success? <==> t.None? || HasColor(t.value)
  {
    var symbol := Colorize(nocolor, ChunkContinued, ActiveColor(st));
    match t
    case None =>
      Success(symbol + " " + Colorize(nocolor, LJust(Label(Void), 5), ActiveColor(st)) + " " + message)
    case Some(k) =>
      match ColorOf(k)
      case None => Failure(KeyError)
      case Some(color) => Success(symbol + " " + Colorize(nocolor, LJust(Label(k), 5), color) + " " + message)
  }

  /** `print(message, t)`. On a closed context it raises: NoChunk without a type, and
      AttributeError with one, because the class `MessageType` is passed on to
      `print_single` in place of the type. */
  function PrintStep(env: Env, st: ChunkState, message: string, t: Option<MessageType>): (r: Step)
    requires Coherent(st)
    // never changes the context, and prints at most one line
    ensures r.state == st
    ensures |r.emitted| <= 1
    ensures !st.open ==> r.emitted == [] && r.status == Raised(if t.None? then NoChunk else AttributeError)
    ensures st.open ==> (r.status == Done <==> t.None? || HasColor(t.value))
    ensures r.status.Raised? ==> r.emitted == []
    // on an open chunk only a type without a colour makes it raise
    ensures st.open && r.status.Raised? ==> r.status == Raised(KeyError)
    // the line is dropped exactly when the effective type is filtered
    ensures st.open && r.status == Done ==>
      (r.emitted == [] <==> EffectiveType(st, t) in env.filter) &&
      (r.emitted != [] ==> r.emitted == [ContinuationLine(env.settings.nocolor, st, t, message).value])
  {
    if !st.open then
      if t.None? then Step(st, [], Raised(NoChunk)) else Step(st, [], Raised(AttributeError))
    else
      match ContinuationLine(env.settings.nocolor, st, t, message)
      case Failure(e) => Step(st, [], Raised(e))
      case Success(line) => Step(st, Emitted(env.filter, EffectiveType(st, t), line), Done)
  }

  /** `print_single(message, t)`. */
  function PrintSingleStep(env: Env, st: ChunkState, message: string, t: MessageType): (r: Step)
    requires Coherent(st)
    ensures Coherent(r.state)
    // raises with no output on an open chunk without auto-close
    ensures st.open && !env.settings.autocloseChunks ==> r == Step(st, [], Raised(ChunkAlreadyOpen))
    // otherwise the context is closed afterwards; the closing marker is printed whatever
    // the filter says, and the filter only drops the single line
    ensures !(st.open && !env.settings.autocloseChunks) ==>
      !r.state.open &&
      r.state == (if st.open then Closed else st) &&
      r.status == (if HasColor(t) then Done else Raised(KeyError)) &&
      r.emitted ==
        (if st.open then EndLines(env.settings.nocolor, ActiveColor(st)) else []) +
        (if HasColor(t) && t !in env.filter
         then [SingleHeader(env.settings.nocolor, t, ColorOf(t).value) + " " + message]
         else [])
  {
    if st.open && !env.settings.autocloseChunks then Step(st, [], Raised(ChunkAlreadyOpen))
    else
      var closed := if st.open then EndChunkStep(env, st) else Step(st, [], Done);
      match ColorOf(t)
      case None => Step(closed.state, closed.emitted, Raised(KeyError))
      case Some(color) =>
        var header := SingleHeader(env.settings.nocolor, t, color);
        Step(closed.state, closed.emitted + Emitted(env.filter, t, header + " " + message), Done)
  }

  /** `FancyPrintContext(message, t)`: the type is stored, then a chunk is opened when a
      type is given. A filtered type leaves the context closed but typed. */
  function InitStep(env: Env, message: string, t: Option<MessageType>): (r: Step)
    ensures Coherent(r.state)
    ensures t.None? ==> r == Step(Closed, [], Done)
    ensures t.Some? && t.value in env.filter ==> r == Step(ChunkState(false, t), [], Done)
    ensures t.Some? ==> (r.state.open <==> t.value !in env.filter && HasColor(t.value))
    // an unfiltered type is stored, and its header printed, or KeyError raised for VOID
    ensures t.Some? && t.value !in env.filter ==>
      r == (if HasColor(t.value)
            then Step(ChunkState(true, t), [StartHeader(env.settings.nocolor, t.value, ColorOf(t.value).value) + " " + message], Done)
            else Step(ChunkState(false, t), [], Raised(KeyError)))
  {
    if t.None? then Step(Closed, [], Done)
    else NewChunkStep(env, ChunkState(false, t), message, t.value)
  }

  /** A second `end_chunk` prints nothing and changes nothing. */
  lemma EndChunkIdempotent(env: Env, st: ChunkState)
    requires Coherent(st)
    ensures var first := EndChunkStep(env, st);
      EndChunkStep(env, first.state) == Step(first.state, [], Done)
  {
  }

  /** Under the default settings (auto-close on) neither `new_chunk` nor `print_single`
      raises ChunkAlreadyOpen: an open chunk is closed first. */
  lemma DefaultSettingsAutoclose(filter: set<MessageType>, st: ChunkState, message: string, t: MessageType)
    requires Coherent(st)
    ensures var env := Env(DefaultSettings, filter);
      NewChunkStep(env, st, message, t).status != Raised(ChunkAlreadyOpen) &&
      PrintSingleStep(env, st, message, t).status != Raised(ChunkAlreadyOpen)
  {
  }

  /** Auto-closing puts the old chunk's closing marker and blank line before the new
      chunk's header, and leaves the new chunk open under its type. */
  lemma AutocloseOrder(env: Env, st: ChunkState, message: string, t: MessageType)
    requires Coherent(st) && st.open && env.settings.autocloseChunks
    requires t !in env.filter && HasColor(t)
    ensures var r := NewChunkStep(env, st, message, t);
      r.status == Done && r.state == ChunkState(true, Some(t)) &&
      |r.emitted| == 3 &&
      r.emitted[..2] == EndLines(env.settings.nocolor, ActiveColor(st)) &&
      r.emitted[1] == "\n"
  {
  }

  /** Inside an open chunk a line of the chunk's own type is dropped exactly when the
      chunk's type is filtered, and an explicit type only swaps which type is checked. */
  lemma ContinuationFilteredByEffectiveType(env: Env, st: ChunkState, message: string, t: Option<MessageType>)
    requires Coherent(st) && st.open
    requires t.None? || HasColor(t.value)
    ensures var r := PrintStep(env, st, message, t);
      r.status == Done && r.state == st &&
      (|r.emitted| == 1 <==> (if t.Some? then t.value else st.msgtype.value) !in env.filter)
  {
  }

  /** True when a string holds no escape character. */
  predicate Plain(s: string) {
    forall i :: 0 <= i < |s| ==> s[i] != Escape
  }

  lemma PlainConcat(a: string, b: string)
    requires Plain(a) && Plain(b)
    ensures Plain(a + b)
  {
    assert forall i :: 0 <= i < |a + b| ==> (a + b)[i] == if i < |a| then a[i] else b[i - |a|];
  }

  lemma PlainLabel(t: MessageType)
    ensures Plain(LJust(Label(t), 5))
  {
    var l := LJust(Label(t), 5);
    forall i | 0 <= i < |l|
      ensures l[i] != Escape
    {
      if i < |Label(t)| {
        assert l[i] == Label(t)[i];
      }
    }
  }

  /** Under `nocolor` the end marker and the blank line hold no escape character. */
  lemma NoColorEndChunk(env: Env, st: ChunkState)
    requires Coherent(st) && env.settings.nocolor
    ensures forall line <- EndChunkStep(env, st).emitted :: Plain(line)
  {
    assert Plain("\n") && Plain(ChunkEnd);
  }

  /** A header glyph, the padded label and the message, without colour. */
  lemma PlainHeaderLine(glyph: string, t: MessageType, message: string)
    requires Plain(glyph) && Plain(message)
    ensures Plain(glyph + " " + LJust(Label(t), 5) + " " + message)
  {
    PlainLabel(t);
    PlainConcat(glyph, " ");
    PlainConcat(glyph + " ", LJust(Label(t), 5));
    PlainConcat(glyph + " " + LJust(Label(t), 5), " ");
    PlainConcat(glyph + " " + LJust(Label(t), 5) + " ", message);
  }

  /** Under `nocolor`, `new_chunk` writes no escape character unless the message holds
      one. */
  lemma NoColorNewChunk(env: Env, st: ChunkState, message: string, t: MessageType)
    requires Coherent(st) && env.settings.nocolor && Plain(message)
    ensures forall line <- NewChunkStep(env, st, message, t).emitted :: Plain(line)
  {
    NoColorEndChunk(env, st);
    PlainHeaderLine(ChunkStart, t, message);
  }

  /** Under `nocolor`, `print` writes no escape character unless the message holds one. */
  lemma NoColorPrint(env: Env, st: ChunkState, message: string, t: Option<MessageType>)
    requires Coherent(st) && env.settings.nocolor && Plain(message)
    ensures forall line <- PrintStep(env, st, message, t).emitted :: Plain(line)
  {
    PlainHeaderLine(ChunkContinued, if t.Some? then t.value else Void, message);
  }

  /** Under `nocolor`, `print_single` writes no escape character unless the message holds
      one. */
  lemma NoColorPrintSingle(env: Env, st: ChunkState, message: string, t: MessageType)
    requires Coherent(st) && env.settings.nocolor && Plain(message)
    ensures forall line <- PrintSingleStep(env, st, message, t).emitted :: Plain(line)
  {
    NoColorEndChunk(env, st);
    PlainHeaderLine(SingleLineChunk, t, message);
  }

  /** `FancyPrintContext`: whether a chunk is open, and under which type. */
  class FancyPrintContext {
    var open: bool
    var msgtype: Option<MessageType>
    const out: Stdout

    function State(): ChunkState
      reads this
    {
      ChunkState(open, msgtype)
    }

    ghost predicate Valid()
      reads this
    {
      Coherent(State())
    }

    /** `FancyPrintContext()`, as the global context is made. */
    constructor (out: Stdout)
      ensures Valid() && State() == Closed && this.out == out
    {
      this.out := out;
      open := false;
      msgtype := None;
    }

    /** `FancyPrintContext(message, t)`; a raised status means Python never binds the
        object. */
    static method Create(out: Stdout, env: Env, message: string, t: Option<MessageType>)
      returns (c: FancyPrintContext, s: Status)
      modifies out
      ensures fresh(c) && c.out == out && c.Valid()
      ensures var step := InitStep(env, message, t);
        c.State() == step.state && s == step.status && out.log == old(out.log) + step.emitted
    {
      c := new FancyPrintContext(out);
      c.msgtype := t;
      s := Done;
      if t.Some? {
        s := c.NewChunk(env, message, t.value);
      }
    }

    method NewChunk(env: Env, message: string, t: MessageType) returns (s: Status)
      requires Valid()
      modifies this, out
      ensures Valid()
      ensures var step := NewChunkStep(env, old(State()), message, t);
        State() == step.state && s == step.status && out.log == old(out.log) + step.emitted
    {
      if t in env.filter {
        return Done;
      }
      if open && !env.settings.autocloseChunks {
        return Raised(ChunkAlreadyOpen);
      } else if open && env.settings.autocloseChunks {
        EndChunk(env);
      }
      msgtype := Some(t);
      var color := ColorOf(t);
      if color.None? {
        return Raised(KeyError);
      }
      var header := StartHeader(env.settings.nocolor, t, color.value);
      FPrint(out, env, header + " " + message, t);
      open := true;
      return Done;
    }

    method EndChunk(env: Env)
      requires Valid()
      modifies this, out
      ensures Valid()
      ensures var step := EndChunkStep(env, old(State()));
        State() == step.state && out.log == old(out.log) + step.emitted
    {
      if open {
        out.Print(Colorize(env.settings.nocolor, ChunkEnd, ColorOf(msgtype.value).value));
        out.Print("\n");
      }
      msgtype := None;
      open := false;
    }

    /** `__exit__`: leaving a `with` block always ends the chunk. */
    method Exit(env: Env)
      requires Valid()
      modifies this, out
      ensures Valid() && State() == Closed
      ensures out.log == old(out.log) + EndChunkStep(env, old(State())).emitted
    {
      EndChunk(env);
    }

    method Print(env: Env, message: string, t: Option<MessageType>) returns (s: Status)
      requires Valid()
      modifies out
      ensures var step := PrintStep(env, State(), message, t);
        s == step.status && out.log == old(out.log) + step.emitted
    {
      if !open {
        if t.None? {
          return Raised(NoChunk);
        }
        // `print_single(message, MessageType)` fails on `MessageType.ljust`
        return Raised(AttributeError);
      }
      var symbol := Colorize(env.settings.nocolor, ChunkContinued, ColorOf(msgtype.value).value);
      var text: string;
      if t.Some? {
        var color := ColorOf(t.value);
        if color.None? {
          return Raised(KeyError);
        }
        text := Colorize(env.settings.nocolor, LJust(Label(t.value), 5), color.value);
      } else {
        text := Colorize(env.settings.nocolor, LJust(Label(Void), 5), ColorOf(msgtype.value).value);
      }
      FPrint(out, env, symbol + " " + text + " " + message, if t.Some? then t.value else msgtype.value);
      return Done;
    }

    method PrintSingle(env: Env, message: string, t: MessageType) returns (s: Status)
      requires Valid()
      modifies this, out
      ensures Valid()
      ensures var step := PrintSingleStep(env, old(State()), message, t);
        State() == step.state && s == step.status && out.log == old(out.log) + step.emitted
    {
      if open && env.settings.autocloseChunks {
        EndChunk(env);
      } else if open && !env.settings.autocloseChunks {
        return Raised(ChunkAlreadyOpen);
      }
      var color := ColorOf(t);
      if color.None? {
        return Raised(KeyError);
      }
      FPrint(out, env, SingleHeader(env.settings.nocolor, t, color.value) + " " + message, t);
      return Done;
    }
  }

  /** `Fancyfier`: collects what a wrapped function writes and forwards each completed
      line to a context as a continuation line. Pieces before `bufferIdx` were forwarded
      already. */
  class Fancyfier {
    var buffer: seq<string>
    var bufferIdx: nat
    const context: FancyPrintContext

    ghost predicate Valid()
      reads this
    {
      bufferIdx <= |buffer|
    }

    constructor (context: FancyPrintContext)
      ensures Valid() && buffer == [] && bufferIdx == 0 && this.context == context
    {
      buffer := [];
      bufferIdx := 0;
      this.context := context;
    }

    /** The text written since the last forwarded line. */
    function Pending(): (r: string)
      requires Valid()
      reads this
      ensures |r| == TotalLength(buffer[bufferIdx..])
    {
      Concat(buffer[bufferIdx..])
    }

    /** `write(stuff)`: a newline forwards the pending text through `print` and marks it
        forwarded (unless `print` raised); anything else is buffered silently. */
    method Write(env: Env, stuff: string) returns (s: Status)
      requires Valid() && context.Valid()
      modifies this, context.out
      ensures Valid()
      ensures stuff != "\n" ==>
        s == Done && buffer == old(buffer) + [stuff] && bufferIdx == old(bufferIdx) &&
        context.out.log == old(context.out.log)
      ensures stuff == "\n" ==>
        var step := PrintStep(env, context.State(), old(Pending()), None);
        s == step.status && buffer == old(buffer) &&
        bufferIdx == (if s == Done then |buffer| else old(bufferIdx)) &&
        context.out.log == old(context.out.log) + step.emitted
    {
      if stuff == "\n" {
        s := context.Print(env, Concat(buffer[bufferIdx..]), None);
        if s == Done {
          bufferIdx := |buffer|;
        }
      } else {
        buffer := buffer + [stuff];
        s := Done;
      }
    }
  }

  /** Pieces written after the last forwarded line are forwarded together, in order. */
  lemma PendingAfterWrites(buffer: seq<string>, idx: nat, pieces: seq<string>)
    requires idx <= |buffer|
    ensures Concat((buffer + pieces)[idx..]) == Concat(buffer[idx..]) + Concat(pieces)
  {
    assert (buffer + pieces)[idx..] == buffer[idx..] + pieces;
    ConcatAppend(buffer[idx..], pieces);
  }

  /** The continuation lines `print(line)` leaves in the log for each of `lines` in turn,
      on an open chunk. */
  function ContinuationLines(env: Env, st: ChunkState, lines: seq<string>): (r: seq<string>)
    requires Coherent(st) && st.open
    ensures st.msgtype.value in env.filter ==> r == []
    ensures st.msgtype.value !in env.filter ==> |r| == |lines|
  {
    if lines == [] then []
    else ContinuationLines(env, st, lines[..|lines| - 1]) + PrintStep(env, st, lines[|lines| - 1], None).emitted
  }

  /** On an open chunk whose type is not filtered, the `i`-th entry `print` leaves for
      `lines` is the continuation line of `lines[i]`. */
  lemma {:induction false} ContinuationLinesEach(env: Env, st: ChunkState, lines: seq<string>)
    requires Coherent(st) && st.open && st.msgtype.value !in env.filter
    ensures var r := ContinuationLines(env, st, lines);
      |r| == |lines| &&
      forall i :: 0 <= i < |lines| ==> r[i] == ContinuationLine(env.settings.nocolor, st, None, lines[i]).value
  {
    if lines != [] {
      var init := lines[..|lines| - 1];
      ContinuationLinesEach(env, st, init);
      var r := ContinuationLines(env, st, lines);
      forall i | 0 <= i < |lines|
        ensures r[i] == ContinuationLine(env.settings.nocolor, st, None, lines[i]).value
      {
        if i < |lines| - 1 {
          assert r[i] == ContinuationLines(env, st, init)[i];
          assert lines[i] == init[i];
        }
      }
    }
  }

  /** The longest key. */
  function MaxKeyLength(items: seq<(string, string)>): (m: nat)
    requires items != []
    ensures forall i :: 0 <= i < |items| ==> |items[i].0| <= m
    ensures exists i :: 0 <= i < |items| && |items[i].0| == m
  {
    if |items| == 1 then |items[0].0|
    else
      var rest := MaxKeyLength(items[1..]);
      assert forall i :: 1 <= i < |items| ==> items[i] == items[1..][i - 1];
      if |items[0].0| < rest then rest else |items[0].0|
  }

  /** The width keys are padded to: `max_key_len`, or the longest key when it is `None`
      or 0; with neither, `max([])` raises ValueError. */
  function KeyWidth(items: seq<(string, string)>, maxKeyLen: Option<int>): (r: Result<int>)
    ensures r.Failure? <==> items == [] && (maxKeyLen.None? || maxKeyLen.value == 0)
    ensures r.Failure? ==> r.error == ValueError
    ensures r.Success? && maxKeyLen.Some? && maxKeyLen.value != 0 ==> r.value == maxKeyLen.value
    ensures r.Success? && (maxKeyLen.None? || maxKeyLen.value == 0) ==>
      items != [] && r.value == MaxKeyLength(items)
  {
    if maxKeyLen.Some? && maxKeyLen.value != 0 then Success(maxKeyLen.value)
    else if items == [] then Failure(ValueError)
    else Success(MaxKeyLength(items))
  }

  /** The key field of an enumeration line: the key padded to the width, then cut to
      `max_key_len`. */
  function KeyField(key: string, width: int, maxKeyLen: Option<int>): (r: string)
    ensures maxKeyLen.None? ==> r == LJust(key, width)
    ensures r <= LJust(key, width)
    ensures maxKeyLen.Some? && 0 <= maxKeyLen.value <= Max(|key|, width) ==> |r| == maxKeyLen.value
  {
    SliceToOpt(LJust(key, width), maxKeyLen)
  }

  /** One enumeration line: bullet, key field, ` = `, the value cut to `max_val_len`. */
  function EnumLine(key: string, val: string, width: int, maxKeyLen: Option<int>, maxValLen: Option<int>): (r: string)
    ensures var f, v := KeyField(key, width, maxKeyLen), SliceToOpt(val, maxValLen);
      |r| == |Enumeration| + 4 + |f| + |v| &&
      r[..|Enumeration| + 1] == Enumeration + " " &&
      r[|Enumeration| + 1..|Enumeration| + 1 + |f|] == f &&
      r[|Enumeration| + 1 + |f|..|Enumeration| + 4 + |f|] == " = " &&
      r[|r| - |v|..] == v
  {
    Enumeration + " " + KeyField(key, width, maxKeyLen) + " = " + SliceToOpt(val, maxValLen)
  }

  function EnumLines(items: seq<(string, string)>, width: int, maxKeyLen: Option<int>, maxValLen: Option<int>): (r: seq<string>)
    ensures |r| == |items|
  {
    seq(|items|, i requires 0 <= i < |items| => EnumLine(items[i].0, items[i].1, width, maxKeyLen, maxValLen))
  }

  /** The key fields of an enumeration all have one width: `max_key_len` when it is
      positive, otherwise the longest key (all of them blank when it is 0). */
  lemma EnumKeysAligned(items: seq<(string, string)>, maxKeyLen: Option<int>, i: nat)
    requires i < |items|
    requires KeyWidth(items, maxKeyLen).Success?
    ensures var w := KeyWidth(items, maxKeyLen).value;
      var f := KeyField(items[i].0, w, maxKeyLen);
      (maxKeyLen.Some? && maxKeyLen.value > 0 ==> |f| == maxKeyLen.value) &&
      (maxKeyLen.None? ==> |f| == w == MaxKeyLength(items)) &&
      (maxKeyLen == Some(0) ==> f == "")
  {
  }

  /** Printing `lines` one by one through `print` on a context in state `st`: on a closed
      context the first line raises; on an open one every line is a continuation. */
  function PrintLinesStep(env: Env, st: ChunkState, lines: seq<string>): (r: Step)
    requires Coherent(st)
    ensures r.state == st
    ensures r.status == (if lines != [] && !st.open then Raised(NoChunk) else Done)
    ensures r.emitted == (if st.open then ContinuationLines(env, st, lines) else [])
  {
    if lines == [] then Step(st, [], Done)
    else if !st.open then Step(st, [], Raised(NoChunk))
    else Step(st, ContinuationLines(env, st, lines), Done)
  }

  /** Running `first`, then (if it returned) `second` from the state `first` left. */
  function Then(first: Step, second: Step): (r: Step)
    ensures first.status.Raised? ==> r == first
    ensures first.status == Done ==> r == Step(second.state, first.emitted + second.emitted, second.status)
  {
    if first.status.Raised? then first
    else Step(second.state, first.emitted + second.emitted, second.status)
  }

  /** Opening the chunk `print_enum` needs: nothing when one is open, otherwise `new_chunk`,
      which needs a type. */
  function EnumOpenStep(env: Env, st: ChunkState, t: Option<MessageType>, message: string): (r: Step)
    requires Coherent(st)
    ensures Coherent(r.state)
    ensures st.open ==> r == Step(st, [], Done)
    ensures !st.open && t.None? ==> r == Step(st, [], Raised(NoChunk))
    ensures !st.open && t.Some? ==> r == NewChunkStep(env, st, message, t.value)
  {
    if st.open then Step(st, [], Done)
    else if t.None? then Step(st, [], Raised(NoChunk))
    else NewChunkStep(env, st, message, t.value)
  }

  /** What follows the opening: the lines, then `end_chunk` unless `keepOpen`. */
  function EnumBodyStep(env: Env, st: ChunkState, items: seq<(string, string)>, maxKeyLen: Option<int>,
                        maxValLen: Option<int>, keepOpen: bool): (r: Step)
    requires Coherent(st)
    ensures Coherent(r.state)
    // no key width: `max([])` raises before anything is printed
    ensures KeyWidth(items, maxKeyLen).Failure? ==> r == Step(st, [], Raised(ValueError))
    // on an open chunk: one continuation line per item, in order, then the closing
    ensures st.open && KeyWidth(items, maxKeyLen).Success? ==>
      r.status == Done && r.state == (if keepOpen then st else Closed) &&
      r.emitted ==
        ContinuationLines(env, st, EnumLines(items, KeyWidth(items, maxKeyLen).value, maxKeyLen, maxValLen)) +
        (if keepOpen then [] else EndLines(env.settings.nocolor, ActiveColor(st)))
    // on a closed one the first item raises; with no items only `end_chunk` runs
    ensures !st.open && KeyWidth(items, maxKeyLen).Success? ==>
      r.emitted == [] &&
      r.status == (if items == [] then Done else Raised(NoChunk)) &&
      r.state == (if items == [] && !keepOpen then Closed else st)
  {
    match KeyWidth(items, maxKeyLen)
    case Failure(e) => Step(st, [], Raised(e))
    case Success(w) =>
      var lines := PrintLinesStep(env, st, EnumLines(items, w, maxKeyLen, maxValLen));
      Then(lines, if keepOpen then Step(st, [], Done) else EndChunkStep(env, st))
  }

  /** The chunk `print_enum` prints into: the open one, or the one `new_chunk` opens. */
  function EnumChunk(st: ChunkState, t: Option<MessageType>): ChunkState {
    if st.open then st else ChunkState(true, t)
  }

  /** What `print_enum` prints before the items: nothing into an open chunk, otherwise the
      header of the chunk `new_chunk` opens. */
  function EnumOpening(env: Env, st: ChunkState, t: Option<MessageType>, message: string): seq<string>
    requires !st.open ==> t.Some? && HasColor(t.value)
  {
    if st.open then [] else [StartHeader(env.settings.nocolor, t.value, ColorOf(t.value).value) + " " + message]
  }

  /** `print_enum` on a context in state `st`: open a chunk when none is open, print one
      continuation line per item in order, then close the chunk unless `keepOpen`. */
  function PrintEnumStep(env: Env, st: ChunkState, items: seq<(string, string)>, t: Option<MessageType>,
                         message: string, maxKeyLen: Option<int>, maxValLen: Option<int>, keepOpen: bool): (r: Step)
    requires Coherent(st)
    ensures Coherent(r.state)
    // no open chunk and no type to open one with
    ensures !st.open && t.None? ==> r == Step(st, [], Raised(NoChunk))
    // a type without a colour: `new_chunk` raises KeyError after storing it
    ensures !st.open && t.Some? && t.value !in env.filter && !HasColor(t.value) ==>
      r == Step(ChunkState(false, t), [], Raised(KeyError))
    // a filtered type opens nothing, so the first item raises
    ensures !st.open && t.Some? && t.value in env.filter ==>
      r.emitted == [] &&
      r.status == (if KeyWidth(items, maxKeyLen).Failure? then Raised(ValueError)
                   else if items == [] then Done else Raised(NoChunk)) &&
      r.state == (if KeyWidth(items, maxKeyLen).Success? && items == [] && !keepOpen then Closed else st)
    // otherwise the chunk printed into is the open one or the one `new_chunk` opens; its
    // header comes first, then one continuation line per item, then the closing
    ensures st.open || (t.Some? && t.value !in env.filter && HasColor(t.value)) ==>
      var c := EnumChunk(st, t);
      var opening := EnumOpening(env, st, t, message);
      (KeyWidth(items, maxKeyLen).Failure? ==> r == Step(c, opening, Raised(ValueError))) &&
      (KeyWidth(items, maxKeyLen).Success? ==>
         r.status == Done && r.state == (if keepOpen then c else Closed) &&
         r.emitted ==
           opening +
           (ContinuationLines(env, c, EnumLines(items, KeyWidth(items, maxKeyLen).value, maxKeyLen, maxValLen)) +
            (if keepOpen then [] else EndLines(env.settings.nocolor, ActiveColor(c)))))
  {
    if st.open then EnumBodyStep(env, st, items, maxKeyLen, maxValLen, keepOpen)
    else if t.None? then Step(st, [], Raised(NoChunk))
    else
      var start := NewChunkStep(env, st, message, t.value);
      if start.status.Raised? then start
      else Then(start, EnumBodyStep(env, start.state, items, maxKeyLen, maxValLen, keepOpen))
  }

  /** The continuation line of each item's enumeration line, in the dictionary's order. */
  function EnumPrinted(nocolor: bool, c: ChunkState, items: seq<(string, string)>, w: int,
                       maxKeyLen: Option<int>, maxValLen: Option<int>): (r: seq<string>)
    requires Coherent(c) && c.open
    ensures |r| == |items|
  {
    seq(|items|, i requires 0 <= i < |items| =>
      ContinuationLine(nocolor, c, None, EnumLine(items[i].0, items[i].1, w, maxKeyLen, maxValLen)).value)
  }

  /** On an unfiltered chunk, printing the enumeration lines one by one leaves exactly
      `EnumPrinted` in the log. */
  lemma EnumLinesPrinted(env: Env, c: ChunkState, items: seq<(string, string)>, w: int,
                         maxKeyLen: Option<int>, maxValLen: Option<int>)
    requires Coherent(c) && c.open && c.msgtype.value !in env.filter
    ensures ContinuationLines(env, c, EnumLines(items, w, maxKeyLen, maxValLen)) ==
            EnumPrinted(env.settings.nocolor, c, items, w, maxKeyLen, maxValLen)
  {
    var lines := EnumLines(items, w, maxKeyLen, maxValLen);
    ContinuationLinesEach(env, c, lines);
    var cl, ep := ContinuationLines(env, c, lines), EnumPrinted(env.settings.nocolor, c, items, w, maxKeyLen, maxValLen);
    forall i | 0 <= i < |items|
      ensures cl[i] == ep[i]
    {
      assert lines[i] == EnumLine(items[i].0, items[i].1, w, maxKeyLen, maxValLen);
    }
  }

  /** Into an unfiltered chunk, `print_enum` prints the opening header (if it opened the
      chunk), then the continuation line of each item's enumeration line in the
      dictionary's order, then the two closing entries unless `keepOpen`. */
  lemma PrintEnumLinesInOrder(env: Env, st: ChunkState, items: seq<(string, string)>, t: Option<MessageType>,
                              message: string, maxKeyLen: Option<int>, maxValLen: Option<int>, keepOpen: bool)
    requires Coherent(st)
    requires if st.open then st.msgtype.value !in env.filter else t.Some? && t.value !in env.filter && HasColor(t.value)
    requires KeyWidth(items, maxKeyLen).Success?
    ensures var r := PrintEnumStep(env, st, items, t, message, maxKeyLen, maxValLen, keepOpen);
      var c := EnumChunk(st, t);
      r.status == Done &&
      r.emitted ==
        EnumOpening(env, st, t, message) +
        (EnumPrinted(env.settings.nocolor, c, items, KeyWidth(items, maxKeyLen).value, maxKeyLen, maxValLen) +
         (if keepOpen then [] else EndLines(env.settings.nocolor, ActiveColor(c))))
  {
    EnumLinesPrinted(env, EnumChunk(st, t), items, KeyWidth(items, maxKeyLen).value, maxKeyLen, maxValLen);
  }

  /** Prints `lines` in order through `ctx.print`, stopping at the first that raises. */
  method PrintLines(ctx: FancyPrintContext, env: Env, lines: seq<string>) returns (s: Status)
    requires ctx.Valid()
    modifies ctx.out
    ensures var step := PrintLinesStep(env, ctx.State(), lines);
      s == step.status && ctx.out.log == old(ctx.out.log) + step.emitted
  {
    s := Done;
    ghost var log0 := ctx.out.log;
    var i := 0;
    while i < |lines| && s == Done
      invariant 0 <= i <= |lines|
      invariant ctx.open ==> s == Done && ctx.out.log == log0 + ContinuationLines(env, ctx.State(), lines[..i])
      invariant !ctx.open ==> ctx.out.log == log0 && (if i == 0 then s == Done else s == Raised(NoChunk))
    {
      s := PrintNextLine(ctx, env, lines, i, log0);
      i := i + 1;
    }
    if s == Done {
      assert lines[..i] == lines;
    }
  }

  /** One `print` of the loop of `PrintLines`: line `i`, after the lines before it. */
  method PrintNextLine(ctx: FancyPrintContext, env: Env, lines: seq<string>, i: nat, ghost log0: seq<string>)
    returns (s: Status)
    requires ctx.Valid() && i < |lines|
    requires ctx.open ==> ctx.out.log == log0 + ContinuationLines(env, ctx.State(), lines[..i])
    requires !ctx.open ==> ctx.out.log == log0
    modifies ctx.out
    ensures ctx.open ==> s == Done && ctx.out.log == log0 + ContinuationLines(env, ctx.State(), lines[..i + 1])
    ensures !ctx.open ==> s == Raised(NoChunk) && ctx.out.log == log0
  {
    s := ctx.Print(env, lines[i], None);
    if ctx.open {
      assert lines[..i + 1][..i] == lines[..i] && lines[..i + 1][i] == lines[i];
      AppendAssoc(log0, ContinuationLines(env, ctx.State(), lines[..i]),
                  PrintStep(env, ctx.State(), lines[i], None).emitted);
    }
  }

  /** The opening part of `print_enum`. */
  method EnumOpen(ctx: FancyPrintContext, env: Env, t: Option<MessageType>, message: string) returns (s: Status)
    requires ctx.Valid()
    modifies ctx, ctx.out
    ensures ctx.Valid()
    ensures var step := EnumOpenStep(env, old(ctx.State()), t, message);
      ctx.State() == step.state && s == step.status && ctx.out.log == old(ctx.out.log) + step.emitted
  {
    s := Done;
    if !ctx.open {
      if t.None? {
        return Raised(NoChunk);
      }
      s := ctx.NewChunk(env, message, t.value);
    }
  }

  /** The body of `print_enum`: the key width, the lines, the closing. */
  method EnumBody(ctx: FancyPrintContext, env: Env, items: seq<(string, string)>, maxKeyLen: Option<int>,
                  maxValLen: Option<int>, keepOpen: bool) returns (s: Status)
    requires ctx.Valid()
    modifies ctx, ctx.out
    ensures ctx.Valid()
    ensures var step := EnumBodyStep(env, old(ctx.State()), items, maxKeyLen, maxValLen, keepOpen);
      ctx.State() == step.state && s == step.status && ctx.out.log == old(ctx.out.log) + step.emitted
  {
    var width := KeyWidth(items, maxKeyLen);
    if width.Failure? {
      return Raised(width.error);
    }
    var lines := EnumLines(items, width.value, maxKeyLen, maxValLen);
    ghost var st := ctx.State();
    s := PrintLines(ctx, env, lines);
    if s.Raised? {
      return;
    }
    if !keepOpen {
      ctx.EndChunk(env);
      AppendAssoc(old(ctx.out.log), PrintLinesStep(env, st, lines).emitted, EndChunkStep(env, st).emitted);
    }
  }

  /** `print_enum(items, t, message, max_key_len, max_val_len, keep_open)`, on the context
      that stands for the global one. The dictionary is its items in insertion order, with
      the values already turned into strings. */
  method PrintEnum(ctx: FancyPrintContext, env: Env, items: seq<(string, string)>, t: Option<MessageType>,
                   message: string, maxKeyLen: Option<int>, maxValLen: Option<int>, keepOpen: bool)
    returns (s: Status)
    requires ctx.Valid()
    modifies ctx, ctx.out
    ensures ctx.Valid()
    ensures var step := PrintEnumStep(env, old(ctx.State()), items, t, message, maxKeyLen, maxValLen, keepOpen);
      ctx.State() == step.state && s == step.status && ctx.out.log == old(ctx.out.log) + step.emitted
  {
    s := EnumOpen(ctx, env, t, message);
    if s.Raised? {
      return;
    }
    ghost var opening := EnumOpenStep(env, old(ctx.State()), t, message).emitted;
    ghost var mid := ctx.State();
    s := EnumBody(ctx, env, items, maxKeyLen, maxValLen, keepOpen);
    AppendAssoc(old(ctx.out.log), opening, EnumBodyStep(env, mid, items, maxKeyLen, maxValLen, keepOpen).emitted);
  }

  lemma AppendAssoc<T>(a: seq<T>, b: seq<T>, c: seq<T>)
    ensures (a + b) + c == a + (b + c)
  {
  }
}
