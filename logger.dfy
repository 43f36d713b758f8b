/**
 * Model of bin/logger.py: a supervisord event listener that relays the
 * output lines of the supervised programs, each prefixed with the program's
 * name padded to the widest name seen so far.
 *
 * The three standard streams are fields of the listener: `stdin` is what is
 * still to be read, `stdout` the messages written to supervisord so far (one
 * element per flushed write) and `stderr` the relayed text so far. A Python
 * exception, which ends the listener, is an `Err`.
 */
module Logger {
  import opened Wrappers
  import opened PyText

  /** The exceptions the listener can die of. */
  datatype Failure =
    | MalformedToken(token: string)  // `dict()` given a token that is not one `key:value` pair
    | MissingKey(key: string)        // KeyError on a header
    | NotAnInteger(text: string)     // `int()` of the length header
    | NoPayloadHeader                // the payload has no "\n" to split at

  type Header = map<string, string>

  const StdoutEvent := "PROCESS_LOG_STDOUT"
  const StderrEvent := "PROCESS_LOG_STDERR"
  const Ready := "READY\n"
  const Acknowledge := "RESULT 2\nOK"

  // ---------------------------------------------------------------- headers

  /** A token makes a dict entry when splitting it at ':' gives exactly two parts. */
  predicate IsPair(token: string) {
    |SplitChar(token, ':')| == 2
  }

  /** `dict([x.split(":") for x in tokens])`: the entries in order, a later
      key replacing an earlier one; the first token that is not a pair
      raises. */
  function HeaderOf(tokens: seq<string>): (r: Result<Header, Failure>)
    ensures r.Err? ==> r.error.MalformedToken? && r.error.token in tokens && !IsPair(r.error.token)
    ensures r.Ok? ==> |r.value| <= |tokens|
    decreases |tokens|
  {
    if tokens == [] then Ok(map[])
    else
      var prev := HeaderOf(tokens[..|tokens| - 1]);
      assert prev.Err? ==> prev.error.token in tokens;
      var last := tokens[|tokens| - 1];
      var parts := SplitChar(last, ':');
      if prev.Err? then prev
      else if |parts| != 2 then Err(MalformedToken(last))
      else Ok(prev.value[parts[0] := parts[1]])
  }

  /** `_parse_header`: whitespace-separated `key:value` tokens. */
  function ParseHeader(data: string): (r: Result<Header, Failure>)
    ensures r.Err? ==> r.error.MalformedToken? && r.error.token in SplitWhitespace(data) && !IsPair(r.error.token)
    ensures r.Ok? ==> |r.value| <= |SplitWhitespace(data)|
  {
    HeaderOf(SplitWhitespace(data))
  }

  /** The tokens make a header exactly when every one of them is a pair;
      otherwise the error names the first one that is not. */
  lemma {:induction false} HeaderOfOk(tokens: seq<string>)
    ensures HeaderOf(tokens).Ok? <==> forall i :: 0 <= i < |tokens| ==> IsPair(tokens[i])
    ensures HeaderOf(tokens).Err? ==>
              exists k :: 0 <= k < |tokens| && !IsPair(tokens[k]) && HeaderOf(tokens).error == MalformedToken(tokens[k])
                          && forall j :: 0 <= j < k ==> IsPair(tokens[j])
    decreases |tokens|
  {
    if tokens != [] {
      var init := tokens[..|tokens| - 1];
      HeaderOfOk(init);
      assert forall i :: 0 <= i < |init| ==> init[i] == tokens[i];
    }
  }

  /** A header line parses exactly when each of its whitespace-separated
      tokens holds exactly one ':'. */
  lemma ParseHeaderOk(data: string)
    ensures ParseHeader(data).Ok? <==>
              forall i :: 0 <= i < |SplitWhitespace(data)| ==> multiset(SplitWhitespace(data)[i])[':'] == 1
  {
    var tokens := SplitWhitespace(data);
    HeaderOfOk(tokens);
    forall i | 0 <= i < |tokens| ensures IsPair(tokens[i]) <==> multiset(tokens[i])[':'] == 1 {
      SplitCharCount(tokens[i], ':');
    }
  }

  /** Splitting `key:value` at ':' gives the key and the value back. */
  lemma SplitPair(key: string, value: string)
    requires ':' !in key && ':' !in value
    ensures SplitChar(key + ":" + value, ':') == [key, value]
  {
    var s := key + ":" + value;
    assert s[|key|] == ':';
    assert s[..|key|] == key;
    assert IndexOf(s, ':') == |key|;
    assert s[|key| + 1..] == value;
  }

  /** The entries of a list of pairs, a later key replacing an earlier one. */
  function MapOf(pairs: seq<(string, string)>): Header
    decreases |pairs|
  {
    if pairs == [] then map[]
    else MapOf(pairs[..|pairs| - 1])[pairs[|pairs| - 1].0 := pairs[|pairs| - 1].1]
  }

  /** The `key:value` tokens of a list of pairs. */
  function Tokens(pairs: seq<(string, string)>): seq<string> {
    seq(|pairs|, i requires 0 <= i < |pairs| => pairs[i].0 + ":" + pairs[i].1)
  }

  /** A header line as supervisord writes it: the tokens separated by spaces. */
  function FormatHeader(pairs: seq<(string, string)>): string {
    JoinWith(" ", Tokens(pairs))
  }

  /** Keys and values that hold neither whitespace nor ':'. */
  predicate PlainPairs(pairs: seq<(string, string)>) {
    forall i :: 0 <= i < |pairs| ==> && NoSpace(pairs[i].0) && ':' !in pairs[i].0
                                     && NoSpace(pairs[i].1) && ':' !in pairs[i].1
  }

  lemma {:induction false} HeaderOfTokens(pairs: seq<(string, string)>)
    requires PlainPairs(pairs)
    ensures HeaderOf(Tokens(pairs)) == Ok(MapOf(pairs))
    decreases |pairs|
  {
    if pairs != [] {
      var n := |pairs|;
      var init := pairs[..n - 1];
      assert Tokens(pairs)[..n - 1] == Tokens(init);
      HeaderOfTokens(init);
      SplitPair(pairs[n - 1].0, pairs[n - 1].1);
    }
  }

  /** A header line written from plain pairs is parsed back into those
      pairs, a repeated key keeping its last value. */
  lemma ParseFormattedHeader(pairs: seq<(string, string)>)
    requires PlainPairs(pairs)
    ensures ParseHeader(FormatHeader(pairs)) == Ok(MapOf(pairs))
  {
    var tokens := Tokens(pairs);
    forall i | 0 <= i < |tokens| ensures tokens[i] != [] && NoSpace(tokens[i]) {
      assert tokens[i] == pairs[i].0 + ":" + pairs[i].1;
      assert tokens[i][|pairs[i].0|] == ':';
    }
    SplitJoinedWords(tokens);
    HeaderOfTokens(pairs);
  }

  // ---------------------------------------------------------------- payloads

  /** The text `_log_payload` writes for one payload: one line per data
      line, each behind `prefix`. */
  function Prefixed(prefix: string, lines: seq<string>): seq<string> {
    seq(|lines|, i requires 0 <= i < |lines| => prefix + lines[i])
  }

  /** `name.ljust(width) + " | "`. */
  function Prefix(name: string, width: nat): string {
    Ljust(name, width) + " | "
  }

  /** Everything written to stderr for the lines of one payload. */
  function Render(name: string, width: nat, lines: seq<string>): string {
    JoinLines(Prefixed(Prefix(name, width), lines))
  }

  /** The payload of a log event: its first line is a header naming the
      process, the rest is the program's output. */
  function ParsePayload(payload: string): (r: Result<(string, string), Failure>)
    ensures r.Err? && r.error == NoPayloadHeader <==> '\n' !in payload
    ensures '\n' in payload && r.Err? ==> r.error.MalformedToken? || r.error == MissingKey("processname")
  {
    match SplitOnce(payload, '\n')
    case None => Err(NoPayloadHeader)
    case Some((headerData, data)) =>
      match ParseHeader(headerData)
      case Err(e) => Err(e)
      case Ok(header) =>
        if "processname" !in header then Err(MissingKey("processname"))
        else Ok((header["processname"], data))
  }

  /** A payload that parses is its header line, the first "\n", and the
      data; the header line names the process. */
  lemma PayloadSplit(payload: string)
    requires ParsePayload(payload).Ok?
    ensures var data := ParsePayload(payload).value.1;
            var h := |payload| - |data| - 1;
            && 0 <= h && payload == payload[..h] + "\n" + data && '\n' !in payload[..h]
            && ParseHeader(payload[..h]).Ok? && "processname" in ParseHeader(payload[..h]).value
            && ParseHeader(payload[..h]).value["processname"] == ParsePayload(payload).value.0
  {
    var (headerData, data) := SplitOnce(payload, '\n').value;
    assert ParsePayload(payload).value.1 == data;
    assert |headerData| == |payload| - |data| - 1;
    assert payload == headerData + "\n" + data;
    assert payload[..|headerData|] == headerData;
  }

  /** The first half of `_log_payload`: the name shown, with ":ERR" added
      for stderr output, and the output split into lines. */
  function PayloadLines(payload: string, err: bool): (r: Result<(string, seq<string>), Failure>)
    ensures r.Ok? <==> ParsePayload(payload).Ok?
    ensures r.Err? ==> r.error == ParsePayload(payload).error
    ensures r.Ok? ==> forall i :: 0 <= i < |r.value.1| ==> NoLineBreak(r.value.1[i])
  {
    match ParsePayload(payload)
    case Err(e) => Err(e)
    case Ok((process, data)) => Ok((process + (if err then ":ERR" else ""), SplitLines(data)))
  }

  /** The stderr name is the stdout name with ":ERR" appended; the lines are the same. */
  lemma StderrNameSuffix(payload: string)
    ensures PayloadLines(payload, true).Ok? <==> PayloadLines(payload, false).Ok?
    ensures PayloadLines(payload, true).Ok? ==>
              && PayloadLines(payload, true).value.0 == PayloadLines(payload, false).value.0 + ":ERR"
              && PayloadLines(payload, true).value.1 == PayloadLines(payload, false).value.1
  {
  }

  /** The header line "processname:<name>" names the process and holds no newline. */
  lemma ProcessNameHeader(name: string)
    requires NoSpace(name) && ':' !in name
    ensures ParseHeader("processname:" + name) == Ok(map["processname" := name])
    ensures '\n' !in "processname:" + name
  {
    var headerData := "processname:" + name;
    assert NoSpace("processname") && ':' !in "processname";
    assert NoSpace("processname:");
    NoSpaceConcat("processname:", name);
    assert '\n' !in headerData by {
      assert forall i :: 0 <= i < |headerData| ==> !IsSpace(headerData[i]);
    }
    var pairs := [("processname", name)];
    ParseFormattedHeader(pairs);
    assert "processname" + ":" == "processname:";
    assert Tokens(pairs)[0] == headerData;
    assert Tokens(pairs) == [headerData];
    assert pairs[..0] == [];
  }

  /** A payload whose header names the process yields that name and the
      lines of the data after the first newline. */
  lemma NamedPayload(name: string, data: string, err: bool)
    requires NoSpace(name) && ':' !in name
    ensures PayloadLines("processname:" + name + "\n" + data, err)
            == Ok((name + (if err then ":ERR" else ""), SplitLines(data)))
  {
    ProcessNameHeader(name);
    SplitOnceAt("processname:" + name, data, '\n');
  }

  lemma {:induction false} JoinLinesAppend(lines: seq<string>, line: string)
    ensures JoinLines(lines + [line]) == JoinLines(lines) + line + "\n"
    decreases |lines|
  {
    if lines == [] {
      assert [] + [line] == [line];
    } else {
      assert (lines + [line])[1..] == lines[1..] + [line];
      JoinLinesAppend(lines[1..], line);
    }
  }

  /** Writing one more line behind the same prefix. */
  lemma PrefixedStep(prefix: string, lines: seq<string>, i: nat)
    requires i < |lines|
    ensures JoinLines(Prefixed(prefix, lines[..i + 1])) == JoinLines(Prefixed(prefix, lines[..i])) + (prefix + lines[i] + "\n")
  {
    assert Prefixed(prefix, lines[..i + 1]) == Prefixed(prefix, lines[..i]) + [prefix + lines[i]];
    JoinLinesAppend(Prefixed(prefix, lines[..i]), prefix + lines[i]);
  }

  /** The relayed text reads back, line by line, as the data lines each
      behind the prefix: one output line per data line, in order. */
  lemma RenderLines(name: string, width: nat, lines: seq<string>)
    requires NoSpace(name)
    requires forall i :: 0 <= i < |lines| ==> NoLineBreak(lines[i])
    ensures SplitLines(Render(name, width, lines)) == Prefixed(Prefix(name, width), lines)
    ensures |Prefixed(Prefix(name, width), lines)| == |lines|
  {
    var prefix := Prefix(name, width);
    var out := Prefixed(prefix, lines);
    assert NoSpace(prefix) ==> NoLineBreak(prefix) by {
      if NoSpace(prefix) {
        NoSpaceNoLineBreak(prefix);
      }
    }
    assert NoLineBreak(prefix) by {
      var padded := Ljust(name, width);
      forall k | 0 <= k < |prefix| ensures !IsLineBreak(prefix[k]) {
        if k < |name| {
          assert prefix[k] == name[k];
          assert !IsSpace(name[k]);
        } else if k < |padded| {
          assert prefix[k] == ' ';
        } else {
          assert prefix[k] == " | "[k - |padded|];
        }
      }
    }
    forall i | 0 <= i < |out| ensures NoLineBreak(out[i]) {
      assert out[i] == prefix + lines[i];
      assert NoLineBreak(lines[i]);
    }
    SplitJoinedLines(out);
  }

  /** Once the width covers the name, every prefix is exactly `width + 3`
      characters long, so the " | " separators line up. */
  lemma PrefixAligned(name: string, width: nat)
    requires |name| <= width
    ensures |Prefix(name, width)| == width + 3
    ensures Prefix(name, width)[..|name|] == name
    ensures Prefix(name, width)[width..] == " | "
  {
  }

  // ---------------------------------------------------------------- width

  /** The widest of the names, 0 for none: the class attribute starts at 0. */
  function MaxLen(names: seq<string>): nat
    decreases |names|
  {
    if names == [] then 0
    else
      var m := MaxLen(names[..|names| - 1]);
      if |names[|names| - 1]| > m then |names[|names| - 1]| else m
  }

  lemma MaxLenAppend(names: seq<string>, name: string)
    ensures MaxLen(names + [name]) == if |name| > MaxLen(names) then |name| else MaxLen(names)
  {
    assert (names + [name])[..|names|] == names;
  }

  /** The width is at least the length of every name seen, and is 0 or the
      length of one of them. */
  lemma {:induction false} MaxLenIsMax(names: seq<string>)
    ensures forall i :: 0 <= i < |names| ==> |names[i]| <= MaxLen(names)
    ensures MaxLen(names) == 0 || exists i :: 0 <= i < |names| && |names[i]| == MaxLen(names)
    decreases |names|
  {
    if names != [] {
      var init := names[..|names| - 1];
      MaxLenIsMax(init);
      assert forall i :: 0 <= i < |init| ==> init[i] == names[i];
    }
  }

  // ---------------------------------------------------------------- one event

  /** `sys.stdin.readline()`: up to and including the first "\n", or
      everything left when there is none. */
  function LineOf(input: string): (line: string)
    ensures |line| <= |input| && line == input[..|line|]
    ensures '\n' in input ==> line != [] && line[|line| - 1] == '\n' && '\n' !in line[..|line| - 1]
    ensures '\n' !in input ==> line == input
  {
    if '\n' in input then
      var i := IndexOf(input, '\n');
      assert input[..i + 1][..i] == input[..i];
      input[..i + 1]
    else input
  }

  /** How many characters `sys.stdin.read(n)` takes: all that is left for a
      negative `n`, otherwise at most `n`. */
  function ReadCount(available: nat, n: int): (k: nat)
    ensures k <= available
    ensures 0 <= n <= available ==> k == n
    ensures n < 0 || n > available ==> k == available
  {
    if n < 0 || n > available then available else n
  }

  /** A header with its payload, and the input left after them. */
  datatype Event = Event(header: Header, payload: string, rest: string)

  /** The reading half of one turn of `main_loop`: a header line, then
      exactly as many characters as its "len" says. */
  function ReadEvent(input: string): (r: Result<Event, Failure>)
    ensures r.Err? ==> r.error.MalformedToken? || r.error == MissingKey("len") || r.error.NotAnInteger?
    ensures r.Ok? ==> "len" in r.value.header && ParseInt(r.value.header["len"]).Some?
  {
    var line := LineOf(input);
    var after := input[|line|..];
    match ParseHeader(line)
    case Err(e) => Err(e)
    case Ok(header) =>
      if "len" !in header then Err(MissingKey("len"))
      else
        match ParseInt(header["len"])
        case None => Err(NotAnInteger(header["len"]))
        case Some(n) =>
          var k := ReadCount(|after|, n);
          Ok(Event(header, after[..k], after[k..]))
  }

  /** `ReadEvent` step by step: the header line, its "len", the payload. */
  lemma ReadEventOf(input: string)
    ensures var line := LineOf(input);
            var after := input[|line|..];
            var h := ParseHeader(line);
            && (h.Err? ==> ReadEvent(input) == Err(h.error))
            && (h.Ok? && "len" !in h.value ==> ReadEvent(input) == Err(MissingKey("len")))
            && (h.Ok? && "len" in h.value && ParseInt(h.value["len"]).None? ==>
                  ReadEvent(input) == Err(NotAnInteger(h.value["len"])))
            && (h.Ok? && "len" in h.value && ParseInt(h.value["len"]).Some? ==>
                  var k := ReadCount(|after|, ParseInt(h.value["len"]).value);
                  ReadEvent(input) == Ok(Event(h.value, after[..k], after[k..])))
  {
  }

  /** The payload is exactly "len" characters long when that many are
      available, and the input is the header line, the payload, then the rest. */
  lemma ReadEventExactly(input: string)
    requires ReadEvent(input).Ok?
    ensures var ev := ReadEvent(input).value;
            && input == LineOf(input) + ev.payload + ev.rest
            && (0 <= ParseInt(ev.header["len"]).value <= |input| - |LineOf(input)| ==>
                  |ev.payload| == ParseInt(ev.header["len"]).value)
  {
    var line := LineOf(input);
    var after := input[|line|..];
    var h := ParseHeader(line).value;
    var k := ReadCount(|after|, ParseInt(h["len"]).value);
    ReadEventOf(input);
    Rejoin(input, line, k);
  }

  /** Cutting the input after a prefix and again `k` characters later
      loses nothing. */
  lemma Rejoin(input: string, line: string, k: nat)
    requires |line| <= |input| && line == input[..|line|] && k <= |input| - |line|
    ensures input == line + input[|line|..][..k] + input[|line|..][k..]
  {
    var after := input[|line|..];
    assert after[..k] + after[k..] == after;
    assert line + after == input;
  }

  /** What one turn does besides reading: the new width, the text relayed
      to stderr, and the names it logged. */
  datatype Effect = Effect(width: nat, text: string, logged: seq<string>)

  /** `_log_payload` on pure values. */
  function LogEffect(width: nat, payload: string, err: bool): (r: Result<Effect, Failure>)
    ensures r.Ok? <==> PayloadLines(payload, err).Ok?
    ensures r.Err? ==> r.error == PayloadLines(payload, err).error
    ensures r.Ok? ==> && r.value.logged == [PayloadLines(payload, err).value.0]
                      && r.value.width >= width && r.value.width >= |r.value.logged[0]|
                      && (r.value.width == width || r.value.width == |r.value.logged[0]|)
  {
    match PayloadLines(payload, err)
    case Err(e) => Err(e)
    case Ok((name, lines)) =>
      var w := if |name| > width then |name| else width;
      Ok(Effect(w, Render(name, w, lines), [name]))
  }

  /** The dispatch of `main_loop`: stdout and stderr log events are relayed,
      any other event is only acknowledged. */
  function Handle(width: nat, header: Header, payload: string): (r: Result<Effect, Failure>)
    ensures "eventname" !in header ==> r == Err(MissingKey("eventname"))
    ensures "eventname" in header && header["eventname"] != StdoutEvent && header["eventname"] != StderrEvent ==>
              r == Ok(Effect(width, [], []))
    ensures "eventname" in header && header["eventname"] == StdoutEvent ==> r == LogEffect(width, payload, false)
    ensures "eventname" in header && header["eventname"] == StderrEvent ==> r == LogEffect(width, payload, true)
    ensures r.Ok? ==> r.value.width >= width && forall i :: 0 <= i < |r.value.logged| ==> |r.value.logged[i]| <= r.value.width
  {
    if "eventname" !in header then Err(MissingKey("eventname"))
    else if header["eventname"] == StdoutEvent then LogEffect(width, payload, false)
    else if header["eventname"] == StderrEvent then LogEffect(width, payload, true)
    else Ok(Effect(width, [], []))
  }

  /** `LogEffect` in terms of the parsed payload. */
  lemma LogEffectOf(width: nat, payload: string, err: bool)
    ensures ParsePayload(payload).Err? ==> LogEffect(width, payload, err) == Err(ParsePayload(payload).error)
    ensures ParsePayload(payload).Ok? ==>
              var name := ParsePayload(payload).value.0 + (if err then ":ERR" else "");
              var w := if |name| > width then |name| else width;
              LogEffect(width, payload, err) == Ok(Effect(w, Render(name, w, SplitLines(ParsePayload(payload).value.1)), [name]))
  {
  }

  /** The result of one turn of `main_loop`. */
  datatype Turn = Turn(result: Result<(), Failure>, effect: Effect, stdout: seq<string>, rest: string)

  /** One turn of `main_loop`: "READY\n", read an event, handle it, and
      acknowledge with "RESULT 2\nOK"; an exception ends the turn, after
      "READY\n" and before anything else. */
  function Iteration(width: nat, input: string): (t: Turn)
    ensures |t.stdout| >= 1 && t.stdout[0] == Ready
    ensures t.result.Ok? <==> t.stdout == [Ready, Acknowledge]
    ensures t.result.Err? ==> t.effect == Effect(width, [], [])
  {
    match ReadEvent(input)
    case Err(e) => Turn(Err(e), Effect(width, [], []), [Ready], [])
    case Ok(ev) =>
      match Handle(width, ev.header, ev.payload)
      case Err(e) => Turn(Err(e), Effect(width, [], []), [Ready], [])
      case Ok(effect) => Turn(Ok(()), effect, [Ready, Acknowledge], ev.rest)
  }

  /** A turn in terms of the event read and its handling. */
  lemma IterationOf(width: nat, input: string)
    ensures ReadEvent(input).Err? ==> Iteration(width, input) == Turn(Err(ReadEvent(input).error), Effect(width, [], []), [Ready], [])
    ensures ReadEvent(input).Ok? ==>
              var ev := ReadEvent(input).value;
              var h := Handle(width, ev.header, ev.payload);
              Iteration(width, input) == if h.Err? then Turn(Err(h.error), Effect(width, [], []), [Ready], [])
                                         else Turn(Ok(()), h.value, [Ready, Acknowledge], ev.rest)
  {
  }

  /** Two writes in a row add the two messages, in order. */
  lemma AppendTwo<T>(s: seq<T>, a: T, b: T)
    ensures s + [a] + [b] == s + [a, b]
  {
  }

  // ---------------------------------------------------------------- the listener

  /** `StderrRedirect`: the column width and the three standard streams;
      `names` records, for the proof, every name relayed so far. */
  class StderrRedirect {
    var width: nat
    var stdin: string
    var stdout: seq<string>
    var stderr: string
    ghost var names: seq<string>

    /** The width is always the widest name relayed so far. */
    ghost predicate Valid()
      reads this
    {
      width == MaxLen(names)
    }

    constructor (input: string)
      ensures Valid()
      ensures width == 0 && stdin == input && stdout == [] && stderr == [] && names == []
    {
      width := 0;
      stdin := input;
      stdout := [];
      stderr := [];
      names := [];
    }

    /** `_write`: append to stdout. */
    method Write(message: string)
      modifies this
      ensures stdout == old(stdout) + [message]
      ensures width == old(width) && stdin == old(stdin) && stderr == old(stderr) && names == old(names)
    {
      stdout := stdout + [message];
    }

    /** `sys.stdin.readline()`. */
    method ReadLine() returns (line: string)
      modifies this
      ensures line == LineOf(old(stdin)) && stdin == old(stdin)[|line|..]
      ensures width == old(width) && stdout == old(stdout) && stderr == old(stderr) && names == old(names)
    {
      line := LineOf(stdin);
      stdin := stdin[|line|..];
    }

    /** `sys.stdin.read(n)`. */
    method Read(n: int) returns (text: string)
      modifies this
      ensures text == old(stdin)[..ReadCount(|old(stdin)|, n)] && stdin == old(stdin)[ReadCount(|old(stdin)|, n)..]
      ensures width == old(width) && stdout == old(stdout) && stderr == old(stderr) && names == old(names)
    {
      var k := ReadCount(|stdin|, n);
      text := stdin[..k];
      stdin := stdin[k..];
    }

    /** `_log_payload`: widen the column to the name if needed, then write
      each data line behind the padded name. */
    method LogPayload(payload: string, err: bool) returns (r: Result<(), Failure>)
      requires Valid()
      modifies this
      ensures Valid()
      ensures r.Err? <==> LogEffect(old(width), payload, err).Err?
      ensures r.Err? ==> && r.error == LogEffect(old(width), payload, err).error
                         && width == old(width) && stderr == old(stderr) && names == old(names)
      ensures r.Ok? ==> && width == LogEffect(old(width), payload, err).value.width
                        && stderr == old(stderr) + LogEffect(old(width), payload, err).value.text
                        && names == old(names) + LogEffect(old(width), payload, err).value.logged
      ensures stdin == old(stdin) && stdout == old(stdout)
    {
      var parsed := ParsePayload(payload);
      if parsed.Err? {
        LogEffectOf(width, payload, err);
        return Err(parsed.error);
      }
      var (process, data) := parsed.value;
      var name := process + (if err then ":ERR" else "");
      Widen(name);
      var prefix := Ljust(name, width) + " | ";
      WriteLines(prefix, SplitLines(data));
      LogEffectOf(old(width), payload, err);
      r := Ok(());
    }

    /** `self.width = max(len(name), self.width)`. */
    method Widen(name: string)
      requires Valid()
      modifies this
      ensures Valid()
      ensures width == if |name| > old(width) then |name| else old(width)
      ensures names == old(names) + [name]
      ensures stderr == old(stderr) && stdin == old(stdin) && stdout == old(stdout)
    {
      if |name| > width {
        width := |name|;
      }
      MaxLenAppend(names, name);
      names := names + [name];
    }

    /** The loop of `_log_payload`: each line to stderr behind the prefix. */
    method WriteLines(prefix: string, lines: seq<string>)
      modifies this
      ensures stderr == old(stderr) + JoinLines(Prefixed(prefix, lines))
      ensures width == old(width) && names == old(names) && stdin == old(stdin) && stdout == old(stdout)
    {
      for i := 0 to |lines|
        invariant stderr == old(stderr) + JoinLines(Prefixed(prefix, lines[..i]))
        invariant width == old(width) && names == old(names) && stdin == old(stdin) && stdout == old(stdout)
      {
        PrefixedStep(prefix, lines, i);
        stderr := stderr + (prefix + lines[i] + "\n");
      }
      assert lines[..|lines|] == lines;
    }

    /** The dispatch of `main_loop` on the event name. */
    method Dispatch(header: Header, payload: string) returns (r: Result<(), Failure>)
      requires Valid()
      modifies this
      ensures Valid()
      ensures r.Err? <==> Handle(old(width), header, payload).Err?
      ensures r.Err? ==> && r.error == Handle(old(width), header, payload).error
                         && width == old(width) && stderr == old(stderr) && names == old(names)
      ensures r.Ok? ==> && width == Handle(old(width), header, payload).value.width
                        && stderr == old(stderr) + Handle(old(width), header, payload).value.text
                        && names == old(names) + Handle(old(width), header, payload).value.logged
      ensures stdin == old(stdin) && stdout == old(stdout)
    {
      if "eventname" !in header {
        return Err(MissingKey("eventname"));
      }
      if header["eventname"] == StdoutEvent {
        r := LogPayload(payload, false);
      } else if header["eventname"] == StderrEvent {
        r := LogPayload(payload, true);
      } else {
        r := Ok(());
        assert stderr + [] == stderr && names + [] == names;
      }
    }

    /** The reading half of a turn: the header line, then the payload of
        the length it gives. */
    method ReceiveEvent() returns (ev: Result<Event, Failure>)
      modifies this
      ensures ev == ReadEvent(old(stdin))
      ensures ev.Ok? ==> stdin == ev.value.rest
      ensures width == old(width) && stdout == old(stdout) && stderr == old(stderr) && names == old(names)
    {
      ReadEventOf(stdin);
      var line := ReadLine();
      var header := ParseHeader(line);
      if header.Err? {
        return Err(header.error);
      }
      if "len" !in header.value {
        return Err(MissingKey("len"));
      }
      var n := ParseInt(header.value["len"]);
      if n.None? {
        return Err(NotAnInteger(header.value["len"]));
      }
      var payload := Read(n.value);
      ev := Ok(Event(header.value, payload, stdin));
    }

    /** One turn of `main_loop`. */
    method Step() returns (r: Result<(), Failure>)
      requires Valid()
      modifies this
      ensures Valid()
      ensures var t := Iteration(old(width), old(stdin));
              && r == t.result
              && width == t.effect.width
              && stdout == old(stdout) + t.stdout
              && stderr == old(stderr) + t.effect.text
              && names == old(names) + t.effect.logged
              && (r.Ok? ==> stdin == t.rest)
    {
      IterationOf(width, stdin);
      ghost var t := Iteration(width, stdin);
      Write(Ready);
      var ev := ReceiveEvent();
      if ev.Err? {
        assert t == Turn(Err(ev.error), Effect(old(width), [], []), [Ready], []);
        return Err(ev.error);
      }
      ghost var h := Handle(width, ev.value.header, ev.value.payload);
      assert h.Err? ==> t == Turn(Err(h.error), Effect(old(width), [], []), [Ready], []);
      assert h.Ok? ==> t == Turn(Ok(()), h.value, [Ready, Acknowledge], ev.value.rest);
      r := Dispatch(ev.value.header, ev.value.payload);
      if r.Err? {
        return;
      }
      Write(Acknowledge);
      AppendTwo(old(stdout), Ready, Acknowledge);
      r := Ok(());
    }
  }
}
