/** The reverb-mode control console: every line read from standard input is trimmed, split at
    whitespace and dispatched as a command that adjusts one of the five reverb settings,
    switches the reverb off or quits the program. The passthrough mode's console only waits
    for an empty line. */
module Control {
  import opened Options
  import opened Maths
  import opened Playback

  /** Rust's `char::is_whitespace`: the characters with the Unicode White_Space property. */
  predicate IsWhitespace(c: char) {
    || 0x09 <= c as int <= 0x0D
    || c as int == 0x20
    || c as int == 0x85
    || c as int == 0xA0
    || c as int == 0x1680
    || 0x2000 <= c as int <= 0x200A
    || c as int == 0x2028
    || c as int == 0x2029
    || c as int == 0x202F
    || c as int == 0x205F
    || c as int == 0x3000
  }

  /** A piece `split_whitespace` can yield: non-empty and free of whitespace. */
  predicate IsToken(t: string) {
    t != [] && forall i :: 0 <= i < |t| ==> !IsWhitespace(t[i])
  }

  /** The longest whitespace-free prefix of `s`. */
  function Word(s: string): (w: string)
    ensures w <= s
    ensures forall i :: 0 <= i < |w| ==> !IsWhitespace(w[i])
    ensures |w| < |s| ==> IsWhitespace(s[|w|])
  {
    if s == [] || IsWhitespace(s[0]) then [] else [s[0]] + Word(s[1..])
  }

  /** `str::split_whitespace`: the maximal whitespace-free pieces of `s`, in order. */
  function Tokens(s: string): (r: seq<string>)
    ensures forall k :: 0 <= k < |r| ==> IsToken(r[k])
    decreases |s|
  {
    if s == [] then []
    else if IsWhitespace(s[0]) then Tokens(s[1..])
    else
      var w := Word(s);
      [w] + Tokens(s[|w|..])
  }

  /** Tokens written out with one space between each two. */
  function Join(ts: seq<string>): string {
    if ts == [] then []
    else if |ts| == 1 then ts[0]
    else ts[0] + " " + Join(ts[1..])
  }

  /** A token followed by nothing or by whitespace is the word at the front. */
  lemma {:induction false} WordOfToken(t: string, rest: string)
    requires IsToken(t) && (rest == [] || IsWhitespace(rest[0]))
    ensures Word(t + rest) == t
    decreases |t|
  {
    var s := t + rest;
    assert s[0] == t[0];
    if |t| == 1 {
      assert s[1..] == rest;
    } else {
      assert s[1..] == t[1..] + rest;
      WordOfToken(t[1..], rest);
    }
  }

  /** Splitting tokens joined by spaces gives the tokens back. */
  lemma {:induction false} TokensOfJoin(ts: seq<string>)
    requires forall k :: 0 <= k < |ts| ==> IsToken(ts[k])
    ensures Tokens(Join(ts)) == ts
    decreases |ts|
  {
    if |ts| == 1 {
      var t := ts[0];
      WordOfToken(t, []);
      assert t + [] == t;
      assert t[|t|..] == [];
    } else if |ts| > 1 {
      var t := ts[0];
      var rest := Join(ts[1..]);
      var s := t + " " + rest;
      WordOfToken(t, " " + rest);
      assert s == t + (" " + rest);
      assert s[|t|..] == " " + rest;
      assert (" " + rest)[1..] == rest;
      TokensOfJoin(ts[1..]);
    }
  }

  /** `str::trim_start`. */
  function TrimStart(s: string): (r: string)
    ensures |r| <= |s| && r == s[|s| - |r|..]
    ensures forall i :: 0 <= i < |s| - |r| ==> IsWhitespace(s[i])
    ensures r == [] || !IsWhitespace(r[0])
  {
    if s != [] && IsWhitespace(s[0]) then TrimStart(s[1..]) else s
  }

  /** `str::trim_end`. */
  function TrimEnd(s: string): (r: string)
    ensures |r| <= |s| && r == s[..|r|]
    ensures forall i :: |r| <= i < |s| ==> IsWhitespace(s[i])
    ensures r == [] || !IsWhitespace(r[|r| - 1])
  {
    if s != [] && IsWhitespace(s[|s| - 1]) then TrimEnd(s[..|s| - 1]) else s
  }

  /** `str::trim`: whitespace removed from both ends. */
  function Trim(s: string): (r: string)
    ensures |r| <= |s|
    ensures r == [] || (!IsWhitespace(r[0]) && !IsWhitespace(r[|r| - 1]))
  {
    TrimEnd(TrimStart(s))
  }

  /** Whitespace at the end separates nothing. */
  lemma {:induction false} TokensSnocWhitespace(s: string, c: char)
    requires IsWhitespace(c)
    ensures Tokens(s + [c]) == Tokens(s)
    decreases |s|
  {
    var t := s + [c];
    if s == [] {
      assert t[1..] == [];
    } else if IsWhitespace(s[0]) {
      assert t[1..] == s[1..] + [c];
      TokensSnocWhitespace(s[1..], c);
    } else {
      var w := Word(s);
      if |w| < |s| {
        WordOfToken(w, s[|w|..] + [c]);
        assert t == w + (s[|w|..] + [c]);
        WordOfToken(w, s[|w|..]);
        assert s == w + s[|w|..];
      } else {
        assert w == s;
        WordOfToken(w, [c]);
      }
      assert t[|w|..] == s[|w|..] + [c];
      TokensSnocWhitespace(s[|w|..], c);
    }
  }

  lemma {:induction false} TokensTrimStart(s: string)
    ensures Tokens(TrimStart(s)) == Tokens(s)
    decreases |s|
  {
    if s != [] && IsWhitespace(s[0]) {
      TokensTrimStart(s[1..]);
    }
  }

  lemma {:induction false} TokensTrimEnd(s: string)
    ensures Tokens(TrimEnd(s)) == Tokens(s)
    decreases |s|
  {
    if s != [] && IsWhitespace(s[|s| - 1]) {
      var front := s[..|s| - 1];
      TokensTrimEnd(front);
      TokensSnocWhitespace(front, s[|s| - 1]);
      assert front + [s[|s| - 1]] == s;
    }
  }

  /** Trimming before splitting, as the console does, changes no token. */
  lemma TokensOfTrim(s: string)
    ensures Tokens(Trim(s)) == Tokens(s)
  {
    TokensTrimStart(s);
    TokensTrimEnd(TrimStart(s));
  }

  /** A line is blank exactly when trimming leaves nothing, and then it has no tokens. */
  lemma {:induction false} BlankLine(s: string)
    ensures Trim(s) == [] <==> forall i :: 0 <= i < |s| ==> IsWhitespace(s[i])
    ensures Trim(s) == [] <==> Tokens(s) == []
    decreases |s|
  {
    TokensOfTrim(s);
    var r := Trim(s);
    if r != [] {
      assert !IsWhitespace(r[0]);
      assert Tokens(r) != [] by {
        assert Tokens(r) == [Word(r)] + Tokens(r[|Word(r)|..]);
      }
      var a := TrimStart(s);
      assert r == a[..|r|] && a == s[|s| - |a|..];
      assert s[|s| - |a|] == r[0];
    }
  }

  // ---------------------------------------------------------------------------------------
  // Command dispatch

  /** What one command line does: the new reverb settings, and whether it quits. */
  datatype Reply = Reply(settings: ReverbSettings, quit: bool)

  /** Every reverb setting lies in [0, 1]. */
  predicate InRange(s: ReverbSettings) {
    && 0.0 <= s.wet <= 1.0 && 0.0 <= s.dry <= 1.0 && 0.0 <= s.roomSize <= 1.0
    && 0.0 <= s.dampening <= 1.0 && 0.0 <= s.width <= 1.0
  }

  /** The settings in the order of the verbs that set them. */
  function Fields(s: ReverbSettings): seq<real> {
    [s.wet, s.dry, s.roomSize, s.dampening, s.width]
  }

  /** The verbs of the two-token commands, in the order of `Fields`. */
  const Verbs: seq<string> := ["w", "d", "r", "p", "x"]

  /** The match over the verb of a two-token command, the value already clamped. */
  function SetByVerb(s: ReverbSettings, verb: string, v: real): ReverbSettings {
    if verb == "w" then s.(wet := v)
    else if verb == "d" then s.(dry := v)
    else if verb == "r" then s.(roomSize := v)
    else if verb == "p" then s.(dampening := v)
    else if verb == "x" then s.(width := v)
    else s
  }

  /** A known verb sets its own field and leaves the four others alone; any other verb
      changes nothing. */
  lemma SetByVerbOneField(s: ReverbSettings, verb: string, v: real)
    ensures forall k :: 0 <= k < |Verbs| && Verbs[k] == verb ==>
      Fields(SetByVerb(s, verb, v)) == Fields(s)[k := v]
    ensures verb !in Verbs ==> SetByVerb(s, verb, v) == s
  {
  }

  /** One command line, already split into `parts`; `parse` stands for `str::parse::<f64>`.
      The two-token commands clamp their value into [0, 1], so settings in range stay in
      range, and the only way to quit is the single token `q`. */
  function Dispatch(s: ReverbSettings, parts: seq<string>, parse: string -> Option<real>): (r: Reply)
    ensures r.quit <==> parts == ["q"]
    ensures InRange(s) ==> InRange(r.settings)
    ensures |parts| != 1 && |parts| != 2 ==> r.settings == s
    ensures |parts| == 2 && parse(parts[1]).None? ==> r.settings == s
    ensures |parts| == 1 && parts[0] != "dry" ==> r.settings == s
  {
    if |parts| == 2 then
      match parse(parts[1])
      case None => Reply(s, false)
      case Some(x) => Reply(SetByVerb(s, parts[0], Clamp(x, 0.0, 1.0)), false)
    else if |parts| == 1 then
      if parts[0] == "dry" then Reply(s.(wet := 0.0, dry := 1.0), false)
      else Reply(s, parts[0] == "q")
    else Reply(s, false)
  }

  /** A two-token command with a number sets exactly the verb's field, to the number clamped
      into [0, 1]: below 0 gives 0, above 1 gives 1. */
  lemma TwoTokenCommand(s: ReverbSettings, verb: string, text: string, parse: string -> Option<real>, x: real)
    requires parse(text) == Some(x)
    ensures var r := Dispatch(s, [verb, text], parse);
      && !r.quit
      && (forall k :: 0 <= k < |Verbs| && Verbs[k] == verb ==> Fields(r.settings) == Fields(s)[k := Clamp(x, 0.0, 1.0)])
      && (verb !in Verbs ==> r.settings == s)
  {
    SetByVerbOneField(s, verb, Clamp(x, 0.0, 1.0));
  }

  /** `dry` turns the reverb off: wet 0, dry 1, the room untouched. */
  lemma DryCommand(s: ReverbSettings, parse: string -> Option<real>)
    ensures Dispatch(s, ["dry"], parse) == Reply(ReverbSettings(0.0, 1.0, s.roomSize, s.dampening, s.width), false)
  {
  }

  /** `w 1.5` typed with surrounding blanks sets the wet level to 1, the rest of the
      settings staying as they were. */
  lemma WetClampedExample(s: ReverbSettings, parse: string -> Option<real>)
    requires parse("1.5") == Some(1.5)
    ensures Dispatch(s, Tokens(Trim("  w 1.5 ")), parse) == Reply(s.(wet := 1.0), false)
  {
    TokensOfTrim("  w 1.5 ");
    PaddedWetLine();
  }

  lemma PaddedWetLine()
    ensures Tokens("  w 1.5 ") == ["w", "1.5"]
  {
    var ts := ["w", "1.5"];
    assert IsToken(ts[0]) && IsToken(ts[1]);
    TokensOfJoin(ts);
    assert Join(ts) == "w 1.5";
    TokensSnocWhitespace("w 1.5", ' ');
    assert "w 1.5" + [' '] == "w 1.5 ";
    assert ("  w 1.5 ")[1..] == " w 1.5 ";
    assert (" w 1.5 ")[1..] == "w 1.5 ";
  }

  // ---------------------------------------------------------------------------------------
  // The console thread

  /** One read of the console: a failed read (`None`) does nothing, a line is trimmed,
      split and dispatched. */
  function Step(s: ReverbSettings, read: Option<string>, parse: string -> Option<real>): (r: Reply)
    ensures r.quit <==> read.Some? && Tokens(read.value) == ["q"]
    ensures InRange(s) ==> InRange(r.settings)
  {
    match read
    case None => Reply(s, false)
    case Some(line) =>
      TokensOfTrim(line);
      Dispatch(s, Tokens(Trim(line)), parse)
  }

  /** The outcome of feeding the console a sequence of reads (`None` for a failed read):
      the final settings, how many reads it consumed, and whether it quit. */
  datatype SessionEnd = SessionEnd(settings: ReverbSettings, read: nat, quit: bool)

  /** The console loop over the reads `lines`: each successful read is dispatched, a failed
      one is skipped, and `q` ends the loop at once. */
  function Session(s: ReverbSettings, lines: seq<Option<string>>, parse: string -> Option<real>): (r: SessionEnd)
    ensures r.read <= |lines|
    ensures !r.quit ==> r.read == |lines|
    ensures r.quit ==> r.read >= 1 && lines[r.read - 1].Some? && Tokens(lines[r.read - 1].value) == ["q"]
    ensures InRange(s) ==> InRange(r.settings)
    decreases |lines|
  {
    if lines == [] then SessionEnd(s, 0, false)
    else
      var step := Step(s, lines[0], parse);
      if step.quit then SessionEnd(step.settings, 1, true)
      else
        var rest := Session(step.settings, lines[1..], parse);
        SessionEnd(rest.settings, rest.read + 1, rest.quit)
  }

  /** Nothing typed after `q` is read. */
  lemma {:induction false} SessionStopsAtQuit(s: ReverbSettings, lines: seq<Option<string>>,
                                              more: seq<Option<string>>, parse: string -> Option<real>)
    requires Session(s, lines, parse).quit
    ensures Session(s, lines + more, parse) == Session(s, lines, parse)
    decreases |lines|
  {
    var step := Step(s, lines[0], parse);
    assert (lines + more)[0] == lines[0];
    if !step.quit {
      assert (lines + more)[1..] == lines[1..] + more;
      SessionStopsAtQuit(step.settings, lines[1..], more, parse);
    }
  }

  /** The console thread of reverb mode, owning the `running` flag (shared with the audio
      callbacks in the program) and a handle on the reverb. */
  class Console<S> {
    var running: bool
    const reverb: Freeverb<S>
    const parse: string -> Option<real>

    constructor (reverb: Freeverb<S>, parse: string -> Option<real>)
      ensures running && this.reverb == reverb && this.parse == parse
    {
      running := true;
      this.reverb := reverb;
      this.parse := parse;
    }

    /** One line read from standard input; returns whether the loop breaks. */
    method HandleLine(line: string) returns (stop: bool)
      modifies this, reverb
      ensures var r := Dispatch(old(reverb.settings), Tokens(Trim(line)), parse);
        reverb.settings == r.settings && stop == r.quit && running == (old(running) && !r.quit)
      ensures reverb.state == old(reverb.state)
    {
      stop := false;
      var input := Trim(line);
      var parts := Tokens(input);
      if |parts| == 2 {
        var value := parse(parts[1]);
        if value.Some? {
          var val := Clamp(value.value, 0.0, 1.0);
          if parts[0] == "w" {
            reverb.SetWet(val);
          } else if parts[0] == "d" {
            reverb.SetDry(val);
          } else if parts[0] == "r" {
            reverb.SetRoomSize(val);
          } else if parts[0] == "p" {
            reverb.SetDampening(val);
          } else if parts[0] == "x" {
            reverb.SetWidth(val);
          }
        }
      } else if |parts| == 1 {
        if parts[0] == "dry" {
          reverb.SetWet(0.0);
          reverb.SetDry(1.0);
        } else if parts[0] == "q" {
          running := false;
          stop := true;
        }
      } else if |parts| == 1 && parts == ["q"] {
        // Unreachable: every one-token line is taken by the branch above.
        assert false;
      }
    }

    /** The console loop, while the program runs, over the reads `lines`. */
    method Run(lines: seq<Option<string>>) returns (read: nat)
      modifies this, reverb
      ensures reverb.state == old(reverb.state)
      ensures old(running) ==> SessionEnd(reverb.settings, read, !running) == Session(old(reverb.settings), lines, parse)
      ensures !old(running) ==> read == 0 && reverb.settings == old(reverb.settings) && !running
    {
      read := 0;
      ghost var whole := Session(reverb.settings, lines, parse);
      while running && read < |lines|
        invariant read <= |lines|
        invariant reverb.state == old(reverb.state)
        invariant running ==> old(running)
        invariant running ==> whole == Session(old(reverb.settings), lines, parse)
        invariant running ==>
          var rest := Session(reverb.settings, lines[read..], parse);
          whole == SessionEnd(rest.settings, read + rest.read, rest.quit)
        invariant !running ==>
          || (read == 0 && reverb.settings == old(reverb.settings) && !old(running))
          || (old(running) && whole == SessionEnd(reverb.settings, read, true))
        decreases |lines| - read
      {
        assert lines[read..][0] == lines[read] && lines[read..][1..] == lines[read + 1..];
        if lines[read].Some? {
          var stop := HandleLine(lines[read].value);
          if stop {
            read := read + 1;
            break;
          }
        }
        read := read + 1;
      }
    }
  }

  /** The passthrough mode's console stops the program on a line that is empty once
      trimmed, that is, on a line of whitespace only. */
  function EndsPassthrough(line: string): (r: bool)
    ensures r <==> forall i :: 0 <= i < |line| ==> IsWhitespace(line[i])
    ensures r <==> Tokens(line) == []
  {
    BlankLine(line);
    Trim(line) == []
  }
}
