/** Decoding the streamed reply. Each non-empty line goes through two
    steps: the envelope step turns the line into the payload to examine
    (provider-dependent), and the delta step pulls `choices[0].delta.content`
    out of that payload (provider-independent). The payload of the last
    examined line persists across lines, as `chunk_json` does. */
module Stream {
  import opened Wrappers
  import opened Json

  /** Python's `str.isspace()` for one character: the characters `strip()` removes. */
  predicate IsSpace(c: char) {
    || c == ' ' || '\t' <= c <= '\r' || '\U{1C}' <= c <= '\U{1F}'
    || c == '\U{85}' || c == '\U{A0}' || c == '\U{1680}' || '\U{2000}' <= c <= '\U{200A}'
    || c == '\U{2028}' || c == '\U{2029}' || c == '\U{202F}' || c == '\U{205F}' || c == '\U{3000}'
  }

  /** `s.lstrip()`: drops the leading whitespace. */
  function TrimStart(s: string): (r: string)
    ensures |r| <= |s| && r == s[|s| - |r|..]
    ensures forall i :: 0 <= i < |s| - |r| ==> IsSpace(s[i])
    ensures r != [] ==> !IsSpace(r[0])
    decreases |s|
  {
    if s != [] && IsSpace(s[0]) then TrimStart(s[1..]) else s
  }

  /** `s.rstrip()`: drops the trailing whitespace. */
  function TrimEnd(s: string): (r: string)
    ensures |r| <= |s| && r == s[..|r|]
    ensures forall i :: |r| <= i < |s| ==> IsSpace(s[i])
    ensures r != [] ==> !IsSpace(r[|r| - 1])
    decreases |s|
  {
    if s != [] && IsSpace(s[|s| - 1]) then TrimEnd(s[..|s| - 1]) else s
  }

  /** `s.strip()`: the middle of `s` between a whitespace prefix and a
      whitespace suffix, neither end of which is whitespace. */
  function Strip(s: string): (r: string)
    ensures |r| <= |s|
    ensures r != [] ==> !IsSpace(r[0]) && !IsSpace(r[|r| - 1])
    ensures var k := |s| - |TrimStart(s)|;
      && k + |r| <= |s| && r == s[k..k + |r|]
      && (forall i :: 0 <= i < k ==> IsSpace(s[i]))
      && (forall i :: k + |r| <= i < |s| ==> IsSpace(s[i]))
  {
    TrimEnd(TrimStart(s))
  }

  /** `s.lstrip(chars)`: drops the longest prefix made only of characters
      in the SET `chars`, which is not the same as removing a prefix. */
  function LStripChars(s: string, chars: set<char>): (r: string)
    ensures |r| <= |s| && r == s[|s| - |r|..]
    ensures forall i :: 0 <= i < |s| - |r| ==> s[i] in chars
    ensures r != [] ==> r[0] !in chars
    decreases |s|
  {
    if s != [] && s[0] in chars then LStripChars(s[1..], chars) else s
  }

  const DataPrefix: string := "data: "

  /** The characters of `"data: "`, which is what `lstrip("data: ")` removes. */
  const DataChars: set<char> := {'d', 'a', 't', ':', ' '}

  /** The OpenRouter envelope: the text after `data: ` of a stripped line
      that starts with it, or None for a line that does not. */
  function OpenRouterPayload(line: string): (r: Option<string>)
    ensures r.Some? <==> IsPrefix(DataPrefix, Strip(line))
    ensures r.Some? ==> Strip(line) == DataPrefix + r.value
  {
    var s := Strip(line);
    if IsPrefix(DataPrefix, s) then
      assert s == s[..|DataPrefix|] + s[|DataPrefix|..];
      Some(s[|DataPrefix|..])
    else None
  }

  /** The envelope step for one non-empty line: the payload examined for it.
      With OpenRouter a line without `data: ` re-examines `previous`; with
      any other provider every line is parsed after `lstrip("data: ")`. */
  function Envelope(line: string, openRouter: bool, parse: string -> Option<Value>,
                    previous: Value): (r: Result<Value, Fault>)
    ensures r.Err? ==> r.error == JsonDecodeError
    ensures openRouter && OpenRouterPayload(line).None? ==> r == Ok(previous)
    ensures openRouter && OpenRouterPayload(line).Some? ==> r == Parse(parse, OpenRouterPayload(line).value)
    ensures !openRouter ==> r == Parse(parse, LStripChars(line, DataChars))
  {
    if openRouter then
      match OpenRouterPayload(line)
      case None => Ok(previous)
      case Some(text) => Parse(parse, text)
    else Parse(parse, LStripChars(line, DataChars))
  }

  /** A well-formed delta frame carrying the text `t` in `choices[0].delta.content`. */
  predicate CarriesContent(chunk: Value, t: string) {
    && chunk.Object? && "choices" in chunk.fields
    && var choices := chunk.fields["choices"];
       && choices.Array? && |choices.items| > 0
       && var first := choices.items[0];
          && first.Object? && "delta" in first.fields
          && var delta := first.fields["delta"];
             && delta.Object? && "content" in delta.fields
             && delta.fields["content"] == Str(t)
  }

  /** A frame whose first choice has no content, such as a role-only or a
      finish-reason frame. */
  predicate LacksContent(chunk: Value) {
    && chunk.Object? && "choices" in chunk.fields
    && var choices := chunk.fields["choices"];
       && choices.Array? && |choices.items| > 0
       && var first := choices.items[0];
          && first.Object?
          && ("delta" in first.fields ==>
                first.fields["delta"].Object? && "content" !in first.fields["delta"].fields)
  }

  /** The delta step: the text one examined payload appends to the reply,
      or the exception the lookups raise. */
  function ExtractDelta(chunk: Value): (r: Result<string, Fault>)
    ensures chunk.Object? && "choices" !in chunk.fields ==> r == Ok("")
    ensures chunk == Str("") ==> r == Ok("")
    ensures LacksContent(chunk) ==> r == Ok("")
    ensures forall t :: CarriesContent(chunk, t) ==> r == Ok(t)
    ensures r.Ok? && r.value != "" ==> CarriesContent(chunk, r.value)
    ensures chunk.Object? && "choices" in chunk.fields && chunk.fields["choices"] == Array([]) ==>
      r == Err(IndexError)
  {
    var hasChoices :- Contains(chunk, "choices");
    if !hasChoices then Ok("")
    else
      var choices :- Subscript(chunk, "choices");
      var first :- First(choices);
      var delta :- Get(first, "delta", Object(map[]));
      var hasContent :- Contains(delta, "content");
      if !hasContent then Ok("")
      else
        var content :- Subscript(delta, "content");
        if content.Str? then Ok(content.s) else Err(TypeError)
  }

  /** The loop's state: `chunk_json` and `full_response`. */
  datatype Accumulator = Accumulator(chunk: Value, text: string)

  const Initial: Accumulator := Accumulator(Str(""), "")

  /** One iteration of the loop over the reply's lines. */
  function Step(acc: Accumulator, line: string, openRouter: bool,
                parse: string -> Option<Value>): (r: Result<Accumulator, Fault>)
    ensures line == "" ==> r == Ok(acc)
    ensures r.Ok? ==> IsPrefix(acc.text, r.value.text)
    ensures r.Ok? && line != "" ==> Envelope(line, openRouter, parse, acc.chunk) == Ok(r.value.chunk)
    ensures r.Ok? && line != "" ==>
      ExtractDelta(r.value.chunk).Ok? && r.value.text == acc.text + ExtractDelta(r.value.chunk).value
  {
    if line == "" then Ok(acc)
    else
      var chunk :- Envelope(line, openRouter, parse, acc.chunk);
      var delta :- ExtractDelta(chunk);
      Ok(Accumulator(chunk, acc.text + delta))
  }

  /** The loop's state after the given lines, or the first exception raised. */
  function Decode(lines: seq<string>, openRouter: bool, parse: string -> Option<Value>): (r: Result<Accumulator, Fault>)
    ensures (forall i :: 0 <= i < |lines| ==> lines[i] == "") ==> r == Ok(Initial)
    decreases |lines|
  {
    if lines == [] then Ok(Initial)
    else
      var acc :- Decode(lines[..|lines| - 1], openRouter, parse);
      Step(acc, lines[|lines| - 1], openRouter, parse)
  }

  /** One more line extends the fold by one `Step`. */
  lemma DecodeOneMore(lines: seq<string>, i: nat, openRouter: bool, parse: string -> Option<Value>)
    requires i < |lines|
    ensures Decode(lines[..i], openRouter, parse).Err? ==>
              Decode(lines[..i + 1], openRouter, parse) == Decode(lines[..i], openRouter, parse)
    ensures Decode(lines[..i], openRouter, parse).Ok? ==>
              Decode(lines[..i + 1], openRouter, parse) ==
              Step(Decode(lines[..i], openRouter, parse).value, lines[i], openRouter, parse)
  {
    assert lines[..i + 1][..i] == lines[..i];
  }

  /** The body of the loop up to `json.loads`, written with the source's
      branches: the payload examined for a non-empty line, or `previous`
      when `chunk_json` is left as it was. It is the imperative form of
      `Envelope`, which the proofs reason about. */
  method Examine(line: string, openRouter: bool, parse: string -> Option<Value>, previous: Value)
    returns (parsed: Result<Value, Fault>)
    ensures parsed == Envelope(line, openRouter, parse, previous)
  {
    if openRouter {
      var stripped := Strip(line);
      if IsPrefix(DataPrefix, stripped) {
        parsed := Parse(parse, stripped[6..]);
      } else {
        parsed := Ok(previous);
      }
    } else {
      parsed := Parse(parse, LStripChars(line, DataChars));
    }
  }

  /** One pass of the loop body: the new `chunk_json` and `full_response`,
      or the exception that ends the loop. It is the imperative form of
      `Step`, the function `Decode` folds over the lines. */
  method ProcessLine(line: string, openRouter: bool, parse: string -> Option<Value>,
                     chunkJson: Value, fullResponse: string)
    returns (r: Result<Accumulator, Fault>)
    ensures r == Step(Accumulator(chunkJson, fullResponse), line, openRouter, parse)
  {
    if line == "" {
      return Ok(Accumulator(chunkJson, fullResponse));
    }
    var parsed := Examine(line, openRouter, parse, chunkJson);
    if parsed.Err? {
      return Err(parsed.error);
    }
    var delta := ExtractDelta(parsed.value);
    if delta.Err? {
      return Err(delta.error);
    }
    return Ok(Accumulator(parsed.value, fullResponse + delta.value));
  }

  /** The streaming loop of the source: accumulates the reply text line by
      line, stopping at the first exception. */
  method Accumulate(lines: seq<string>, openRouter: bool, parse: string -> Option<Value>)
    returns (r: Result<string, Fault>)
    ensures r.Ok? <==> Decode(lines, openRouter, parse).Ok?
    ensures r.Ok? ==> r.value == Decode(lines, openRouter, parse).value.text
    ensures r.Err? ==> r.error == Decode(lines, openRouter, parse).error
  {
    var fullResponse := "";
    var chunkJson := Str("");
    var i := 0;
    while i < |lines|
      invariant 0 <= i <= |lines|
      invariant Decode(lines[..i], openRouter, parse) == Ok(Accumulator(chunkJson, fullResponse))
    {
      DecodeOneMore(lines, i, openRouter, parse);
      var next := ProcessLine(lines[i], openRouter, parse, chunkJson, fullResponse);
      if next.Err? {
        DecodeErrorPersists(lines[..i + 1], lines[i + 1..], openRouter, parse);
        assert lines[..i + 1] + lines[i + 1..] == lines;
        return Err(next.error);
      }
      chunkJson, fullResponse := next.value.chunk, next.value.text;
      i := i + 1;
    }
    assert lines[..i] == lines;
    return Ok(fullResponse);
  }

  lemma PrefixTransitive(a: string, b: string, c: string)
    requires IsPrefix(a, b) && IsPrefix(b, c)
    ensures IsPrefix(a, c)
  {
    assert c[..|a|] == c[..|b|][..|a|];
  }

  /** What the placeholder shows while streaming is always a prefix of the
      final reply: decoding a prefix of the lines succeeds too, with a prefix
      of the text. */
  lemma {:induction false} DecodeTextGrows(lines: seq<string>, i: nat, openRouter: bool,
                                          parse: string -> Option<Value>)
    requires i <= |lines|
    requires Decode(lines, openRouter, parse).Ok?
    ensures Decode(lines[..i], openRouter, parse).Ok?
    ensures IsPrefix(Decode(lines[..i], openRouter, parse).value.text, Decode(lines, openRouter, parse).value.text)
    decreases |lines|
  {
    if i == |lines| {
      assert lines[..i] == lines;
    } else {
      var init := lines[..|lines| - 1];
      DecodeTextGrows(init, i, openRouter, parse);
      assert init[..i] == lines[..i];
      PrefixTransitive(Decode(lines[..i], openRouter, parse).value.text,
                       Decode(init, openRouter, parse).value.text,
                       Decode(lines, openRouter, parse).value.text);
    }
  }

  /** Once a line raises, no later line can resume the loop. */
  lemma {:induction false} DecodeErrorPersists(lines: seq<string>, rest: seq<string>, openRouter: bool,
                                              parse: string -> Option<Value>)
    requires Decode(lines, openRouter, parse).Err?
    ensures Decode(lines + rest, openRouter, parse) == Decode(lines, openRouter, parse)
    decreases |rest|
  {
    if rest == [] {
      assert lines + rest == lines;
    } else {
      var init := rest[..|rest| - 1];
      DecodeErrorPersists(lines, init, openRouter, parse);
      assert (lines + rest)[..|lines + rest| - 1] == lines + init;
    }
  }

  // The two-step reference: first every examined payload, then their deltas.

  function LastOr(ps: seq<Value>, default: Value): Value {
    if ps == [] then default else ps[|ps| - 1]
  }

  /** The envelope step over all lines: one payload per non-empty line, in order. */
  function Examined(lines: seq<string>, openRouter: bool, parse: string -> Option<Value>): Result<seq<Value>, Fault>
    decreases |lines|
  {
    if lines == [] then Ok([])
    else
      var ps :- Examined(lines[..|lines| - 1], openRouter, parse);
      var line := lines[|lines| - 1];
      if line == "" then Ok(ps)
      else
        var p :- Envelope(line, openRouter, parse, LastOr(ps, Initial.chunk));
        Ok(ps + [p])
  }

  /** The delta of each payload. */
  function Deltas(ps: seq<Value>): (rs: seq<Result<string, Fault>>)
    ensures |rs| == |ps| && forall i :: 0 <= i < |ps| ==> rs[i] == ExtractDelta(ps[i])
  {
    seq(|ps|, i requires 0 <= i < |ps| => ExtractDelta(ps[i]))
  }

  /** The first exception among `rs`, or their texts concatenated in order. */
  function Join(rs: seq<Result<string, Fault>>): Result<string, Fault>
    decreases |rs|
  {
    if rs == [] then Ok("")
    else
      var text :- Join(rs[..|rs| - 1]);
      var delta :- rs[|rs| - 1];
      Ok(text + delta)
  }

  /** The delta step over a sequence of payloads: their deltas concatenated in order. */
  function Collect(ps: seq<Value>): Result<string, Fault> {
    Join(Deltas(ps))
  }

  lemma DeltasAppend(ps: seq<Value>, p: Value)
    ensures Deltas(ps + [p]) == Deltas(ps) + [ExtractDelta(p)]
  {
    assert forall i :: 0 <= i < |ps| ==> (ps + [p])[i] == ps[i];
  }

  /** The fused loop succeeds exactly when both steps succeed separately; it
      then holds their text, and `chunk_json` is the last examined payload. */
  lemma {:induction false} DecodeIsTwoSteps(lines: seq<string>, openRouter: bool, parse: string -> Option<Value>)
    ensures Decode(lines, openRouter, parse).Ok? <==>
      Examined(lines, openRouter, parse).Ok? && Collect(Examined(lines, openRouter, parse).value).Ok?
    ensures Decode(lines, openRouter, parse).Ok? ==>
      Decode(lines, openRouter, parse).value ==
        Accumulator(LastOr(Examined(lines, openRouter, parse).value, Initial.chunk),
                    Collect(Examined(lines, openRouter, parse).value).value)
    decreases |lines|
  {
    if lines != [] {
      var init := lines[..|lines| - 1];
      var line := lines[|lines| - 1];
      DecodeIsTwoSteps(init, openRouter, parse);
      var e := Examined(init, openRouter, parse);
      if e.Ok? && line != "" {
        var ps := e.value;
        var p := Envelope(line, openRouter, parse, LastOr(ps, Initial.chunk));
        if p.Ok? {
          DeltasAppend(ps, p.value);
          assert (Deltas(ps) + [ExtractDelta(p.value)])[..|ps|] == Deltas(ps);
        }
      }
    }
  }

  function NonEmptyCount(lines: seq<string>): nat
    decreases |lines|
  {
    if lines == [] then 0
    else NonEmptyCount(lines[..|lines| - 1]) + (if lines[|lines| - 1] == "" then 0 else 1)
  }

  /** Empty lines are skipped, and every other line is examined exactly once. */
  lemma {:induction false} OnePayloadPerLine(lines: seq<string>, openRouter: bool, parse: string -> Option<Value>)
    requires Examined(lines, openRouter, parse).Ok?
    ensures |Examined(lines, openRouter, parse).value| == NonEmptyCount(lines)
    decreases |lines|
  {
    if lines != [] {
      OnePayloadPerLine(lines[..|lines| - 1], openRouter, parse);
    }
  }

  function Concat(texts: seq<string>): string
    decreases |texts|
  {
    if texts == [] then "" else Concat(texts[..|texts| - 1]) + texts[|texts| - 1]
  }

  /** For well-formed delta frames the reply is their contents concatenated in order. */
  lemma CollectContents(ps: seq<Value>, texts: seq<string>)
    requires |ps| == |texts|
    requires forall i :: 0 <= i < |ps| ==> CarriesContent(ps[i], texts[i])
    ensures Collect(ps) == Ok(Concat(texts))
  {
    JoinAllOk(Deltas(ps), texts);
  }

  lemma {:induction false} JoinAllOk(rs: seq<Result<string, Fault>>, texts: seq<string>)
    requires |rs| == |texts|
    requires forall i :: 0 <= i < |rs| ==> rs[i] == Ok(texts[i])
    ensures Join(rs) == Ok(Concat(texts))
    decreases |rs|
  {
    if rs != [] {
      JoinAllOk(rs[..|rs| - 1], texts[..|texts| - 1]);
    }
  }

  /** Joining a concatenation: the first exception, or both texts joined. */
  lemma {:induction false} JoinConcat(rs: seq<Result<string, Fault>>, ss: seq<Result<string, Fault>>)
    ensures Join(rs).Err? ==> Join(rs + ss) == Join(rs)
    ensures Join(rs).Ok? && Join(ss).Err? ==> Join(rs + ss) == Join(ss)
    ensures Join(rs).Ok? && Join(ss).Ok? ==> Join(rs + ss) == Ok(Join(rs).value + Join(ss).value)
    decreases |ss|
  {
    if ss == [] {
      assert rs + ss == rs;
      if Join(rs).Ok? {
        assert Join(rs).value + "" == Join(rs).value;
      }
    } else {
      var init := ss[..|ss| - 1];
      var last := ss[|ss| - 1];
      JoinConcat(rs, init);
      assert (rs + ss)[..|rs + ss| - 1] == rs + init;
      assert (rs + ss)[|rs + ss| - 1] == last;
      if Join(rs).Ok? && Join(init).Ok? && last.Ok? {
        var a, b, d := Join(rs).value, Join(init).value, last.value;
        assert a + b + d == a + (b + d);
      }
    }
  }

  lemma DeltasConcat(ps: seq<Value>, qs: seq<Value>)
    ensures Deltas(ps + qs) == Deltas(ps) + Deltas(qs)
  {
    var l, r := Deltas(ps + qs), Deltas(ps) + Deltas(qs);
    forall i | 0 <= i < |l| ensures l[i] == r[i] {
      if i < |ps| {
        assert (ps + qs)[i] == ps[i];
      } else {
        assert (ps + qs)[i] == qs[i - |ps|];
      }
    }
  }

  lemma JoinEmptyDelta()
    ensures Join([Ok("")]) == Ok("")
  {
    var one: seq<Result<string, Fault>> := [Ok("")];
    assert one[..0] == [];
    var empty: string := "";
    assert empty + empty == empty;
  }

  lemma JoinSkipsEmpty(rs: seq<Result<string, Fault>>, ss: seq<Result<string, Fault>>)
    ensures Join(rs + [Ok("")] + ss) == Join(rs + ss)
  {
    JoinEmptyDelta();
    JoinConcat(rs, [Ok("")]);
    if Join(rs).Ok? {
      assert Join(rs).value + "" == Join(rs).value;
    }
    JoinConcat(rs + [Ok("")], ss);
    JoinConcat(rs, ss);
  }

  /** Frames without content add nothing wherever they appear. */
  lemma CollectSkipsEmpty(ps: seq<Value>, p: Value, qs: seq<Value>)
    requires ExtractDelta(p) == Ok("")
    ensures Collect(ps + [p] + qs) == Collect(ps + qs)
  {
    DeltasConcat(ps, [p]);
    DeltasConcat(ps + [p], qs);
    DeltasConcat(ps, qs);
    assert Deltas([p]) == [Ok("")];
    JoinSkipsEmpty(Deltas(ps), Deltas(qs));
  }

  /** An empty line changes nothing. */
  lemma BlankLineIgnored(lines: seq<string>, openRouter: bool, parse: string -> Option<Value>)
    ensures Decode(lines + [""], openRouter, parse) == Decode(lines, openRouter, parse)
  {
    assert (lines + [""])[..|lines|] == lines;
  }

  /** With OpenRouter, a non-empty line without `data: ` examines the previous
      payload again, so its delta is appended a second time. */
  lemma RepeatsPreviousDelta(lines: seq<string>, line: string, parse: string -> Option<Value>)
    requires line != "" && !IsPrefix(DataPrefix, Strip(line))
    requires Decode(lines, true, parse).Ok?
    requires ExtractDelta(Decode(lines, true, parse).value.chunk).Ok?
    ensures Decode(lines + [line], true, parse) ==
      Ok(Accumulator(Decode(lines, true, parse).value.chunk,
                     Decode(lines, true, parse).value.text + ExtractDelta(Decode(lines, true, parse).value.chunk).value))
  {
    assert (lines + [line])[..|lines|] == lines;
  }

  /** Any run of characters of the set in front is removed as a whole. */
  lemma {:induction false} LStripSkipsRun(run: string, s: string, chars: set<char>)
    requires forall i :: 0 <= i < |run| ==> run[i] in chars
    ensures LStripChars(run + s, chars) == LStripChars(s, chars)
    decreases |run|
  {
    if run != [] {
      assert (run + s)[0] == run[0];
      assert (run + s)[1..] == run[1..] + s;
      LStripSkipsRun(run[1..], s, chars);
    } else {
      assert run + s == s;
    }
  }

  /** `lstrip("data: ")` removes the `data: ` marker in front of a JSON object. */
  lemma StripsDataMarker(json: string)
    requires json != [] && json[0] !in DataChars
    ensures LStripChars(DataPrefix + json, DataChars) == json
  {
    LStripSkipsRun(DataPrefix, json, DataChars);
  }

  /** It strips a character set, not a prefix: a bare `true` loses its `t`,
      and a doubled marker goes as well. */
  lemma StripsCharacterSet()
    ensures LStripChars("true", DataChars) == "rue"
  {
    var rue := "rue";
    assert rue[0] !in DataChars;
    assert LStripChars(rue, DataChars) == rue;
    LStripSkipsRun("t", rue, DataChars);
    assert "t" + rue == "true";
  }

  lemma StripsDoubledMarker()
    ensures LStripChars("data: data: {}", DataChars) == "{}"
  {
    StripsDataMarker("{}");
    LStripSkipsRun(DataPrefix, DataPrefix + "{}", DataChars);
    assert DataPrefix + (DataPrefix + "{}") == "data: data: {}";
  }

  /** A `data: [DONE]` line, which is not JSON, raises instead of ending the
      stream, in both branches, whatever came before. */
  lemma DoneSentinelRaises(lines: seq<string>, openRouter: bool, parse: string -> Option<Value>)
    requires parse("[DONE]") == None
    ensures Decode(lines + [DataPrefix + "[DONE]"], openRouter, parse).Err?
  {
    var line := DataPrefix + "[DONE]";
    assert (lines + [line])[..|lines|] == lines;
    if Decode(lines, openRouter, parse).Ok? {
      DoneEnvelopeRaises(openRouter, parse, Decode(lines, openRouter, parse).value.chunk);
    }
  }

  /** The envelope step of `data: [DONE]` raises, with either provider. */
  lemma DoneEnvelopeRaises(openRouter: bool, parse: string -> Option<Value>, previous: Value)
    requires parse("[DONE]") == None
    ensures Envelope(DataPrefix + "[DONE]", openRouter, parse, previous) == Err(JsonDecodeError)
  {
    var done := "[DONE]";
    assert done[0] == '[' && done[|done| - 1] == ']';
    DataLineEnvelope(done, openRouter, parse, previous);
  }

  /** With either provider, a `data: ` line around a payload that has no
      surrounding whitespace and does not start with a character of the
      marker examines exactly that payload. */
  lemma DataLineEnvelope(json: string, openRouter: bool, parse: string -> Option<Value>, previous: Value)
    requires json != [] && json[0] !in DataChars
    requires !IsSpace(json[0]) && !IsSpace(json[|json| - 1])
    ensures Envelope(DataPrefix + json, openRouter, parse, previous) == Parse(parse, json)
  {
    var line := DataPrefix + json;
    if openRouter {
      assert line[0] == 'd' && line[|line| - 1] == json[|json| - 1];
      StripKeepsTrimmed(line);
      assert line[..|DataPrefix|] == DataPrefix && line[|DataPrefix|..] == json;
      assert OpenRouterPayload(line) == Some(json);
    } else {
      StripsDataMarker(json);
    }
  }

  lemma StripKeepsTrimmed(s: string)
    requires s != [] && !IsSpace(s[0]) && !IsSpace(s[|s| - 1])
    ensures Strip(s) == s
  {
    assert TrimStart(s) == s;
  }

  /** The frame `{"choices": [{"delta": {"content": t}}]}`. */
  function ContentFrame(t: string): (v: Value)
    ensures CarriesContent(v, t)
  {
    Object(map["choices" := Array([Object(map["delta" := Object(map["content" := Str(t)])])])])
  }

  /** A `data: ` line carrying a content frame appends its text. */
  lemma DataFrameStep(acc: Accumulator, json: string, t: string, openRouter: bool,
                      parse: string -> Option<Value>)
    requires json != [] && json[0] !in DataChars
    requires !IsSpace(json[0]) && !IsSpace(json[|json| - 1])
    requires parse(json) == Some(ContentFrame(t))
    ensures Step(acc, DataPrefix + json, openRouter, parse) ==
      Ok(Accumulator(ContentFrame(t), acc.text + t))
  {
    DataLineEnvelope(json, openRouter, parse, acc.chunk);
    assert DataPrefix + json != "";
    assert ExtractDelta(ContentFrame(t)) == Ok(t);
  }

  /** Two content frames with a blank line between them accumulate to the
      two texts in order, with either provider. */
  lemma TwoFramesWithBlank(first: string, second: string, t1: string, t2: string, openRouter: bool,
                           parse: string -> Option<Value>)
    requires first != [] && first[0] !in DataChars && !IsSpace(first[0]) && !IsSpace(first[|first| - 1])
    requires second != [] && second[0] !in DataChars && !IsSpace(second[0]) && !IsSpace(second[|second| - 1])
    requires parse(first) == Some(ContentFrame(t1)) && parse(second) == Some(ContentFrame(t2))
    ensures Decode([DataPrefix + first, "", DataPrefix + second], openRouter, parse) ==
      Ok(Accumulator(ContentFrame(t2), t1 + t2))
  {
    var l1, l2 := DataPrefix + first, DataPrefix + second;
    var lines := [l1, "", l2];
    assert lines[..2][..1] == [l1] && [l1][..0] == [];
    assert lines[..2] == [l1, ""] && lines[..3] == lines;
    var one := Accumulator(ContentFrame(t1), t1);
    DataFrameStep(Initial, first, t1, openRouter, parse);
    assert Initial.text + t1 == t1;
    DataFrameStep(one, second, t2, openRouter, parse);
    assert Decode([l1], openRouter, parse) == Ok(one);
    assert Decode(lines[..2], openRouter, parse) == Ok(one);
  }
}
