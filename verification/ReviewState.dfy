/**
 The state file a review request leaves for its watcher: `KEY=value` lines, written and read back.
 */
module ReviewState {
  import opened Basics

  datatype Pair = Pair(key: string, value: string)

  /** Where Python's splitlines ends a line. "\r\n" makes one line more here, an empty one, which a
      reader of the file passes over. */
  predicate IsBreak(c: char) {
    c in {'\n', '\r', '\U{000B}', '\U{000C}', '\U{001C}', '\U{001D}', '\U{001E}', '\U{0085}', '\U{2028}', '\U{2029}'}
  }

  predicate OneLine(text: string) { forall i :: 0 <= i < |text| ==> !IsBreak(text[i]) }

  /** The index of the first break, the length when there is none. */
  function BreakAt(text: string): (n: nat)
    ensures n <= |text| && OneLine(text[..n]) && (n < |text| ==> IsBreak(text[n]))
  {
    if text == [] || IsBreak(text[0]) then 0 else 1 + BreakAt(text[1..])
  }

  function Lines(text: string): seq<string>
    decreases |text|
  {
    if text == [] then []
    else
      var n := BreakAt(text);
      [text[..n]] + if n < |text| then Lines(text[n + 1..]) else []
  }

  /** The index of the first `=`, the length when there is none. */
  function EqualsAt(text: string): (n: nat)
    ensures n <= |text|
  {
    if text == [] || text[0] == '=' then 0 else 1 + EqualsAt(text[1..])
  }

  function ParseLine(raw: string): Option<Pair> {
    if raw == "" || raw[0] == '#' || EqualsAt(raw) == |raw| then None
    else Some(Pair(raw[..EqualsAt(raw)], raw[EqualsAt(raw) + 1..]))
  }

  /** Line by line, a later one of the same key taking an earlier one's place. */
  function StateOf(lines: seq<string>): map<string, string> {
    if lines == [] then map[]
    else
      var before := StateOf(lines[..|lines| - 1]);
      match ParseLine(lines[|lines| - 1])
      case None => before
      case Some(p) => before[p.key := p.value]
  }

  method ParseState(text: string) returns (state: map<string, string>)
    ensures state == StateOf(Lines(text))
  {
    hide Lines, ParseLine;
    state := map[];
    var lines := Lines(text);
    for i := 0 to |lines|
      invariant state == StateOf(lines[..i])
    {
      assert lines[..i + 1][..i] == lines[..i];
      var p := ParseLine(lines[i]);
      if p.Some? { state := state[p.value.key := p.value.value]; }
    }
    assert lines[..|lines|] == lines;
  }

  function Line(p: Pair): string { p.key + "=" + p.value }

  function TextOf(pairs: seq<Pair>): string {
    if pairs == [] then "" else TextOf(pairs[..|pairs| - 1]) + Line(pairs[|pairs| - 1]) + "\n"
  }

  const KEYS := ["PR", "REPO", "SHA", "BASELINE_REVIEW_ID", "BASELINE_PULL_COMMENT_ID", "BASELINE_ISSUE_COMMENT_ID",
                 "BASELINE_FAILURE_COMMENT_ID", "REQUEST_COMMENT_ID", "REQUESTED_AT"]

  function ValueOf(values: map<string, string>, key: string): string { if key in values then values[key] else "" }

  /** What is written: each key with its value, an empty one if it has none, and when it was written. */
  function Written(values: map<string, string>, createdAt: string): seq<Pair> {
    seq(|KEYS|, i requires 0 <= i < |KEYS| => Pair(KEYS[i], ValueOf(values, KEYS[i]))) + [Pair("CREATED_AT", createdAt)]
  }

  method WriteState(values: map<string, string>, createdAt: string) returns (text: string)
    ensures text == TextOf(Written(values, createdAt))
  {
    ghost var pairs := Written(values, createdAt);
    text := "";
    for i := 0 to |KEYS|
      invariant text == TextOf(pairs[..i])
    {
      assert pairs[..i + 1][..i] == pairs[..i];
      text := text + Line(Pair(KEYS[i], ValueOf(values, KEYS[i]))) + "\n";
    }
    text := text + Line(Pair("CREATED_AT", createdAt)) + "\n";
    assert pairs[..|pairs| - 1] == pairs[..|KEYS|];
  }

  // ---- what is read is what was written -------------------------------------------------------

  lemma {:induction false} BreakAfter(line: string, rest: string)
    requires OneLine(line)
    ensures BreakAt(line + "\n" + rest) == |line|
  {
    var text := line + "\n" + rest;
    if line == "" {
      assert text[0] == '\n';
    } else {
      assert text[0] == line[0] && text[1..] == line[1..] + "\n" + rest;
      BreakAfter(line[1..], rest);
    }
  }

  lemma LineThen(line: string, rest: string)
    requires OneLine(line)
    ensures Lines(line + "\n" + rest) == [line] + Lines(rest)
  {
    var text := line + "\n" + rest;
    BreakAfter(line, rest);
    assert text[..|line|] == line && text[|line| + 1..] == rest;
  }

  function LinesOf(pairs: seq<Pair>): seq<string> { seq(|pairs|, i requires 0 <= i < |pairs| => Line(pairs[i])) }

  lemma {:induction false} LinesOfText(pairs: seq<Pair>, rest: string)
    requires forall i :: 0 <= i < |pairs| ==> OneLine(Line(pairs[i]))
    ensures Lines(TextOf(pairs) + rest) == LinesOf(pairs) + Lines(rest)
  {
    hide Lines, OneLine, Line;
    if pairs == [] {
      assert TextOf(pairs) + rest == rest;
    } else {
      var init, last := pairs[..|pairs| - 1], pairs[|pairs| - 1];
      var tail := Line(last) + "\n" + rest;
      assert TextOf(pairs) + rest == TextOf(init) + tail by { Regrouped(TextOf(init), Line(last), rest); }
      LinesOfText(init, tail);
      LineThen(Line(last), rest);
      assert LinesOf(pairs) == LinesOf(init) + [Line(last)];
    }
  }

  lemma Regrouped(a: string, b: string, c: string)
    ensures a + b + "\n" + c == a + (b + "\n" + c)
  {}

  predicate GoodKey(key: string) { key != "" && key[0] != '#' && '=' !in key && OneLine(key) }

  lemma {:induction false} EqualsAfter(key: string, value: string)
    requires '=' !in key
    ensures EqualsAt(key + "=" + value) == |key|
  {
    var text := key + "=" + value;
    if key == "" {
      assert text[0] == '=';
    } else {
      assert text[0] == key[0] && text[1..] == key[1..] + "=" + value;
      EqualsAfter(key[1..], value);
    }
  }

  lemma LineParses(p: Pair)
    requires GoodKey(p.key)
    ensures ParseLine(Line(p)) == Some(p)
  {
    EqualsAfter(p.key, p.value);
    assert Line(p)[..|p.key|] == p.key && Line(p)[|p.key| + 1..] == p.value && Line(p)[0] == p.key[0];
  }

  lemma {:induction false} StateHas(pairs: seq<Pair>, i: nat)
    requires i < |pairs| && forall k :: 0 <= k < |pairs| ==> GoodKey(pairs[k].key)
    requires forall j, k :: 0 <= j < k < |pairs| ==> pairs[j].key != pairs[k].key
    ensures var state := StateOf(LinesOf(pairs)); pairs[i].key in state && state[pairs[i].key] == pairs[i].value
  {
    var init, last := pairs[..|pairs| - 1], pairs[|pairs| - 1];
    assert LinesOf(pairs)[..|pairs| - 1] == LinesOf(init);
    LineParses(last);
    if i < |init| { StateHas(init, i); }
  }

  lemma FirstKeys()
    ensures GoodKey(KEYS[0]) && GoodKey(KEYS[1]) && GoodKey(KEYS[2]) && GoodKey("CREATED_AT")
  {}

  lemma BaselineKeys()
    ensures GoodKey(KEYS[3]) && GoodKey(KEYS[4])
  {}

  lemma MoreBaselineKeys()
    ensures GoodKey(KEYS[5]) && GoodKey(KEYS[6])
  {}

  lemma LastKeys()
    ensures GoodKey(KEYS[7]) && GoodKey(KEYS[8])
  {}

  lemma KeysDiffer()
    ensures forall j, k :: 0 <= j < k < |KEYS| ==> KEYS[j] != KEYS[k]
    ensures forall k :: 0 <= k < |KEYS| ==> KEYS[k] != "CREATED_AT"
  {
    assert |KEYS[0]| == 2 && |KEYS[1]| == 4 && |KEYS[2]| == 3 && |KEYS[3]| == 18 && |KEYS[4]| == 24 && |KEYS[5]| == 25;
    assert |KEYS[6]| == 27 && |KEYS[7]| == 18 && |KEYS[8]| == 12 && |"CREATED_AT"| == 10;
    assert KEYS[3][0] == 'B' && KEYS[7][0] == 'R';
  }

  lemma WrittenKeys(values: map<string, string>, createdAt: string)
    ensures var pairs := Written(values, createdAt);
            && (forall k :: 0 <= k < |pairs| ==> GoodKey(pairs[k].key))
            && (forall j, k :: 0 <= j < k < |pairs| ==> pairs[j].key != pairs[k].key)
  {
    FirstKeys();
    BaselineKeys();
    MoreBaselineKeys();
    LastKeys();
    KeysDiffer();
    hide GoodKey;
  }

  lemma ValueIsLine(raw: string)
    requires OneLine(raw)
    ensures ParseLine(raw).Some? ==> OneLine(ParseLine(raw).value.value)
  {
    hide IsBreak;
  }

  ghost predicate AllOneLine(state: map<string, string>) { forall key :: key in state ==> OneLine(state[key]) }

  lemma {:induction false} ValuesAreLines(lines: seq<string>)
    requires forall i :: 0 <= i < |lines| ==> OneLine(lines[i])
    ensures AllOneLine(StateOf(lines))
  {
    hide OneLine, ParseLine;
    if lines != [] {
      ValuesAreLines(lines[..|lines| - 1]);
      ValueIsLine(lines[|lines| - 1]);
    }
  }

  lemma {:induction false} LinesAreLines(text: string)
    ensures forall i :: 0 <= i < |Lines(text)| ==> OneLine(Lines(text)[i])
    decreases |text|
  {
    if text != [] && BreakAt(text) < |text| { LinesAreLines(text[BreakAt(text) + 1..]); }
  }

  /** Whether the file gives `key` back with its value. */
  ghost predicate Survives(values: map<string, string>, createdAt: string, key: string) {
    var state := StateOf(Lines(TextOf(Written(values, createdAt))));
    key in state && state[key] == ValueOf(values, key)
  }

  /** Every value written is read back exactly when none holds a line break. */
  lemma SurvivesIffOneLine(values: map<string, string>, createdAt: string)
    requires OneLine(createdAt)
    ensures (forall key :: key in KEYS ==> Survives(values, createdAt, key))
       <==> (forall key :: key in KEYS ==> OneLine(ValueOf(values, key)))
  {
    hide Lines, TextOf, OneLine, StateOf;
    var pairs := Written(values, createdAt);
    if forall key :: key in KEYS ==> OneLine(ValueOf(values, key)) {
      forall key | key in KEYS ensures Survives(values, createdAt, key) {
        AllReadBack(values, createdAt, key);
      }
    } else {
      var key :| key in KEYS && !OneLine(ValueOf(values, key));
      LinesAreLines(TextOf(pairs));
      ValuesAreLines(Lines(TextOf(pairs)));
      assert !Survives(values, createdAt, key);
    }
  }

  /** A line break in a value loses it. */
  lemma LineBreakLosesValue(createdAt: string)
    requires OneLine(createdAt)
    ensures exists key :: key in KEYS && !Survives(map["SHA" := "a\nb"], createdAt, key)
  {
    var values := map["SHA" := "a\nb"];
    assert KEYS[2] == "SHA" && ValueOf(values, "SHA")[1] == '\n';
    hide Survives, KEYS;
    SurvivesIffOneLine(values, createdAt);
  }

  lemma AllReadBack(values: map<string, string>, createdAt: string, key: string)
    requires OneLine(createdAt) && key in KEYS && forall key :: key in KEYS ==> OneLine(ValueOf(values, key))
    ensures Survives(values, createdAt, key)
  {
    hide Lines, TextOf, StateOf, GoodKey;
    var pairs := Written(values, createdAt);
    WrittenKeys(values, createdAt);
    forall i | 0 <= i < |pairs| ensures OneLine(Line(pairs[i])) {
      assert i < |KEYS| ==> KEYS[i] in KEYS;
      WholeLine(pairs[i]);
    }
    LinesOfText(pairs, "");
    NoLines(pairs);
    var i :| 0 <= i < |KEYS| && KEYS[i] == key;
    StateHas(pairs, i);
  }

  lemma WholeLine(p: Pair)
    requires GoodKey(p.key) && OneLine(p.value)
    ensures OneLine(Line(p))
  {}

  lemma NoLines(pairs: seq<Pair>)
    ensures Lines("") == [] && TextOf(pairs) + "" == TextOf(pairs) && LinesOf(pairs) + [] == LinesOf(pairs)
  {}

  // ---- numbers --------------------------------------------------------------------------------

  function Digit(d: nat): char requires d < 10 { '0' + d as char }

  /** A number as it is written. */
  function Decimal(n: nat): string { if n < 10 then [Digit(n)] else Decimal(n / 10) + [Digit(n % 10)] }

  /** A number as it is read; none where the text is not digits. */
  function Number(text: string): Option<nat> {
    if text == "" then None
    else
      var last := text[|text| - 1];
      if !('0' <= last <= '9') then None
      else if |text| == 1 then Some(last as nat - '0' as nat)
      else match Number(text[..|text| - 1])
        case None => None
        case Some(n) => Some(10 * n + (last as nat - '0' as nat))
  }

  lemma {:induction false} NumberOfDecimal(n: nat)
    ensures Number(Decimal(n)) == Some(n) && OneLine(Decimal(n))
  {
    if n >= 10 {
      NumberOfDecimal(n / 10);
      assert Decimal(n)[..|Decimal(n)| - 1] == Decimal(n / 10);
    }
  }

  /** The baselines a request takes are the ones its watcher reads. */
  lemma BaselinesSurvive(values: map<string, string>, createdAt: string, key: string, baseline: nat)
    requires OneLine(createdAt) && key in KEYS && ValueOf(values, key) == Decimal(baseline)
    requires forall key :: key in KEYS ==> OneLine(ValueOf(values, key))
    ensures var state := StateOf(Lines(TextOf(Written(values, createdAt))));
            key in state && Number(state[key]) == Some(baseline)
  {
    AllReadBack(values, createdAt, key);
    NumberOfDecimal(baseline);
  }
}
