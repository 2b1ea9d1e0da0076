/**
 Label blocks as they are printed, and read back.

 The reader follows the line format of the Prometheus text exposition format, version 0.0.4: a
 label value is quoted, and backslash, double quote and line feed are escaped inside it.
 */
module Exposition {
  import opened Rows

  // -- Printing ---------------------------------------------------------------------------------

  /** `str.replace` with a pattern of one character. */
  function Replace(s: string, c: char, with_: string): string {
    if s == "" then "" else (if s[0] == c then with_ else [s[0]]) + Replace(s[1..], c, with_)
  }

  /** `_escape`: three replacements, one after the other. */
  function Escape(value: string): string {
    Replace(Replace(Replace(value, '\\', "\\\\"), '"', "\\\""), '\n', "\\n")
  }

  function EscapeChar(c: char): string {
    if c == '\\' then "\\\\" else if c == '"' then "\\\"" else if c == '\n' then "\\n" else [c]
  }

  /** One substitution, character by character. */
  function EscapeEach(value: string): string {
    if value == "" then "" else EscapeChar(value[0]) + EscapeEach(value[1..])
  }

  type Label = (string, string)

  function Join(separator: string, parts: seq<string>): string {
    if parts == [] then ""
    else if |parts| == 1 then parts[0]
    else parts[0] + separator + Join(separator, parts[1..])
  }

  function PrintPair(l: Label): string {
    l.0 + "=\"" + Escape(l.1) + "\""
  }

  function PrintPairs(labels: seq<Label>): seq<string> {
    seq(|labels|, i requires 0 <= i < |labels| => PrintPair(labels[i]))
  }

  function Zip(names: seq<string>, values: seq<string>): (labels: seq<Label>)
    requires |names| == |values|
    ensures |labels| == |names|
    ensures forall i | 0 <= i < |names| :: labels[i] == (names[i], values[i])
  {
    seq(|names|, i requires 0 <= i < |names| => (names[i], values[i]))
  }

  function Block(labels: seq<Label>): string {
    "{" + Join(",", PrintPairs(labels)) + "}"
  }

  /** `_labels` */
  function Labels(names: seq<string>, values: seq<string>): string
    requires |names| == |values|
  {
    if values == [] then "" else Block(Zip(names, values))
  }

  /** `_with`: the same block, with one more label at the end. */
  function With(names: seq<string>, key: seq<string>, name: string, value: string): string
    requires |names| == |key|
  {
    Block(Zip(names, key) + [(name, value)])
  }

  // -- Reading ------------------------------------------------------------------------------------

  /** A quoted value, from after its opening quote; what it says, and what follows it. */
  function ReadValue(s: string): (read: Option<(string, string)>)
    ensures read.Some? ==> |read.value.1| < |s|
  {
    if s == "" || s[0] == '\n' then None
    else if s[0] == '"' then Some(("", s[1..]))
    else if s[0] != '\\' then Prefixed(s[0], ReadValue(s[1..]))
    else if |s| == 1 then None
    else if s[1] == '\\' then Prefixed('\\', ReadValue(s[2..]))
    else if s[1] == '"' then Prefixed('"', ReadValue(s[2..]))
    else if s[1] == 'n' then Prefixed('\n', ReadValue(s[2..]))
    else None
  }

  function Prefixed(c: char, read: Option<(string, string)>): Option<(string, string)> {
    match read
    case None => None
    case Some((value, rest)) => Some(([c] + value, rest))
  }

  /** A name, up to the equals sign. */
  function ReadName(s: string): (read: Option<(string, string)>)
    ensures read.Some? ==> |read.value.1| < |s|
  {
    if s == "" then None
    else if s[0] == '=' then Some(("", s[1..]))
    else Prefixed(s[0], ReadName(s[1..]))
  }

  function ReadPair(s: string): (read: Option<(Label, string)>)
    ensures read.Some? ==> |read.value.1| < |s|
  {
    match ReadName(s)
    case None => None
    case Some((name, rest)) =>
      if rest == "" || rest[0] != '"' then None
      else
        match ReadValue(rest[1..])
        case None => None
        case Some((value, after)) => Some(((name, value), after))
  }

  function ReadPairs(s: string): Option<(seq<Label>, string)>
    decreases |s|
  {
    match ReadPair(s)
    case None => None
    case Some((pair, rest)) =>
      if rest != "" && rest[0] == '}' then Some(([pair], rest[1..]))
      else if rest != "" && rest[0] == ',' then
        match ReadPairs(rest[1..])
        case None => None
        case Some((labels, after)) => Some(([pair] + labels, after))
      else None
  }

  /** A label block at the head of `s`, and what follows it. */
  function ReadBlock(s: string): Option<(seq<Label>, string)> {
    if s == "" || s[0] != '{' then None else ReadPairs(s[1..])
  }

  // -- What is printed can be read back -----------------------------------------------------------

  lemma {:induction false} ReplaceOnly(s: string, t: string, c: char, with_: string)
    ensures Replace(s + t, c, with_) == Replace(s, c, with_) + Replace(t, c, with_)
  {
    if s == "" {
      assert s + t == t;
    } else {
      assert (s + t)[1..] == s[1..] + t;
      ReplaceOnly(s[1..], t, c, with_);
    }
  }

  lemma ReplaceSingle(d: char, c: char, with_: string)
    ensures Replace([d], c, with_) == if d == c then with_ else [d]
  {
    assert with_ + "" == with_ && [d] + "" == [d];
  }

  lemma EscapeOne(c: char)
    ensures Escape([c]) == EscapeChar(c)
  {
    ReplaceSingle(c, '\\', "\\\\");
    ReplaceSingle(c, '"', "\\\"");
    ReplaceSingle(c, '\n', "\\n");
    if c == '\\' {
      ReplaceNothing("\\\\", '"', "\\\"");
      ReplaceNothing("\\\\", '\n', "\\n");
    } else if c == '"' {
      ReplaceNothing("\\\"", '\n', "\\n");
    }
  }

  lemma {:induction false} ReplaceNothing(s: string, c: char, with_: string)
    requires c !in s
    ensures Replace(s, c, with_) == s
  {
    if s != "" {
      assert s[0] in s && forall d | d in s[1..] :: d in s;
      ReplaceNothing(s[1..], c, with_);
    }
  }

  /** Three replacements in a row are one substitution per character: none of them undoes another. */
  lemma {:induction false} EscapeIsPerCharacter(value: string)
    ensures Escape(value) == EscapeEach(value)
  {
    if value != "" {
      var head, tail := [value[0]], value[1..];
      assert value == head + tail;
      ReplaceOnly(head, tail, '\\', "\\\\");
      ReplaceOnly(Replace(head, '\\', "\\\\"), Replace(tail, '\\', "\\\\"), '"', "\\\"");
      ReplaceOnly(Replace(Replace(head, '\\', "\\\\"), '"', "\\\""), Replace(Replace(tail, '\\', "\\\\"), '"', "\\\""), '\n', "\\n");
      EscapeOne(value[0]);
      EscapeIsPerCharacter(tail);
    }
  }

  lemma {:induction false} ValueReadsBack(value: string, rest: string)
    ensures ReadValue(EscapeEach(value) + "\"" + rest) == Some((value, rest))
  {
    var s := EscapeEach(value) + "\"" + rest;
    if value == "" {
      assert s == ['"'] + rest;
    } else {
      var shown, tail := EscapeChar(value[0]), EscapeEach(value[1..]) + "\"" + rest;
      ValueReadsBack(value[1..], rest);
      assert s == shown + tail;
      assert s[|shown|..] == tail;
      assert [value[0]] + value[1..] == value;
    }
  }

  lemma {:induction false} NameReadsBack(name: string, rest: string)
    requires '=' !in name
    ensures ReadName(name + "=" + rest) == Some((name, rest))
  {
    var s := name + "=" + rest;
    if name == "" {
      assert s == ['='] + rest;
    } else {
      NameReadsBack(name[1..], rest);
      assert s[1..] == name[1..] + "=" + rest;
      assert [name[0]] + name[1..] == name;
    }
  }

  lemma PairReadsBack(l: Label, rest: string)
    requires '=' !in l.0
    ensures ReadPair(PrintPair(l) + rest) == Some((l, rest))
  {
    var quoted := "\"" + EscapeEach(l.1) + "\"" + rest;
    EscapeIsPerCharacter(l.1);
    assert PrintPair(l) + rest == l.0 + "=" + quoted;
    NameReadsBack(l.0, quoted);
    assert quoted[1..] == EscapeEach(l.1) + "\"" + rest;
    ValueReadsBack(l.1, rest);
  }

  lemma {:induction false} PairsReadBack(labels: seq<Label>, rest: string)
    requires labels != [] && forall i | 0 <= i < |labels| :: '=' !in labels[i].0
    ensures ReadPairs(Join(",", PrintPairs(labels)) + "}" + rest) == Some((labels, rest))
  {
    var s := Join(",", PrintPairs(labels)) + "}" + rest;
    var first, parts := labels[0], PrintPairs(labels);
    if |labels| == 1 {
      assert s == PrintPair(first) + ("}" + rest);
      PairReadsBack(first, "}" + rest);
      assert labels == [first];
    } else {
      assert parts[1..] == PrintPairs(labels[1..]);
      var more := Join(",", PrintPairs(labels[1..])) + "}" + rest;
      assert s == PrintPair(first) + ("," + more);
      PairReadsBack(first, "," + more);
      assert ("," + more)[1..] == more;
      PairsReadBack(labels[1..], rest);
      assert [first] + labels[1..] == labels;
    }
  }

  lemma BlockReadsBack(labels: seq<Label>, rest: string)
    requires labels != [] && forall i | 0 <= i < |labels| :: '=' !in labels[i].0
    ensures ReadBlock(Block(labels) + rest) == Some((labels, rest))
  {
    assert (Block(labels) + rest)[1..] == Join(",", PrintPairs(labels)) + "}" + rest;
    PairsReadBack(labels, rest);
  }

  /** Every value a series can carry, whatever it contains, survives being printed in its block. */
  lemma LabelsReadBack(names: seq<string>, values: seq<string>, rest: string)
    requires |names| == |values| > 0 && forall i | 0 <= i < |names| :: '=' !in names[i]
    ensures ReadBlock(Labels(names, values) + rest) == Some((Zip(names, values), rest))
  {
    BlockReadsBack(Zip(names, values), rest);
  }

  lemma WithReadsBack(names: seq<string>, key: seq<string>, name: string, value: string, rest: string)
    requires |names| == |key| && '=' !in name && forall i | 0 <= i < |names| :: '=' !in names[i]
    ensures ReadBlock(With(names, key, name, value) + rest) == Some((Zip(names, key) + [(name, value)], rest))
  {
    BlockReadsBack(Zip(names, key) + [(name, value)], rest);
  }

  /** Two series of one metric never print alike. */
  lemma LabelsAreInjective(names: seq<string>, values: seq<string>, values': seq<string>)
    requires |names| == |values| == |values'| && forall i | 0 <= i < |names| :: '=' !in names[i]
    requires Labels(names, values) == Labels(names, values')
    ensures values == values'
  {
    if values != [] {
      LabelsReadBack(names, values, "");
      LabelsReadBack(names, values', "");
      forall i | 0 <= i < |names| ensures values[i] == values'[i] {
        assert Zip(names, values)[i] == Zip(names, values')[i];
      }
    }
  }

  // -- One line each --------------------------------------------------------------------------------

  lemma {:induction false} EscapedHasNoNewline(value: string)
    ensures '\n' !in EscapeEach(value)
  {
    if value != "" { EscapedHasNoNewline(value[1..]); }
  }

  lemma {:induction false} JoinHasNoNewline(parts: seq<string>)
    requires forall i | 0 <= i < |parts| :: '\n' !in parts[i]
    ensures '\n' !in Join(",", parts)
  {
    if |parts| > 1 { JoinHasNoNewline(parts[1..]); }
  }

  /** A rendered block stays on its line, whatever its values contain. */
  lemma BlockHasNoNewline(labels: seq<Label>)
    requires forall i | 0 <= i < |labels| :: '\n' !in labels[i].0
    ensures '\n' !in Block(labels)
  {
    forall i | 0 <= i < |labels| ensures '\n' !in PrintPair(labels[i]) {
      EscapeIsPerCharacter(labels[i].1);
      EscapedHasNoNewline(labels[i].1);
    }
    JoinHasNoNewline(PrintPairs(labels));
  }
}
