/** `process.env` as both maintenance scripts use it: a mutable string map that their
    `.env.local` loaders write into line by line, and the truthy look-ups that read it. */
module ProcessEnv {
  import opened Common

  /** An environment-file line parser: a line either sets one key to one value or is ignored. */
  type LineParser = string -> Option<(string, string)>

  class Environment {
    var vars: map<string, string>

    constructor (initial: map<string, string>)
      ensures vars == initial
    {
      vars := initial;
    }
  }

  /** One line applied to the variables: `process.env[key] = value` when the line parses. */
  function ApplyLine(parse: LineParser, vars: map<string, string>, line: string): map<string, string> {
    match parse(line)
    case Some((key, value)) => vars[key := value]
    case None => vars
  }

  /** The variables after applying the lines in order. */
  function ApplyLines(parse: LineParser, vars: map<string, string>, lines: seq<string>): map<string, string>
    decreases |lines|
  {
    if lines == [] then vars
    else ApplyLine(parse, ApplyLines(parse, vars, lines[..|lines| - 1]), lines[|lines| - 1])
  }

  /** The loop over the file's lines: each line that parses assigns into `process.env`. */
  method LoadLines(env: Environment, parse: LineParser, lines: seq<string>)
    modifies env
    ensures env.vars == ApplyLines(parse, old(env.vars), lines)
  {
    var i := 0;
    while i < |lines|
      invariant 0 <= i <= |lines|
      invariant env.vars == ApplyLines(parse, old(env.vars), lines[..i])
    {
      assert lines[..i + 1][..i] == lines[..i];
      match parse(lines[i]) {
        case Some((key, value)) => env.vars := env.vars[key := value];
        case None =>
      }
      i := i + 1;
    }
    assert lines[..i] == lines;
  }

  /** Applying `a` and then `b` is applying `a + b`. */
  lemma {:induction false} ApplyLinesAppend(parse: LineParser, vars: map<string, string>, a: seq<string>, b: seq<string>)
    ensures ApplyLines(parse, vars, a + b) == ApplyLines(parse, ApplyLines(parse, vars, a), b)
    decreases |b|
  {
    if b == [] {
      assert a + b == a;
    } else {
      var b' := b[..|b| - 1];
      assert (a + b)[..|a + b| - 1] == a + b';
      assert (a + b)[|a + b| - 1] == b[|b| - 1];
      ApplyLinesAppend(parse, vars, a, b');
    }
  }

  /** A line that does not parse changes nothing, wherever it stands. */
  lemma {:induction false} IgnoredLine(parse: LineParser, vars: map<string, string>, a: seq<string>, line: string, b: seq<string>)
    requires parse(line).None?
    ensures ApplyLines(parse, vars, a + [line] + b) == ApplyLines(parse, vars, a + b)
  {
    ApplyLinesAppend(parse, vars, a + [line], b);
    ApplyLinesAppend(parse, vars, a, b);
    assert (a + [line])[..|a + [line]| - 1] == a;
  }

  /** Keys a sequence of lines leaves alone keep their value. */
  lemma {:induction false} UntouchedKey(parse: LineParser, vars: map<string, string>, lines: seq<string>, key: string)
    requires forall i :: 0 <= i < |lines| ==> parse(lines[i]).None? || parse(lines[i]).value.0 != key
    ensures key in ApplyLines(parse, vars, lines) <==> key in vars
    ensures key in vars ==> ApplyLines(parse, vars, lines)[key] == vars[key]
    decreases |lines|
  {
    if lines != [] {
      var rest := lines[..|lines| - 1];
      assert forall i :: 0 <= i < |rest| ==> rest[i] == lines[i];
      UntouchedKey(parse, vars, rest, key);
      assert parse(lines[|lines| - 1]).None? || parse(lines[|lines| - 1]).value.0 != key;
    }
  }

  /** Later lines override earlier ones: the last line that sets a key decides its value. */
  lemma LastLineWins(parse: LineParser, vars: map<string, string>, a: seq<string>, line: string, b: seq<string>)
    requires parse(line).Some?
    requires forall i :: 0 <= i < |b| ==> parse(b[i]).None? || parse(b[i]).value.0 != parse(line).value.0
    ensures parse(line).value.0 in ApplyLines(parse, vars, a + [line] + b)
    ensures ApplyLines(parse, vars, a + [line] + b)[parse(line).value.0] == parse(line).value.1
  {
    var key := parse(line).value.0;
    ApplyLinesAppend(parse, vars, a + [line], b);
    var mid := ApplyLines(parse, vars, a + [line]);
    assert (a + [line])[..|a + [line]| - 1] == a;
    assert mid == ApplyLines(parse, vars, a)[key := parse(line).value.1];
    UntouchedKey(parse, mid, b, key);
  }

  /** `process.env[name]` in a boolean position: defined and not the empty string. */
  function TruthyVar(vars: map<string, string>, name: string): Option<string> {
    if name in vars && vars[name] != "" then Some(vars[name]) else None
  }

  /** `process.env[a] || process.env[b] || ...`: the first truthy variable among `names`. */
  function FirstTruthy(vars: map<string, string>, names: seq<string>): (r: Option<string>)
    ensures r.None? <==> forall i :: 0 <= i < |names| ==> TruthyVar(vars, names[i]).None?
    ensures r.Some? ==> exists i :: 0 <= i < |names| && TruthyVar(vars, names[i]) == r
                          && forall j :: 0 <= j < i ==> TruthyVar(vars, names[j]).None?
  {
    if names == [] then None
    else if TruthyVar(vars, names[0]).Some? then TruthyVar(vars, names[0])
    else
      var r := FirstTruthy(vars, names[1..]);
      assert forall i :: 1 <= i < |names| ==> names[i] == names[1..][i - 1];
      r
  }

  const BlobTokenNames: seq<string> := ["BLOB_READ_WRITE_TOKEN", "VERCEL_BLOB_READ_WRITE_TOKEN", "BLOB_TOKEN"]

  /** The storage credential both scripts look up, by its three accepted names in order. */
  function BlobToken(vars: map<string, string>): Option<string> {
    FirstTruthy(vars, BlobTokenNames)
  }
}
