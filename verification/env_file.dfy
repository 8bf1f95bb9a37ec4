/** The workload's env file: KEY=value lines read, and upserted without disturbing the rest. */
module EnvFile {
  import opened Options

  // -- characters and lines -------------------------------------------------------------------------

  /** What `str.isspace`, `str.strip` and `\s` count as white space. */
  predicate IsSpace(c: char) {
    var n := c as int;
    || 0x09 <= n <= 0x0D || 0x1C <= n <= 0x20 || n == 0x85 || n == 0xA0 || n == 0x1680 || 0x2000 <= n <= 0x200A
    || n in {0x2028, 0x2029, 0x202F, 0x205F, 0x3000}
  }

  /** Where `str.splitlines` ends a line; a carriage return does not survive reading. */
  predicate IsBreak(c: char) {
    var n := c as int;
    0x0A <= n <= 0x0D || 0x1C <= n <= 0x1E || n in {0x85, 0x2028, 0x2029}
  }

  /** Reading a text file: every line ending becomes a newline. */
  function Universal(raw: string): string {
    if raw == "" then ""
    else if raw[0] != '\r' then [raw[0]] + Universal(raw[1..])
    else "\n" + Universal(if |raw| > 1 && raw[1] == '\n' then raw[2..] else raw[1..])
  }

  function SplitLines(text: string): seq<string> {
    if text == "" then []
    else if IsBreak(text[0]) then [""] + SplitLines(text[1..])
    else
      var rest := SplitLines(text[1..]);
      if rest == [] then [[text[0]]] else [[text[0]] + rest[0]] + rest[1..]
  }

  function Joined(lines: seq<string>): string { if lines == [] then "" else lines[0] + "\n" + Joined(lines[1..]) }

  predicate SingleLine(s: string) { forall c <- s :: !IsBreak(c) }

  // -- one line ----------------------------------------------------------------------------------------

  function SkipSpace(s: string): (r: string)
    ensures |r| <= |s|
  {
    if s != "" && IsSpace(s[0]) then SkipSpace(s[1..]) else s
  }

  predicate IsWord(c: char) { 'A' <= c <= 'Z' || 'a' <= c <= 'z' || '0' <= c <= '9' || c == '_' }

  predicate IsIdentifier(s: string) { s != "" && !('0' <= s[0] <= '9') && forall c <- s :: IsWord(c) }

  /** How many word characters it begins with. */
  function WordLength(s: string): (n: nat)
    ensures n <= |s|
  {
    if s != "" && IsWord(s[0]) then 1 + WordLength(s[1..]) else 0
  }

  /** Past the white space and an `export` that is followed by some. */
  function Stripped(line: string): string {
    var s := SkipSpace(line);
    if "export" <= s && |s| > 6 && IsSpace(s[6]) then SkipSpace(s[6..]) else s
  }

  /** An identifier, an equals sign, and the rest of the line. */
  function Parse(line: string): Option<(string, string)> {
    var s := Stripped(line);
    var n := WordLength(s);
    if n > 0 && !('0' <= s[0] <= '9') && n < |s| && s[n] == '=' then Some((s[..n], s[n + 1..])) else None
  }

  function Key(line: string): Option<string> { if Parse(line).Some? then Some(Parse(line).value.0) else None }

  function TrimEnd(s: string): string { if s != "" && IsSpace(s[|s| - 1]) then TrimEnd(s[..|s| - 1]) else s }

  function Unquote(value: string): string {
    var v := TrimEnd(SkipSpace(value));
    if |v| >= 2 && v[0] == v[|v| - 1] && v[0] in {'\'', '"'} then v[1..|v| - 1] else v
  }

  // -- the whole file ------------------------------------------------------------------------------------

  type Bindings = seq<(string, string)>

  function Read(lines: seq<string>): Bindings {
    if lines == [] then []
    else
      var p := Parse(lines[|lines| - 1]);
      Read(lines[..|lines| - 1]) + (if p.Some? then [(p.value.0, Unquote(p.value.1))] else [])
  }

  /** A mapping in its own order, each key once. */
  predicate IsMapping(m: Bindings) { forall i, j :: 0 <= i < j < |m| ==> m[i].0 != m[j].0 }

  function Value(m: Bindings, key: string): Option<string> {
    if m == [] then None else if m[0].0 == key then Some(m[0].1) else Value(m[1..], key)
  }

  predicate Maps(m: Bindings, line: string) { Key(line).Some? && Value(m, Key(line).value).Some? }

  function Line(key: string, value: string): string { key + "=" + value }

  /** The lines, each mapped key's first one replaced and its others dropped, then those still missing. */
  function Upserted(lines: seq<string>, m: Bindings, done: set<string>): seq<string> {
    if lines == [] then Missing(m, done)
    else if !Maps(m, lines[0]) then [lines[0]] + Upserted(lines[1..], m, done)
    else
      var key := Key(lines[0]).value;
      if key in done then Upserted(lines[1..], m, done)
      else [Line(key, Value(m, key).value)] + Upserted(lines[1..], m, done + {key})
  }

  function Missing(m: Bindings, done: set<string>): seq<string> {
    if m == [] then []
    else if m[0].0 in done then Missing(m[1..], done)
    else [Line(m[0].0, m[0].1)] + Missing(m[1..], done)
  }

  function LinesOf(file: Option<string>): seq<string> { if file.Some? then SplitLines(Universal(file.value)) else [] }

  /** The file after `set_env_lines`. */
  function SetLines(file: Option<string>, m: Bindings): Option<string> {
    if m == [] then file else Some(Joined(Upserted(LinesOf(file), m, {})))
  }

  class File {
    var text: Option<string>

    constructor (t: Option<string>)
      ensures text == t
    {
      text := t;
    }

    method ReadEnvFile() returns (out: Bindings)
      ensures out == Read(LinesOf(text))
    {
      out := [];
      if text.None? { return; }
      var lines := SplitLines(Universal(text.value));
      for i := 0 to |lines|
        invariant out == Read(lines[..i])
      {
        assert lines[..i + 1][..i] == lines[..i];
        var ln := SkipSpace(lines[i]);
        if ln == "" || ln[0] == '#' {
          NoKeyThere(lines[i]);
        } else {
          var p := Parse(lines[i]);
          if p.Some? { out := out + [(p.value.0, Unquote(p.value.1))]; }
        }
      }
      assert lines[..|lines|] == lines;
    }

    method SetEnvLines(m: Bindings)
      modifies this
      ensures text == SetLines(old(text), m)
    {
      if m == [] { return; }
      var out, done := Replace(LinesOf(text), m);
      for i := 0 to |m|
        invariant text == old(text)
        invariant out + Missing(m[i..], done) == Upserted(LinesOf(text), m, {})
      {
        assert m[i..][1..] == m[i + 1..];
        if m[i].0 !in done { out := out + [Line(m[i].0, m[i].1)]; }
      }
      assert m[|m|..] == [] && out + [] == out;
      text := Some(Joined(out));
    }

    static method Replace(lines: seq<string>, m: Bindings) returns (out: seq<string>, done: set<string>)
      ensures out + Missing(m, done) == Upserted(lines, m, {})
    {
      out, done := [], {};
      for i := 0 to |lines|
        invariant out + Upserted(lines[i..], m, done) == Upserted(lines, m, {})
      {
        OneLine(lines, i, m, done, out);
        if !Maps(m, lines[i]) {
          out := out + [lines[i]];
        } else {
          var key := Key(lines[i]).value;
          if key !in done { out, done := out + [Line(key, Value(m, key).value)], done + {key}; }
        }
      }
      assert lines[|lines|..] == [];
    }
  }

  lemma OneLine(lines: seq<string>, i: nat, m: Bindings, done: set<string>, out: seq<string>)
    requires i < |lines|
    ensures out + Upserted(lines[i..], m, done)
            == if !Maps(m, lines[i]) then out + [lines[i]] + Upserted(lines[i + 1..], m, done)
               else if Key(lines[i]).value in done then out + Upserted(lines[i + 1..], m, done)
               else out + [Line(Key(lines[i]).value, Value(m, Key(lines[i]).value).value)]
                    + Upserted(lines[i + 1..], m, done + {Key(lines[i]).value})
  {
    hide Parse, Value, Line;
    assert lines[i..][1..] == lines[i + 1..];
  }

  /** A blank line or a comment binds nothing. */
  lemma NoKeyThere(line: string)
    requires SkipSpace(line) == "" || SkipSpace(line)[0] == '#'
    ensures Parse(line).None?
  {
  }
}
