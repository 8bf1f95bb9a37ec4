/** What setting lines in the env file does to what is read from it. */
module EnvFileProofs {
  import opened Options
  import opened EnvFile

  // -- a line written is read back ----------------------------------------------------------------------

  lemma {:induction false} WordThenOther(key: string, rest: string)
    requires (forall c <- key :: IsWord(c)) && (rest == "" || !IsWord(rest[0]))
    ensures WordLength(key + rest) == |key|
    decreases |key|
  {
    if key == "" {
      assert key + rest == rest;
    } else {
      WordThenOther(key[1..], rest);
      assert (key + rest)[1..] == key[1..] + rest;
    }
  }

  /** The character after six letters of a line that is written is no white space. */
  lemma NoExport(key: string, value: string)
    requires IsIdentifier(key)
    ensures Stripped(Line(key, value)) == Line(key, value)
  {
    var line := Line(key, value);
    assert line[0] == key[0] && key[0] in key;
    assert line[|key|] == '=';
    assert |key| > 6 ==> line[6] == key[6] && key[6] in key;
    assert "export" <= line ==> forall i :: 0 <= i < 6 ==> line[i] == "export"[i];
    assert forall i :: 0 <= i < 6 ==> "export"[i] != '=';
  }

  lemma LineIsParsed(key: string, value: string)
    requires IsIdentifier(key)
    ensures Parse(Line(key, value)) == Some((key, value))
  {
    var line := Line(key, value);
    assert line[0] == key[0] && key[0] in key;
    assert SkipSpace(line) == line;
    NoExport(key, value);
    assert line == key + ("=" + value);
    WordThenOther(key, "=" + value);
  }

  // -- a text written is split back --------------------------------------------------------------------------

  lemma {:induction false} FirstLine(line: string, rest: string)
    requires SingleLine(line)
    ensures SplitLines(line + "\n" + rest) == [line] + SplitLines(rest)
    decreases |line|
  {
    var text := line + "\n" + rest;
    if line == "" {
      assert text[1..] == rest && text[0] == '\n';
    } else {
      FirstLine(line[1..], rest);
      assert text[1..] == line[1..] + "\n" + rest;
      assert text[0] == line[0] && line[0] in line;
      assert [line[0]] + line[1..] == line;
    }
  }

  lemma {:induction false} LinesSplitBack(lines: seq<string>)
    requires forall l <- lines :: SingleLine(l)
    ensures SplitLines(Joined(lines)) == lines
    decreases |lines|
  {
    if lines != [] {
      LinesSplitBack(lines[1..]);
      FirstLine(lines[0], Joined(lines[1..]));
    }
  }

  lemma {:induction false} SplitIsSingle(text: string)
    ensures forall l <- SplitLines(text) :: SingleLine(l)
    decreases |text|
  {
    if text != "" {
      SplitIsSingle(text[1..]);
      var rest := SplitLines(text[1..]);
      assert rest != [] ==> rest[0] in rest && forall l <- rest[1..] :: l in rest;
    }
  }

  lemma {:induction false} UniversalOfClean(text: string)
    requires '\r' !in text
    ensures Universal(text) == text
    decreases |text|
  {
    if text != "" {
      UniversalOfClean(text[1..]);
      assert text == [text[0]] + text[1..];
    }
  }

  lemma {:induction false} JoinedIsClean(lines: seq<string>)
    requires forall l <- lines :: SingleLine(l)
    ensures '\r' !in Joined(lines)
    decreases |lines|
  {
    if lines != [] {
      JoinedIsClean(lines[1..]);
      assert lines[0] in lines;
    }
  }

  /** Lines written and read again are the same lines. */
  lemma WrittenIsRead(lines: seq<string>)
    requires forall l <- lines :: SingleLine(l)
    ensures LinesOf(Some(Joined(lines))) == lines
  {
    JoinedIsClean(lines);
    UniversalOfClean(Joined(lines));
    LinesSplitBack(lines);
  }

  // -- upserting ------------------------------------------------------------------------------------------------

  /** Identifier keys, each once, and values of one line. */
  predicate Proper(m: Bindings) {
    IsMapping(m) && forall b <- m :: IsIdentifier(b.0) && SingleLine(b.1)
  }

  /** The lines that bind no mapped key: comments, blank lines and other keys, all of them. */
  function Foreign(lines: seq<string>, m: Bindings): seq<string> {
    if lines == [] then []
    else if Maps(m, lines[0]) then Foreign(lines[1..], m)
    else [lines[0]] + Foreign(lines[1..], m)
  }

  /** The lines that bind a key. */
  function Binding(lines: seq<string>, key: string): seq<string> {
    if lines == [] then []
    else if Key(lines[0]) == Some(key) then [lines[0]] + Binding(lines[1..], key)
    else Binding(lines[1..], key)
  }

  lemma {:induction false} ValueIsThere(m: Bindings, key: string)
    ensures Value(m, key).Some? ==> (key, Value(m, key).value) in m
    ensures Value(m, key).None? ==> forall b <- m :: b.0 != key
    decreases |m|
  {
    if m != [] { ValueIsThere(m[1..], key); }
  }

  lemma KeyOfLine(m: Bindings, key: string)
    requires Proper(m) && Value(m, key).Some?
    ensures Key(Line(key, Value(m, key).value)) == Some(key)
    ensures Maps(m, Line(key, Value(m, key).value))
  {
    ValueIsThere(m, key);
    IdentifierBinds(m, key);
  }

  lemma IdentifierBinds(m: Bindings, key: string)
    requires IsIdentifier(key) && Value(m, key).Some?
    ensures Key(Line(key, Value(m, key).value)) == Some(key)
    ensures Maps(m, Line(key, Value(m, key).value))
  {
    LineIsParsed(key, Value(m, key).value);
  }

  /** Part of a mapping. */
  predicate Within(part: Bindings, m: Bindings) { IsMapping(part) && forall b <- part :: Value(m, b.0) == Some(b.1) }

  lemma WithinRest(part: Bindings, m: Bindings)
    requires Within(part, m) && part != []
    ensures Within(part[1..], m) && forall b <- part[1..] :: b.0 != part[0].0
  {
    forall b | b in part[1..] ensures b in part && b.0 != part[0].0 {
      var j :| 0 <= j < |part[1..]| && part[1..][j] == b;
      assert part[j + 1] == b;
    }
  }

  lemma {:induction false} MappingIsWithin(m: Bindings)
    requires IsMapping(m)
    ensures Within(m, m)
  {
    forall i | 0 <= i < |m| ensures Value(m, m[i].0) == Some(m[i].1) { ValueAt(m, i); }
  }

  lemma {:induction false} ValueAt(m: Bindings, i: nat)
    requires IsMapping(m) && i < |m|
    ensures Value(m, m[i].0) == Some(m[i].1)
    decreases i
  {
    if i > 0 {
      assert m[0].0 != m[i].0 && m[1..][i - 1] == m[i];
      assert IsMapping(m[1..]) by {
        assert forall j :: 0 <= j < |m[1..]| ==> m[1..][j] == m[j + 1];
      }
      ValueAt(m[1..], i - 1);
    }
  }

  lemma {:induction false} MissingForeign(part: Bindings, m: Bindings, done: set<string>)
    requires Proper(m) && Within(part, m)
    ensures Foreign(Missing(part, done), m) == []
    decreases |part|
  {
    if part != [] {
      WithinRest(part, m);
      MissingForeign(part[1..], m, done);
      KeyOfLine(m, part[0].0);
    }
  }

  lemma {:induction false} MissingBinds(part: Bindings, m: Bindings, done: set<string>, key: string)
    requires Proper(m) && Within(part, m)
    ensures Binding(Missing(part, done), key)
            == if key !in done && Value(part, key).Some? then [Line(key, Value(part, key).value)] else []
    decreases |part|
  {
    if part != [] {
      WithinRest(part, m);
      MissingBinds(part[1..], m, done, key);
      KeyOfLine(m, part[0].0);
      ValueIsThere(part[1..], key);
    }
  }

  /** Everything that is not about a mapped key stays, in its order. */
  lemma {:induction false} ForeignStays(lines: seq<string>, m: Bindings, done: set<string>)
    requires Proper(m)
    ensures Foreign(Upserted(lines, m, done), m) == Foreign(lines, m)
    decreases |lines|
  {
    if lines == [] {
      MappingIsWithin(m);
      MissingForeign(m, m, done);
    } else if Maps(m, lines[0]) {
      var key := Key(lines[0]).value;
      ForeignStays(lines[1..], m, if key in done then done else done + {key});
      KeyOfLine(m, key);
    } else {
      ForeignStays(lines[1..], m, done);
    }
  }

  /** Every mapped key is bound by one line, its own. */
  lemma {:induction false} MappedOnce(lines: seq<string>, m: Bindings, done: set<string>, key: string)
    requires Proper(m) && Value(m, key).Some?
    ensures Binding(Upserted(lines, m, done), key) == if key in done then [] else [Line(key, Value(m, key).value)]
    decreases |lines|
  {
    if lines == [] {
      MappingIsWithin(m);
      MissingBinds(m, m, done, key);
    } else if Maps(m, lines[0]) {
      var k := Key(lines[0]).value;
      MappedOnce(lines[1..], m, if k in done then done else done + {k}, key);
      KeyOfLine(m, k);
    } else {
      MappedOnce(lines[1..], m, done, key);
    }
  }

  lemma {:induction false} MissingNothing(m: Bindings, done: set<string>)
    requires forall b <- m :: b.0 in done
    ensures Missing(m, done) == []
    decreases |m|
  {
    if m != [] { MissingNothing(m[1..], done); }
  }

  /** The keys of a mapping. */
  function Keys(m: Bindings): set<string> { set b | b in m :: b.0 }

  lemma {:induction false} UpsertMissing(part: Bindings, m: Bindings, done: set<string>)
    requires Proper(m) && Within(part, m) && forall b <- m :: b.0 in done || b in part
    ensures Upserted(Missing(part, done), m, done) == Missing(part, done)
    decreases |part|
  {
    if part == [] {
      MissingNothing(m, done);
    } else {
      WithinRest(part, m);
      var key := part[0].0;
      if key in done {
        UpsertMissing(part[1..], m, done);
      } else {
        KeyOfLine(m, key);
        ValueIsThere(m, key);
        assert part[0] in part && part[0].1 == Value(m, key).value;
        MissingSame(part[1..], done, key);
        forall b | b in m ensures b.0 in done + {key} || b in part[1..] {
          if b in part && b !in part[1..] { assert part == [part[0]] + part[1..]; }
        }
        UpsertMissing(part[1..], m, done + {key});
      }
    }
  }

  lemma {:induction false} MissingSame(part: Bindings, done: set<string>, key: string)
    requires forall b <- part :: b.0 != key
    ensures Missing(part, done + {key}) == Missing(part, done)
    decreases |part|
  {
    if part != [] { MissingSame(part[1..], done, key); }
  }

  /** Upserting what has been upserted changes nothing. */
  lemma {:induction false} UpsertTwice(lines: seq<string>, m: Bindings, done: set<string>)
    requires Proper(m)
    ensures Upserted(Upserted(lines, m, done), m, done) == Upserted(lines, m, done)
    decreases |lines|
  {
    if lines == [] {
      MappingIsWithin(m);
      UpsertMissing(m, m, done);
    } else if Maps(m, lines[0]) {
      var key := Key(lines[0]).value;
      if key in done {
        UpsertTwice(lines[1..], m, done);
      } else {
        UpsertTwice(lines[1..], m, done + {key});
        KeyOfLine(m, key);
        var out := Upserted(lines, m, done);
        assert out[0] == Line(key, Value(m, key).value) && out[1..] == Upserted(lines[1..], m, done + {key});
      }
    } else {
      UpsertTwice(lines[1..], m, done);
      var out := Upserted(lines, m, done);
      assert out[0] == lines[0] && out[1..] == Upserted(lines[1..], m, done);
    }
  }

  // -- places ------------------------------------------------------------------------------------------------

  /** A file seen as its other lines and, where each is bound first, the mapped keys. */
  datatype Item = Kept(line: string) | Bound(key: string)

  function Outline(lines: seq<string>, m: Bindings, done: set<string>): seq<Item> {
    if lines == [] then []
    else if !Maps(m, lines[0]) then [Kept(lines[0])] + Outline(lines[1..], m, done)
    else if Key(lines[0]).value in done then Outline(lines[1..], m, done)
    else [Bound(Key(lines[0]).value)] + Outline(lines[1..], m, done + {Key(lines[0]).value})
  }

  /** The keys still to be added, in the mapping's order. */
  function Added(m: Bindings, done: set<string>): seq<Item> {
    if m == [] then [] else if m[0].0 in done then Added(m[1..], done) else [Bound(m[0].0)] + Added(m[1..], done)
  }

  function BoundIn(lines: seq<string>, m: Bindings, done: set<string>): set<string> {
    if lines == [] then done
    else BoundIn(lines[1..], m, if Maps(m, lines[0]) then done + {Key(lines[0]).value} else done)
  }

  lemma {:induction false} AddedInOrder(part: Bindings, m: Bindings, done: set<string>)
    requires Proper(m) && Within(part, m)
    ensures Outline(Missing(part, done), m, done) == Added(part, done)
    decreases |part|
  {
    if part != [] {
      WithinRest(part, m);
      var key := part[0].0;
      if key in done {
        AddedInOrder(part[1..], m, done);
      } else {
        KeyOfLine(m, key);
        assert part[0] in part && part[0].1 == Value(m, key).value;
        MissingSame(part[1..], done, key);
        AddedSame(part[1..], done, key);
        AddedInOrder(part[1..], m, done + {key});
      }
    }
  }

  lemma {:induction false} AddedSame(part: Bindings, done: set<string>, key: string)
    requires forall b <- part :: b.0 != key
    ensures Added(part, done + {key}) == Added(part, done)
    decreases |part|
  {
    if part != [] { AddedSame(part[1..], done, key); }
  }

  /** Every line and every mapped key keeps its place; what was missing comes after, in order. */
  lemma {:induction false} PlacesStay(lines: seq<string>, m: Bindings, done: set<string>)
    requires Proper(m)
    ensures Outline(Upserted(lines, m, done), m, done) == Outline(lines, m, done) + Added(m, BoundIn(lines, m, done))
    decreases |lines|
  {
    hide Parse, Value, IsIdentifier;
    if lines == [] {
      MappingIsWithin(m);
      AddedInOrder(m, m, done);
    } else if !Maps(m, lines[0]) {
      PlacesStay(lines[1..], m, done);
    } else {
      var key := Key(lines[0]).value;
      if key in done {
        assert done + {key} == done;
        PlacesStay(lines[1..], m, done);
      } else {
        PlacesStay(lines[1..], m, done + {key});
        KeyOfLine(m, key);
        var out := Upserted(lines, m, done);
        assert out[1..] == Upserted(lines[1..], m, done + {key});
      }
    }
  }

  // -- from lines to bindings -------------------------------------------------------------------------------

  lemma {:induction false} ReadAhead(lines: seq<string>)
    requires lines != []
    ensures Read(lines)
            == (if Parse(lines[0]).Some? then [(Parse(lines[0]).value.0, Unquote(Parse(lines[0]).value.1))] else [])
               + Read(lines[1..])
    decreases |lines|
  {
    hide Parse, Unquote;
    if |lines| == 1 {
      assert lines[..0] == [] && lines[1..] == [];
    } else {
      var init, rest := lines[..|lines| - 1], lines[1..];
      ReadAhead(init);
      assert init[1..] == rest[..|rest| - 1] && init[0] == lines[0] && rest[|rest| - 1] == lines[|lines| - 1];
      var p := Parse(lines[|lines| - 1]);
      var last := if p.Some? then [(p.value.0, Unquote(p.value.1))] else [];
      assert Read(lines) == Read(init) + last;
      assert Read(rest) == Read(rest[..|rest| - 1]) + last;
    }
  }

  function Of(bs: Bindings, key: string): Bindings {
    if bs == [] then [] else if bs[0].0 == key then [bs[0]] + Of(bs[1..], key) else Of(bs[1..], key)
  }

  function Outside(bs: Bindings, m: Bindings): Bindings {
    if bs == [] then [] else if Value(m, bs[0].0).Some? then Outside(bs[1..], m) else [bs[0]] + Outside(bs[1..], m)
  }

  lemma {:induction false} ReadBinding(lines: seq<string>, key: string)
    ensures Of(Read(lines), key) == Read(Binding(lines, key))
    decreases |lines|
  {
    hide Parse, Unquote;
    if lines != [] {
      ReadBinding(lines[1..], key);
      assert lines == [lines[0]] + lines[1..];
      if Parse(lines[0]).None? {
        ReadSkip(lines[0], lines[1..]);
      } else {
        ReadCons(lines[0], lines[1..]);
        if Key(lines[0]) == Some(key) { ReadCons(lines[0], Binding(lines[1..], key)); }
      }
    }
  }

  lemma ReadCons(line: string, lines: seq<string>)
    requires Parse(line).Some?
    ensures Read([line] + lines) == [(Parse(line).value.0, Unquote(Parse(line).value.1))] + Read(lines)
  {
    hide Parse, Unquote;
    ReadAhead([line] + lines);
    assert ([line] + lines)[1..] == lines;
  }

  lemma ReadSkip(line: string, lines: seq<string>)
    requires Parse(line).None?
    ensures Read([line] + lines) == Read(lines)
  {
    hide Parse, Unquote;
    ReadAhead([line] + lines);
    assert ([line] + lines)[1..] == lines;
  }

  lemma {:induction false} ReadForeign(lines: seq<string>, m: Bindings)
    ensures Outside(Read(lines), m) == Read(Foreign(lines, m))
    decreases |lines|
  {
    hide Parse, Unquote;
    if lines != [] {
      ReadForeign(lines[1..], m);
      assert lines == [lines[0]] + lines[1..];
      if Parse(lines[0]).None? {
        ReadSkip(lines[0], lines[1..]);
        ReadSkip(lines[0], Foreign(lines[1..], m));
      } else {
        ReadCons(lines[0], lines[1..]);
        if !Maps(m, lines[0]) { ReadCons(lines[0], Foreign(lines[1..], m)); }
      }
    }
  }

  // -- the theorems -------------------------------------------------------------------------------------------

  /** Keys and values of one line, each key once. */
  predicate OnOneLine(m: Bindings) { IsMapping(m) && forall b <- m :: SingleLine(b.0) && SingleLine(b.1) }

  lemma ProperIsOnOneLine(m: Bindings)
    requires Proper(m)
    ensures OnOneLine(m)
  {
  }

  lemma {:induction false} UpsertedIsSingle(lines: seq<string>, m: Bindings, done: set<string>)
    requires OnOneLine(m) && forall l <- lines :: SingleLine(l)
    ensures forall l <- Upserted(lines, m, done) :: SingleLine(l)
    decreases |lines|
  {
    if lines == [] {
      MissingIsSingle(m, done);
    } else {
      var key := Key(lines[0]);
      if Maps(m, lines[0]) {
        UpsertedIsSingle(lines[1..], m, if key.value in done then done else done + {key.value});
        ValueIsThere(m, key.value);
        LineIsSingle(key.value, Value(m, key.value).value);
      } else {
        UpsertedIsSingle(lines[1..], m, done);
      }
    }
  }

  lemma LineIsSingle(key: string, value: string)
    requires SingleLine(key) && SingleLine(value)
    ensures SingleLine(Line(key, value))
  {
  }

  lemma {:induction false} MissingIsSingle(m: Bindings, done: set<string>)
    requires forall b <- m :: SingleLine(b.0) && SingleLine(b.1)
    ensures forall l <- Missing(m, done) :: SingleLine(l)
    decreases |m|
  {
    if m != [] {
      MissingIsSingle(m[1..], done);
      LineIsSingle(m[0].0, m[0].1);
    }
  }

  /** What is on the lines of the file afterwards. */
  lemma LinesAfterSet(file: Option<string>, m: Bindings)
    requires OnOneLine(m) && m != []
    ensures LinesOf(SetLines(file, m)) == Upserted(LinesOf(file), m, {})
  {
    if file.Some? { SplitIsSingle(Universal(file.value)); }
    UpsertedIsSingle(LinesOf(file), m, {});
    WrittenIsRead(Upserted(LinesOf(file), m, {}));
  }

  /** Set, then read: each mapped key is bound once, to its value unquoted; all else is as it was and in
      the same order, other bindings and every other line; and the keys keep their first places. */
  lemma SetThenRead(file: Option<string>, m: Bindings)
    requires Proper(m)
    ensures var before, now := LinesOf(file), LinesOf(SetLines(file, m));
            && (forall b <- m :: Of(Read(now), b.0) == [(b.0, Unquote(b.1))])
            && Outside(Read(now), m) == Outside(Read(before), m)
            && Foreign(now, m) == Foreign(before, m)
            && (m != [] ==> Outline(now, m, {}) == Outline(before, m, {}) + Added(m, BoundIn(before, m, {})))
  {
    if m != [] {
      var before, now := LinesOf(file), LinesOf(SetLines(file, m));
      ProperIsOnOneLine(m);
      LinesAfterSet(file, m);
      ForeignStays(before, m, {});
      PlacesStay(before, m, {});
      ReadForeign(before, m);
      ReadForeign(now, m);
      MappingIsWithin(m);
      forall b | b in m ensures Of(Read(now), b.0) == [(b.0, Unquote(b.1))] {
        MappedOnce(before, m, {}, b.0);
        ReadBinding(now, b.0);
        LineIsParsed(b.0, b.1);
        ReadAhead([Line(b.0, b.1)]);
        assert [Line(b.0, b.1)][1..] == [];
      }
    }
  }

  /** Setting the same mapping twice leaves the very text setting it once does. */
  lemma SetTwiceIsOnce(file: Option<string>, m: Bindings)
    requires Proper(m)
    ensures SetLines(SetLines(file, m), m) == SetLines(file, m)
  {
    if m != [] {
      ProperIsOnOneLine(m);
      LinesAfterSet(file, m);
      UpsertTwice(LinesOf(file), m, {});
    }
  }

  // -- keys that are not identifiers ------------------------------------------------------------------------

  lemma {:induction false} WordsAreWords(s: string)
    ensures forall c <- s[..WordLength(s)] :: IsWord(c)
    decreases |s|
  {
    if s != "" && IsWord(s[0]) {
      WordsAreWords(s[1..]);
      assert s[..WordLength(s)] == [s[0]] + s[1..][..WordLength(s[1..])];
    }
  }

  lemma KeysAreIdentifiers(line: string)
    requires Key(line).Some?
    ensures IsIdentifier(Key(line).value)
  {
    WordsAreWords(Stripped(line));
  }

  /** The line written for an entry binds a key of the mapping: its own, or for a key that is no identifier
      another one, as " A=1" binds A. */
  predicate Binds(m: Bindings, b: (string, string)) { Maps(m, Line(b.0, b.1)) }

  /** How many lines written for part of a mapping bind no key of it. */
  function Unbound(part: Bindings, m: Bindings): nat {
    if part == [] then 0 else (if Binds(m, part[0]) then 0 else 1) + Unbound(part[1..], m)
  }

  lemma {:induction false} NoneUnbound(part: Bindings, m: Bindings)
    ensures Unbound(part, m) == 0 <==> forall b <- part :: Binds(m, b)
    decreases |part|
  {
    if part != [] {
      NoneUnbound(part[1..], m);
      assert part == [part[0]] + part[1..];
    }
  }

  /** Only identifiers are found on lines. */
  predicate Found(done: set<string>) { forall key <- done :: IsIdentifier(key) }

  lemma {:induction false} MissingGrows(part: Bindings, m: Bindings, done: set<string>)
    requires Within(part, m) && Found(done)
    ensures |Foreign(Missing(part, done), m)| == Unbound(part, m)
    decreases |part|
  {
    if part != [] {
      WithinRest(part, m);
      MissingGrows(part[1..], m, done);
      assert part[0] in part;
      if IsIdentifier(part[0].0) { IdentifierBinds(m, part[0].0); }
    }
  }

  /** Each set leaves one more foreign line for each of them. */
  lemma {:induction false} ForeignGrows(lines: seq<string>, m: Bindings, done: set<string>)
    requires IsMapping(m) && Found(done)
    ensures |Foreign(Upserted(lines, m, done), m)| == |Foreign(lines, m)| + Unbound(m, m)
    decreases |lines|
  {
    if lines == [] {
      MappingIsWithin(m);
      MissingGrows(m, m, done);
    } else if Maps(m, lines[0]) {
      var key := Key(lines[0]).value;
      KeysAreIdentifiers(lines[0]);
      IdentifierBinds(m, key);
      ForeignGrows(lines[1..], m, if key in done then done else done + {key});
    } else {
      ForeignGrows(lines[1..], m, done);
    }
  }

  /** Setting again changes nothing only if every line written binds a key of the mapping. */
  lemma TwiceOnlyIfAllBind(file: Option<string>, m: Bindings)
    requires OnOneLine(m) && SetLines(SetLines(file, m), m) == SetLines(file, m)
    ensures forall b <- m :: Binds(m, b)
  {
    if m != [] {
      LinesAfterSet(file, m);
      LinesAfterSet(SetLines(file, m), m);
      ForeignGrows(LinesOf(file), m, {});
      ForeignGrows(LinesOf(SetLines(file, m)), m, {});
      NoneUnbound(m, m);
    }
  }

  /** No identifier that is still to be added comes after a key that is none. */
  predicate StrangersLast(m: Bindings, done: set<string>) {
    forall i, j :: 0 <= i < j < |m| && !IsIdentifier(m[i].0) && IsIdentifier(m[j].0) ==> m[j].0 in done
  }

  lemma {:induction false} AllDropped(lines: seq<string>, m: Bindings, done: set<string>)
    requires forall l <- lines :: Maps(m, l) && Key(l).value in done
    ensures Upserted(lines, m, done) == Missing(m, done)
    decreases |lines|
  {
    hide Maps;
    if lines != [] { AllDropped(lines[1..], m, done); }
  }

  lemma {:induction false} MissingLines(part: Bindings, done: set<string>)
    ensures forall l <- Missing(part, done) :: exists b <- part :: b.0 !in done && l == Line(b.0, b.1)
    decreases |part|
  {
    if part != [] {
      MissingLines(part[1..], done);
      assert part == [part[0]] + part[1..];
    }
  }

  /** What has been done need not be looked at. */
  lemma {:induction false} MissingSuffix(m: Bindings, k: nat, done: set<string>)
    requires k <= |m| && forall i :: 0 <= i < k ==> m[i].0 in done
    ensures Missing(m, done) == Missing(m[k..], done)
    decreases k
  {
    if k > 0 {
      MissingSuffix(m, k - 1, done);
      assert m[k - 1..][1..] == m[k..];
    }
  }

  lemma StrangersDropped(m: Bindings, k: nat, done: set<string>)
    requires k <= |m| && (forall i :: 0 <= i < k ==> m[i].0 in done) && (forall b <- m :: Binds(m, b))
    requires forall b <- m :: IsIdentifier(b.0) ==> b.0 in done
    ensures Upserted(Missing(m[k..], done), m, done) == Missing(m[k..], done)
  {
    var lines := Missing(m[k..], done);
    MissingLines(m[k..], done);
    forall l | l in lines ensures Maps(m, l) && Key(l).value in done {
      var b :| b in m[k..] && b.0 !in done && l == Line(b.0, b.1);
      assert b in m && Binds(m, b);
      KeysAreIdentifiers(l);
      ValueIsThere(m, Key(l).value);
    }
    AllDropped(lines, m, done);
    MissingSuffix(m, k, done);
  }

  lemma {:induction false} MissingTwice(m: Bindings, k: nat, done: set<string>)
    requires IsMapping(m) && k <= |m| && (forall i :: 0 <= i < k ==> m[i].0 in done)
    requires Found(done) && (forall b <- m :: Binds(m, b)) && StrangersLast(m, done)
    ensures Upserted(Missing(m[k..], done), m, done) == Missing(m[k..], done)
    decreases |m| - k
  {
    hide IsIdentifier, Binds, Maps, Upserted;
    if k == |m| {
      StrangersDropped(m, k, done);
    } else {
      var key, value := m[k].0, m[k].1;
      assert m[k..][0] == m[k] && m[k..][1..] == m[k + 1..];
      if key in done {
        MissingTwice(m, k + 1, done);
      } else if IsIdentifier(key) {
        MissingTwice(m, k + 1, done + {key});
        MissingSame(m[k + 1..], done, key);
        ValueAt(m, k);
        IdentifierBinds(m, key);
        UpsertedFirst(Line(key, value), Missing(m[k + 1..], done), m, done, key);
      } else {
        StrangersDropped(m, k, done);
      }
    }
  }

  lemma UpsertedFirst(line: string, rest: seq<string>, m: Bindings, done: set<string>, key: string)
    requires Maps(m, line) && Key(line) == Some(key) && key !in done
    ensures Upserted([line] + rest, m, done) == [Line(key, Value(m, key).value)] + Upserted(rest, m, done + {key})
  {
    assert ([line] + rest)[1..] == rest;
  }

  lemma {:induction false} UpsertTwiceAllBound(lines: seq<string>, m: Bindings, done: set<string>)
    requires IsMapping(m) && Found(done) && (forall b <- m :: Binds(m, b)) && StrangersLast(m, BoundIn(lines, m, done))
    ensures Upserted(Upserted(lines, m, done), m, done) == Upserted(lines, m, done)
    decreases |lines|
  {
    hide IsIdentifier, Binds, StrangersLast;
    if lines == [] {
      assert m[0..] == m;
      MissingTwice(m, 0, done);
    } else if Maps(m, lines[0]) {
      var key := Key(lines[0]).value;
      KeysAreIdentifiers(lines[0]);
      if key in done {
        assert done + {key} == done;
        UpsertTwiceAllBound(lines[1..], m, done);
      } else {
        UpsertTwiceAllBound(lines[1..], m, done + {key});
        IdentifierBinds(m, key);
        UpsertedFirst(Line(key, Value(m, key).value), Upserted(lines[1..], m, done + {key}), m, done, key);
      }
    } else {
      UpsertTwiceAllBound(lines[1..], m, done);
      UpsertedOther(lines[0], Upserted(lines[1..], m, done), m, done);
    }
  }

  lemma UpsertedOther(line: string, rest: seq<string>, m: Bindings, done: set<string>)
    requires !Maps(m, line)
    ensures Upserted([line] + rest, m, done) == [line] + Upserted(rest, m, done)
  {
    assert ([line] + rest)[1..] == rest;
  }

  /** And it changes nothing if they do, and no identifier still to be added comes after a key that is none. */
  lemma TwiceIfAllBind(file: Option<string>, m: Bindings)
    requires OnOneLine(m) && (forall b <- m :: Binds(m, b)) && StrangersLast(m, BoundIn(LinesOf(file), m, {}))
    ensures SetLines(SetLines(file, m), m) == SetLines(file, m)
  {
    if m != [] {
      LinesAfterSet(file, m);
      UpsertTwiceAllBound(LinesOf(file), m, {});
    }
  }

  /** No line written for a key that is no identifier binds another key of the mapping. */
  predicate NoMixUp(m: Bindings) { forall b <- m :: !IsIdentifier(b.0) ==> !Binds(m, b) }

  /** Setting keys and values of one line again changes nothing, on any file, exactly when all the keys are
      identifiers: no other is recognised on the line it was written to, and each set adds one more. */
  lemma SomeKeysTwice(file: Option<string>, m: Bindings)
    requires OnOneLine(m) && NoMixUp(m)
    ensures SetLines(SetLines(file, m), m) == SetLines(file, m) <==> forall b <- m :: IsIdentifier(b.0)
  {
    if forall b <- m :: IsIdentifier(b.0) {
      SetTwiceIsOnce(file, m);
    } else if SetLines(SetLines(file, m), m) == SetLines(file, m) {
      TwiceOnlyIfAllBind(file, m);
    }
  }

  lemma OneKeyTwice(file: Option<string>, key: string, value: string)
    requires SingleLine(key) && SingleLine(value)
    ensures SetLines(SetLines(file, [(key, value)]), [(key, value)]) == SetLines(file, [(key, value)]) <==> IsIdentifier(key)
  {
    hide IsIdentifier;
    var m := [(key, value)];
    assert m[1..] == [];
    assert NoMixUp(m) by {
      if !IsIdentifier(key) && Key(Line(key, value)).Some? {
        KeysAreIdentifiers(Line(key, value));
        var other := Key(Line(key, value)).value;
        assert Value(m[1..], other).None? && Value(m, other).None?;
      }
      assert !IsIdentifier(key) ==> !Maps(m, Line(key, value));
      assert forall b <- m :: b == (key, value);
    }
    SomeKeysTwice(file, m);
  }

  const Both: Bindings := [("A", "1"), (" A", "2")]

  /** A key that is no identifier but binds one beside it: each set drops its line and writes it again. */
  lemma MixedUpKeys()
    ensures OnOneLine(Both) && !IsIdentifier(" A")
    ensures SetLines(None, Both) == Some(Joined(["A=1", " A=2"])) && SetLines(SetLines(None, Both), Both) == SetLines(None, Both)
  {
    hide Joined, LinesOf, Maps;
    assert Both[1..] == [(" A", "2")] && Both[1..][1..] == [];
    assert Line("A", "1") == "A=1" && Line(" A", "2") == " A=2";
    assert Missing(Both, {}) == ["A=1", " A=2"];
    assert " A"[0] == ' ' && " A"[0] in " A" && !IsWord(' ');
    WrittenIsRead(["A=1", " A=2"]);
    SetAgain();
    NothingThere();
  }

  lemma NothingThere()
    ensures LinesOf(None) == []
  {
  }

  lemma SetAgain()
    ensures Upserted(["A=1", " A=2"], Both, {}) == ["A=1", " A=2"]
  {
    hide Parse;
    LineIsParsed("A", "1");
    SpacedLine();
    assert Line("A", "1") == "A=1" && Line(" A", "2") == " A=2";
    assert Both[1..] == [(" A", "2")] && Both[1..][1..] == [];
    assert Value(Both, "A") == Some("1");
    var rest := [" A=2"];
    assert rest[1..] == [] && ["A=1", " A=2"][1..] == rest;
    assert {} + {"A"} == {"A"};
    assert Missing(Both, {"A"}) == rest;
    assert Upserted(rest, Both, {"A"}) == Upserted([], Both, {"A"});
  }

  lemma SpacedLine()
    ensures Key(" A=2") == Some("A")
  {
    LineIsParsed("A", "2");
    assert " A=2"[1..] == "A=2" == Line("A", "2");
    assert SkipSpace(" A=2") == SkipSpace("A=2");
    assert Stripped(" A=2") == Stripped("A=2");
  }

  // -- what a line binds -------------------------------------------------------------------------------------

  predicate Blank(s: string) { forall c <- s :: IsSpace(c) }

  lemma {:induction false} BlankAhead(a: string, s: string)
    requires Blank(a) && (s == "" || !IsSpace(s[0]))
    ensures SkipSpace(a + s) == s
    decreases |a|
  {
    if a == "" {
      assert a + s == s;
    } else {
      BlankAhead(a[1..], s);
      assert (a + s)[1..] == a[1..] + s;
    }
  }

  lemma {:induction false} BlankBehind(s: string, z: string)
    requires Blank(z) && (s == "" || !IsSpace(s[|s| - 1]))
    ensures TrimEnd(s + z) == s
    decreases |z|
  {
    if z == "" {
      assert s + z == s;
    } else {
      BlankBehind(s, z[..|z| - 1]);
      assert (s + z)[..|s + z| - 1] == s + z[..|z| - 1];
      assert (s + z)[|s + z| - 1] == z[|z| - 1];
    }
  }

  /** A value as it is meant, in white space: one that begins and ends with the same quote is what is between. */
  lemma ValuesAreUnquoted(a: string, v: string, z: string)
    requires Blank(a) && Blank(z) && v != "" && !IsSpace(v[0]) && !IsSpace(v[|v| - 1])
    ensures Unquote(a + v + z)
            == if |v| >= 2 && (v[0] == '"' || v[0] == '\'') && v[|v| - 1] == v[0] then v[1..|v| - 1] else v
  {
    assert a + v + z == a + (v + z);
    BlankAhead(a, v + z);
    BlankBehind(v, z);
  }

  lemma NothingIsUnquoted(a: string)
    requires Blank(a)
    ensures Unquote(a) == ""
  {
    assert a + "" == a;
    BlankAhead(a, "");
  }

  /** A line binds its identifier, indented or not, exported or not. */
  lemma LinesBind(a: string, b: string, key: string, value: string)
    requires Blank(a) && Blank(b) && IsIdentifier(key)
    ensures Parse(a + key + "=" + value) == Some((key, value))
    ensures b != "" ==> Parse(a + "export" + b + key + "=" + value) == Some((key, value))
  {
    hide Parse, Stripped, SkipSpace;
    var line := Line(key, value);
    LineIsParsed(key, value);
    assert a + key + "=" + value == a + line;
    IndentedBinds(a, key, value);
    if b != "" {
      assert a + "export" + b + key + "=" + value == a + ("export" + b + line);
      ExportedBinds(a, b, key, value);
    }
  }

  lemma IndentedBinds(a: string, key: string, value: string)
    requires Blank(a) && IsIdentifier(key)
    ensures Parse(a + Line(key, value)) == Parse(Line(key, value))
  {
    var line := Line(key, value);
    NoExport(key, value);
    WordIsNoSpace(key);
    assert line[0] == key[0];
    BlankAhead(a, line);
    BlankAhead("", line);
    assert "" + line == line;
    assert Stripped(a + line) == Stripped(line);
  }

  lemma ExportedBinds(a: string, b: string, key: string, value: string)
    requires Blank(a) && Blank(b) && b != "" && IsIdentifier(key)
    ensures Parse(a + ("export" + b + Line(key, value))) == Parse(Line(key, value))
  {
    var line := Line(key, value);
    var rest := "export" + b + line;
    NoExport(key, value);
    WordIsNoSpace(key);
    assert line[0] == key[0];
    BlankAhead(a, rest);
    assert rest[6] == b[0] && rest[6..] == b + line && IsSpace(rest[6]);
    BlankAhead(b, line);
    assert "export" <= rest;
    assert Stripped(a + rest) == line == Stripped(line);
  }

  lemma WordIsNoSpace(key: string)
    requires IsIdentifier(key)
    ensures !IsSpace(key[0])
  {
    assert IsWord(key[0]);
  }

  /** A comment binds nothing. */
  lemma CommentsBindNothing(a: string, s: string)
    requires Blank(a) && s != "" && s[0] == '#'
    ensures Parse(a + s).None?
  {
    BlankAhead(a, s);
  }

  // -- where a line ends ---------------------------------------------------------------------------------------

  /** A line may end in a newline, a carriage return, or the two together. */
  lemma {:induction false} LineEndings(line: string, ending: string, rest: string)
    requires SingleLine(line) && (ending == "\n" || ending == "\r\n" || (ending == "\r" && (rest == "" || rest[0] != '\n')))
    ensures LinesOf(Some(line + ending + rest)) == [line] + LinesOf(Some(rest))
    decreases |line|
  {
    UniversalEnds(line, ending, rest);
    FirstLine(line, Universal(rest));
  }

  lemma {:induction false} UniversalEnds(line: string, ending: string, rest: string)
    requires SingleLine(line) && (ending == "\n" || ending == "\r\n" || (ending == "\r" && (rest == "" || rest[0] != '\n')))
    ensures Universal(line + ending + rest) == line + "\n" + Universal(rest)
    decreases |line|
  {
    var raw := line + ending + rest;
    if line == "" {
      if ending == "\r\n" {
        assert raw[0] == '\r' && raw[1] == '\n' && raw[2..] == rest;
      } else {
        assert raw[1..] == rest;
      }
    } else {
      assert line[0] in line && raw[0] == line[0];
      assert raw[1..] == line[1..] + ending + rest;
      UniversalEnds(line[1..], ending, rest);
      assert [line[0]] + (line[1..] + "\n" + Universal(rest)) == line + "\n" + Universal(rest);
    }
  }

  /** A to Z, a to z, 0 to 9 and the underscore. */
  lemma WordCharacters(c: char)
    ensures var n := c as int;
            IsWord(c) <==> 0x41 <= n <= 0x5A || 0x61 <= n <= 0x7A || 0x30 <= n <= 0x39 || n == 0x5F
  {
  }

  /** The other ends of a line, and the white space, that Python has beside them. */
  lemma SpacesAndBreaks(c: char)
    ensures IsBreak(c) <==> c in "\n\U{000B}\U{000C}\r\U{001C}\U{001D}\U{001E}\U{0085}\U{2028}\U{2029}"
    ensures IsBreak(c) || c in "\t \U{001F}\U{00A0}\U{1680}\U{202F}\U{205F}\U{3000}" || '\U{2000}' <= c <= '\U{200A}' <==> IsSpace(c)
  {
  }
}
