/**
  The language-file message table (`MessageMap` in src/misc/msg.rs).

  A language file is a list of lines. `:name` opens an entry, each other
  non-empty line adds itself and a newline to the pending text, and a line
  starting with `.` stores the pending text under the pending name.
 */
module Messages {
  import opened Wrappers
  import Text

  /** The loader's state between lines: the table and its two accumulators. */
  datatype Reader = Reader(messages: map<string, string>, name: string, message: string)

  /** The state `load_lang_file` starts from on a table `m`. */
  function Start(m: map<string, string>): Reader {
    Reader(m, "", "")
  }

  /** What one line of the file does to the state. */
  function Step(r: Reader, line: string): Reader {
    match Text.Head(line)
    case None => r
    case Some(c) =>
      if c == ':' then r.(name := line[1..])
      else if c == '.' then
        if r.message != "" then Reader(r.messages[r.name := r.message], "", "") else r
      else r.(message := r.message + line + "\n")
  }

  /** The state after the lines, one at a time from the first. */
  function Run(r: Reader, lines: seq<string>): Reader {
    if lines == [] then r
    else Step(Run(r, lines[..|lines| - 1]), lines[|lines| - 1])
  }

  /** The table after loading `lines` into `m`. */
  function Load(m: map<string, string>, lines: seq<string>): map<string, string> {
    Run(Start(m), lines).messages
  }

  /** A line that adds to the pending text: it begins with an ASCII character other than `:` and `.`. */
  predicate IsBodyLine(line: string) {
    Text.Head(line).Some? && Text.Head(line).value != ':' && Text.Head(line).value != '.'
  }

  /** A line that may store the pending text: it begins with `.`. */
  predicate IsCommitLine(line: string) {
    Text.Head(line) == Some('.')
  }

  /** The text a run of body lines builds: each line followed by a newline. */
  function Joined(body: seq<string>): string {
    if body == [] then ""
    else Joined(body[..|body| - 1]) + body[|body| - 1] + "\n"
  }

  /** The lines of one entry: `:n`, its body lines, then `.`. */
  function Entry(n: string, body: seq<string>): seq<string> {
    [[':'] + n] + body + ["."]
  }

  class MessageMap {
    var langMap: map<string, string>

    /** `new`: an empty table. */
    constructor ()
      ensures langMap == map[]
    {
      langMap := map[];
    }

    /** `set`: `name` now maps to `value`; every other key is unchanged. */
    method Set(name: string, value: string)
      modifies this
      ensures langMap == old(langMap)[name := value]
      ensures name in langMap && langMap[name] == value
      ensures forall k :: k != name ==> (k in langMap <==> k in old(langMap))
      ensures forall k :: k != name && k in langMap ==> langMap[k] == old(langMap)[k]
    {
      langMap := langMap[name := value];
    }

    /** `get`: the text stored under `key`, if any. */
    function Get(key: string): (r: Option<string>)
      reads this
      ensures r.Some? <==> key in langMap
      ensures r.Some? ==> r.value == langMap[key]
    {
      if key in langMap then Some(langMap[key]) else None
    }

    /** The line loop of `load_lang_file`, over lines already read. */
    method LoadLangFile(lines: seq<string>)
      modifies this
      ensures langMap == Load(old(langMap), lines)
    {
      var name: string := "";
      var message: string := "";
      var i := 0;
      while i < |lines|
        invariant 0 <= i <= |lines|
        invariant Reader(langMap, name, message) == Run(Start(old(langMap)), lines[..i])
      {
        assert lines[..i + 1][..i] == lines[..i];
        var line := lines[i];
        match Text.Head(line) {
          case None =>
          case Some(c) =>
            if c == ':' {
              name := line[1..];
            } else if c == '.' {
              if message != "" {
                Set(name, message);
                name := "";
                message := "";
              }
            } else {
              message := message + line + "\n";
            }
        }
        i := i + 1;
      }
      assert lines[..i] == lines;
    }
  }

  // ---------------------------------------------------------------------
  // What loading does

  /** The four kinds of line, one step at a time. */
  lemma StepCases(r: Reader, line: string)
    ensures Text.Head(line) == Some(':') ==> Step(r, line) == r.(name := line[1..])
    ensures IsCommitLine(line) && r.message != "" ==> Step(r, line) == Reader(r.messages[r.name := r.message], "", "")
    ensures IsCommitLine(line) && r.message == "" ==> Step(r, line) == r
    ensures IsBodyLine(line) ==> Step(r, line) == r.(message := r.message + line + "\n")
    ensures line == "" ==> Step(r, line) == r
  {
  }

  /**
    A line that begins with a character outside ASCII is dropped, since
    its first byte alone is not a character: it neither names an entry
    nor adds to the pending text.
   */
  lemma NonAsciiLineIgnored(r: Reader, line: string)
    requires |line| > 0 && !Text.IsAscii(line[0])
    ensures Step(r, line) == r
  {
  }

  /** Loading two files in a row is loading one after the other. */
  lemma {:induction false} RunAppend(r: Reader, a: seq<string>, b: seq<string>)
    ensures Run(r, a + b) == Run(Run(r, a), b)
    decreases |b|
  {
    if b == [] {
      assert a + b == a;
    } else {
      var n := |b| - 1;
      assert (a + b)[..|a + b| - 1] == a + b[..n];
      RunAppend(r, a, b[..n]);
    }
  }

  /** Body lines only add to the pending text, each with a newline. */
  lemma {:induction false} BodyAccumulates(r: Reader, body: seq<string>)
    requires forall i :: 0 <= i < |body| ==> IsBodyLine(body[i])
    ensures Run(r, body) == r.(message := r.message + Joined(body))
    decreases |body|
  {
    if body != [] {
      var n := |body| - 1;
      BodyAccumulates(r, body[..n]);
      assert r.message + Joined(body) == r.message + Joined(body[..n]) + body[n] + "\n";
    }
  }

  /** A non-empty run of body lines builds non-empty text. */
  lemma JoinedNonEmpty(body: seq<string>)
    requires body != []
    ensures Joined(body) != ""
  {
    assert Joined(body)[|Joined(body)| - 1] == '\n';
  }

  /**
    An entry `:n`, body lines L1..Lk (k >= 1), `.` read with no pending
    text stores L1 + "\n" + ... + Lk + "\n" under `n` and clears both
    accumulators.
   */
  lemma {:induction false} LoadEntry(r: Reader, n: string, body: seq<string>)
    requires r.message == ""
    requires body != [] && forall i :: 0 <= i < |body| ==> IsBodyLine(body[i])
    ensures Run(r, Entry(n, body)) == Reader(r.messages[n := Joined(body)], "", "")
  {
    var opener: string := [':'] + n;
    assert opener[1..] == n;
    var named := r.(name := n);
    assert Run(r, [opener]) == named by {
      assert |[opener][..0]| == 0;
    }
    RunAppend(r, [opener], body);
    BodyAccumulates(named, body);
    var filled := named.(message := Joined(body));
    assert named.message + Joined(body) == Joined(body);
    assert Run(r, [opener] + body) == filled;
    RunAppend(r, [opener] + body, ["."]);
    assert Run(filled, ["."]) == Step(filled, ".") by {
      assert |["."][..0]| == 0;
    }
    JoinedNonEmpty(body);
    assert IsCommitLine(".");
    assert Step(filled, ".") == Reader(r.messages[n := Joined(body)], "", "");
  }

  /** An entry with no body lines, read with no pending text, stores nothing: the `.` finds no text. */
  lemma EmptyEntryStoresNothing(r: Reader, n: string)
    requires r.message == ""
    ensures Run(r, Entry(n, [])) == r.(name := n)
  {
    var opener: string := [':'] + n;
    assert opener[1..] == n;
    assert Run(r, [opener]) == r.(name := n) by {
      assert |[opener][..0]| == 0;
    }
    assert Entry(n, []) == [opener, "."];
    assert [opener, "."][..1] == [opener];
  }

  /**
    When a name appears twice, the later entry's text is the one kept
    (from any state with no pending text, such as the start of a file).
   */
  lemma LastEntryWins(r: Reader, n: string, body1: seq<string>, body2: seq<string>)
    requires r.message == ""
    requires body1 != [] && forall i :: 0 <= i < |body1| ==> IsBodyLine(body1[i])
    requires body2 != [] && forall i :: 0 <= i < |body2| ==> IsBodyLine(body2[i])
    ensures Run(r, Entry(n, body1) + Entry(n, body2)).messages == r.messages[n := Joined(body2)]
  {
    var e1 := Entry(n, body1);
    var e2 := Entry(n, body2);
    var first := Reader(r.messages[n := Joined(body1)], "", "");
    RunAppend(r, e1, e2);
    LoadEntry(r, n, body1);
    LoadEntry(first, n, body2);
    assert r.messages[n := Joined(body1)][n := Joined(body2)] == r.messages[n := Joined(body2)];
  }

  /**
    Lines with no `.` line among them never store anything: text pending
    at the end of the file is lost.
   */
  lemma {:induction false} TrailingTextNotStored(r: Reader, tail: seq<string>)
    requires forall i :: 0 <= i < |tail| ==> !IsCommitLine(tail[i])
    ensures Run(r, tail).messages == r.messages
    decreases |tail|
  {
    if tail != [] {
      TrailingTextNotStored(r, tail[..|tail| - 1]);
    }
  }

  /**
    A key that no `:` line of the file names, other than the empty name
    and the name pending at the start, keeps its value (or its absence).
    The pending name is always the starting one, the empty one, or one the
    file named.
   */
  lemma {:induction false} UntouchedKeys(r: Reader, lines: seq<string>)
    ensures var r' := Run(r, lines);
      r'.name == r.name || r'.name == "" || [':'] + r'.name in lines
    ensures var r' := Run(r, lines);
      forall k :: k != "" && k != r.name && [':'] + k !in lines ==>
        (k in r'.messages <==> k in r.messages) && (k in r.messages ==> r'.messages[k] == r.messages[k])
    decreases |lines|
  {
    if lines != [] {
      var n := |lines| - 1;
      var init := lines[..n];
      UntouchedKeys(r, init);
      var prev := Run(r, init);
      var line := lines[n];
      assert forall l :: l in init ==> l in lines;
      if Text.Head(line) == Some(':') {
        assert line == [':'] + line[1..];
      }
    }
  }

  /** Keys absent from a file loaded into `m` keep their values. */
  lemma LoadKeepsOtherKeys(m: map<string, string>, lines: seq<string>, k: string)
    requires k != "" && [':'] + k !in lines
    ensures k in Load(m, lines) <==> k in m
    ensures k in m ==> Load(m, lines)[k] == m[k]
  {
    UntouchedKeys(Start(m), lines);
  }

  /**
    Last entry wins, anywhere in a file: after lines `a` that leave no
    text pending, an entry for `n` with at least one body line keeps its
    text to the end, whatever came before, provided no later `:n` line
    names `n` again.
   */
  lemma LastEntryStays(r: Reader, a: seq<string>, n: string, body: seq<string>, c: seq<string>)
    requires n != "" && Run(r, a).message == ""
    requires body != [] && forall i :: 0 <= i < |body| ==> IsBodyLine(body[i])
    requires [':'] + n !in c
    ensures var r' := Run(r, a + Entry(n, body) + c);
      n in r'.messages && r'.messages[n] == Joined(body)
  {
    var stored := Reader(Run(r, a).messages[n := Joined(body)], "", "");
    RunAppend(r, a + Entry(n, body), c);
    RunAppend(r, a, Entry(n, body));
    LoadEntry(Run(r, a), n, body);
    UntouchedKeys(stored, c);
  }

  /** Text committed before any `:` line is stored under the empty name. */
  lemma UnnamedEntryExample()
    ensures Load(map[], ["hello", "."]) == map["" := "hello\n"]
  {
    var lines := ["hello", "."];
    var filled := Start(map[]).(message := "hello\n");
    assert Run(Start(map[]), lines[..1]) == filled by {
      assert lines[..1][..0] == [];
    }
    assert lines[..2] == lines;
  }

  /** A body line that begins with a non-ASCII character is lost from its entry. */
  lemma NonAsciiBodyExample()
    ensures Load(map[], [":greeting", "Äpfel", "."]) == map[]
  {
    var lines := [":greeting", "Äpfel", "."];
    var named := Start(map[]).(name := "greeting");
    assert ":greeting"[1..] == "greeting";
    assert Run(Start(map[]), lines[..1]) == named by {
      assert lines[..1][..0] == [];
    }
    assert Run(Start(map[]), lines[..2]) == named by {
      assert lines[..2][..1] == lines[..1];
    }
    assert lines[..3] == lines;
  }
}
