/** The migrator's statement splitter: an imperative scan with six flags, the lexer it implements,
    and when splitting is stable under joining. Text is a sequence of Unicode characters. */
module SqlSplitter {

  /******* White space *******/

  /** Unicode white space, as `strings.TrimSpace` sees it. */
  predicate IsSpace(c: char) {
    || '\t' <= c <= '\r' || c == ' ' || c == '\U{85}' || c == '\U{A0}' || c == '\U{1680}'
    || '\U{2000}' <= c <= '\U{200A}' || c == '\U{2028}' || c == '\U{2029}' || c == '\U{202F}'
    || c == '\U{205F}' || c == '\U{3000}'
  }

  function TrimLeft(s: string): string {
    if s != [] && IsSpace(s[0]) then TrimLeft(s[1..]) else s
  }

  function TrimRight(s: string): string {
    if s != [] && IsSpace(s[|s| - 1]) then TrimRight(s[..|s| - 1]) else s
  }

  function Trim(s: string): string { TrimRight(TrimLeft(s)) }

  predicate Trimmed(s: string) {
    s == [] || (!IsSpace(s[0]) && !IsSpace(s[|s| - 1]))
  }

  /** Those are exactly these 25 characters. */
  const SPACES: string :=
    "\t\n\U{B}\U{C}\r \U{85}\U{A0}\U{1680}\U{2000}\U{2001}\U{2002}\U{2003}\U{2004}\U{2005}\U{2006}\U{2007}\U{2008}\U{2009}\U{200A}\U{2028}\U{2029}\U{202F}\U{205F}\U{3000}"

  lemma SpacesAreTrimmed(c: char)
    ensures c in SPACES ==> Trim([c]) == []
    ensures c !in SPACES ==> Trim([c]) == [c]
  {
    SpaceIsListed(c);
    assert [c][1..] == [] && [c][..0] == [];
    if IsSpace(c) {
      assert TrimLeft([c]) == TrimLeft([c][1..]);
    }
  }

  lemma SpaceIsListed(c: char)
    ensures IsSpace(c) <==> c in SPACES
  {
    assert |SPACES| == 25;
    if IsSpace(c) {
      var n := c as int;
      var k :=
        if n <= 13 then n - 9
        else if n == 0x20 then 5 else if n == 0x85 then 6 else if n == 0xA0 then 7 else if n == 0x1680 then 8
        else if n <= 0x200A then n - 0x2000 + 9
        else if n == 0x2028 then 20 else if n == 0x2029 then 21 else if n == 0x202F then 22 else if n == 0x205F then 23 else 24;
      assert 0 <= k < 25 && SPACES[k] == c;
    }
  }

  lemma {:induction false} TrimRightIsPrefix(s: string)
    ensures TrimRight(s) <= s && (TrimRight(s) != [] ==> !IsSpace(TrimRight(s)[|TrimRight(s)| - 1]))
    decreases |s|
  {
    if s != [] && IsSpace(s[|s| - 1]) {
      TrimRightIsPrefix(s[..|s| - 1]);
    }
  }

  lemma {:induction false} TrimLeftShortens(s: string)
    ensures |TrimLeft(s)| <= |s| && (TrimLeft(s) != [] ==> !IsSpace(TrimLeft(s)[0]))
    decreases |s|
  {
    if s != [] && IsSpace(s[0]) {
      TrimLeftShortens(s[1..]);
    }
  }

  lemma TrimIsTrimmed(s: string)
    ensures Trimmed(Trim(s)) && |Trim(s)| <= |s|
    ensures Trimmed(s) ==> Trim(s) == s
  {
    TrimLeftShortens(s);
    TrimRightIsPrefix(TrimLeft(s));
  }

  /******* Quoting *******/

  datatype Mode = Plain | Single | Double | Back | Line | Block

  /** Which quotes a character opens or closes; `esc` says that an odd run of backslashes precedes. */
  function Toggle(m: Mode, c: char, esc: bool): Mode {
    if esc then m
    else if c == '\'' then (if m.Plain? then Single else if m.Single? then Plain else m)
    else if c == '"' then (if m.Plain? then Double else if m.Double? then Plain else m)
    else if c == '`' then (if m.Plain? then Back else if m.Back? then Plain else m)
    else m
  }

  datatype Quoting = Quoting(mode: Mode, esc: bool)

  const Start := Quoting(Plain, false)

  function Step(q: Quoting, c: char): Quoting {
    Quoting(Toggle(q.mode, c, q.esc), c == '\\' && !q.esc)
  }

  /** The quoting state after reading `s` as text without comments. */
  function Read(q: Quoting, s: string): Quoting
    decreases |s|
  {
    if s == [] then q else Read(Step(q, s[0]), s[1..])
  }

  /** A comment would start here. */
  predicate Starter(q: Quoting, s: string) {
    q.mode.Plain? && s != [] &&
    (s[0] == '#' || (|s| >= 2 && ((s[0] == '-' && s[1] == '-') || (s[0] == '/' && s[1] == '*'))))
  }

  /** No comment starts outside quotes. */
  predicate CommentFree(q: Quoting, s: string)
    decreases |s|
  {
    s == [] || (!Starter(q, s) && CommentFree(Step(q, s[0]), s[1..]))
  }

  /** No semicolon outside quotes. */
  predicate Uncut(q: Quoting, s: string)
    decreases |s|
  {
    s == [] || (!(q.mode.Plain? && s[0] == ';') && Uncut(Step(q, s[0]), s[1..]))
  }

  predicate Closed(s: string) { Read(Start, s).mode.Plain? }

  /******* The lexer *******/

  /** The text between top-level semicolons, comments dropped; `cur` is the field read so far. */
  function Fields(m: Mode, esc: bool, cur: string, s: string): (fs: seq<string>)
    ensures fs != []
    decreases |s|
  {
    if s == [] then [cur]
    else if m.Line? then Fields(if s[0] == '\n' then Plain else Line, esc, cur, s[1..])
    else if m.Block? then
      (if |s| >= 2 && s[0] == '*' && s[1] == '/' then Fields(Plain, esc, cur, s[2..])
       else Fields(Block, esc, cur, s[1..]))
    else if Starter(Quoting(m, esc), s) then
      (if s[0] == '#' then Fields(Line, esc, cur, s[1..])
       else Fields(if s[0] == '-' then Line else Block, esc, cur, s[2..]))
    else if m.Plain? && s[0] == ';' then [cur] + Fields(Plain, false, [], s[1..])
    else
      var q := Step(Quoting(m, esc), s[0]);
      Fields(q.mode, q.esc, cur + [s[0]], s[1..])
  }

  function TrimAll(fs: seq<string>): seq<string> {
    if fs == [] then []
    else (if Trim(fs[0]) == [] then [] else [Trim(fs[0])]) + TrimAll(fs[1..])
  }

  function RawFields(s: string): (fs: seq<string>)
    ensures fs != []
  {
    Fields(Plain, false, [], s)
  }

  function Split(s: string): seq<string> { TrimAll(RawFields(s)) }

  function Join(fs: seq<string>): string {
    if fs == [] then [] else if |fs| == 1 then fs[0] else fs[0] + [';'] + Join(fs[1..])
  }

  /** The text with its comments dropped. */
  function Strip(s: string): string { Join(RawFields(s)) }

  /******* The scan *******/

  /** The five flags encode one mode: at most one of them is set. */
  predicate Flags(m: Mode, single: bool, double: bool, back: bool, line: bool, block: bool) {
    && (single <==> m.Single?) && (double <==> m.Double?) && (back <==> m.Back?)
    && (line <==> m.Line?) && (block <==> m.Block?)
  }

  /** What the scan will have produced in the end, when `done` is what it has so far and it goes on
      from character `i`. */
  function Output(done: seq<string>, m: Mode, esc: bool, cur: string, s: string, i: nat): seq<string>
    requires i <= |s|
  {
    done + TrimAll(Fields(m, esc, cur, s[i..]))
  }

  /** A finished field, unless it is blank. */
  function Finish(done: seq<string>, cur: string): seq<string> {
    if Trim(cur) == [] then done else done + [Trim(cur)]
  }

  lemma Tails(s: string, i: nat)
    requires i < |s|
    ensures s[i..][0] == s[i] && s[i..][1..] == s[i + 1..]
    ensures i + 1 < |s| ==> s[i..][1] == s[i + 1] && s[i..][2..] == s[i + 2..]
  {
  }

  lemma OutputInComment(done: seq<string>, m: Mode, esc: bool, cur: string, s: string, i: nat)
    requires i < |s| && (m.Line? || m.Block?)
    ensures Output(done, m, esc, cur, s, i) ==
            if m.Line? then Output(done, if s[i] == '\n' then Plain else Line, esc, cur, s, i + 1)
            else if i + 1 < |s| && s[i] == '*' && s[i + 1] == '/' then Output(done, Plain, esc, cur, s, i + 2)
            else Output(done, Block, esc, cur, s, i + 1)
  {
    Tails(s, i);
  }

  /** A comment would start at `i`. */
  predicate StarterAt(s: string, i: nat) {
    i < |s| && (s[i] == '#' || (i + 1 < |s| && ((s[i] == '-' && s[i + 1] == '-') || (s[i] == '/' && s[i + 1] == '*'))))
  }

  lemma OutputStarter(done: seq<string>, esc: bool, cur: string, s: string, i: nat)
    requires StarterAt(s, i)
    ensures Output(done, Plain, esc, cur, s, i) ==
            if s[i] == '#' then Output(done, Line, esc, cur, s, i + 1)
            else Output(done, if s[i] == '-' then Line else Block, esc, cur, s, i + 2)
  {
    Tails(s, i);
  }

  lemma OutputKeep(done: seq<string>, m: Mode, esc: bool, cur: string, s: string, i: nat)
    requires i < |s| && !m.Line? && !m.Block? && !(m.Plain? && (s[i] == ';' || StarterAt(s, i)))
    ensures Output(done, m, esc, cur, s, i)
         == Output(done, Toggle(m, s[i], esc), s[i] == '\\' && !esc, cur + [s[i]], s, i + 1)
  {
    Tails(s, i);
  }

  lemma OutputCut(done: seq<string>, esc: bool, cur: string, s: string, i: nat)
    requires i < |s| && s[i] == ';'
    ensures Output(done, Plain, esc, cur, s, i) == Output(Finish(done, cur), Plain, false, [], s, i + 1)
  {
    Tails(s, i);
    var rest := Fields(Plain, false, [], s[i + 1..]);
    assert ([cur] + rest)[1..] == rest;
  }

  lemma OutputStart(s: string)
    ensures Output([], Plain, false, [], s, 0) == Split(s)
  {
    assert s[0..] == s;
  }

  lemma OutputEnd(done: seq<string>, m: Mode, esc: bool, cur: string, s: string)
    ensures Output(done, m, esc, cur, s, |s|) == Finish(done, cur)
  {
    assert TrimAll([cur][1..]) == [];
  }

  /** The scan's quote flags after a character outside comments. */
  method FlipQuotes(ghost m: Mode, single: bool, double: bool, back: bool, ch: char, escaped: bool)
    returns (s: bool, d: bool, b: bool)
    requires Flags(m, single, double, back, false, false)
    ensures Flags(Toggle(m, ch, escaped), s, d, b, false, false)
    ensures ch == ';' ==> Toggle(m, ch, escaped) == m
  {
    s, d, b := single, double, back;
    if !d && !b && ch == '\'' && !escaped {
      s := !s;
    } else if !s && !b && ch == '"' && !escaped {
      d := !d;
    } else if !s && !d && ch == '`' && !escaped {
      b := !b;
    }
  }

  method SplitStatements(s: string) returns (statements: seq<string>)
    ensures statements == Split(s)
  {
    statements := [];
    var builder: string := [];
    var inSingle, inDouble, inBacktick, inLine, inBlock, escaped := false, false, false, false, false, false;
    ghost var mode := Plain;
    var i := 0;
    OutputStart(s);
    while i < |s|
      invariant i <= |s|
      invariant Flags(mode, inSingle, inDouble, inBacktick, inLine, inBlock)
      invariant Split(s) == Output(statements, mode, escaped, builder, s, i)
    {
      var ch := s[i];
      var next := if i + 1 < |s| then s[i + 1] else '\0';
      ghost var at := i;
      i := i + 1;
      if inLine {
        OutputInComment(statements, mode, escaped, builder, s, at);
        if ch == '\n' {
          inLine := false;
          mode := Plain;
        }
        continue;
      }
      if inBlock {
        OutputInComment(statements, mode, escaped, builder, s, at);
        if ch == '*' && next == '/' {
          inBlock := false;
          mode := Plain;
          i := i + 1;
        }
        continue;
      }
      if !inSingle && !inDouble && !inBacktick {
        if ch == '-' && next == '-' {
          OutputStarter(statements, escaped, builder, s, at);
          inLine := true;
          mode := Line;
          i := i + 1;
          continue;
        }
        if ch == '#' {
          OutputStarter(statements, escaped, builder, s, at);
          inLine := true;
          mode := Line;
          continue;
        }
        if ch == '/' && next == '*' {
          OutputStarter(statements, escaped, builder, s, at);
          inBlock := true;
          mode := Block;
          i := i + 1;
          continue;
        }
      }
      inSingle, inDouble, inBacktick := FlipQuotes(mode, inSingle, inDouble, inBacktick, ch, escaped);
      if ch == ';' && !inSingle && !inDouble && !inBacktick {
        OutputCut(statements, escaped, builder, s, at);
        var stmt := Trim(builder);
        if stmt != [] {
          statements := statements + [stmt];
        }
        builder := [];
        escaped := false;
        continue;
      }
      OutputKeep(statements, mode, escaped, builder, s, at);
      mode := Toggle(mode, ch, escaped);
      builder := builder + [ch];
      escaped := ch == '\\' && !escaped;
    }
    OutputEnd(statements, mode, escaped, builder, s);
    var last := Trim(builder);
    if last != [] {
      statements := statements + [last];
    }
  }

  /******* What the fields look like *******/

  /** A list of statements as the splitter produces it: no top-level semicolon in any of them, and
      all but the last have their quotes closed. */
  predicate Divided(fs: seq<string>) {
    && (forall k :: 0 <= k < |fs| ==> Uncut(Start, fs[k]))
    && (forall k :: 0 <= k < |fs| - 1 ==> Closed(fs[k]))
  }

  predicate AllCommentFree(fs: seq<string>) {
    forall k :: 0 <= k < |fs| ==> CommentFree(Start, fs[k])
  }

  lemma {:induction false} ReadConcat(q: Quoting, a: string, b: string)
    ensures Read(q, a + b) == Read(Read(q, a), b)
    decreases |a|
  {
    if a == [] {
      assert a + b == b;
    } else {
      ReadConcat(Step(q, a[0]), a[1..], b);
      assert (a + b)[1..] == a[1..] + b;
    }
  }

  lemma {:induction false} UncutConcat(q: Quoting, a: string, b: string)
    ensures Uncut(q, a + b) <==> Uncut(q, a) && Uncut(Read(q, a), b)
    decreases |a|
  {
    if a == [] {
      assert a + b == b;
    } else {
      UncutConcat(Step(q, a[0]), a[1..], b);
      assert (a + b)[1..] == a[1..] + b;
    }
  }

  /** Text that cannot complete a comment starter begun before it. */
  predicate Apart(b: string) {
    b == [] || (b[0] != '-' && b[0] != '*')
  }

  lemma {:induction false} CommentFreeConcat(q: Quoting, a: string, b: string)
    requires Apart(b)
    ensures CommentFree(q, a + b) <==> CommentFree(q, a) && CommentFree(Read(q, a), b)
    decreases |a|
  {
    if a == [] {
      assert a + b == b;
    } else {
      CommentFreeConcat(Step(q, a[0]), a[1..], b);
      assert (a + b)[1..] == a[1..] + b;
      assert |a| == 1 && b != [] ==> (a + b)[1] == b[0];
    }
  }

  /** The lexer's mode with comments seen through. */
  function Under(m: Mode, esc: bool): Quoting {
    Quoting(if m.Line? || m.Block? then Plain else m, esc)
  }

  /** Whatever the text, the lexer divides it at top-level semicolons of what it keeps. */
  lemma {:induction false} FieldsDivided(m: Mode, esc: bool, cur: string, s: string)
    requires Read(Start, cur) == Under(m, esc) && Uncut(Start, cur)
    ensures Divided(Fields(m, esc, cur, s))
    decreases |s|
  {
    if s != [] {
      if m.Line? {
        FieldsDivided(if s[0] == '\n' then Plain else Line, esc, cur, s[1..]);
      } else if m.Block? {
        var ends := |s| >= 2 && s[0] == '*' && s[1] == '/';
        FieldsDivided(if ends then Plain else Block, esc, cur, if ends then s[2..] else s[1..]);
      } else if Starter(Quoting(m, esc), s) {
        var hash := s[0] == '#';
        FieldsDivided(if hash || s[0] == '-' then Line else Block, esc, cur, if hash then s[1..] else s[2..]);
      } else if m.Plain? && s[0] == ';' {
        FieldsDivided(Plain, false, [], s[1..]);
      } else {
        var q := Step(Quoting(m, esc), s[0]);
        ReadConcat(Start, cur, [s[0]]);
        UncutConcat(Start, cur, [s[0]]);
        KeptCharacter(Quoting(m, esc), s[0]);
        FieldsDivided(q.mode, q.esc, cur + [s[0]], s[1..]);
      }
    }
  }

  lemma KeptCharacter(q: Quoting, c: char)
    ensures Read(q, [c]) == Step(q, c) && (Uncut(q, [c]) <==> !(q.mode.Plain? && c == ';'))
    ensures !q.mode.Line? && !q.mode.Block? ==> !Step(q, c).mode.Line? && !Step(q, c).mode.Block?
  {
    assert [c][1..] == [];
  }

  /** On a field without comments and cuts the lexer just reads. */
  lemma {:induction false} FieldsRead(q: Quoting, cur: string, f: string, tail: string)
    requires CommentFree(q, f) && Uncut(q, f) && Apart(tail)
    requires !q.mode.Line? && !q.mode.Block?
    ensures var q' := Read(q, f);
            Fields(q.mode, q.esc, cur, f + tail) == Fields(q'.mode, q'.esc, cur + f, tail)
    decreases |f|
  {
    if f == [] {
      assert f + tail == tail && cur + f == cur;
    } else {
      var q1 := Step(q, f[0]);
      KeptCharacter(q, f[0]);
      FieldsRead(q1, cur + [f[0]], f[1..], tail);
      assert (f + tail)[1..] == f[1..] + tail;
      assert cur + [f[0]] + f[1..] == cur + f;
      assert !Starter(q, f + tail) by {
        assert |f| == 1 && tail != [] ==> (f + tail)[1] == tail[0];
      }
    }
  }

  /** Joining undoes dividing. */
  lemma {:induction false} FieldsOfJoin(fs: seq<string>)
    requires fs != [] && Divided(fs) && AllCommentFree(fs)
    ensures RawFields(Join(fs)) == fs
    decreases |fs|
  {
    if |fs| == 1 {
      FieldsRead(Start, [], fs[0], []);
      assert fs[0] + [] == fs[0] && [] + fs[0] == fs[0];
    } else {
      var tail := [';'] + Join(fs[1..]);
      FieldsRead(Start, [], fs[0], tail);
      assert Join(fs) == fs[0] + tail && [] + fs[0] == fs[0];
      assert tail[1..] == Join(fs[1..]);
      FieldsOfJoin(fs[1..]);
    }
  }

  /** Joined text is free of comments exactly when every part is. */
  lemma {:induction false} CommentFreeJoin(fs: seq<string>)
    requires Divided(fs)
    ensures CommentFree(Start, Join(fs)) <==> AllCommentFree(fs)
    decreases |fs|
  {
    if |fs| > 1 {
      var rest := Join(fs[1..]);
      var tail := [';'] + rest;
      var q := Read(Start, fs[0]);
      CommentFreeJoin(fs[1..]);
      CommentFreeConcat(Start, fs[0], tail);
      assert Join(fs) == fs[0] + tail;
      assert tail[1..] == rest && Step(q, ';') == Start;
      assert CommentFree(q, tail) <==> CommentFree(Start, rest);
      assert AllCommentFree(fs) <==> CommentFree(Start, fs[0]) && AllCommentFree(fs[1..]) by {
        assert forall k :: 0 < k < |fs| ==> fs[k] == fs[1..][k - 1];
      }
    }
  }

  /******* Trimming changes nothing that matters *******/

  /** The two texts quote, cut and comment alike. */
  predicate Alike(f: string, g: string) {
    && (CommentFree(Start, f) <==> CommentFree(Start, g))
    && (Uncut(Start, f) <==> Uncut(Start, g))
    && (Closed(f) <==> Closed(g))
  }

  lemma {:induction false} TrimLeftAlike(f: string)
    ensures Alike(f, TrimLeft(f))
    decreases |f|
  {
    if f != [] && IsSpace(f[0]) {
      TrimLeftAlike(f[1..]);
      assert Step(Start, f[0]) == Start;
    }
  }

  lemma {:induction false} TrimRightAlike(f: string)
    ensures Alike(f, TrimRight(f))
    decreases |f|
  {
    if f != [] && IsSpace(f[|f| - 1]) {
      var g, c := f[..|f| - 1], f[|f| - 1];
      var q := Read(Start, g);
      TrimRightAlike(g);
      assert f == g + [c];
      ReadConcat(Start, g, [c]);
      UncutConcat(Start, g, [c]);
      CommentFreeConcat(Start, g, [c]);
      KeptCharacter(q, c);
      assert CommentFree(q, [c]) && Step(q, c).mode == q.mode;
    }
  }

  lemma TrimAlike(f: string)
    ensures Alike(f, Trim(f))
  {
    TrimLeftAlike(f);
    TrimRightAlike(TrimLeft(f));
  }

  predicate AllTrimmed(fs: seq<string>) {
    forall k :: 0 <= k < |fs| ==> fs[k] != [] && Trimmed(fs[k])
  }

  lemma {:induction false} TrimAllDivided(fs: seq<string>)
    requires Divided(fs)
    ensures Divided(TrimAll(fs)) && AllTrimmed(TrimAll(fs))
    ensures AllCommentFree(fs) <==> AllCommentFree(TrimAll(fs))
    decreases |fs|
  {
    if fs != [] {
      var ts := TrimAll(fs[1..]);
      TrimAllDivided(fs[1..]);
      TrimAlike(fs[0]);
      TrimIsTrimmed(fs[0]);
      TailOf(fs);
      if Trim(fs[0]) == [] {
        assert TrimAll(fs) == ts;
      } else {
        var out := [Trim(fs[0])] + ts;
        assert out[1..] == ts;
        TailOf(out);
        TrimAllShorter(fs[1..]);
        assert Divided(out) by {
          forall k | 0 <= k < |out| - 1
            ensures Closed(out[k])
          {
            assert k > 0 ==> out[k] == ts[k - 1];
          }
        }
      }
    }
  }

  lemma TailOf(fs: seq<string>)
    requires fs != []
    ensures AllCommentFree(fs) <==> CommentFree(Start, fs[0]) && AllCommentFree(fs[1..])
    ensures AllTrimmed(fs) <==> fs[0] != [] && Trimmed(fs[0]) && AllTrimmed(fs[1..])
    ensures (forall k :: 0 <= k < |fs| ==> Uncut(Start, fs[k])) <==>
            Uncut(Start, fs[0]) && (forall k :: 0 <= k < |fs[1..]| ==> Uncut(Start, fs[1..][k]))
  {
    assert forall k :: 0 < k < |fs| ==> fs[k] == fs[1..][k - 1];
    assert forall k :: 0 <= k < |fs[1..]| ==> fs[1..][k] == fs[k + 1];
  }

  lemma {:induction false} TrimAllShorter(fs: seq<string>)
    ensures |TrimAll(fs)| <= |fs| && |Join(TrimAll(fs))| <= |Join(fs)|
    decreases |fs|
  {
    if fs != [] {
      TrimAllShorter(fs[1..]);
      TrimIsTrimmed(fs[0]);
      var t, ts := Trim(fs[0]), TrimAll(fs[1..]);
      assert ([t] + ts)[1..] == ts;
      if t == [] {
        assert TrimAll(fs) == ts;
      } else {
        assert TrimAll(fs) == [t] + ts;
        assert ts == [] ==> Join([t] + ts) == t;
      }
    }
  }

  lemma {:induction false} TrimAllTrimmed(ts: seq<string>)
    requires AllTrimmed(ts)
    ensures TrimAll(ts) == ts
    decreases |ts|
  {
    if ts != [] {
      TailOf(ts);
      TrimAllTrimmed(ts[1..]);
      TrimIsTrimmed(ts[0]);
    }
  }

  /******* Dropping comments *******/

  lemma {:induction false} JoinLength(c: string, fs: seq<string>)
    requires fs != []
    ensures |Join([c] + fs)| == |c| + 1 + |Join(fs)|
  {
    assert ([c] + fs)[1..] == fs;
  }

  /** The lexer never invents text, and a comment costs at least one character. */
  lemma {:induction false} FieldsLength(m: Mode, esc: bool, cur: string, s: string)
    ensures |Join(Fields(m, esc, cur, s))| <= |cur| + |s|
    ensures !m.Line? && !m.Block? && !CommentFree(Quoting(m, esc), s) ==> |Join(Fields(m, esc, cur, s))| < |cur| + |s|
    decreases |s|
  {
    if s != [] {
      if m.Line? {
        FieldsLength(if s[0] == '\n' then Plain else Line, esc, cur, s[1..]);
      } else if m.Block? {
        var ends := |s| >= 2 && s[0] == '*' && s[1] == '/';
        FieldsLength(if ends then Plain else Block, esc, cur, if ends then s[2..] else s[1..]);
      } else if Starter(Quoting(m, esc), s) {
        var hash := s[0] == '#';
        FieldsLength(if hash || s[0] == '-' then Line else Block, esc, cur, if hash then s[1..] else s[2..]);
      } else if m.Plain? && s[0] == ';' {
        FieldsLength(Plain, false, [], s[1..]);
        JoinLength(cur, Fields(Plain, false, [], s[1..]));
        assert Step(Quoting(m, esc), ';') == Start;
      } else {
        var q := Step(Quoting(m, esc), s[0]);
        KeptCharacter(Quoting(m, esc), s[0]);
        FieldsLength(q.mode, q.esc, cur + [s[0]], s[1..]);
      }
    }
  }

  /******* Theorems *******/

  /** Joining any list of trimmed, non-empty, comment-free statements without top-level semicolons -
      quotes closed in all but the last - and splitting returns the list. */
  lemma SplitOfJoin(ts: seq<string>)
    requires Divided(ts) && AllCommentFree(ts) && AllTrimmed(ts)
    ensures Split(Join(ts)) == ts
  {
    if ts == [] {
      assert RawFields([]) == [[]];
      assert TrimAll([[]]) == [] + TrimAll([]);
    } else {
      FieldsOfJoin(ts);
      TrimAllTrimmed(ts);
    }
  }

  /** Every text splits into such a list, except that statements may contain comment starters: those
      that dropping a comment glued together. */
  lemma SplitShape(s: string)
    ensures Divided(Split(s)) && AllTrimmed(Split(s))
    ensures AllCommentFree(Split(s)) <==> CommentFree(Start, Strip(s))
  {
    FieldsDivided(Plain, false, [], s);
    TrimAllDivided(RawFields(s));
    CommentFreeJoin(RawFields(s));
  }

  /** Splitting is stable under joining exactly when dropping the comments glued no new comment. */
  lemma SplitJoinSplit(s: string)
    ensures Split(Join(Split(s))) == Split(s) <==> CommentFree(Start, Strip(s))
  {
    var ts := Split(s);
    SplitShape(s);
    if AllCommentFree(ts) {
      SplitOfJoin(ts);
    } else {
      CommentFreeJoin(ts);
      FieldsLength(Plain, false, [], Join(ts));
      TrimAllShorter(RawFields(Join(ts)));
      assert |Join(Split(Join(ts)))| < |Join(ts)|;
    }
  }

  /** Text without comments is kept as it is, so there splitting is always stable. */
  lemma CommentFreeIsStable(s: string)
    requires CommentFree(Start, s)
    ensures Strip(s) == s && Split(Join(Split(s))) == Split(s)
  {
    StripCommentFree(Start, [], s);
    SplitJoinSplit(s);
  }

  lemma {:induction false} StripCommentFree(q: Quoting, cur: string, s: string)
    requires CommentFree(q, s) && !q.mode.Line? && !q.mode.Block?
    ensures Join(Fields(q.mode, q.esc, cur, s)) == cur + s
    decreases |s|
  {
    if s != [] {
      KeptCharacter(q, s[0]);
      var q1 := Step(q, s[0]);
      if q.mode.Plain? && s[0] == ';' {
        StripCommentFree(Start, [], s[1..]);
        var rest := Fields(Plain, false, [], s[1..]);
        assert ([cur] + rest)[1..] == rest;
        assert cur + [';'] + s[1..] == cur + s;
      } else {
        StripCommentFree(q1, cur + [s[0]], s[1..]);
        assert cur + [s[0]] + s[1..] == cur + s;
      }
    }
  }

  /** Dropping comments first makes no difference, under the same condition. */
  lemma StripThenSplit(s: string)
    requires CommentFree(Start, Strip(s))
    ensures RawFields(Strip(s)) == RawFields(s) && Split(Strip(s)) == Split(s)
  {
    FieldsDivided(Plain, false, [], s);
    CommentFreeJoin(RawFields(s));
    FieldsOfJoin(RawFields(s));
  }

  /** A comment between two dashes: the statement that comes out reads as a comment itself. */
  lemma GluedComment()
    ensures Split("-/**/- x") == ["-- x"] && Split(Join(Split("-/**/- x"))) == []
  {
    GluedOnce();
    GluedTwice();
  }

  lemma GluedOnce()
    ensures Split("-/**/- x") == ["-- x"]
  {
    DashDropped();
    DashKept();
    TrimIsTrimmed("-- x");
    hide Fields, Trim;
    assert TrimAll(["-- x"]) == ["-- x"] + TrimAll([]);
  }

  lemma DashDropped()
    ensures RawFields("-/**/- x") == Fields(Plain, false, "-", "- x")
  {
    assert "-/**/- x"[1..] == "/**/- x" && "" + ['-'] == "-";
    assert "/**/- x"[2..] == "*/- x";
    assert "*/- x"[2..] == "- x";
    assert Fields(Plain, false, "", "-/**/- x") == Fields(Plain, false, "-", "/**/- x");
    assert Fields(Plain, false, "-", "/**/- x") == Fields(Block, false, "-", "*/- x");
  }

  lemma DashKept()
    ensures Fields(Plain, false, "-", "- x") == ["-- x"]
  {
    assert "- x"[1..] == " x" && "-" + ['-'] == "--";
    assert " x"[1..] == "x" && "--" + [' '] == "-- ";
    assert "x"[1..] == "" && "-- " + ['x'] == "-- x";
    assert Fields(Plain, false, "-", "- x") == Fields(Plain, false, "--", " x");
    assert Fields(Plain, false, "--", " x") == Fields(Plain, false, "-- ", "x");
  }

  lemma GluedTwice()
    ensures Split(Join(["-- x"])) == []
  {
    calc {
      Fields(Plain, false, "", "-- x");
      { assert "-- x"[2..] == " x"; }
      Fields(Line, false, "", " x");
      { assert " x"[1..] == "x"; }
      Fields(Line, false, "", "x");
      [""];
    }
    assert TrimAll([""]) == [] + TrimAll([]);
  }

  /******* The same by grammar, without the lexer's own notions *******/

  predicate IsQuote(c: char) { c == '\'' || c == '"' || c == '`' }

  /** The inside of a literal quoted by `q`: any characters but `q`, and backslashes each followed by any
      character. */
  predicate Literal(q: char, t: string)
    decreases |t|
  {
    t == [] || (if t[0] == '\\' then |t| >= 2 && Literal(q, t[2..]) else t[0] != q && Literal(q, t[1..]))
  }

  /** The text starts with a literal whose closing quote is at `n`. */
  predicate QuotedHead(s: string, n: nat) {
    1 <= n < |s| && IsQuote(s[0]) && s[n] == s[0] && Literal(s[0], s[1..n])
  }

  /** A statement: quoted literals, escaped pairs and other characters, with no semicolon and no comment
      starting between them. */
  ghost predicate Statement(s: string)
    decreases |s|
  {
    || s == []
    || (exists n :: 0 <= n < |s| && QuotedHead(s, n) && Statement(s[n + 1..]))
    || (s[0] == '\\' && |s| >= 2 && s[1] != ';' && !StarterAt(s, 1) && Statement(s[2..]))
    || (!IsQuote(s[0]) && s[0] != '\\' && s[0] != ';' && !StarterAt(s, 0) && Statement(s[1..]))
  }

  function ModeFor(q: char): Mode {
    if q == '\'' then Single else if q == '"' then Double else Back
  }

  /** One character inside quotes. */
  lemma InsideStep(q: char, esc: bool, cur: string, s: string)
    requires IsQuote(q) && s != []
    ensures Fields(ModeFor(q), esc, cur, s)
         == Fields(if s[0] == q && !esc then Plain else ModeFor(q), s[0] == '\\' && !esc, cur + [s[0]], s[1..])
  {
  }

  /** A literal is read up to and including its closing quote. */
  lemma {:induction false} LiteralReads(q: char, cur: string, t: string, rest: string)
    requires IsQuote(q) && Literal(q, t)
    ensures Fields(ModeFor(q), false, cur, t + [q] + rest) == Fields(Plain, false, cur + t + [q], rest)
    decreases |t|
  {
    var s := t + [q] + rest;
    InsideStep(q, false, cur, s);
    if t == [] {
      assert s[1..] == rest && cur + t + [q] == cur + [q];
    } else if t[0] == '\\' {
      var s1 := s[1..];
      assert s1[0] == t[1] && s1[1..] == t[2..] + [q] + rest;
      InsideStep(q, true, cur + [t[0]], s1);
      LiteralReads(q, cur + [t[0]] + [t[1]], t[2..], rest);
      assert cur + [t[0]] + [t[1]] + t[2..] + [q] == cur + t + [q];
    } else {
      assert s[1..] == t[1..] + [q] + rest;
      LiteralReads(q, cur + [t[0]], t[1..], rest);
      assert cur + [t[0]] + t[1..] + [q] == cur + t + [q];
    }
  }

  /** One character between literals. */
  lemma OutsideStep(esc: bool, cur: string, s: string)
    requires s != [] && s[0] != ';' && !StarterAt(s, 0)
    ensures Fields(Plain, esc, cur, s)
         == Fields(if IsQuote(s[0]) && !esc then ModeFor(s[0]) else Plain, s[0] == '\\' && !esc, cur + [s[0]], s[1..])
  {
  }

  /** No comment starter straddles the border of two texts. */
  predicate Separate(a: string, b: string) {
    a == [] || b == [] ||
    (!(a[|a| - 1] == '-' && b[0] == '-') && !(a[|a| - 1] == '/' && b[0] == '*'))
  }

  lemma NoStarterAcross(a: string, b: string, k: nat)
    requires Separate(a, b) && k < |a| && !StarterAt(a, k)
    ensures !StarterAt(a + b, k)
  {
  }

  lemma QuotedReads(cur: string, a: string, n: nat, rest: string)
    requires n < |a| && QuotedHead(a, n)
    ensures Fields(Plain, false, cur, a + rest) == Fields(Plain, false, cur + a[..n + 1], a[n + 1..] + rest)
  {
    hide Fields;
    var s, q, t := a + rest, a[0], a[1..n];
    assert s[0] == q && !StarterAt(s, 0);
    OutsideStep(false, cur, s);
    assert s[1..] == t + [q] + (a[n + 1..] + rest);
    LiteralReads(q, cur + [q], t, a[n + 1..] + rest);
    assert cur + [q] + t + [q] == cur + a[..n + 1];
  }

  lemma EscapedReads(cur: string, a: string, rest: string)
    requires |a| >= 2 && a[0] == '\\' && a[1] != ';' && !StarterAt(a, 1) && Separate(a, rest)
    ensures Fields(Plain, false, cur, a + rest) == Fields(Plain, false, cur + a[..2], a[2..] + rest)
  {
    hide Fields;
    var s := a + rest;
    assert s[0] == '\\' && !StarterAt(s, 0);
    OutsideStep(false, cur, s);
    var s1 := s[1..];
    NoStarterAcross(a, rest, 1);
    assert s1[0] == a[1] && !StarterAt(s1, 0);
    OutsideStep(true, cur + [a[0]], s1);
    assert s1[1..] == a[2..] + rest;
    assert cur + [a[0]] + [a[1]] == cur + a[..2];
  }

  lemma OrdinaryReads(cur: string, a: string, rest: string)
    requires a != [] && !IsQuote(a[0]) && a[0] != '\\' && a[0] != ';' && !StarterAt(a, 0) && Separate(a, rest)
    ensures Fields(Plain, false, cur, a + rest) == Fields(Plain, false, cur + a[..1], a[1..] + rest)
  {
    hide Fields;
    NoStarterAcross(a, rest, 0);
    OutsideStep(false, cur, a + rest);
    assert (a + rest)[1..] == a[1..] + rest;
    assert cur + [a[0]] == cur + a[..1];
  }

  /** A statement is read as a whole, whatever follows. */
  lemma {:induction false} StatementReads(cur: string, a: string, rest: string)
    requires Statement(a) && Separate(a, rest)
    ensures Fields(Plain, false, cur, a + rest) == Fields(Plain, false, cur + a, rest)
    decreases |a|
  {
    hide Fields, Literal;
    if a == [] {
      assert a + rest == rest && cur + a == cur;
    } else {
      var n :| 0 < n <= |a| && Statement(a[n..]) && Fields(Plain, false, cur, a + rest) == Fields(Plain, false, cur + a[..n], a[n..] + rest) by {
        if k :| 0 <= k < |a| && QuotedHead(a, k) && Statement(a[k + 1..]) {
          QuotedReads(cur, a, k, rest);
        } else if a[0] == '\\' {
          EscapedReads(cur, a, rest);
        } else {
          OrdinaryReads(cur, a, rest);
        }
      }
      StatementReads(cur + a[..n], a[n..], rest);
      assert cur + a[..n] + a[n..] == cur + a;
    }
  }

  lemma CutStep(cur: string, rest: string)
    ensures Fields(Plain, false, cur, [';'] + rest) == [cur] + RawFields(rest)
  {
    assert ([';'] + rest)[1..] == rest;
  }

  lemma StatementAlone(a: string)
    requires Statement(a)
    ensures RawFields(a) == [a]
  {
    StatementReads([], a, []);
    assert a + [] == a && [] + a == a;
    hide Statement;
  }

  lemma StatementThenCut(a: string, rest: string)
    requires Statement(a)
    ensures RawFields(a + [';'] + rest) == [a] + RawFields(rest)
  {
    hide Fields, Statement;
    StatementReads([], a, [';'] + rest);
    assert a + ([';'] + rest) == a + [';'] + rest && [] + a == a;
    CutStep(a, rest);
  }

  /** Every semicolon outside literals and comments cuts, and nothing else does: a list of statements,
      joined, falls apart into exactly that list. */
  lemma {:induction false} StatementsSplitApart(ts: seq<string>)
    requires ts != [] && forall k :: 0 <= k < |ts| ==> Statement(ts[k])
    ensures RawFields(Join(ts)) == ts && Split(Join(ts)) == TrimAll(ts)
    ensures AllTrimmed(ts) ==> Split(Join(ts)) == ts
    decreases |ts|
  {
    hide Fields, Statement, RawFields;
    if |ts| == 1 {
      StatementAlone(ts[0]);
      assert ts == [ts[0]];
    } else {
      StatementThenCut(ts[0], Join(ts[1..]));
      StatementsSplitApart(ts[1..]);
      assert ts == [ts[0]] + ts[1..];
    }
    if AllTrimmed(ts) {
      TrimAllTrimmed(ts);
    }
  }

  /** Text without quotes, backslashes, semicolons and comment starters. */
  predicate Bland(s: string) {
    forall k :: 0 <= k < |s| ==> !IsQuote(s[k]) && s[k] != '\\' && s[k] != ';' && !StarterAt(s, k)
  }

  lemma {:induction false} BlandThen(a: string, b: string)
    requires Bland(a) && Statement(b) && Apart(b)
    ensures Statement(a + b)
    decreases |a|
  {
    if a == [] {
      assert a + b == b;
    } else {
      var s := a + b;
      NoStarterAcross(a, b, 0);
      assert s[1..] == a[1..] + b;
      assert Bland(a[1..]) by {
        forall k | 0 <= k < |a[1..]|
          ensures !IsQuote(a[1..][k]) && a[1..][k] != '\\' && a[1..][k] != ';' && !StarterAt(a[1..], k)
        {
          assert a[1..][k] == a[k + 1] && !StarterAt(a, k + 1);
        }
      }
      BlandThen(a[1..], b);
    }
  }

  /** Whatever a literal contains - semicolons, comment starters, the other quotes, its own quote behind
      a backslash - the text around it stays one statement. */
  lemma QuotedIsKept(before: string, q: char, t: string, after: string)
    requires Bland(before) && Bland(after) && IsQuote(q) && Literal(q, t)
    ensures var s := before + [q] + t + [q] + after;
            Statement(s) && RawFields(s) == [s] && Split(s) == [Trim(s)]
  {
    hide Fields, Statement, Literal, Bland, Trim;
    QuotedIsStatement(before, q, t, after);
    var s := before + [q] + t + [q] + after;
    StatementAlone(s);
    KeepsItsQuote(before, q, t + [q] + after);
    assert s == before + [q] + (t + [q] + after);
    assert TrimAll([s]) == [Trim(s)] + TrimAll([s][1..]);
  }

  /** A literal alone is one statement, character for character. */
  lemma LiteralIsKept(q: char, t: string)
    requires IsQuote(q) && Literal(q, t)
    ensures Split([q] + t + [q]) == [[q] + t + [q]]
  {
    hide Fields, Statement, Literal;
    QuotedIsStatement([], q, t, []);
    var bare := [q] + t + [q];
    assert [] + [q] + t + [q] + [] == bare;
    StatementsSplitApart([bare]);
    assert bare[0] == q && bare[|bare| - 1] == q;
  }

  lemma QuotedIsStatement(before: string, q: char, t: string, after: string)
    requires Bland(before) && Bland(after) && IsQuote(q) && Literal(q, t)
    ensures Statement(before + [q] + t + [q] + after)
  {
    hide Literal;
    BlandThen(after, []);
    assert after + [] == after;
    LiteralThen(q, t, after);
    hide Statement;
    BlandThen(before, [q] + t + [q] + after);
    assert before + ([q] + t + [q] + after) == before + [q] + t + [q] + after;
  }

  lemma LiteralThen(q: char, t: string, after: string)
    requires IsQuote(q) && Literal(q, t) && Statement(after)
    ensures Statement([q] + t + [q] + after)
  {
    hide Literal;
    var s, n := [q] + t + [q] + after, |t| + 1;
    assert s[n] == q && s[1..n] == t;
    assert QuotedHead(s, n);
    assert s[n + 1..] == after;
  }

  lemma {:induction false} KeepsItsQuote(a: string, q: char, b: string)
    requires IsQuote(q)
    ensures Trim(a + [q] + b) != []
  {
    KeepsLeft(a, q, b);
    var s := TrimLeft(a + [q] + b);
    var k :| 0 <= k < |s| && s[k] == q;
    KeepsRight(s, k);
  }

  lemma {:induction false} KeepsLeft(a: string, q: char, b: string)
    requires IsQuote(q)
    ensures q in TrimLeft(a + [q] + b)
    decreases |a|
  {
    var s := a + [q] + b;
    if a != [] && IsSpace(a[0]) {
      assert s[1..] == a[1..] + [q] + b;
      KeepsLeft(a[1..], q, b);
    } else {
      assert s[|a|] == q;
    }
  }

  lemma {:induction false} KeepsRight(s: string, k: nat)
    requires k < |s| && IsQuote(s[k])
    ensures TrimRight(s) != []
    decreases |s|
  {
    if IsSpace(s[|s| - 1]) {
      KeepsRight(s[..|s| - 1], k);
    }
  }

  /******* Comments by grammar *******/

  lemma {:induction false} LineCommentReads(cur: string, t: string, rest: string)
    requires '\n' !in t
    ensures Fields(Line, false, cur, t + ['\n'] + rest) == Fields(Plain, false, cur, rest)
    decreases |t|
  {
    var s := t + ['\n'] + rest;
    if t == [] {
      assert s[1..] == rest;
    } else {
      assert s[1..] == t[1..] + ['\n'] + rest;
      LineCommentReads(cur, t[1..], rest);
    }
  }

  lemma {:induction false} BlockCommentReads(cur: string, t: string, rest: string)
    requires forall k :: 0 <= k < |t| - 1 ==> !(t[k] == '*' && t[k + 1] == '/')
    ensures Fields(Block, false, cur, t + ['*', '/'] + rest) == Fields(Plain, false, cur, rest)
    decreases |t|
  {
    var s := t + ['*', '/'] + rest;
    if t == [] {
      assert s[2..] == rest;
    } else {
      assert s[1..] == t[1..] + ['*', '/'] + rest;
      assert s[1] == if |t| > 1 then t[1] else '*';
      BlockCommentReads(cur, t[1..], rest);
    }
  }

  /** A comment between two pieces of a statement is dropped: from two dashes or a hash to the end of the
      line, or from slash-star to the first star-slash. */
  lemma LineCommentIsDropped(a: string, t: string, b: string)
    requires Statement(a) && Statement(b) && (a != [] ==> a[|a| - 1] != '-') && '\n' !in t
    ensures RawFields(a + ['-', '-'] + t + ['\n'] + b) == [a + b]
  {
    hide Fields, Statement;
    var rest := t + ['\n'] + b;
    StatementReads([], a, ['-', '-'] + rest);
    assert a + (['-', '-'] + rest) == a + ['-', '-'] + t + ['\n'] + b && [] + a == a;
    CommentStep(a, '-', '-', rest);
    LineCommentReads(a, t, b);
    StatementEnds(a, b);
  }

  lemma HashCommentIsDropped(a: string, t: string, b: string)
    requires Statement(a) && Statement(b) && '\n' !in t
    ensures RawFields(a + ['#'] + t + ['\n'] + b) == [a + b]
  {
    hide Fields, Statement;
    var rest := t + ['\n'] + b;
    StatementReads([], a, ['#'] + rest);
    assert a + (['#'] + rest) == a + ['#'] + t + ['\n'] + b && [] + a == a;
    HashStep(a, rest);
    LineCommentReads(a, t, b);
    StatementEnds(a, b);
  }

  lemma BlockCommentIsDropped(a: string, t: string, b: string)
    requires Statement(a) && Statement(b)
    requires forall k :: 0 <= k < |t| - 1 ==> !(t[k] == '*' && t[k + 1] == '/')
    ensures RawFields(a + ['/', '*'] + t + ['*', '/'] + b) == [a + b]
  {
    hide Fields, Statement;
    var rest := t + ['*', '/'] + b;
    StatementReads([], a, ['/', '*'] + rest);
    assert a + (['/', '*'] + rest) == a + ['/', '*'] + t + ['*', '/'] + b && [] + a == a;
    CommentStep(a, '/', '*', rest);
    BlockCommentReads(a, t, b);
    StatementEnds(a, b);
  }

  lemma CommentStep(cur: string, x: char, y: char, rest: string)
    requires (x == '-' && y == '-') || (x == '/' && y == '*')
    ensures Fields(Plain, false, cur, [x, y] + rest) == Fields(if x == '-' then Line else Block, false, cur, rest)
  {
    assert ([x, y] + rest)[2..] == rest;
  }

  lemma HashStep(cur: string, rest: string)
    ensures Fields(Plain, false, cur, ['#'] + rest) == Fields(Line, false, cur, rest)
  {
    assert (['#'] + rest)[1..] == rest;
  }

  lemma StatementEnds(cur: string, b: string)
    requires Statement(b)
    ensures Fields(Plain, false, cur, b) == [cur + b]
  {
    StatementReads(cur, b, []);
    assert b + [] == b;
    hide Statement;
  }
}
