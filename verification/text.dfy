/** The pieces of Rust's `str` API the record codec and the cache reader
    rely on: `split(c)`, `trim_end()`, `char::is_whitespace` and the line
    boundaries of `BufRead::read_line`. Strings are `seq<char>`. */
module Text {

  /** Rust's `char::is_whitespace`: the Unicode White_Space property. */
  predicate IsWhitespace(c: char) {
    c in {'\t', '\n', '\U{B}', '\U{C}', '\r', ' ', '\U{85}', '\U{A0}', '\U{1680}',
          '\U{2000}', '\U{2001}', '\U{2002}', '\U{2003}', '\U{2004}', '\U{2005}',
          '\U{2006}', '\U{2007}', '\U{2008}', '\U{2009}', '\U{200A}',
          '\U{2028}', '\U{2029}', '\U{202F}', '\U{205F}', '\U{3000}'}
  }

  predicate AllWhitespace(s: string) {
    forall i :: 0 <= i < |s| ==> IsWhitespace(s[i])
  }

  /** `s.split(sep)`: the pieces between separators, in order. There is
      always at least one piece, and no piece contains `sep`. */
  function Split(s: string, sep: char): (parts: seq<string>)
    ensures |parts| >= 1
    ensures forall i :: 0 <= i < |parts| ==> sep !in parts[i]
    decreases |s|
  {
    if |s| == 0 then [""]
    else
      var rest := Split(s[1..], sep);
      if s[0] == sep then [""] + rest
      else [[s[0]] + rest[0]] + rest[1..]
  }

  /** The pieces glued back together with `sep` between neighbours. */
  function Join(parts: seq<string>, sep: char): string
  {
    if |parts| == 0 then ""
    else if |parts| == 1 then parts[0]
    else parts[0] + [sep] + Join(parts[1..], sep)
  }

  /** Every piece followed by `sep`, the last one included. */
  function Terminated(parts: seq<string>, sep: char): (s: string)
    ensures |parts| == 0 <==> s == ""
    ensures |parts| > 0 ==> s[|s| - 1] == sep
  {
    if |parts| == 0 then "" else parts[0] + [sep] + Terminated(parts[1..], sep)
  }

  /** `.filter(|c| !c.is_empty())`: drops the empty pieces, keeps order. */
  function NonEmpty(parts: seq<string>): (kept: seq<string>)
    ensures forall i :: 0 <= i < |kept| ==> kept[i] != ""
    ensures forall p :: p in kept <==> p in parts && p != ""
    ensures |kept| <= |parts|
  {
    if |parts| == 0 then []
    else if parts[0] == "" then NonEmpty(parts[1..])
    else [parts[0]] + NonEmpty(parts[1..])
  }

  /** `s.trim_end()`: the longest prefix of `s` that does not end in
      whitespace. */
  function TrimEnd(s: string): (t: string)
    ensures |t| <= |s| && t == s[..|t|]
    ensures AllWhitespace(s[|t|..])
    ensures |t| == 0 || !IsWhitespace(t[|t| - 1])
    decreases |s|
  {
    if |s| > 0 && IsWhitespace(s[|s| - 1]) then TrimEnd(s[..|s| - 1]) else s
  }

  /** The successive strings `read_line` fills in: each line keeps its
      terminating newline; a final piece without one is a line too. */
  function Lines(s: string): (lines: seq<string>)
    ensures forall i :: 0 <= i < |lines| ==> lines[i] != ""
    decreases |s|
  {
    if |s| == 0 then []
    else if s[0] == '\n' then ["\n"] + Lines(s[1..])
    else
      var rest := Lines(s[1..]);
      if |rest| == 0 then [[s[0]]] else [[s[0]] + rest[0]] + rest[1..]
  }

  function Concat(parts: seq<string>): string
  {
    if |parts| == 0 then "" else parts[0] + Concat(parts[1..])
  }

  // ---------------------------------------------------------------------
  // Split and Join are inverse to each other

  lemma {:induction false} SplitCons(a: string, sep: char, b: string)
    requires sep !in a
    ensures Split(a + [sep] + b, sep) == [a] + Split(b, sep)
    decreases |a|
  {
    var s := a + [sep] + b;
    if |a| == 0 {
      assert s[1..] == b;
    } else {
      assert s[1..] == a[1..] + [sep] + b;
      SplitCons(a[1..], sep, b);
      assert [s[0]] + a[1..] == a;
    }
  }

  lemma {:induction false} SplitNoSep(a: string, sep: char)
    requires sep !in a
    ensures Split(a, sep) == [a]
    decreases |a|
  {
    if |a| > 0 {
      SplitNoSep(a[1..], sep);
      assert [a[0]] + a[1..] == a;
    }
  }

  /** Splitting and re-joining gives back the original text. */
  lemma {:induction false} JoinSplit(s: string, sep: char)
    ensures Join(Split(s, sep), sep) == s
    decreases |s|
  {
    if |s| > 0 {
      JoinSplit(s[1..], sep);
      var rest := Split(s[1..], sep);
      if s[0] == sep {
        assert Split(s, sep) == [""] + rest;
        assert s == [sep] + s[1..];
      } else {
        var parts := Split(s, sep);
        assert parts == [[s[0]] + rest[0]] + rest[1..];
        if |rest| == 1 {
          assert s == [s[0]] + rest[0];
        } else {
          assert rest == [rest[0]] + rest[1..];
          assert Join(rest, sep) == rest[0] + [sep] + Join(rest[1..], sep);
          assert parts[1..] == rest[1..];
          assert s == [s[0]] + s[1..];
        }
      }
    }
  }

  /** Joining separator-free pieces and splitting again gives the pieces back. */
  lemma {:induction false} SplitJoin(parts: seq<string>, sep: char)
    requires |parts| >= 1
    requires forall i :: 0 <= i < |parts| ==> sep !in parts[i]
    ensures Split(Join(parts, sep), sep) == parts
    decreases |parts|
  {
    if |parts| == 1 {
      SplitNoSep(parts[0], sep);
    } else {
      SplitJoin(parts[1..], sep);
      SplitCons(parts[0], sep, Join(parts[1..], sep));
      assert parts == [parts[0]] + parts[1..];
    }
  }

  /** A comma-terminated list splits into its items and one empty tail piece. */
  lemma {:induction false} SplitTerminated(parts: seq<string>, sep: char)
    requires forall i :: 0 <= i < |parts| ==> sep !in parts[i]
    ensures Split(Terminated(parts, sep), sep) == parts + [""]
    decreases |parts|
  {
    if |parts| > 0 {
      SplitTerminated(parts[1..], sep);
      SplitCons(parts[0], sep, Terminated(parts[1..], sep));
      assert parts == [parts[0]] + parts[1..];
    }
  }

  lemma {:induction false} TerminatedNoSep(parts: seq<string>, sep: char, c: char)
    requires c != sep
    requires forall i :: 0 <= i < |parts| ==> c !in parts[i]
    ensures c !in Terminated(parts, sep)
    decreases |parts|
  {
    if |parts| > 0 {
      TerminatedNoSep(parts[1..], sep, c);
    }
  }

  lemma {:induction false} NonEmptyDropsOneEmpty(parts: seq<string>)
    requires forall i :: 0 <= i < |parts| ==> parts[i] != ""
    ensures NonEmpty(parts + [""]) == parts
    decreases |parts|
  {
    if |parts| == 0 {
      assert NonEmpty([""]) == NonEmpty([]);
    } else {
      assert (parts + [""])[1..] == parts[1..] + [""];
      NonEmptyDropsOneEmpty(parts[1..]);
      assert parts == [parts[0]] + parts[1..];
    }
  }

  /** The filter works piece by piece: a single piece is kept exactly when
      it is non-empty ... */
  lemma NonEmptyOne(p: string)
    ensures NonEmpty([p]) == if p == "" then [] else [p]
  {
  }

  /** ... and the kept pieces of a concatenation are those of the first
      part followed by those of the second, so order and repetitions
      survive. */
  lemma {:induction false} NonEmptyAppend(a: seq<string>, b: seq<string>)
    ensures NonEmpty(a + b) == NonEmpty(a) + NonEmpty(b)
    decreases |a|
  {
    if |a| == 0 {
      assert a + b == b;
    } else {
      assert (a + b)[0] == a[0] && (a + b)[1..] == a[1..] + b;
      NonEmptyAppend(a[1..], b);
    }
  }

  // ---------------------------------------------------------------------
  // trim_end

  /** Trailing whitespace after a text that does not itself end in
      whitespace is exactly what `trim_end` removes. */
  lemma {:induction false} TrimEndSuffix(t: string, ws: string)
    requires |t| == 0 || !IsWhitespace(t[|t| - 1])
    requires AllWhitespace(ws)
    ensures TrimEnd(t + ws) == t
    decreases |ws|
  {
    if |ws| > 0 {
      var s := t + ws;
      assert IsWhitespace(s[|s| - 1]);
      assert s[..|s| - 1] == t + ws[..|ws| - 1];
      TrimEndSuffix(t, ws[..|ws| - 1]);
    } else {
      assert t + ws == t;
    }
  }

  // ---------------------------------------------------------------------
  // read_line boundaries

  /** Concatenating the lines gives back the text: nothing is lost or added. */
  lemma {:induction false} ConcatLines(s: string)
    ensures Concat(Lines(s)) == s
    decreases |s|
  {
    if |s| > 0 {
      ConcatLines(s[1..]);
      var rest := Lines(s[1..]);
      if s[0] == '\n' {
        assert Lines(s) == ["\n"] + rest;
        assert s == [s[0]] + s[1..];
      } else if |rest| == 0 {
        assert s == [s[0]];
      } else {
        assert rest == [rest[0]] + rest[1..];
        assert Concat(Lines(s)) == [s[0]] + rest[0] + Concat(rest[1..]);
        assert s == [s[0]] + s[1..];
      }
    }
  }

  /** A newline-free text followed by a newline is one line. */
  lemma {:induction false} LinesCons(t: string, u: string)
    requires '\n' !in t
    ensures Lines(t + "\n" + u) == [t + "\n"] + Lines(u)
    decreases |t|
  {
    var s := t + "\n" + u;
    if |t| == 0 {
      assert s == "\n" + u;
      assert s[0] == '\n' && s[1..] == u;
    } else {
      assert s[1..] == t[1..] + "\n" + u;
      LinesCons(t[1..], u);
      assert [t[0]] + (t[1..] + "\n") == t + "\n";
    }
  }

  /** Text that ends at a line boundary reads as its own lines followed by
      the lines of whatever is appended after it. */
  lemma {:induction false} LinesAppend(a: string, b: string)
    requires |a| == 0 || a[|a| - 1] == '\n'
    ensures Lines(a + b) == Lines(a) + Lines(b)
    decreases |a|
  {
    if |a| == 0 {
      assert a + b == b;
    } else {
      var s := a + b;
      assert s[0] == a[0] && s[1..] == a[1..] + b;
      LinesAppend(a[1..], b);
      var la := Lines(a[1..]);
      if a[0] != '\n' {
        assert |la| > 0;
        assert Lines(s) == [[a[0]] + la[0]] + (la[1..] + Lines(b));
      }
    }
  }

  /** Only empty pieces: nothing is kept. */
  lemma {:induction false} NonEmptyOfEmpties(items: seq<string>)
    requires forall i :: 0 <= i < |items| ==> items[i] == ""
    ensures NonEmpty(items) == []
    decreases |items|
  {
    if |items| > 0 {
      NonEmptyOfEmpties(items[1..]);
    }
  }
}
