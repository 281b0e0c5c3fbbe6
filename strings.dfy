/**
 * The PHP string built-ins the scaffolding code relies on: trim/ltrim/rtrim with
 * a single character list, strtr with one character on each side, explode and
 * implode on a one-character separator, basename, dirname and strtolower on one
 * character. Strings are sequences of characters; PHP works on bytes, and the
 * model makes no distinction between the two.
 */
module Strings {

  /** ltrim($s, $c): drops every leading `c`. */
  function TrimLeft(s: string, c: char): (r: string)
    ensures |r| <= |s| && r == s[|s| - |r|..]
    ensures r == [] || r[0] != c
    ensures forall i :: 0 <= i < |s| - |r| ==> s[i] == c
  {
    if s != [] && s[0] == c then TrimLeft(s[1..], c) else s
  }

  /** rtrim($s, $c): drops every trailing `c`. */
  function TrimRight(s: string, c: char): (r: string)
    ensures |r| <= |s| && r == s[..|r|]
    ensures r == [] || r[|r| - 1] != c
    ensures forall i :: |r| <= i < |s| ==> s[i] == c
  {
    if s != [] && s[|s| - 1] == c then TrimRight(s[..|s| - 1], c) else s
  }

  /** trim($s, $c): drops `c` from both ends. */
  function Trim(s: string, c: char): (r: string)
  {
    TrimRight(TrimLeft(s, c), c)
  }

  /** How many leading `c` trim removes. */
  function TrimStart(s: string, c: char): (k: nat)
    ensures k <= |s|
  {
    |s| - |TrimLeft(s, c)|
  }

  /** What trim leaves is a contiguous piece of the input, starting after the leading
      copies of `c`; everything removed on either side is `c`. */
  lemma TrimPiece(s: string, c: char)
    ensures TrimStart(s, c) + |Trim(s, c)| <= |s|
    ensures Trim(s, c) == s[TrimStart(s, c)..TrimStart(s, c) + |Trim(s, c)|]
    ensures forall i :: 0 <= i < TrimStart(s, c) ==> s[i] == c
    ensures forall i :: TrimStart(s, c) + |Trim(s, c)| <= i < |s| ==> s[i] == c
  {
    PrefixOfSuffix(s, TrimLeft(s, c), Trim(s, c), c);
  }

  /** A prefix `r` of the suffix `l` of `s` is a slice of `s`; when `l` continues with `c`
      only after `r`, so does `s`. */
  lemma PrefixOfSuffix(s: string, l: string, r: string, c: char)
    requires |l| <= |s| && l == s[|s| - |l|..]
    requires |r| <= |l| && r == l[..|r|]
    requires forall i :: |r| <= i < |l| ==> l[i] == c
    ensures r == s[|s| - |l|..|s| - |l| + |r|]
    ensures forall i :: |s| - |l| + |r| <= i < |s| ==> s[i] == c
  {
    var k := |s| - |l|;
    forall i | k + |r| <= i < |s|
      ensures s[i] == c
    {
      assert s[i] == l[i - k];
    }
  }

  /** What trim leaves neither starts nor ends with `c`. */
  lemma TrimEnds(s: string, c: char)
    ensures Trim(s, c) == [] || (Trim(s, c)[0] != c && Trim(s, c)[|Trim(s, c)| - 1] != c)
  {
    var l := TrimLeft(s, c);
    var r := TrimRight(l, c);
    if r != [] {
      assert r[0] == l[0];
    }
  }

  /** Trimming twice is trimming once. */
  lemma TrimIdempotent(s: string, c: char)
    ensures Trim(Trim(s, c), c) == Trim(s, c)
  {
    var r := Trim(s, c);
    TrimEnds(s, c);
    assert TrimLeft(r, c) == r;
  }

  /** strtr($s, $from, $to) with one character on each side. */
  function Translate(s: string, from: char, to: char): (r: string)
    ensures |r| == |s|
    ensures forall i :: 0 <= i < |s| ==> r[i] == if s[i] == from then to else s[i]
  {
    if s == [] then [] else [if s[0] == from then to else s[0]] + Translate(s[1..], from, to)
  }

  /** After strtr no `from` is left, unless it is also the replacement. */
  lemma TranslateRemoves(s: string, from: char, to: char)
    requires from != to
    ensures from !in Translate(s, from, to)
  {
  }

  /** A string in which `from` does not occur is left unchanged by strtr. */
  lemma TranslateNoop(s: string, from: char, to: char)
    requires from !in s
    ensures Translate(s, from, to) == s
  {
  }

  /** explode($sep, $s): the pieces between occurrences of `sep`, at least one. */
  function Split(s: string, sep: char): (parts: seq<string>)
    ensures |parts| >= 1
    decreases |s|
  {
    if s == [] then [""] else PrependPiece(s[0], sep, Split(s[1..], sep))
  }

  /** The pieces of `[x] + t` given the pieces `p` of `t`: a separator starts a new
      empty piece, any other character joins the first piece. */
  function PrependPiece(x: char, sep: char, p: seq<string>): (r: seq<string>)
    requires |p| >= 1
    ensures |r| >= 1
  {
    if x == sep then [""] + p else [[x] + p[0]] + p[1..]
  }

  /** Prepending a character only touches the first piece. */
  lemma PrependPieceConcat(x: char, sep: char, p: seq<string>, q: seq<string>)
    requires |p| >= 1
    ensures PrependPiece(x, sep, p + q) == PrependPiece(x, sep, p) + q
  {
    if x != sep {
      assert (p + q)[1..] == p[1..] + q;
    }
  }

  /** No piece of explode contains the separator. */
  lemma {:induction false} SplitPieces(s: string, sep: char)
    ensures forall i :: 0 <= i < |Split(s, sep)| ==> sep !in Split(s, sep)[i]
    decreases |s|
  {
    if s != [] {
      SplitPieces(s[1..], sep);
    }
  }

  /** implode($sep, $parts). */
  function Join(sep: char, parts: seq<string>): string
  {
    if |parts| == 0 then ""
    else if |parts| == 1 then parts[0]
    else parts[0] + [sep] + Join(sep, parts[1..])
  }

  /** implode undoes explode. */
  lemma {:induction false} JoinSplit(s: string, sep: char)
    ensures Join(sep, Split(s, sep)) == s
    decreases |s|
  {
    if s != [] {
      var rest := Split(s[1..], sep);
      JoinSplit(s[1..], sep);
      if s[0] == sep {
        assert Split(s, sep) == [""] + rest;
        assert Join(sep, [""] + rest) == "" + [sep] + Join(sep, rest);
        assert s == [sep] + s[1..];
      } else if |rest| == 1 {
        assert Split(s, sep) == [[s[0]] + rest[0]];
        assert s == [s[0]] + s[1..];
      } else {
        var parts := Split(s, sep);
        assert parts == [[s[0]] + rest[0]] + rest[1..];
        assert parts[1..] == rest[1..];
        assert Join(sep, rest) == rest[0] + [sep] + Join(sep, rest[1..]);
        assert s == [s[0]] + s[1..];
      }
    }
  }

  /** explode of a string without the separator is that string alone. */
  lemma {:induction false} SplitWithout(s: string, sep: char)
    requires sep !in s
    ensures Split(s, sep) == [s]
    decreases |s|
  {
    if s != [] {
      assert sep !in s[1..];
      SplitWithout(s[1..], sep);
      assert s == [s[0]] + s[1..];
    }
  }

  /** explode distributes over a separator. */
  lemma {:induction false} SplitConcat(a: string, b: string, sep: char)
    ensures Split(a + [sep] + b, sep) == Split(a, sep) + Split(b, sep)
    decreases |a|
  {
    var s := a + [sep] + b;
    if a == [] {
      assert s[1..] == b;
    } else {
      assert s[1..] == a[1..] + [sep] + b;
      SplitConcat(a[1..], b, sep);
      PrependPieceConcat(a[0], sep, Split(a[1..], sep), Split(b, sep));
    }
  }

  /** explode undoes implode, for pieces that do not contain the separator. */
  lemma {:induction false} SplitJoin(parts: seq<string>, sep: char)
    requires |parts| >= 1
    requires forall i :: 0 <= i < |parts| ==> sep !in parts[i]
    ensures Split(Join(sep, parts), sep) == parts
    decreases |parts|
  {
    if |parts| == 1 {
      SplitWithout(parts[0], sep);
    } else {
      SplitJoin(parts[1..], sep);
      SplitWithout(parts[0], sep);
      SplitConcat(parts[0], Join(sep, parts[1..]), sep);
      assert [parts[0]] + parts[1..] == parts;
    }
  }

  /** Renaming the separator with strtr keeps the pieces: the `to`-pieces of the translated
      string are the `from`-pieces of the original. */
  lemma {:induction false} TranslateSplit(s: string, from: char, to: char)
    requires to !in s
    ensures Split(Translate(s, from, to), to) == Split(s, from)
    decreases |s|
  {
    if s != [] {
      var t := Translate(s, from, to);
      assert t[1..] == Translate(s[1..], from, to);
      assert to !in s[1..];
      TranslateSplit(s[1..], from, to);
      assert t[0] == (if s[0] == from then to else s[0]);
    }
  }

  /** Joining with one more piece at the end puts a separator before it. */
  lemma {:induction false} JoinSnoc(sep: char, parts: seq<string>, last: string)
    requires |parts| >= 1
    ensures Join(sep, parts + [last]) == Join(sep, parts) + [sep] + last
    decreases |parts|
  {
    if |parts| > 1 {
      JoinSnoc(sep, parts[1..], last);
      assert (parts + [last])[1..] == parts[1..] + [last];
    }
  }

  /** The characters after the last `/` (all of them when there is none). */
  function LastSegment(s: string): (r: string)
    ensures '/' !in r
  {
    var parts := Split(s, '/');
    SplitPieces(s, '/');
    parts[|parts| - 1]
  }

  /** basename($s): the last path component, ignoring trailing slashes. */
  function Basename(s: string): (r: string)
    ensures '/' !in r
  {
    LastSegment(TrimRight(s, '/'))
  }

  /** What is left once the characters after the last `/` are removed. */
  function DropLastSegment(s: string): (r: string)
    ensures |r| <= |s| && r == s[..|r|]
    ensures r == [] || r[|r| - 1] == '/'
    ensures forall i :: |r| <= i < |s| ==> s[i] != '/'
  {
    if s != [] && s[|s| - 1] != '/' then DropLastSegment(s[..|s| - 1]) else s
  }

  /** dirname($s), following PHP: trailing slashes are ignored, a path with no slash has
      parent ".", one whose only slashes lead it has parent "/", and dirname("") is "". */
  function Dirname(s: string): string
  {
    if s == "" then ""
    else
      var a := TrimRight(s, '/');
      if a == "" then "/"
      else
        var b := DropLastSegment(a);
        if b == "" then "."
        else
          var c := TrimRight(b, '/');
          if c == "" then "/" else c
  }

  /** dirname's result is "" only for "", and otherwise ".", or a prefix of the path that
      is "/" or does not end in `/`. */
  lemma DirnameShape(s: string)
    ensures (Dirname(s) == "") == (s == "")
    ensures Dirname(s) == "." || (|Dirname(s)| <= |s| && Dirname(s) == s[..|Dirname(s)|])
    ensures Dirname(s) == "/" || Dirname(s) == "" || Dirname(s)[|Dirname(s)| - 1] != '/'
  {
    if s != "" {
      var a := TrimRight(s, '/');
      if a == "" {
        assert s[0] == '/';
      } else {
        var b := DropLastSegment(a);
        if b != "" {
          var c := TrimRight(b, '/');
          assert b == s[..|b|];
          if c == "" {
            assert b[0] == '/';
          } else {
            assert c == s[..|c|];
          }
        }
      }
    }
  }

  /** A path without `/` has parent ".". */
  lemma DirnameNoSlash(s: string)
    requires s != "" && '/' !in s
    ensures Dirname(s) == "."
  {
    assert TrimRight(s, '/') == s;
    assert DropLastSegment(s) == "";
  }

  /** A path of slashes only has parent "/". */
  lemma DirnameOnlySlashes(s: string)
    requires s != "" && forall i :: 0 <= i < |s| ==> s[i] == '/'
    ensures Dirname(s) == "/"
  {
    assert TrimRight(s, '/') == "";
  }

  /** Trailing slashes do not change the parent. */
  lemma DirnameTrailingSlash(s: string)
    requires s != ""
    ensures Dirname(s + "/") == Dirname(s)
  {
    assert (s + "/")[..|s|] == s;
    assert TrimRight(s + "/", '/') == TrimRight(s, '/');
  }

  /** The parent of a/b, for a last component b, is a without its trailing slashes, or "/"
      when a has nothing else. */
  lemma DirnameChild(a: string, b: string)
    requires b != "" && '/' !in b
    ensures Dirname(a + "/" + b) == if TrimRight(a, '/') == "" then "/" else TrimRight(a, '/')
  {
    var s := a + "/" + b;
    assert s[|s| - 1] == b[|b| - 1];
    assert TrimRight(s, '/') == s;
    var d := DropLastSegment(s);
    assert s[|a|] == '/';
    assert d == a + "/";
    assert (a + "/")[..|a|] == a;
    assert TrimRight(a + "/", '/') == TrimRight(a, '/');
  }

  /** strtolower on one character: only A-Z change. */
  function LowerChar(c: char): (r: char)
    ensures ('A' <= c <= 'Z') == (r != c)
    ensures 'A' <= c <= 'Z' ==> 'a' <= r <= 'z'
  {
    if 'A' <= c <= 'Z' then (c as int - 'A' as int + 'a' as int) as char else c
  }
}
