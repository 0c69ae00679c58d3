/** The two string splits the OBJ loader relies on: `text.split('\n')`,
    which cuts a file into lines, and `line.split(/\b\s+(?!$)/)`, which cuts
    a line into tokens at every whitespace run that follows a word character
    and does not reach the end of the line. */
module ObjText {

  datatype Option<T> = None | Some(value: T)

  /** String.prototype.split with a one-character separator: the pieces
      between separators, an empty piece for each pair of adjacent
      separators and one piece more than there are separators. */
  function SplitOn(s: string, sep: char): (r: seq<string>)
    ensures |r| >= 1
    decreases |s|
  {
    if s == [] then [""]
    else
      var rest := SplitOn(s[1..], sep);
      if s[0] == sep then [""] + rest else [[s[0]] + rest[0]] + rest[1..]
  }

  /** Array.prototype.join with a one-character separator. */
  function Join(ps: seq<string>, sep: char): string
    requires |ps| >= 1
    decreases |ps|
  {
    if |ps| == 1 then ps[0] else ps[0] + [sep] + Join(ps[1..], sep)
  }

  /** Splitting loses nothing: joining the pieces with the separator gives
      the text back, and no piece contains the separator. */
  lemma {:induction false} SplitOnRoundTrip(s: string, sep: char)
    ensures Join(SplitOn(s, sep), sep) == s
    ensures forall i :: 0 <= i < |SplitOn(s, sep)| ==> sep !in SplitOn(s, sep)[i]
    decreases |s|
  {
    if s != [] {
      var rest := SplitOn(s[1..], sep);
      var r := SplitOn(s, sep);
      SplitOnRoundTrip(s[1..], sep);
      assert s == [s[0]] + s[1..];
      if s[0] == sep {
        assert r == [""] + rest;
        assert r[1..] == rest;
      } else {
        assert r == [[s[0]] + rest[0]] + rest[1..];
        if |rest| > 1 {
          assert r[1..] == rest[1..];
          assert Join(rest, sep) == rest[0] + [sep] + Join(rest[1..], sep);
          assert Join(r, sep) == [s[0]] + rest[0] + [sep] + Join(rest[1..], sep);
        }
        forall i | 0 <= i < |r|
          ensures sep !in r[i]
        {
          if i > 0 {
            assert r[i] == rest[i];
          }
        }
      }
    }
  }

  /** A character of the regular-expression class \w. */
  predicate IsWordChar(c: char) {
    'a' <= c <= 'z' || 'A' <= c <= 'Z' || '0' <= c <= '9' || c == '_'
  }

  /** A character of the regular-expression class \s (ECMAScript white
      space and line terminators). */
  predicate IsSpace(c: char) {
    c == ' ' || c == '\t' || c == '\n' || c == '\U{B}' || c == '\U{C}' || c == '\r'
    || c == '\U{A0}' || c == '\U{1680}' || '\U{2000}' <= c <= '\U{200A}'
    || c == '\U{2028}' || c == '\U{2029}' || c == '\U{202F}' || c == '\U{205F}'
    || c == '\U{3000}' || c == '\U{FEFF}'
  }

  /** The end of the whitespace run that starts at q (q itself when s[q] is
      not white space). */
  function RunEnd(s: string, q: nat): (r: nat)
    requires q <= |s|
    ensures q <= r <= |s|
    ensures forall k :: q <= k < r ==> IsSpace(s[k])
    ensures r == |s| || !IsSpace(s[r])
    decreases |s| - q
  {
    if q == |s| || !IsSpace(s[q]) then q else RunEnd(s, q + 1)
  }

  /** Where a match of \b\s+(?!$) that starts at q ends, if there is one.
      \b needs a word character before q (s[q] is white space, so not one);
      \s+ takes the whole run, and when the run reaches the end of the line
      the lookahead forces it to give back one character, which leaves a
      match only if the run was at least two characters long. */
  function MatchEnd(s: string, q: nat): (m: Option<nat>)
    requires q <= |s|
    ensures m.Some? ==> q < m.value < |s|
    ensures m.Some? ==> 1 <= q && IsWordChar(s[q - 1]) && forall k :: q <= k < m.value ==> IsSpace(s[k])
  {
    if 1 <= q < |s| && IsWordChar(s[q - 1]) && IsSpace(s[q]) then
      var r := RunEnd(s, q);
      if r < |s| then Some(r) else if r - 1 > q then Some(r - 1) else None
    else None
  }

  /** The split loop of String.prototype.split with a regular expression:
      the current piece starts at p, a match is tried at every q, and a
      match [q, e) closes the piece s[p..q] and starts the next one at e. */
  function Pieces(s: string, p: nat, q: nat): (r: seq<string>)
    requires p <= q <= |s|
    ensures |r| >= 1
    decreases |s| - q
  {
    if q == |s| then [s[p..]]
    else
      match MatchEnd(s, q)
      case None => Pieces(s, p, q + 1)
      case Some(e) => [s[p..q]] + Pieces(s, e, e)
  }

  /** line.split(/\b\s+(?!$)/). */
  function Tokenize(line: string): (r: seq<string>)
    ensures |r| >= 1
  {
    Pieces(line, 0, 0)
  }

  /** A token the splitter keeps whole when it is followed by a space:
      non-empty, free of white space, and ending in a word character (as
      every number and keyword of an OBJ file does). */
  predicate IsToken(w: string) {
    |w| >= 1 && IsWordChar(w[|w| - 1]) && forall k :: 0 <= k < |w| ==> !IsSpace(w[k])
  }

  /** t sits at offset n of s, behind a prefix that does not end in a
      word character. */
  predicate Behind(s: string, t: string, n: nat) {
    |s| == n + |t| && s[n..] == t && (n == 0 || !IsWordChar(s[n - 1]))
  }

  /** A whitespace run ends at the same place with or without the prefix. */
  lemma {:induction false} RunEndShift(s: string, t: string, n: nat, j: nat)
    requires Behind(s, t, n) && j <= |t|
    ensures RunEnd(s, n + j) == n + RunEnd(t, j)
    decreases |t| - j
  {
    if j < |t| {
      assert s[n + j] == s[n..][j];
      if IsSpace(t[j]) {
        RunEndShift(s, t, n, j + 1);
      }
    }
  }

  /** A match starts at the same place with or without the prefix. */
  lemma MatchEndShift(s: string, t: string, n: nat, j: nat)
    requires Behind(s, t, n) && j <= |t|
    ensures MatchEnd(t, j).None? ==> MatchEnd(s, n + j).None?
    ensures MatchEnd(t, j).Some? ==> MatchEnd(s, n + j) == Some(n + MatchEnd(t, j).value)
  {
    if j >= 1 {
      assert s[n + j - 1] == s[n..][j - 1];
      if j < |t| {
        assert s[n + j] == s[n..][j];
        RunEndShift(s, t, n, j);
      }
    }
  }

  /** Splitting is local: behind a prefix that does not end in a word
      character, the splitter cuts a text exactly as it cuts it alone. */
  lemma {:induction false} PiecesShift(s: string, t: string, n: nat, p: nat, q: nat)
    requires Behind(s, t, n) && p <= q <= |t|
    ensures Pieces(s, n + p, n + q) == Pieces(t, p, q)
    decreases |t| - q
  {
    if q == |t| {
      assert s[n + p..] == t[p..];
    } else if MatchEnd(t, q).None? {
      PiecesShift(s, t, n, p, q + 1);
      ShiftNoCut(s, t, n, p, q);
    } else {
      var e := MatchEnd(t, q).value;
      PiecesShift(s, t, n, e, e);
      ShiftCut(s, t, n, p, q, e);
    }
  }

  /** The step of PiecesShift where no match starts at q. */
  lemma ShiftNoCut(s: string, t: string, n: nat, p: nat, q: nat)
    requires Behind(s, t, n) && p <= q < |t| && MatchEnd(t, q).None?
    requires Pieces(s, n + p, n + q + 1) == Pieces(t, p, q + 1)
    ensures Pieces(s, n + p, n + q) == Pieces(t, p, q)
  {
    MatchEndShift(s, t, n, q);
    PiecesNoCut(s, n + p, n + q);
    PiecesNoCut(t, p, q);
  }

  /** The step of PiecesShift where a match [q, e) starts at q. */
  lemma ShiftCut(s: string, t: string, n: nat, p: nat, q: nat, e: nat)
    requires Behind(s, t, n) && p <= q < |t| && MatchEnd(t, q) == Some(e)
    requires Pieces(s, n + e, n + e) == Pieces(t, e, e)
    ensures Pieces(s, n + p, n + q) == Pieces(t, p, q)
  {
    MatchEndShift(s, t, n, q);
    assert s[n + p..n + q] == t[p..q];
    PiecesCut(s, n + p, n + q, n + e);
    PiecesCut(t, p, q, e);
  }

  /** A position where no match starts does not end the current piece. */
  lemma PiecesNoCut(s: string, p: nat, q: nat)
    requires p <= q < |s| && MatchEnd(s, q).None?
    ensures Pieces(s, p, q) == Pieces(s, p, q + 1)
  {
  }

  /** A match [q, e) ends the current piece at q and starts the next at e. */
  lemma PiecesCut(s: string, p: nat, q: nat, e: nat)
    requires p <= q < |s| && MatchEnd(s, q) == Some(e)
    ensures e <= |s| && Pieces(s, p, q) == [s[p..q]] + Pieces(s, e, e)
  {
  }

  /** No cut is made inside a stretch without white space. */
  lemma {:induction false} PiecesSkipWord(s: string, j: nat, n: nat)
    requires j <= n <= |s|
    requires forall k :: 0 <= k < n ==> !IsSpace(s[k])
    ensures Pieces(s, 0, j) == Pieces(s, 0, n)
    decreases n - j
  {
    if j < n {
      assert MatchEnd(s, j).None?;
      PiecesSkipWord(s, j + 1, n);
    }
  }

  /** Tokens joined by single spaces are split back into the same tokens. */
  lemma {:induction false} TokenizeJoin(ws: seq<string>)
    requires |ws| >= 1
    requires forall i :: 0 <= i < |ws| ==> IsToken(ws[i])
    ensures Tokenize(Join(ws, ' ')) == ws
    decreases |ws|
  {
    if |ws| == 1 {
      var s := Join(ws, ' ');
      PiecesSkipWord(s, 0, |s|);
      assert s[0..] == ws[0];
    } else {
      var rest := Join(ws[1..], ' ');
      JoinFirst(ws[1..]);
      FirstCut(ws[0], rest);
      var s := ws[0] + [' '] + rest;
      assert s[|ws[0]| + 1..] == rest;
      PiecesShift(s, rest, |ws[0]| + 1, 0, 0);
      TokenizeJoin(ws[1..]);
    }
  }

  /** A join of tokens starts with the first character of its first token. */
  lemma JoinFirst(ws: seq<string>)
    requires |ws| >= 1 && |ws[0]| >= 1
    ensures |Join(ws, ' ')| >= 1 && Join(ws, ' ')[0] == ws[0][0]
  {
  }

  /** A token followed by one space and more text is cut off as the first
      piece, and the split carries on after the space. */
  lemma FirstCut(w: string, rest: string)
    requires IsToken(w) && |rest| >= 1 && !IsSpace(rest[0])
    ensures Pieces(w + [' '] + rest, 0, 0) == [w] + Pieces(w + [' '] + rest, |w| + 1, |w| + 1)
  {
    var s := w + [' '] + rest;
    assert forall k :: 0 <= k < |w| ==> s[k] == w[k];
    PiecesSkipWord(s, 0, |w|);
    assert s[|w|] == ' ' && s[|w| + 1] == rest[0];
    assert RunEnd(s, |w| + 1) == |w| + 1;
    assert MatchEnd(s, |w|) == Some(|w| + 1);
    assert s[0..|w|] == w;
    PiecesCut(s, 0, |w|, |w| + 1);
  }

  /** The first token is a prefix of the line, and is non-empty when the
      line is. */
  lemma FirstToken(s: string)
    ensures var t := Tokenize(s)[0]; |t| <= |s| && t == s[..|t|] && (|s| >= 1 ==> |t| >= 1)
  {
    if |s| >= 1 {
      assert MatchEnd(s, 0).None?;
      FirstPiece(s, 0, 1);
    } else {
      FirstPiece(s, 0, 0);
    }
  }

  lemma {:induction false} FirstPiece(s: string, p: nat, q: nat)
    requires p <= q <= |s|
    ensures var t := Pieces(s, p, q)[0]; q - p <= |t| <= |s| - p && t == s[p..p + |t|]
    decreases |s| - q
  {
    if q < |s| {
      match MatchEnd(s, q)
      case None => FirstPiece(s, p, q + 1);
      case Some(e) =>
    }
  }
}
