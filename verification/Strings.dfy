/** String operations of the library the program is written against. */
module Strings {
  predicate StartsWith(s: string, prefix: string) {
    |prefix| <= |s| && s[..|prefix|] == prefix
  }

  predicate Contains(s: string, part: string) {
    StartsWith(s, part) || (s != [] && Contains(s[1..], part))
  }

  /** Every occurrence, from the left and without overlaps, is replaced. */
  function ReplaceAll(s: string, part: string, replacement: string): string
    requires part != []
  {
    if s == [] then []
    else if StartsWith(s, part) then replacement + ReplaceAll(s[|part|..], part, replacement)
    else [s[0]] + ReplaceAll(s[1..], part, replacement)
  }

  /** The parts between the separators; there is one more part than separators. */
  function Split(s: string, separator: char): (parts: seq<string>)
    ensures parts != []
  {
    if s == [] then [[]]
    else
      var rest := Split(s[1..], separator);
      if s[0] == separator then [[]] + rest else [[s[0]] + rest[0]] + rest[1..]
  }

  function Join(parts: seq<string>, separator: char): string {
    if parts == [] then []
    else if |parts| == 1 then parts[0]
    else parts[0] + [separator] + Join(parts[1..], separator)
  }

  /** The pieces with the glue between them. */
  function Interleave(pieces: seq<string>, glue: string): string {
    if pieces == [] then []
    else if |pieces| == 1 then pieces[0]
    else pieces[0] + glue + Interleave(pieces[1..], glue)
  }

  lemma PrefixIsSlice(s: string, prefix: string)
    ensures StartsWith(s, prefix) <==> prefix <= s
  {
  }

  predicate OccursAt(s: string, part: string, i: nat) {
    i + |part| <= |s| && s[i..i + |part|] == part
  }

  /** A string contains what occurs somewhere in it. */
  lemma {:induction false} ContainsWhatOccurs(s: string, part: string)
    ensures Contains(s, part) <==> exists i: nat :: OccursAt(s, part, i)
  {
    if StartsWith(s, part) {
      assert OccursAt(s, part, 0);
    } else if s != [] {
      ContainsWhatOccurs(s[1..], part);
      forall i: nat | i > 0
        ensures OccursAt(s, part, i) <==> OccursAt(s[1..], part, i - 1)
      {
        if i + |part| <= |s| {
          assert s[1..][i - 1..i - 1 + |part|] == s[i..i + |part|];
        }
      }
      if i: nat :| OccursAt(s[1..], part, i) {
        assert OccursAt(s, part, i + 1);
      }
    }
  }

  /** Every string is made of pieces around the occurrences of a part, none of which holds the part. */
  lemma {:induction false} PiecesOf(s: string, part: string) returns (pieces: seq<string>)
    requires part != []
    ensures pieces != [] && s == Interleave(pieces, part)
    ensures forall i :: 0 <= i < |pieces| ==> !Contains(pieces[i], part)
  {
    if s == [] {
      pieces := [[]];
    } else if StartsWith(s, part) {
      var rest := PiecesOf(s[|part|..], part);
      pieces := [[]] + rest;
      assert pieces[1..] == rest && s == [] + part + s[|part|..];
    } else {
      var rest := PiecesOf(s[1..], part);
      var first := [s[0]] + rest[0];
      pieces := [first] + rest[1..];
      assert first[1..] == rest[0] && s == [s[0]] + s[1..];
      PieceGrows(s[0], rest, part);
      assert s[..|first|] == first;
      assert |part| <= |first| ==> s[..|part|] == first[..|part|];
    }
  }

  lemma PieceGrows(c: char, pieces: seq<string>, glue: string)
    requires pieces != []
    ensures Interleave([[c] + pieces[0]] + pieces[1..], glue) == [c] + Interleave(pieces, glue)
    ensures [c] + Interleave(pieces, glue) != [] && ([c] + Interleave(pieces, glue))[1..] == Interleave(pieces, glue)
    ensures |Interleave(pieces, glue)| >= |pieces[0]| && Interleave(pieces, glue)[..|pieces[0]|] == pieces[0]
  {
    var grown := [[c] + pieces[0]] + pieces[1..];
    assert grown[1..] == pieces[1..] && grown[0] == [c] + pieces[0];
    if |pieces| > 1 {
      assert Interleave(pieces, glue) == pieces[0] + glue + Interleave(pieces[1..], glue);
      assert Interleave(grown, glue) == [c] + pieces[0] + glue + Interleave(pieces[1..], glue);
      hide Interleave;
      Regroup(c, pieces[0], glue, Interleave(pieces[1..], glue));
    }
  }

  lemma Regroup(c: char, first: string, glue: string, tail: string)
    ensures [c] + first + glue + tail == [c] + (first + glue + tail)
    ensures ([c] + (first + glue + tail))[1..] == first + glue + tail
    ensures (first + glue + tail)[..|first|] == first
  {
  }

  /**
   Replacing puts the replacement between the pieces, in place of every occurrence and of nothing else, if the part
   cannot overlap itself.
   */
  lemma {:induction false} ReplaceAllFills(pieces: seq<string>, part: string, replacement: string)
    requires pieces != [] && part != [] && part[0] !in part[1..]
    requires forall i :: 0 <= i < |pieces| ==> !Contains(pieces[i], part)
    ensures ReplaceAll(Interleave(pieces, part), part, replacement) == Interleave(pieces, replacement)
    decreases |pieces|, |pieces[0]|
  {
    var s := Interleave(pieces, part);
    if pieces[0] != [] {
      var c, shorter := pieces[0][0], [pieces[0][1..]] + pieces[1..];
      assert [c] + shorter[0] == pieces[0] && shorter[1..] == pieces[1..];
      assert [[c] + shorter[0]] + shorter[1..] == pieces;
      PieceGrows(c, shorter, part);
      PieceGrows(c, shorter, replacement);
      hide Interleave;
      NoPartAcross(pieces, part);
      ReplaceAllFills(shorter, part, replacement);
    } else if |pieces| > 1 {
      var rest := pieces[1..];
      assert s[..|part|] == part && s[|part|..] == Interleave(rest, part);
      ReplaceAllFills(rest, part, replacement);
      assert pieces[0] + replacement + Interleave(rest, replacement) == replacement + Interleave(rest, replacement);
    }
  }

  /** No occurrence starts inside the first piece. */
  lemma NoPartAcross(pieces: seq<string>, part: string)
    requires pieces != [] && part != [] && part[0] !in part[1..] && pieces[0] != []
    requires !Contains(pieces[0], part)
    ensures !StartsWith(Interleave(pieces, part), part)
  {
    var s, n := Interleave(pieces, part), |pieces[0]|;
    if n >= |part| {
      assert s[..n] == pieces[0] by {
        if |pieces| > 1 {
          assert s == pieces[0] + (part + Interleave(pieces[1..], part));
        }
      }
      assert s[..|part|] == pieces[0][..|part|];
    } else if |pieces| > 1 {
      assert s[n] == part[0];
      assert part[n] == part[1..][n - 1];
      if |part| <= |s| {
        assert s[..|part|][n] == s[n];
      }
    }
  }

  lemma {:induction false} SplitPart(part: string, rest: string, separator: char)
    requires separator !in part
    ensures Split(part, separator) == [part]
    ensures Split(part + [separator] + rest, separator) == [part] + Split(rest, separator)
  {
    if part != [] {
      SplitPart(part[1..], rest, separator);
      assert [part[0]] + part[1..] == part && part[0] in part;
      assert (part + [separator] + rest)[1..] == part[1..] + [separator] + rest;
    } else {
      assert part + [separator] + rest == [separator] + rest;
    }
  }

  /** Joining and splitting undo each other on parts without the separator. */
  lemma {:induction false} SplitJoin(parts: seq<string>, separator: char)
    requires parts != [] && forall i :: 0 <= i < |parts| ==> separator !in parts[i]
    ensures Split(Join(parts, separator), separator) == parts
  {
    if |parts| == 1 {
      SplitPart(parts[0], [], separator);
    } else {
      SplitJoin(parts[1..], separator);
      SplitPart(parts[0], Join(parts[1..], separator), separator);
    }
  }

  lemma JoinFirst(first: string, rest: seq<string>, separator: char)
    requires rest != []
    ensures Join([first] + rest, separator) == first + [separator] + Join(rest, separator)
  {
    assert ([first] + rest)[1..] == rest;
  }

  lemma JoinLonger(c: char, parts: seq<string>, separator: char)
    requires parts != []
    ensures Join([[c] + parts[0]] + parts[1..], separator) == [c] + Join(parts, separator)
  {
    if |parts| > 1 {
      JoinFirst([c] + parts[0], parts[1..], separator);
      assert [c] + parts[0] + [separator] + Join(parts[1..], separator)
             == [c] + (parts[0] + [separator] + Join(parts[1..], separator));
    } else {
      assert [[c] + parts[0]] + parts[1..] == [[c] + parts[0]];
    }
  }

  lemma {:induction false} JoinSplit(s: string, separator: char)
    ensures Join(Split(s, separator), separator) == s
    ensures forall i :: 0 <= i < |Split(s, separator)| ==> separator !in Split(s, separator)[i]
  {
    if s != [] {
      var rest := Split(s[1..], separator);
      JoinSplit(s[1..], separator);
      hide Join;
      if s[0] == separator {
        JoinFirst([], rest, separator);
      } else {
        JoinLonger(s[0], rest, separator);
      }
      assert s == [s[0]] + s[1..];
    }
  }
}
