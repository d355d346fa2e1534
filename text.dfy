/** Strings and the words of a command line: `Array.prototype.join`, and
    the inverse operation that cuts a line at its spaces. */
module Text {

  predicate NoSpace(w: string) {
    ' ' !in w
  }

  /** `parts.join(sep)`. */
  function Join(sep: string, parts: seq<string>): string {
    if |parts| == 0 then ""
    else if |parts| == 1 then parts[0]
    else parts[0] + sep + Join(sep, parts[1..])
  }

  /** The pieces of `s` between its spaces (empty pieces included). */
  function Split(s: string): (pieces: seq<string>)
    ensures |pieces| >= 1
    ensures forall i :: 0 <= i < |pieces| ==> NoSpace(pieces[i])
  {
    if s == [] then [""]
    else
      var rest := Split(s[1..]);
      if s[0] == ' ' then [""] + rest
      else [[s[0]] + rest[0]] + rest[1..]
  }

  /** The non-empty pieces, in order. */
  function NonEmpty(pieces: seq<string>): seq<string> {
    if pieces == [] then []
    else (if pieces[0] == "" then [] else [pieces[0]]) + NonEmpty(pieces[1..])
  }

  /** The words of a command line: what is left after cutting it at every
      space and dropping the empty pieces (quotes are not interpreted). */
  function Words(s: string): seq<string> {
    NonEmpty(Split(s))
  }

  predicate IsWord(w: string) {
    w != "" && NoSpace(w)
  }

  lemma JoinCons(sep: string, a: string, rest: seq<string>)
    requires rest != []
    ensures Join(sep, [a] + rest) == a + sep + Join(sep, rest)
  {
    assert ([a] + rest)[1..] == rest;
  }

  lemma {:induction false} JoinAppend(sep: string, a: seq<string>, b: seq<string>)
    requires a != [] && b != []
    ensures Join(sep, a + b) == Join(sep, a) + sep + Join(sep, b)
  {
    if |a| == 1 {
      JoinCons(sep, a[0], b);
      assert a + b == [a[0]] + b;
    } else {
      assert a + b == [a[0]] + (a[1..] + b);
      JoinCons(sep, a[0], a[1..] + b);
      JoinAppend(sep, a[1..], b);
      JoinCons(sep, a[0], a[1..]);
      assert a == [a[0]] + a[1..];
    }
  }

  /** Cutting a line at its spaces and joining the pieces with spaces gives the line back. */
  lemma {:induction false} JoinSplit(s: string)
    ensures Join(" ", Split(s)) == s
  {
    if s != [] {
      var rest := Split(s[1..]);
      JoinSplit(s[1..]);
      if s[0] == ' ' {
        JoinCons(" ", "", rest);
      } else if |rest| == 1 {
        assert Split(s) == [[s[0]] + rest[0]];
      } else {
        assert Split(s) == [[s[0]] + rest[0]] + rest[1..];
        JoinCons(" ", [s[0]] + rest[0], rest[1..]);
        JoinCons(" ", rest[0], rest[1..]);
        assert rest == [rest[0]] + rest[1..];
      }
    }
  }

  /** A piece without spaces is not cut. */
  lemma {:induction false} SplitNoSpace(w: string)
    requires NoSpace(w)
    ensures Split(w) == [w]
  {
    if w != [] {
      assert NoSpace(w[1..]) by { assert forall c :: c in w[1..] ==> c in w; }
      SplitNoSpace(w[1..]);
      assert [w[0]] + w[1..] == w;
    }
  }

  /** Cutting a line at one of its spaces: the pieces of each side, in order. */
  lemma {:induction false} SplitAppend(x: string, y: string)
    ensures Split(x + " " + y) == Split(x) + Split(y)
  {
    if x == [] {
      assert x + " " + y == " " + y;
      assert (" " + y)[1..] == y;
    } else {
      var s := x + " " + y;
      assert s[0] == x[0];
      assert s[1..] == x[1..] + " " + y;
      SplitAppend(x[1..], y);
    }
  }

  /** Splitting a space-joined list of space-free pieces gives the list back. */
  lemma {:induction false} SplitJoin(parts: seq<string>)
    requires parts != []
    requires forall i :: 0 <= i < |parts| ==> NoSpace(parts[i])
    ensures Split(Join(" ", parts)) == parts
  {
    if |parts| == 1 {
      SplitNoSpace(parts[0]);
    } else {
      SplitAppend(parts[0], Join(" ", parts[1..]));
      SplitNoSpace(parts[0]);
      SplitJoin(parts[1..]);
      assert parts == [parts[0]] + parts[1..];
    }
  }

  lemma {:induction false} NonEmptyAppend(a: seq<string>, b: seq<string>)
    ensures NonEmpty(a + b) == NonEmpty(a) + NonEmpty(b)
  {
    if a != [] {
      assert (a + b)[0] == a[0];
      assert (a + b)[1..] == a[1..] + b;
      NonEmptyAppend(a[1..], b);
      assert NonEmpty(a) == (if a[0] == "" then [] else [a[0]]) + NonEmpty(a[1..]);
    } else {
      assert a + b == b;
    }
  }

  /** The words of `x + " " + y` are the words of x followed by those of y. */
  lemma WordsAppend(x: string, y: string)
    ensures Words(x + " " + y) == Words(x) + Words(y)
  {
    SplitAppend(x, y);
    NonEmptyAppend(Split(x), Split(y));
  }

  lemma WordsOfWord(w: string)
    requires IsWord(w)
    ensures Words(w) == [w]
  {
    SplitNoSpace(w);
    assert [w][1..] == [];
    assert NonEmpty([w]) == [w] + NonEmpty([]);
  }

  /** A leading word followed by a space is the first word of the line. */
  lemma WordThen(w: string, rest: string)
    requires IsWord(w)
    ensures Words(w + " " + rest) == [w] + Words(rest)
  {
    WordsAppend(w, rest);
    WordsOfWord(w);
  }

  lemma WordsOfEmpty()
    ensures Words("") == []
  {
  }

  /** A command line made by joining words with single spaces splits back
      into exactly those words. */
  lemma {:induction false} WordsJoin(parts: seq<string>)
    requires forall i :: 0 <= i < |parts| ==> IsWord(parts[i])
    ensures Words(Join(" ", parts)) == parts
  {
    if parts != [] {
      SplitJoin(parts);
      NonEmptyOfWords(parts);
    }
  }

  lemma {:induction false} NonEmptyOfWords(parts: seq<string>)
    requires forall i :: 0 <= i < |parts| ==> IsWord(parts[i])
    ensures NonEmpty(parts) == parts
  {
    if parts != [] {
      NonEmptyOfWords(parts[1..]);
      assert parts == [parts[0]] + parts[1..];
    }
  }
}
