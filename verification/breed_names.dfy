/** `formatBreedName` (src/App.js): cut a classifier label after its second word
    and upper-case its first character. */
module BreedNames {

  const Space: char := ' '

  /** No two positions of `t` hold a space. */
  predicate AtMostOneSpace(t: string) {
    forall i, j :: 0 <= i < j < |t| ==> t[i] != Space || t[j] != Space
  }

  /** `s.split(" ")`: the pieces between single spaces, so that two adjacent
      spaces, or a space at either end, give an empty piece. There is always at
      least one piece (`"".split(" ")` is `[""]`) and no piece holds a space. */
  function Split(s: string): (pieces: seq<string>)
    ensures |pieces| >= 1
    ensures forall k :: 0 <= k < |pieces| ==> Space !in pieces[k]
    decreases |s|
  {
    if s == [] then [[]]
    else
      var rest := Split(s[1..]);
      if s[0] == Space then [[]] + rest
      else [[s[0]] + rest[0]] + rest[1..]
  }

  /** `pieces.join(" ")`: the first piece leads, and there is room for a
      separator between each two pieces. */
  function Join(pieces: seq<string>): (s: string)
    ensures |pieces| == 0 ==> s == []
    ensures |pieces| > 0 ==> pieces[0] <= s && |s| >= |pieces| - 1
    decreases |pieces|
  {
    if |pieces| == 0 then []
    else if |pieces| == 1 then pieces[0]
    else pieces[0] + [Space] + Join(pieces[1..])
  }

  /** Joining the pieces of a split with the same separator gives back the input. */
  lemma {:induction false} JoinSplit(s: string)
    ensures Join(Split(s)) == s
    decreases |s|
  {
    if s != [] {
      var rest := Split(s[1..]);
      JoinSplit(s[1..]);
      if s[0] == Space {
        assert Split(s) == [[]] + rest;
        assert ([[]] + rest)[1..] == rest;
      } else {
        var pieces := [[s[0]] + rest[0]] + rest[1..];
        assert Split(s) == pieces;
        if |rest| > 1 {
          assert pieces[1..] == rest[1..];
          assert Join(rest) == rest[0] + [Space] + Join(rest[1..]);
        }
      }
    }
  }

  /** Joining two non-empty runs of pieces puts one separator between them. */
  lemma {:induction false} JoinAppend(a: seq<string>, b: seq<string>)
    requires |a| >= 1 && |b| >= 1
    ensures Join(a + b) == Join(a) + [Space] + Join(b)
    decreases |a|
  {
    if |a| > 1 {
      JoinAppend(a[1..], b);
      assert (a + b)[1..] == a[1..] + b;
    }
  }

  /** Two space-free words joined by one space hold exactly that space. */
  lemma TwoWords(x: string, y: string)
    requires Space !in x && Space !in y
    ensures AtMostOneSpace(x + [Space] + y)
  {
    var t := x + [Space] + y;
    forall i | 0 <= i < |t| && i != |x|
      ensures t[i] != Space
    {
      if i < |x| {
        assert t[i] == x[i];
      } else {
        assert t[i] == y[i - |x| - 1];
      }
    }
  }

  /** The slice-and-join step: the first two pieces when there are more than two,
      otherwise all of them. */
  function FirstTwoWords(s: string): (w: string)
    ensures w <= s
  {
    var pieces := Split(s);
    JoinSplit(s);
    if |pieces| > 2 then
      assert pieces[..2] + pieces[2..] == pieces;
      JoinAppend(pieces[..2], pieces[2..]);
      Join(pieces[..2])
    else Join(pieces)
  }

  /** The slice-and-join step keeps a prefix of the input holding at most one
      space; it keeps the whole input exactly when the input holds at most one
      space, and otherwise it stops just before the input's second space. */
  lemma FirstTwoWordsIsPrefix(s: string)
    ensures var w := FirstTwoWords(s);
      |w| <= |s| && w == s[..|w|] && AtMostOneSpace(w)
      && (w == s <==> AtMostOneSpace(s))
      && (w != s ==> s[|w|] == Space && Space in w)
  {
    var pieces := Split(s);
    var w := FirstTwoWords(s);
    JoinSplit(s);
    if |pieces| == 1 {
      assert w == pieces[0] == s;
      assert forall i :: 0 <= i < |s| ==> s[i] != Space by {
        assert Space !in pieces[0];
      }
    } else if |pieces| == 2 {
      assert pieces[1..] == [pieces[1]];
      assert w == s == pieces[0] + [Space] + pieces[1];
      TwoWords(pieces[0], pieces[1]);
    } else {
      var head, tail := pieces[..2], pieces[2..];
      assert head + tail == pieces;
      JoinAppend(head, tail);
      assert head[1..] == [pieces[1]];
      assert w == pieces[0] + [Space] + pieces[1];
      TwoWords(pieces[0], pieces[1]);
      assert s == w + [Space] + Join(tail);
      assert s[|pieces[0]|] == Space;
      assert s[|w|] == Space;
      assert |pieces[0]| < |w| < |s|;
    }
  }

  /** ASCII upper-casing; every other character is left as it is. */
  function ToUpper(c: char): (u: char)
    ensures u == Space <==> c == Space
    ensures 'a' <= c <= 'z' ==> 'A' <= u <= 'Z' && u as int - 'A' as int == c as int - 'a' as int
    ensures !('a' <= c <= 'z') ==> u == c
  {
    if 'a' <= c <= 'z' then (c as int - 32) as char else c
  }

  /** `t.slice(0, 1).toUpperCase() + t.slice(1)`: only the first character may
      change, and the spaces stay where they were. */
  function Capitalize(t: string): (r: string)
    ensures |r| == |t|
    ensures t != [] ==> r[0] == ToUpper(t[0])
    ensures forall i :: 1 <= i < |t| ==> r[i] == t[i]
    ensures forall i :: 0 <= i < |t| ==> (r[i] == Space <==> t[i] == Space)
  {
    if t == [] then [] else [ToUpper(t[0])] + t[1..]
  }

  /** `formatBreedName(className)`. */
  function FormatBreedName(className: string): (name: string)
    ensures |name| <= |className|
    ensures name == [] <==> className == []
  {
    FirstTwoWordsIsPrefix(className);
    Capitalize(FirstTwoWords(className))
  }

  /** The formatted name holds at most one space and, but for its upper-cased
      first character, is a prefix of the label; it is the whole (capitalised)
      label exactly when the label holds at most one space, and otherwise it ends
      just before the label's second space. */
  lemma FormatBreedNameShape(className: string)
    ensures var name := FormatBreedName(className);
      name == Capitalize(className[..|name|])
      && AtMostOneSpace(name)
      && (name == Capitalize(className) <==> AtMostOneSpace(className))
      && (!AtMostOneSpace(className) ==>
            |name| < |className| && className[|name|] == Space && Space in name)
  {
    var w := FirstTwoWords(className);
    FirstTwoWordsIsPrefix(className);
    var name := FormatBreedName(className);
    assert |name| == |w|;
    if w != className {
      assert |w| < |className|;
      assert |name| != |Capitalize(className)|;
      assert Space in name by {
        var k :| 0 <= k < |w| && w[k] == Space;
        assert name[k] == Space;
      }
    }
  }

  /** A one-word label is only capitalised. */
  lemma FormatOneWord()
    ensures FormatBreedName("pug") == "Pug"
  {
    FormatBreedNameShape("pug");
    assert AtMostOneSpace("pug");
  }

  /** A name of the shape `FormatBreedNameShape` promises for a label whose
      first two spaces sit at `i` and `j` is cut exactly at `j`. */
  lemma CutAtSecondSpace(raw: string, name: string, i: nat, j: nat)
    requires i < j < |raw| && raw[i] == Space && raw[j] == Space
    requires forall k :: 0 <= k < j && k != i ==> raw[k] != Space
    requires |name| < |raw| && name == Capitalize(raw[..|name|]) && AtMostOneSpace(name)
    requires raw[|name|] == Space && Space in name
    ensures |name| == j
  {
    var k :| 0 <= k < |name| && name[k] == Space;
    assert raw[..|name|][k] == Space;
  }

  /** A label whose first two spaces sit at `i` and `j` is cut at `j`. */
  lemma FormatCutsAtSecondSpace(raw: string, i: nat, j: nat)
    requires i < j < |raw| && raw[i] == Space && raw[j] == Space
    requires forall k :: 0 <= k < j && k != i ==> raw[k] != Space
    ensures FormatBreedName(raw) == Capitalize(raw[..j])
  {
    var name := FormatBreedName(raw);
    FormatBreedNameShape(raw);
    assert !AtMostOneSpace(raw);
    CutAtSecondSpace(raw, name, i, j);
  }

  /** Where the spaces of the four-word example label sit. */
  lemma FourWordsSpaces(raw: string)
    requires raw == "golden retriever dog breed"
    ensures raw[6] == Space && raw[16] == Space
    ensures forall k :: 0 <= k < 16 && k != 6 ==> raw[k] != Space
  {
  }

  /** The first two words of the four-word example label, capitalised. */
  lemma FourWordsCapitalized(raw: string)
    requires raw == "golden retriever dog breed"
    ensures Capitalize(raw[..16]) == "Golden retriever"
  {
    var want := "Golden retriever";
    assert ToUpper('g') == 'G';
    assert forall k :: 1 <= k < 16 ==> Capitalize(raw[..16])[k] == raw[k] == want[k];
  }

  /** A four-word label keeps its first two words. */
  lemma FormatFourWords(raw: string)
    requires raw == "golden retriever dog breed"
    ensures FormatBreedName(raw) == "Golden retriever"
  {
    FourWordsSpaces(raw);
    FormatCutsAtSecondSpace(raw, 6, 16);
    FourWordsCapitalized(raw);
  }
}
