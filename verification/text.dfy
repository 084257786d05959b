/**
 * The Python string operations the scraper relies on, on `seq<char>`:
 * `str.isspace`, `str.isdigit`, `str.lower`, `str.split()` (on whitespace),
 * `str.split(sep)` (on one character), `sep.join`, `str.strip` and
 * `str.replace(pattern, '')`.
 */
module Text {

  /** Python's `str.isspace` for one character: the Unicode whitespace set. */
  predicate IsSpace(c: char) {
    var n := c as int;
    (9 <= n <= 13) || (28 <= n <= 32) || n == 0x85 || n == 0xA0 || n == 0x1680
    || (0x2000 <= n <= 0x200A) || n == 0x2028 || n == 0x2029 || n == 0x202F
    || n == 0x205F || n == 0x3000
  }

  /** An ASCII decimal digit. */
  predicate IsDigit(c: char) {
    '0' <= c <= '9'
  }

  /** `str.isdigit`: non-empty and every character a digit. */
  predicate IsDigits(s: string) {
    |s| > 0 && forall i :: 0 <= i < |s| ==> IsDigit(s[i])
  }

  /** `str.lower` on one character, for ASCII letters. */
  function LowerChar(c: char): char {
    if 'A' <= c <= 'Z' then (c as int + 32) as char else c
  }

  function Lower(s: string): string {
    seq(|s|, i requires 0 <= i < |s| => LowerChar(s[i]))
  }

  /** A non-empty run of non-whitespace characters, as `str.split()` yields. */
  predicate IsWord(w: string) {
    w != [] && forall i :: 0 <= i < |w| ==> !IsSpace(w[i])
  }

  /** True when `s` has no whitespace at either end. */
  predicate IsTrimmed(s: string) {
    s == [] || (!IsSpace(s[0]) && !IsSpace(s[|s| - 1]))
  }

  /** The characters of `s` that are not whitespace, in order. */
  function NonSpace(s: string): string {
    if s == [] then []
    else if IsSpace(s[0]) then NonSpace(s[1..])
    else [s[0]] + NonSpace(s[1..])
  }

  /** Concatenation of a list of strings. */
  function Concat(ws: seq<string>): string {
    if ws == [] then [] else ws[0] + Concat(ws[1..])
  }

  // ---------------------------------------------------------------------------
  // Facts about slices and concatenation, stated once so that the proofs
  // below do not have to rediscover them

  /** A string is its first `n` characters followed by the rest. */
  lemma TakeDrop<T>(s: seq<T>, n: nat)
    requires n <= |s|
    ensures s[..n] + s[n..] == s
  {
  }

  /** The two halves of a concatenation. */
  lemma AppendTakeDrop<T>(x: seq<T>, y: seq<T>)
    ensures (x + y)[..|x|] == x && (x + y)[|x|..] == y
  {
  }

  /** Dropping the first character of a concatenation with a non-empty left
      side. */
  lemma TailAppend<T>(x: seq<T>, y: seq<T>)
    requires x != []
    ensures (x + y)[1..] == x[1..] + y
  {
  }

  lemma ConsTail<T>(x: seq<T>)
    requires x != []
    ensures [x[0]] + x[1..] == x
  {
  }

  lemma DropDrop<T>(s: seq<T>, i: nat, j: nat)
    requires i + j <= |s|
    ensures s[i..][j..] == s[i + j..]
  {
  }

  lemma TakeTake<T>(s: seq<T>, i: nat, j: nat)
    requires j <= i <= |s|
    ensures s[..i][..j] == s[..j]
  {
  }

  lemma DropTail<T>(s: seq<T>, p: nat)
    requires p < |s|
    ensures s[p..][1..] == s[p + 1..]
  {
  }

  lemma AppendAssoc<T>(x: seq<T>, y: seq<T>, z: seq<T>)
    ensures x + (y + z) == (x + y) + z
  {
  }

  // ---------------------------------------------------------------------------
  // Stripping

  /** `str.lstrip()`: drops the leading whitespace. */
  function TrimStart(s: string): (r: string)
    ensures |r| <= |s| && r == s[|s| - |r|..]
    ensures r == [] || !IsSpace(r[0])
    ensures forall i :: 0 <= i < |s| - |r| ==> IsSpace(s[i])
  {
    if s != [] && IsSpace(s[0]) then
      var r := TrimStart(s[1..]);
      DropDrop(s, 1, |s| - 1 - |r|);
      r
    else s
  }

  /** `str.rstrip()`: drops the trailing whitespace. */
  function TrimEnd(s: string): (r: string)
    ensures |r| <= |s| && r == s[..|r|]
    ensures r == [] || !IsSpace(r[|r| - 1])
    ensures forall i :: |r| <= i < |s| ==> IsSpace(s[i])
  {
    if s != [] && IsSpace(s[|s| - 1]) then
      var r := TrimEnd(s[..|s| - 1]);
      TakeTake(s, |s| - 1, |r|);
      r
    else s
  }

  /** `str.strip()`: the result has no whitespace at either end, and a string
      that already has none is returned unchanged. */
  function Strip(s: string): (r: string)
    ensures IsTrimmed(r)
    ensures IsTrimmed(s) ==> r == s
  {
    TrimEnd(TrimStart(s))
  }

  /** `str.strip()` removes only whitespace. */
  lemma StripKeepsText(s: string)
    ensures NonSpace(Strip(s)) == NonSpace(s)
  {
    TrimStartKeepsText(s);
    TrimEndKeepsText(TrimStart(s));
  }

  lemma {:induction false} TrimStartKeepsText(s: string)
    ensures NonSpace(TrimStart(s)) == NonSpace(s)
    decreases |s|
  {
    if s != [] && IsSpace(s[0]) {
      TrimStartKeepsText(s[1..]);
    }
  }

  lemma {:induction false} TrimEndKeepsText(s: string)
    ensures NonSpace(TrimEnd(s)) == NonSpace(s)
    decreases |s|
  {
    if s != [] && IsSpace(s[|s| - 1]) {
      var init := s[..|s| - 1];
      TrimEndKeepsText(init);
      assert s == init + [s[|s| - 1]];
      NonSpaceAppend(init, [s[|s| - 1]]);
    }
  }

  lemma {:induction false} NonSpaceAppend(a: string, b: string)
    ensures NonSpace(a + b) == NonSpace(a) + NonSpace(b)
    decreases |a|
  {
    if a != [] {
      assert (a + b)[1..] == a[1..] + b;
      NonSpaceAppend(a[1..], b);
    } else {
      assert a + b == b;
    }
  }

  // ---------------------------------------------------------------------------
  // Splitting on whitespace and joining

  /** The longest prefix of `s` that holds no whitespace. */
  function Word(s: string): (w: string)
    ensures |w| <= |s| && w == s[..|w|]
    ensures forall i :: 0 <= i < |w| ==> !IsSpace(w[i])
    ensures |w| == |s| || IsSpace(s[|w|])
  {
    if s != [] && !IsSpace(s[0]) then [s[0]] + Word(s[1..]) else []
  }

  /** `str.split()` with no argument: the maximal runs of non-whitespace. */
  function Split(s: string): seq<string>
    decreases |s|
  {
    var t := TrimStart(s);
    if t == [] then []
    else
      var w := Word(t);
      [w] + Split(t[|w|..])
  }

  /** `sep.join(ws)`. */
  function Join(ws: seq<string>, sep: string): string {
    if ws == [] then []
    else if |ws| == 1 then ws[0]
    else ws[0] + sep + Join(ws[1..], sep)
  }

  /** `' '.join(s.split())`: every whitespace run becomes one space and the
      ends lose their whitespace. */
  function Collapse(s: string): string {
    Join(Split(s), " ")
  }

  /** Every piece that `str.split()` returns is a word. */
  lemma {:induction false} SplitGivesWords(s: string)
    ensures forall k :: 0 <= k < |Split(s)| ==> IsWord(Split(s)[k])
    decreases |s|
  {
    var t := TrimStart(s);
    if t != [] {
      var w := Word(t);
      SplitGivesWords(t[|w|..]);
      ConsWords(w, Split(t[|w|..]));
    }
  }

  /** A word in front of a list of words gives a list of words. */
  lemma ConsWords(w: string, ws: seq<string>)
    requires IsWord(w)
    requires forall k :: 0 <= k < |ws| ==> IsWord(ws[k])
    ensures forall k :: 0 <= k < |[w] + ws| ==> IsWord(([w] + ws)[k])
  {
    forall k | 1 <= k < |[w] + ws| ensures IsWord(([w] + ws)[k]) {
      assert ([w] + ws)[k] == ws[k - 1];
    }
  }

  /** `str.split()` drops exactly the whitespace: the words concatenated are
      the non-whitespace characters of the input. */
  lemma {:induction false} SplitKeepsText(s: string)
    ensures Concat(Split(s)) == NonSpace(s)
    decreases |s|
  {
    var t := TrimStart(s);
    TrimStartKeepsText(s);
    if t != [] {
      var w := Word(t);
      var rest := t[|w|..];
      SplitKeepsText(rest);
      assert NonSpace(t) == w + NonSpace(rest) by {
        TakeDrop(t, |w|);
        NonSpaceAppend(w, rest);
        NonSpaceOfWord(w);
      }
      assert Concat(Split(s)) == w + Concat(Split(rest)) by {
        assert Split(s) == [w] + Split(rest);
        assert ([w] + Split(rest))[1..] == Split(rest);
      }
    }
  }

  lemma {:induction false} NonSpaceOfWord(w: string)
    requires forall i :: 0 <= i < |w| ==> !IsSpace(w[i])
    ensures NonSpace(w) == w
    decreases |w|
  {
    if w != [] {
      NonSpaceOfWord(w[1..]);
      assert w == [w[0]] + w[1..];
    }
  }

  /** `Word` stops at the first whitespace character. */
  lemma {:induction false} WordOfPrefix(w: string, rest: string)
    requires forall i :: 0 <= i < |w| ==> !IsSpace(w[i])
    requires rest == [] || IsSpace(rest[0])
    ensures Word(w + rest) == w
    decreases |w|
  {
    if w == [] {
      assert w + rest == rest;
    } else {
      assert (w + rest)[1..] == w[1..] + rest;
      WordOfPrefix(w[1..], rest);
      assert w == [w[0]] + w[1..];
    }
  }

  /** A joined list starts with its first element. */
  lemma {:induction false} JoinStartsWith(ws: seq<string>, sep: string)
    requires ws != []
    ensures |ws[0]| <= |Join(ws, sep)| && Join(ws, sep)[..|ws[0]|] == ws[0]
  {
  }

  /** Round trip: splitting a space-joined list of words gives the words back. */
  lemma {:induction false} SplitJoin(ws: seq<string>)
    requires forall k :: 0 <= k < |ws| ==> IsWord(ws[k])
    ensures Split(Join(ws, " ")) == ws
    decreases |ws|
  {
    if |ws| == 0 {
      assert Join(ws, " ") == [];
      assert TrimStart([]) == [];
    } else if |ws| == 1 {
      assert Join(ws, " ") == ws[0];
      SplitOfWord(ws[0]);
      assert ws == [ws[0]];
    } else {
      assert Join(ws, " ") == ws[0] + " " + Join(ws[1..], " ");
      SplitAfterWord(ws[0], Join(ws[1..], " "));
      assert Split(Join(ws[1..], " ")) == ws[1..] by {
        assert forall k :: 0 <= k < |ws[1..]| ==> ws[1..][k] == ws[k + 1];
        SplitJoin(ws[1..]);
      }
      ConsTail(ws);
    }
  }

  /** A single word splits into itself. */
  lemma SplitOfWord(w: string)
    requires IsWord(w)
    ensures Split(w) == [w]
  {
    WordOfPrefix(w, []);
    assert w + [] == w;
    assert TrimStart(w) == w;
    assert w[|w|..] == [];
  }

  /** A word followed by a space splits off as the first word. */
  lemma SplitAfterWord(w: string, r: string)
    requires IsWord(w)
    ensures Split(w + " " + r) == [w] + Split(r)
  {
    assert " " == [' '];
    SplitAtSpace(w, ' ', r);
    SplitOfWord(w);
  }

  /** A word followed by whitespace, or by nothing, splits off as the first
      word. */
  lemma SplitAfterWordAt(w: string, r: string)
    requires IsWord(w)
    requires r == [] || IsSpace(r[0])
    ensures Split(w + r) == [w] + Split(r)
  {
    WordOfPrefix(w, r);
    AppendTakeDrop(w, r);
    assert TrimStart(w + r) == w + r;
  }

  /** `str.lstrip()` passes over any leading run of whitespace. */
  lemma {:induction false} TrimStartSkipsSpaces(p: string, x: string)
    requires forall i :: 0 <= i < |p| ==> IsSpace(p[i])
    ensures TrimStart(p + x) == TrimStart(x)
    decreases |p|
  {
    if p == [] {
      assert p + x == x;
    } else {
      TailAppend(p, x);
      TrimStartSkipsSpaces(p[1..], x);
    }
  }

  /** `str.split()` ignores leading whitespace. */
  lemma SplitSkipsSpaces(p: string, x: string)
    requires forall i :: 0 <= i < |p| ==> IsSpace(p[i])
    ensures Split(p + x) == Split(x)
  {
    TrimStartSkipsSpaces(p, x);
  }

  /** Whitespace, then a word, then whitespace or nothing: the word is the
      first piece. */
  lemma SplitAfterSpacesWord(sp: string, w: string, r: string)
    requires forall i :: 0 <= i < |sp| ==> IsSpace(sp[i])
    requires IsWord(w)
    requires r == [] || IsSpace(r[0])
    ensures Split(sp + (w + r)) == [w] + Split(r)
  {
    SplitSkipsSpaces(sp, w + r);
    SplitAfterWordAt(w, r);
  }

  /** `str.split()` cuts at every whitespace character: a string with one in
      the middle splits into the pieces of both sides. */
  lemma {:induction false} SplitAtSpace(a: string, c: char, b: string)
    requires IsSpace(c)
    ensures Split(a + [c] + b) == Split(a) + Split(b)
    decreases |a|
  {
    var t := TrimStart(a);
    var sp := a[..|a| - |t|];
    assert a == sp + t by { TakeDrop(a, |a| - |t|); }
    assert forall i :: 0 <= i < |sp| ==> IsSpace(sp[i]);
    if t == [] {
      var spc := sp + [c];
      assert forall i :: 0 <= i < |spc| ==> IsSpace(spc[i]);
      assert a + [c] + b == spc + b;
      SplitSkipsSpaces(spc, b);
      assert Split(a) == [] by {
        assert TrimStart(a) == [];
      }
    } else {
      var w := Word(t);
      var r := t[|w|..];
      assert t == w + r by { TakeDrop(t, |w|); }
      var rcb := r + [c] + b;
      assert a + [c] + b == sp + (w + rcb) by {
        AppendAssoc(w, r, [c] + b);
        AppendAssoc(sp, w + r, [c] + b);
        AppendAssoc(r, [c], b);
        AppendAssoc(a, [c], b);
      }
      assert rcb == [] || IsSpace(rcb[0]);
      SplitAfterSpacesWord(sp, w, rcb);
      SplitAfterSpacesWord(sp, w, r);
      SplitAtSpace(r, c, b);
      AppendAssoc([w], Split(r), Split(b));
    }
  }

  /** A space-joined list of words has no whitespace at its ends, and every
      whitespace character in it is a single space between two non-spaces. */
  lemma {:induction false} JoinWordsCollapsed(ws: seq<string>)
    requires forall k :: 0 <= k < |ws| ==> IsWord(ws[k])
    ensures IsCollapsed(Join(ws, " "))
    decreases |ws|
  {
    if |ws| > 1 {
      var w := ws[0];
      var j := Join(ws[1..], " ");
      var s := Join(ws, " ");
      JoinWordsCollapsed(ws[1..]);
      JoinStartsWith(ws[1..], " ");
      assert ws[1..][0] == ws[1];
      assert s == w + " " + j;
      assert forall i :: 0 <= i < |w| ==> s[i] == w[i];
      forall i | |w| <= i < |s| - 1 && IsSpace(s[i])
        ensures s[i] == ' ' && !IsSpace(s[i + 1])
      {
        if i == |w| {
          assert s[i + 1] == j[0];
        } else {
          assert s[i] == j[i - |w| - 1] && s[i + 1] == j[i - |w|];
        }
      }
      assert s[|s| - 1] == j[|j| - 1];
    }
  }

  /** The shape `Collapse` produces. */
  predicate IsCollapsed(s: string) {
    IsTrimmed(s)
    && forall i :: 0 <= i < |s| - 1 && IsSpace(s[i]) ==> s[i] == ' ' && !IsSpace(s[i + 1])
  }

  /** Collapsing whitespace: the result is in collapsed shape, splits into the
      same words as the input (so each whitespace run between two words became
      exactly one space), keeps the non-whitespace characters in order, and
      collapsing again changes nothing. */
  lemma CollapseSpec(s: string)
    ensures IsCollapsed(Collapse(s))
    ensures Split(Collapse(s)) == Split(s)
    ensures NonSpace(Collapse(s)) == NonSpace(s)
    ensures Collapse(Collapse(s)) == Collapse(s)
  {
    SplitGivesWords(s);
    JoinWordsCollapsed(Split(s));
    SplitJoin(Split(s));
    SplitKeepsText(s);
    SplitKeepsText(Collapse(s));
  }

  // ---------------------------------------------------------------------------
  // Splitting on one separator character

  /** `s.split(c)` for a one-character separator: every occurrence separates,
      empty pieces are kept, and there is always at least one piece. */
  function SplitOn(s: string, c: char): (parts: seq<string>)
    ensures |parts| >= 1
  {
    if s == [] then [[]]
    else if s[0] == c then [[]] + SplitOn(s[1..], c)
    else
      var p := SplitOn(s[1..], c);
      [[s[0]] + p[0]] + p[1..]
  }

  /** `s.split(c)` cuts at every `c`, so a string with a `c` in the middle
      splits into the pieces of both sides. */
  lemma {:induction false} SplitOnConcat(a: string, b: string, c: char)
    ensures SplitOn(a + [c] + b, c) == SplitOn(a, c) + SplitOn(b, c)
    decreases |a|
  {
    var s := a + [c] + b;
    if a == [] {
      assert s == [c] + b;
      AppendTakeDrop([c], b);
    } else {
      TailAppend(a + [c], b);
      TailAppend(a, [c]);
      assert s[0] == a[0];
      SplitOnConcat(a[1..], b, c);
      var p1, p2 := SplitOn(a[1..], c), SplitOn(b, c);
      if a[0] == c {
        AppendAssoc([[]], p1, p2);
      } else {
        assert (p1 + p2)[0] == p1[0];
        TailAppend(p1, p2);
        AppendAssoc([[a[0]] + p1[0]], p1[1..], p2);
      }
    }
  }

  /** A string without the separator is one piece. */
  lemma {:induction false} SplitOnNone(w: string, c: char)
    requires forall i :: 0 <= i < |w| ==> w[i] != c
    ensures SplitOn(w, c) == [w]
    decreases |w|
  {
    if w != [] {
      SplitOnNone(w[1..], c);
      assert w == [w[0]] + w[1..];
    }
  }

  /** Round trip: splitting a `c`-joined list of `c`-free pieces gives the
      pieces back. */
  lemma {:induction false} SplitOnJoin(ws: seq<string>, c: char)
    requires ws != []
    requires forall k, i :: 0 <= k < |ws| && 0 <= i < |ws[k]| ==> ws[k][i] != c
    ensures SplitOn(Join(ws, [c]), c) == ws
    decreases |ws|
  {
    SplitOnNone(ws[0], c);
    if |ws| > 1 {
      SplitOnJoin(ws[1..], c);
      SplitOnConcat(ws[0], Join(ws[1..], [c]), c);
    }
  }

  /** Round trip the other way: joining the pieces of `s.split(c)` with `c`
      gives `s` back. */
  lemma {:induction false} JoinSplitOn(s: string, c: char)
    ensures Join(SplitOn(s, c), [c]) == s
    decreases |s|
  {
    if s != [] {
      var p := SplitOn(s[1..], c);
      JoinSplitOn(s[1..], c);
      if s[0] == c {
        assert SplitOn(s, c) == [[]] + p;
        assert (SplitOn(s, c))[1..] == p;
      } else {
        var q := [[s[0]] + p[0]] + p[1..];
        assert SplitOn(s, c) == q;
        if |p| > 1 {
          assert p == [p[0]] + p[1..];
          assert Join(p, [c]) == p[0] + [c] + Join(p[1..], [c]);
          assert q[1..] == p[1..];
        }
      }
    }
  }

  // ---------------------------------------------------------------------------
  // Removing a pattern

  /** True when `pat` occurs in `s` starting at position `i`. */
  predicate OccursAt(s: string, pat: string, i: int) {
    0 <= i && i + |pat| <= |s| && s[i..i + |pat|] == pat
  }

  /** `s.replace(pat, '')`: removes the non-overlapping occurrences of `pat`
      found scanning from left to right. */
  function RemoveAll(s: string, pat: string): (r: string)
    requires pat != []
    ensures |r| <= |s|
    decreases |s|
  {
    if |s| < |pat| then s
    else if s[..|pat|] == pat then RemoveAll(s[|pat|..], pat)
    else [s[0]] + RemoveAll(s[1..], pat)
  }

  /** A string in which `pat` does not occur is left unchanged. */
  lemma {:induction false} RemoveAllAbsent(s: string, pat: string)
    requires pat != []
    requires forall i :: !OccursAt(s, pat, i)
    ensures RemoveAll(s, pat) == s
    decreases |s|
  {
    if |s| >= |pat| {
      assert !OccursAt(s, pat, 0);
      forall i | 0 <= i && i + |pat| <= |s| - 1 ensures !OccursAt(s[1..], pat, i) {
        assert s[1..][i..i + |pat|] == s[i + 1..i + 1 + |pat|];
        assert !OccursAt(s, pat, i + 1);
      }
      forall i | !(0 <= i && i + |pat| <= |s| - 1) ensures !OccursAt(s[1..], pat, i) {
      }
      RemoveAllAbsent(s[1..], pat);
      assert s == [s[0]] + s[1..];
    }
  }

  /** The first occurrence of `pat` is cut out: what precedes it stays, and the
      scan resumes right after it. */
  lemma {:induction false} RemoveAllFirst(a: string, pat: string, b: string)
    requires pat != []
    requires forall i :: 0 <= i < |a| ==> !OccursAt(a + pat + b, pat, i)
    ensures RemoveAll(a + pat + b, pat) == a + RemoveAll(b, pat)
    decreases |a|
  {
    var s := a + pat + b;
    if a == [] {
      assert s == pat + b;
      AppendTakeDrop(pat, b);
    } else {
      TailAppend(a + pat, b);
      TailAppend(a, pat);
      assert !OccursAt(s, pat, 0);
      forall i | 0 <= i < |a[1..]| ensures !OccursAt(a[1..] + pat + b, pat, i) {
        OccursAtTail(s, pat, i);
      }
      RemoveAllFirst(a[1..], pat, b);
      ConsTail(a);
      AppendAssoc([a[0]], a[1..], RemoveAll(b, pat));
    }
  }

  /** An occurrence in the tail is an occurrence one position further on. */
  lemma OccursAtTail(s: string, pat: string, i: nat)
    requires s != []
    ensures OccursAt(s[1..], pat, i) == OccursAt(s, pat, i + 1)
  {
    if i + |pat| <= |s| - 1 {
      assert s[1..][i..i + |pat|] == s[i + 1..i + 1 + |pat|];
    }
  }

  // ---------------------------------------------------------------------------
  // Characters a string cannot contain

  /** True when the character `c` does not occur in `s`. */
  predicate Avoids(s: string, c: char) {
    forall i :: 0 <= i < |s| ==> s[i] != c
  }

  lemma AvoidsDrop(s: string, n: nat, c: char)
    requires n <= |s| && Avoids(s, c)
    ensures Avoids(s[n..], c)
  {
    assert forall i :: 0 <= i < |s| - n ==> s[n..][i] == s[n + i];
  }

  lemma AvoidsTake(s: string, n: nat, c: char)
    requires n <= |s| && Avoids(s, c)
    ensures Avoids(s[..n], c)
  {
    assert forall i :: 0 <= i < n ==> s[..n][i] == s[i];
  }

  /** Stripping keeps a character out. */
  lemma StripAvoids(s: string, c: char)
    requires Avoids(s, c)
    ensures Avoids(Strip(s), c)
  {
    var t := TrimStart(s);
    AvoidsDrop(s, |s| - |t|, c);
    AvoidsTake(t, |TrimEnd(t)|, c);
  }

  /** Removing a pattern introduces no new character. */
  lemma {:induction false} RemoveAllAvoids(s: string, pat: string, c: char)
    requires pat != []
    requires Avoids(s, c)
    ensures Avoids(RemoveAll(s, pat), c)
    decreases |s|
  {
    if |s| < |pat| {
    } else if s[..|pat|] == pat {
      RemoveAllAvoids(s[|pat|..], pat, c);
    } else {
      RemoveAllAvoids(s[1..], pat, c);
    }
  }

  /** Joining introduces no character beyond those of the pieces and the
      separator. */
  lemma {:induction false} JoinAvoids(ws: seq<string>, sep: string, c: char)
    requires forall k :: 0 <= k < |ws| ==> Avoids(ws[k], c)
    requires Avoids(sep, c)
    ensures Avoids(Join(ws, sep), c)
  {
    if |ws| > 1 {
      JoinAvoids(ws[1..], sep, c);
    }
  }

  /** The only whitespace character left by collapsing is the plain space. */
  lemma CollapseAvoids(s: string, c: char)
    requires IsSpace(c) && c != ' '
    ensures Avoids(Collapse(s), c)
  {
    CollapseSpec(s);
  }
}
