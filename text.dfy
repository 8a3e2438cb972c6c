/**
 * ASCII models of the Python `str` operations the scrapers rely on:
 * `in`, `find`, `split`, `join`, `replace`, `strip`, `lower`, `upper`,
 * `title`, `str.split()` and `re.sub(r"\s+", " ", ...)`.
 * Characters outside ASCII are carried through unchanged by every operation.
 */
module Text {
  import opened Wrappers

  type String = seq<char>

  predicate IsDigit(c: char) { '0' <= c <= '9' }
  predicate IsUpper(c: char) { 'A' <= c <= 'Z' }
  predicate IsLower(c: char) { 'a' <= c <= 'z' }
  predicate IsAlpha(c: char) { IsUpper(c) || IsLower(c) }
  /** `\w` of Python's `re` restricted to ASCII. */
  predicate IsWordChar(c: char) { IsAlpha(c) || IsDigit(c) || c == '_' }

  /** Python's `str.isspace` on ASCII: space, `\t \n \v \f \r` and the separators 0x1C-0x1F. */
  predicate IsSpace(c: char)
  {
    var n := c as int;
    n == 32 || (9 <= n <= 13) || (28 <= n <= 31)
  }

  predicate AllDigits(s: String) { forall i :: 0 <= i < |s| ==> IsDigit(s[i]) }

  function LowerChar(c: char): (r: char)
    ensures !IsUpper(r)
    ensures IsLower(c) || IsUpper(c) || r == c
  {
    if IsUpper(c) then (c as int + 32) as char else c
  }

  function UpperChar(c: char): (r: char)
    ensures !IsLower(r)
  {
    if IsLower(c) then (c as int - 32) as char else c
  }

  /** `s.lower()` */
  function Lower(s: String): (r: String)
    ensures |r| == |s|
    ensures forall i :: 0 <= i < |s| ==> r[i] == LowerChar(s[i])
  {
    seq(|s|, i requires 0 <= i < |s| => LowerChar(s[i]))
  }

  /** `s.upper()` */
  function Upper(s: String): (r: String)
    ensures |r| == |s|
    ensures forall i :: 0 <= i < |s| ==> r[i] == UpperChar(s[i])
  {
    seq(|s|, i requires 0 <= i < |s| => UpperChar(s[i]))
  }

  lemma LowerIdempotent(s: String)
    ensures Lower(Lower(s)) == Lower(s)
  {
  }

  lemma LowerConcat(a: String, b: String)
    ensures Lower(a + b) == Lower(a) + Lower(b)
  {
  }

  lemma UpperConcat(a: String, b: String)
    ensures Upper(a + b) == Upper(a) + Upper(b)
  {
  }

  /** `p` occurs in `s` at index `i`. */
  predicate OccursAt(s: String, p: String, i: int)
  {
    0 <= i && i + |p| <= |s| && s[i..i + |p|] == p
  }

  /** Python's `p in s`. */
  predicate Contains(s: String, p: String)
  {
    exists i :: 0 <= i <= |s| - |p| && OccursAt(s, p, i)
  }

  predicate StartsWith(s: String, p: String) { |p| <= |s| && s[..|p|] == p }
  predicate EndsWith(s: String, p: String) { |p| <= |s| && s[|s| - |p|..] == p }

  lemma ContainsAt(s: String, p: String, i: int)
    requires OccursAt(s, p, i)
    ensures Contains(s, p)
  {
  }

  lemma ContainsInPrefix(s: String, t: String, p: String)
    requires Contains(s, p)
    ensures Contains(s + t, p) && Contains(t + s, p)
  {
    var i :| 0 <= i <= |s| - |p| && OccursAt(s, p, i);
    assert (s + t)[i..i + |p|] == s[i..i + |p|];
    assert OccursAt(s + t, p, i);
    assert (t + s)[|t| + i..|t| + i + |p|] == s[i..i + |p|];
    assert OccursAt(t + s, p, |t| + i);
  }

  /** Containment is transitive. */
  lemma ContainsTrans(s: String, w: String, k: String)
    requires Contains(s, w) && Contains(w, k)
    ensures Contains(s, k)
  {
    var i :| 0 <= i <= |s| - |w| && OccursAt(s, w, i);
    var j :| 0 <= j <= |w| - |k| && OccursAt(w, k, j);
    assert OccursAt(s, k, i + j) by {
      forall t | 0 <= t < |k| ensures s[i + j + t] == k[t] {
        assert w[j + t] == k[t];
        assert s[i + (j + t)] == w[j + t];
      }
    }
  }

  lemma ContainsEmpty(s: String)
    ensures Contains(s, "")
  {
    assert OccursAt(s, "", 0);
  }

  lemma ContainsSelf(s: String)
    ensures Contains(s, s)
  {
    assert s[0..|s|] == s;
    assert OccursAt(s, s, 0);
  }

  /** The first index of `p` in `s` at or after `from`, like `s.find(p, from)`. */
  function FindFrom(s: String, p: String, from: nat): (r: Option<nat>)
    decreases |s| - from
    ensures r.Some? ==> from <= r.value && OccursAt(s, p, r.value)
    ensures r.Some? ==> forall j :: from <= j < r.value ==> !OccursAt(s, p, j)
    ensures r.None? ==> forall j :: from <= j ==> !OccursAt(s, p, j)
  {
    if from + |p| > |s| then None
    else if s[from..from + |p|] == p then Some(from)
    else FindFrom(s, p, from + 1)
  }

  /** `s.find(p)`, with `None` for Python's `-1`. */
  function Find(s: String, p: String): (r: Option<nat>)
    ensures r.Some? <==> Contains(s, p)
    ensures r.Some? ==> OccursAt(s, p, r.value) && forall j :: 0 <= j < r.value ==> !OccursAt(s, p, j)
  {
    FindFrom(s, p, 0)
  }

  /** The last index of `p` in `s`, like `s.rfind(p)`. */
  function RFind(s: String, p: String): (r: Option<nat>)
    ensures r.Some? <==> Contains(s, p)
    ensures r.Some? ==> OccursAt(s, p, r.value) && forall j :: r.value < j ==> !OccursAt(s, p, j)
  {
    var r := RFindBelow(s, p, |s| - |p|);
    assert r.Some? ==> OccursAt(s, p, r.value) && r.value <= |s| - |p|;
    r
  }

  function RFindBelow(s: String, p: String, k: int): (r: Option<nat>)
    decreases k + 1
    ensures r.Some? ==> r.value <= k && OccursAt(s, p, r.value)
    ensures r.Some? ==> forall j :: r.value < j <= k ==> !OccursAt(s, p, j)
    ensures r.None? ==> forall j :: j <= k ==> !OccursAt(s, p, j)
  {
    if k < 0 then None
    else if k + |p| <= |s| && s[k..k + |p|] == p then Some(k)
    else RFindBelow(s, p, k - 1)
  }

  /** Changing case keeps occurrences: `p in s` implies `p.lower() in s.lower()` and likewise for `upper`. */
  lemma CaseFoldContains(s: String, p: String)
    requires Contains(s, p)
    ensures Contains(Lower(s), Lower(p)) && Contains(Upper(s), Upper(p))
  {
    var i :| 0 <= i <= |s| - |p| && OccursAt(s, p, i);
    assert Lower(s)[i..i + |p|] == Lower(p) by {
      forall k | 0 <= k < |p| ensures Lower(s)[i + k] == Lower(p)[k] {
        assert s[i + k] == p[k];
      }
    }
    assert Upper(s)[i..i + |p|] == Upper(p) by {
      forall k | 0 <= k < |p| ensures Upper(s)[i + k] == Upper(p)[k] {
        assert s[i + k] == p[k];
      }
    }
    assert OccursAt(Lower(s), Lower(p), i);
    assert OccursAt(Upper(s), Upper(p), i);
  }

  /** `s.split(sep)` for a non-empty separator. */
  function Split(s: String, sep: String): (r: seq<String>)
    requires |sep| > 0
    decreases |s|
    ensures |r| >= 1
  {
    match Find(s, sep)
    case None => [s]
    case Some(i) => [s[..i]] + Split(s[i + |sep|..], sep)
  }

  /** `s.split(sep)[0]` is the text before the first separator, or all of `s` when there is none. */
  lemma SplitHead(s: String, sep: String)
    requires |sep| > 0
    ensures var h := Split(s, sep)[0];
      && StartsWith(s, h) && !Contains(h, sep)
      && (h == s <==> !Contains(s, sep))
      && (h != s ==> OccursAt(s, sep, |h|))
  {
    var h := Split(s, sep)[0];
    match Find(s, sep)
    case None =>
      assert h == s;
    case Some(i) =>
      assert h == s[..i];
      FindFirstFree(s, sep);
  }

  /** `sep.join(parts)` */
  function Join(sep: String, parts: seq<String>): String
  {
    if parts == [] then []
    else if |parts| == 1 then parts[0]
    else parts[0] + sep + Join(sep, parts[1..])
  }

  /** Splitting and joining back with the same separator gives the original string. */
  lemma {:induction false} JoinSplit(s: String, sep: String)
    requires |sep| > 0
    ensures Join(sep, Split(s, sep)) == s
    decreases |s|
  {
    var f := Find(s, sep);
    if f.Some? {
      var i := f.value;
      var rest := s[i + |sep|..];
      var tail := Split(rest, sep);
      JoinSplit(rest, sep);
      JoinCons(s[..i], sep, tail);
      assert s[..i] + sep + rest == s by {
        assert s[i..i + |sep|] == sep;
      }
    }
  }

  lemma JoinCons(a: String, sep: String, tail: seq<String>)
    requires |tail| >= 1
    ensures Join(sep, [a] + tail) == a + sep + Join(sep, tail)
  {
    assert ([a] + tail)[1..] == tail;
  }

  /** A separator that occurs splits the text into at least two pieces. */
  lemma SplitMany(s: String, sep: String)
    requires |sep| > 0 && Contains(s, sep)
    ensures |Split(s, sep)| >= 2
  {
  }

  /** Joining all parts is joining all but the last, then the separator and the last. */
  lemma {:induction false} JoinSnoc(sep: String, parts: seq<String>)
    requires |parts| >= 2
    ensures Join(sep, parts) == Join(sep, parts[..|parts| - 1]) + sep + parts[|parts| - 1]
    decreases |parts|
  {
    var n := |parts|;
    if n > 2 {
      JoinSnoc(sep, parts[1..]);
      assert parts[1..][..n - 2] == parts[..n - 1][1..];
      assert parts[1..][n - 2] == parts[n - 1];
    } else {
      assert parts[..n - 1] == [parts[0]];
    }
  }

  /** With a one-character separator absent from `a`, the first piece is `a`. */
  lemma SplitCons(a: String, c: char, b: String)
    requires c !in a
    ensures Split(a + [c] + b, [c]) == [a] + Split(b, [c])
  {
    var s := a + [c] + b;
    assert OccursAt(s, [c], |a|);
    forall j | 0 <= j < |a| ensures !OccursAt(s, [c], j) {
      assert s[j] == a[j];
    }
    assert Find(s, [c]) == Some(|a|);
    assert s[..|a|] == a && s[|a| + 1..] == b;
  }

  /** `SplitCons` with the split of the rest already known. */
  lemma SplitPrepend(a: String, c: char, b: String, rest: seq<String>)
    requires c !in a && Split(b, [c]) == rest
    ensures Split(a + [c] + b, [c]) == [a] + rest
  {
    SplitCons(a, c, b);
  }

  /** The text before the first occurrence of `p` does not contain `p`. */
  lemma FindFirstFree(s: String, p: String)
    requires |p| > 0
    ensures Find(s, p).Some? ==> !Contains(s[..Find(s, p).value], p)
  {
    if Find(s, p).Some? && Contains(s[..Find(s, p).value], p) {
      var i := Find(s, p).value;
      var j :| 0 <= j <= |s[..i]| - |p| && OccursAt(s[..i], p, j);
      assert s[j..j + |p|] == s[..i][j..j + |p|];
      assert OccursAt(s, p, j);
      assert false;
    }
  }

  /** A separator whose first character is absent from `a` is first found right after `a`. */
  lemma FindAfter(a: String, sep: String, b: String)
    requires |sep| > 0 && sep[0] !in a
    ensures Find(a + sep + b, sep) == Some(|a|)
    ensures Split(a + sep + b, sep) == [a] + Split(b, sep)
  {
    var s := a + sep + b;
    assert OccursAt(s, sep, |a|);
    forall j | 0 <= j < |a| ensures !OccursAt(s, sep, j) {
      assert s[j] == a[j];
      if j + |sep| <= |s| {
        assert s[j..j + |sep|][0] == s[j];
      }
    }
    assert s[..|a|] == a && s[|a| + |sep|..] == b;
  }

  /** `", "` is first found right after a text that does not contain it. */
  lemma FindCommaSpace(a: String, b: String)
    requires !Contains(a, ", ")
    ensures Find(a + ", " + b, ", ") == Some(|a|)
    ensures Split(a + ", " + b, ", ") == [a] + Split(b, ", ")
  {
    var s := a + ", " + b;
    assert OccursAt(s, ", ", |a|);
    forall j | 0 <= j < |a| ensures !OccursAt(s, ", ", j) {
      if j + 2 <= |a| {
        assert s[j..j + 2] == a[j..j + 2];
        assert !OccursAt(a, ", ", j);
      } else {
        assert s[j..j + 2][1] == s[|a|] == ',';
      }
    }
    assert s[..|a|] == a && s[|a| + 2..] == b;
  }

  /** A window of a text contains only what the text contains. */
  lemma ContainsWindow(s: String, i: nat, j: nat, p: String)
    requires i <= j <= |s| && Contains(s[i..j], p)
    ensures Contains(s, p)
  {
    var w := s[i..j];
    var k :| 0 <= k <= |w| - |p| && OccursAt(w, p, k);
    forall t | 0 <= t < |p| ensures s[i + k + t] == p[t] {
      assert w[k + t] == p[t];
    }
    assert OccursAt(s, p, i + k);
  }

  /** No piece of a split contains the separator. */
  lemma {:induction false} SplitPiecesFree(s: String, sep: String)
    requires |sep| > 0
    ensures forall k :: 0 <= k < |Split(s, sep)| ==> !Contains(Split(s, sep)[k], sep)
    decreases |s|
  {
    match Find(s, sep)
    case None =>
    case Some(i) =>
      var rest := s[i + |sep|..];
      SplitPiecesFree(rest, sep);
      var r := Split(s, sep);
      assert r == [s[..i]] + Split(rest, sep);
      FindFirstFree(s, sep);
  }

  /** A string without the separator splits into itself alone. */
  lemma SplitWithout(s: String, sep: String)
    requires |sep| > 0 && !Contains(s, sep)
    ensures Split(s, sep) == [s]
  {
  }

  /** `a, b = s.split(sep)`: the two pieces, `None` where the unpacking raises (any other number of pieces). */
  function SplitPair(s: String, sep: String): (r: Option<(String, String)>)
    requires |sep| > 0
    ensures r.Some? <==> |Split(s, sep)| == 2
    ensures r.Some? ==> r.value.0 + sep + r.value.1 == s && !Contains(r.value.0, sep) && !Contains(r.value.1, sep)
  {
    var parts := Split(s, sep);
    if |parts| == 2 then
      JoinSplit(s, sep);
      SplitPiecesFree(s, sep);
      assert parts[1..] == [parts[1]];
      Some((parts[0], parts[1]))
    else None
  }

  /** A text without the separator does not unpack into two pieces. */
  lemma SplitPairAbsent(s: String, sep: String)
    requires |sep| > 0 && !Contains(s, sep)
    ensures SplitPair(s, sep) == None
  {
    SplitWithout(s, sep);
  }

  /**
   * Two sides joined by a separator whose second character neither side holds
   * (and differs from its first) unpack back into those two sides.
   */
  lemma SplitPairOf(a: String, sep: String, b: String)
    requires |sep| >= 2 && sep[1] != sep[0] && sep[1] !in a && sep[1] !in b
    ensures SplitPair(a + sep + b, sep) == Some((a, b))
  {
    var s := a + sep + b;
    assert OccursAt(s, sep, |a|);
    forall j | 0 <= j < |a| ensures !OccursAt(s, sep, j) {
      if j + |sep| <= |s| {
        assert s[j..j + |sep|][1] == s[j + 1];
        if j + 1 < |a| {
          assert s[j + 1] == a[j + 1];
        } else {
          assert s[j + 1] == sep[0];
        }
      }
    }
    assert Find(s, sep) == Some(|a|);
    assert s[..|a|] == a && s[|a| + |sep|..] == b;
    forall j | 0 <= j <= |b| - |sep| ensures !OccursAt(b, sep, j) {
      assert b[j..j + |sep|][1] == b[j + 1];
    }
    SplitWithout(b, sep);
  }

  /** `s.split(c)[-1]`: the text after the last `c`, or all of `s` when there is none. */
  function LastPiece(s: String, c: char): (r: String)
    ensures c !in r && EndsWith(s, r)
    ensures |r| < |s| ==> s[|s| - |r| - 1] == c
  {
    LastPieceShape(s, c);
    Split(s, [c])[|Split(s, [c])| - 1]
  }

  /** The last piece of a split at `c` is a `c`-free suffix that follows a `c` or is everything. */
  lemma LastPieceShape(s: String, c: char)
    ensures var parts := Split(s, [c]); var r := parts[|parts| - 1];
      c !in r && EndsWith(s, r) && (|r| < |s| ==> s[|s| - |r| - 1] == c)
  {
    var parts := Split(s, [c]);
    var n := |parts|;
    SplitPiecesFree(s, [c]);
    CharContains(parts[n - 1], c);
    JoinSplit(s, [c]);
    if n >= 2 {
      JoinSnoc([c], parts);
      var front := Join([c], parts[..n - 1]);
      assert s == front + [c] + parts[n - 1];
      assert s[|front| + 1..] == parts[n - 1];
    }
  }

  /** Whatever precedes the last `c`, the last piece is the text after it. */
  lemma LastPieceOf(prefix: String, c: char, name: String)
    requires c !in name
    ensures LastPiece(prefix + [c] + name, c) == name
  {
    var s := prefix + [c] + name;
    var r := LastPiece(s, c);
    var h := |s|;
    assert forall j :: |prefix| < j < h ==> s[j] == name[j - |prefix| - 1];
    assert forall j :: h - |r| <= j < h ==> s[j] == r[j - (h - |r|)];
    assert s[|prefix|] == c;
    assert |r| == |name|;
    assert r == s[h - |r|..] == name;
  }

  /** `s.split(sep, 1)` for a non-empty separator: one or two pieces. */
  function SplitOnce(s: String, sep: String): (r: seq<String>)
    requires |sep| > 0
    ensures 1 <= |r| <= 2
    ensures |r| == 1 <==> !Contains(s, sep)
    ensures |r| == 1 ==> r[0] == s
    ensures |r| == 2 ==> r[0] + sep + r[1] == s && !Contains(r[0], sep)
  {
    match Find(s, sep)
    case None => [s]
    case Some(i) =>
      var r := [s[..i], s[i + |sep|..]];
      assert r[0] + sep + r[1] == s;
      assert !Contains(r[0], sep) by {
        if Contains(r[0], sep) {
          var j :| 0 <= j <= |r[0]| - |sep| && OccursAt(r[0], sep, j);
          assert s[j..j + |sep|] == r[0][j..j + |sep|];
          assert OccursAt(s, sep, j);
          assert false;
        }
      }
      r
  }

  /** `s.rsplit(sep, 1)` for a non-empty separator: one or two pieces. */
  function RSplitOnce(s: String, sep: String): (r: seq<String>)
    requires |sep| > 0
    ensures 1 <= |r| <= 2
    ensures |r| == 1 <==> !Contains(s, sep)
    ensures |r| == 1 ==> r[0] == s
    ensures |r| == 2 ==> r[0] + sep + r[1] == s && !Contains(r[1], sep)
  {
    match RFind(s, sep)
    case None => [s]
    case Some(i) =>
      var r := [s[..i], s[i + |sep|..]];
      assert r[0] + sep + r[1] == s;
      assert !Contains(r[1], sep) by {
        if Contains(r[1], sep) {
          var j :| 0 <= j <= |r[1]| - |sep| && OccursAt(r[1], sep, j);
          assert s[i + |sep| + j..i + |sep| + j + |sep|] == r[1][j..j + |sep|];
          assert OccursAt(s, sep, i + |sep| + j);
          assert false;
        }
      }
      r
  }

  /** `s.replace(pat, rep)` for a non-empty `pat`: every occurrence, left to right. */
  function Replace(s: String, pat: String, rep: String): String
    requires |pat| > 0
  {
    Join(rep, Split(s, pat))
  }

  /** A text made of the pattern and then a rest free of it: the leading pattern alone is replaced. */
  lemma ReplaceLeading(pat: String, rest: String, rep: String)
    requires |pat| > 0 && !Contains(rest, pat)
    ensures Replace(pat + rest, pat, rep) == rep + rest
  {
    var s := pat + rest;
    assert s[0..|pat|] == pat;
    assert OccursAt(s, pat, 0);
    assert Find(s, pat) == Some(0);
    assert s[|pat|..] == rest && s[..0] == [];
    SplitWithout(rest, pat);
    assert Split(s, pat) == [[], rest];
    assert Join(rep, [[], rest]) == [] + rep + Join(rep, [rest]);
  }

  /** Replacing a pattern that does not occur changes nothing. */
  lemma ReplaceAbsent(s: String, pat: String, rep: String)
    requires |pat| > 0 && !Contains(s, pat)
    ensures Replace(s, pat, rep) == s
  {
    SplitWithout(s, pat);
  }

  /** Replacing a character that occurs only at the very end replaces just that one. */
  lemma ReplaceLastChar(s: String, c: char, rep: String)
    requires c !in s
    ensures Replace(s + [c], [c], rep) == s + rep
  {
    var t := s + [c];
    CharContains(s, c);
    assert OccursAt(t, [c], |s|);
    forall j | 0 <= j < |s| ensures !OccursAt(t, [c], j) {
      assert t[j] == s[j];
      assert t[j..j + 1][0] == t[j];
    }
    assert Find(t, [c]) == Some(|s|);
    assert t[..|s|] == s;
    assert t[|s| + 1..] == [];
    assert Split([], [c]) == [[]];
    JoinCons(s, rep, [[]]);
    assert s + rep + [] == s + rep;
  }

  /** The characters of `s` that satisfy `f`, in order. */
  function Filter(s: String, f: char -> bool): (r: String)
    ensures |r| <= |s|
    ensures forall i :: 0 <= i < |r| ==> f(r[i]) && r[i] in s
    ensures (forall i :: 0 <= i < |s| ==> f(s[i])) ==> r == s
  {
    if s == [] then [] else (if f(s[0]) then [s[0]] else []) + Filter(s[1..], f)
  }

  /** Filtering a concatenation filters each part. */
  lemma {:induction false} FilterConcat(a: String, b: String, f: char -> bool)
    ensures Filter(a + b, f) == Filter(a, f) + Filter(b, f)
  {
    if a == [] {
      assert a + b == b;
    } else {
      assert (a + b)[0] == a[0] && (a + b)[1..] == a[1..] + b;
      FilterConcat(a[1..], b, f);
      var h := if f(a[0]) then [a[0]] else [];
      assert Filter(a + b, f) == h + Filter(a[1..] + b, f);
      assert Filter(a, f) == h + Filter(a[1..], f);
      assert h + (Filter(a[1..], f) + Filter(b, f)) == (h + Filter(a[1..], f)) + Filter(b, f);
    }
  }

  lemma {:induction false} JoinFree(parts: seq<String>, sep: String, c: char)
    requires forall k :: 0 <= k < |parts| ==> c !in parts[k]
    requires c !in sep
    ensures c !in Join(sep, parts)
  {
    if |parts| > 1 {
      JoinFree(parts[1..], sep, c);
    }
  }

  /** A word inside one of the parts is inside their join. */
  lemma {:induction false} JoinContains(sep: String, parts: seq<String>, k: nat, w: String)
    requires k < |parts| && Contains(parts[k], w)
    ensures Contains(Join(sep, parts), w)
    decreases |parts|
  {
    if |parts| > 1 {
      var tail := Join(sep, parts[1..]);
      if k == 0 {
        ContainsInPrefix(parts[0], sep + tail, w);
        assert parts[0] + sep + tail == parts[0] + (sep + tail);
      } else {
        JoinContains(sep, parts[1..], k - 1, w);
        ContainsInPrefix(tail, parts[0] + sep, w);
      }
    }
  }

  /** A string starts with any prefix it was built from. */
  lemma StartsWithConcat(p: String, s: String)
    ensures StartsWith(p + s, p)
  {
    assert (p + s)[..|p|] == p;
  }

  lemma StartsWithExtend(s: String, p: String, t: String)
    requires StartsWith(s, p)
    ensures StartsWith(s + t, p)
  {
    assert (s + t)[..|p|] == s[..|p|];
  }

  lemma NotInConcat(c: char, a: String, b: String)
    requires c !in a && c !in b
    ensures c !in a + b
  {
  }

  lemma CharContains(s: String, c: char)
    ensures Contains(s, [c]) <==> c in s
  {
    if c in s {
      var j :| 0 <= j < |s| && s[j] == c;
      assert OccursAt(s, [c], j);
    }
    if Contains(s, [c]) {
      var j :| 0 <= j <= |s| - 1 && OccursAt(s, [c], j);
      assert s[j..j + 1][0] == s[j];
    }
  }

  /** Every character of a split's piece is a character of the text. */
  lemma SplitPieceChars(s: String, sep: String, k: nat, c: char)
    requires |sep| > 0 && k < |Split(s, sep)|
    ensures c in Split(s, sep)[k] ==> c in s
  {
    var parts := Split(s, sep);
    if c in parts[k] {
      CharContains(parts[k], c);
      JoinSplit(s, sep);
      JoinContains(sep, parts, k, [c]);
      CharContains(s, c);
    }
  }

  /** Replacing with text that lacks `c` does not bring `c` in. */
  lemma ReplaceKeepsAbsent(s: String, pat: String, rep: String, c: char)
    requires |pat| > 0 && c !in s && c !in rep
    ensures c !in Replace(s, pat, rep)
  {
    var parts := Split(s, pat);
    forall k | 0 <= k < |parts| ensures c !in parts[k] {
      SplitPieceChars(s, pat, k, c);
    }
    JoinFree(parts, rep, c);
  }

  /** Replacing a character by a string without it removes that character entirely. */
  lemma ReplaceRemovesChar(s: String, c: char, rep: String)
    requires c !in rep
    ensures c !in Replace(s, [c], rep)
  {
    var parts := Split(s, [c]);
    SplitPiecesFree(s, [c]);
    forall k | 0 <= k < |parts| ensures c !in parts[k] {
      CharContains(parts[k], c);
    }
    JoinFree(parts, rep, c);
  }

  /** The number of leading characters satisfying `f`. */
  function LeadingCount(s: String, f: char -> bool): (n: nat)
    ensures n <= |s|
    ensures forall i :: 0 <= i < n ==> f(s[i])
    ensures n < |s| ==> !f(s[n])
  {
    if |s| > 0 && f(s[0]) then 1 + LeadingCount(s[1..], f) else 0
  }

  /** The number of trailing characters satisfying `f`. */
  function TrailingCount(s: String, f: char -> bool): (n: nat)
    ensures n <= |s|
    ensures forall i :: |s| - n <= i < |s| ==> f(s[i])
    ensures n < |s| ==> !f(s[|s| - n - 1])
  {
    if |s| > 0 && f(s[|s| - 1]) then 1 + TrailingCount(s[..|s| - 1], f) else 0
  }

  /** Leading characters satisfying `f` removed. */
  function TrimLeft(s: String, f: char -> bool): String
  {
    s[LeadingCount(s, f)..]
  }

  /** Trailing characters satisfying `f` removed. */
  function TrimRight(s: String, f: char -> bool): String
  {
    s[..|s| - TrailingCount(s, f)]
  }

  /** `s.strip()` */
  function Strip(s: String): (r: String)
    ensures |r| <= |s|
    ensures |r| > 0 ==> !IsSpace(r[0]) && !IsSpace(r[|r| - 1])
  {
    TrimRight(TrimLeft(s, IsSpace), IsSpace)
  }

  /** `s.strip(chars)` */
  function StripChars(s: String, chars: set<char>): (r: String)
    ensures |r| <= |s|
    ensures |r| > 0 ==> r[0] !in chars && r[|r| - 1] !in chars
  {
    TrimRight(TrimLeft(s, c => c in chars), c => c in chars)
  }

  /** `s.lstrip(chars)` */
  function LStripChars(s: String, chars: set<char>): (r: String)
    ensures |r| <= |s| && r == s[|s| - |r|..]
    ensures |r| > 0 ==> r[0] !in chars
  {
    TrimLeft(s, c => c in chars)
  }

  /** What `strip` keeps is a window of the original text. */
  lemma StripWindow(s: String) returns (a: nat)
    ensures a + |Strip(s)| <= |s| && Strip(s) == s[a..a + |Strip(s)|]
  {
    a := LeadingCount(s, IsSpace);
  }

  /** What `strip(chars)` keeps is a window of the original text. */
  lemma StripCharsWindow(s: String, chars: set<char>) returns (a: nat)
    ensures a + |StripChars(s, chars)| <= |s| && StripChars(s, chars) == s[a..a + |StripChars(s, chars)|]
  {
    a := LeadingCount(s, c => c in chars);
  }

  /** Trimming both ends keeps one window; everything dropped satisfies `f`. */
  lemma TrimEdges(s: String, f: char -> bool) returns (a: nat, b: nat)
    ensures a <= b <= |s| && TrimRight(TrimLeft(s, f), f) == s[a..b]
    ensures forall i :: 0 <= i < a ==> f(s[i])
    ensures forall i :: b <= i < |s| ==> f(s[i])
  {
    a := LeadingCount(s, f);
    var l := s[a..];
    b := |s| - TrailingCount(l, f);
    forall i | b <= i < |s| ensures f(s[i]) {
      assert s[i] == l[i - a];
    }
  }

  /** What `strip` drops from either end is whitespace. */
  lemma StripEdges(s: String) returns (a: nat, b: nat)
    ensures a <= b <= |s| && Strip(s) == s[a..b]
    ensures forall i :: 0 <= i < a ==> IsSpace(s[i])
    ensures forall i :: b <= i < |s| ==> IsSpace(s[i])
  {
    a, b := TrimEdges(s, IsSpace);
  }

  /** What `strip(chars)` drops from either end is drawn from `chars`. */
  lemma StripCharsEdges(s: String, chars: set<char>) returns (a: nat, b: nat)
    ensures a <= b <= |s| && StripChars(s, chars) == s[a..b]
    ensures forall i :: 0 <= i < a ==> s[i] in chars
    ensures forall i :: b <= i < |s| ==> s[i] in chars
  {
    a, b := TrimEdges(s, c => c in chars);
  }

  /** `strip(chars)` followed by `strip()` keeps one window; all it drops is `chars` or whitespace. */
  lemma StripBothEdges(s: String, chars: set<char>) returns (a: nat, b: nat)
    ensures a <= b <= |s| && Strip(StripChars(s, chars)) == s[a..b]
    ensures forall i :: 0 <= i < a ==> s[i] in chars || IsSpace(s[i])
    ensures forall i :: b <= i < |s| ==> s[i] in chars || IsSpace(s[i])
  {
    var a1, b1 := StripCharsEdges(s, chars);
    var m := StripChars(s, chars);
    forall i | 0 <= i < |m| ensures m[i] == s[a1 + i] {}
    a, b := StripInside(s, m, a1, chars);
    var r := Strip(m);
    forall i | 0 <= i < |r| ensures r[i] == s[a..b][i] {}
  }

  /** The second pass of `StripBothEdges`, on the window `m` found by the first. */
  lemma StripInside(s: String, m: String, a1: nat, chars: set<char>) returns (a: nat, b: nat)
    requires a1 + |m| <= |s| && forall i :: 0 <= i < |m| ==> m[i] == s[a1 + i]
    requires forall i :: 0 <= i < a1 ==> s[i] in chars
    requires forall i :: a1 + |m| <= i < |s| ==> s[i] in chars
    ensures a1 <= a <= b <= a1 + |m| && |Strip(m)| == b - a
    ensures forall i :: 0 <= i < b - a ==> Strip(m)[i] == s[a + i]
    ensures forall i :: 0 <= i < a ==> s[i] in chars || IsSpace(s[i])
    ensures forall i :: b <= i < |s| ==> s[i] in chars || IsSpace(s[i])
  {
    var a2, b2 := StripEdges(m);
    a, b := a1 + a2, a1 + b2;
    forall i | 0 <= i < b - a ensures Strip(m)[i] == s[a + i] {
      assert Strip(m)[i] == m[a2 + i];
    }
    forall i | a1 <= i < a ensures IsSpace(s[i]) {
      assert s[i] == m[i - a1];
    }
    forall i | b <= i < a1 + |m| ensures IsSpace(s[i]) {
      assert s[i] == m[i - a1];
    }
  }

  /** Stripping cannot create an occurrence. */
  lemma StripAbsent(s: String, p: String)
    requires !Contains(s, p)
    ensures !Contains(Strip(s), p)
  {
    var a := StripWindow(s);
    if Contains(Strip(s), p) {
      ContainsWindow(s, a, a + |Strip(s)|, p);
    }
  }

  /** Text that neither starts nor ends with one of `chars` is left alone by `strip(chars)`. */
  lemma StripCharsUnchanged(s: String, chars: set<char>)
    requires |s| > 0 ==> s[0] !in chars && s[|s| - 1] !in chars
    ensures StripChars(s, chars) == s
  {
    var f := c => c in chars;
    assert LeadingCount(s, f) == 0;
    assert TrailingCount(s, f) == 0;
  }

  /** Text that neither starts nor ends with whitespace is left alone by `strip()`. */
  lemma StripNoEdgeSpace(s: String)
    requires |s| > 0 ==> !IsSpace(s[0]) && !IsSpace(s[|s| - 1])
    ensures Strip(s) == s
  {
    assert LeadingCount(s, IsSpace) == 0;
    assert TrailingCount(s, IsSpace) == 0;
  }

  lemma StripIdempotent(s: String)
    ensures Strip(Strip(s)) == Strip(s)
  {
    var a := TrimLeft(s, IsSpace);
    var b := TrimRight(a, IsSpace);
    assert LeadingCount(b, IsSpace) == 0;
    assert TrailingCount(b, IsSpace) == 0;
  }

  /** The length of the run of whitespace starting `s`. */
  function SpaceRun(s: String): (n: nat)
    ensures n <= |s|
    ensures forall i :: 0 <= i < n ==> IsSpace(s[i])
    ensures n < |s| ==> !IsSpace(s[n])
  {
    if |s| > 0 && IsSpace(s[0]) then 1 + SpaceRun(s[1..]) else 0
  }

  /** `re.sub(r"\s+", " ", s)`: every maximal run of whitespace becomes one space. */
  function CollapseSpaces(s: String): (r: String)
    decreases |s|
    ensures |r| <= |s|
  {
    if s == [] then []
    else if IsSpace(s[0]) then " " + CollapseSpaces(s[SpaceRun(s)..])
    else [s[0]] + CollapseSpaces(s[1..])
  }

  /** No whitespace other than single spaces, and never two spaces in a row. */
  predicate SpacesCollapsed(s: String)
  {
    (forall i :: 0 <= i < |s| && IsSpace(s[i]) ==> s[i] == ' ') &&
    (forall i :: 0 <= i < |s| - 1 ==> !(s[i] == ' ' && s[i + 1] == ' '))
  }

  lemma {:induction false} CollapseSpacesHead(s: String)
    ensures |CollapseSpaces(s)| > 0 ==> (CollapseSpaces(s)[0] == ' ' <==> |s| > 0 && IsSpace(s[0]))
    decreases |s|
  {
  }

  /** After collapsing, whitespace only appears as single spaces. */
  lemma {:induction false} CollapseSpacesCollapsed(s: String)
    ensures SpacesCollapsed(CollapseSpaces(s))
    decreases |s|
  {
    if s == [] {
    } else if IsSpace(s[0]) {
      var t := s[SpaceRun(s)..];
      CollapseSpacesCollapsed(t);
      CollapseSpacesHead(t);
    } else {
      CollapseSpacesCollapsed(s[1..]);
    }
  }

  /** Whitespace-free strings are left alone. */
  lemma {:induction false} CollapseSpacesNoSpace(s: String)
    requires forall i :: 0 <= i < |s| ==> !IsSpace(s[i])
    ensures CollapseSpaces(s) == s
    decreases |s|
  {
    if s != [] { CollapseSpacesNoSpace(s[1..]); }
  }

  lemma SpacesCollapsedSlice(s: String, a: nat, b: nat)
    requires a <= b <= |s| && SpacesCollapsed(s)
    ensures SpacesCollapsed(s[a..b])
  {
    var t := s[a..b];
    assert forall i :: 0 <= i < |t| ==> t[i] == s[a + i];
  }

  /** `re.sub(r"\s+", " ", s).strip()`: collapse then strip. */
  function NormalizeSpace(s: String): (r: String)
    ensures SpacesCollapsed(r)
    ensures |r| > 0 ==> r[0] != ' ' && r[|r| - 1] != ' '
  {
    var c := CollapseSpaces(s);
    CollapseSpacesCollapsed(s);
    var n := LeadingCount(c, IsSpace);
    var m := TrailingCount(c[n..], IsSpace);
    SpacesCollapsedSlice(c, n, |c| - m);
    assert Strip(c) == c[n..][..|c| - n - m] == c[n..|c| - m];
    Strip(c)
  }

  /** The maximal runs of non-whitespace characters of `s`, which is `s.split()`. */
  function Words(s: String): (r: seq<String>)
    decreases |s|
    ensures forall k :: 0 <= k < |r| ==> |r[k]| > 0
  {
    var n := SpaceRun(s);
    if n == |s| then []
    else
      var t := s[n..];
      var m := WordRun(t);
      [t[..m]] + Words(t[m..])
  }

  /** The length of the run of non-whitespace characters starting `s`. */
  function WordRun(s: String): (n: nat)
    ensures n <= |s|
    ensures |s| > 0 && !IsSpace(s[0]) ==> n > 0
    ensures forall i :: 0 <= i < n ==> !IsSpace(s[i])
    ensures n < |s| ==> IsSpace(s[n])
  {
    if |s| > 0 && !IsSpace(s[0]) then 1 + WordRun(s[1..]) else 0
  }

  /**
   * `s.title()` on ASCII: a letter is upper-cased when the character before it
   * is not a letter (or it starts the string) and lower-cased otherwise.
   */
  function Title(s: String): (r: String)
    ensures |r| == |s|
    ensures |s| > 0 ==> r[0] == UpperChar(s[0])
    ensures forall i :: 0 < i < |s| ==> r[i] == (if IsAlpha(s[i - 1]) then LowerChar(s[i]) else UpperChar(s[i]))
  {
    seq(|s|, i requires 0 <= i < |s| =>
      if i > 0 && IsAlpha(s[i - 1]) then LowerChar(s[i]) else UpperChar(s[i]))
  }

  /** Python slicing `s[a:b]` with negative indexes counted from the end and out-of-range ends clamped. */
  function PySlice(s: String, a: int, b: int): (r: String)
    ensures |r| <= |s|
  {
    var lo := Clamp(if a < 0 then |s| + a else a, |s|);
    var hi := Clamp(if b < 0 then |s| + b else b, |s|);
    if lo < hi then s[lo..hi] else []
  }

  function Clamp(i: int, n: nat): (r: nat)
    ensures r <= n
  {
    if i < 0 then 0 else if i > n then n else i
  }

  /** Python `s[:k]` on a list or a string. */
  function PyPrefix<T>(s: seq<T>, k: int): (r: seq<T>)
    ensures |r| <= |s|
    ensures r == s[..|r|]
    ensures 0 <= k ==> |r| == if k < |s| then k else |s|
    ensures k < 0 ==> |r| == if |s| + k < 0 then 0 else |s| + k
  {
    var hi := if k < 0 then |s| + k else k;
    s[..Clamp(hi, |s|)]
  }
}
