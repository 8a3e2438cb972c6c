/**
 * Python `re` for the patterns the scrapers use: a concatenation of character
 * classes, each repeated between `lo` and `hi` times (`hi == None` for `*` and `+`).
 * Repetition is greedy and backtracks one character at a time, which is the
 * order in which Python's matcher tries the alternatives; the first combination
 * that lets the rest of the pattern match wins. Flags such as `re.I` are folded
 * into the classes.
 */
module Regex {
  import opened Wrappers
  import opened Text

  datatype Item = Item(cls: char -> bool, lo: nat, hi: Option<nat>)

  type Pattern = seq<Item>

  /** `c` with neither bound: exactly one character of the class. */
  function One(cls: char -> bool): Item { Item(cls, 1, Some(1)) }
  /** `c+` */
  function Plus(cls: char -> bool): Item { Item(cls, 1, None) }
  /** `c*` */
  function Star(cls: char -> bool): Item { Item(cls, 0, None) }
  /** `c?` */
  function Opt(cls: char -> bool): Item { Item(cls, 0, Some(1)) }
  /** `c{lo,hi}` */
  function Rep(cls: char -> bool, lo: nat, hi: nat): Item { Item(cls, lo, Some(hi)) }
  /** A literal string, one item per character. */
  function Lits(p: String): (r: Pattern)
    ensures |r| == |p|
  {
    if p == [] then [] else [One(c => c == p[0])] + Lits(p[1..])
  }

  /** A literal under `re.IGNORECASE`: each character matches itself in either case. */
  function LitsI(w: String): (r: Pattern)
    ensures |r| == |w| && Singles(r)
    ensures forall k, c :: 0 <= k < |w| ==> (r[k].cls(c) <==> LowerChar(c) == LowerChar(w[k]))
  {
    if w == [] then [] else [One(c => LowerChar(c) == LowerChar(w[0]))] + LitsI(w[1..])
  }

  /** Every item matches exactly one character. */
  predicate Singles(p: Pattern)
  {
    forall k :: 0 <= k < |p| ==> p[k].lo == 1 && p[k].hi == Some(1)
  }

  /** The `k`-th character from `i` is in the `k`-th item's class, for every item. */
  predicate ClassesAt(p: Pattern, s: String, i: nat)
  {
    i + |p| <= |s| && forall k :: 0 <= k < |p| ==> p[k].cls(s[i + k])
  }

  predicate Within(it: Item, n: nat)
  {
    it.lo <= n && (it.hi.None? || n <= it.hi.value)
  }

  /** Every character of `s[i..j]` is in the class. */
  predicate AllIn(cls: char -> bool, s: String, i: nat, j: nat)
    requires i <= j <= |s|
  {
    forall k :: i <= k < j ==> cls(s[k])
  }

  /**
   * `ends` splits `s[i..]` into consecutive pieces, the k-th matching the k-th item;
   * `ends[k]` is where the k-th piece ends.
   */
  predicate Fits(p: Pattern, s: String, i: nat, ends: seq<nat>)
    decreases |p|
  {
    |ends| == |p| && i <= |s| &&
    (p != [] ==>
      i <= ends[0] <= |s| && Within(p[0], ends[0] - i) && AllIn(p[0].cls, s, i, ends[0]) &&
      Fits(p[1..], s, ends[0], ends[1..]))
  }

  /** The longest run of class characters from `i`, capped at `hi`. */
  function Run(it: Item, s: String, i: nat): (n: nat)
    requires i <= |s|
    decreases |s| - i
    ensures i + n <= |s| && AllIn(it.cls, s, i, i + n)
    ensures it.hi.None? || n <= it.hi.value
    ensures i + n < |s| && (it.hi.None? || n < it.hi.value) ==> !it.cls(s[i + n])
  {
    if i == |s| || !it.cls(s[i]) || it.hi == Some(0) then 0
    else
      var rest := Run(Item(it.cls, it.lo, if it.hi.None? then None else Some(it.hi.value - 1)), s, i + 1);
      1 + rest
  }

  /** The ends never go backwards and lie between `i` and `n`. */
  predicate Ordered(i: nat, ends: seq<nat>, n: nat)
  {
    (forall k :: 0 <= k < |ends| ==> i <= ends[k] <= n) &&
    (forall k :: 0 < k < |ends| ==> ends[k - 1] <= ends[k])
  }

  /** The pieces Python's matcher settles on when the pattern matches at `i`, or `None`. */
  function MatchFrom(p: Pattern, s: String, i: nat): (r: Option<seq<nat>>)
    requires i <= |s|
    decreases |p|, 1, 0
    ensures r.Some? ==> Ordered(i, r.value, |s|) && |r.value| == |p|
  {
    if p == [] then Some([]) else Try(p, s, i, Run(p[0], s, i))
  }

  /** Try the first item with `c` characters, then fewer, down to its minimum. */
  function Try(p: Pattern, s: String, i: nat, c: nat): (r: Option<seq<nat>>)
    requires p != [] && i + c <= |s|
    decreases |p|, 0, c
    ensures r.Some? ==> Ordered(i, r.value, |s|) && |r.value| == |p|
  {
    if c < p[0].lo then None
    else match MatchFrom(p[1..], s, i + c)
      case Some(ends) => Some([i + c] + ends)
      case None => if c == 0 then None else Try(p, s, i, c - 1)
  }

  /** `re.search`: the leftmost start at or after `from` where the pattern matches. */
  function SearchFrom(p: Pattern, s: String, from: nat): (r: Option<(nat, seq<nat>)>)
    requires from <= |s|
    decreases |s| - from
    ensures r.Some? ==> from <= r.value.0 <= |s| && Ordered(r.value.0, r.value.1, |s|) && |r.value.1| == |p|
  {
    match MatchFrom(p, s, from)
    case Some(ends) => Some((from, ends))
    case None => if from == |s| then None else SearchFrom(p, s, from + 1)
  }

  function Search(p: Pattern, s: String): (r: Option<(nat, seq<nat>)>)
    ensures r.Some? ==> r.value.0 <= |s| && Ordered(r.value.0, r.value.1, |s|) && |r.value.1| == |p|
  {
    SearchFrom(p, s, 0)
  }

  /** The end of the whole match. */
  function MatchEnd(start: nat, ends: seq<nat>): nat
  {
    if ends == [] then start else ends[|ends| - 1]
  }

  /** `m.group()`: the text of the whole match. */
  function Group(s: String, m: (nat, seq<nat>)): (r: String)
    requires m.0 <= |s| && Ordered(m.0, m.1, |s|)
  {
    s[m.0..MatchEnd(m.0, m.1)]
  }

  /** `m.group(k)` for the group spanning items `a` to `b - 1`. */
  function Span(s: String, m: (nat, seq<nat>), a: nat, b: nat): (r: String)
    requires a < b <= |m.1| && m.0 <= |s| && Ordered(m.0, m.1, |s|)
  {
    var lo := if a == 0 then m.0 else m.1[a - 1];
    OrderedApart(m.0, m.1, |s|, a - 1, b - 1);
    s[lo..m.1[b - 1]]
  }

  lemma OrderedApart(i: nat, ends: seq<nat>, n: nat, j: int, k: nat)
    requires Ordered(i, ends, n) && -1 <= j < k < |ends|
    ensures (if j < 0 then i else ends[j]) <= ends[k]
    decreases k - j
  {
    if 0 <= j && j + 1 < k { OrderedApart(i, ends, n, j + 1, k); }
  }

  /** `re.match`: the pattern at the very start of the text. */
  function MatchStart(p: Pattern, s: String): (r: Option<(nat, seq<nat>)>)
    ensures r.Some? ==> r.value.0 == 0 && Ordered(0, r.value.1, |s|) && |r.value.1| == |p|
  {
    match MatchFrom(p, s, 0)
    case Some(ends) => Some((0, ends))
    case None => None
  }

  /** `re.sub(pattern, rep, s[from..])`: every non-overlapping match, leftmost first, replaced. */
  function SubFrom(p: Pattern, s: String, rep: String, from: nat): String
    requires from <= |s|
    decreases |s| - from
  {
    match SearchFrom(p, s, from)
    case None => s[from..]
    case Some(m) =>
      var e := MatchEnd(m.0, m.1);
      if e > m.0 then s[from..m.0] + rep + SubFrom(p, s, rep, e)
      else if m.0 == |s| then s[from..] + rep
      else s[from..m.0] + rep + [s[m.0]] + SubFrom(p, s, rep, m.0 + 1)
  }

  function Sub(p: Pattern, s: String, rep: String): String
  {
    SubFrom(p, s, rep, 0)
  }

  // ---- What the matcher returns is a genuine match ----

  lemma {:induction false} MatchFromFits(p: Pattern, s: String, i: nat)
    requires i <= |s| && MatchFrom(p, s, i).Some?
    ensures Fits(p, s, i, MatchFrom(p, s, i).value)
    decreases |p|, 1, 0
  {
    if p != [] { TryFits(p, s, i, Run(p[0], s, i)); }
  }

  lemma {:induction false} TryFits(p: Pattern, s: String, i: nat, c: nat)
    requires p != [] && i + c <= |s| && c <= Run(p[0], s, i) && Try(p, s, i, c).Some?
    ensures Fits(p, s, i, Try(p, s, i, c).value)
    decreases |p|, 0, c
  {
    match MatchFrom(p[1..], s, i + c)
    case Some(ends) =>
      MatchFromFits(p[1..], s, i + c);
      var r := [i + c] + ends;
      assert r[1..] == ends;
      assert AllIn(p[0].cls, s, i, i + c);
    case None =>
      TryFits(p, s, i, c - 1);
  }

  // ---- ... and whenever some split fits, the matcher finds one ----

  lemma {:induction false} MatchFromComplete(p: Pattern, s: String, i: nat, ends: seq<nat>)
    requires i <= |s| && Fits(p, s, i, ends)
    ensures MatchFrom(p, s, i).Some?
    decreases |p|, 1, 0
  {
    if p != [] {
      TryComplete(p, s, i, Run(p[0], s, i), ends);
    }
  }

  lemma {:induction false} TryComplete(p: Pattern, s: String, i: nat, c: nat, ends: seq<nat>)
    requires p != [] && i + c <= |s| && Fits(p, s, i, ends) && ends[0] - i <= c
    ensures Try(p, s, i, c).Some?
    decreases |p|, 0, c
  {
    if MatchFrom(p[1..], s, i + c).None? {
      if c == ends[0] - i {
        MatchFromComplete(p[1..], s, ends[0], ends[1..]);
      } else {
        TryComplete(p, s, i, c - 1, ends);
      }
    }
  }

  /** The matcher succeeds at `i` exactly when some split of the text fits the pattern there. */
  lemma MatchFromIff(p: Pattern, s: String, i: nat)
    requires i <= |s|
    ensures MatchFrom(p, s, i).Some? <==> exists ends :: Fits(p, s, i, ends)
  {
    if MatchFrom(p, s, i).Some? {
      MatchFromFits(p, s, i);
      var e: seq<nat> := MatchFrom(p, s, i).value;
      assert Fits(p, s, i, e);
      assert exists ends: seq<nat> :: Fits(p, s, i, ends);
    } else {
      forall ends | Fits(p, s, i, ends) ensures false {
        MatchFromComplete(p, s, i, ends);
      }
    }
  }

  /** `re.search` returns the leftmost position where the pattern fits at all. */
  lemma {:induction false} SearchFromLeftmost(p: Pattern, s: String, from: nat)
    requires from <= |s|
    ensures SearchFrom(p, s, from).Some? ==>
      var m := SearchFrom(p, s, from).value;
      from <= m.0 <= |s| && Fits(p, s, m.0, m.1) &&
      forall j: nat, ends: seq<nat> :: from <= j < m.0 && Fits(p, s, j, ends) ==> false
    ensures SearchFrom(p, s, from).None? ==> forall j: nat, ends: seq<nat> :: from <= j <= |s| ==> !Fits(p, s, j, ends)
    decreases |s| - from
  {
    if MatchFrom(p, s, from).Some? {
      MatchFromFits(p, s, from);
    } else {
      forall ends | Fits(p, s, from, ends) ensures false { MatchFromComplete(p, s, from, ends); }
      if from < |s| { SearchFromLeftmost(p, s, from + 1); }
    }
  }

  /** No start position from `from` on admits a fit. */
  ghost predicate NoFitFrom(p: Pattern, s: String, from: nat)
  {
    forall j: nat, ends: seq<nat> :: from <= j <= |s| ==> !Fits(p, s, j, ends)
  }

  lemma SearchLeftmost(p: Pattern, s: String)
    ensures Search(p, s).Some? ==>
      var m := Search(p, s).value;
      m.0 <= |s| && Fits(p, s, m.0, m.1) &&
      forall j: nat, ends: seq<nat> :: 0 <= j < m.0 && Fits(p, s, j, ends) ==> false
    ensures Search(p, s).None? <==> NoFitFrom(p, s, 0)
  {
    SearchFromLeftmost(p, s, 0);
    if Search(p, s).Some? {
      var m := Search(p, s).value;
      var k: nat, e: seq<nat> := m.0, m.1;
      assert 0 <= k <= |s| && Fits(p, s, k, e);
    }
  }

  // ---- Fixed-width prefixes ----

  /** A run of single-character items matches exactly when each character is in its class, and then the rest must match after them. */
  lemma {:induction false} SinglesThen(p: Pattern, q: Pattern, s: String, i: nat)
    requires i <= |s| && Singles(p)
    ensures MatchFrom(p + q, s, i).Some? <==> ClassesAt(p, s, i) && MatchFrom(q, s, i + |p|).Some?
    decreases |p|
  {
    if p == [] {
      assert p + q == q;
    } else {
      var pq := p + q;
      assert pq[0] == p[0] && pq[1..] == p[1..] + q;
      assert Singles(p[1..]);
      if i < |s| && p[0].cls(s[i]) {
        SingleRun(p[0], s, i);
        assert MatchFrom(pq, s, i) == Try(pq, s, i, 1);
        assert Try(pq, s, i, 0) == None;
        assert MatchFrom(pq, s, i).Some? <==> MatchFrom(pq[1..], s, i + 1).Some?;
        SinglesThen(p[1..], q, s, i + 1);
        assert ClassesAt(p, s, i) <==> ClassesAt(p[1..], s, i + 1) by {
          if ClassesAt(p[1..], s, i + 1) {
            forall k | 0 <= k < |p| ensures p[k].cls(s[i + k]) {
              if k > 0 { assert p[1..][k - 1] == p[k]; }
            }
          }
          if ClassesAt(p, s, i) {
            forall k | 0 <= k < |p[1..]| ensures p[1..][k].cls(s[i + 1 + k]) {
              assert p[1..][k] == p[k + 1];
            }
          }
        }
      } else {
        SingleRun(p[0], s, i);
      }
    }
  }

  /** A fit of single-character items covers exactly one character per item, each in its class. */
  lemma {:induction false} SinglesFits(p: Pattern, s: String, i: nat, ends: seq<nat>)
    requires Singles(p) && Fits(p, s, i, ends)
    ensures ClassesAt(p, s, i) && MatchEnd(i, ends) == i + |p|
    decreases |p|
  {
    if p != [] {
      assert Singles(p[1..]) by {
        forall k | 0 <= k < |p[1..]| ensures p[1..][k].lo == 1 && p[1..][k].hi == Some(1) {
          assert p[1..][k] == p[k + 1];
        }
      }
      SinglesFits(p[1..], s, ends[0], ends[1..]);
      assert ends[0] == i + 1;
      forall k | 0 <= k < |p| ensures p[k].cls(s[i + k]) {
        if k > 0 { assert p[1..][k - 1] == p[k]; }
      }
      if |ends| > 1 {
        assert ends[1..][|ends[1..]| - 1] == ends[|ends| - 1];
      }
    }
  }

  /** A fit whose first item needs a character starts with a character of that item's class. */
  lemma FitFirst(p: Pattern, s: String, i: nat, ends: seq<nat>)
    requires p != [] && Fits(p, s, i, ends) && p[0].lo >= 1
    ensures i < ends[0] <= |s| && p[0].cls(s[i])
  {
  }

  /** A fit whose last item needs a character ends with a character of that item's class. */
  lemma {:induction false} FitLast(p: Pattern, s: String, i: nat, ends: seq<nat>)
    requires p != [] && Fits(p, s, i, ends) && p[|p| - 1].lo >= 1
    ensures i < MatchEnd(i, ends) <= |s| && p[|p| - 1].cls(s[MatchEnd(i, ends) - 1])
    decreases |p|
  {
    if |p| == 1 {
      assert AllIn(p[0].cls, s, i, ends[0]);
    } else {
      assert p[1..][|p| - 2] == p[|p| - 1];
      FitLast(p[1..], s, ends[0], ends[1..]);
      assert ends[1..][|ends| - 2] == ends[|ends| - 1];
    }
  }

  /** The greedy first choice succeeds when the rest of the pattern matches after the longest run. */
  lemma GreedyStep(p: Pattern, s: String, i: nat, ends: seq<nat>)
    requires p != [] && i <= |s| && Run(p[0], s, i) >= p[0].lo
    requires MatchFrom(p[1..], s, i + Run(p[0], s, i)) == Some(ends)
    ensures MatchFrom(p, s, i) == Some([i + Run(p[0], s, i)] + ends)
  {
  }

  /** The run is `n` long when `n` class characters follow `i` and the next one ends it or the cap is reached. */
  lemma {:induction false} RunExact(it: Item, s: String, i: nat, n: nat)
    requires i + n <= |s| && AllIn(it.cls, s, i, i + n)
    requires it.hi.None? || n <= it.hi.value
    requires i + n < |s| && (it.hi.None? || n < it.hi.value) ==> !it.cls(s[i + n])
    ensures Run(it, s, i) == n
    decreases n
  {
    if n > 0 {
      var next := Item(it.cls, it.lo, if it.hi.None? then None else Some(it.hi.value - 1));
      RunExact(next, s, i + 1, n - 1);
    }
  }

  /** A single-character item runs over one character when it is in the class, and none otherwise. */
  lemma SingleRun(it: Item, s: String, i: nat)
    requires i <= |s| && it.lo == 1 && it.hi == Some(1)
    ensures Run(it, s, i) == if i < |s| && it.cls(s[i]) then 1 else 0
  {
    if i < |s| && it.cls(s[i]) {
      assert Run(Item(it.cls, it.lo, Some(0)), s, i + 1) == 0;
    }
  }

  /** `\d{1,2}` at the end of a pattern: one digit is enough for a match. */
  lemma DigitsTail(s: String, j: nat)
    requires j <= |s|
    ensures MatchFrom([Rep(IsDigit, 1, 2)], s, j).Some? <==> j < |s| && IsDigit(s[j])
  {
    var p := [Rep(IsDigit, 1, 2)];
    assert p[1..] == [];
    if j < |s| && IsDigit(s[j]) {
      var n := Run(p[0], s, j);
      assert n >= 1;
      assert MatchFrom(p[1..], s, j + n) == Some([]);
      assert Try(p, s, j, n).Some?;
    } else {
      assert Run(p[0], s, j) == 0;
    }
  }

  /** A case-insensitive literal fits at `i` exactly when the text there is the word in some mix of cases. */
  lemma LitsIAt(w: String, s: String, i: nat)
    ensures ClassesAt(LitsI(w), s, i) <==> i + |w| <= |s| && forall k :: 0 <= k < |w| ==> LowerChar(s[i + k]) == LowerChar(w[k])
  {
    var p := LitsI(w);
    if i + |w| <= |s| {
      forall k | 0 <= k < |w| ensures p[k].cls(s[i + k]) <==> LowerChar(s[i + k]) == LowerChar(w[k]) {
      }
    }
  }
}
