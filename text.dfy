/** String primitives the normaliser relies on: ECMAScript `String.prototype.trim`
    (over its whitespace set), `toLowerCase` (ASCII letters only), `split(",")`
    and `includes` on strings (substring search). */
module Text {

  /** The ECMAScript WhiteSpace and LineTerminator code points that `trim` removes:
      TAB, LF, VT, FF, CR, SPACE, NBSP, OGHAM SPACE MARK, U+2000..U+200A,
      LINE and PARAGRAPH SEPARATOR, NARROW NBSP, MEDIUM MATHEMATICAL SPACE,
      IDEOGRAPHIC SPACE and the byte-order mark. */
  predicate IsSpace(c: char) {
    var n := c as int;
    (9 <= n <= 13) || n == 0x20 || n == 0xA0 || n == 0x1680
    || (0x2000 <= n <= 0x200A) || n == 0x2028 || n == 0x2029
    || n == 0x202F || n == 0x205F || n == 0x3000 || n == 0xFEFF
  }

  predicate IsUpper(c: char) { 'A' <= c <= 'Z' }

  function LowerChar(c: char): (d: char)
    ensures !IsUpper(d)
    ensures IsSpace(d) == IsSpace(c)
    ensures d == c <==> !IsUpper(c)
  {
    if IsUpper(c) then (c as int + 32) as char else c
  }

  /** No upper-case letter anywhere in `s`. */
  predicate IsLower(s: string) {
    forall i :: 0 <= i < |s| ==> !IsUpper(s[i])
  }

  /** No whitespace at either end of `s`. */
  predicate IsTrimmed(s: string) {
    s == [] || (!IsSpace(s[0]) && !IsSpace(s[|s| - 1]))
  }

  predicate AllSpace(s: string) {
    forall i :: 0 <= i < |s| ==> IsSpace(s[i])
  }

  /** `toLowerCase`, restricted to the ASCII letters. */
  function ToLower(s: string): (r: string)
    ensures |r| == |s| && IsLower(r)
    ensures forall i :: 0 <= i < |s| ==> (r[i] == s[i] <==> !IsUpper(s[i]))
    ensures forall i :: 0 <= i < |s| ==> IsSpace(r[i]) == IsSpace(s[i])
  {
    seq(|s|, i requires 0 <= i < |s| => LowerChar(s[i]))
  }

  lemma ToLowerOfLower(s: string)
    requires IsLower(s)
    ensures ToLower(s) == s
  {
  }

  /** The first offset at or after `i` that does not hold whitespace (or `|s|`). */
  function Start(s: string, i: nat): (r: nat)
    requires i <= |s|
    ensures i <= r <= |s|
    ensures forall k :: i <= k < r ==> IsSpace(s[k])
    ensures r == |s| || !IsSpace(s[r])
    decreases |s| - i
  {
    if i < |s| && IsSpace(s[i]) then Start(s, i + 1) else i
  }

  /** The end of `s[lo..j]` once its trailing whitespace is dropped. */
  function End(s: string, lo: nat, j: nat): (r: nat)
    requires lo <= j <= |s|
    ensures lo <= r <= j
    ensures forall k :: r <= k < j ==> IsSpace(s[k])
    ensures r == lo || !IsSpace(s[r - 1])
    decreases j
  {
    if j > lo && IsSpace(s[j - 1]) then End(s, lo, j - 1) else j
  }

  /** `trim`: the slice of `s` left once the whitespace at both ends is removed;
      everything cut off is whitespace. */
  function Trim(s: string): (r: string)
    ensures IsTrimmed(r)
    ensures var i := Start(s, 0);
      && i + |r| <= |s| && r == s[i..i + |r|]
      && (forall k :: 0 <= k < i ==> IsSpace(s[k]))
      && (forall k :: i + |r| <= k < |s| ==> IsSpace(s[k]))
  {
    var i := Start(s, 0);
    s[i..End(s, i, |s|)]
  }

  /** `Start` stops exactly at the first offset without whitespace. */
  lemma {:induction false} StartAt(s: string, i: nat, m: nat)
    requires i <= m <= |s|
    requires forall k :: i <= k < m ==> IsSpace(s[k])
    requires m == |s| || !IsSpace(s[m])
    ensures Start(s, i) == m
    decreases m - i
  {
    if i < m {
      StartAt(s, i + 1, m);
    }
  }

  /** `End` stops exactly after the last character without whitespace. */
  lemma {:induction false} EndAt(s: string, lo: nat, j: nat, m: nat)
    requires lo <= m <= j <= |s|
    requires forall k :: m <= k < j ==> IsSpace(s[k])
    requires m == lo || !IsSpace(s[m - 1])
    ensures End(s, lo, j) == m
    decreases j
  {
    if m < j {
      EndAt(s, lo, j - 1, m);
    }
  }

  /** Trimming `lead + w + trail` gives back `w` whenever the padding is all
      whitespace and `w` has none at its ends. */
  lemma TrimPadded(lead: string, w: string, trail: string)
    requires AllSpace(lead) && AllSpace(trail) && IsTrimmed(w)
    ensures Trim(lead + w + trail) == w
  {
    var s := lead + w + trail;
    var n := |lead|;
    if w == [] {
      StartAt(s, 0, |s|);
      EndAt(s, |s|, |s|, |s|);
    } else {
      assert s[n] == w[0];
      StartAt(s, 0, n);
      assert s[n + |w| - 1] == w[|w| - 1];
      EndAt(s, n, |s|, n + |w|);
      assert s[n..n + |w|] == w;
    }
  }

  /** A trimmed string is a fixpoint of `trim`, so `trim` is idempotent. */
  lemma TrimOfTrimmed(s: string)
    requires IsTrimmed(s)
    ensures Trim(s) == s
  {
    TrimPadded("", s, "");
    assert "" + s + "" == s;
  }

  /** Lower-casing and trimming commute: `s.toLowerCase().trim()` (the scalar
      normaliser) and `x.trim().toLowerCase()` (the list normaliser) agree. */
  lemma LowerTrimCommute(s: string)
    ensures Trim(ToLower(s)) == ToLower(Trim(s))
  {
    var i := Start(s, 0);
    var j := End(s, i, |s|);
    LowerKeepsBounds(s, i, j);
    ToLowerSlice(s, i, j);
  }

  /** Lower-casing moves no whitespace, so both trim bounds stay put. */
  lemma LowerKeepsBounds(s: string, i: nat, j: nat)
    requires i == Start(s, 0) && j == End(s, i, |s|)
    ensures Start(ToLower(s), 0) == i && End(ToLower(s), i, |s|) == j
  {
    var l := ToLower(s);
    assert forall k :: 0 <= k < |s| ==> IsSpace(l[k]) == IsSpace(s[k]);
    StartAt(l, 0, i);
    EndAt(l, i, |l|, j);
  }

  lemma ToLowerSlice(s: string, i: nat, j: nat)
    requires i <= j <= |s|
    ensures ToLower(s)[i..j] == ToLower(s[i..j])
  {
    var a := ToLower(s)[i..j];
    var b := ToLower(s[i..j]);
    forall k | 0 <= k < |a| ensures a[k] == b[k] {
      assert a[k] == ToLower(s)[i + k];
    }
  }

  /** Concatenation is associative (stated over any element type, so that the
      solver need not look inside the elements). */
  lemma AppendAssoc<T>(x: seq<T>, y: seq<T>, z: seq<T>)
    ensures x + (y + z) == (x + y) + z
  {
  }

  /** The inverse of `split(",")`: the pieces glued back with commas. */
  function Join(ps: seq<string>): string
  {
    if |ps| == 0 then ""
    else if |ps| == 1 then ps[0]
    else ps[0] + "," + Join(ps[1..])
  }

  /** `split(",")`: never empty (`"".split(",")` is `[""]`), no piece holds a
      comma, and joining the pieces gives back the input. */
  function Split(s: string): (r: seq<string>)
    ensures |r| >= 1
    ensures forall i :: 0 <= i < |r| ==> ',' !in r[i]
    ensures Join(r) == s
    decreases |s|
  {
    if |s| == 0 then [""]
    else if s[0] == ',' then
      var t := Split(s[1..]);
      assert Join([""] + t) == "," + Join(t) by {
        assert ([""] + t)[1..] == t;
      }
      [""] + t
    else
      var t := Split(s[1..]);
      var r := [[s[0]] + t[0]] + t[1..];
      assert r[1..] == t[1..];
      r
  }

  /** A comma-free string is a single piece. */
  lemma {:induction false} SplitNoComma(s: string)
    requires ',' !in s
    ensures Split(s) == [s]
    decreases |s|
  {
    if |s| > 0 {
      SplitNoComma(s[1..]);
      assert [s[0]] + s[1..] == s;
    }
  }

  /** Splitting distributes over a separating comma. */
  lemma {:induction false} SplitAppend(a: string, b: string)
    ensures Split(a + "," + b) == Split(a) + Split(b)
    decreases |a|
  {
    var s := a + "," + b;
    if |a| == 0 {
      assert s == "," + b;
      assert s[1..] == b;
    } else {
      assert s[0] == a[0];
      assert s[1..] == a[1..] + "," + b;
      SplitAppend(a[1..], b);
    }
  }

  /** Split undoes Join on comma-free pieces. */
  lemma {:induction false} SplitJoin(ps: seq<string>)
    requires |ps| >= 1
    requires forall i :: 0 <= i < |ps| ==> ',' !in ps[i]
    ensures Split(Join(ps)) == ps
    decreases |ps|
  {
    SplitNoComma(ps[0]);
    if |ps| > 1 {
      SplitAppend(ps[0], Join(ps[1..]));
      SplitJoin(ps[1..]);
      assert [ps[0]] + ps[1..] == ps;
    }
  }

  /** `hay.includes(needle)` on strings: a substring search. */
  predicate Contains(hay: string, needle: string)
    ensures Contains(hay, needle) ==> |needle| <= |hay|
    ensures needle == [] ==> Contains(hay, needle)
    decreases |hay|
  {
    needle <= hay || (|hay| > 0 && Contains(hay[1..], needle))
  }

  predicate OccursAt(hay: string, needle: string, i: nat) {
    i + |needle| <= |hay| && hay[i..i + |needle|] == needle
  }

  /** Contains finds exactly the offsets where `needle` occurs. */
  lemma {:induction false} ContainsAt(hay: string, needle: string)
    ensures Contains(hay, needle) <==> exists i: nat :: OccursAt(hay, needle, i)
    decreases |hay|
  {
    if Contains(hay, needle) {
      if needle <= hay {
        assert OccursAt(hay, needle, 0);
      } else {
        ContainsAt(hay[1..], needle);
        var i: nat :| OccursAt(hay[1..], needle, i);
        TailSlice(hay, i + 1, |needle|);
        assert OccursAt(hay, needle, i + 1);
      }
    }
    if exists i: nat :: OccursAt(hay, needle, i) {
      var i: nat :| OccursAt(hay, needle, i);
      if i == 0 {
        assert needle <= hay;
      } else {
        TailSlice(hay, i, |needle|);
        assert OccursAt(hay[1..], needle, i - 1);
        ContainsAt(hay[1..], needle);
      }
    }
  }

  lemma TailSlice(s: string, i: nat, n: nat)
    requires 1 <= i && i + n <= |s|
    ensures s[1..][i - 1..i - 1 + n] == s[i..i + n]
  {
    var a := s[1..][i - 1..i - 1 + n];
    var b := s[i..i + n];
    forall k | 0 <= k < n ensures a[k] == b[k] {
      assert a[k] == s[1..][i - 1 + k] == s[i + k];
    }
  }
}
