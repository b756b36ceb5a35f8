/** Python's string operations, as the adapter uses them on script output
    and on user text: strip, split, join, find, replace, lower, count and the
    word count of `str.split()`. */
module PyText {
  import opened Base

  /** `c.isspace()`: the characters `strip()` and `split()` treat as blank. */
  predicate IsSpace(c: char) {
    var n := c as int;
    n == 0x20 || 0x09 <= n <= 0x0D || 0x1C <= n <= 0x1F || n == 0x85 || n == 0xA0
    || n == 0x1680 || 0x2000 <= n <= 0x200A || n == 0x2028 || n == 0x2029
    || n == 0x202F || n == 0x205F || n == 0x3000
  }

  predicate AllSpace(s: string) {
    forall i :: 0 <= i < |s| ==> IsSpace(s[i])
  }

  /** `s.lstrip()` */
  function LStrip(s: string): (r: string)
    ensures |r| <= |s| && r == s[|s| - |r|..]
    ensures r == [] || !IsSpace(r[0])
    ensures AllSpace(s[..|s| - |r|])
  {
    if s != [] && IsSpace(s[0]) then
      var r := LStrip(s[1..]);
      assert s[..|s| - |r|] == [s[0]] + s[1..][..|s[1..]| - |r|];
      r
    else s
  }

  /** `s.rstrip()` */
  function RStrip(s: string): (r: string)
    ensures |r| <= |s| && r == s[..|r|]
    ensures r == [] || !IsSpace(r[|r| - 1])
    ensures AllSpace(s[|r|..])
  {
    if s != [] && IsSpace(s[|s| - 1]) then
      var r := RStrip(s[..|s| - 1]);
      assert s[|r|..] == s[..|s| - 1][|r|..] + [s[|s| - 1]];
      r
    else s
  }

  /** `s.strip()`: the text with leading and trailing whitespace removed. */
  function Strip(s: string): (r: string)
    ensures |r| <= |s|
    ensures r == [] || (!IsSpace(r[0]) && !IsSpace(r[|r| - 1]))
  {
    var t := LStrip(s);
    var r := RStrip(t);
    assert r != [] ==> r[0] == t[0];
    r
  }

  /** `not s.strip()`: the text is empty or whitespace only. */
  predicate IsBlank(s: string) { Strip(s) == [] }

  lemma {:induction false} BlankIffAllSpace(s: string)
    ensures IsBlank(s) <==> AllSpace(s)
  {
    var t := LStrip(s);
    var r := RStrip(t);
    if AllSpace(s) {
      LStripAllSpace(s);
    }
    if r == [] {
      assert t[0..] == t;
      assert t == [];
      assert s[..|s|] == s;
    }
  }

  lemma {:induction false} LStripAllSpace(s: string)
    requires AllSpace(s)
    ensures LStrip(s) == []
  {
    if s != [] {
      LStripAllSpace(s[1..]);
    }
  }

  /** Stripping is idempotent. */
  lemma {:induction false} StripIdempotent(s: string)
    ensures Strip(Strip(s)) == Strip(s)
  {
    var r := Strip(s);
    assert LStrip(r) == r;
    assert RStrip(r) == r;
  }

  /** `s.strip(chars)`: removes characters of the set from both ends. */
  function StripSet(s: string, cs: set<char>): (r: string)
    ensures |r| <= |s|
    ensures r == [] || (r[0] !in cs && r[|r| - 1] !in cs)
    decreases |s|
  {
    if s == [] then s
    else if s[0] in cs then StripSet(s[1..], cs)
    else if s[|s| - 1] in cs then StripSet(s[..|s| - 1], cs)
    else s
  }

  /** `sub` occurs in `s` at index `k`. */
  predicate OccursAt(s: string, sub: string, k: int) {
    0 <= k && k + |sub| <= |s| && s[k..k + |sub|] == sub
  }

  /** Index of the first occurrence of `sub` at or after `k`, or -1. */
  function IndexFrom(s: string, sub: string, k: nat): (r: int)
    ensures r == -1 || (k <= r && OccursAt(s, sub, r))
    ensures r == -1 ==> forall j :: k <= j ==> !OccursAt(s, sub, j)
    ensures r != -1 ==> forall j :: k <= j < r ==> !OccursAt(s, sub, j)
    decreases |s| - k
  {
    if k + |sub| > |s| then -1
    else if s[k..k + |sub|] == sub then k
    else IndexFrom(s, sub, k + 1)
  }

  /** `s.find(sub)` */
  function Find(s: string, sub: string): int {
    IndexFrom(s, sub, 0)
  }

  /** `sub in s` */
  predicate Contains(s: string, sub: string) {
    exists k :: 0 <= k <= |s| - |sub| && OccursAt(s, sub, k)
  }

  /** `sub in s` exactly when `s.find(sub)` finds it. */
  lemma ContainsIffFound(s: string, sub: string)
    ensures Contains(s, sub) <==> Find(s, sub) >= 0
  {
    if Contains(s, sub) {
      var k :| 0 <= k <= |s| - |sub| && OccursAt(s, sub, k);
      assert Find(s, sub) != -1;
    }
  }

  /** Every character of a contained string occurs in the containing one. */
  lemma ContainsHasChars(s: string, sub: string, i: int)
    requires Contains(s, sub) && 0 <= i < |sub|
    ensures sub[i] in s
  {
    var k :| 0 <= k <= |s| - |sub| && OccursAt(s, sub, k);
    assert s[k..k + |sub|][i] == s[k + i];
  }

  /** A string missing one of the characters of `sub` does not contain it. */
  lemma MissingCharNotContains(s: string, sub: string, i: int)
    requires 0 <= i < |sub| && sub[i] !in s
    ensures !Contains(s, sub)
  {
    if Contains(s, sub) {
      ContainsHasChars(s, sub, i);
    }
  }

  /** `s.split(sep)` for a non-empty separator. */
  function Split(s: string, sep: string): (parts: seq<string>)
    requires sep != ""
    ensures |parts| >= 1
    decreases |s|
  {
    var k := Find(s, sep);
    if k < 0 then [s] else [s[..k]] + Split(s[k + |sep|..], sep)
  }

  /** Splitting and joining back with the same separator is the identity. */
  lemma {:induction false} SplitJoin(s: string, sep: string)
    requires sep != ""
    ensures JoinWith(Split(s, sep), sep) == s
    decreases |s|
  {
    var k := Find(s, sep);
    if k >= 0 {
      var rest := s[k + |sep|..];
      var tail := Split(rest, sep);
      SplitJoin(rest, sep);
      assert Split(s, sep) == [s[..k]] + tail;
      assert JoinWith([s[..k]] + tail, sep) == s[..k] + sep + JoinWith(tail, sep) by {
        assert ([s[..k]] + tail)[1..] == tail;
      }
      assert s[k..k + |sep|] == sep;
      assert s == s[..k] + s[k..k + |sep|] + rest;
    }
  }

  /** No piece that `split` returns contains the separator. */
  lemma {:induction false} SplitPiecesFree(s: string, sep: string, i: int)
    requires sep != ""
    requires 0 <= i < |Split(s, sep)|
    ensures !Contains(Split(s, sep)[i], sep)
    decreases |s|
  {
    var k := Find(s, sep);
    var p := Split(s, sep)[i];
    if k < 0 {
      ContainsIffFound(s, sep);
    } else if i == 0 {
      ContainsIffFound(p, sep);
      if exists j :: OccursAt(p, sep, j) {
        var j :| OccursAt(p, sep, j);
        assert p == s[..k];
        assert p[j..j + |sep|] == s[j..j + |sep|];
        assert OccursAt(s, sep, j);
        assert false;
      }
    } else {
      SplitPiecesFree(s[k + |sep|..], sep, i - 1);
    }
  }

  /** No proper suffix of `sep` is also a prefix of it, so two occurrences
      of `sep` can never overlap (true of ", ", false of "|||"). */
  predicate Borderless(sep: string) {
    forall k :: 0 < k < |sep| ==> sep[k..] != sep[..|sep| - k]
  }

  /** An occurrence with none before it is the one `find` reports. */
  lemma FindIsFirst(s: string, sub: string, m: int)
    requires OccursAt(s, sub, m)
    requires forall j :: 0 <= j < m ==> !OccursAt(s, sub, j)
    ensures Find(s, sub) == m
  {
  }

  /** Two occurrences of `sep` that overlap share a border of `sep`. */
  lemma OverlapIsBorder(s: string, sep: string, m: int, j: int)
    requires OccursAt(s, sep, m) && OccursAt(s, sep, j) && j < m < j + |sep|
    ensures sep[m - j..] == sep[..|sep| - (m - j)]
  {
    var k := m - j;
    assert sep[k..] == s[m..j + |sep|];
    assert s[m..j + |sep|] == sep[..|sep| - k];
  }

  /** `p` cannot hold the start of an occurrence of `sep` that runs into
      what follows it: either `sep` is borderless and absent from `p`, or
      `p` lacks the first character of `sep`. */
  predicate SeparatorFree(p: string, sep: string) {
    sep != [] && ((Borderless(sep) && !Contains(p, sep)) || sep[0] !in p)
  }

  /** In `a + sep + b`, with `a` separator-free, the first occurrence of
      `sep` is the one after `a`. */
  lemma FirstAfterHead(a: string, sep: string, b: string)
    requires SeparatorFree(a, sep)
    ensures Find(a + sep + b, sep) == |a|
  {
    var s := a + sep + b;
    assert s[|a|..|a| + |sep|] == sep;
    forall j | 0 <= j < |a| ensures !OccursAt(s, sep, j) {
      if OccursAt(s, sep, j) {
        assert s[j..j + |sep|][0] == a[j];
        if sep[0] !in a {
          assert false;
        } else if j + |sep| <= |a| {
          assert a[j..j + |sep|] == s[j..j + |sep|];
          assert OccursAt(a, sep, j);
          assert false;
        } else {
          OverlapIsBorder(s, sep, |a|, j);
          assert false;
        }
      }
    }
    FindIsFirst(s, sep, |a|);
  }

  /** Splitting a join of separator-free pieces gives the pieces back. */
  lemma {:induction false} SplitOfJoin(parts: seq<string>, sep: string)
    requires sep != "" && |parts| >= 1
    requires forall i :: 0 <= i < |parts| ==> SeparatorFree(parts[i], sep)
    ensures Split(JoinWith(parts, sep), sep) == parts
    decreases |parts|
  {
    var s := JoinWith(parts, sep);
    if |parts| == 1 {
      if sep[0] !in parts[0] {
        MissingCharNotContains(parts[0], sep, 0);
      }
      ContainsIffFound(parts[0], sep);
    } else {
      var head, tail := parts[0], parts[1..];
      var rest := JoinWith(tail, sep);
      assert s == head + sep + rest;
      FirstAfterHead(head, sep, rest);
      assert s[..|head|] == head;
      assert s[|head| + |sep|..] == rest;
      assert Split(s, sep) == [head] + Split(rest, sep);
      SplitOfJoin(tail, sep);
      assert parts == [head] + tail;
    }
  }

  /** A join is at least as long as its first piece. */
  lemma JoinStartsWithHead(parts: seq<string>, sep: string)
    requires |parts| >= 1
    ensures |JoinWith(parts, sep)| >= |parts[0]|
  {
    if |parts| > 1 {
      assert JoinWith(parts, sep) == parts[0] + sep + JoinWith(parts[1..], sep);
    }
  }

  /** Joining one more piece appends the separator and the piece. */
  lemma {:induction false} JoinAppend(parts: seq<string>, sep: string, last: string)
    requires |parts| >= 1
    ensures JoinWith(parts + [last], sep) == JoinWith(parts, sep) + sep + last
    decreases |parts|
  {
    var all := parts + [last];
    assert all[1..] == parts[1..] + [last];
    if |parts| > 1 {
      JoinAppend(parts[1..], sep, last);
    } else {
      assert all[1..] == [last];
    }
  }

  lemma CommaSpaceBorderless()
    ensures Borderless(", ")
  {
    assert ", "[1..] == " " && ", "[..1] == ",";
  }

  /** A text that contains the separator splits into at least two pieces. */
  lemma SplitContaining(s: string, sep: string)
    requires sep != ""
    ensures |Split(s, sep)| >= 2 <==> Contains(s, sep)
  {
    if Contains(s, sep) {
      var k := Find(s, sep);
      assert |Split(s[k + |sep|..], sep)| >= 1;
    }
  }

  /** `s.split(sep, 1)`: at most one cut, at the first occurrence. */
  function SplitOnce(s: string, sep: string): (parts: seq<string>)
    requires sep != ""
    ensures 1 <= |parts| <= 2
    ensures |parts| == 2 <==> Contains(s, sep)
    ensures |parts| == 2 ==> parts[0] + sep + parts[1] == s && !Contains(parts[0], sep)
    ensures |parts| == 1 ==> parts[0] == s
  {
    var k := Find(s, sep);
    if k < 0 then [s]
    else
      var head := s[..k];
      assert s == head + s[k..k + |sep|] + s[k + |sep|..];
      ContainsIffFound(head, sep);
      assert forall j :: OccursAt(head, sep, j) ==> OccursAt(s, sep, j) by {
        forall j | OccursAt(head, sep, j) ensures OccursAt(s, sep, j) {
          assert head[j..j + |sep|] == s[j..j + |sep|];
        }
      }
      [head, s[k + |sep|..]]
  }

  /** `s.replace(c, t)` for a one-character pattern. */
  function ReplaceChar(s: string, c: char, t: string): (r: string)
    ensures c !in t ==> c !in r
    ensures c !in s ==> r == s
  {
    if s == [] then []
    else (if s[0] == c then t else [s[0]]) + ReplaceChar(s[1..], c, t)
  }

  lemma {:induction false} ReplaceCharKeeps(s: string, c: char, t: string, d: char)
    requires d != c && d !in t
    ensures d in ReplaceChar(s, c, t) <==> d in s
  {
    if s != [] {
      ReplaceCharKeeps(s[1..], c, t, d);
      assert s == [s[0]] + s[1..];
    }
  }

  /** The text with every '{' and every '}' removed. */
  function RemoveBraces(s: string): (r: string)
    ensures '{' !in r && '}' !in r
    ensures forall ch :: ch != '{' && ch != '}' ==> (ch in r <==> ch in s)
  {
    var a := ReplaceChar(s, '{', "");
    forall ch | ch != '{' && ch != '}' ensures ch in ReplaceChar(a, '}', "") <==> ch in s {
      ReplaceCharKeeps(s, '{', "", ch);
      ReplaceCharKeeps(a, '}', "", ch);
    }
    ReplaceCharKeeps(s, '{', "", '}');
    ReplaceCharKeeps(a, '}', "", '{');
    ReplaceChar(a, '}', "")
  }

  lemma {:induction false} ReplaceCharAppend(a: string, b: string, c: char, t: string)
    ensures ReplaceChar(a + b, c, t) == ReplaceChar(a, c, t) + ReplaceChar(b, c, t)
  {
    if a != [] {
      assert (a + b)[1..] == a[1..] + b;
      ReplaceCharAppend(a[1..], b, c, t);
    } else {
      assert a + b == b;
    }
  }

  /** Brace removal works piece by piece. */
  lemma RemoveBracesAppend(a: string, b: string)
    ensures RemoveBraces(a + b) == RemoveBraces(a) + RemoveBraces(b)
  {
    ReplaceCharAppend(a, b, '{', "");
    ReplaceCharAppend(ReplaceChar(a, '{', ""), ReplaceChar(b, '{', ""), '}', "");
  }

  /** ASCII case folding of `str.lower()`. */
  function LowerChar(c: char): char {
    if 'A' <= c <= 'Z' then (c as int + 32) as char else c
  }

  function Lower(s: string): (r: string)
    ensures |r| == |s|
    ensures forall i :: 0 <= i < |s| ==> r[i] == LowerChar(s[i])
  {
    seq(|s|, i requires 0 <= i < |s| => LowerChar(s[i]))
  }

  /** A lower-case letter that is missing from `s` in both cases is missing
      from `s.lower()`. */
  lemma LowerMissing(s: string, c: char)
    requires 'a' <= c <= 'z' && c !in s && (c as int - 32) as char !in s
    ensures c !in Lower(s)
  {
  }

  /** `s.count(c)` */
  function Count(s: string, c: char): nat {
    if s == [] then 0 else (if s[0] == c then 1 else 0) + Count(s[1..], c)
  }

  /** A maximal run of non-whitespace characters starts at index `i`. */
  predicate WordStart(s: string, i: int) {
    0 <= i < |s| && !IsSpace(s[i]) && (i == 0 || IsSpace(s[i - 1]))
  }

  /** `len(s.split())`: the number of maximal runs of non-whitespace. */
  function WordCount(s: string): nat {
    if s == [] then 0
    else WordCount(s[..|s| - 1]) + (if WordStart(s, |s| - 1) then 1 else 0)
  }

  /** No words at all exactly when the text is blank. */
  lemma {:induction false} NoWordsIffBlank(s: string)
    ensures WordCount(s) == 0 <==> AllSpace(s)
  {
    BlankIffAllSpace(s);
    if s != [] {
      var p := s[..|s| - 1];
      NoWordsIffBlank(p);
      assert forall i :: 0 <= i < |p| ==> p[i] == s[i];
      if !IsSpace(s[|s| - 1]) && WordCount(p) == 0 {
        assert AllSpace(p);
        assert WordStart(s, |s| - 1) by {
          if |s| > 1 { assert IsSpace(p[|s| - 2]); }
        }
      }
    }
  }

  /** Joining two texts with a blank in between adds their word counts. */
  lemma {:induction false} WordCountAppend(a: string, b: string)
    requires a == [] || IsSpace(a[|a| - 1])
    ensures WordCount(a + b) == WordCount(a) + WordCount(b)
    decreases |b|
  {
    if b == [] {
      assert a + b == a;
    } else {
      var b' := b[..|b| - 1];
      WordCountAppend(a, b');
      assert (a + b)[..|a + b| - 1] == a + b';
      var last := |a + b| - 1;
      if |b| == 1 {
        assert WordStart(a + b, last) <==> WordStart(b, 0);
      } else {
        assert (a + b)[last - 1] == b[|b| - 2];
        assert WordStart(a + b, last) <==> WordStart(b, |b| - 1);
      }
    }
  }

  /** A word count never exceeds half the length, rounded up. */
  lemma {:induction false} WordCountBound(s: string)
    ensures 2 * WordCount(s) <= |s| + 1
  {
    if |s| >= 2 {
      var p := s[..|s| - 1];
      WordCountBound(p);
      if WordStart(s, |s| - 1) {
        var q := p[..|p| - 1];
        WordCountBound(q);
        assert !WordStart(p, |p| - 1) by { assert p[|p| - 1] == s[|s| - 2]; }
        assert WordCount(p) == WordCount(q);
      }
    }
  }
}
