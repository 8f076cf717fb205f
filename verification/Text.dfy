/** The string operations of the two languages that the project relies on. */
module Text {

  predicate Starts(s: string, p: string) {
    |p| <= |s| && s[..|p|] == p
  }

  predicate Occurs(s: string, p: string) {
    exists i :: 0 <= i <= |s| && Starts(s[i..], p)
  }

  /** Leftmost, non-overlapping replacement of a non-empty pattern. */
  function ReplaceAll(s: string, pattern: string, value: string): string
    requires pattern != ""
    decreases |s|
  {
    if |s| < |pattern| then s
    else if Starts(s, pattern) then value + ReplaceAll(s[|pattern|..], pattern, value)
    else [s[0]] + ReplaceAll(s[1..], pattern, value)
  }

  lemma StartsFirst(s: string, p: string)
    requires p != "" && Starts(s, p)
    ensures s != "" && s[0] == p[0]
  {
    assert s[..|p|][0] == p[0];
  }

  /** A character other than the pattern's first one is copied. */
  lemma ReplaceSkipsOne(s: string, pattern: string, value: string)
    requires pattern != "" && s != "" && s[0] != pattern[0]
    ensures ReplaceAll(s, pattern, value) == [s[0]] + ReplaceAll(s[1..], pattern, value)
  {
    if |s| < |pattern| {
      assert s == [s[0]] + s[1..];
    } else if Starts(s, pattern) {
      StartsFirst(s, pattern);
    }
  }

  lemma {:induction false} ReplaceSkips(t: string, rest: string, pattern: string, value: string)
    requires pattern != "" && pattern[0] !in t
    ensures ReplaceAll(t + rest, pattern, value) == t + ReplaceAll(rest, pattern, value)
  {
    if t == "" {
      assert t + rest == rest;
    } else {
      var s := t + rest;
      assert s[1..] == t[1..] + rest && s[0] == t[0];
      ReplaceSkipsOne(s, pattern, value);
      ReplaceSkips(t[1..], rest, pattern, value);
      assert t == [t[0]] + t[1..];
    }
  }

  function Join(parts: seq<string>, sep: string): string {
    if parts == [] then ""
    else if |parts| == 1 then parts[0]
    else parts[0] + sep + Join(parts[1..], sep)
  }

  /** Leftmost, non-overlapping split. The result is never empty. */
  function Split(s: string, sep: string): (parts: seq<string>)
    requires sep != ""
    ensures |parts| >= 1
    decreases |s|
  {
    if Starts(s, sep) then [""] + Split(s[|sep|..], sep)
    else if s == "" then [""]
    else var rest := Split(s[1..], sep); [[s[0]] + rest[0]] + rest[1..]
  }

  const BARS := "||"

  predicate EndsInBar(v: string) {
    v != "" && v[|v| - 1] == '|'
  }

  /** No value contains the separator and no value but the last ends in a bar. */
  ghost predicate Clean(parts: seq<string>) {
    && (forall i :: 0 <= i < |parts| ==> !Occurs(parts[i], BARS))
    && (forall i :: 0 <= i < |parts| - 1 ==> !EndsInBar(parts[i]))
  }

  lemma OccursTail(s: string, p: string)
    requires s != "" && Occurs(s[1..], p)
    ensures Occurs(s, p)
  {
    var i :| 0 <= i <= |s[1..]| && Starts(s[1..][i..], p);
    assert s[1..][i..] == s[i + 1..];
  }

  lemma StartsBars(s: string)
    ensures Starts(s, BARS) <==> |s| >= 2 && s[0] == '|' && s[1] == '|'
  {
  }

  /** Where a separator at the front of `v + t` can come from. */
  lemma BarsAtSeam(v: string, t: string)
    requires v != "" && Starts(v + t, BARS)
    ensures Occurs(v, BARS) || (EndsInBar(v) && |v| == 1)
  {
    StartsBars(v + t);
    assert (v + t)[0] == v[0];
    if |v| >= 2 {
      assert (v + t)[1] == v[1];
      StartsBars(v);
      assert v[0..] == v;
    }
  }

  lemma {:induction false} SplitOne(v: string, rest: string)
    requires !Occurs(v, BARS) && !EndsInBar(v)
    ensures Split(v + BARS + rest, BARS) == [v] + Split(rest, BARS)
  {
    var s := v + BARS + rest;
    if v == "" {
      assert s[..2] == BARS && s[2..] == rest;
    } else {
      if Occurs(v[1..], BARS) {
        OccursTail(v, BARS);
      }
      if Starts(s, BARS) {
        assert s == v + (BARS + rest);
        BarsAtSeam(v, BARS + rest);
      }
      SplitOne(v[1..], rest);
      assert s[1..] == v[1..] + BARS + rest;
      assert [s[0]] + v[1..] == v;
    }
  }

  lemma {:induction false} SplitLast(v: string)
    requires !Occurs(v, BARS)
    ensures Split(v, BARS) == [v]
  {
    if v != "" {
      if Occurs(v[1..], BARS) {
        OccursTail(v, BARS);
      }
      assert v[0..] == v;
      SplitLast(v[1..]);
      assert [v[0]] + v[1..] == v;
    }
  }

  lemma {:induction false} CleanSurvives(parts: seq<string>)
    requires parts != [] && Clean(parts)
    ensures Split(Join(parts, BARS), BARS) == parts
  {
    if |parts| == 1 {
      SplitLast(parts[0]);
    } else {
      CleanSurvives(parts[1..]);
      SplitOne(parts[0], Join(parts[1..], BARS));
      assert [parts[0]] + parts[1..] == parts;
    }
  }

  lemma StartsLonger(c: char, t: string, p: string)
    requires Starts(t, p)
    ensures Starts([c] + t, [c] + p)
  {
    assert ([c] + t)[..|p| + 1] == [c] + t[..|p|];
  }

  /** What the first part of a split is, seen from the string. */
  lemma {:induction false} SplitHead(s: string)
    ensures var parts := Split(s, BARS);
      && Starts(s, parts[0])
      && (|parts| > 1 ==> Starts(s, parts[0] + BARS))
  {
    if Starts(s, BARS) {
      assert "" + BARS == BARS;
    } else if s != "" {
      SplitHead(s[1..]);
      var rest := Split(s[1..], BARS);
      assert s == [s[0]] + s[1..];
      StartsLonger(s[0], s[1..], rest[0]);
      if |rest| > 1 {
        StartsLonger(s[0], s[1..], rest[0] + BARS);
        assert [s[0]] + (rest[0] + BARS) == ([s[0]] + rest[0]) + BARS;
      }
    }
  }

  lemma OccursInGrown(c: char, v: string, next: string)
    requires Occurs([c] + v, BARS)
    ensures Occurs(v, BARS) || Starts([c] + v + next, BARS)
  {
    var w := [c] + v;
    var i :| 0 <= i <= |w| && Starts(w[i..], BARS);
    if i == 0 {
      assert w[0..] == w;
      StartsBars(w);
      StartsBars(w + next);
    } else {
      assert w[i..] == v[i - 1..];
    }
  }

  lemma EndsInGrown(c: char, v: string, next: string)
    requires Starts(next, BARS) && EndsInBar([c] + v)
    ensures EndsInBar(v) || Starts([c] + v + next, BARS)
  {
    if v == "" {
      StartsBars(next);
      StartsBars([c] + v + next);
      assert ([c] + v + next)[1] == next[0];
    }
  }

  /** Growing a clean first part by one character keeps it clean, as long as no separator is created. */
  lemma GrowHead(c: char, v: string, next: string)
    requires !Occurs(v, BARS) && !Starts([c] + v + next, BARS)
    ensures !Occurs([c] + v, BARS)
    ensures Starts(next, BARS) && !EndsInBar(v) ==> !EndsInBar([c] + v)
  {
    if Occurs([c] + v, BARS) {
      OccursInGrown(c, v, next);
    }
    if Starts(next, BARS) && EndsInBar([c] + v) {
      EndsInGrown(c, v, next);
    }
  }

  lemma StartsCut(s: string, p: string, q: string)
    requires Starts(s, p + q)
    ensures s == p + s[|p|..] && Starts(s[|p|..], q)
  {
    assert s[..|p|] == (s[..|p + q|])[..|p|] == p;
    assert s[|p|..][..|q|] == s[..|p + q|][|p|..] == q;
  }

  /** Whatever is split, the parts are clean. */
  lemma {:induction false} SplitIsClean(s: string)
    ensures Clean(Split(s, BARS))
    decreases |s|
  {
    if Starts(s, BARS) {
      SplitIsClean(s[2..]);
    } else if s != "" {
      SplitIsClean(s[1..]);
      SplitHead(s[1..]);
      var rest := Split(s[1..], BARS);
      var next := s[1..][|rest[0]|..];
      assert s == [s[0]] + rest[0] + next by {
        assert s == [s[0]] + s[1..];
        assert s[1..] == s[1..][..|rest[0]|] + next;
      }
      if |rest| > 1 {
        StartsCut(s[1..], rest[0], BARS);
      }
      GrowHead(s[0], rest[0], next);
      CleanReplaceHead(rest, [s[0]] + rest[0]);
    }
  }

  lemma CleanReplaceHead(parts: seq<string>, head: string)
    requires parts != [] && Clean(parts) && !Occurs(head, BARS) && (|parts| > 1 ==> !EndsInBar(head))
    ensures Clean([head] + parts[1..])
  {
  }

  /** The joined form can be split back exactly when the values are clean. */
  lemma SplitJoinIffClean(parts: seq<string>)
    requires parts != []
    ensures Split(Join(parts, BARS), BARS) == parts <==> Clean(parts)
  {
    if Clean(parts) {
      CleanSurvives(parts);
    }
    SplitIsClean(Join(parts, BARS));
  }

  lemma JoinGrowHead(c: char, parts: seq<string>)
    requires parts != []
    ensures Join([[c] + parts[0]] + parts[1..], BARS) == [c] + Join(parts, BARS)
  {
    var grown := [[c] + parts[0]] + parts[1..];
    if |parts| > 1 {
      assert grown[1..] == parts[1..];
      assert ([c] + parts[0]) + BARS + Join(parts[1..], BARS) == [c] + (parts[0] + BARS + Join(parts[1..], BARS));
    }
  }

  /** Joining the parts of a split gives the string back. */
  lemma {:induction false} JoinSplit(s: string)
    ensures Join(Split(s, BARS), BARS) == s
    decreases |s|
  {
    if Starts(s, BARS) {
      JoinSplit(s[2..]);
      assert ([""] + Split(s[2..], BARS))[1..] == Split(s[2..], BARS);
      assert s == BARS + s[2..];
      assert "" + BARS == BARS;
    } else if s != "" {
      JoinSplit(s[1..]);
      JoinGrowHead(s[0], Split(s[1..], BARS));
      assert s == [s[0]] + s[1..];
    }
  }

  // ---------------------------------------------------------------------------------------------
  // Characters
  // ---------------------------------------------------------------------------------------------

  lemma Digits(c: char)
    ensures '0' <= c <= '9' <==> c in "0123456789"
  {
  }

  lemma LowerLetters(c: char)
    ensures 'a' <= c <= 'z' <==> c in "abcdefghijklmnopqrstuvwxyz"
  {
    assert 'a' <= c <= 'z' ==> "abcdefghijklmnopqrstuvwxyz"[c as int - 'a' as int] == c;
  }

  lemma UpperLetters(c: char)
    ensures 'A' <= c <= 'Z' <==> c in "ABCDEFGHIJKLMNOPQRSTUVWXYZ"
  {
    assert 'A' <= c <= 'Z' ==> "ABCDEFGHIJKLMNOPQRSTUVWXYZ"[c as int - 'A' as int] == c;
  }
}
