/** How the agent turns a score name into a Kubernetes resource name. `lower` stands for Unicode lower-casing, of which
    only its action on the characters of a resource name is known. */
module ResourceName {
  import opened Text

  const MAX_LENGTH := 253

  predicate IsAlnum(c: char) { 'a' <= c <= 'z' || '0' <= c <= '9' }

  predicate IsNameChar(c: char) { IsAlnum(c) || c == '.' || c == '-' }

  predicate IsTrimmed(c: char) { c == '-' || c == '.' }

  ghost predicate KeepsNameChars(lower: char -> char) {
    forall c :: IsNameChar(c) ==> lower(c) == c
  }

  /** Lower-cases, and puts a dash in place of every other character. */
  function Replace(lower: char -> char, s: string): (r: string)
    ensures |r| == |s| && forall i :: 0 <= i < |r| ==> IsNameChar(r[i]) && (r[i] == lower(s[i]) || r[i] == '-')
    ensures forall i :: 0 <= i < |r| ==> r[i] == if IsNameChar(lower(s[i])) then lower(s[i]) else '-'
    ensures KeepsNameChars(lower) ==> forall i :: 0 <= i < |r| && IsNameChar(s[i]) ==> r[i] == s[i]
  {
    seq(|s|, i requires 0 <= i < |s| => if IsNameChar(lower(s[i])) then lower(s[i]) else '-')
  }

  predicate DashesAt(s: string, i: nat)
    requires i + 1 < |s|
  {
    s[i] == '-' && s[i + 1] == '-'
  }

  ghost predicate NoDoubleDash(s: string) {
    forall i: nat :: i + 1 < |s| ==> !DashesAt(s, i)
  }

  /** The characters of a name: ASCII letters in lower case, digits, dot and dash. */
  lemma NameCharacters(c: char)
    ensures IsAlnum(c) <==> c in "abcdefghijklmnopqrstuvwxyz" || c in "0123456789"
    ensures IsNameChar(c) <==> IsAlnum(c) || c in ".-"
    ensures IsTrimmed(c) <==> c in "-."
  {
    LowerLetters(c);
    Digits(c);
  }

  predicate AllNameChars(s: string) { forall i :: 0 <= i < |s| ==> IsNameChar(s[i]) }

  /** One dash for every run of dashes. */
  function Collapse(s: string): (r: string)
    ensures s != "" ==> r != "" && r[0] == s[0]
  {
    if |s| < 2 then s
    else if DashesAt(s, 0) then Collapse(s[1..])
    else [s[0]] + Collapse(s[1..])
  }

  lemma {:induction false} CollapseFacts(s: string)
    ensures NoDoubleDash(Collapse(s))
    ensures AllNameChars(s) ==> AllNameChars(Collapse(s))
    ensures NoDoubleDash(s) ==> Collapse(s) == s
  {
    if |s| >= 2 {
      CollapseFacts(s[1..]);
      var rest := Collapse(s[1..]);
      var r := [s[0]] + rest;
      forall i: nat | i + 1 < |r| && !DashesAt(s, 0)
        ensures !DashesAt(r, i)
      {
        if i > 0 {
          assert !DashesAt(rest, i - 1);
        }
      }
      if NoDoubleDash(s) {
        forall i: nat | i + 1 < |s[1..]|
          ensures !DashesAt(s[1..], i)
        {
          assert !DashesAt(s, i + 1);
        }
      }
    }
  }

  /** How many dashes and dots lead. */
  function Leading(s: string): (n: nat)
    ensures n <= |s| && (n < |s| ==> !IsTrimmed(s[n]))
  {
    if s != "" && IsTrimmed(s[0]) then 1 + Leading(s[1..]) else 0
  }

  /** The length without trailing dashes and dots. */
  function TrimmedLength(s: string): (n: nat)
    ensures n <= |s| && (n > 0 ==> !IsTrimmed(s[n - 1]))
    ensures s != "" && !IsTrimmed(s[0]) ==> n > 0
  {
    if s != "" && IsTrimmed(s[|s| - 1]) then TrimmedLength(s[..|s| - 1]) else |s|
  }

  /** The length up to the last alphanumeric. */
  function AlnumLength(s: string): (n: nat)
    ensures n <= |s| && (n > 0 ==> IsAlnum(s[n - 1]))
    ensures forall i :: n <= i < |s| ==> !IsAlnum(s[i])
  {
    if s != "" && !IsAlnum(s[|s| - 1]) then AlnumLength(s[..|s| - 1]) else |s|
  }

  function TrimLeft(s: string): string { s[Leading(s)..] }

  function TrimRight(s: string): string { s[..TrimmedLength(s)] }

  function TrimRightToAlnum(s: string): string { s[..AlnumLength(s)] }

  function Cut(s: string): (r: string)
    ensures r <= s && |r| <= MAX_LENGTH
  {
    if |s| > MAX_LENGTH then TrimRightToAlnum(s[..MAX_LENGTH]) else s
  }

  /** Everything up to the default name. */
  function Shortened(lower: char -> char, name: string): string {
    Cut(TrimRight(TrimLeft(Collapse(Replace(lower, name)))))
  }

  function OrScore(s: string): string { if s == "" then "score" else s }

  /** The last two steps repair the ends. */
  function RepairEnds(s: string): string
    requires s != ""
  {
    var front := if IsAlnum(s[0]) then s else "a" + s;
    if IsAlnum(s[|s| - 1]) then front else front + "a"
  }

  function Sanitize(lower: char -> char, name: string): string {
    if name == "" then "score" else RepairEnds(OrScore(Shortened(lower, name)))
  }

  /** What Kubernetes asks of a resource name, and no run of dashes. */
  ghost predicate IsResourceName(s: string) {
    && 0 < |s| <= 253 && AllNameChars(s) && NoDoubleDash(s)
    && IsAlnum(s[0]) && IsAlnum(s[|s| - 1])
  }

  ghost predicate Clean(s: string) { AllNameChars(s) && NoDoubleDash(s) }

  /** A contiguous part of clean text is clean. */
  lemma PartIsClean(s: string, from: nat, to: nat)
    requires from <= to <= |s| && Clean(s)
    ensures Clean(s[from..to])
  {
    var r := s[from..to];
    forall i: nat | i + 1 < |r|
      ensures !DashesAt(r, i)
    {
      assert !DashesAt(s, from + i);
    }
  }

  lemma CollapsedIsClean(lower: char -> char, name: string)
    ensures Clean(Collapse(Replace(lower, name)))
  {
    var r := Replace(lower, name);
    assert AllNameChars(r);
    CollapseFacts(r);
  }

  lemma TrimLeftIsClean(s: string)
    requires Clean(s)
    ensures Clean(TrimLeft(s))
  {
    PartIsClean(s, Leading(s), |s|);
    assert TrimLeft(s) == s[Leading(s)..|s|];
  }

  lemma TrimRightIsClean(s: string)
    requires Clean(s)
    ensures Clean(TrimRight(s))
  {
    PartIsClean(s, 0, TrimmedLength(s));
    assert TrimRight(s) == s[0..TrimmedLength(s)];
  }

  lemma UntrimmedIsAlnum(s: string, i: nat)
    requires Clean(s) && i < |s| && !IsTrimmed(s[i])
    ensures IsAlnum(s[i])
  {
  }

  lemma TrimmedIsClean(s: string)
    requires Clean(s)
    ensures var r := TrimRight(TrimLeft(s));
            Clean(r) && (r != "" ==> IsAlnum(r[0]) && IsAlnum(r[|r| - 1]))
  {
    TrimLeftIsClean(s);
    TrimRightIsClean(TrimLeft(s));
    var r := TrimRight(TrimLeft(s));
    if r != "" {
      UntrimmedIsAlnum(r, 0);
      UntrimmedIsAlnum(r, |r| - 1);
    }
  }

  lemma CutIsClean(s: string)
    requires Clean(s) && s != "" && IsAlnum(s[0]) && IsAlnum(s[|s| - 1])
    ensures IsResourceName(Cut(s))
  {
    var r := Cut(s);
    PartIsClean(s, 0, |r|);
    assert r == s[0..|r|];
    if |s| > MAX_LENGTH {
      assert IsAlnum(s[..MAX_LENGTH][0]);
    }
  }

  lemma ShortenedIsClean(lower: char -> char, name: string)
    ensures var s := Shortened(lower, name);
            s == "" || IsResourceName(s)
  {
    CollapsedIsClean(lower, name);
    var a := Collapse(Replace(lower, name));
    TrimmedIsClean(a);
    if TrimRight(TrimLeft(a)) != "" {
      CutIsClean(TrimRight(TrimLeft(a)));
    }
  }

  /** For every input the result is a resource name, and repairing the ends changes nothing. */
  lemma SanitizedIsResourceName(lower: char -> char, name: string)
    ensures IsResourceName(Sanitize(lower, name))
    ensures RepairEnds(OrScore(Shortened(lower, name))) == OrScore(Shortened(lower, name))
  {
    ShortenedIsClean(lower, name);
    ScoreIsResourceName();
    var s := OrScore(Shortened(lower, name));
    assert IsResourceName(s);
    assert RepairEnds(s) == s;
  }

  lemma ScoreIsResourceName()
    ensures IsResourceName("score")
  {
    forall i: nat | i + 1 < |"score"|
      ensures !DashesAt("score", i)
    {
      assert "score"[i] != '-';
    }
  }

  /** The names that sanitizing leaves alone are exactly the resource names; so it is idempotent. */
  lemma FixedIffResourceName(lower: char -> char, name: string)
    requires KeepsNameChars(lower)
    ensures Sanitize(lower, name) == name <==> IsResourceName(name)
    ensures Sanitize(lower, Sanitize(lower, name)) == Sanitize(lower, name)
  {
    SanitizedIsResourceName(lower, name);
    ResourceNameKept(lower, Sanitize(lower, name));
    if IsResourceName(name) {
      ResourceNameKept(lower, name);
    }
  }

  lemma ResourceNameKept(lower: char -> char, name: string)
    requires KeepsNameChars(lower) && IsResourceName(name)
    ensures Sanitize(lower, name) == name
  {
    LongNameIsCut(lower, name);
  }

  lemma ReplaceKeeps(lower: char -> char, name: string)
    requires KeepsNameChars(lower) && AllNameChars(name)
    ensures Replace(lower, name) == name
  {
  }

  /** Only the lower-cased, replaced text matters: names that agree in it sanitize to the same. */
  lemma OnlyReplacedTextMatters(lower: char -> char, name: string)
    requires KeepsNameChars(lower) && name != ""
    ensures Sanitize(lower, name) == Sanitize(lower, Replace(lower, name))
  {
    var low := Replace(lower, name);
    assert AllNameChars(low);
    ReplaceKeeps(lower, low);
  }

  /** Of a name that is only too long, the longest prefix that ends in an alphanumeric and fits is kept. */
  lemma LongNameKeepsPrefix(lower: char -> char, name: string)
    requires KeepsNameChars(lower) && |name| > MAX_LENGTH && Clean(name)
    requires IsAlnum(name[0]) && IsAlnum(name[|name| - 1])
    ensures var r := Sanitize(lower, name);
            && r <= name && 0 < |r| <= MAX_LENGTH && IsAlnum(r[|r| - 1])
            && forall i :: |r| <= i < MAX_LENGTH ==> !IsAlnum(name[i])
  {
    LongNameIsCut(lower, name);
    CutIsClean(name);
    forall i | |Cut(name)| <= i < MAX_LENGTH
      ensures !IsAlnum(name[i])
    {
      assert name[..MAX_LENGTH][i] == name[i];
    }
  }

  lemma RepairKeeps(s: string)
    requires IsResourceName(s)
    ensures RepairEnds(OrScore(s)) == s
  {
  }

  lemma TrimKeeps(s: string)
    requires s != "" && IsAlnum(s[0]) && IsAlnum(s[|s| - 1])
    ensures TrimRight(TrimLeft(s)) == s
  {
    assert !IsTrimmed(s[0]) && !IsTrimmed(s[|s| - 1]);
    assert Leading(s) == 0 && TrimmedLength(s) == |s|;
    assert TrimLeft(s) == s && TrimRight(s) == s;
  }

  lemma LongNameIsCut(lower: char -> char, name: string)
    requires KeepsNameChars(lower) && Clean(name) && name != ""
    requires IsAlnum(name[0]) && IsAlnum(name[|name| - 1])
    ensures Sanitize(lower, name) == Cut(name)
  {
    calc {
      Shortened(lower, name);
      { ReplaceKeeps(lower, name); }
      Cut(TrimRight(TrimLeft(Collapse(name))));
      { CollapseFacts(name); }
      Cut(TrimRight(TrimLeft(name)));
      { TrimKeeps(name); }
      Cut(name);
    }
    CutIsClean(name);
    RepairKeeps(Cut(name));
  }

  // ---------------------------------------------------------------------------------------------
  // What sanitizing does to any name
  // ---------------------------------------------------------------------------------------------

  /** `t` is `s` without the dashes that another dash follows: `at` are the positions kept. */
  ghost predicate IsSqueezed(s: string, t: string, at: seq<int>) {
    && |at| == |t|
    && (forall k :: 0 <= k < |at| ==> 0 <= at[k] < |s| && t[k] == s[at[k]])
    && (forall k, l :: 0 <= k < l < |at| ==> at[k] < at[l])
    && forall i :: 0 <= i < |s| ==> (i in at <==> KeptAt(s, i))
  }

  predicate KeptAt(s: string, i: int)
    requires 0 <= i < |s|
  {
    !(s[i] == '-' && i + 1 < |s| && s[i + 1] == '-')
  }

  function Shifted(at: seq<int>): seq<int> { seq(|at|, k requires 0 <= k < |at| => at[k] + 1) }

  lemma ShiftedMembers(at: seq<int>, i: int)
    ensures i in Shifted(at) <==> i - 1 in at
  {
    if i - 1 in at {
      var k :| 0 <= k < |at| && at[k] == i - 1;
      assert Shifted(at)[k] == i;
    }
  }

  lemma TailKept(s: string, i: int)
    requires 0 < i < |s|
    ensures KeptAt(s, i) <==> KeptAt(s[1..], i - 1)
  {
  }

  lemma SqueezeDropped(s: string, t: string, at: seq<int>)
    requires |s| >= 2 && DashesAt(s, 0) && IsSqueezed(s[1..], t, at)
    ensures IsSqueezed(s, t, Shifted(at))
  {
    var moved := Shifted(at);
    assert forall k :: 0 <= k < |at| ==> moved[k] == at[k] + 1 && s[at[k] + 1] == s[1..][at[k]];
    forall i | 0 <= i < |s|
      ensures i in moved <==> KeptAt(s, i)
    {
      ShiftedMembers(at, i);
      if i > 0 {
        TailKept(s, i);
      }
    }
  }

  lemma SqueezeKept(s: string, t: string, at: seq<int>)
    requires |s| >= 2 && !DashesAt(s, 0) && IsSqueezed(s[1..], t, at)
    ensures IsSqueezed(s, [s[0]] + t, [0] + Shifted(at))
  {
    var all, u := [0] + Shifted(at), [s[0]] + t;
    forall k | 0 <= k < |all|
      ensures 0 <= all[k] < |s| && u[k] == s[all[k]]
    {
      if k > 0 {
        assert all[k] == at[k - 1] + 1 && u[k] == t[k - 1] == s[1..][at[k - 1]];
      }
    }
    forall i | 0 <= i < |s|
      ensures i in all <==> KeptAt(s, i)
    {
      ShiftedMembers(at, i);
      assert all[0] == 0 && (i in all <==> i == 0 || i in Shifted(at));
      if i > 0 {
        TailKept(s, i);
      }
    }
  }

  lemma {:induction false} CollapseSqueezes(s: string) returns (at: seq<int>)
    ensures IsSqueezed(s, Collapse(s), at)
  {
    if |s| < 2 {
      at := if s == "" then [] else [0];
    } else {
      var rest := CollapseSqueezes(s[1..]);
      if DashesAt(s, 0) {
        SqueezeDropped(s, Collapse(s[1..]), rest);
        at := Shifted(rest);
      } else {
        SqueezeKept(s, Collapse(s[1..]), rest);
        at := [0] + Shifted(rest);
      }
    }
  }

  /** `core` is `t` without the dashes and dots at its ends. */
  ghost predicate IsMiddle(t: string, core: string) {
    exists a, b :: && 0 <= a <= b <= |t| && core == t[a..b]
                   && (forall i :: 0 <= i < a || b <= i < |t| ==> IsTrimmed(t[i]))
                   && (a < b ==> !IsTrimmed(t[a]) && !IsTrimmed(t[b - 1]))
  }

  lemma {:induction false} LeadingIs(t: string)
    ensures forall i :: 0 <= i < Leading(t) ==> IsTrimmed(t[i])
  {
    if t != "" && IsTrimmed(t[0]) {
      LeadingIs(t[1..]);
      assert forall i :: 1 <= i < Leading(t) ==> t[i] == t[1..][i - 1];
    }
  }

  lemma {:induction false} TrailingIs(t: string)
    ensures forall i :: TrimmedLength(t) <= i < |t| ==> IsTrimmed(t[i])
  {
    if t != "" && IsTrimmed(t[|t| - 1]) {
      TrailingIs(t[..|t| - 1]);
    }
  }

  lemma TrimLeavesMiddle(t: string)
    ensures IsMiddle(t, TrimRight(TrimLeft(t)))
  {
    var a, u := Leading(t), TrimLeft(t);
    var n := TrimmedLength(u);
    LeadingIs(t);
    TrailingIs(u);
    assert TrimRight(u) == t[a..a + n];
    forall i | a + n <= i < |t|
      ensures IsTrimmed(t[i])
    {
      assert t[i] == u[i - a];
    }
    if n > 0 {
      assert t[a] == u[0] && t[a + n - 1] == u[n - 1];
    }
  }

  /** Sanitizing replaces what a name may not contain, squeezes runs of dashes and drops dashes and dots at the ends.
      What is left is the result if it fits; of a longer one the longest prefix that fits and ends in a letter or digit;
      and "score" if nothing is left. */
  lemma SanitizeMeans(lower: char -> char, name: string) returns (at: seq<int>, t: string, core: string)
    ensures IsSqueezed(Replace(lower, name), t, at) && IsMiddle(t, core)
    ensures core == "" ==> Sanitize(lower, name) == "score"
    ensures 0 < |core| <= 253 ==> Sanitize(lower, name) == core
    ensures |core| > 253 ==>
              var r := Sanitize(lower, name);
              && r <= core && 0 < |r| <= 253 && IsAlnum(r[|r| - 1])
              && forall i :: |r| <= i < 253 ==> !IsAlnum(core[i])
  {
    t := Collapse(Replace(lower, name));
    core := TrimRight(TrimLeft(t));
    at := CollapseSqueezes(Replace(lower, name));
    TrimLeavesMiddle(t);
    SanitizedIsResourceName(lower, name);
    CollapsedIsClean(lower, name);
    TrimmedIsClean(t);
    if |core| > 253 {
      CutIsClean(core);
      assert Sanitize(lower, name) == Cut(core);
      forall i | |Cut(core)| <= i < 253
        ensures !IsAlnum(core[i])
      {
        assert core[..253][i] == core[i];
      }
    }
  }
}
