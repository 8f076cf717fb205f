/** The policy watcher: a poll loop that reports non-compliance at once and compliance only after it has lasted.
    Times are in seconds; every call of a poll may raise, and others may write the claim between polls. */
module PolicyWatcher {
  import opened Wrappers

  datatype Verdict = Empty | Noncompliant | Compliant

  function Text(v: Verdict): string {
    match v
    case Empty => "empty"
    case Noncompliant => "noncompliant"
    case Compliant => "compliant"
  }

  datatype Patch = Works | Raises | RaisesAfterWriting

  /** `policies` holds the compliance status of each listed policy, or None when listing raises.
      `foreign`: what others wrote to the claim before this poll. */
  datatype Poll = Poll(
    foreign: Option<string>,
    policies: Option<seq<Option<string>>>,
    now: real,
    claimReadable: bool,
    patch: Patch)

  datatype State = State(stableSince: Option<real>, claim: Option<string>)

  const COMPLIANT_STATUS := "Compliant"

  function Judge(policies: seq<Option<string>>): (v: Verdict)
    ensures v.Empty? <==> policies == []
    ensures v.Compliant? <==> policies != [] && forall p :: p in policies ==> p == Some(COMPLIANT_STATUS)
  {
    if policies == [] then Empty
    else if exists p :: p in policies && p != Some(COMPLIANT_STATUS) then Noncompliant
    else Compliant
  }

  /** The poll got as far as reading the claim. */
  predicate Observed(p: Poll) { p.policies.Some? && p.claimReadable }

  predicate Saw(p: Poll, v: Verdict) { Observed(p) && Judge(p.policies.value) == v }

  function ClaimBefore(st: State, p: Poll): Option<string> { if p.foreign.Some? then p.foreign else st.claim }

  /** The value a poll tries to write. */
  function Wanted(st: State, p: Poll, duration: real): Option<Verdict> {
    if !Observed(p) then None
    else
      var v := Judge(p.policies.value);
      if ClaimBefore(st, p) == Some(Text(v)) then None
      else if v.Compliant? && (st.stableSince.None? || p.now - st.stableSince.value < duration) then None
      else Some(v)
  }

  function Step(st: State, p: Poll, duration: real): State {
    var wanted := Wanted(st, p, duration);
    State(
      if !Observed(p) then st.stableSince
      else if !Judge(p.policies.value).Compliant? then None
      else if st.stableSince.None? then Some(p.now)
      else st.stableSince,
      if wanted.Some? && !p.patch.Raises? then Some(Text(wanted.value)) else ClaimBefore(st, p))
  }

  /** The poll ends without an exception. */
  predicate Completes(st: State, p: Poll, duration: real) {
    Observed(p) && (Wanted(st, p, duration).Some? ==> p.patch.Works?)
  }

  class Watcher {
    const stableDuration: real
    var stableSince: Option<real>
    var claim: Option<string>

    function View(): State
      reads this
    {
      State(stableSince, claim)
    }

    constructor (duration: real, claim: Option<string>)
      ensures stableDuration == duration && View() == State(None, claim)
    {
      this.stableDuration, this.stableSince, this.claim := duration, None, claim;
    }

    method AllPoliciesCompliant(policies: seq<Option<string>>) returns (v: Verdict)
      ensures v == Judge(policies)
    {
      if |policies| == 0 {
        return Empty;
      }
      for i := 0 to |policies|
        invariant forall p :: p in policies[..i] ==> p == Some(COMPLIANT_STATUS)
      {
        assert policies[..i + 1] == policies[..i] + [policies[i]];
        if policies[i] != Some(COMPLIANT_STATUS) {
          assert policies[i] in policies;
          return Noncompliant;
        }
      }
      assert policies[..|policies|] == policies;
      v := Compliant;
    }

    method UpdateClusterClaim(v: Verdict, patch: Patch) returns (raised: bool)
      modifies this`claim
      ensures claim == if patch.Raises? then old(claim) else Some(Text(v))
      ensures raised <==> !patch.Works?
    {
      if !patch.Raises? {
        claim := Some(Text(v));
      }
      raised := !patch.Works?;
    }

    /** One turn of the loop. */
    method PollOnce(p: Poll) returns (raised: bool)
      modifies this
      ensures View() == Step(old(View()), p, stableDuration)
      ensures raised <==> !Completes(old(View()), p, stableDuration)
    {
      if p.foreign.Some? {
        claim := p.foreign;
      }
      if p.policies.None? {
        return true;
      }
      var compliant := AllPoliciesCompliant(p.policies.value);
      if !p.claimReadable {
        return true;
      }
      var currentClaim := claim;
      raised := false;
      if compliant.Compliant? {
        if stableSince.None? {
          stableSince := Some(p.now);
          CompliantStretchStarts(old(View()), p, stableDuration);
        } else {
          var elapsed := p.now - stableSince.value;
          if elapsed >= stableDuration {
            if currentClaim != Some(Text(Compliant)) {
              raised := UpdateClusterClaim(Compliant, p.patch);
            }
          }
        }
      } else if compliant.Noncompliant? {
        stableSince := None;
        if currentClaim != Some(Text(Noncompliant)) {
          raised := UpdateClusterClaim(Noncompliant, p.patch);
        }
      } else {
        stableSince := None;
        if currentClaim != Some(Text(Empty)) {
          raised := UpdateClusterClaim(Empty, p.patch);
        }
      }
    }
  }

  lemma CompliantStretchStarts(st: State, p: Poll, duration: real)
    requires Saw(p, Compliant) && st.stableSince.None?
    ensures Step(st, p, duration) == State(Some(p.now), ClaimBefore(st, p)) && Completes(st, p, duration)
  {
  }

  // ---------------------------------------------------------------------------------------------
  // Every run
  // ---------------------------------------------------------------------------------------------

  function Run(claim: Option<string>, polls: seq<Poll>, duration: real): State {
    if polls == [] then State(None, claim)
    else Step(Run(claim, polls[..|polls| - 1], duration), polls[|polls| - 1], duration)
  }

  /** Poll `j` began the stretch that is still on: it and every observed poll since saw compliance,
      and the last observed poll before it, if any, did not. */
  predicate StretchFrom(polls: seq<Poll>, j: nat) {
    && j < |polls| && Saw(polls[j], Compliant)
    && (forall k :: j <= k < |polls| && Observed(polls[k]) ==> Saw(polls[k], Compliant))
    && (forall k :: 0 <= k < j && Saw(polls[k], Compliant) ==>
          exists m :: k < m < j && Observed(polls[m]) && !Saw(polls[m], Compliant))
  }

  lemma StretchUnique(polls: seq<Poll>, i: nat, j: nat)
    requires StretchFrom(polls, i) && i < j
    ensures !StretchFrom(polls, j)
  {
  }

  /** Whatever is raised when, the stored time is that of the poll that began the current stretch. */
  lemma {:induction false} StableSinceIsStretch(claim: Option<string>, polls: seq<Poll>, duration: real)
    ensures var since := Run(claim, polls, duration).stableSince;
            if since.Some? then exists j: nat :: StretchFrom(polls, j) && polls[j].now == since.value
            else forall j: nat :: !StretchFrom(polls, j)
  {
    if polls != [] {
      var before, p := polls[..|polls| - 1], polls[|polls| - 1];
      assert polls == before + [p];
      StableSinceIsStretch(claim, before, duration);
      var since := Run(claim, before, duration).stableSince;
      if Observed(p) && !Saw(p, Compliant) {
        NoStretchAfterBreak(before, p);
      } else if since.Some? {
        var j: nat :| StretchFrom(before, j) && before[j].now == since.value;
        StretchGoesOn(before, p, j);
        assert polls[j] == before[j];
      } else if Observed(p) {
        StretchBegins(before, p);
      } else {
        forall j: nat | StretchFrom(polls, j)
          ensures StretchFrom(before, j)
        {
          NoStretchFromUnobserved(before, p, j);
        }
      }
    }
  }

  lemma NoStretchAfterBreak(before: seq<Poll>, p: Poll)
    requires Observed(p) && !Saw(p, Compliant)
    ensures forall j: nat :: !StretchFrom(before + [p], j)
  {
    assert (before + [p])[|before|] == p;
  }

  lemma StretchGoesOn(before: seq<Poll>, p: Poll, j: nat)
    requires StretchFrom(before, j) && (Observed(p) ==> Saw(p, Compliant))
    ensures StretchFrom(before + [p], j)
  {
    var polls := before + [p];
    forall k | 0 <= k < j && Saw(polls[k], Compliant)
      ensures exists m :: k < m < j && Observed(polls[m]) && !Saw(polls[m], Compliant)
    {
      assert Saw(before[k], Compliant);
      var m :| k < m < j && Observed(before[m]) && !Saw(before[m], Compliant);
      assert polls[m] == before[m];
    }
  }

  lemma NoStretchFromUnobserved(before: seq<Poll>, p: Poll, j: nat)
    requires StretchFrom(before + [p], j) && !Observed(p)
    ensures StretchFrom(before, j)
  {
    var polls := before + [p];
    assert polls[|before|] == p;
    forall k | 0 <= k < j && Saw(before[k], Compliant)
      ensures exists m :: k < m < j && Observed(before[m]) && !Saw(before[m], Compliant)
    {
      assert Saw(polls[k], Compliant);
      var m :| k < m < j && Observed(polls[m]) && !Saw(polls[m], Compliant);
      assert polls[m] == before[m];
    }
    assert forall k :: j <= k < |before| ==> polls[k] == before[k];
  }

  /** After polls with no stretch, an observed compliant poll begins one: the last of any compliant run was broken. */
  lemma StretchBegins(before: seq<Poll>, p: Poll)
    requires Saw(p, Compliant) && forall j: nat :: !StretchFrom(before, j)
    ensures StretchFrom(before + [p], |before|)
  {
    var polls := before + [p];
    forall k | 0 <= k < |before| && Saw(polls[k], Compliant)
      ensures exists m :: k < m < |before| && Observed(polls[m]) && !Saw(polls[m], Compliant)
    {
      BrokenLater(before, k);
      var m :| k < m < |before| && Observed(before[m]) && !Saw(before[m], Compliant);
      assert polls[m] == before[m];
    }
  }

  /** With no stretch going on, every compliant poll is followed by an observed one that is not. */
  lemma {:induction false} BrokenLater(polls: seq<Poll>, k: nat)
    requires k < |polls| && Saw(polls[k], Compliant) && forall j: nat :: !StretchFrom(polls, j)
    ensures exists m :: k < m < |polls| && Observed(polls[m]) && !Saw(polls[m], Compliant)
    decreases k
  {
    if forall m :: k < m < |polls| && Observed(polls[m]) ==> Saw(polls[m], Compliant) {
      assert !StretchFrom(polls, k);
      var i :| 0 <= i < k && Saw(polls[i], Compliant)
               && forall m :: i < m < k && Observed(polls[m]) ==> Saw(polls[m], Compliant);
      BrokenLater(polls, i);
    }
  }

  /** Over every run, poll `i` writes "compliant" exactly when it sees compliance, the claim says something else, and
      the stretch it is in began with an earlier poll at least the stable duration before. */
  lemma CompliantIffStable(claim: Option<string>, polls: seq<Poll>, duration: real, i: nat)
    requires i < |polls|
    ensures var st := Run(claim, polls[..i], duration);
            Wanted(st, polls[i], duration) == Some(Compliant)
            <==> && Saw(polls[i], Compliant) && ClaimBefore(st, polls[i]) != Some("compliant")
                 && exists j: nat :: StretchFrom(polls[..i], j) && polls[i].now - polls[j].now >= duration
  {
    var st := Run(claim, polls[..i], duration);
    StableSinceIsStretch(claim, polls[..i], duration);
    forall j: nat, k: nat | StretchFrom(polls[..i], j) && j < k
      ensures !StretchFrom(polls[..i], k)
    {
      StretchUnique(polls[..i], j, k);
    }
    assert forall j: nat, k: nat :: StretchFrom(polls[..i], j) && StretchFrom(polls[..i], k) ==> j == k;
  }

  /** The claim after a poll, whether it raises or not: "empty" without policies and "noncompliant" with one that is not
      Compliant, as soon as seen; "compliant" once compliance has been stable; and otherwise what it was. */
  lemma ClaimAfter(st: State, p: Poll, duration: real)
    ensures var after := Step(st, p, duration).claim;
            var before := if p.foreign.Some? then p.foreign else st.claim;
            var stable := st.stableSince.Some? && p.now - st.stableSince.value >= duration;
            && (p.policies.None? || !p.claimReadable || p.patch.Raises? ==> after == before)
            && (p.policies.Some? && p.claimReadable && !p.patch.Raises? ==>
                  after == if p.policies.value == [] then Some("empty")
                           else if exists q :: q in p.policies.value && q != Some("Compliant") then Some("noncompliant")
                           else if stable then Some("compliant")
                           else before)
  {
  }

  /** A poll raises exactly when the policies cannot be listed or the claim cannot be read, or when there is something
      to write, which the claim does not say already, and the patch raises. */
  lemma RaisesIff(st: State, p: Poll, duration: real)
    ensures var before := if p.foreign.Some? then p.foreign else st.claim;
            var quiet := p.(patch := Works);
            !Completes(st, p, duration) <==>
              || p.policies.None? || !p.claimReadable
              || (!p.patch.Works? && Step(st, quiet, duration).claim != before)
  {
    assert Wanted(st, p.(patch := Works), duration) == Wanted(st, p, duration);
    assert Text(Empty)[0] != Text(Compliant)[0] && Text(Noncompliant)[0] != Text(Compliant)[0];
  }

  /** Every poll that completes after seeing no policies or a non-compliant one leaves the claim saying so; one that
      completes after seeing compliance leaves the claim alone or makes it "compliant". */
  lemma CompletedPollReports(st: State, p: Poll, duration: real)
    requires Completes(st, p, duration)
    ensures var after := Step(st, p, duration).claim;
            && (Saw(p, Empty) ==> after == Some("empty")) && (Saw(p, Noncompliant) ==> after == Some("noncompliant"))
            && (Saw(p, Compliant) ==> after == ClaimBefore(st, p) || after == Some("compliant"))
            && (Saw(p, Compliant) ==> (after == Some("compliant") <==>
                  ClaimBefore(st, p) == Some("compliant") || Wanted(st, p, duration) == Some(Compliant)))
  {
  }
}
