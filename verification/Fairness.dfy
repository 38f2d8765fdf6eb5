/** Bounded bypass: while a user waits, nobody else is served twice. */
module Fairness {
  import opened Prelude
  import opened TurnTypes
  import opened TurnSteps
  import opened Scheduler
  import opened WorldSafety
  import opened TurnRuns

  /** Claim times never go back. */
  ghost predicate ClockForwards(turns: seq<Turn>, now: nat) {
    forall i | 0 <= i < |turns| :: !Earlier(Some(now), turns[i].claimedAt)
  }

  /** The user has a turn the scheduler could take and none that is running. */
  ghost predicate Waiting(turns: seq<Turn>, locked: set<nat>, u: nat) {
    && ActiveCount(turns, Some(u)) == 0
    && exists c: nat :: Candidate(turns, locked, c) && turns[c].user == u
  }

  ghost predicate ServedSince(turns: seq<Turn>, id: nat, v: nat, time: nat) {
    id < |turns| && turns[id].user == v && turns[id].claimedAt.Some? && turns[id].claimedAt.value >= time
  }

  /** Every claim of the stretch [i, n) finds u waiting and serves somebody else. */
  ghost predicate PassesOver(ws: seq<World>, es: seq<WorldEvent>, i: nat, n: nat, u: nat)
    requires Steps(ws, es) && n <= |es|
  {
    forall k | i <= k < n && es[k].Claim? :: Bypasses(ws[k], es[k], u)
  }

  ghost predicate Bypasses(w: World, e: WorldEvent, u: nat)
    requires e.Claim?
  {
    && Waiting(w.turns, e.locked, u)
    && ClockForwards(w.turns, e.claimedAt)
    && e.id < |w.turns| && w.turns[e.id].user != u
  }

  // ----- A user who is not served keeps the time of the last service -----

  ghost predicate SameServices(before: seq<Turn>, after: seq<Turn>, u: nat) {
    && |before| <= |after|
    && (forall i | 0 <= i < |before| ::
          after[i].user == before[i].user && (before[i].user == u ==> after[i].claimedAt == before[i].claimedAt))
    && (forall i | |before| <= i < |after| :: after[i].claimedAt.None?)
  }

  lemma {:induction false} LastClaimedKept(before: seq<Turn>, after: seq<Turn>, u: nat)
    requires SameServices(before, after, u)
    ensures LastClaimed(after, u) == LastClaimed(before, u)
    decreases |after|
  {
    if after != [] {
      var n := |after| - 1;
      if |before| <= n {
        LastClaimedKept(before, after[..n], u);
      } else {
        LastClaimedKept(before[..n], after[..n], u);
      }
    }
  }

  lemma StepKeepsServices(w: World, e: WorldEvent, w': World, u: nat)
    requires Moves(w, e, w') && (e.Claim? ==> Bypasses(w, e, u))
    ensures SameServices(w.turns, w'.turns, u)
  {
    if e.On? { IdentityKept(w.turns[e.id], e.event); }
  }

  lemma ServiceStays(w: World, e: WorldEvent, w': World, u: nat, id: nat, v: nat, time: nat)
    requires Moves(w, e, w') && (e.Claim? ==> Bypasses(w, e, u)) && ServedSince(w.turns, id, v, time)
    ensures ServedSince(w'.turns, id, v, time)
  {
    if e.On? { IdentityKept(w.turns[e.id], e.event); }
  }

  lemma {:induction false} Wait(ws: seq<World>, es: seq<WorldEvent>, i: nat, j: nat, u: nat)
    requires Steps(ws, es) && i < j <= |es| && es[i].Claim? && PassesOver(ws, es, i, j, u)
    ensures LastClaimed(ws[j].turns, u) == LastClaimed(ws[i].turns, u)
    ensures es[i].id < |ws[i].turns| && ServedSince(ws[j].turns, es[i].id, ws[i].turns[es[i].id].user, es[i].claimedAt)
    decreases j
  {
    assert Bypasses(ws[i], es[i], u);
    var m := j - 1;
    assert Moves(ws[m], es[m], ws[j]);
    StepKeepsServices(ws[m], es[m], ws[j], u);
    LastClaimedKept(ws[m].turns, ws[j].turns, u);
    if i < m {
      Wait(ws, es, i, m, u);
      ServiceStays(ws[m], es[m], ws[j], u, es[i].id, ws[i].turns[es[i].id].user, es[i].claimedAt);
    }
  }

  lemma NotServedLater(turns: seq<Turn>, u: nat, now: nat)
    requires ClockForwards(turns, now)
    ensures !Earlier(Some(now), LastClaimed(turns, u))
  {
    LastClaimedBounds(turns, u);
    if LastClaimed(turns, u).Some? {
      var k :| 0 <= k < |turns| && turns[k].user == u && turns[k].claimedAt == LastClaimed(turns, u);
    }
  }

  /** The choice prefers the user that waited: somebody served since goes first again only on a tie. */
  lemma ChoicePrefersWaiting(turns: seq<Turn>, locked: set<nat>, chosen: nat, id: nat, u: nat, time: nat)
    requires Chosen(turns, locked, chosen) && Waiting(turns, locked, u) && turns[chosen].user != u
    requires !Earlier(Some(time), LastClaimed(turns, u))
    requires id < |turns| && ServedSince(turns, id, turns[id].user, time)
    ensures turns[chosen].user == turns[id].user ==> LastClaimed(turns, u) == Some(time)
  {
    var c: nat :| Candidate(turns, locked, c) && turns[c].user == u;
    assert Precedes(turns, chosen, c);
    LastClaimedBounds(turns, turns[chosen].user);
  }

  /** Two claims made while u waits serve two different users, unless u itself was last served in the
      very second of the first of them. */
  lemma NobodyIsServedTwice(ws: seq<World>, es: seq<WorldEvent>, i: nat, j: nat, u: nat)
    requires Steps(ws, es) && i < j < |es| && es[i].Claim? && es[j].Claim? && PassesOver(ws, es, i, j + 1, u)
    ensures es[i].id < |ws[i].turns| && es[j].id < |ws[j].turns|
    ensures ws[i].turns[es[i].id].user != ws[j].turns[es[j].id].user
            || LastClaimed(ws[i].turns, u) == Some(es[i].claimedAt)
  {
    assert Bypasses(ws[j], es[j], u) && Bypasses(ws[i], es[i], u);
    NotServedLater(ws[i].turns, u, es[i].claimedAt);
    Wait(ws, es, i, j, u);
    assert Moves(ws[j], es[j], ws[j + 1]);
    ChoicePrefersWaiting(ws[j].turns, es[j].locked, es[j].id, es[i].id, u, es[i].claimedAt);
  }

  // ----- Counting -----

  /** u was not served in the second of any claim of the stretch. */
  ghost predicate NoTie(ws: seq<World>, es: seq<WorldEvent>, i: nat, n: nat, u: nat)
    requires Steps(ws, es) && n <= |es|
  {
    forall k | i <= k < n && es[k].Claim? :: LastClaimed(ws[k].turns, u) != Some(es[k].claimedAt)
  }

  ghost function ClaimCount(es: seq<WorldEvent>, i: nat, n: nat): nat
    requires i <= n <= |es|
  {
    if i == n then 0 else ClaimCount(es, i, n - 1) + if es[n - 1].Claim? then 1 else 0
  }

  ghost predicate Serves(ws: seq<World>, es: seq<WorldEvent>, k: nat, v: nat)
    requires Steps(ws, es)
  {
    k < |es| && es[k].Claim? && es[k].id < |ws[k].turns| && ws[k].turns[es[k].id].user == v
  }

  ghost predicate ServedIn(ws: seq<World>, es: seq<WorldEvent>, i: nat, n: nat, v: nat)
    requires Steps(ws, es)
  {
    exists k: nat :: i <= k < n && Serves(ws, es, k, v)
  }

  lemma ServedLonger(ws: seq<World>, es: seq<WorldEvent>, i: nat, m: nat, v: nat)
    requires Steps(ws, es) && ServedIn(ws, es, i, m, v)
    ensures ServedIn(ws, es, i, m + 1, v)
  {
    var k: nat :| i <= k < m && Serves(ws, es, k, v);
    assert i <= k < m + 1 && Serves(ws, es, k, v);
  }

  lemma ServedAnew(ws: seq<World>, es: seq<WorldEvent>, i: nat, m: nat, u: nat)
    requires Steps(ws, es) && i <= m < |es| && es[m].Claim?
    requires PassesOver(ws, es, i, m + 1, u) && NoTie(ws, es, i, m + 1, u)
    ensures es[m].id < |ws[m].turns| && var v := ws[m].turns[es[m].id].user; v != u && !ServedIn(ws, es, i, m, v)
    ensures ServedIn(ws, es, i, m + 1, ws[m].turns[es[m].id].user)
  {
    assert Bypasses(ws[m], es[m], u);
    var v := ws[m].turns[es[m].id].user;
    assert Serves(ws, es, m, v);
    if ServedIn(ws, es, i, m, v) {
      var k: nat :| i <= k < m && Serves(ws, es, k, v);
      NobodyIsServedTwice(ws, es, k, m, u);
    }
  }

  /** The users served in a stretch, counted. */
  ghost predicate Counted(ws: seq<World>, es: seq<WorldEvent>, i: nat, n: nat, u: nat, users: set<nat>, served: set<nat>)
    requires Steps(ws, es) && i <= n <= |es|
  {
    && |served| == ClaimCount(es, i, n) && served <= users - {u}
    && forall v | v in served :: ServedIn(ws, es, i, n, v)
  }

  lemma OneMore(before: set<nat>, v: nat, users: set<nat>, u: nat)
    requires before <= users - {u} && v in users && v != u
    ensures before + {v} <= users - {u} && (v !in before ==> |before + {v}| == |before| + 1)
  {
  }

  lemma AddServed(ws: seq<World>, es: seq<WorldEvent>, i: nat, m: nat, u: nat, users: set<nat>, before: set<nat>)
      returns (served: set<nat>)
    requires Steps(ws, es) && i <= m < |es| && Counted(ws, es, i, m, u, users, before)
    requires PassesOver(ws, es, i, m + 1, u) && NoTie(ws, es, i, m + 1, u)
    requires forall v | Serves(ws, es, m, v) :: v in users
    ensures Counted(ws, es, i, m + 1, u, users, served)
  {
    forall v | v in before ensures ServedIn(ws, es, i, m + 1, v) { ServedLonger(ws, es, i, m, v); }
    served := before;
    if es[m].Claim? {
      ServedAnew(ws, es, i, m, u);
      var v := ws[m].turns[es[m].id].user;
      assert Serves(ws, es, m, v);
      OneMore(before, v, users, u);
      served := before + {v};
    }
  }

  lemma {:induction false} CountServed(ws: seq<World>, es: seq<WorldEvent>, i: nat, n: nat, u: nat, users: set<nat>)
      returns (served: set<nat>)
    requires Steps(ws, es) && i <= n <= |es| && PassesOver(ws, es, i, n, u) && NoTie(ws, es, i, n, u)
    requires ServesOnly(ws, es, i, n, users)
    ensures Counted(ws, es, i, n, u, users, served)
    decreases n
  {
    if i == n { return {}; }
    var before := CountServed(ws, es, i, n - 1, u, users);
    served := AddServed(ws, es, i, n - 1, u, users, before);
  }

  ghost predicate ServesOnly(ws: seq<World>, es: seq<WorldEvent>, i: nat, n: nat, users: set<nat>)
    requires Steps(ws, es)
  {
    forall k: nat, v | i <= k < n && Serves(ws, es, k, v) :: v in users
  }

  lemma SubsetSize(a: set<nat>, b: set<nat>)
    requires a <= b
    ensures |a| <= |b|
  {
    if a != {} {
      var x :| x in a;
      SubsetSize(a - {x}, b - {x});
    }
  }

  /** Bounded bypass: with a fixed set of users, a waiting user is passed over at most once for
      every other user. */
  lemma BoundedBypass(ws: seq<World>, es: seq<WorldEvent>, i: nat, n: nat, u: nat, users: set<nat>)
    requires Steps(ws, es) && i <= n <= |es| && PassesOver(ws, es, i, n, u) && NoTie(ws, es, i, n, u)
    requires ServesOnly(ws, es, i, n, users) && u in users
    ensures ClaimCount(es, i, n) <= |users| - 1
  {
    var served := CountServed(ws, es, i, n, u, users);
    SubsetSize(served, users - {u});
  }
}
