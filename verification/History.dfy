/** The history of one delivery row: the claims and marks that took effect on it, oldest
    first, and the row they add up to. */
module Ledger {
  import opened Wrappers
  import opened Schema
  import opened Routing
  import opened Fenced

  datatype Entry =
    | Claimed(token: Token, attempt: int, at: Time)
    | Marked(token: Token, mark: Mark, at: Time)

  datatype History = History(created: Time, entries: seq<Entry>)

  function Act(d: Delivery, en: Entry): Delivery {
    match en
    case Claimed(t, a, at) => ClaimedRow(d, a, t, at)
    case Marked(_, m, at) => MarkedRow(d, m, at)
  }

  function Replay(h: History): Delivery
    decreases |h.entries|
  {
    if h.entries == [] then QueuedRow(h.created)
    else
      var n := |h.entries| - 1;
      Act(Replay(History(h.created, h.entries[..n])), h.entries[n])
  }

  function Extend(h: History, en: Entry): History {
    h.(entries := h.entries + [en])
  }

  /** A verdict: a mark that makes the row terminal. */
  predicate Verdict(en: Entry) {
    en.Marked? && Terminal(NewStatus(en.mark))
  }

  predicate Settled(h: History) {
    h.entries != [] && Verdict(h.entries[|h.entries| - 1])
  }

  /** A mark directly follows the claim of the same token, nothing follows a verdict, and no
      token claims twice. */
  ghost predicate Legal(h: History) {
    var es := h.entries;
    && (forall i :: 0 <= i < |es| && es[i].Marked? ==> 0 < i && es[i - 1].Claimed? && es[i - 1].token == es[i].token)
    && (forall i :: 0 <= i < |es| - 1 ==> !Verdict(es[i]))
    && (forall i, j :: 0 <= i < j < |es| && es[i].Claimed? && es[j].Claimed? ==> es[i].token != es[j].token)
  }

  /** Token of the last claim in the history. */
  function LastClaimer(es: seq<Entry>): Option<Token> {
    if es == [] then None
    else if es[|es| - 1].Claimed? then Some(es[|es| - 1].token)
    else LastClaimer(es[..|es| - 1])
  }

  function Claims(es: seq<Entry>): nat {
    if es == [] then 0 else Claims(es[..|es| - 1]) + if es[|es| - 1].Claimed? then 1 else 0
  }

  lemma {:induction false} ReplayExtend(h: History, en: Entry)
    ensures Replay(Extend(h, en)) == Act(Replay(h), en)
  {
    assert Extend(h, en).entries[..|h.entries|] == h.entries;
  }

  lemma LegalExtend(h: History, en: Entry)
    requires Legal(h) && !Settled(h)
    requires en.Marked? ==>
               h.entries != [] && h.entries[|h.entries| - 1].Claimed? && h.entries[|h.entries| - 1].token == en.token
    requires en.Claimed? ==>
               forall i :: 0 <= i < |h.entries| && h.entries[i].Claimed? ==> h.entries[i].token != en.token
    ensures Legal(Extend(h, en))
  {
  }

  /** The row is terminal exactly when its history is settled. */
  lemma {:induction false} SettledIffTerminal(h: History)
    ensures Settled(h) <==> Terminal(Replay(h).status)
  {
  }

  /** The row runs under a token exactly when the last entry is that token's claim, and then
      `last_attempted_at` is the time of that claim. */
  lemma {:induction false} RunningIffLastEntryClaims(h: History, token: Token)
    requires Legal(h)
    ensures var d := Replay(h); var es := h.entries;
            (d.status == Running && d.leaseToken == Some(token))
            <==> (es != [] && es[|es| - 1].Claimed? && es[|es| - 1].token == token)
    ensures var d := Replay(h); var es := h.entries;
            d.status == Running ==> es != [] && es[|es| - 1].Claimed? && d.lastAttemptedAt == Some(es[|es| - 1].at)
  {
  }

  /** Whoever wrote the last entry made the last claim. */
  lemma LastEntryIsLastClaimers(h: History)
    requires Legal(h) && h.entries != []
    ensures LastClaimer(h.entries) == Some(h.entries[|h.entries| - 1].token)
  {
    var n := |h.entries| - 1;
    if h.entries[n].Marked? {
      assert h.entries[..n][n - 1] == h.entries[n - 1];
    }
  }

  /** At most one verdict is ever recorded for a delivery. */
  lemma AtMostOneVerdict(h: History, i: nat, j: nat)
    requires Legal(h) && i < |h.entries| && j < |h.entries| && Verdict(h.entries[i]) && Verdict(h.entries[j])
    ensures i == j == |h.entries| - 1 && Settled(h)
  {
  }

  // ---- the attempts column -------------------------------------------------

  /** `v` is the maximum of 1 and the attempt numbers of all claims in `es`. */
  ghost predicate IsPeak(v: int, es: seq<Entry>) {
    && v >= 1
    && (forall i :: 0 <= i < |es| && es[i].Claimed? ==> es[i].attempt <= v)
    && (v == 1 || exists i :: 0 <= i < |es| && es[i].Claimed? && es[i].attempt == v)
  }

  /** Attempts are 0 before the first claim and afterwards the peak of the claimed attempts,
      in whatever order the claims came. */
  lemma {:induction false} AttemptsIsPeak(h: History)
    ensures if Claims(h.entries) == 0 then Replay(h).attempts == 0 else IsPeak(Replay(h).attempts, h.entries)
    decreases |h.entries|
  {
    var es := h.entries;
    if es != [] {
      var n := |es| - 1;
      var p := History(h.created, es[..n]);
      AttemptsIsPeak(p);
      assert forall i :: 0 <= i < n ==> es[i] == p.entries[i];
      var v, w := Replay(p).attempts, Replay(h).attempts;
      if Claims(p.entries) == 0 {
        NoClaims(p.entries);
      }
      if es[n].Claimed? {
        if w != 1 && w != es[n].attempt {
          var i :| 0 <= i < n && p.entries[i].Claimed? && p.entries[i].attempt == v;
          assert es[i].Claimed? && es[i].attempt == w;
        }
      } else if Claims(es) > 0 && v != 1 {
        var i :| 0 <= i < n && p.entries[i].Claimed? && p.entries[i].attempt == v;
        assert es[i].Claimed? && es[i].attempt == v;
      }
    }
  }

  lemma {:induction false} NoClaims(es: seq<Entry>)
    requires Claims(es) == 0
    ensures forall i :: 0 <= i < |es| ==> !es[i].Claimed?
  {
    if es != [] {
      NoClaims(es[..|es| - 1]);
      forall i | 0 <= i < |es| ensures !es[i].Claimed? {
        if i < |es| - 1 { assert es[i] == es[..|es| - 1][i]; }
      }
    }
  }

  /** Extending a history never lowers attempts. */
  lemma {:induction false} AttemptsNeverDecrease(h: History, en: Entry)
    ensures Replay(Extend(h, en)).attempts >= Replay(h).attempts
  {
    ReplayExtend(h, en);
  }
}
