/** The bounded set of signatures already shown, `rememberSeenSignature` of hooks/useOffpayWalletActivityStream.ts. A JavaScript
    Set is modelled as its elements in insertion order. */
module SeenSignatures {
  import opened Ordering

  const SEEN_SIGNATURES_LIMIT: nat := 200

  /** The unbounded specification: the signatures let through so far, oldest first. */
  function LetThrough(events: seq<string>): seq<string> {
    if events == [] then []
    else
      var log, signature := LetThrough(events[..|events| - 1]), events[|events| - 1];
      if signature in Recent(log) then log else log + [signature]
  }

  /** The last 200 signatures let through. */
  function Recent(log: seq<string>): seq<string> {
    if |log| <= SEEN_SIGNATURES_LIMIT then log else log[|log| - SEEN_SIGNATURES_LIMIT..]
  }

  class Scope {
    ghost var events: seq<string>  // every signature offered so far
    var elements: seq<string>

    /** The set is the recent part of the log of what was let through. */
    ghost predicate Valid()
      reads this
    {
      elements == Recent(LetThrough(events))
    }

    constructor ()
      ensures Valid() && events == []
    {
      elements, events := [], [];
    }

    method RememberSeenSignature(signature: string) returns (isNew: bool)
      requires Valid()
      modifies this
      ensures Valid() && events == old(events) + [signature]
      ensures isNew <==> signature !in old(elements)
      ensures LetThrough(events) == LetThrough(old(events)) + (if isNew then [signature] else [])
    {
      LetThroughStep(events, signature);
      RecentStep(LetThrough(events), signature);
      events := events + [signature];
      if signature in elements { return false; }
      elements := elements + [signature];
      if |elements| > SEEN_SIGNATURES_LIMIT { elements := elements[1..]; }
      return true;
    }
  }

  /** Equal signatures are more than 200 places apart. */
  ghost predicate Spaced(log: seq<string>) {
    forall i, j :: 0 <= i < j < |log| && log[i] == log[j] ==> j - i > SEEN_SIGNATURES_LIMIT
  }

  /** A signature is shown again only after at least 200 other signatures were shown, so the set never holds one twice; and
      nothing is lost: every event's signature is shown at least once. */
  lemma {:induction false} ShownAgainOnlyAfterTheLimit(events: seq<string>)
    ensures Spaced(LetThrough(events)) && NoRepeats(Recent(LetThrough(events)))
    ensures forall e :: e in events <==> e in LetThrough(events)
  {
    hide Recent, NoRepeats;
    if events != [] {
      var init, signature := events[..|events| - 1], events[|events| - 1];
      ShownAgainOnlyAfterTheLimit(init);
      assert events == init + [signature];
      RecentIsPart(LetThrough(init));
      if signature !in Recent(LetThrough(init)) { SpacedGrows(LetThrough(init), signature); }
    }
    SpacedRecent(LetThrough(events));
  }

  lemma SpacedGrows(log: seq<string>, signature: string)
    requires Spaced(log) && signature !in Recent(log)
    ensures Spaced(log + [signature])
  {
    hide Recent;
    var grown := log + [signature];
    forall i, j | 0 <= i < j < |grown| && grown[i] == grown[j] ensures j - i > SEEN_SIGNATURES_LIMIT {
      if j == |log| && |log| - i <= SEEN_SIGNATURES_LIMIT { InRecent(log, i); }
    }
  }

  lemma SpacedRecent(log: seq<string>)
    requires Spaced(log)
    ensures NoRepeats(Recent(log))
  {
    var start := |log| - |Recent(log)|;
    assert forall i :: 0 <= i < |Recent(log)| ==> Recent(log)[i] == log[start + i];
  }

  lemma LetThroughStep(events: seq<string>, signature: string)
    ensures LetThrough(events + [signature])
            == LetThrough(events) + (if signature in Recent(LetThrough(events)) then [] else [signature])
  {
    assert (events + [signature])[..|events|] == events;
    assert (events + [signature])[|events|] == signature;
  }

  lemma RecentStep(log: seq<string>, signature: string)
    ensures var grown := Recent(log) + [signature];
            Recent(log + [signature]) == if |grown| > SEEN_SIGNATURES_LIMIT then grown[1..] else grown
  {
  }

  lemma InRecent(log: seq<string>, i: nat)
    requires i < |log| && |log| - i <= SEEN_SIGNATURES_LIMIT
    ensures log[i] in Recent(log)
  {
    if |log| > SEEN_SIGNATURES_LIMIT {
      assert Recent(log)[i - (|log| - SEEN_SIGNATURES_LIMIT)] == log[i];
    }
  }

  lemma RecentIsPart(log: seq<string>)
    ensures forall x :: x in Recent(log) ==> x in log
  {
  }
}
