/**
 * The linking pass: every close approach calls `assign_neo` against one
 * designation -> NEO dict, in the order the approaches were loaded.
 */
module Linking {
  import opened Wrappers
  import opened Models

  /** The approaches of `events`, in their order, whose raw designation resolves to `n`. */
  function Owned(events: seq<CloseApproach>, neos: map<string, NearEarthObject>, n: NearEarthObject)
    : seq<CloseApproach>
  {
    if events == [] then []
    else
      var last := events[|events| - 1];
      Owned(events[..|events| - 1], neos, n) + (if Resolve(neos, last.designationRef) == n then [last] else [])
  }

  /**
   * Calls `AssignNeo(neos)` on each approach in turn. Afterwards each approach
   * is linked to what its designation resolves to, and each NEO's list has
   * gained exactly the approaches it owns, in input order.
   */
  method LinkAll(events: seq<CloseApproach>, neos: map<string, NearEarthObject>)
    modifies (set e | e in events)`neo
    modifies neos.Values`approaches
    ensures forall e :: e in events ==> e.neo == Resolve(neos, e.designationRef)
    ensures forall n :: n in neos.Values ==> n.approaches == old(n.approaches) + Owned(events, neos, n)
  {
    var i := 0;
    while i < |events|
      invariant 0 <= i <= |events|
      invariant forall j :: 0 <= j < i ==> events[j].neo == Resolve(neos, events[j].designationRef)
      invariant forall n :: n in neos.Values ==> n.approaches == old(n.approaches) + Owned(events[..i], neos, n)
    {
      var _ := events[i].AssignNeo(neos);
      assert events[..i + 1][..i] == events[..i];
      i := i + 1;
    }
    assert events[..i] == events;
  }

  /** Linking a batch after another appends the second batch's owned approaches after the first's. */
  lemma {:induction false} OwnedAppend(a: seq<CloseApproach>, b: seq<CloseApproach>,
                                       neos: map<string, NearEarthObject>, n: NearEarthObject)
    ensures Owned(a + b, neos, n) == Owned(a, neos, n) + Owned(b, neos, n)
    decreases |b|
  {
    if b == [] {
      assert a + b == a;
    } else {
      var last := b[|b| - 1];
      assert (a + b)[..|a + b| - 1] == a + b[..|b| - 1];
      OwnedAppend(a, b[..|b| - 1], neos, n);
    }
  }

  /**
   * An approach occurs in `n`'s owned list as often as in the input when its
   * designation resolves to `n`, and not at all otherwise.
   */
  lemma {:induction false} OwnedCount(events: seq<CloseApproach>, neos: map<string, NearEarthObject>,
                                      n: NearEarthObject, e: CloseApproach)
    ensures multiset(Owned(events, neos, n))[e] ==
            if Resolve(neos, e.designationRef) == n then multiset(events)[e] else 0
  {
    if events != [] {
      var prefix := events[..|events| - 1];
      assert events == prefix + [events[|events| - 1]];
      OwnedCount(prefix, neos, n, e);
    }
  }

  /** No approach is owned by two different NEOs. */
  lemma {:induction false} AtMostOneOwner(events: seq<CloseApproach>, neos: map<string, NearEarthObject>,
                                          n: NearEarthObject, m: NearEarthObject, e: CloseApproach)
    requires e in Owned(events, neos, n) && e in Owned(events, neos, m)
    ensures n == m
  {
    OwnedCount(events, neos, n, e);
    OwnedCount(events, neos, m, e);
  }

  /** When the input lists each approach once, each owned approach is owned exactly once. */
  lemma {:induction false} OwnedExactlyOnce(events: seq<CloseApproach>, neos: map<string, NearEarthObject>,
                                            n: NearEarthObject, e: CloseApproach)
    requires forall i, j :: 0 <= i < j < |events| ==> events[i] != events[j]
    requires e in events && Resolve(neos, e.designationRef) == n
    ensures multiset(Owned(events, neos, n))[e] == 1
  {
    OwnedCount(events, neos, n, e);
    DistinctOnce(events, e);
  }

  lemma {:induction false} DistinctOnce(events: seq<CloseApproach>, e: CloseApproach)
    requires forall i, j :: 0 <= i < j < |events| ==> events[i] != events[j]
    requires e in events
    ensures multiset(events)[e] == 1
  {
    var prefix := events[..|events| - 1];
    var last := events[|events| - 1];
    assert events == prefix + [last];
    if e == last {
      assert e !in prefix;
    } else {
      DistinctOnce(prefix, e);
    }
  }

  /**
   * The state `LinkAll` leaves behind, starting from NEOs with no approaches,
   * is linked both ways: every approach listed by a NEO points back to it,
   * every linked approach is listed by its NEO, and an unlinked approach is
   * listed by no NEO.
   */
  lemma {:induction false} LinkedBothWays(events: seq<CloseApproach>, neos: map<string, NearEarthObject>)
    requires forall e :: e in events ==> e.neo == Resolve(neos, e.designationRef)
    requires forall n :: n in neos.Values ==> n.approaches == Owned(events, neos, n)
    ensures forall n, e :: n in neos.Values && e in n.approaches ==> e in events && e.neo == n
    ensures forall e :: e in events && e.neo != null ==> e.neo in neos.Values && e in e.neo.approaches
    ensures forall n, e :: n in neos.Values && e in events && e.neo == null ==> e !in n.approaches
  {
    forall n, e | n in neos.Values && e in n.approaches
      ensures e in events && e.neo == n
    {
      OwnedCount(events, neos, n, e);
    }
    forall e | e in events && e.neo != null
      ensures e.neo in neos.Values && e in e.neo.approaches
    {
      OwnedCount(events, neos, e.neo, e);
    }
    forall n, e | n in neos.Values && e in events && e.neo == null
      ensures e !in n.approaches
    {
      OwnedCount(events, neos, n, e);
    }
  }

  /**
   * Two sample records: 433/Eros with a diameter, and 2015 AB with no name or
   * diameter, first flagged hazardous and then built from the defaults alone.
   */
  method ConstructScenario() {
    var toFloat := (s: string) => if s == "16.84" then Some(16.84) else None;
    var eros := new NearEarthObject(toFloat, "433", "Eros", "16.84", "N");
    assert eros.name == Some("Eros") && eros.diameter == Some(16.84) && !eros.hazardous;
    var nameless := new NearEarthObject(toFloat, "2015 AB", "", "", "Y");
    assert nameless.name == None && nameless.diameter == None && nameless.hazardous;
    var bare := new NearEarthObject(toFloat, "2015 AB");
    assert bare.name == None && bare.diameter == None && !bare.hazardous && bare.approaches == [];
  }

  /** One NEO, "433", and two approaches: one to "433", one to an unknown designation. */
  method LinkScenario(toFloat: string -> Float)
    requires ParsesNaN(toFloat)
  {
    var eros := new NearEarthObject(toFloat, "433", "Eros", "16.84", "N");
    var hit := new CloseApproach("433", "1900-12-27 01:30", "0.5", "5.0", toFloat);
    var miss := new CloseApproach("unknown-object", "1900-12-27 01:30", "0.5", "5.0", toFloat);
    var neos := map["433" := eros];
    assert neos["433"] == eros && eros in neos.Values;
    LinkAll([hit, miss], neos);
    assert [hit, miss][..1] == [hit] && [hit][..0] == [];
    assert Resolve(neos, "433") == eros && Resolve(neos, "unknown-object") == null;
    assert Owned([hit], neos, eros) == [hit];
    assert Owned([hit, miss], neos, eros) == [hit];
    assert eros.approaches == [hit];
    assert hit.neo == eros && miss.neo == null;
    assert hit.Subject() == "433 (Eros)" && miss.Subject() == "unknown-object";
  }
}
