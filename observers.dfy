// The observer sets of the PoseSynth transformers: a HashSet of observers, added and
// removed with set semantics, and a Notify that calls every member once.
module Observers {

  /** An observer, known only by its identity. */
  datatype ObserverId = ObserverId(id: nat)

  /** A HashSet of observers together with the log of the calls Notify has made:
      one entry per call of an observer's OnNotified. */
  class ObserverSet {
    var members: set<ObserverId>
    var calls: seq<ObserverId>

    constructor ()
      ensures members == {} && calls == []
    {
      members := {};
      calls := [];
    }

    /** HashSet.Add: adding a member twice leaves one copy. */
    method Add(o: ObserverId)
      modifies this
      ensures members == old(members) + {o} && calls == old(calls)
    {
      members := members + {o};
    }

    /** HashSet.Remove: removing an absent observer changes nothing. */
    method Remove(o: ObserverId)
      modifies this
      ensures members == old(members) - {o} && calls == old(calls)
    {
      members := members - {o};
    }

    /** Since the log read `before`, one Notify has run: every member was called
        exactly once, after the earlier calls, and no one else was called. */
    ghost predicate NotifiedOnce(before: seq<ObserverId>)
      reads this
    {
      |calls| == |before| + |members| && calls[..|before|] == before &&
      multiset(calls[|before|..]) == multiset(members)
    }

    /** Notify: a foreach over the set; every member is called exactly once and no
        one else is called. */
    method Notify()
      modifies this
      ensures members == old(members)
      ensures |calls| == |old(calls)| + |members|
      ensures calls[..|old(calls)|] == old(calls)
      ensures multiset(calls[|old(calls)|..]) == multiset(members)
      ensures NotifiedOnce(old(calls))
    {
      ghost var before := calls;
      var rest := members;
      while rest != {}
        invariant members == old(members) && rest <= members
        invariant |before| <= |calls| && |calls| + |rest| == |before| + |members|
        invariant calls[..|before|] == before
        invariant multiset(calls[|before|..]) + multiset(rest) == multiset(members)
        decreases |rest|
      {
        var o :| o in rest;
        ghost var done := calls[|before|..];
        calls := calls + [o];
        assert calls[|before|..] == done + [o];
        assert multiset(rest) == multiset(rest - {o}) + multiset{o};
        rest := rest - {o};
      }
    }
  }
}
