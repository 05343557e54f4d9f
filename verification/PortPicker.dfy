/** Choice of a listening port (panel/infrastructure/vpn/port_picker.py). The bind check and
    the random draw are oracles. */
module PortPicker {
  import opened Wrappers

  /** `udp` and the port number decide whether a bind would succeed right now. */
  type BindCheck = (int, bool) -> bool

  function Unblocked(candidates: seq<int>, blocked: set<int>): (r: seq<int>)
    ensures forall p :: p in r <==> p in candidates && p !in blocked
  {
    if candidates == [] then []
    else (if candidates[0] in blocked then [] else [candidates[0]]) + Unblocked(candidates[1..], blocked)
  }

  function Bindable(pool: seq<int>, free: BindCheck, udp: bool): (r: seq<int>)
    ensures forall p :: p in r <==> p in pool && free(p, udp)
  {
    if pool == [] then []
    else (if free(pool[0], udp) then [pool[0]] else []) + Bindable(pool[1..], free, udp)
  }

  function Choose<T>(xs: seq<T>, draw: nat): T
    requires xs != []
  {
    xs[draw % |xs|]
  }

  predicate HasUnblocked(candidates: seq<int>, blocked: set<int>)
  {
    exists p :: p in candidates && p !in blocked
  }

  /** Candidates outside the blocked set or, when none is left, all of them. */
  function Pool(candidates: seq<int>, blocked: set<int>): (r: seq<int>)
    ensures forall p :: p in r <==> p in candidates && (p in blocked ==> !HasUnblocked(candidates, blocked))
  {
    var unblocked := Unblocked(candidates, blocked);
    if unblocked == [] then
      assert forall p :: p in candidates ==> p in blocked || p in unblocked;
      candidates
    else
      var p := unblocked[0];
      assert p in unblocked;
      assert p in candidates && p !in blocked;
      assert HasUnblocked(candidates, blocked);
      unblocked
  }

  function PickPort(candidates: seq<int>, blocked: set<int>, free: BindCheck, udp: bool, preferred: Option<int>, draw: nat): Result<int>
  {
    if candidates == [] then Raised
    else if preferred.Some? && preferred.value in candidates then Ok(preferred.value)
    else
      var available := Bindable(Pool(candidates, blocked), free, udp);
      if available == [] then Raised else Ok(Choose(available, draw))
  }

  predicate UsesPreferred(candidates: seq<int>, preferred: Option<int>)
  {
    preferred.Some? && preferred.value in candidates
  }

  /** A pick is always a candidate. A preferred candidate wins outright, blocked or not, bindable
      or not. Any other pick is bindable, and it is a blocked port exactly when every candidate is
      blocked. */
  lemma PickPortMeaning(candidates: seq<int>, blocked: set<int>, free: BindCheck, udp: bool, preferred: Option<int>, draw: nat)
    requires PickPort(candidates, blocked, free, udp, preferred, draw).Ok?
    ensures var p := PickPort(candidates, blocked, free, udp, preferred, draw).value;
            && p in candidates
            && (UsesPreferred(candidates, preferred) ==> p == preferred.value)
            && (!UsesPreferred(candidates, preferred) ==>
                  free(p, udp) && (p in blocked <==> !HasUnblocked(candidates, blocked)))
  {
    if !UsesPreferred(candidates, preferred) {
      var available := Bindable(Pool(candidates, blocked), free, udp);
      var p := available[draw % |available|];
      assert p in available;
      assert p in Pool(candidates, blocked);
    }
  }

  /** The draw can reach every port that the rules allow. */
  lemma PickPortReaches(candidates: seq<int>, blocked: set<int>, free: BindCheck, udp: bool, preferred: Option<int>, p: int)
    requires p in candidates && free(p, udp) && !UsesPreferred(candidates, preferred)
    requires p in blocked <==> !HasUnblocked(candidates, blocked)
    ensures exists draw: nat :: PickPort(candidates, blocked, free, udp, preferred, draw) == Ok(p)
  {
    var available := Bindable(Pool(candidates, blocked), free, udp);
    assert p in available;
    var i :| 0 <= i < |available| && available[i] == p;
    SmallMod(i, |available|);
    assert PickPort(candidates, blocked, free, udp, preferred, i) == Ok(p);
  }

  lemma SmallMod(i: nat, n: nat)
    requires i < n
    ensures i % n == i
  {
  }

  /** No pick is possible exactly when no allowed port can be bound. */
  lemma PickPortRaises(candidates: seq<int>, blocked: set<int>, free: BindCheck, udp: bool, preferred: Option<int>, draw: nat)
    ensures PickPort(candidates, blocked, free, udp, preferred, draw).Raised? <==>
            && !UsesPreferred(candidates, preferred)
            && forall p :: p in candidates && (p in blocked ==> !HasUnblocked(candidates, blocked)) ==> !free(p, udp)
  {
    var available := Bindable(Pool(candidates, blocked), free, udp);
    if available != [] {
      var p := available[0];
      assert p in available;
      assert p in Pool(candidates, blocked);
      assert p in candidates && (p in blocked ==> !HasUnblocked(candidates, blocked)) && free(p, udp);
    } else {
      forall p | p in candidates && (p in blocked ==> !HasUnblocked(candidates, blocked)) ensures !free(p, udp) {
        assert p in Pool(candidates, blocked);
        assert free(p, udp) ==> p in available;
      }
    }
  }
}
