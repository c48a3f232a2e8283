/**
 * The eligible-subset filters (main.go:117-122, 133-147, 173-187, 190-195,
 * 294-309). Each walks its catalog in order and keeps the entries whose rule
 * admits the current state and whose name clashes with nothing already held.
 * Each filter is specified by a function over a catalog prefix, `xs`, that keeps
 * the eligible entries of `xs` in their order, and a lemma saying that an entry
 * is kept exactly when it is in `xs` and eligible.
 */
module Filters {
  import opened Rules
  import opened Catalogs

  // ----- ethics: getEthicList (main.go:173-187) -----

  /** An ethic is eligible when its rule admits the empire and neither its name nor its fanatic form is held. */
  predicate EthicEligible(x: Ethic, e: Empire)
  {
    Allows(x.allowed, e) && x.name !in EthicNames(e.ethics) && Fanatic(x.name) !in EthicNames(e.ethics)
  }

  /** The eligible ethics of `xs`, in their order in `xs`. */
  function EthicsFrom(xs: seq<Ethic>, e: Empire): seq<Ethic>
  {
    if xs == [] then []
    else EthicsFrom(xs[..|xs| - 1], e) + (if EthicEligible(xs[|xs| - 1], e) then [xs[|xs| - 1]] else [])
  }

  function EthicList(e: Empire): seq<Ethic>
  {
    EthicsFrom(AllEthics, e)
  }

  lemma {:induction false} EthicsFromMembers(xs: seq<Ethic>, e: Empire, x: Ethic)
    ensures x in EthicsFrom(xs, e) <==> x in xs && EthicEligible(x, e)
  {
    if xs != [] {
      var n := |xs| - 1;
      EthicsFromMembers(xs[..n], e, x);
      assert xs == xs[..n] + [xs[n]];
    }
  }

  lemma EthicListMembers(e: Empire, x: Ethic)
    ensures x in EthicList(e) <==> x in AllEthics && EthicEligible(x, e)
  {
    EthicsFromMembers(AllEthics, e, x);
  }

  /** The scan of getEthicList over an ethic catalog. */
  method FilterEthics(catalog: seq<Ethic>, e: Empire) returns (result: seq<Ethic>)
    ensures result == EthicsFrom(catalog, e)
  {
    result := [];
    var held := EthicNames(e.ethics);
    label Outer:
    for i := 0 to |catalog|
      invariant result == EthicsFrom(catalog[..i], e)
    {
      assert catalog[..i + 1][..i] == catalog[..i];
      var ethic := catalog[i];
      var fanatic := Fanatic(ethic.name);
      if Allows(ethic.allowed, e) {
        for j := 0 to |e.ethics|
          invariant ethic.name !in held[..j] && fanatic !in held[..j]
        {
          var existing := e.ethics[j];
          if existing.name == ethic.name || existing.name == fanatic {
            assert held[j] == existing.name;
            continue Outer;
          }
          assert held[..j + 1] == held[..j] + [existing.name];
        }
        assert held[..|e.ethics|] == held;
        result := result + [ethic];
      }
    }
    assert catalog[..|catalog|] == catalog;
  }

  /** getEthicList (main.go:173-187) over its catalog. */
  method GetEthicList(e: Empire) returns (result: seq<Ethic>)
    ensures result == EthicList(e)
  {
    result := FilterEthics(AllEthics, e);
  }


  // ----- civics: getCivicList (main.go:133-147) -----

  /** A civic is eligible when its rule admits the empire and no held civic has its name. */
  predicate CivicEligible(c: Civic, e: Empire)
  {
    Allows(c.allowed, e) && c.name !in CivicNames(e.civics)
  }

  /** The eligible civics of `xs`, in their order in `xs`. */
  function CivicsFrom(xs: seq<Civic>, e: Empire): seq<Civic>
  {
    if xs == [] then []
    else CivicsFrom(xs[..|xs| - 1], e) + (if CivicEligible(xs[|xs| - 1], e) then [xs[|xs| - 1]] else [])
  }

  function CivicList(e: Empire): seq<Civic>
  {
    CivicsFrom(AllCivics, e)
  }

  lemma {:induction false} CivicsFromMembers(xs: seq<Civic>, e: Empire, c: Civic)
    ensures c in CivicsFrom(xs, e) <==> c in xs && CivicEligible(c, e)
  {
    if xs != [] {
      var n := |xs| - 1;
      CivicsFromMembers(xs[..n], e, c);
      assert xs == xs[..n] + [xs[n]];
    }
  }

  lemma CivicListMembers(e: Empire, c: Civic)
    ensures c in CivicList(e) <==> c in AllCivics && CivicEligible(c, e)
  {
    CivicsFromMembers(AllCivics, e, c);
  }

  /** The scan of getCivicList over a civic catalog. */
  method FilterCivics(catalog: seq<Civic>, e: Empire) returns (result: seq<Civic>)
    ensures result == CivicsFrom(catalog, e)
  {
    result := [];
    var held := CivicNames(e.civics);
    label Outer:
    for i := 0 to |catalog|
      invariant result == CivicsFrom(catalog[..i], e)
    {
      assert catalog[..i + 1][..i] == catalog[..i];
      var civic := catalog[i];
      if Allows(civic.allowed, e) {
        for j := 0 to |e.civics|
          invariant civic.name !in held[..j]
        {
          var existing := e.civics[j];
          if existing.name == civic.name {
            assert held[j] == existing.name;
            continue Outer;
          }
          assert held[..j + 1] == held[..j] + [existing.name];
        }
        assert held[..|e.civics|] == held;
        result := result + [civic];
      }
    }
    assert catalog[..|catalog|] == catalog;
  }

  /** getCivicList (main.go:133-147) over its catalog. */
  method GetCivicList(e: Empire) returns (result: seq<Civic>)
    ensures result == CivicList(e)
  {
    result := FilterCivics(AllCivics, e);
  }


  // ----- traits: availableTraits (main.go:294-309) -----

  /**
   * A trait is available when its rule admits the species, it is not a
   * non-gestalt trait while `gestalt` is set, and no held trait has its name.
   */
  predicate TraitEligible(t: Trait, s: Species, gestalt: bool)
  {
    SpeciesAllows(t.allowed, s) && !(t.nonGestalt && gestalt) && t.name !in TraitNames(s.traits)
  }

  /** The available traits of `xs`, in their order in `xs`. */
  function TraitsFrom(xs: seq<Trait>, s: Species, gestalt: bool): seq<Trait>
  {
    if xs == [] then []
    else TraitsFrom(xs[..|xs| - 1], s, gestalt) + (if TraitEligible(xs[|xs| - 1], s, gestalt) then [xs[|xs| - 1]] else [])
  }

  function TraitList(s: Species, gestalt: bool): seq<Trait>
  {
    TraitsFrom(AllTraits, s, gestalt)
  }

  lemma {:induction false} TraitsFromMembers(xs: seq<Trait>, s: Species, gestalt: bool, t: Trait)
    ensures t in TraitsFrom(xs, s, gestalt) <==> t in xs && TraitEligible(t, s, gestalt)
  {
    if xs != [] {
      var n := |xs| - 1;
      TraitsFromMembers(xs[..n], s, gestalt, t);
      assert xs == xs[..n] + [xs[n]];
    }
  }

  lemma TraitListMembers(s: Species, gestalt: bool, t: Trait)
    ensures t in TraitList(s, gestalt) <==> t in AllTraits && TraitEligible(t, s, gestalt)
  {
    TraitsFromMembers(AllTraits, s, gestalt, t);
  }

  /** The scan of availableTraits over a trait catalog. */
  method FilterTraits(catalog: seq<Trait>, s: Species, gestalt: bool) returns (result: seq<Trait>)
    ensures result == TraitsFrom(catalog, s, gestalt)
  {
    result := [];
    var held := TraitNames(s.traits);
    label Outer:
    for i := 0 to |catalog|
      invariant result == TraitsFrom(catalog[..i], s, gestalt)
    {
      assert catalog[..i + 1][..i] == catalog[..i];
      var t := catalog[i];
      if !SpeciesAllows(t.allowed, s) || (t.nonGestalt && gestalt) {
        continue;
      }
      for j := 0 to |s.traits|
        invariant t.name !in held[..j]
      {
        var sTrait := s.traits[j];
        if t.name == sTrait.name {
          assert held[j] == sTrait.name;
          continue Outer;
        }
        assert held[..j + 1] == held[..j] + [sTrait.name];
      }
      assert held[..|s.traits|] == held;
      result := result + [t];
    }
    assert catalog[..|catalog|] == catalog;
  }

  /** availableTraits (main.go:294-309) over its catalog. */
  method AvailableTraits(s: Species, gestalt: bool) returns (result: seq<Trait>)
    ensures result == TraitList(s, gestalt)
  {
    result := FilterTraits(AllTraits, s, gestalt);
  }


  // ----- authorities and origins: the inline filters of chooseAuthority and chooseOrigin -----

  /** The authorities of `xs` whose rule admits the empire, in their order in `xs`. */
  function AuthoritiesFrom(xs: seq<Authority>, e: Empire): seq<Authority>
  {
    if xs == [] then []
    else AuthoritiesFrom(xs[..|xs| - 1], e) + (if Allows(xs[|xs| - 1].allowed, e) then [xs[|xs| - 1]] else [])
  }

  function AuthorityList(e: Empire): seq<Authority>
  {
    AuthoritiesFrom(AllAuthorities, e)
  }

  lemma {:induction false} AuthoritiesFromMembers(xs: seq<Authority>, e: Empire, a: Authority)
    ensures a in AuthoritiesFrom(xs, e) <==> a in xs && Allows(a.allowed, e)
  {
    if xs != [] {
      var n := |xs| - 1;
      AuthoritiesFromMembers(xs[..n], e, a);
      assert xs == xs[..n] + [xs[n]];
    }
  }

  lemma AuthorityListMembers(e: Empire, a: Authority)
    ensures a in AuthorityList(e) <==> a in AllAuthorities && Allows(a.allowed, e)
  {
    AuthoritiesFromMembers(AllAuthorities, e, a);
  }

  /** The scan of chooseAuthority (main.go:117-122) over an authority catalog. */
  method FilterAuthorities(catalog: seq<Authority>, e: Empire) returns (result: seq<Authority>)
    ensures result == AuthoritiesFrom(catalog, e)
  {
    result := [];
    for i := 0 to |catalog|
      invariant result == AuthoritiesFrom(catalog[..i], e)
    {
      assert catalog[..i + 1][..i] == catalog[..i];
      var auth := catalog[i];
      if Allows(auth.allowed, e) {
        result := result + [auth];
      }
    }
    assert catalog[..|catalog|] == catalog;
  }

  /** The origins of `xs` whose rule admits the empire, in their order in `xs`. */
  function OriginsFrom(xs: seq<Origin>, e: Empire): seq<Origin>
  {
    if xs == [] then []
    else OriginsFrom(xs[..|xs| - 1], e) + (if Allows(xs[|xs| - 1].allowed, e) then [xs[|xs| - 1]] else [])
  }

  function OriginList(e: Empire): seq<Origin>
  {
    OriginsFrom(AllOrigins, e)
  }

  lemma {:induction false} OriginsFromMembers(xs: seq<Origin>, e: Empire, o: Origin)
    ensures o in OriginsFrom(xs, e) <==> o in xs && Allows(o.allowed, e)
  {
    if xs != [] {
      var n := |xs| - 1;
      OriginsFromMembers(xs[..n], e, o);
      assert xs == xs[..n] + [xs[n]];
    }
  }

  lemma OriginListMembers(e: Empire, o: Origin)
    ensures o in OriginList(e) <==> o in AllOrigins && Allows(o.allowed, e)
  {
    OriginsFromMembers(AllOrigins, e, o);
  }

  /** The scan of chooseOrigin (main.go:190-195) over an origin catalog. */
  method FilterOrigins(catalog: seq<Origin>, e: Empire) returns (result: seq<Origin>)
    ensures result == OriginsFrom(catalog, e)
  {
    result := [];
    for i := 0 to |catalog|
      invariant result == OriginsFrom(catalog[..i], e)
    {
      assert catalog[..i + 1][..i] == catalog[..i];
      var origin := catalog[i];
      if Allows(origin.allowed, e) {
        result := result + [origin];
      }
    }
    assert catalog[..|catalog|] == catalog;
  }
}
