/**
 * The single-attribute draws of an empire: chooseAuthority (main.go:116-125),
 * chooseCivic (main.go:127-131), chooseOrigin (main.go:189-198) and
 * chooseHomeplanet (main.go:200-204).
 *
 * Each draw filters its catalog against the empire built so far, picks one
 * eligible entry with a single draw and commits it to one field, leaving every
 * other field as it was. Each is specified by a function (`...Choice`) and the
 * lemmas below say what the committed entry is and when the eligible list is
 * guaranteed to be non-empty along the generation pipeline.
 */
module Sampler {
  import opened Randomness
  import opened Rules
  import opened Catalogs
  import opened Filters
  import opened Ethics

  // ----- chooseAuthority -----

  /** What chooseAuthority makes of `e`, drawing at `at`. */
  function AuthorityChoice(e: Empire, rand: Rand, at: nat): Result<Empire>
  {
    var list := AuthorityList(e);
    if list == [] then Err(EmptyEligibleSet(AuthorityDraw))
    else Ok(e.(authority := Pick(list, rand(at)).name))
  }

  /** chooseAuthority (main.go:116-125). */
  method ChooseAuthority(e: Empire, rand: Rand, at: nat) returns (r: Result<Empire>, next: nat)
    ensures r == AuthorityChoice(e, rand, at)
    ensures r.Ok? ==> next == at + 1
  {
    var result := FilterAuthorities(AllAuthorities, e);
    if result == [] {
      return Err(EmptyEligibleSet(AuthorityDraw)), at;
    }
    r := Ok(e.(authority := Pick(result, rand(at)).name));
    next := at + 1;
  }

  /**
   * An eligible authority is "Hive Mind" or "Machine Intelligence" exactly when
   * the empire holds "Gestalt Consciousness": the five regular authorities
   * exclude it and the two gestalt authorities require it (main.go:401-409).
   */
  lemma AuthorityGestalt(e: Empire, a: Authority)
    requires a in AuthorityList(e)
    ensures (a.name == "Hive Mind" || a.name == "Machine Intelligence") <==> Gestalt in EthicNames(e.ethics)
  {
    AuthorityListMembers(e, a);
    EthicNameHeld(e.ethics, Gestalt);
    var i :| 0 <= i < |AllAuthorities| && AllAuthorities[i] == a;
    if i < 5 {
      assert Gestalt in a.allowed.names;
    } else {
      var x :| x in e.ethics && x.name in [Gestalt];
      assert x.name == Gestalt;
    }
  }

  /** With "Gestalt Consciousness" held, "Hive Mind" is eligible. */
  lemma HiveMindEligible(e: Empire)
    requires Gestalt in EthicNames(e.ethics)
    ensures AllAuthorities[5] in AuthorityList(e)
  {
    EthicNameHeld(e.ethics, Gestalt);
    var x :| x in e.ethics && x.name == Gestalt;
    assert x.name in [Gestalt];
    AuthorityListMembers(e, AllAuthorities[5]);
  }

  /** With no form of "Authoritarian" and no "Gestalt Consciousness" held, "Democratic" is eligible. */
  lemma DemocraticEligible(e: Empire)
    requires Gestalt !in EthicNames(e.ethics)
    requires forall x :: x in e.ethics ==> x.name != "Authoritarian" && x.name != "Fanatic Authoritarian"
    ensures AllAuthorities[0] in AuthorityList(e)
  {
    EthicNameHeld(e.ethics, Gestalt);
    AuthorityListMembers(e, AllAuthorities[0]);
  }

  /** The bases and the opposition of the Authoritarian-Egalitarian axis. */
  lemma FirstAxisNames()
    ensures Base("Authoritarian") == "Authoritarian" && Base("Fanatic Authoritarian") == "Authoritarian"
    ensures Base("Egalitarian") == "Egalitarian" && Base("Fanatic Egalitarian") == "Egalitarian"
    ensures Opposite("Authoritarian") == "Egalitarian"
  {
    FanaticBase("Authoritarian");
    FanaticBase("Egalitarian");
    PlainEthic("Authoritarian");
    PlainEthic("Egalitarian");
    assert "Fanatic Authoritarian" == Fanatic("Authoritarian");
    assert "Fanatic Egalitarian" == Fanatic("Egalitarian");
  }

  /** An ethic compatible with a form of "Authoritarian" is no form of "Egalitarian". */
  lemma NotEgalitarian(a: string, b: string)
    requires a == "Authoritarian" || a == "Fanatic Authoritarian"
    requires Compatible(a, b) || Compatible(b, a)
    ensures b != "Egalitarian" && b != "Fanatic Egalitarian"
  {
    FirstAxisNames();
    assert Base(a) == "Authoritarian";
  }

  /** Consistent ethics holding a form of "Authoritarian" hold no form of "Egalitarian". */
  lemma NoEgalitarianBeside(es: seq<Ethic>, j: nat)
    requires ConsistentEthics(es) && j < |es|
    requires es[j].name == "Authoritarian" || es[j].name == "Fanatic Authoritarian"
    ensures forall x :: x in es ==> x.name != "Egalitarian" && x.name != "Fanatic Egalitarian"
  {
    forall x | x in es
      ensures x.name != "Egalitarian" && x.name != "Fanatic Egalitarian"
    {
      var i :| 0 <= i < |es| && es[i] == x;
      if i < j {
        NotEgalitarian(es[j].name, es[i].name);
      } else if j < i {
        NotEgalitarian(es[j].name, es[i].name);
      }
    }
  }

  /** With no form of "Egalitarian" and no "Gestalt Consciousness" held, "Dictatorial" is eligible. */
  lemma DictatorialEligible(e: Empire)
    requires Gestalt !in EthicNames(e.ethics)
    requires forall x :: x in e.ethics ==> x.name != "Egalitarian" && x.name != "Fanatic Egalitarian"
    ensures AllAuthorities[2] in AuthorityList(e)
  {
    EthicNameHeld(e.ethics, Gestalt);
    AuthorityListMembers(e, AllAuthorities[2]);
  }

  /**
   * On consistent ethics some authority is always eligible: "Hive Mind" when
   * "Gestalt Consciousness" is held, "Democratic" when no form of
   * "Authoritarian" is, and "Dictatorial" otherwise, since no form of
   * "Egalitarian" can then be held.
   */
  lemma AuthorityListNonEmpty(e: Empire)
    requires ConsistentEthics(e.ethics)
    ensures AuthorityList(e) != []
  {
    var es := e.ethics;
    if Gestalt in EthicNames(es) {
      HiveMindEligible(e);
    } else if forall x :: x in es ==> x.name != "Authoritarian" && x.name != "Fanatic Authoritarian" {
      DemocraticEligible(e);
    } else {
      var y :| y in es && (y.name == "Authoritarian" || y.name == "Fanatic Authoritarian");
      var j :| 0 <= j < |es| && es[j] == y;
      NoEgalitarianBeside(es, j);
      DictatorialEligible(e);
    }
  }

  /**
   * On consistent ethics chooseAuthority succeeds, sets only the authority, to
   * the name of an eligible catalog authority, and that authority is a gestalt
   * one exactly when the ethics hold "Gestalt Consciousness".
   */
  lemma AuthorityChoiceSound(e: Empire, rand: Rand, at: nat)
    requires ConsistentEthics(e.ethics)
    ensures AuthorityChoice(e, rand, at).Ok?
    ensures var r := AuthorityChoice(e, rand, at).value;
            && r == e.(authority := r.authority)
            && (exists a :: a in AllAuthorities && Allows(a.allowed, e) && a.name == r.authority)
            && ((r.authority == "Hive Mind" || r.authority == "Machine Intelligence") <==> Gestalt in EthicNames(e.ethics))
  {
    AuthorityListNonEmpty(e);
    var a := Pick(AuthorityList(e), rand(at));
    AuthorityListMembers(e, a);
    AuthorityGestalt(e, a);
  }


  // ----- chooseCivic -----

  /** What chooseCivic makes of `e`, drawing at `at`. */
  function CivicChoice(e: Empire, rand: Rand, at: nat): Result<Empire>
  {
    var list := CivicList(e);
    if list == [] then Err(EmptyEligibleSet(CivicDraw))
    else Ok(e.(civics := e.civics + [Pick(list, rand(at))]))
  }

  /** chooseCivic (main.go:127-131). */
  method ChooseCivic(e: Empire, rand: Rand, at: nat) returns (r: Result<Empire>, next: nat)
    ensures r == CivicChoice(e, rand, at)
    ensures r.Ok? ==> next == at + 1
  {
    var civicList := GetCivicList(e);
    if civicList == [] {
      return Err(EmptyEligibleSet(CivicDraw)), at;
    }
    r := Ok(e.(civics := e.civics + [Pick(civicList, rand(at))]));
    next := at + 1;
  }

  /**
   * chooseCivic fails only on an empty eligible list; otherwise it appends
   * exactly one civic, a catalog civic whose rule admits the empire and whose
   * name is not yet held, and changes nothing else.
   */
  lemma CivicChoiceAppends(e: Empire, rand: Rand, at: nat)
    ensures CivicChoice(e, rand, at).Err? <==> CivicList(e) == []
    ensures CivicChoice(e, rand, at).Ok? ==>
      var r := CivicChoice(e, rand, at).value;
      var n := |e.civics|;
      && r == e.(civics := r.civics)
      && |r.civics| == n + 1 && r.civics[..n] == e.civics
      && r.civics[n] in AllCivics && Allows(r.civics[n].allowed, e)
      && r.civics[n].name !in CivicNames(e.civics)
  {
    if CivicList(e) != [] {
      var c := Pick(CivicList(e), rand(at));
      CivicListMembers(e, c);
      var cs := e.civics + [c];
      assert cs[..|e.civics|] == e.civics;
    }
  }

  /** No two civics share a name. */
  predicate DistinctCivics(cs: seq<Civic>)
  {
    forall i, j :: 0 <= i < j < |cs| ==> cs[i].name != cs[j].name
  }

  /** chooseCivic never repeats a name: civics with distinct names stay distinct. */
  lemma CivicChoiceKeepsDistinct(e: Empire, rand: Rand, at: nat)
    requires DistinctCivics(e.civics) && CivicChoice(e, rand, at).Ok?
    ensures DistinctCivics(CivicChoice(e, rand, at).value.civics)
  {
    CivicChoiceAppends(e, rand, at);
    var cs := CivicChoice(e, rand, at).value.civics;
    var n := |e.civics|;
    forall i, j | 0 <= i < j < |cs|
      ensures cs[i].name != cs[j].name
    {
      assert cs[i] == e.civics[i];
      if j < n {
        assert cs[j] == e.civics[j];
      } else {
        assert CivicNames(e.civics)[i] == cs[i].name;
      }
    }
  }

  /** Two eligible civics of different names in `xs` leave one eligible beside at most one held civic. */
  lemma OneOfTwoFree(xs: seq<Civic>, e: Empire, c1: Civic, c2: Civic)
    requires c1 in xs && c2 in xs && c1.name != c2.name
    requires Allows(c1.allowed, e) && Allows(c2.allowed, e)
    requires |e.civics| <= 1
    ensures CivicsFrom(xs, e) != []
  {
    var held := CivicNames(e.civics);
    if c1.name !in held {
      CivicsFromMembers(xs, e, c1);
    } else {
      assert held == [c1.name];
      CivicsFromMembers(xs, e, c2);
    }
  }

  /** "Constructobot" and "Delegated Functions" need only "Machine Intelligence". */
  lemma MachinePair(e: Empire)
    requires e.authority == "Machine Intelligence"
    ensures var c1, c2 := MachineCivics[0], MachineCivics[1];
            c1.name != c2.name && Allows(c1.allowed, e) && Allows(c2.allowed, e)
  {
  }

  /** "Ascetic" and "Divided Attention" need only "Hive Mind". */
  lemma HivePair(e: Empire)
    requires e.authority == "Hive Mind"
    ensures var c1, c2 := HiveCivics[0], HiveCivics[3];
            c1.name != c2.name && Allows(c1.allowed, e) && Allows(c2.allowed, e)
  {
  }

  /** "Brand Loyalty" and "Catalytic Recyclers" need only "Corporate". */
  lemma CorporatePair(e: Empire)
    requires e.authority == "Corporate"
    ensures var c1, c2 := CorporateCivics[0], CorporateCivics[1];
            c1.name != c2.name && Allows(c1.allowed, e) && Allows(c2.allowed, e)
  {
  }

  /** "Cutthroat Politics" and "Efficient Bureaucracy" need only a regular authority. */
  lemma RegularPair(e: Empire)
    requires e.authority in ["Democratic", "Oligarchy", "Dictatorial", "Imperial"]
    ensures var c1, c2 := RegularCivics[3], RegularCivics[5];
            c1.name != c2.name && Allows(c1.allowed, e) && Allows(c2.allowed, e)
  {
  }

  /** The eight civics of the pairs above are catalog civics. */
  lemma MachinePairListed()
    ensures MachineCivics[0] in AllCivics && MachineCivics[1] in AllCivics
  {
  }

  lemma HivePairListed()
    ensures HiveCivics[0] in AllCivics && HiveCivics[3] in AllCivics
  {
  }

  lemma CorporatePairListed()
    ensures CorporateCivics[0] in AllCivics && CorporateCivics[1] in AllCivics
  {
  }

  lemma RegularPairListed()
    ensures RegularCivics[3] in AllCivics && RegularCivics[5] in AllCivics
  {
  }

  /** A catalog authority is one of the seven names of allAuthorities. */
  lemma AuthorityNames(e: Empire)
    requires exists a :: a in AllAuthorities && a.name == e.authority
    ensures e.authority in ["Democratic", "Oligarchy", "Dictatorial", "Imperial", "Corporate", "Hive Mind", "Machine Intelligence"]
  {
    var a :| a in AllAuthorities && a.name == e.authority;
  }

  /**
   * Every authority of the catalog has at least two civics whose rule is the
   * authority alone ("Constructobot" and "Delegated Functions", "Ascetic" and
   * "Divided Attention", "Brand Loyalty" and "Catalytic Recyclers", and for the
   * four regular authorities "Cutthroat Politics" and "Efficient
   * Bureaucracy"), so with at most one civic held some civic is eligible.
   */
  lemma CivicListNonEmpty(e: Empire)
    requires exists a :: a in AllAuthorities && a.name == e.authority
    requires |e.civics| <= 1
    ensures CivicList(e) != []
  {
    AuthorityNames(e);
    if e.authority == "Machine Intelligence" {
      MachinePair(e);
      MachinePairListed();
      OneOfTwoFree(AllCivics, e, MachineCivics[0], MachineCivics[1]);
    } else if e.authority == "Hive Mind" {
      HivePair(e);
      HivePairListed();
      OneOfTwoFree(AllCivics, e, HiveCivics[0], HiveCivics[3]);
    } else if e.authority == "Corporate" {
      CorporatePair(e);
      CorporatePairListed();
      OneOfTwoFree(AllCivics, e, CorporateCivics[0], CorporateCivics[1]);
    } else {
      RegularPair(e);
      RegularPairListed();
      OneOfTwoFree(AllCivics, e, RegularCivics[3], RegularCivics[5]);
    }
  }


  // ----- chooseOrigin -----

  /** What chooseOrigin makes of `e`, drawing at `at`. */
  function OriginChoice(e: Empire, rand: Rand, at: nat): Result<Empire>
  {
    var list := OriginList(e);
    if list == [] then Err(EmptyEligibleSet(OriginDraw))
    else Ok(e.(origin := Pick(list, rand(at))))
  }

  /** chooseOrigin (main.go:189-198). */
  method ChooseOrigin(e: Empire, rand: Rand, at: nat) returns (r: Result<Empire>, next: nat)
    ensures r == OriginChoice(e, rand, at)
    ensures r.Ok? ==> next == at + 1
  {
    var result := FilterOrigins(AllOrigins, e);
    if result == [] {
      return Err(EmptyEligibleSet(OriginDraw)), at;
    }
    r := Ok(e.(origin := Pick(result, rand(at))));
    next := at + 1;
  }

  /**
   * chooseOrigin always succeeds ("Prosperous Unification" admits every
   * empire) and sets only the origin, to a catalog origin whose rule admits
   * the empire.
   */
  lemma OriginChoiceSound(e: Empire, rand: Rand, at: nat)
    ensures OriginChoice(e, rand, at).Ok?
    ensures var r := OriginChoice(e, rand, at).value;
            r == e.(origin := r.origin) && r.origin in AllOrigins && Allows(r.origin.allowed, e)
  {
    OriginListMembers(e, AllOrigins[0]);
    OriginListMembers(e, Pick(OriginList(e), rand(at)));
  }


  // ----- chooseHomeplanet -----

  /**
   * What chooseHomeplanet makes of `e`, drawing at `at`: the homeplanet becomes
   * one of the nine climates and nothing else changes.
   */
  function PlanetChoice(e: Empire, rand: Rand, at: nat): (r: Empire)
    ensures r.homeplanet in Planets && r == e.(homeplanet := r.homeplanet)
  {
    e.(homeplanet := Pick(Planets, rand(at)))
  }

  /** chooseHomeplanet (main.go:200-204). */
  method ChooseHomeplanet(e: Empire, rand: Rand, at: nat) returns (r: Empire, next: nat)
    ensures r == PlanetChoice(e, rand, at)
    ensures next == at + 1
  {
    r := e.(homeplanet := Pick(Planets, rand(at)));
    next := at + 1;
  }
}
