/**
 * The species trait allocator: singleSpeciesTry (main.go:277-292), its retry
 * loop fillSpecies (main.go:268-275) and the classification of generateSpecies
 * (main.go:206-266).
 *
 * One attempt draws a trait count from traitCountOptions, then that many
 * traits, one at a time, each from the traits still available to the species
 * built so far. The attempt is accepted exactly when the trait costs, seeded
 * traits included, use up the initial trait points. fillSpecies repeats
 * attempts from the same seeded species until one is accepted; the model
 * bounds the repetitions by `fuel` and reports `DidNotConverge` past it.
 */
module Allocator {
  import opened Randomness
  import opened Rules
  import opened Catalogs
  import opened Filters

  /** The summed cost of a list of traits. */
  function TotalCost(ts: seq<Trait>): int
  {
    if ts == [] then 0 else TotalCost(ts[..|ts| - 1]) + ts[|ts| - 1].cost
  }

  /** The points left over, `res` of singleSpeciesTry (main.go:285-288). */
  function Balance(s: Species): int
  {
    s.initialTraitPoints - TotalCost(s.traits)
  }

  /** One trait draw: the available traits of `catalog` filtered for `s`, and the one picked at `at` appended. */
  function TraitStep(catalog: seq<Trait>, s: Species, gestalt: bool, rand: Rand, at: nat): Result<Species>
  {
    var list := TraitsFrom(catalog, s, gestalt);
    if list == [] then Err(EmptyEligibleSet(TraitDraw))
    else Ok(s.(traits := s.traits + [Pick(list, rand(at))]))
  }

  /** `k` trait draws at `at` and the positions after it; each appends one trait and changes nothing else. */
  function TraitSteps(catalog: seq<Trait>, s: Species, gestalt: bool, rand: Rand, at: nat, k: nat): (r: Result<Species>)
    ensures r.Err? ==> r.error == EmptyEligibleSet(TraitDraw)
    ensures r.Ok? ==> r.value == s.(traits := r.value.traits)
    ensures r.Ok? ==> |r.value.traits| == |s.traits| + k && r.value.traits[..|s.traits|] == s.traits
    decreases k
  {
    if k == 0 then Ok(s)
    else
      var step := TraitStep(catalog, s, gestalt, rand, at);
      if step.Err? then step else TraitSteps(catalog, step.value, gestalt, rand, at + 1, k - 1)
  }

  /**
   * `r` grows `s` by traits drawn from `catalog`: only the traits change, the
   * traits of `s` stay in front, and each appended trait is a catalog trait
   * available to the species as it stood just before that trait was appended
   * (its rule admits it, it is not non-gestalt under `gestalt`, and its name
   * is not yet held).
   */
  predicate DrawnFrom(catalog: seq<Trait>, s: Species, r: Species, gestalt: bool)
  {
    && r == s.(traits := r.traits)
    && |s.traits| <= |r.traits| && r.traits[..|s.traits|] == s.traits
    && forall k :: |s.traits| <= k < |r.traits| ==>
         r.traits[k] in catalog && TraitEligible(r.traits[k], r.(traits := r.traits[..k]), gestalt)
  }

  /** Drawing `t` first and then the rest is drawing all of them from `s`. */
  lemma DrawnFromCons(catalog: seq<Trait>, s: Species, t: Trait, r: Species, gestalt: bool)
    requires t in catalog && TraitEligible(t, s, gestalt)
    requires DrawnFrom(catalog, s.(traits := s.traits + [t]), r, gestalt)
    ensures DrawnFrom(catalog, s, r, gestalt)
  {
    var n := |s.traits|;
    assert r.traits[..n] == r.traits[..n + 1][..n] == s.traits;
    assert r.(traits := r.traits[..n]) == s;
    assert r.traits[n] == r.traits[..n + 1][n] == t;
  }

  /** Successful trait draws append only available traits. */
  lemma {:induction false} TraitStepsDrawFrom(catalog: seq<Trait>, s: Species, gestalt: bool, rand: Rand, at: nat, k: nat)
    requires TraitSteps(catalog, s, gestalt, rand, at, k).Ok?
    ensures DrawnFrom(catalog, s, TraitSteps(catalog, s, gestalt, rand, at, k).value, gestalt)
    decreases k
  {
    if k > 0 {
      var t := Pick(TraitsFrom(catalog, s, gestalt), rand(at));
      TraitsFromMembers(catalog, s, gestalt, t);
      var s1 := s.(traits := s.traits + [t]);
      TraitStepsDrawFrom(catalog, s1, gestalt, rand, at + 1, k - 1);
      DrawnFromCons(catalog, s, t, TraitSteps(catalog, s1, gestalt, rand, at + 1, k - 1).value, gestalt);
    }
  }

  /**
   * Drawn traits are fresh: an appended trait shares its name with no trait
   * before it, seeded or drawn, and under `gestalt` no appended trait is a
   * non-gestalt one. Seeded traits themselves are not checked against each
   * other.
   */
  lemma DrawnTraitsFresh(catalog: seq<Trait>, s: Species, r: Species, gestalt: bool)
    requires DrawnFrom(catalog, s, r, gestalt)
    ensures forall i, j :: 0 <= i < j < |r.traits| && |s.traits| <= j ==> r.traits[i].name != r.traits[j].name
    ensures gestalt ==> forall j :: |s.traits| <= j < |r.traits| ==> !r.traits[j].nonGestalt
  {
    forall i, j | 0 <= i < j < |r.traits| && |s.traits| <= j
      ensures r.traits[i].name != r.traits[j].name
    {
      assert TraitNames(r.traits[..j])[i] == r.traits[i].name;
    }
  }

  /** The trait count of an attempt, drawn at `at` from traitCountOptions (main.go:278-279). */
  function TraitCount(rand: Rand, at: nat): nat
  {
    Pick(TraitCountOptions, rand(at))
  }

  /** The position after an attempt: the count draw and one draw per trait. */
  function AttemptEnd(rand: Rand, at: nat): nat
  {
    at + 1 + TraitCount(rand, at)
  }

  /** The species an attempt draws before its budget check. */
  function Drafted(catalog: seq<Trait>, s: Species, gestalt: bool, rand: Rand, at: nat): Result<Species>
  {
    TraitSteps(catalog, s, gestalt, rand, at + 1, TraitCount(rand, at))
  }

  /**
   * What singleSpeciesTry makes of `s`: the drafted species and `true` when
   * its balance is 0, the zero species and `false` otherwise.
   */
  function Attempt(catalog: seq<Trait>, s: Species, gestalt: bool, rand: Rand, at: nat): Result<(Species, bool)>
  {
    var drafted := Drafted(catalog, s, gestalt, rand, at);
    if drafted.Err? then Err(drafted.error)
    else if Balance(drafted.value) == 0 then Ok((drafted.value, true))
    else Ok((EmptySpecies, false))
  }

  /** A species fillSpecies accepts: `s` grown by 1 to 5 available traits with the budget used up exactly. */
  predicate Accepted(catalog: seq<Trait>, s: Species, r: Species, gestalt: bool)
  {
    && DrawnFrom(catalog, s, r, gestalt)
    && |r.traits| - |s.traits| in TraitCountOptions
    && Balance(r) == 0
  }

  /**
   * An attempt appends between one and five available traits, a count listed
   * in traitCountOptions, to `s` and changes nothing else. It is accepted
   * exactly when the costs of all traits, seeded ones included, equal the
   * initial points; a rejected attempt returns the zero species. It fails
   * only when a trait draw finds nothing available.
   */
  lemma AttemptSound(catalog: seq<Trait>, s: Species, gestalt: bool, rand: Rand, at: nat)
    ensures Attempt(catalog, s, gestalt, rand, at).Err? <==> Drafted(catalog, s, gestalt, rand, at).Err?
    ensures Attempt(catalog, s, gestalt, rand, at).Err? ==> Attempt(catalog, s, gestalt, rand, at).error == EmptyEligibleSet(TraitDraw)
    ensures Drafted(catalog, s, gestalt, rand, at).Ok? ==>
      var d := Drafted(catalog, s, gestalt, rand, at).value;
      var a := Attempt(catalog, s, gestalt, rand, at).value;
      && DrawnFrom(catalog, s, d, gestalt)
      && |d.traits| - |s.traits| in TraitCountOptions && 1 <= |d.traits| - |s.traits| <= 5
      && (a.1 <==> Balance(d) == 0)
      && a.0 == (if a.1 then d else EmptySpecies)
  {
    if Drafted(catalog, s, gestalt, rand, at).Ok? {
      TraitStepsDrawFrom(catalog, s, gestalt, rand, at + 1, TraitCount(rand, at));
    }
  }

  /** What fillSpecies needs of one attempt: an accepted attempt returns an accepted species. */
  lemma AttemptOutcome(catalog: seq<Trait>, s: Species, gestalt: bool, rand: Rand, at: nat)
    ensures var a := Attempt(catalog, s, gestalt, rand, at);
            && (a.Err? ==> a.error == EmptyEligibleSet(TraitDraw))
            && (a.Ok? && a.value.1 ==> Accepted(catalog, s, a.value.0, gestalt))
  {
    AttemptSound(catalog, s, gestalt, rand, at);
  }

  /**
   * What fillSpecies makes of `s` with at most `fuel` attempts, starting at
   * `at`: the accepted species and the position after the accepting attempt.
   */
  function Fill(catalog: seq<Trait>, s: Species, gestalt: bool, rand: Rand, at: nat, fuel: nat): Result<(Species, nat)>
    decreases fuel
  {
    if fuel == 0 then Err(DidNotConverge)
    else
      var attempt := Attempt(catalog, s, gestalt, rand, at);
      if attempt.Err? then Err(attempt.error)
      else if attempt.value.1 then Ok((attempt.value.0, AttemptEnd(rand, at)))
      else Fill(catalog, s, gestalt, rand, AttemptEnd(rand, at), fuel - 1)
  }

  /**
   * fillSpecies returns an accepted species, or fails because a draw found
   * no available trait or because `fuel` attempts were all rejected.
   */
  lemma {:induction false} FillSound(catalog: seq<Trait>, s: Species, gestalt: bool, rand: Rand, at: nat, fuel: nat)
    ensures var r := Fill(catalog, s, gestalt, rand, at, fuel);
            r.Err? ==> r.error == DidNotConverge || r.error == EmptyEligibleSet(TraitDraw)
    ensures var r := Fill(catalog, s, gestalt, rand, at, fuel);
            r.Ok? ==> Accepted(catalog, s, r.value.0, gestalt)
    decreases fuel
  {
    if fuel > 0 {
      AttemptOutcome(catalog, s, gestalt, rand, at);
      var attempt := Attempt(catalog, s, gestalt, rand, at);
      if attempt.Ok? && !attempt.value.1 {
        FillRetry(catalog, s, gestalt, rand, at, fuel);
        FillSound(catalog, s, gestalt, rand, AttemptEnd(rand, at), fuel - 1);
      }
    }
  }

  /** A rejected attempt leaves fillSpecies to start over after it, with one attempt fewer. */
  lemma FillRetry(catalog: seq<Trait>, s: Species, gestalt: bool, rand: Rand, at: nat, fuel: nat)
    requires fuel > 0 && Attempt(catalog, s, gestalt, rand, at).Ok? && !Attempt(catalog, s, gestalt, rand, at).value.1
    ensures Fill(catalog, s, gestalt, rand, at, fuel) == Fill(catalog, s, gestalt, rand, AttemptEnd(rand, at), fuel - 1)
  {
  }

  /** One trait draw of singleSpeciesTry's loop body. */
  method DrawTrait(catalog: seq<Trait>, s: Species, gestalt: bool, rand: Rand, at: nat) returns (r: Result<Species>)
    ensures r == TraitStep(catalog, s, gestalt, rand, at)
  {
    var traits := FilterTraits(catalog, s, gestalt);
    if traits == [] {
      return Err(EmptyEligibleSet(TraitDraw));
    }
    return Ok(s.(traits := s.traits + [Pick(traits, rand(at))]));
  }

  /** The trait loop of singleSpeciesTry (main.go:280-283): `count` draws, one position each. */
  method DrawTraits(catalog: seq<Trait>, s: Species, gestalt: bool, rand: Rand, at: nat, count: nat)
    returns (r: Result<Species>, next: nat)
    ensures r == TraitSteps(catalog, s, gestalt, rand, at, count)
    ensures r.Ok? ==> next == at + count
  {
    var species := s;
    next := at;
    ghost var target := TraitSteps(catalog, s, gestalt, rand, at, count);
    for i := 0 to count
      invariant next == at + i
      invariant TraitSteps(catalog, species, gestalt, rand, next, count - i) == target
    {
      r := DrawTrait(catalog, species, gestalt, rand, next);
      next := next + 1;
      if r.Err? {
        return r, next;
      }
      species := r.value;
    }
    return Ok(species), next;
  }

  /** The budget check of singleSpeciesTry (main.go:284-288): the points left after every trait's cost. */
  method Remaining(s: Species) returns (res: int)
    ensures res == Balance(s)
  {
    res := s.initialTraitPoints;
    for i := 0 to |s.traits|
      invariant res == s.initialTraitPoints - TotalCost(s.traits[..i])
    {
      assert s.traits[..i + 1][..i] == s.traits[..i];
      res := res - s.traits[i].cost;
    }
    assert s.traits[..|s.traits|] == s.traits;
  }

  /** singleSpeciesTry (main.go:277-292). */
  method SingleSpeciesTry(catalog: seq<Trait>, s: Species, gestalt: bool, rand: Rand, at: nat) returns (r: Result<(Species, bool)>, next: nat)
    ensures r == Attempt(catalog, s, gestalt, rand, at)
    ensures r.Ok? ==> next == AttemptEnd(rand, at)
  {
    var traitsToGenerate := Pick(TraitCountOptions, rand(at));
    var drafted;
    drafted, next := DrawTraits(catalog, s, gestalt, rand, at + 1, traitsToGenerate);
    if drafted.Err? {
      return Err(drafted.error), next;
    }
    var res := Remaining(drafted.value);
    if res == 0 {
      return Ok((drafted.value, true)), next;
    }
    return Ok((EmptySpecies, false)), next;
  }

  /** fillSpecies (main.go:268-275), giving up after `fuel` rejected attempts. */
  method FillSpecies(catalog: seq<Trait>, s: Species, gestalt: bool, rand: Rand, at: nat, fuel: nat) returns (r: Result<(Species, nat)>)
    ensures r == Fill(catalog, s, gestalt, rand, at, fuel)
  {
    var cursor := at;
    ghost var target := Fill(catalog, s, gestalt, rand, at, fuel);
    for attempt := 0 to fuel
      invariant Fill(catalog, s, gestalt, rand, cursor, fuel - attempt) == target
    {
      var result, next := SingleSpeciesTry(catalog, s, gestalt, rand, cursor);
      if result.Err? {
        return Err(result.error);
      }
      if result.value.1 {
        return Ok((result.value.0, next));
      }
      cursor := next;
    }
    return Err(DidNotConverge);
  }
}
