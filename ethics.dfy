/**
 * The two-phase ethics draft, chooseEthic (main.go:149-171), and what it
 * guarantees about the ethics of an empire.
 *
 * A first ethic is drawn from the eligible list. "Gestalt Consciousness" ends
 * the draft on its own; otherwise a coin drawn beforehand decides between one
 * fanatic ethic plus one more ethic, or three plain ethics. Each later draw
 * re-filters the catalog against the ethics held so far, so no ethic appears
 * with itself, its fanatic form or its opposite on the same axis.
 */
module Ethics {
  import opened Randomness
  import opened Rules
  import opened Catalogs
  import opened Filters

  /** The eight ethics of the regular ethic system, in catalog order (main.go:388-395). */
  const PlainEthics: seq<string> := ["Authoritarian", "Spiritualist", "Militarist", "Xenophobe",
                                     "Egalitarian", "Materialist", "Pacifist", "Xenophile"]

  /** The ethic at the other end of the same axis, as the catalog rules pair them. */
  function Opposite(name: string): string
  {
    if name == "Authoritarian" then "Egalitarian"
    else if name == "Egalitarian" then "Authoritarian"
    else if name == "Spiritualist" then "Materialist"
    else if name == "Materialist" then "Spiritualist"
    else if name == "Militarist" then "Pacifist"
    else if name == "Pacifist" then "Militarist"
    else if name == "Xenophobe" then "Xenophile"
    else if name == "Xenophile" then "Xenophobe"
    else ""
  }

  predicate IsFanatic(name: string)
  {
    |name| >= 8 && name[..8] == "Fanatic "
  }

  /** The ethic a name stands for, with a "Fanatic " prefix removed. */
  function Base(name: string): string
  {
    if IsFanatic(name) then name[8..] else name
  }

  lemma FanaticBase(name: string)
    ensures IsFanatic(Fanatic(name)) && Base(Fanatic(name)) == name
  {
    assert Fanatic(name)[..8] == "Fanatic ";
  }

  /** A prefixed name is the fanatic form of its base. */
  lemma FanaticOfBase(name: string)
    requires IsFanatic(name)
    ensures name == Fanatic(Base(name))
  {
    assert name == name[..8] + name[8..];
  }

  /** Catalog ethic names carry no "Fanatic " prefix; opposition pairs them up. */
  lemma PlainEthic(name: string)
    requires name in PlainEthics
    ensures !IsFanatic(name) && Base(name) == name && name != Gestalt
    ensures Opposite(name) in PlainEthics && Opposite(name) != name && Opposite(Opposite(name)) == name
  {
    assert name[0] != 'F';
  }

  lemma GestaltName()
    ensures !IsFanatic(Gestalt) && Base(Gestalt) == Gestalt && Gestalt !in PlainEthics
  {
    assert Gestalt[0] != 'F';
  }

  /**
   * Every catalog ethic is either a "Gestalt Consciousness" row that needs an
   * empire without ethics, or one of the eight regular ethics, whose rule
   * excludes its opposite, the fanatic opposite and "Gestalt Consciousness"
   * (main.go:388-398). Only the last two rows are Gestalt rows.
   */
  lemma EthicCatalogShape(x: Ethic)
    requires x in AllEthics
    ensures x.name == Gestalt ==> x.allowed == OnlyGestalt
    ensures x.name != Gestalt ==>
      && x.name in PlainEthics
      && x.allowed == ExcludeEthic([Opposite(x.name), Fanatic(Opposite(x.name)), Gestalt])
  {
    var i :| 0 <= i < |AllEthics| && AllEthics[i] == x;
    if i < 4 {
      FirstAxisRows(i);
    } else if i < 8 {
      SecondAxisRows(i);
    }
  }

  lemma FirstAxisRows(i: nat)
    requires i < 4
    ensures AllEthics[i].name == PlainEthics[i]
    ensures AllEthics[i].allowed == ExcludeEthic([Opposite(PlainEthics[i]), Fanatic(Opposite(PlainEthics[i])), Gestalt])
  {
    if i == 0 {
      assert Fanatic("Egalitarian") == "Fanatic Egalitarian";
    } else if i == 1 {
      assert Fanatic("Materialist") == "Fanatic Materialist";
    } else if i == 2 {
      assert Fanatic("Pacifist") == "Fanatic Pacifist";
    } else {
      assert Fanatic("Xenophile") == "Fanatic Xenophile";
    }
  }

  lemma SecondAxisRows(i: nat)
    requires 4 <= i < 8
    ensures AllEthics[i].name == PlainEthics[i]
    ensures AllEthics[i].allowed == ExcludeEthic([Opposite(PlainEthics[i]), Fanatic(Opposite(PlainEthics[i])), Gestalt])
  {
    if i == 4 {
      assert Fanatic("Authoritarian") == "Fanatic Authoritarian";
    } else if i == 5 {
      assert Fanatic("Spiritualist") == "Fanatic Spiritualist";
    } else if i == 6 {
      assert Fanatic("Militarist") == "Fanatic Militarist";
    } else {
      assert Fanatic("Xenophobe") == "Fanatic Xenophobe";
    }
  }

  /** The catalog holds two live "Gestalt Consciousness" rows, at its end. */
  lemma TwoGestaltRows()
    ensures |AllEthics| == 10
    ensures forall i :: 0 <= i < |AllEthics| ==> (AllEthics[i].name == Gestalt <==> i >= 8)
  {
    forall i | 0 <= i < 8 ensures AllEthics[i].name != Gestalt {
      assert AllEthics[i].name in PlainEthics;
      GestaltName();
    }
  }

  /** A name a draft can produce: "Gestalt Consciousness", a regular ethic or its fanatic form. */
  predicate DraftableName(name: string)
  {
    name == Gestalt || Base(name) in PlainEthics
  }

  /** Two held ethics are neither the same ethic (in either form) nor opposites. */
  predicate Compatible(a: string, b: string)
  {
    Base(a) != Base(b) && Base(a) != Opposite(Base(b)) && Base(b) != Opposite(Base(a))
  }

  /**
   * The invariant of a drafted ethic list: every name is draftable, any two
   * ethics are compatible, and "Gestalt Consciousness" stands alone.
   */
  predicate ConsistentEthics(es: seq<Ethic>)
  {
    && (forall i :: 0 <= i < |es| ==> DraftableName(es[i].name))
    && (forall i, j :: 0 <= i < j < |es| ==> Compatible(es[i].name, es[j].name))
    && (Gestalt in EthicNames(es) ==> |es| == 1)
  }

  /** The three outcomes of a draft on an empire without ethics (main.go:153-169). */
  predicate DraftShape(es: seq<Ethic>)
  {
    || EthicNames(es) == [Gestalt]
    || (|es| == 2 && IsFanatic(es[0].name) && !IsFanatic(es[1].name))
    || (|es| == 3 && forall i :: 0 <= i < 3 ==> !IsFanatic(es[i].name))
  }

  /** Once an ethic is held, "Gestalt Consciousness" is never eligible again. */
  lemma LaterDrawIsRegular(e: Empire, x: Ethic)
    requires x in EthicList(e) && e.ethics != []
    ensures x.name in PlainEthics
  {
    EthicListMembers(e, x);
    EthicCatalogShape(x);
  }

  /**
   * A held name that is neither form of `p` nor of its opposite is
   * compatible with either form of `p`.
   */
  lemma CompatibleHeld(held: string, p: string, name: string)
    requires DraftableName(held) && held != Gestalt && p in PlainEthics
    requires held != p && held != Fanatic(p) && held != Opposite(p) && held != Fanatic(Opposite(p))
    requires name == p || name == Fanatic(p)
    ensures Compatible(held, name)
  {
    PlainEthic(p);
    FanaticBase(p);
    var b := Base(held);
    PlainEthic(b);
    if IsFanatic(held) {
      FanaticOfBase(held);
    }
    assert held == b || held == Fanatic(b);
  }

  /** Appending a regular ethic compatible with every held one keeps consistent regular ethics consistent. */
  lemma ConsistentAppend(es: seq<Ethic>, y: Ethic)
    requires ConsistentEthics(es) && Gestalt !in EthicNames(es)
    requires y.name != Gestalt && DraftableName(y.name)
    requires forall i :: 0 <= i < |es| ==> Compatible(es[i].name, y.name)
    ensures ConsistentEthics(es + [y])
  {
    var ys := es + [y];
    forall i, j | 0 <= i < j < |ys|
      ensures Compatible(ys[i].name, ys[j].name)
    {
      if j == |es| {
        assert ys[i] == es[i];
      } else {
        assert ys[i] == es[i] && ys[j] == es[j];
      }
    }
    assert EthicNames(ys) == EthicNames(es) + [y.name];
  }

  /**
   * Appending an eligible regular ethic, plain or in its fanatic form, keeps
   * the ethics consistent: the filter rejects its own name and fanatic form,
   * and its rule rejects its opposite in both forms and "Gestalt Consciousness".
   */
  lemma AppendEligibleEthic(e: Empire, x: Ethic, name: string)
    requires ConsistentEthics(e.ethics)
    requires x in EthicList(e) && x.name != Gestalt
    requires name == x.name || name == Fanatic(x.name)
    ensures ConsistentEthics(e.ethics + [Ethic(name, x.allowed)])
  {
    EthicListMembers(e, x);
    EthicCatalogShape(x);
    PlainEthic(x.name);
    FanaticBase(x.name);
    GestaltName();
    var o := Opposite(x.name);
    assert Base(name) == x.name;
    forall i | 0 <= i < |e.ethics|
      ensures Compatible(e.ethics[i].name, name)
    {
      var held := e.ethics[i].name;
      assert EthicNames(e.ethics)[i] == held;
      assert held != Gestalt && held != o && held != Fanatic(o);
      CompatibleHeld(held, x.name, name);
    }
    assert DraftableName(name);
    ConsistentAppend(e.ethics, Ethic(name, x.allowed));
  }

  /** The axis of a regular ethic: 0 for Authoritarian and Egalitarian, 1, 2, 3 for the next pairs. */
  function AxisOf(p: string): nat
  {
    if p == "Authoritarian" || p == "Egalitarian" then 0
    else if p == "Spiritualist" || p == "Materialist" then 1
    else if p == "Militarist" || p == "Pacifist" then 2
    else 3
  }

  /** A held ethic off the axis of regular ethic `p` is neither `p` nor its fanatic form. */
  lemma OffAxis(held: string, p: string)
    requires DraftableName(held) && held != Gestalt && p in PlainEthics
    requires AxisOf(Base(held)) != AxisOf(p)
    ensures held != p && held != Fanatic(p)
  {
    PlainEthic(p);
    FanaticBase(p);
  }

  /** A regular ethic whose axis no held ethic touches is eligible. */
  lemma FreeAxisEligible(e: Empire, k: nat)
    requires k < 4
    requires ConsistentEthics(e.ethics) && Gestalt !in EthicNames(e.ethics)
    requires forall i :: 0 <= i < |e.ethics| ==> AxisOf(Base(e.ethics[i].name)) != k
    ensures AllEthics[k] in EthicList(e)
  {
    var c := AllEthics[k];
    assert c.name == PlainEthics[k] && AxisOf(c.name) == k;
    EthicCatalogShape(c);
    PlainEthic(c.name);
    var o := Opposite(c.name);
    assert AxisOf(o) == k;
    forall i | 0 <= i < |e.ethics|
      ensures EthicNames(e.ethics)[i] !in [c.name, Fanatic(c.name), o, Fanatic(o), Gestalt]
    {
      var held := e.ethics[i].name;
      assert EthicNames(e.ethics)[i] == held;
      OffAxis(held, c.name);
      OffAxis(held, o);
    }
    EthicListMembers(e, c);
  }

  /**
   * While at most two regular ethics are held, some ethic is still eligible:
   * of the axes of Authoritarian, Spiritualist and Militarist, two held ethics
   * touch at most two.
   */
  lemma EthicListNonEmpty(e: Empire)
    requires ConsistentEthics(e.ethics) && |e.ethics| <= 2 && Gestalt !in EthicNames(e.ethics)
    ensures EthicList(e) != []
  {
    var a0 := if |e.ethics| > 0 then AxisOf(Base(e.ethics[0].name)) else 3;
    var a1 := if |e.ethics| > 1 then AxisOf(Base(e.ethics[1].name)) else 3;
    var k := if a0 != 0 && a1 != 0 then 0 else if a0 != 1 && a1 != 1 then 1 else 2;
    assert forall i :: 0 <= i < |e.ethics| ==> AxisOf(Base(e.ethics[i].name)) == (if i == 0 then a0 else a1);
    FreeAxisEligible(e, k);
  }

  /**
   * One further draw of chooseEthic: the ethics of `catalog` re-filtered
   * against the ethics held, and the entry picked at `at` appended.
   */
  function DrawNext(catalog: seq<Ethic>, e: Empire, rand: Rand, at: nat): Result<Empire>
  {
    var list := EthicsFrom(catalog, e);
    if list == [] then Err(EmptyEligibleSet(EthicDraw))
    else Ok(e.(ethics := e.ethics + [Pick(list, rand(at))]))
  }

  /**
   * `k` further draws, at `at` and the positions after it. Each appends one
   * ethic to those held and changes nothing else, so a successful run extends
   * the ethics by exactly `k` entries.
   */
  function DrawMore(catalog: seq<Ethic>, e: Empire, rand: Rand, at: nat, k: nat): (r: Result<Empire>)
    ensures r.Err? ==> r.error == EmptyEligibleSet(EthicDraw)
    ensures r.Ok? ==> r.value == e.(ethics := r.value.ethics)
    ensures r.Ok? ==> |r.value.ethics| == |e.ethics| + k && r.value.ethics[..|e.ethics|] == e.ethics
    decreases k
  {
    if k == 0 then Ok(e)
    else
      var step := DrawNext(catalog, e, rand, at);
      if step.Err? then step else DrawMore(catalog, step.value, rand, at + 1, k - 1)
  }

  /**
   * What chooseEthic (main.go:149-171) makes of empire `e`: the coin is drawn
   * at `at` and the first ethic at `at + 1`. "Gestalt Consciousness" replaces
   * the ethics outright; otherwise heads appends the fanatic form of the first
   * ethic and draws once more, tails appends it plainly and draws twice more.
   */
  function EthicDraft(e: Empire, rand: Rand, at: nat): Result<Empire>
  {
    var list := EthicList(e);
    if list == [] then Err(EmptyEligibleSet(EthicDraw))
    else
      var first := Pick(list, rand(at + 1));
      if first.name == Gestalt then Ok(e.(ethics := [first]))
      else if rand(at) % 2 == 1 then
        DrawMore(AllEthics, e.(ethics := e.ethics + [Ethic(Fanatic(first.name), first.allowed)]), rand, at + 2, 1)
      else
        DrawMore(AllEthics, e.(ethics := e.ethics + [first]), rand, at + 2, 2)
  }

  /** chooseEthic changes only the ethics. */
  lemma EthicDraftFrame(e: Empire, rand: Rand, at: nat)
    requires EthicDraft(e, rand, at).Ok?
    ensures var r := EthicDraft(e, rand, at).value;
            r == e.(ethics := r.ethics)
  {
  }

  /** How many draws a successful EthicDraft consumes after the coin. */
  function EthicDraws(e: Empire, rand: Rand, at: nat): nat
  {
    var list := EthicList(e);
    if list == [] then 0
    else if Pick(list, rand(at + 1)).name == Gestalt then 1
    else if rand(at) % 2 == 1 then 2
    else 3
  }

  /**
   * A further draw on consistent regular ethics, fewer than three, always
   * succeeds, adds a plain regular ethic and keeps the ethics consistent.
   */
  lemma DrawNextConsistent(e: Empire, rand: Rand, at: nat)
    requires ConsistentEthics(e.ethics) && 1 <= |e.ethics| <= 2 && Gestalt !in EthicNames(e.ethics)
    ensures DrawNext(AllEthics, e, rand, at).Ok?
    ensures var es := DrawNext(AllEthics, e, rand, at).value.ethics;
            ConsistentEthics(es) && Gestalt !in EthicNames(es) && es[|e.ethics|].name in PlainEthics
  {
    EthicListNonEmpty(e);
    var x := Pick(EthicList(e), rand(at));
    LaterDrawIsRegular(e, x);
    PlainEthic(x.name);
    AppendEligibleEthic(e, x, x.name);
    var es := e.ethics + [x];
    assert es == e.ethics + [Ethic(x.name, x.allowed)];
    assert EthicNames(es) == EthicNames(e.ethics) + [x.name];
  }

  /** The first draw on an empire without ethics: regular, since only the catalog's rules can refuse it. */
  lemma FirstDrawRegular(e: Empire, rand: Rand, at: nat)
    requires e.ethics == [] && EthicList(e) != []
    ensures var first := Pick(EthicList(e), rand(at + 1));
            first.name == Gestalt || first.name in PlainEthics
  {
    var first := Pick(EthicList(e), rand(at + 1));
    EthicListMembers(e, first);
    EthicCatalogShape(first);
  }

  /** Heads and a regular first ethic: the fanatic form, then one plain regular ethic. */
  lemma FanaticDraft(e: Empire, rand: Rand, at: nat, first: Ethic)
    requires e.ethics == [] && EthicList(e) != [] && first == Pick(EthicList(e), rand(at + 1))
    requires first.name in PlainEthics
    ensures var r := DrawMore(AllEthics, e.(ethics := e.ethics + [Ethic(Fanatic(first.name), first.allowed)]), rand, at + 2, 1);
            r.Ok? && ConsistentEthics(r.value.ethics) && DraftShape(r.value.ethics)
  {
    PlainEthic(first.name);
    FanaticBase(first.name);
    AppendEligibleEthic(e, first, Fanatic(first.name));
    var d := e.(ethics := e.ethics + [Ethic(Fanatic(first.name), first.allowed)]);
    assert d.ethics == [Ethic(Fanatic(first.name), first.allowed)];
    assert Gestalt !in EthicNames(d.ethics) by {
      GestaltName();
      assert EthicNames(d.ethics) == [Fanatic(first.name)];
    }
    DrawNextConsistent(d, rand, at + 2);
    var es := DrawNext(AllEthics, d, rand, at + 2).value.ethics;
    PlainEthic(es[1].name);
    assert DrawMore(AllEthics, DrawNext(AllEthics, d, rand, at + 2).value, rand, at + 3, 0).value.ethics == es;
  }

  /** Tails and a regular first ethic: three plain regular ethics. */
  lemma PlainDraft(e: Empire, rand: Rand, at: nat, first: Ethic)
    requires e.ethics == [] && EthicList(e) != [] && first == Pick(EthicList(e), rand(at + 1))
    requires first.name in PlainEthics
    ensures var r := DrawMore(AllEthics, e.(ethics := e.ethics + [first]), rand, at + 2, 2);
            r.Ok? && ConsistentEthics(r.value.ethics) && DraftShape(r.value.ethics)
  {
    PlainEthic(first.name);
    AppendEligibleEthic(e, first, first.name);
    var d := e.(ethics := e.ethics + [first]);
    assert d.ethics == [first] == e.ethics + [Ethic(first.name, first.allowed)];
    assert Gestalt !in EthicNames(d.ethics) by {
      GestaltName();
      assert EthicNames(d.ethics) == [first.name];
    }
    TwoPlainDraws(d, rand, at + 2);
  }

  /** Two further draws after one plain regular ethic give three consistent plain ethics. */
  lemma TwoPlainDraws(d: Empire, rand: Rand, at: nat)
    requires ConsistentEthics(d.ethics) && |d.ethics| == 1 && Gestalt !in EthicNames(d.ethics)
    requires d.ethics[0].name in PlainEthics
    ensures var r := DrawMore(AllEthics, d, rand, at, 2);
            r.Ok? && ConsistentEthics(r.value.ethics) && DraftShape(r.value.ethics)
  {
    DrawNextConsistent(d, rand, at);
    var d2 := DrawNext(AllEthics, d, rand, at).value;
    DrawNextConsistent(d2, rand, at + 1);
    var d3 := DrawNext(AllEthics, d2, rand, at + 1).value;
    assert DrawMore(AllEthics, d2, rand, at + 1, 1) == DrawMore(AllEthics, d3, rand, at + 2, 0);
    var es := d3.ethics;
    assert es[0] == d.ethics[0] && es[1] == d2.ethics[1];
    forall i | 0 <= i < 3
      ensures !IsFanatic(es[i].name)
    {
      PlainEthic(es[i].name);
    }
  }


  /**
   * On an empire without ethics, chooseEthic always succeeds: the ethics it
   * drafts are consistent (no ethic beside itself, its fanatic form or its
   * opposite, "Gestalt Consciousness" alone) and take one of the three shapes.
   */
  lemma EthicDraftSound(e: Empire, rand: Rand, at: nat)
    requires e.ethics == []
    ensures EthicList(e) != [] && EthicDraft(e, rand, at).Ok?
    ensures var es := EthicDraft(e, rand, at).value.ethics;
            ConsistentEthics(es) && DraftShape(es) && |es| == EthicDraws(e, rand, at)
    ensures var es := EthicDraft(e, rand, at).value.ethics;
            var first := Pick(EthicList(e), rand(at + 1));
            if first.name == Gestalt then es == [first]
            else if rand(at) % 2 == 1 then es[0] == Ethic(Fanatic(first.name), first.allowed)
            else es[0] == first
  {
    EthicListNonEmpty(e);
    var first := Pick(EthicList(e), rand(at + 1));
    FirstDrawRegular(e, rand, at);
    if first.name == Gestalt {
      GestaltName();
      assert EthicNames([first]) == [Gestalt];
    } else if rand(at) % 2 == 1 {
      FanaticDraft(e, rand, at, first);
    } else {
      PlainDraft(e, rand, at, first);
    }
  }

  /** One further draw, as chooseEthic's body performs it. */
  method DrawAnother(catalog: seq<Ethic>, empire: Empire, rand: Rand, at: nat) returns (r: Result<Empire>)
    ensures r == DrawNext(catalog, empire, rand, at)
  {
    var ethicList := FilterEthics(catalog, empire);
    if ethicList == [] {
      return Err(EmptyEligibleSet(EthicDraw));
    }
    var nextDraw := Pick(ethicList, rand(at));
    return Ok(empire.(ethics := empire.ethics + [nextDraw]));
  }

  /** The closing draws of chooseEthic (main.go:158-169): `count` further draws, one position each. */
  method DrawRemaining(catalog: seq<Ethic>, e: Empire, rand: Rand, at: nat, count: nat) returns (r: Result<Empire>, next: nat)
    ensures r == DrawMore(catalog, e, rand, at, count)
    ensures r.Ok? ==> next == at + count
  {
    var empire := e;
    next := at;
    ghost var target := DrawMore(catalog, e, rand, at, count);
    for i := 0 to count
      invariant next == at + i
      invariant DrawMore(catalog, empire, rand, next, count - i) == target
    {
      r := DrawAnother(catalog, empire, rand, next);
      assert DrawMore(catalog, empire, rand, next, count - i)
          == if r.Err? then r else DrawMore(catalog, r.value, rand, next + 1, count - i - 1);
      next := next + 1;
      if r.Err? {
        return r, next;
      }
      empire := r.value;
    }
    return Ok(empire), next;
  }

  /**
   * chooseEthic (main.go:149-171): the draft of EthicDraft, with the draws
   * consumed in the order the source makes them.
   */
  method ChooseEthic(e: Empire, rand: Rand, at: nat) returns (r: Result<Empire>, next: nat)
    ensures r == EthicDraft(e, rand, at)
    ensures r.Ok? ==> next == at + 1 + EthicDraws(e, rand, at)
  {
    var firstFanatic := rand(at) % 2 == 1;
    var ethicList := GetEthicList(e);
    if ethicList == [] {
      return Err(EmptyEligibleSet(EthicDraw)), at + 1;
    }
    var firstDraw := Pick(ethicList, rand(at + 1));
    next := at + 2;
    if firstDraw.name == Gestalt {
      return Ok(e.(ethics := [firstDraw])), next;
    }
    if firstFanatic {
      var empire := e.(ethics := e.ethics + [Ethic(Fanatic(firstDraw.name), firstDraw.allowed)]);
      r, next := DrawRemaining(AllEthics, empire, rand, next, 1);
    } else {
      var empire := e.(ethics := e.ethics + [firstDraw]);
      r, next := DrawRemaining(AllEthics, empire, rand, next, 2);
    }
  }
}
