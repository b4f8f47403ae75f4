/** The particle catalog of gtracr/add_particle.py: a module-level dictionary
    from particle label to particle, filled at import time with the
    positron, electron, proton and anti-proton. */
module ParticleCatalog {

  /** The arguments a catalog particle is built from: name, PDG id, mass
      (GeV/c^2), charge (units of e) and label. */
  datatype Species = Species(name: string, pdgid: int, mass: real, charge: int, lbl: string)

  /** 0.5109 * (1e-3) GeV/c^2, the mass given to electron and positron. */
  const ElectronMass: real := 0.5109 * 0.001
  /** 0.937272 GeV/c^2, the mass given to proton and anti-proton. */
  const ProtonMass: real := 0.937272

  const Positron := Species("positron", -11, ElectronMass, 1, "e+")
  const Electron := Species("electron", 11, ElectronMass, -1, "e-")
  const Proton := Species("proton", 2212, ProtonMass, 1, "p+")
  const AntiProton := Species("anti-proton", -2212, ProtonMass, -1, "p-")

  /** The list the module's loop walks, in order. */
  const Created: seq<Species> := [Positron, Electron, Proton, AntiProton]

  /** The dictionary after add_to_dict has been called with each of parts in
      turn, starting from d. */
  function Registered(d: map<string, Species>, parts: seq<Species>): (r: map<string, Species>)
    ensures r.Keys == d.Keys + set p | p in parts :: p.lbl
    ensures |parts| > 0 ==> r[parts[|parts| - 1].lbl] == parts[|parts| - 1]
  {
    if parts == [] then d
    else
      var last := parts[|parts| - 1];
      Registered(d, parts[..|parts| - 1])[last.lbl := last]
  }

  /** Two species are each other's antiparticle: the same mass, opposite
      charge and the negated PDG id. */
  predicate Antiparticles(a: Species, b: Species)
  {
    a.mass == b.mass && a.charge == -b.charge && a.pdgid == -b.pdgid
  }

  /** particle_dict together with add_to_dict. */
  class Registry {
    var particleDict: map<string, Species>

    /** particle_dict = {} */
    constructor Empty()
      ensures particleDict == map[]
    {
      particleDict := map[];
    }

    /** add_to_dict(part): store part under its label, replacing any earlier
        entry under that label and leaving every other entry alone. */
    method AddToDict(part: Species)
      modifies this
      ensures particleDict == old(particleDict)[part.lbl := part]
      ensures part.lbl in particleDict && particleDict[part.lbl] == part
      ensures forall k :: k != part.lbl ==> (k in particleDict <==> k in old(particleDict))
      ensures forall k :: k != part.lbl && k in particleDict ==> particleDict[k] == old(particleDict)[k]
    {
      particleDict := particleDict[part.lbl := part];
    }

    /** The module body: create the dictionary, then add each particle of
        the list in order. */
    constructor Loaded()
      ensures particleDict == Registered(map[], Created)
    {
      particleDict := map[];
      new;
      hide Registered;
      var parts := Created;
      var i := 0;
      while i < |parts|
        invariant 0 <= i <= |parts|
        invariant particleDict == Registered(map[], parts[..i])
      {
        assert parts[..i + 1] == parts[..i] + [parts[i]];
        RegisteredSnoc(map[], parts[..i], parts[i]);
        AddToDict(parts[i]);
        i := i + 1;
      }
      assert parts[..i] == parts;
    }
  }

  /** add_to_dict on a dictionary built by Registered. */
  lemma RegisteredSnoc(d: map<string, Species>, parts: seq<Species>, p: Species)
    ensures Registered(d, parts + [p]) == Registered(d, parts)[p.lbl := p]
  {
    assert (parts + [p])[..|parts|] == parts;
  }

  /** Every key that was not in the starting dictionary holds a particle
      of the list carrying that key as its label, and an entry of the
      starting dictionary survives unless a particle carries its label. */
  lemma {:induction false} RegisteredEntries(d: map<string, Species>, parts: seq<Species>, k: string)
    requires k in Registered(d, parts)
    ensures (forall p :: p in parts ==> p.lbl != k) ==> Registered(d, parts)[k] == d[k]
    ensures k !in d ==> Registered(d, parts)[k] in parts && Registered(d, parts)[k].lbl == k
    decreases |parts|
  {
    if parts != [] {
      var init := parts[..|parts| - 1];
      var last := parts[|parts| - 1];
      assert parts == init + [last];
      if k != last.lbl {
        RegisteredEntries(d, init, k);
        assert forall p :: p in init ==> p in parts;
      }
    }
  }

  /** After loading, the labels are exactly e+, e-, p+ and p-, each stored
      under its own label, and each particle/antiparticle pair shares a mass,
      has opposite charges and negated PDG ids. */
  lemma {:induction false} LoadedCatalog()
    ensures Registered(map[], Created) == map["e+" := Positron, "e-" := Electron, "p+" := Proton, "p-" := AntiProton]
    ensures Registered(map[], Created).Keys == {"e+", "e-", "p+", "p-"}
    ensures Antiparticles(Positron, Electron) && Antiparticles(Proton, AntiProton)
  {
    LoadedInOrder();
  }

  /** The four add_to_dict calls, one at a time. */
  lemma {:induction false} LoadedInOrder()
    ensures Registered(map[], Created) == map["e+" := Positron, "e-" := Electron, "p+" := Proton, "p-" := AntiProton]
  {
    hide Registered;
    var m2 := map["e+" := Positron, "e-" := Electron];
    var m3 := m2["p+" := Proton];
    var m4 := m3["p-" := AntiProton];
    LeptonsLoaded();
    assert Registered(map[], [Positron, Electron, Proton]) == m3 by {
      RegisteredSnoc(map[], [Positron, Electron], Proton);
      assert [Positron, Electron] + [Proton] == [Positron, Electron, Proton];
    }
    assert Registered(map[], Created) == m4 by {
      RegisteredSnoc(map[], [Positron, Electron, Proton], AntiProton);
      assert [Positron, Electron, Proton] + [AntiProton] == Created;
    }
    assert m4 == map["e+" := Positron, "e-" := Electron, "p+" := Proton, "p-" := AntiProton];
  }

  /** The first two add_to_dict calls. */
  lemma {:induction false} LeptonsLoaded()
    ensures Registered(map[], [Positron, Electron]) == map["e+" := Positron, "e-" := Electron]
  {
    hide Registered;
    assert Registered(map[], [Positron]) == map["e+" := Positron] by {
      RegisteredEmpty(map[]);
      RegisteredSnoc(map[], [], Positron);
      assert [] + [Positron] == [Positron];
    }
    RegisteredSnoc(map[], [Positron], Electron);
    assert [Positron] + [Electron] == [Positron, Electron];
  }

  lemma RegisteredEmpty(d: map<string, Species>)
    ensures Registered(d, []) == d
  {
  }

  /** Adding a particle whose label is already present replaces the old
      entry and adds no key; adding it again changes nothing. */
  lemma {:induction false} ReAddReplaces(d: map<string, Species>, part: Species, again: Species)
    requires again.lbl == part.lbl
    ensures Registered(d, [part, again]) == d[part.lbl := again]
    ensures Registered(d, [part, part]) == Registered(d, [part])
  {
    hide Registered;
    assert Registered(d, [part]) == d[part.lbl := part] by {
      RegisteredEmpty(d);
      RegisteredSnoc(d, [], part);
      assert [] + [part] == [part];
    }
    assert Registered(d, [part, again]) == Registered(d, [part])[again.lbl := again] by {
      RegisteredSnoc(d, [part], again);
      assert [part] + [again] == [part, again];
    }
    assert Registered(d, [part, part]) == Registered(d, [part])[part.lbl := part] by {
      RegisteredSnoc(d, [part], part);
      assert [part] + [part] == [part, part];
    }
  }
}
