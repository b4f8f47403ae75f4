/** The geomagnetic cutoff survey of gtracr/geomagnetic_cutoff.py: for every
    launch site, particle and energy, trace a trajectory in each direction
    of a zenith/azimuth grid and record 1 where the trajectory is allowed and
    0 where the particle comes back below the ground. */
module GeomagneticCutoff {

  /** One row per azimuth, one entry per zenith slot. */
  type Grid = seq<seq<real>>

  /** A launch site of the location dictionary: latitude, longitude (degrees)
      and altitude (km). */
  datatype Site = Site(latitude: real, longitude: real, altitude: real)

  /** np.linspace(start, stop, num, endpoint=False): num evenly spaced values
      from start, with step (stop - start) / num. */
  function Linspace(start: real, stop: real, num: nat): (xs: seq<real>)
    ensures |xs| == num
    ensures num > 0 ==> xs[0] == start
    ensures forall k :: 0 < k < num ==> xs[k] - xs[k - 1] == (stop - start) / num as real
  {
    seq(num, k requires 0 <= k < num => start + k as real * ((stop - start) / num as real))
  }

  /** The grid size of the survey. */
  const Num: nat := 20

  /** The survey's zenith grid: 0 to 180 degrees, endpoint excluded. */
  function ZenithGrid(): seq<real>
  {
    Linspace(0.0, 180.0, Num)
  }

  /** The survey's azimuth grid: 0 to 360 degrees, endpoint excluded. */
  function AzimuthGrid(): seq<real>
  {
    Linspace(0.0, 360.0, Num)
  }

  /** Kinetic energies (GeV) of the survey, in order. */
  function EnergyList(): seq<real>
  {
    [5.0, 30.0, 50.0]
  }

  /** The "binary boolean value" recorded for one direction: 0 when the
      trajectory ends below the surface, 1 otherwise. */
  function Cutoff(endAltitude: real): (c: real)
    ensures c == 0.0 || c == 1.0
    ensures c == 0.0 <==> endAltitude < 0.0
  {
    if endAltitude < 0.0 then 0.0 else 1.0
  }

  /** Row i of get_cutoffs: num zeros, with slot j < |zenithArr| overwritten by
      the cutoff of direction (zenithArr[j], azimuth). The end point's
      altitude for a direction is given by getTrajectory. */
  function CutoffRow(zenithArr: seq<real>, num: nat, azimuth: real,
                     getTrajectory: (real, real) -> real): seq<real>
    requires |zenithArr| <= num
  {
    seq(num, j requires 0 <= j < num =>
          if j < |zenithArr| then Cutoff(getTrajectory(zenithArr[j], azimuth)) else 0.0)
  }

  /** What get_cutoffs returns: one CutoffRow per element of azimuthArr. */
  function CutoffGrid(azimuthArr: seq<real>, zenithArr: seq<real>, num: nat,
                      getTrajectory: (real, real) -> real): Grid
    requires |zenithArr| <= num
  {
    seq(|azimuthArr|, i requires 0 <= i < |azimuthArr| => CutoffRow(zenithArr, num, azimuthArr[i], getTrajectory))
  }

  /** ParticleTrajectory(pname, energy, latitude, longitude, altitude): the
      altitude of getTrajectory's end point, as a function of zenith and
      azimuth. endAltitude stands for the tracer, which is not part of this
      model. */
  function Trajectory(endAltitude: (string, real, Site, real, real) -> real,
                      pname: string, energy: real, site: Site): (real, real) -> real
  {
    (zenith: real, azimuth: real) => endAltitude(pname, energy, site, zenith, azimuth)
  }

  /** get_cutoffs(zenith, azimuth). The two parameters are shadowed by the
      loop variables, so the result depends only on the module globals
      azimuth_arr, zenith_arr, num and traj, passed here as azimuthArr,
      zenithArr, num and getTrajectory. A zenith grid longer than num would
      write past the end of a row, which numpy refuses. */
  method GetCutoffs(zenith: seq<real>, azimuth: seq<real>,
                    azimuthArr: seq<real>, zenithArr: seq<real>, num: nat,
                    getTrajectory: (real, real) -> real)
    returns (data: seq<array<real>>)
    requires |zenithArr| <= num
    ensures |data| == |azimuthArr|
    ensures forall i :: 0 <= i < |data| ==> fresh(data[i])
    ensures forall k, l :: 0 <= k < l < |data| ==> data[k] != data[l]
    ensures forall i :: 0 <= i < |data| ==> data[i][..] == CutoffRow(zenithArr, num, azimuthArr[i], getTrajectory)
  {
    data := [];
    var i := 0;
    while i < |azimuthArr|
      invariant 0 <= i <= |azimuthArr| && |data| == i
      invariant forall k :: 0 <= k < i ==> fresh(data[k])
      invariant forall k, l :: 0 <= k < l < i ==> data[k] != data[l]
      invariant forall k :: 0 <= k < i ==> data[k][..] == CutoffRow(zenithArr, num, azimuthArr[k], getTrajectory)
    {
      var row := new real[num](_ => 0.0);
      data := data + [row];
      var j := 0;
      while j < |zenithArr|
        invariant 0 <= j <= |zenithArr|
        invariant forall l :: 0 <= l < j ==> row[l] == Cutoff(getTrajectory(zenithArr[l], azimuthArr[i]))
        invariant forall l :: j <= l < num ==> row[l] == 0.0
        invariant forall k :: 0 <= k < i ==> data[k][..] == CutoffRow(zenithArr, num, azimuthArr[k], getTrajectory)
      {
        var cutoff := 1.0;
        if getTrajectory(zenithArr[j], azimuthArr[i]) < 0.0 {
          cutoff := 0.0;
        }
        row[j] := cutoff;
        j := j + 1;
      }
      assert row[..] == CutoffRow(zenithArr, num, azimuthArr[i], getTrajectory);
      i := i + 1;
    }
  }

  /** The rows of get_cutoffs, copied out of their arrays. */
  function Contents(data: seq<array<real>>): (g: Grid)
    reads set k | 0 <= k < |data| :: data[k]
    ensures |g| == |data| && forall k :: 0 <= k < |data| ==> g[k] == data[k][..]
  {
    if data == [] then [] else Contents(data[..|data| - 1]) + [data[|data| - 1][..]]
  }

  /** The grids of one particle at one site, keyed by rigidity: one entry per
      energy, where a later energy whose rigidity repeats an earlier one
      overwrites it. */
  function EnergyGrids(site: Site, pname: string, energies: seq<real>,
                       rigidityFromEnergy: (string, real) -> real,
                       endAltitude: (string, real, Site, real, real) -> real): (m: map<real, Grid>)
    ensures m.Keys == set e | e in energies :: rigidityFromEnergy(pname, e)
    ensures |energies| > 0 ==>
              var e := energies[|energies| - 1];
              m[rigidityFromEnergy(pname, e)] == CutoffGrid(AzimuthGrid(), ZenithGrid(), Num, Trajectory(endAltitude, pname, e, site))
  {
    if energies == [] then map[]
    else
      var e := energies[|energies| - 1];
      EnergyGrids(site, pname, energies[..|energies| - 1], rigidityFromEnergy, endAltitude)
        [rigidityFromEnergy(pname, e) := CutoffGrid(AzimuthGrid(), ZenithGrid(), Num, Trajectory(endAltitude, pname, e, site))]
  }

  /** The entry of one site: one EnergyGrids per particle label. */
  function ParticleEntries(site: Site, labels: seq<string>,
                           rigidityFromEnergy: (string, real) -> real,
                           endAltitude: (string, real, Site, real, real) -> real): (m: map<string, map<real, Grid>>)
    ensures m.Keys == set l | l in labels
    ensures forall l :: l in m ==> m[l] == EnergyGrids(site, l, EnergyList(), rigidityFromEnergy, endAltitude)
  {
    if labels == [] then map[]
    else
      var l := labels[|labels| - 1];
      ParticleEntries(site, labels[..|labels| - 1], rigidityFromEnergy, endAltitude)
        [l := EnergyGrids(site, l, EnergyList(), rigidityFromEnergy, endAltitude)]
  }

  /** The "Location" entry of the survey: one ParticleEntries per site name;
      the last site given under a name is the one kept. */
  function LocationEntries(sites: seq<(string, Site)>, labels: seq<string>,
                           rigidityFromEnergy: (string, real) -> real,
                           endAltitude: (string, real, Site, real, real) -> real): (m: map<string, map<string, map<real, Grid>>>)
    ensures m.Keys == set k | 0 <= k < |sites| :: sites[k].0
    ensures |sites| > 0 ==> m[sites[|sites| - 1].0] == ParticleEntries(sites[|sites| - 1].1, labels, rigidityFromEnergy, endAltitude)
  {
    if sites == [] then map[]
    else
      var last := sites[|sites| - 1];
      LocationEntries(sites[..|sites| - 1], labels, rigidityFromEnergy, endAltitude)
        [last.0 := ParticleEntries(last.1, labels, rigidityFromEnergy, endAltitude)]
  }

  /** The energy loop for one particle at one site: the grid of each energy,
      stored under the particle's rigidity at that energy. */
  method ParticleGrids(site: Site, pname: string,
                       rigidityFromEnergy: (string, real) -> real,
                       endAltitude: (string, real, Site, real, real) -> real)
    returns (grids: map<real, Grid>)
    ensures grids == EnergyGrids(site, pname, EnergyList(), rigidityFromEnergy, endAltitude)
  {
    var energies := EnergyList();
    grids := map[];
    assert energies[..0] == [];
    hide EnergyGrids, CutoffGrid, Contents, Trajectory, ZenithGrid, AzimuthGrid;
    var k := 0;
    while k < |energies|
      invariant 0 <= k <= |energies|
      invariant grids == EnergyGrids(site, pname, energies[..k], rigidityFromEnergy, endAltitude)
    {
      var energy := energies[k];
      var rigidity := rigidityFromEnergy(pname, energy);
      var cutoffArr := GetCutoffs(ZenithGrid(), AzimuthGrid(), AzimuthGrid(), ZenithGrid(), Num,
                                  Trajectory(endAltitude, pname, energy, site));
      ContentsIsGrid(cutoffArr, AzimuthGrid(), ZenithGrid(), Num, Trajectory(endAltitude, pname, energy, site));
      EnergyGridsStep(site, pname, energies, k, rigidityFromEnergy, endAltitude);
      grids := grids[rigidity := Contents(cutoffArr)];
      k := k + 1;
    }
    assert energies[..k] == energies;
  }

  /** Storing twice under one key keeps the second value. */
  lemma UpdateTwice<K, V>(m: map<K, V>, a: K, x: V, y: V)
    ensures m[a := x][a := y] == m[a := y]
  {
  }

  /** geomag_cutoffdict: the two angle grids and the nested results. */
  class CutoffSurvey {
    var zenith: seq<real>
    var azimuth: seq<real>
    var location: map<string, map<string, map<real, Grid>>>

    /** The dictionary literal: the grids and an empty "Location" entry. */
    constructor (zenithArr: seq<real>, azimuthArr: seq<real>)
      ensures zenith == zenithArr && azimuth == azimuthArr && location == map[]
    {
      zenith, azimuth, location := zenithArr, azimuthArr, map[];
    }

    /** One site of the site loop: a fresh entry for the site, then the
        particle loop filling a fresh entry per particle label with its
        grids by rigidity. */
    method FillParticles(name: string, site: Site, labels: seq<string>,
                         rigidityFromEnergy: (string, real) -> real,
                         endAltitude: (string, real, Site, real, real) -> real)
      modifies this`location
      ensures location == old(location)[name := ParticleEntries(site, labels, rigidityFromEnergy, endAltitude)]
    {
      ghost var base := location;
      location := location[name := map[]];
      assert labels[..0] == [];
      hide ParticleEntries, EnergyGrids;
      var k := 0;
      while k < |labels|
        invariant 0 <= k <= |labels|
        invariant location == base[name := ParticleEntries(site, labels[..k], rigidityFromEnergy, endAltitude)]
      {
        ghost var before := ParticleEntries(site, labels[..k], rigidityFromEnergy, endAltitude);
        location := location[name := location[name][labels[k] := map[]]];
        UpdateTwice(base, name, before, before[labels[k] := map[]]);
        var grids := ParticleGrids(site, labels[k], rigidityFromEnergy, endAltitude);
        location := location[name := location[name][labels[k] := grids]];
        UpdateTwice(base, name, before[labels[k] := map[]], before[labels[k] := map[]][labels[k] := grids]);
        UpdateTwice(before, labels[k], map[], grids);
        ParticleEntriesStep(site, labels, k, rigidityFromEnergy, endAltitude);
        k := k + 1;
      }
      assert labels[..k] == labels;
    }

    /** The site loop: the entries of every site, in order. */
    method FillLocations(sites: seq<(string, Site)>, labels: seq<string>,
                         rigidityFromEnergy: (string, real) -> real,
                         endAltitude: (string, real, Site, real, real) -> real)
      requires location == map[]
      modifies this`location
      ensures location == LocationEntries(sites, labels, rigidityFromEnergy, endAltitude)
    {
      assert sites[..0] == [];
      hide LocationEntries, ParticleEntries;
      var k := 0;
      while k < |sites|
        invariant 0 <= k <= |sites|
        invariant location == LocationEntries(sites[..k], labels, rigidityFromEnergy, endAltitude)
      {
        var (name, site) := sites[k];
        FillParticles(name, site, labels, rigidityFromEnergy, endAltitude);
        LocationEntriesStep(sites, labels, k, rigidityFromEnergy, endAltitude);
        k := k + 1;
      }
      assert sites[..k] == sites;
    }
  }

  /** The script's main block: build the grids and the dictionary, then fill
      it for every site of the location dictionary and every particle label
      of the particle dictionary, in their iteration order. The rigidity of
      a particle at an energy, and the tracer, are parameters. */
  method RunSurvey(sites: seq<(string, Site)>, labels: seq<string>,
                   rigidityFromEnergy: (string, real) -> real,
                   endAltitude: (string, real, Site, real, real) -> real)
    returns (survey: CutoffSurvey)
    ensures survey.zenith == ZenithGrid() && survey.azimuth == AzimuthGrid()
    ensures survey.location == LocationEntries(sites, labels, rigidityFromEnergy, endAltitude)
  {
    var zenithArr := Linspace(0.0, 180.0, Num);
    var azimuthArr := Linspace(0.0, 360.0, Num);
    survey := new CutoffSurvey(zenithArr, azimuthArr);
    survey.FillLocations(sites, labels, rigidityFromEnergy, endAltitude);
  }

  /** The survey grids are 9 and 18 degrees apart. */
  lemma {:induction false} SurveyGrids()
    ensures |ZenithGrid()| == Num && |AzimuthGrid()| == Num
    ensures forall k :: 0 <= k < Num ==> ZenithGrid()[k] == 9.0 * k as real
    ensures forall k :: 0 <= k < Num ==> AzimuthGrid()[k] == 18.0 * k as real
  {
    assert (180.0 - 0.0) / Num as real == 9.0;
    assert (360.0 - 0.0) / Num as real == 18.0;
  }

  /** Every entry of a cutoff grid is 0 or 1, and it is 0 exactly for the
      directions whose trajectory ends below the surface; rows are num long,
      and slots past the zenith grid stay 0. */
  lemma GridEntries(azimuthArr: seq<real>, zenithArr: seq<real>, num: nat,
                    getTrajectory: (real, real) -> real, i: nat, j: nat)
    requires |zenithArr| <= num && i < |azimuthArr| && j < num
    ensures |CutoffGrid(azimuthArr, zenithArr, num, getTrajectory)| == |azimuthArr|
    ensures |CutoffGrid(azimuthArr, zenithArr, num, getTrajectory)[i]| == num
    ensures var c := CutoffGrid(azimuthArr, zenithArr, num, getTrajectory)[i][j];
      && (c == 0.0 || c == 1.0)
      && (c == 0.0 <==> (j < |zenithArr| ==> getTrajectory(zenithArr[j], azimuthArr[i]) < 0.0))
  {
    assert CutoffGrid(azimuthArr, zenithArr, num, getTrajectory)[i] == CutoffRow(zenithArr, num, azimuthArr[i], getTrajectory);
    assert CutoffRow(zenithArr, num, azimuthArr[i], getTrajectory)[j]
        == if j < |zenithArr| then Cutoff(getTrajectory(zenithArr[j], azimuthArr[i])) else 0.0;
  }

  /** Every grid kept for a particle is the grid of one of its energies at
      that rigidity. */
  lemma {:induction false} EnergyGridsFrom(site: Site, pname: string, energies: seq<real>,
                                            rigidityFromEnergy: (string, real) -> real,
                                            endAltitude: (string, real, Site, real, real) -> real, r: real)
    requires r in EnergyGrids(site, pname, energies, rigidityFromEnergy, endAltitude)
    ensures exists e :: e in energies && rigidityFromEnergy(pname, e) == r
              && EnergyGrids(site, pname, energies, rigidityFromEnergy, endAltitude)[r]
                 == CutoffGrid(AzimuthGrid(), ZenithGrid(), Num, Trajectory(endAltitude, pname, e, site))
    decreases |energies|
  {
    var e := energies[|energies| - 1];
    if rigidityFromEnergy(pname, e) != r {
      var init := energies[..|energies| - 1];
      EnergyGridsFrom(site, pname, init, rigidityFromEnergy, endAltitude, r);
      var e' :| e' in init && rigidityFromEnergy(pname, e') == r
                && EnergyGrids(site, pname, init, rigidityFromEnergy, endAltitude)[r]
                   == CutoffGrid(AzimuthGrid(), ZenithGrid(), Num, Trajectory(endAltitude, pname, e', site));
      assert e' in energies;
    }
  }

  /** The site stored under a name is the last one given under it. */
  lemma {:induction false} LocationEntriesAt(sites: seq<(string, Site)>, labels: seq<string>,
                                              rigidityFromEnergy: (string, real) -> real,
                                              endAltitude: (string, real, Site, real, real) -> real, k: nat)
    requires k < |sites| && forall l :: k < l < |sites| ==> sites[l].0 != sites[k].0
    ensures LocationEntries(sites, labels, rigidityFromEnergy, endAltitude)[sites[k].0]
            == ParticleEntries(sites[k].1, labels, rigidityFromEnergy, endAltitude)
    decreases |sites|
  {
    if k < |sites| - 1 {
      var init := sites[..|sites| - 1];
      assert forall l :: k < l < |init| ==> init[l] == sites[l];
      LocationEntriesAt(init, labels, rigidityFromEnergy, endAltitude, k);
    }
  }

  /** One more energy of the loop: its grid is stored under its rigidity. */
  lemma EnergyGridsStep(site: Site, pname: string, energies: seq<real>, k: nat,
                        rigidityFromEnergy: (string, real) -> real,
                        endAltitude: (string, real, Site, real, real) -> real)
    requires k < |energies|
    ensures EnergyGrids(site, pname, energies[..k + 1], rigidityFromEnergy, endAltitude)
            == EnergyGrids(site, pname, energies[..k], rigidityFromEnergy, endAltitude)
                 [rigidityFromEnergy(pname, energies[k]) :=
                    CutoffGrid(AzimuthGrid(), ZenithGrid(), Num, Trajectory(endAltitude, pname, energies[k], site))]
  {
    assert energies[..k + 1][..k] == energies[..k];
  }

  /** One more particle of the loop. */
  lemma ParticleEntriesStep(site: Site, labels: seq<string>, k: nat,
                            rigidityFromEnergy: (string, real) -> real,
                            endAltitude: (string, real, Site, real, real) -> real)
    requires k < |labels|
    ensures ParticleEntries(site, labels[..k + 1], rigidityFromEnergy, endAltitude)
            == ParticleEntries(site, labels[..k], rigidityFromEnergy, endAltitude)
                 [labels[k] := EnergyGrids(site, labels[k], EnergyList(), rigidityFromEnergy, endAltitude)]
  {
    assert labels[..k + 1][..k] == labels[..k];
  }

  /** One more site of the loop. */
  lemma LocationEntriesStep(sites: seq<(string, Site)>, labels: seq<string>, k: nat,
                            rigidityFromEnergy: (string, real) -> real,
                            endAltitude: (string, real, Site, real, real) -> real)
    requires k < |sites|
    ensures LocationEntries(sites[..k + 1], labels, rigidityFromEnergy, endAltitude)
            == LocationEntries(sites[..k], labels, rigidityFromEnergy, endAltitude)
                 [sites[k].0 := ParticleEntries(sites[k].1, labels, rigidityFromEnergy, endAltitude)]
  {
    assert sites[..k + 1][..k] == sites[..k];
  }

  /** The arrays get_cutoffs returns hold the cutoff grid. */
  lemma ContentsIsGrid(data: seq<array<real>>, azimuthArr: seq<real>, zenithArr: seq<real>, num: nat,
                       getTrajectory: (real, real) -> real)
    requires |zenithArr| <= num && |data| == |azimuthArr|
    requires forall i :: 0 <= i < |data| ==> data[i][..] == CutoffRow(zenithArr, num, azimuthArr[i], getTrajectory)
    ensures Contents(data) == CutoffGrid(azimuthArr, zenithArr, num, getTrajectory)
  {
  }
}
