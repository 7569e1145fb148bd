/** The feature schema SCATTER_ATTRS: each named feature, how it is read off a
    cyclone (a stored per-date attribute, or a derived `calc_*` function) and
    the column it occupies in the feature matrix. */
module Features {
  import opened Options

  datatype Extraction =
    | Field(attr: string)   // `getattr(cyclone, attr)[date]`
    | Calc(fn: string)      // a derived value, computed by the named function

  datatype Feature = Feature(name: string, extraction: Extraction, index: nat)

  const ScatterAttrs: seq<Feature> := [
    Feature("vort", Calc("get_vort"), 0),
    Feature("pmin", Field("pmins"), 1),
    Feature("pambdiff", Field("p_ambient_diffs"), 2),
    Feature("mindist", Field("min_dists"), 3),
    Feature("t995", Field("t995s"), 4),
    Feature("t850", Field("t850s"), 5),
    Feature("tanom", Calc("calc_t_anom"), 6),
    Feature("maxwindspeed", Field("max_windspeeds"), 7),
    Feature("maxwindspeeddist", Calc("calc_ws_dist"), 8),
    Feature("maxwindspeeddir", Calc("calc_ws_dir"), 9),
    Feature("cape", Field("capes"), 10),
    Feature("pwat", Field("pwats"), 11),
    Feature("rh995", Field("rh995s"), 12),
    Feature("lon", Calc("calc_lon"), 13),
    Feature("lat", Calc("calc_lat"), 14)
  ]

  /** `SCATTER_ATTRS[name]['index']` over a registry fs; None is the KeyError. */
  function IndexIn(fs: seq<Feature>, name: string): Option<nat>
  {
    if fs == [] then None
    else if fs[0].name == name then Some(fs[0].index)
    else IndexIn(fs[1..], name)
  }

  /** The lookup finds the index of an entry with that name, and fails only
      when no entry has it. */
  lemma {:induction false} IndexInFound(fs: seq<Feature>, name: string)
    ensures IndexIn(fs, name).Some? ==>
      exists j :: 0 <= j < |fs| && fs[j].name == name && fs[j].index == IndexIn(fs, name).value
    ensures IndexIn(fs, name).None? ==> forall j :: 0 <= j < |fs| ==> fs[j].name != name
  {
    if fs != [] && fs[0].name != name {
      IndexInFound(fs[1..], name);
      if IndexIn(fs, name).Some? {
        var j :| 0 <= j < |fs[1..]| && fs[1..][j].name == name && fs[1..][j].index == IndexIn(fs, name).value;
        assert fs[j + 1] == fs[1..][j];
      }
    }
  }

  function FeatureIndex(name: string): Option<nat>
  {
    IndexIn(ScatterAttrs, name)
  }

  /** The schema is dense: feature j sits in column j, and every column index
      the registry hands out is below 15. */
  lemma ScatterAttrsDense(name: string)
    ensures |ScatterAttrs| == 15
    ensures forall j :: 0 <= j < |ScatterAttrs| ==> ScatterAttrs[j].index == j
    ensures FeatureIndex(name).Some? ==> FeatureIndex(name).value < 15
  {
    IndexInFound(ScatterAttrs, name);
  }

  /** The first registry entry with a given name decides the lookup. */
  lemma {:induction false} IndexInAt(fs: seq<Feature>, name: string, j: nat)
    requires j < |fs| && fs[j].name == name
    requires forall i :: 0 <= i < j ==> fs[i].name != name
    ensures IndexIn(fs, name) == Some(fs[j].index)
  {
    if j > 0 {
      IndexInAt(fs[1..], name, j - 1);
    }
  }

  /** No feature before column 13 has a name starting with 'l'. */
  lemma NoEarlierL()
    ensures forall i :: 0 <= i < 13 ==> ScatterAttrs[i].name[0] != 'l'
  {
  }

  /** Only column 14 is named `lat`, and `lon` is not. */
  lemma LatIsLast()
    ensures forall i :: 0 <= i < 14 ==> ScatterAttrs[i].name != "lat"
  {
    NoEarlierL();
    var lon := ScatterAttrs[13].name;
    assert lon == "lon";
    assert lon[1] != "lat"[1];
  }

  /** Longitude and latitude are the last two columns; "every feature"
      means the columns before `lon`. */
  lemma LonLatColumns()
    ensures FeatureIndex("lon") == Some(13) && FeatureIndex("lat") == Some(14)
  {
    LonColumn();
    LatColumn();
  }

  lemma LonColumn()
    ensures FeatureIndex("lon") == Some(13)
  {
    var n := "lon";
    NoEarlierL();
    assert n[0] == 'l';
    assert forall i :: 0 <= i < 13 ==> ScatterAttrs[i].name != n;
    IndexInAt(ScatterAttrs, n, 13);
  }

  lemma LatColumn()
    ensures FeatureIndex("lat") == Some(14)
  {
    LatIsLast();
    IndexInAt(ScatterAttrs, "lat", 14);
  }

  lemma VortColumn()
    ensures FeatureIndex("vort") == Some(0)
  {
    IndexInAt(ScatterAttrs, "vort", 0);
  }

  lemma PambdiffColumn()
    ensures FeatureIndex("pambdiff") == Some(2)
  {
    var n := "pambdiff";
    assert ScatterAttrs[0].name[0] != n[0];
    assert ScatterAttrs[1].name[1] != n[1];
    IndexInAt(ScatterAttrs, n, 2);
  }

  lemma T995Column()
    ensures FeatureIndex("t995") == Some(4)
  {
    var n := "t995";
    assert forall i :: 0 <= i < 4 ==> ScatterAttrs[i].name[0] != n[0];
    IndexInAt(ScatterAttrs, n, 4);
  }

  lemma T850Column()
    ensures FeatureIndex("t850") == Some(5)
  {
    var n := "t850";
    assert forall i :: 0 <= i < 4 ==> ScatterAttrs[i].name[0] != n[0];
    assert ScatterAttrs[4].name[1] != n[1];
    IndexInAt(ScatterAttrs, n, 5);
  }

  lemma MaxwindspeedColumn()
    ensures FeatureIndex("maxwindspeed") == Some(7)
  {
    var n := "maxwindspeed";
    assert forall i :: 0 <= i < 7 && i != 3 ==> ScatterAttrs[i].name[0] != n[0];
    assert ScatterAttrs[3].name[1] != n[1];
    IndexInAt(ScatterAttrs, n, 7);
  }
}
