/** StormtracksResultsManager: results kept in memory as a three-level
    dictionary year -> ensemble member -> name -> result, and the result file
    names `results_em_<member>.pkl` that `list_ensemble_members` parses back. */
module Results {
  import opened Options
  import opened Strings

  /** What `add_result` and `load` end with: success, the exception for a
      name already present, or a results file that could not be read. */
  datatype Outcome = Done | Duplicate(name: string) | Unreadable

  /** The nested dictionary `_results`. */
  type Registry<R> = map<int, map<int, map<string, R>>>

  /** The result stored under (year, member, name), if any. */
  function Entry<R>(rs: Registry<R>, year: int, member: int, name: string): Option<R>
  {
    if year in rs && member in rs[year] && name in rs[year][member]
    then Some(rs[year][member][name]) else None
  }

  /** The registry after storing result under (year, member, name), the year
      and member levels being created when missing. */
  function Store<R>(rs: Registry<R>, year: int, member: int, name: string, result: R): (r: Registry<R>)
    ensures r.Keys == rs.Keys + {year}
    ensures r[year].Keys == (if year in rs then rs[year].Keys else {}) + {member}
  {
    var members := if year in rs then rs[year] else map[];
    var names := if member in members then members[member] else map[];
    rs[year := members[member := names[name := result]]]
  }

  /** Storing sets exactly one entry: every other (year, member, name) keeps
      what it had, absent ones included. */
  lemma StoreEntry<R>(rs: Registry<R>, year: int, member: int, name: string, result: R,
                      y: int, m: int, n: string)
    ensures Entry(Store(rs, year, member, name, result), y, m, n) ==
      if (y, m, n) == (year, member, name) then Some(result) else Entry(rs, y, m, n)
  {
  }

  /** No year and no member level is ever empty: levels are only created on
      the way to storing a result. */
  ghost predicate NoEmptyLevels<R>(rs: Registry<R>)
  {
    forall y :: y in rs ==> |rs[y]| > 0 && forall m :: m in rs[y] ==> |rs[y][m]| > 0
  }

  lemma StoreKeepsLevels<R>(rs: Registry<R>, year: int, member: int, name: string, result: R)
    requires NoEmptyLevels(rs)
    ensures NoEmptyLevels(Store(rs, year, member, name, result))
  {
    var r := Store(rs, year, member, name, result);
    var members := if year in rs then rs[year] else map[];
    var names := if member in members then members[member] else map[];
    assert r == rs[year := members[member := names[name := result]]];
    forall y | y in r ensures |r[y]| > 0 && forall m :: m in r[y] ==> |r[y][m]| > 0 {
      if y == year {
        assert member in r[y];
        forall m | m in r[y] ensures |r[y][m]| > 0 {
          if m == member {
            assert name in r[y][m];
          } else {
            assert r[y][m] == rs[y][m];
          }
        }
      } else {
        assert r[y] == rs[y];
      }
    }
  }

  /** `load` re-adding the (name, result) pairs of a results file in order
      through `add_result`, stopping at the first name already present. */
  function LoadRun<R>(rs: Registry<R>, year: int, member: int, items: seq<(string, R)>)
    : (r: (Registry<R>, Outcome))
    ensures r.1 == Done || r.1.Duplicate?
    decreases items
  {
    if items == [] then (rs, Done)
    else if Entry(rs, year, member, items[0].0).Some? then (rs, Duplicate(items[0].0))
    else LoadRun(Store(rs, year, member, items[0].0, items[0].1), year, member, items[1..])
  }

  /** A load succeeds exactly when its names are pairwise distinct and none
      is already stored under (year, member). */
  lemma {:induction false} LoadRunDone<R>(rs: Registry<R>, year: int, member: int, items: seq<(string, R)>)
    ensures LoadRun(rs, year, member, items).1 == Done <==>
      && (forall i, j :: 0 <= i < j < |items| ==> items[i].0 != items[j].0)
      && (forall i :: 0 <= i < |items| ==> Entry(rs, year, member, items[i].0).None?)
    decreases items
  {
    if items != [] && Entry(rs, year, member, items[0].0).None? {
      var (n, v) := items[0];
      var next := Store(rs, year, member, n, v);
      LoadRunDone(next, year, member, items[1..]);
      forall k | 0 <= k < |items[1..]|
        ensures Entry(next, year, member, items[1..][k].0) ==
          if items[1..][k].0 == n then Some(v) else Entry(rs, year, member, items[1..][k].0)
      {
        StoreEntry(rs, year, member, n, v, year, member, items[1..][k].0);
      }
      assert forall i :: 1 <= i < |items| ==> items[i] == items[1..][i - 1];
    }
  }

  /** After a successful load, every loaded name holds its result and every
      entry that was stored before is still there. */
  lemma {:induction false} LoadRunStores<R>(rs: Registry<R>, year: int, member: int, items: seq<(string, R)>,
                                           y: int, m: int, n: string)
    requires LoadRun(rs, year, member, items).1 == Done
    ensures Entry(rs, y, m, n).Some? ==> Entry(LoadRun(rs, year, member, items).0, y, m, n) == Entry(rs, y, m, n)
    ensures (y, m) == (year, member) && (exists i :: 0 <= i < |items| && items[i].0 == n) ==>
      Entry(LoadRun(rs, year, member, items).0, y, m, n).Some?
    decreases items
  {
    if items != [] {
      var next := Store(rs, year, member, items[0].0, items[0].1);
      StoreEntry(rs, year, member, items[0].0, items[0].1, y, m, n);
      LoadRunStores(next, year, member, items[1..], y, m, n);
      if (y, m) == (year, member) && n != items[0].0 && (exists i :: 0 <= i < |items| && items[i].0 == n) {
        var i :| 0 <= i < |items| && items[i].0 == n;
        assert items[1..][i - 1].0 == n;
      }
    }
  }

  /** Loading the same non-empty results file twice raises on its first name,
      and the second load changes nothing. */
  lemma LoadTwiceRaises<R>(rs: Registry<R>, year: int, member: int, items: seq<(string, R)>)
    requires items != [] && LoadRun(rs, year, member, items).1 == Done
    ensures var once := LoadRun(rs, year, member, items).0;
      LoadRun(once, year, member, items) == (once, Duplicate(items[0].0))
  {
    LoadRunStores(rs, year, member, items, year, member, items[0].0);
  }

  /** `os.path.basename(path)`: the part after the last '/'. */
  function Basename(path: string): (r: string)
    ensures '/' !in r
  {
    var parts := Split(path, '/');
    parts[|parts| - 1]
  }

  /** `os.path.join(dirname, name)` for a directory not ending in '/'. */
  function PathJoin(dirname: string, name: string): string
  {
    dirname + "/" + name
  }

  /** A split at a separator splits each side apart. */
  lemma {:induction false} SplitAppend(a: string, sep: char, b: string)
    ensures Split(a + [sep] + b, sep) == Split(a, sep) + Split(b, sep)
  {
    var s := a + [sep] + b;
    if a == [] {
      assert s[1..] == b;
    } else {
      assert s[1..] == a[1..] + [sep] + b;
      SplitAppend(a[1..], sep, b);
    }
  }

  /** The base name of a file joined to a directory is the file's name. */
  lemma BasenameJoin(dirname: string, name: string)
    requires '/' !in name
    ensures Basename(PathJoin(dirname, name)) == name
  {
    SplitAppend(dirname, '/', name);
    SplitNoSep(name, '/');
  }

  /** `RESULTS_TPL`, whose `{0}` is replaced by the member. */
  const ResultsPrefix := "results_em_"
  const ResultsSuffix := ".pkl"

  /** `RESULTS_TPL.format(m)`. */
  function ResultsFileName(m: string): (r: string)
    ensures |r| == |m| + 15 && r[11..|r| - 4] == m
  {
    ResultsPrefix + m + ResultsSuffix
  }

  /** The name `list_ensemble_members` lists for a file path: the base name up
      to its first '.', without the first '_'-separated piece. */
  function MemberName(path: string): (r: string)
    ensures '.' !in r
  {
    var stem := Split(Basename(path), '.')[0];
    var pieces := Split(stem, '_');
    assert forall i :: 0 <= i < |pieces[1..]| ==> '.' !in pieces[1..][i] by {
      forall i | 0 <= i < |pieces[1..]| ensures '.' !in pieces[1..][i] {
        PieceOfPiece(stem, '.', '_', i + 1);
      }
    }
    JoinWithout(pieces[1..], '_', '.');
    Join(pieces[1..], '_')
  }

  /** A piece of a string that lacks a character lacks it too. */
  lemma {:induction false} PieceOfPiece(s: string, c: char, sep: char, i: nat)
    requires c !in s && i < |Split(s, sep)|
    ensures c !in Split(s, sep)[i]
  {
    if s != [] {
      assert c !in s[1..];
      var rest := Split(s[1..], sep);
      if s[0] == sep {
        if i > 0 {
          PieceOfPiece(s[1..], c, sep, i - 1);
        }
      } else if i == 0 {
        PieceOfPiece(s[1..], c, sep, 0);
      } else {
        PieceOfPiece(s[1..], c, sep, i);
      }
    }
  }

  /** Joining pieces that lack a character, with another separator, gives a
      string without it. */
  lemma {:induction false} JoinWithout(ps: seq<string>, sep: char, c: char)
    requires c != sep && forall i :: 0 <= i < |ps| ==> c !in ps[i]
    ensures c !in Join(ps, sep)
  {
    if |ps| > 1 {
      JoinWithout(ps[1..], sep, c);
    }
  }

  /** Parsing the file name the template gives for m yields "em_" + m, not
      m: the split on '_' drops only "results". */
  lemma ParseResultsFileName(dirname: string, m: string)
    requires '.' !in m && '/' !in m
    ensures MemberName(PathJoin(dirname, ResultsFileName(m))) == "em_" + m
  {
    var fn := ResultsFileName(m);
    assert '/' !in fn by {
      assert fn == "results_em_" + m + ".pkl";
    }
    BasenameJoin(dirname, fn);
    var stem := "results_em_" + m;
    assert fn == stem + ['.'] + "pkl";
    SplitCons(stem, '.', "pkl");
    assert stem == "results" + ['_'] + ("em_" + m);
    SplitCons("results", '_', "em_" + m);
    JoinSplit("em_" + m, '_');
  }

  /** The file `save` writes for member number m is listed as "em_" and the
      decimal digits of m. */
  lemma ParseSavedMember(dirname: string, m: int)
    ensures MemberName(PathJoin(dirname, ResultsFileName(Decimal(m)))) == "em_" + Decimal(m)
  {
    var d := Decimal(m);
    assert '/' !in d by {
      if m < 0 {
        assert d == "-" + NatDigits(-m);
        var ds := NatDigits(-m);
        assert forall i :: 0 <= i < |ds| ==> ds[i] != '/';
      } else {
        var ds := NatDigits(m);
        assert forall i :: 0 <= i < |ds| ==> ds[i] != '/';
      }
    }
    ParseResultsFileName(dirname, d);
  }

  /** The listed name of each path, in order. */
  function MemberNames(paths: seq<string>): (r: seq<string>)
    ensures |r| == |paths| && forall i :: 0 <= i < |paths| ==> r[i] == MemberName(paths[i])
  {
    if paths == [] then [] else [MemberName(paths[0])] + MemberNames(paths[1..])
  }

  /** The base name of each path, in order. */
  function Basenames(paths: seq<string>): (r: seq<string>)
    ensures |r| == |paths| && forall i :: 0 <= i < |paths| ==> r[i] == Basename(paths[i])
  {
    if paths == [] then [] else [Basename(paths[0])] + Basenames(paths[1..])
  }

  /** `list_ensemble_members(year)` over the paths the glob for
      `results_em_*.pkl` in the year's directory returned: the parsed names,
      sorted. */
  method ListEnsembleMembers(paths: seq<string>) returns (names: seq<string>)
    ensures Sorted(names) && multiset(names) == multiset(MemberNames(paths))
  {
    var found: seq<string> := [];
    var i := 0;
    while i < |paths|
      invariant 0 <= i <= |paths| && found == MemberNames(paths[..i])
    {
      assert paths[..i + 1] == paths[..i] + [paths[i]];
      MemberNamesAppend(paths[..i], paths[i]);
      found := found + [MemberName(paths[i])];
      i := i + 1;
    }
    assert paths[..i] == paths;
    names := SortStrings(found);
    SortStringsCorrect(found);
  }

  /** `list_years()` over the paths the glob of the output directory
      returned: their base names, sorted. */
  method ListYears(paths: seq<string>) returns (years: seq<string>)
    ensures Sorted(years) && multiset(years) == multiset(Basenames(paths))
  {
    var found: seq<string> := [];
    var i := 0;
    while i < |paths|
      invariant 0 <= i <= |paths| && found == Basenames(paths[..i])
    {
      assert paths[..i + 1] == paths[..i] + [paths[i]];
      BasenamesAppend(paths[..i], paths[i]);
      found := found + [Basename(paths[i])];
      i := i + 1;
    }
    assert paths[..i] == paths;
    years := SortStrings(found);
    SortStringsCorrect(found);
  }

  lemma MemberNamesAppend(ps: seq<string>, p: string)
    ensures MemberNames(ps + [p]) == MemberNames(ps) + [MemberName(p)]
  {
  }

  lemma BasenamesAppend(ps: seq<string>, p: string)
    ensures Basenames(ps + [p]) == Basenames(ps) + [Basename(p)]
  {
  }

  /** The members of a year's directory are listed as "em_<m>", in sorted
      order, whatever order the files are found in. */
  lemma ListedSavedMembers(dirname: string, ms: seq<string>, names: seq<string>)
    requires forall i :: 0 <= i < |ms| ==> '.' !in ms[i] && '/' !in ms[i]
    requires Sorted(names)
    requires multiset(names) == multiset(MemberNames(seq(|ms|, i requires 0 <= i < |ms| => PathJoin(dirname, ResultsFileName(ms[i])))))
    ensures names == SortStrings(seq(|ms|, i requires 0 <= i < |ms| => "em_" + ms[i]))
  {
    var paths := seq(|ms|, i requires 0 <= i < |ms| => PathJoin(dirname, ResultsFileName(ms[i])));
    var listed := seq(|ms|, i requires 0 <= i < |ms| => "em_" + ms[i]);
    forall i | 0 <= i < |ms| ensures MemberNames(paths)[i] == listed[i] {
      ParseResultsFileName(dirname, ms[i]);
    }
    assert MemberNames(paths) == listed;
    SortStringsCorrect(listed);
    SortedUnique(names, SortStrings(listed));
  }

  lemma UpdateTwice<K, V>(m: map<K, V>, k: K, a: V, b: V)
    ensures m[k := a][k := b] == m[k := b]
  {
  }

  /** The manager: one nested dictionary of results. */
  class ResultsManager<R> {
    var results: Registry<R>

    /** Every year and member level holds at least one result. */
    ghost predicate Valid()
      reads this
    {
      NoEmptyLevels(results)
    }

    /** The manager starts with no results. */
    constructor ()
      ensures results == map[] && Valid()
    {
      results := map[];
    }

    /** `add_result(year, member, name, result)`: raises when name is already
        stored under (year, member), leaving everything as it was; otherwise
        stores the result, creating the levels it needs. */
    method AddResult(year: int, member: int, name: string, result: R) returns (o: Outcome)
      requires Valid()
      modifies this
      ensures Valid()
      ensures Entry(old(results), year, member, name).Some? ==> o == Duplicate(name) && results == old(results)
      ensures Entry(old(results), year, member, name).None? ==>
        o == Done && results == Store(old(results), year, member, name, result)
    {
      ghost var before := results;
      if year !in results {
        results := results[year := map[]];
      }
      if member !in results[year] {
        results := results[year := results[year][member := map[]]];
      }
      if name in results[year][member] {
        assert year in before && member in before[year] && results == before;
        return Duplicate(name);
      }
      ghost var members := if year in before then before[year] else map[];
      ghost var names := if member in members then members[member] else map[];
      assert results[year][member] == names;
      assert results[year] == members[member := names];
      assert results == before[year := members[member := names]];
      UpdateTwice(members, member, names, names[name := result]);
      UpdateTwice(before, year, members[member := names], members[member := names[name := result]]);
      results := results[year := results[year][member := results[year][member][name := result]]];
      assert Entry(before, year, member, name).None?;
      StoreKeepsLevels(before, year, member, name, result);
      o := Done;
    }

    /** `get_result(year, member)`: the names and results stored under
        (year, member), or nothing when there are none. */
    function GetResult(year: int, member: int): (r: Option<map<string, R>>)
      reads this
      ensures r.None? <==> !(year in results && member in results[year])
      ensures r.Some? ==> forall n :: (n in r.value <==> Entry(results, year, member, n).Some?)
      ensures r.Some? ==> forall n :: n in r.value ==> Entry(results, year, member, n) == Some(r.value[n])
      ensures Valid() && r.Some? ==> |r.value| > 0
    {
      if year in results && member in results[year] then Some(results[year][member]) else None
    }

    /** `load(year, member)` given what reading the results file gave: an
        unreadable file raises; otherwise each (name, result) is added in
        turn, and a name already present raises. */
    method Load(year: int, member: int, file: Option<seq<(string, R)>>) returns (o: Outcome)
      requires Valid()
      modifies this
      ensures Valid()
      ensures file.None? ==> o == Unreadable && results == old(results)
      ensures file.Some? ==> (results, o) == LoadRun(old(results), year, member, file.value)
    {
      if file.None? {
        return Unreadable;
      }
      var items := file.value;
      var i := 0;
      while i < |items|
        invariant 0 <= i <= |items| && Valid()
        invariant LoadRun(results, year, member, items[i..]) == LoadRun(old(results), year, member, items)
      {
        assert items[i..][0] == items[i] && items[i..][1..] == items[i + 1..];
        var (name, result) := items[i];
        o := AddResult(year, member, name, result);
        if o.Duplicate? {
          return;
        }
        i := i + 1;
      }
      assert items[i..] == [];
      o := Done;
    }
  }
}
