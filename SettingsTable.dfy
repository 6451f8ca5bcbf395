/**
 * The application's settings table: a list of [key, value] rows searched
 * linearly. `find` accepts a match in either position of a row, so a value
 * that equals the element looked for selects its row just as a key does.
 */
module SettingsTable {
  import opened Wrappers

  /** A value as the table stores it; YAML or Python literals of these four kinds. */
  datatype Value = Str(s: string) | Num(x: real) | Bool(b: bool) | Null

  /** The number a value stands for under Python's ==, where True == 1 and False == 0. */
  function Numeric(v: Value): Option<real> {
    match v
    case Num(x) => Some(x)
    case Bool(b) => Some(if b then 1.0 else 0.0)
    case _ => None
  }

  /** Python's == on table values: strings by content, numbers and booleans by numeric value, None only with None. */
  predicate PyEq(a: Value, b: Value) {
    if a.Str? || b.Str? then a == b
    else if a.Null? || b.Null? then a.Null? && b.Null?
    else Numeric(a) == Numeric(b)
  }

  /** Python's == on table values is symmetric. */
  lemma PyEqSymmetric(a: Value, b: Value)
    ensures PyEq(a, b) <==> PyEq(b, a)
  {
  }

  /** One [key, value] row of the table. */
  datatype Row = Row(key: Value, val: Value)

  predicate Contains(row: Row, elem: Value) {
    PyEq(row.key, elem) || PyEq(row.val, elem)
  }

  /** `row.index(elem)`: the first position of the row holding elem. */
  function Column(row: Row, elem: Value): (c: Option<nat>)
    ensures c.Some? <==> Contains(row, elem)
    ensures c == Some(0) <==> PyEq(row.key, elem)
    ensures c == Some(1) <==> !PyEq(row.key, elem) && PyEq(row.val, elem)
  {
    if PyEq(row.key, elem) then Some(0)
    else if PyEq(row.val, elem) then Some(1)
    else None
  }

  /**
   * What `find` returns: Some((row, column)) for the first row that holds
   * elem in either position, None (the source's -1) when no row does.
   */
  function Locate(l: seq<Row>, elem: Value): (r: Option<(nat, nat)>)
    ensures r.None? <==> forall k :: 0 <= k < |l| ==> !Contains(l[k], elem)
    ensures r.Some? ==> r.value.0 < |l| && Column(l[r.value.0], elem) == Some(r.value.1)
    ensures r.Some? ==> forall k :: 0 <= k < r.value.0 ==> !Contains(l[k], elem)
    decreases |l|
  {
    if |l| == 0 then None
    else if Contains(l[0], elem) then Some((0, Column(l[0], elem).value))
    else match Locate(l[1..], elem)
      case None => None
      case Some(hit) => Some((hit.0 + 1, hit.1))
  }

  /** A row that holds elem with no earlier row holding it is the row Locate reports. */
  lemma LocateAt(l: seq<Row>, elem: Value, i: nat)
    requires i < |l| && Contains(l[i], elem)
    requires forall k :: 0 <= k < i ==> !Contains(l[k], elem)
    ensures Locate(l, elem) == Some((i, Column(l[i], elem).value))
  {
    assert Locate(l, elem).Some?;
  }

  /** The table after `set(key, val)`: column 1 of the row `find` selects becomes val. */
  function Assign(cfg: seq<Row>, key: Value, val: Value): seq<Row> {
    match Locate(cfg, key)
    case None => cfg
    case Some(hit) => cfg[hit.0 := Row(cfg[hit.0].key, val)]
  }

  /** What `get(key)` returns: column 1 of the row `find` selects, or TypeError when it returns -1. */
  function Lookup(cfg: seq<Row>, key: Value): Result<Value> {
    match Locate(cfg, key)
    case None => Failure(TypeError)
    case Some(hit) => Success(cfg[hit.0].val)
  }

  /**
   * `set` keeps the row count and every key, touches no other row, and
   * stores val in the selected row; on a miss nothing changes.
   */
  lemma AssignFrame(cfg: seq<Row>, key: Value, val: Value)
    ensures |Assign(cfg, key, val)| == |cfg|
    ensures forall k :: 0 <= k < |cfg| ==> Assign(cfg, key, val)[k].key == cfg[k].key
    ensures Locate(cfg, key).None? ==> Assign(cfg, key, val) == cfg
    ensures Locate(cfg, key).Some? ==>
      var i := Locate(cfg, key).value.0;
      Assign(cfg, key, val)[i].val == val
      && forall k :: 0 <= k < |cfg| && k != i ==> Assign(cfg, key, val)[k] == cfg[k]
  {
  }

  /**
   * `get(key)` after `set(key, val)` returns val when `find` selected the
   * row by its key, or when val itself equals key; a miss stays a
   * TypeError.
   */
  lemma LookupAfterAssign(cfg: seq<Row>, key: Value, val: Value)
    ensures Locate(cfg, key).None? ==> Lookup(Assign(cfg, key, val), key) == Failure(TypeError)
    ensures Locate(cfg, key).Some? && (Locate(cfg, key).value.1 == 0 || PyEq(val, key)) ==>
      Lookup(Assign(cfg, key, val), key) == Success(val)
  {
    match Locate(cfg, key)
    case None =>
    case Some(hit) =>
      var cfg' := Assign(cfg, key, val);
      var i := hit.0;
      if hit.1 == 0 || PyEq(val, key) {
        assert Contains(cfg'[i], key);
        assert forall k :: 0 <= k < i ==> cfg'[k] == cfg[k];
        LocateAt(cfg', key, i);
      }
  }

  /**
   * `set` by an element that only occurs as an earlier row's value: setting
   * "b" to 2 in [["a", "b"], ["b", 1]] overwrites the value of "a", and
   * `get("b")` then returns 1.
   */
  lemma SetMatchesValues()
    ensures var cfg := [Row(Str("a"), Str("b")), Row(Str("b"), Num(1.0))];
      Locate(cfg, Str("b")) == Some((0, 1))
      && Assign(cfg, Str("b"), Num(2.0)) == [Row(Str("a"), Num(2.0)), Row(Str("b"), Num(1.0))]
      && Lookup(Assign(cfg, Str("b"), Num(2.0)), Str("b")) == Success(Num(1.0))
  {
    var cfg := [Row(Str("a"), Str("b")), Row(Str("b"), Num(1.0))];
    LocateAt(cfg, Str("b"), 0);
    var cfg' := [Row(Str("a"), Num(2.0)), Row(Str("b"), Num(1.0))];
    assert Str("a") != Str("b");
    LocateAt(cfg', Str("b"), 1);
  }

  // ---------------------------------------------------------------------
  // Tables whose rows are found by their keys
  // ---------------------------------------------------------------------

  /** Every key is a string, no two keys are equal and no value equals a key. */
  predicate WellKeyed(cfg: seq<Row>) {
    (forall i :: 0 <= i < |cfg| ==> cfg[i].key.Str?)
    && (forall i, j :: 0 <= i < j < |cfg| ==> cfg[i].key != cfg[j].key)
    && (forall i, j :: 0 <= i < |cfg| && 0 <= j < |cfg| ==> !PyEq(cfg[i].val, cfg[j].key))
  }

  /** In a well-keyed table `find` reports each key at its own row, column 0. */
  lemma KeyedLocate(cfg: seq<Row>, i: nat)
    requires WellKeyed(cfg) && i < |cfg|
    ensures Locate(cfg, cfg[i].key) == Some((i, 0))
  {
    forall k | 0 <= k < i
      ensures !Contains(cfg[k], cfg[i].key)
    {
      assert cfg[k].key != cfg[i].key;
      assert !PyEq(cfg[k].val, cfg[i].key);
    }
    LocateAt(cfg, cfg[i].key, i);
  }

  /** Setting a key of a well-keyed table to a value that is no key keeps the table well-keyed. */
  lemma AssignKeepsWellKeyed(cfg: seq<Row>, key: Value, val: Value)
    requires WellKeyed(cfg)
    requires forall j :: 0 <= j < |cfg| ==> !PyEq(val, cfg[j].key)
    ensures WellKeyed(Assign(cfg, key, val))
  {
    AssignFrame(cfg, key, val);
  }

  // ---------------------------------------------------------------------
  // The merge step of loadSettings
  // ---------------------------------------------------------------------

  /** The table after the load merge: `set` for each loaded row whose key `find` locates, in list order. */
  function Merged(cfg: seq<Row>, loaded: seq<Row>): seq<Row>
    decreases |loaded|
  {
    if |loaded| == 0 then cfg
    else
      var prior := Merged(cfg, loaded[..|loaded| - 1]);
      var e := loaded[|loaded| - 1];
      if Locate(prior, e.key).None? then prior else Assign(prior, e.key, e.val)
  }

  /** The merge never adds, removes or renames a row. */
  lemma {:induction false} MergedFrame(cfg: seq<Row>, loaded: seq<Row>)
    ensures |Merged(cfg, loaded)| == |cfg|
    ensures forall k :: 0 <= k < |cfg| ==> Merged(cfg, loaded)[k].key == cfg[k].key
    decreases |loaded|
  {
    if |loaded| > 0 {
      var prior := Merged(cfg, loaded[..|loaded| - 1]);
      MergedFrame(cfg, loaded[..|loaded| - 1]);
      AssignFrame(prior, loaded[|loaded| - 1].key, loaded[|loaded| - 1].val);
    }
  }

  /** The value of the last loaded row whose key is k, or dflt when there is none. */
  function LastLoaded(loaded: seq<Row>, k: Value, dflt: Value): Value
    decreases |loaded|
  {
    if |loaded| == 0 then dflt
    else if loaded[|loaded| - 1].key == k then loaded[|loaded| - 1].val
    else LastLoaded(loaded[..|loaded| - 1], k, dflt)
  }

  /**
   * A well-keyed table and a loaded list in which no value, old or loaded,
   * equals a loaded key: then `find` can only hit rows by their keys.
   */
  predicate MergeClean(cfg: seq<Row>, loaded: seq<Row>) {
    WellKeyed(cfg)
    && (forall i, e :: 0 <= i < |cfg| && 0 <= e < |loaded| ==> !PyEq(cfg[i].val, loaded[e].key))
    && (forall d, e :: 0 <= d < |loaded| && 0 <= e < |loaded| ==> !PyEq(loaded[d].val, loaded[e].key))
  }

  /**
   * On a clean merge every row ends with the value of the last loaded row
   * carrying its key, later duplicates overriding earlier ones, and keeps
   * its old value when no loaded row carries its key; loaded rows with
   * unknown keys change nothing.
   */
  lemma {:induction false} MergedLastWins(cfg: seq<Row>, loaded: seq<Row>)
    requires MergeClean(cfg, loaded)
    ensures |Merged(cfg, loaded)| == |cfg|
    ensures forall i :: 0 <= i < |cfg| ==>
      Merged(cfg, loaded)[i] == Row(cfg[i].key, LastLoaded(loaded, cfg[i].key, cfg[i].val))
    decreases |loaded|
  {
    if |loaded| > 0 {
      var n := |loaded| - 1;
      var front, e := loaded[..n], loaded[n];
      assert MergeClean(cfg, front) by {
        assert forall d :: 0 <= d < n ==> front[d] == loaded[d];
      }
      MergedLastWins(cfg, front);
      var prior := Merged(cfg, front);
      assert forall k :: 0 <= k < |cfg| ==> (Contains(prior[k], e.key) <==> cfg[k].key == e.key) by {
        forall k | 0 <= k < |cfg|
          ensures Contains(prior[k], e.key) <==> cfg[k].key == e.key
        {
          LastLoadedFrom(front, cfg[k].key, cfg[k].val);
          assert !PyEq(prior[k].val, e.key);
        }
      }
      if exists i :: 0 <= i < |cfg| && cfg[i].key == e.key {
        var i :| 0 <= i < |cfg| && cfg[i].key == e.key;
        LocateAt(prior, e.key, i);
        AssignFrame(prior, e.key, e.val);
      }
    }
  }

  /** LastLoaded returns either the default or the value of some loaded row. */
  lemma {:induction false} LastLoadedFrom(loaded: seq<Row>, k: Value, dflt: Value)
    ensures LastLoaded(loaded, k, dflt) == dflt
         || exists d :: 0 <= d < |loaded| && LastLoaded(loaded, k, dflt) == loaded[d].val
    decreases |loaded|
  {
    if |loaded| > 0 && loaded[|loaded| - 1].key != k {
      var front := loaded[..|loaded| - 1];
      LastLoadedFrom(front, k, dflt);
      if LastLoaded(front, k, dflt) != dflt {
        var d :| 0 <= d < |front| && LastLoaded(front, k, dflt) == front[d].val;
        assert front[d] == loaded[d];
      }
    }
  }

  /**
   * The merge as written follows `find` into values as well: loading
   * ["kato", 5] into [["Crystal Refractive Index X", "kato"]], whose key
   * "kato" is unknown, overwrites the refractive-index setting.
   */
  lemma MergeFollowsValues()
    ensures Merged([Row(Str("Crystal Refractive Index X"), Str("kato"))], [Row(Str("kato"), Num(5.0))])
         == [Row(Str("Crystal Refractive Index X"), Num(5.0))]
  {
    var cfg := [Row(Str("Crystal Refractive Index X"), Str("kato"))];
    var loaded := [Row(Str("kato"), Num(5.0))];
    assert loaded[..0] == [];
    LocateAt(cfg, Str("kato"), 0);
  }

  // ---------------------------------------------------------------------
  // The standard table
  // ---------------------------------------------------------------------

  /** The 41 rows standardSettings appends, in order. */
  const StandardTable: seq<Row> := [
    Row(Str("Crystal Material"), Str("PPKTP")),
    Row(Str("Crystal Poling Period From"), Num(46.0e-6)),
    Row(Str("Crystal Poling Period Single"), Num(46.25e-6)),
    Row(Str("Crystal Poling Period To"), Num(46.5e-6)),
    Row(Str("Crystal Refractive Index X"), Str("kato")),
    Row(Str("Crystal Refractive Index Y"), Str("kato")),
    Row(Str("Crystal Refractive Index Z"), Str("kato")),
    Row(Str("QPM Order"), Num(-1.0)),
    Row(Str("Pump wavelength from"), Num(760.0e-9)),
    Row(Str("Pump wavelength single"), Num(775.0e-9)),
    Row(Str("Pump wavelength to"), Num(790.0e-9)),
    Row(Str("SI wavelength from"), Num(1500.0e-9)),
    Row(Str("SI wavelength single"), Num(1550.0e-9)),
    Row(Str("SI wavelength to"), Num(1600.0e-9)),
    Row(Str("Pump pulsewidth from"), Num(1.0e-12)),
    Row(Str("Pump pulsewidth single"), Num(2.9e-12)),
    Row(Str("Pump pulsewidth to"), Num(5.0e-12)),
    Row(Str("Pump pulse shape"), Str("Sech^2")),
    Row(Str("Pump pulsewidth apply deconvolution factor"), Bool(true)),
    Row(Str("Crystal Temperature from"), Num(20.0)),
    Row(Str("Crystal Temperature single"), Num(35.0)),
    Row(Str("Crystal Temperature to"), Num(50.0)),
    Row(Str("Crystal Length from"), Num(20.0e-3)),
    Row(Str("Crystal Length single"), Num(30.0e-3)),
    Row(Str("Crystal Length to"), Num(40.0e-3)),
    Row(Str("JSI wavelength range"), Num(8.0e-9)),
    Row(Str("JSI resolution"), Num(50.0)),
    Row(Str("Purity wavelength resolution"), Num(50.0)),
    Row(Str("Purity wavelength range"), Num(8.0e-9)),
    Row(Str("Purity tau resolution"), Num(20.0)),
    Row(Str("SI filter Idler Type"), Str("None")),
    Row(Str("SI filter Signal Type"), Str("None")),
    Row(Str("SI filter Idler center wavelength"), Num(1550.0e-9)),
    Row(Str("SI filter Signal center wavelength"), Num(1550.0e-9)),
    Row(Str("SI filter Idler FWHM"), Num(3.0e-9)),
    Row(Str("SI filter Signal FWHM"), Num(3.0e-9)),
    Row(Str("HOM interference plot resolution"), Num(20.0)),
    Row(Str("HOM interference plot phase"), Num(0.0)),
    Row(Str("HOM interference plot range"), Num(6.0e-12)),
    Row(Str("FWHM plot resolution"), Num(10.0)),
    Row(Str("FWHM decimal precision"), Num(3.0))
  ]

  /** The string values the standard table holds; none of them is a key. */
  const StandardStrings: set<Value> := {Str("PPKTP"), Str("kato"), Str("Sech^2"), Str("None")}

  /**
   * The standard table has 41 rows and is well-keyed: its keys are
   * pairwise-distinct strings and no value equals a key.
   */
  lemma StandardWellKeyed()
    ensures |StandardTable| == 41
    ensures WellKeyed(StandardTable)
  {
    StandardKeysAreStrings();
    StandardStringValues();
    KeysFresh0To3();
    KeysFresh3To6();
    KeysFresh6To9();
    KeysFresh9To12();
    KeysFresh12To15();
    KeysFresh15To19();
    KeysFresh19To23();
    KeysFresh23To28();
    KeysFresh28To41();
  }

  /** The standard table's answers to get, for two of its settings. */
  lemma StandardLookups()
    ensures Lookup(StandardTable, Str("QPM Order")) == Success(Num(-1.0))
    ensures Lookup(StandardTable, Str("Pump pulse shape")) == Success(Str("Sech^2"))
  {
    var qpm, shape := StandardTable[7], StandardTable[17];
    assert qpm == Row(Str("QPM Order"), Num(-1.0));
    assert shape == Row(Str("Pump pulse shape"), Str("Sech^2"));
    StandardLocate(7);
    StandardLocate(17);
  }

  /** In the standard table `find` reports every key at its own row, column 0. */
  lemma StandardLocate(i: nat)
    requires i < |StandardTable|
    ensures Locate(StandardTable, StandardTable[i].key) == Some((i, 0))
  {
    StandardWellKeyed();
    KeyedLocate(StandardTable, i);
  }

  lemma StandardKeysAreStrings()
    ensures forall j :: 0 <= j < |StandardTable| ==> StandardTable[j].key.Str? && StandardTable[j].key !in StandardStrings
  {
  }

  lemma StandardStringValues()
    ensures forall i :: 0 <= i < |StandardTable| && StandardTable[i].val.Str? ==> StandardTable[i].val in StandardStrings
  {
  }

  lemma KeysFresh0To3()
    ensures forall i, j :: 0 <= i < 3 && i < j < |StandardTable| ==> StandardTable[i].key != StandardTable[j].key
  {
  }

  lemma KeysFresh3To6()
    ensures forall i, j :: 3 <= i < 6 && i < j < |StandardTable| ==> StandardTable[i].key != StandardTable[j].key
  {
  }

  lemma KeysFresh6To9()
    ensures forall i, j :: 6 <= i < 9 && i < j < |StandardTable| ==> StandardTable[i].key != StandardTable[j].key
  {
  }

  lemma KeysFresh9To12()
    ensures forall i, j :: 9 <= i < 12 && i < j < |StandardTable| ==> StandardTable[i].key != StandardTable[j].key
  {
  }

  lemma KeysFresh12To15()
    ensures forall i, j :: 12 <= i < 15 && i < j < |StandardTable| ==> StandardTable[i].key != StandardTable[j].key
  {
  }

  lemma KeysFresh15To19()
    ensures forall i, j :: 15 <= i < 19 && i < j < |StandardTable| ==> StandardTable[i].key != StandardTable[j].key
  {
  }

  lemma KeysFresh19To23()
    ensures forall i, j :: 19 <= i < 23 && i < j < |StandardTable| ==> StandardTable[i].key != StandardTable[j].key
  {
  }

  lemma KeysFresh23To28()
    ensures forall i, j :: 23 <= i < 28 && i < j < |StandardTable| ==> StandardTable[i].key != StandardTable[j].key
  {
  }

  lemma KeysFresh28To41()
    ensures forall i, j :: 28 <= i < 41 && i < j < |StandardTable| ==> StandardTable[i].key != StandardTable[j].key
  {
  }

  // ---------------------------------------------------------------------
  // The Settings object
  // ---------------------------------------------------------------------

  /** The settings object: `config` is the list of rows its methods search and update in place. */
  class Settings {
    var config: seq<Row>

    /** __init__ sets nothing; the model starts from an empty table. */
    constructor()
      ensures config == []
    {
      config := [];
    }

    /** standardSettings: replaces the table by the 41 standard rows. */
    method StandardSettings()
      modifies this
      ensures config == StandardTable
    {
      config := StandardTable;
    }

    /** find: the first row holding elem in either position, scanning from the top. */
    method Find(l: seq<Row>, elem: Value) returns (r: Option<(nat, nat)>)
      ensures r == Locate(l, elem)
    {
      var row := 0;
      while row < |l|
        invariant 0 <= row <= |l|
        invariant forall k :: 0 <= k < row ==> !Contains(l[k], elem)
      {
        var column := Column(l[row], elem);
        if column.Some? {
          LocateAt(l, elem, row);
          return Some((row, column.value));
        }
        row := row + 1;
      }
      return None;
    }

    /** set: stores val in column 1 of the row find selects; unpacking a miss raises TypeError. */
    method Set(key: Value, val: Value) returns (r: Result<()>)
      modifies this
      ensures Locate(old(config), key).None? ==> r == Failure(TypeError) && config == old(config)
      ensures Locate(old(config), key).Some? ==> r == Success(()) && config == Assign(old(config), key, val)
    {
      var hit := Find(config, key);
      if hit.None? {
        return Failure(TypeError);
      }
      var idx := hit.value.0;
      config := config[idx := Row(config[idx].key, val)];
      return Success(());
    }

    /** get: column 1 of the row find selects; unpacking a miss raises TypeError. */
    method Get(key: Value) returns (r: Result<Value>)
      ensures r == Lookup(config, key)
    {
      var hit := Find(config, key);
      if hit.None? {
        return Failure(TypeError);
      }
      return Success(config[hit.value.0].val);
    }

    /** The merge loop of loadSettings: set for every loaded row whose key find locates. */
    method MergeLoaded(loaded: seq<Row>)
      modifies this
      ensures config == Merged(old(config), loaded)
    {
      var i := 0;
      while i < |loaded|
        invariant 0 <= i <= |loaded|
        invariant config == Merged(old(config), loaded[..i])
      {
        var key, val := loaded[i].key, loaded[i].val;
        var res := Find(config, key);
        if res.None? {
        } else {
          var _ := Set(key, val);
        }
        assert loaded[..i + 1][..i] == loaded[..i];
        i := i + 1;
      }
      assert loaded[..|loaded|] == loaded;
    }
  }
}
