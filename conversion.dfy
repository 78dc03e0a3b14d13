/** Conversion between the columnar form of a job's resources (one column per
    attribute, as parsed from the log) and a list of resource records
    (`refactor_resources` and `refactor_to_dict`). */
module Conversion {
  import opened Numbers
  import opened Resources

  // ---------------------------------------------------------------------------
  // Keys

  function LowerChar(c: char): char {
    if 'A' <= c <= 'Z' then (c as int + 32) as char else c
  }

  /** `str.lower()` on ASCII letters. */
  function Lower(s: string): (t: string)
    ensures |t| == |s| && forall i :: 0 <= i < |s| ==> t[i] == LowerChar(s[i])
  {
    seq(|s|, i requires 0 <= i < |s| => LowerChar(s[i]))
  }

  /** A string without upper-case ASCII letters is its own lower-case form. */
  lemma LowerKeepsLowerCase(s: string)
    requires forall i :: 0 <= i < |s| ==> !('A' <= s[i] <= 'Z')
    ensures Lower(s) == s
  {
  }

  /** Lower-casing twice is lower-casing once. */
  lemma LowerIdempotent(s: string)
    ensures Lower(Lower(s)) == Lower(s)
  {
    LowerKeepsLowerCase(Lower(s));
  }

  /** The keyword arguments of the Resource constructor that a row supplies. */
  const FIELDS: set<string> := {"name", "usage", "requested", "allocated"}

  // ---------------------------------------------------------------------------
  // Columnar tables

  /** The decorated usage cell of the display table: the colour of the level
      and the usage it wraps. */
  datatype UsageCell = UsageCell(color: string, usage: Num)

  datatype Column = Texts(texts: seq<string>) | Nums(nums: seq<Num>) | Cells(cells: seq<UsageCell>)

  function Len(c: Column): nat {
    match c
    case Texts(s) => |s|
    case Nums(s) => |s|
    case Cells(s) => |s|
  }

  /** One key of a dictionary of columns and its column. */
  datatype Entry = Entry(key: string, column: Column)

  /** A dictionary of columns, in insertion order. */
  type Table = seq<Entry>

  /** A dictionary of columns whose order no longer matters. */
  type Columns = map<string, Column>

  /** `{k.lower(): v for k, v in resources.items()}`: keys that collide once
      lower-cased keep the column inserted last. */
  function Lowered(t: Table): (l: Columns)
    ensures forall i :: 0 <= i < |t| ==> Lower(t[i].key) in l
  {
    if t == [] then map[]
    else Lowered(t[..|t| - 1])[Lower(t[|t| - 1].key) := t[|t| - 1].column]
  }

  /** The lower-cased dictionary has exactly the lower-cased keys. */
  lemma {:induction false} LoweredKeys(t: Table)
    ensures forall x :: x in Lowered(t) <==> exists i :: 0 <= i < |t| && Lower(t[i].key) == x
  {
    if t != [] {
      var p := t[..|t| - 1];
      LoweredKeys(p);
      forall x | x in Lowered(t)
        ensures exists i :: 0 <= i < |t| && Lower(t[i].key) == x
      {
        if x != Lower(t[|t| - 1].key) {
          assert x in Lowered(p);
          var i :| 0 <= i < |p| && Lower(p[i].key) == x;
          assert t[i] == p[i];
        }
      }
      forall x | exists i :: 0 <= i < |t| && Lower(t[i].key) == x
        ensures x in Lowered(t)
      {
        var i :| 0 <= i < |t| && Lower(t[i].key) == x;
        if i < |p| {
          assert p[i] == t[i];
        }
      }
    }
  }

  /** Under each lower-cased key, the column of the last entry with that key. */
  lemma {:induction false} LoweredLastWins(t: Table, i: nat)
    requires i < |t| && forall j :: i < j < |t| ==> Lower(t[j].key) != Lower(t[i].key)
    ensures Lower(t[i].key) in Lowered(t) && Lowered(t)[Lower(t[i].key)] == t[i].column
  {
    var p := t[..|t| - 1];
    if i < |p| {
      assert p[i] == t[i];
      forall j | i < j < |p|
        ensures Lower(p[j].key) != Lower(p[i].key)
      {
        assert p[j] == t[j];
      }
      LoweredLastWins(p, i);
    }
  }

  /** The optional keyword argument of the Resource constructor. */
  const LEVEL_FIELD := "warning_level"

  /** The columns of a lower-cased table that become record fields carry the
      type of the field: text for the names and the levels, numbers for the
      three measurements. */
  predicate ColumnsTyped(l: Columns) {
    ("resources" in l ==> l["resources"].Texts?) &&
    ("usage" in l ==> l["usage"].Nums?) &&
    ("requested" in l ==> l["requested"].Nums?) &&
    ("allocated" in l ==> l["allocated"].Nums?) &&
    (LEVEL_FIELD in l ==> l[LEVEL_FIELD].Texts?)
  }

  predicate WellTyped(t: Table) {
    ColumnsTyped(Lowered(t))
  }

  /** The key sets the constructor accepts as keyword arguments. */
  predicate Accepted(keys: set<string>) {
    FIELDS <= keys <= FIELDS + {LEVEL_FIELD}
  }

  /** Why a table cannot be turned into records: the "resources" column is
      missing (a KeyError at the pop), or the columns do not name the
      constructor's arguments and there is at least one row (a TypeError). */
  datatype ConvError = MissingResources | UnexpectedFields(fields: set<string>)

  // ---------------------------------------------------------------------------
  // refactor_resources

  function Min(a: nat, b: nat): nat {
    if a <= b then a else b
  }

  /** The rows of the columns, as many as the shortest column has (zip). */
  function Rows(names: seq<string>, usage: seq<Num>, requested: seq<Num>, allocation: seq<Num>,
                levels: Option<seq<string>>): (rows: seq<Rec>)
    ensures |rows| <= |names| && |rows| <= |usage| && |rows| <= |requested| && |rows| <= |allocation|
    ensures levels.Some? ==> |rows| <= |levels.value|
    ensures |rows| == |names| || |rows| == |usage| || |rows| == |requested| || |rows| == |allocation| ||
            (levels.Some? && |rows| == |levels.value|)
    ensures forall i :: 0 <= i < |rows| ==>
              rows[i] == Rec(names[i], usage[i], requested[i], allocation[i],
                             if levels.Some? then Some(levels.value[i]) else None)
  {
    var n := Min(Min(Min(|names|, |usage|), Min(|requested|, |allocation|)),
                 if levels.Some? then |levels.value| else |names|);
    seq(n, i requires 0 <= i < n =>
      Rec(names[i], usage[i], requested[i], allocation[i], if levels.Some? then Some(levels.value[i]) else None))
  }

  /** The rest of refactor_resources, on the lower-cased dictionary: rename
      "resources" to "name", zip the columns into rows and pass each row to
      the constructor as keyword arguments. */
  function ToRows(l: Columns): (r: Result<seq<Rec>, ConvError>)
    requires ColumnsTyped(l)
    ensures r.Ok? && LEVEL_FIELD !in l ==> forall i :: 0 <= i < |r.value| ==> r.value[i].warningLevel == None
  {
    if "resources" !in l then
      Err(MissingResources)
    else
      var renamed := (l - {"resources"})["name" := l["resources"]];
      if !Accepted(renamed.Keys) then
        if forall k | k in renamed :: Len(renamed[k]) > 0 then Err(UnexpectedFields(renamed.Keys))
        else Ok([])
      else
        Ok(Rows(renamed["name"].texts, renamed["usage"].nums, renamed["requested"].nums, renamed["allocated"].nums,
                if LEVEL_FIELD in renamed then Some(renamed[LEVEL_FIELD].texts) else None))
  }

  /** `refactor_resources`: one record per row of the columns, the name taken
      from the column keyed "resources" and each field from the column keyed
      by its name, in any letter case. */
  function RefactorResources(t: Table): (r: Result<seq<Rec>, ConvError>)
    requires WellTyped(t)
    ensures r == Err(MissingResources) <==> forall i :: 0 <= i < |t| ==> Lower(t[i].key) != "resources"
    ensures r.Ok? && (forall i :: 0 <= i < |t| ==> Lower(t[i].key) != LEVEL_FIELD) ==>
              forall i :: 0 <= i < |r.value| ==> r.value[i].warningLevel == None
  {
    LoweredKeys(t);
    ToRowsErrors(Lowered(t));
    ToRows(Lowered(t))
  }

  /** The key set once "resources" is renamed to "name". */
  function RenamedKeys(l: Columns): set<string> {
    l.Keys - {"resources"} + {"name"}
  }

  /** The error cases: a missing "resources" column, and then keys the
      constructor does not accept with at least one row; unaccepted keys with
      an empty column give no rows and no error. */
  lemma ToRowsErrors(l: Columns)
    requires ColumnsTyped(l)
    ensures ToRows(l) == Err(MissingResources) <==> "resources" !in l
    ensures ToRows(l).Err? && ToRows(l).error.UnexpectedFields? <==>
              "resources" in l && !Accepted(RenamedKeys(l)) && forall k :: k in l && k != "name" ==> Len(l[k]) > 0
    ensures ToRows(l).Ok? && !Accepted(RenamedKeys(l)) ==> ToRows(l).value == []
  {
    if "resources" in l {
      var renamed := (l - {"resources"})["name" := l["resources"]];
      assert renamed.Keys == RenamedKeys(l);
      if forall k :: k in l && k != "name" ==> Len(l[k]) > 0 {
        forall k | k in renamed
          ensures Len(renamed[k]) > 0
        {
          if k == "name" {
            assert renamed[k] == l["resources"];
          } else {
            assert renamed[k] == l[k];
          }
        }
      } else {
        var k :| k in l && k != "name" && Len(l[k]) == 0;
        assert renamed[if k == "resources" then "name" else k] == l[k];
      }
    }
  }

  /** With accepted keys, row i takes its name from column "resources", each
      measurement from the column of its name and the level, when there is a
      level column, from that column; there are as many rows as the shortest
      of these columns has entries. */
  lemma ToRowsRows(l: Columns)
    requires ColumnsTyped(l) && "resources" in l && Accepted(RenamedKeys(l))
    ensures ToRows(l).Ok?
    ensures var rows := ToRows(l).value;
            forall i :: 0 <= i < |rows| ==>
              i < |l["resources"].texts| && rows[i].name == l["resources"].texts[i] &&
              i < |l["usage"].nums| && rows[i].usage == l["usage"].nums[i] &&
              i < |l["requested"].nums| && rows[i].requested == l["requested"].nums[i] &&
              i < |l["allocated"].nums| && rows[i].allocation == l["allocated"].nums[i] &&
              rows[i].warningLevel == (if LEVEL_FIELD in l then Some(l[LEVEL_FIELD].texts[i]) else None)
    ensures forall k :: k in l && k != "name" ==> |ToRows(l).value| <= Len(l[k])
    ensures exists k :: k in l && k != "name" && |ToRows(l).value| == Len(l[k])
  {
    var renamed := (l - {"resources"})["name" := l["resources"]];
    assert renamed.Keys == RenamedKeys(l);
    assert "usage" in l && "requested" in l && "allocated" in l;
    var rows := ToRows(l).value;
    var levels := if LEVEL_FIELD in l then Some(l[LEVEL_FIELD].texts) else None;
    assert rows == Rows(l["resources"].texts, l["usage"].nums, l["requested"].nums, l["allocated"].nums, levels);
    forall k | k in l && k != "name"
      ensures |rows| <= Len(l[k])
    {
      assert k in renamed.Keys - {"name"} + {"resources"};
    }
    var w := if |rows| == |l["resources"].texts| then "resources"
             else if |rows| == |l["usage"].nums| then "usage"
             else if |rows| == |l["requested"].nums| then "requested"
             else if |rows| == |l["allocated"].nums| then "allocated"
             else LEVEL_FIELD;
    assert w in l && w != "name" && |rows| == Len(l[w]);
  }

  /** Letter case in the input keys does not matter: a column whose key
      lower-cases to one of the field names, and that no later column with the
      same lower-cased key replaces, is the one that field is read from. */
  lemma RefactorResourcesAnyCase(t: Table, c: nat)
    requires WellTyped(t) && RefactorResources(t).Ok?
    requires c < |t| && forall j :: c < j < |t| ==> Lower(t[j].key) != Lower(t[c].key)
    ensures var rows := RefactorResources(t).value;
            forall i :: 0 <= i < |rows| ==>
              (Lower(t[c].key) == "resources" ==>
                 t[c].column.Texts? && i < |t[c].column.texts| && rows[i].name == t[c].column.texts[i]) &&
              (Lower(t[c].key) == "usage" ==>
                 t[c].column.Nums? && i < |t[c].column.nums| && rows[i].usage == t[c].column.nums[i]) &&
              (Lower(t[c].key) == "requested" ==>
                 t[c].column.Nums? && i < |t[c].column.nums| && rows[i].requested == t[c].column.nums[i]) &&
              (Lower(t[c].key) == "allocated" ==>
                 t[c].column.Nums? && i < |t[c].column.nums| && rows[i].allocation == t[c].column.nums[i])
  {
    var l := Lowered(t);
    LoweredLastWins(t, c);
    ToRowsErrors(l);
    if Accepted(RenamedKeys(l)) {
      ToRowsRows(l);
    }
  }

  // ---------------------------------------------------------------------------
  // refactor_to_dict

  /** `refactor_to_dict`: the four display columns in this order, the usage of
      each record wrapped in the colour of its warning level. */
  function RefactorToDict(rs: seq<Rec>): (d: Table)
    ensures |d| == 4 && d[0].key == "Resources" && d[1].key == "Usage"
    ensures d[2].key == "Requested" && d[3].key == "Allocated"
    ensures d[0].column.Texts? && d[1].column.Cells? && d[2].column.Nums? && d[3].column.Nums?
    ensures |d[0].column.texts| == |d[1].column.cells| == |d[2].column.nums| == |d[3].column.nums| == |rs|
    ensures forall i :: 0 <= i < |rs| ==>
              d[0].column.texts[i] == rs[i].name &&
              d[1].column.cells[i] == UsageCell(Color(rs[i].warningLevel), rs[i].usage) &&
              d[2].column.nums[i] == rs[i].requested &&
              d[3].column.nums[i] == rs[i].allocation
  {
    [
      Entry("Resources", Texts(seq(|rs|, i requires 0 <= i < |rs| => rs[i].name))),
      Entry("Usage", Cells(seq(|rs|, i requires 0 <= i < |rs| => UsageCell(Color(rs[i].warningLevel), rs[i].usage)))),
      Entry("Requested", Nums(seq(|rs|, i requires 0 <= i < |rs| => rs[i].requested))),
      Entry("Allocated", Nums(seq(|rs|, i requires 0 <= i < |rs| => rs[i].allocation)))
    ]
  }

  /** The column of usages that a column of usage cells wraps; other columns
      are left as they are. */
  function Strip(c: Column): (u: Column)
    ensures !c.Cells? ==> u == c
    ensures c.Cells? ==> u.Nums? && |u.nums| == |c.cells| &&
                         (forall i :: 0 <= i < |c.cells| ==> u.nums[i] == c.cells[i].usage)
  {
    if c.Cells? then Nums(seq(|c.cells|, i requires 0 <= i < |c.cells| => c.cells[i].usage)) else c
  }

  /** The presentation layer's inverse of the decoration, entry by entry. */
  function StripColors(t: Table): (u: Table)
    ensures |u| == |t| && forall i :: 0 <= i < |t| ==> u[i] == Entry(t[i].key, Strip(t[i].column))
  {
    seq(|t|, i requires 0 <= i < |t| => Entry(t[i].key, Strip(t[i].column)))
  }

  // ---------------------------------------------------------------------------
  // Round trips

  lemma LowerDisplayKeys()
    ensures Lower("Resources") == "resources" && Lower("Usage") == "usage"
    ensures Lower("Requested") == "requested" && Lower("Allocated") == "allocated"
  {
    assert Lower("Resources") == "resources";
    assert Lower("Usage") == "usage";
    assert Lower("Requested") == "requested";
    assert Lower("Allocated") == "allocated";
  }

  /** The lower-cased display table, once its colour tags are taken off. */
  lemma LoweredDisplay(rs: seq<Rec>)
    ensures var d := StripColors(RefactorToDict(rs));
            Lowered(d) == map["resources" := d[0].column, "usage" := d[1].column,
                              "requested" := d[2].column, "allocated" := d[3].column]
  {
    LowerDisplayKeys();
    var d := StripColors(RefactorToDict(rs));
    assert d[..3][..2][..1][..0] == [];
    assert Lowered(d[..3][..2][..1]) == map["resources" := d[0].column];
    assert d[..3][..2] == d[..2];
    assert Lowered(d[..2]) == map["resources" := d[0].column, "usage" := d[1].column];
    assert Lowered(d[..3]) == map["resources" := d[0].column, "usage" := d[1].column, "requested" := d[2].column];
  }

  /** Records to the display table and back: once the colour tags are taken
      off, the table is a valid input of refactor_resources, which recovers
      every record in order, with name, usage, requested and allocated intact
      and the warning level reset. */
  lemma RecordsRoundTrip(rs: seq<Rec>)
    ensures WellTyped(StripColors(RefactorToDict(rs)))
    ensures RefactorResources(StripColors(RefactorToDict(rs))) ==
              Ok(seq(|rs|, i requires 0 <= i < |rs| => Unclassified(rs[i])))
  {
    LoweredDisplay(rs);
    var l := Lowered(StripColors(RefactorToDict(rs)));
    assert RenamedKeys(l) == FIELDS;
    ToRowsRows(l);
    var rows := ToRows(l).value;
    assert |rows| == |rs|;
    assert rows == seq(|rs|, i requires 0 <= i < |rs| => Unclassified(rs[i]));
  }

  /** Columns to records and back: from equal-length columns keyed resources,
      usage, requested and allocated (after lower-casing), the display table
      holds the same columns in display order under the display names (the
      usage column once its colour tags are taken off). */
  lemma ColumnsRoundTrip(l: Columns, n: nat)
    requires ColumnsTyped(l)
    requires l.Keys == {"resources", "usage", "requested", "allocated"}
    requires forall x :: x in l ==> Len(l[x]) == n
    ensures ToRows(l).Ok? && |ToRows(l).value| == n
    ensures StripColors(RefactorToDict(ToRows(l).value)) ==
              [Entry("Resources", l["resources"]), Entry("Usage", l["usage"]),
               Entry("Requested", l["requested"]), Entry("Allocated", l["allocated"])]
  {
    assert RenamedKeys(l) == FIELDS;
    ToRowsRows(l);
    var rows := ToRows(l).value;
    assert |rows| == n by {
      var k :| k in l && k != "name" && |rows| == Len(l[k]);
    }
    var d := StripColors(RefactorToDict(rows));
    assert d[0].column.texts == l["resources"].texts;
    assert d[1].column.nums == l["usage"].nums;
    assert d[2].column.nums == l["requested"].nums;
    assert d[3].column.nums == l["allocated"].nums;
  }
}
