/** The columns of the test types, name by name. The last name of a registered format carries its NUL. */
module TestColumns {
  import opened Outcomes
  import Text
  import opened FormatText
  import opened Layout
  import ColumnPaths
  import opened Events
  import TypeCollisions
  import opened TestTypes

  // ---- the columns ----

  const COLUMNS0 := ["/a", "/b", "/c\0"]

  const COLUMNS1 := ["/a.00", "/a.01", "/a.02", "/b\0.00", "/b\0.01", "/b\0.02", "/b\0.03"]

  // an array of one element has no number
  const COLUMNS2 := [
    "/a.00", "/a.01", "/a.02", "/b1.00", "/b1.01", "/b1.02", "/b2.00", "/b2.01", "/b2.02", "/b2.03",
    "/b3.00", "/b3.01", "/b3.02", "/b3.03", "/b3.04", "/b4", "/c\0"]

  const COLUMNS3 :=
    Behind("/a.00", COLUMNS0) + Behind("/a.01", COLUMNS0) + Behind("/a.02", COLUMNS0) +
    Behind("/b", COLUMNS1) + Behind("/c\0", COLUMNS2)

  const COLUMNS4 :=
    Behind("/array\0.00", COLUMNS3) + Behind("/array\0.01", COLUMNS3) + Behind("/array\0.02", COLUMNS3)

  /** The names with a path in front. */
  function Behind(p: string, names: seq<string>): (r: seq<string>)
    ensures |r| == |names|
  {
    seq(|names|, i requires 0 <= i < |names| => p + names[i])
  }

  lemma BehindMore(p: string, a: seq<string>, b: seq<string>)
    ensures Behind(p, a + b) == Behind(p, a) + Behind(p, b)
  {
  }

  lemma BehindPath(p: string, q: string, names: seq<string>)
    ensures Behind(p, Behind(q, names)) == Behind(p + q, names)
  {
    forall i | 0 <= i < |names| ensures p + (q + names[i]) == p + q + names[i] { Text.Reassociate(p, q, names[i]); }
  }

  lemma BehindNothing(names: seq<string>)
    ensures Behind("", names) == names
  {
    forall i | 0 <= i < |names| ensures "" + names[i] == names[i] {}
  }

  /** These fields have these columns, under any path. */
  ghost predicate Makes(fm: Formats, open: set<string>, fields: seq<Field>, names: seq<string>) {
    forall p :: ColumnNames(fm, open, fields, p) == Ok(Behind(p, names))
  }

  lemma MakesMore(fm: Formats, open: set<string>, a: seq<Field>, b: seq<Field>, first: seq<string>, rest: seq<string>)
    requires Makes(fm, open, a, first) && Makes(fm, open, b, rest)
    ensures Makes(fm, open, a + b, first + rest)
  {
    forall p ensures ColumnNames(fm, open, a + b, p) == Ok(Behind(p, first + rest)) {
      ColumnPaths.ColumnsAppend(fm, open, a, b, p);
      BehindMore(p, first, rest);
    }
  }

  lemma MakesOne(fm: Formats, open: set<string>, t: FieldType, name: string, path: string)
    requires t != OTHER && |name| < 8 && path == "/" + name
    ensures Makes(fm, open, [Field(t, name, "", 1)], [path])
  {
    forall p ensures ColumnNames(fm, open, [Field(t, name, "", 1)], p) == Ok(Behind(p, [path])) {
      ColumnPaths.ScalarColumn(fm, open, Field(t, name, "", 1), p);
      Text.Reassociate(p, "/", name);
      assert Behind(p, [path]) == [p + path];
    }
  }

  /** `paths` tells the elements of an array. */
  predicate Row(path: string, paths: seq<string>) {
    forall k :: 0 <= k < |paths| ==> paths[k] == path + ColumnPaths.Numbered(k)
  }

  lemma MakesRow(fm: Formats, open: set<string>, t: FieldType, name: string, paths: seq<string>)
    requires t != OTHER && |name| < 8 && 1 < |paths| <= 5 && Row("/" + name, paths)
    ensures Makes(fm, open, [Field(t, name, "", |paths|)], paths)
  {
    var f := Field(t, name, "", |paths|);
    forall p ensures ColumnNames(fm, open, [f], p) == Ok(Behind(p, paths)) {
      ColumnPaths.ArrayColumns(fm, open, f, p);
      forall k | 0 <= k < |paths|
        ensures p + "/" + name + ColumnPaths.Numbered(k) == p + ("/" + name + ColumnPaths.Numbered(k))
      {
        Text.Reassociate(p, "/", name);
        Text.Reassociate(p, "/" + name, ColumnPaths.Numbered(k));
      }
      assert ColumnNames(fm, open, [f], p).value == Behind(p, paths);
    }
  }

  lemma FirstNumbers()
    ensures ColumnPaths.Numbered(0) == ".00" && ColumnPaths.Numbered(1) == ".01" && ColumnPaths.Numbered(2) == ".02"
    ensures ColumnPaths.Numbered(3) == ".03" && ColumnPaths.Numbered(4) == ".04"
  {
  }

  lemma Fields0()
    ensures RegisteredFields(FIELDS0) ==
            [Field(DOUBLE, "a", "", 1)] + [Field(UINT32, "b", "", 1)] + [Field(INT16, "c\0", "", 1)]
  {
    assert "c" + "\0" == "c\0";
  }

  lemma Columns0(fm: Formats, open: set<string>)
    ensures Makes(fm, open, RegisteredFields(FIELDS0), COLUMNS0)
  {
    Fields0();
    assert "/" + "a" == "/a" && "/" + "b" == "/b" && "/" + "c\0" == "/c\0";
    MakesOne(fm, open, DOUBLE, "a", "/a");
    MakesOne(fm, open, UINT32, "b", "/b");
    MakesOne(fm, open, INT16, "c\0", "/c\0");
    var a, b, c := [Field(DOUBLE, "a", "", 1)], [Field(UINT32, "b", "", 1)], [Field(INT16, "c\0", "", 1)];
    MakesMore(fm, open, a, b, ["/a"], ["/b"]);
    MakesMore(fm, open, a + b, c, ["/a"] + ["/b"], ["/c\0"]);
    assert COLUMNS0 == ["/a"] + ["/b"] + ["/c\0"];
  }

  lemma Fields1()
    ensures RegisteredFields(FIELDS1) == [Field(FLOAT, "a", "", 3)] + [Field(INT32, "b\0", "", 4)]
  {
    assert "b" + "\0" == "b\0";
  }

  lemma RowA()
    ensures Row("/" + "a", ["/a.00", "/a.01", "/a.02"])
  {
    FirstNumbers();
    assert "/" + "a" + ".00" == "/a.00" && "/" + "a" + ".01" == "/a.01" && "/" + "a" + ".02" == "/a.02";
  }

  lemma RowB()
    ensures Row("/" + "b\0", ["/b\0.00", "/b\0.01", "/b\0.02", "/b\0.03"])
  {
    FirstNumbers();
    assert "/" + "b\0" + ".00" == "/b\0.00" && "/" + "b\0" + ".01" == "/b\0.01";
    assert "/" + "b\0" + ".02" == "/b\0.02" && "/" + "b\0" + ".03" == "/b\0.03";
  }

  lemma Columns1(fm: Formats, open: set<string>)
    ensures Makes(fm, open, RegisteredFields(FIELDS1), COLUMNS1)
  {
    Fields1();
    RowA();
    RowB();
    var a, b := ["/a.00", "/a.01", "/a.02"], ["/b\0.00", "/b\0.01", "/b\0.02", "/b\0.03"];
    MakesRow(fm, open, FLOAT, "a", a);
    MakesRow(fm, open, INT32, "b\0", b);
    MakesMore(fm, open, [Field(FLOAT, "a", "", 3)], [Field(INT32, "b\0", "", 4)], a, b);
    assert COLUMNS1 == a + b;
  }

  lemma Fields2()
    ensures RegisteredFields(FIELDS2) ==
            [Field(DOUBLE, "a", "", 3)] + [Field(CHAR, "b1", "", 3)] + [Field(CHAR, "b2", "", 4)] +
            [Field(CHAR, "b3", "", 5)] + [Field(CHAR, "b4", "", 1)] + [Field(BOOL, "c\0", "", 1)]
  {
    assert "c" + "\0" == "c\0";
  }

  const B1 := ["/b1.00", "/b1.01", "/b1.02"]
  const B2 := ["/b2.00", "/b2.01", "/b2.02", "/b2.03"]
  const B3 := ["/b3.00", "/b3.01", "/b3.02", "/b3.03", "/b3.04"]

  lemma RowsB()
    ensures Row("/" + "b1", B1) && Row("/" + "b2", B2) && Row("/" + "b3", B3)
  {
    FirstNumbers();
    assert "/" + "b1" + ".00" == "/b1.00" && "/" + "b1" + ".01" == "/b1.01" && "/" + "b1" + ".02" == "/b1.02";
    assert "/" + "b2" + ".00" == "/b2.00" && "/" + "b2" + ".01" == "/b2.01" && "/" + "b2" + ".02" == "/b2.02";
    assert "/" + "b2" + ".03" == "/b2.03" && "/" + "b3" + ".03" == "/b3.03" && "/" + "b3" + ".04" == "/b3.04";
    assert "/" + "b3" + ".00" == "/b3.00" && "/" + "b3" + ".01" == "/b3.01" && "/" + "b3" + ".02" == "/b3.02";
  }

  const ROWS := [Field(DOUBLE, "a", "", 3)] + [Field(CHAR, "b1", "", 3)] + [Field(CHAR, "b2", "", 4)] +
                [Field(CHAR, "b3", "", 5)]

  /** The four arrays of DataType2 that have more than one element. */
  lemma Rows2(fm: Formats, open: set<string>)
    ensures Makes(fm, open, ROWS, ["/a.00", "/a.01", "/a.02"] + B1 + B2 + B3)
  {
    var a, first := [Field(DOUBLE, "a", "", 3)], ["/a.00", "/a.01", "/a.02"];
    var b1, b2, b3 := [Field(CHAR, "b1", "", 3)], [Field(CHAR, "b2", "", 4)], [Field(CHAR, "b3", "", 5)];
    RowA();
    RowsB();
    MakesRow(fm, open, DOUBLE, "a", first);
    MakesRow(fm, open, CHAR, "b1", B1);
    MakesRow(fm, open, CHAR, "b2", B2);
    MakesRow(fm, open, CHAR, "b3", B3);
    MakesMore(fm, open, a, b1, first, B1);
    MakesMore(fm, open, a + b1, b2, first + B1, B2);
    MakesMore(fm, open, a + b1 + b2, b3, first + B1 + B2, B3);
  }

  lemma Columns2(fm: Formats, open: set<string>)
    ensures Makes(fm, open, RegisteredFields(FIELDS2), COLUMNS2)
  {
    var rows := ["/a.00", "/a.01", "/a.02"] + B1 + B2 + B3;
    var b4, c := [Field(CHAR, "b4", "", 1)], [Field(BOOL, "c\0", "", 1)];
    Fields2();
    Rows2(fm, open);
    assert "/" + "b4" == "/b4" && "/" + "c\0" == "/c\0";
    MakesOne(fm, open, CHAR, "b4", "/b4");
    MakesOne(fm, open, BOOL, "c\0", "/c\0");
    MakesMore(fm, open, ROWS, b4, rows, ["/b4"]);
    MakesMore(fm, open, ROWS + b4, c, rows + ["/b4"], ["/c\0"]);
    assert COLUMNS2 == rows + ["/b4"] + ["/c\0"];
  }

  // ---- nested types ----

  lemma MakesNested(fm: Formats, open: set<string>, other: string, name: string, path: string, names: seq<string>)
    requires other in fm && other in open && |name| < 8 && path == "/" + name
    requires Makes(fm, open - {other}, fm[other].fields, names)
    ensures Makes(fm, open, [Field(OTHER, name, other, 1)], Behind(path, names))
  {
    forall p ensures ColumnNames(fm, open, [Field(OTHER, name, other, 1)], p) == Ok(Behind(p, Behind(path, names))) {
      ColumnPaths.NestedColumns(fm, open, Field(OTHER, name, other, 1), p);
      Text.Reassociate(p, "/", name);
      BehindPath(p, path, names);
    }
  }

  lemma NestedElement(p: string, path: string, k: nat, names: seq<string>)
    ensures Behind(p + path + ColumnPaths.Numbered(k), names) ==
            Behind(p, Behind(path + ColumnPaths.Numbered(k), names))
  {
    Text.Reassociate(p, path, ColumnPaths.Numbered(k));
    BehindPath(p, path + ColumnPaths.Numbered(k), names);
  }

  /** An array of three nested values. */
  lemma MakesThree(fm: Formats, open: set<string>, other: string, name: string, path: string, names: seq<string>)
    requires other in fm && other in open && |name| < 8 && path == "/" + name
    requires Makes(fm, open - {other}, fm[other].fields, names)
    ensures Makes(fm, open, [Field(OTHER, name, other, 3)],
                  Behind(path + ".00", names) + Behind(path + ".01", names) + Behind(path + ".02", names))
  {
    var f := Field(OTHER, name, other, 3);
    var a, b, c := Behind(path + ".00", names), Behind(path + ".01", names), Behind(path + ".02", names);
    FirstNumbers();
    forall p ensures ColumnNames(fm, open, [f], p) == Ok(Behind(p, a + b + c)) {
      ColumnPaths.NestedArrayColumns(fm, open, f, p);
      Text.Reassociate(p, "/", name);
      NestedElement(p, path, 0, names);
      NestedElement(p, path, 1, names);
      NestedElement(p, path, 2, names);
      assert ColumnPaths.Elements(fm, open, other, p + path, 1) == Ok([] + Behind(p, a));
      assert [] + Behind(p, a) == Behind(p, a);
      assert ColumnPaths.Elements(fm, open, other, p + path, 2) == Ok(Behind(p, a) + Behind(p, b));
      BehindMore(p, a, b);
      BehindMore(p, a + b, c);
    }
  }

  lemma Fields3()
    ensures RegisteredFields(FIELDS3) ==
            [Field(OTHER, "a", "DataType0", 3)] + [Field(OTHER, "b", "DataType1", 1)] +
            [Field(OTHER, "c\0", "DataType2", 1)]
  {
    assert "c" + "\0" == "c\0";
  }

  lemma Columns3(fm: Formats, open: set<string>)
    requires HasTypes(fm) && "DataType0" in open && "DataType1" in open && "DataType2" in open
    ensures Makes(fm, open, RegisteredFields(FIELDS3), COLUMNS3)
  {
    Fields3();
    Columns0(fm, open - {"DataType0"});
    Columns1(fm, open - {"DataType1"});
    Columns2(fm, open - {"DataType2"});
    assert "/" + "a" == "/a" && "/" + "b" == "/b" && "/" + "c\0" == "/c\0";
    assert "/a" + ".00" == "/a.00" && "/a" + ".01" == "/a.01" && "/a" + ".02" == "/a.02";
    MakesThree(fm, open, "DataType0", "a", "/a", COLUMNS0);
    MakesNested(fm, open, "DataType1", "b", "/b", COLUMNS1);
    MakesNested(fm, open, "DataType2", "c\0", "/c\0", COLUMNS2);
    var first := Behind("/a.00", COLUMNS0) + Behind("/a.01", COLUMNS0) + Behind("/a.02", COLUMNS0);
    var a, b := [Field(OTHER, "a", "DataType0", 3)], [Field(OTHER, "b", "DataType1", 1)];
    MakesMore(fm, open, a, b, first, Behind("/b", COLUMNS1));
    MakesMore(fm, open, a + b, [Field(OTHER, "c\0", "DataType2", 1)], first + Behind("/b", COLUMNS1),
              Behind("/c\0", COLUMNS2));
  }

  lemma Columns4(fm: Formats, open: set<string>)
    requires HasTypes(fm) && NAMES <= open
    ensures Makes(fm, open, RegisteredFields(FIELDS4), COLUMNS4)
  {
    assert "array" + "\0" == "array\0" && "/" + "array\0" == "/array\0";
    assert RegisteredFields(FIELDS4) == [Field(OTHER, "array\0", "DataType3", 3)];
    assert "/array\0" + ".00" == "/array\0.00" && "/array\0" + ".01" == "/array\0.01";
    assert "/array\0" + ".02" == "/array\0.02";
    Columns3(fm, open - {"DataType3"});
    MakesThree(fm, open, "DataType3", "array\0", "/array\0", COLUMNS3);
  }

  lemma UnderNothing(fm: Formats, fields: seq<Field>, names: seq<string>)
    requires Makes(fm, fm.Keys, fields, names)
    ensures ColumnNames(fm, fm.Keys, fields, "") == Ok(names)
  {
    BehindNothing(names);
  }

  /** The columns of the five types, as `create_timeseries` lays them out. */
  lemma TypeColumns(fm: Formats)
    requires HasTypes(fm)
    ensures TypeCollisions.Shape(fm, "DataType0") == Ok(COLUMNS0)
    ensures TypeCollisions.Shape(fm, "DataType1") == Ok(COLUMNS1)
    ensures TypeCollisions.Shape(fm, "DataType2") == Ok(COLUMNS2)
    ensures TypeCollisions.Shape(fm, "DataType3") == Ok(COLUMNS3)
    ensures TypeCollisions.Shape(fm, "DataType4") == Ok(COLUMNS4)
  {
    Columns0(fm, fm.Keys);
    Columns1(fm, fm.Keys);
    Columns2(fm, fm.Keys);
    Columns3(fm, fm.Keys);
    Columns4(fm, fm.Keys);
    UnderNothing(fm, RegisteredFields(FIELDS0), COLUMNS0);
    UnderNothing(fm, RegisteredFields(FIELDS1), COLUMNS1);
    UnderNothing(fm, RegisteredFields(FIELDS2), COLUMNS2);
    UnderNothing(fm, RegisteredFields(FIELDS3), COLUMNS3);
    UnderNothing(fm, RegisteredFields(FIELDS4), COLUMNS4);
  }
}
