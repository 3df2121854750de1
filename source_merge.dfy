/**
 * `merge_stock_data_sources` (stockdata/src/io.rs): the per-tab record lists
 * are folded, in order, into one table keyed by stock code; a code seen
 * again is merged into the record already held with `merge_stock_data`.
 * Also `get_timestamped_filename`, with the clock reading as a parameter.
 */
module SourceMerge {
  import opened StockRecord
  import opened Text
  import Seqs

  /** All sources, one after another. */
  function Flatten(sources: seq<seq<Record>>): (rs: seq<Record>)
  {
    if sources == [] then [] else Flatten(sources[..|sources| - 1]) + sources[|sources| - 1]
  }

  /** The codes that occur in `rs`. */
  function Codes(rs: seq<Record>): set<string>
  {
    if rs == [] then {} else Codes(rs[..|rs| - 1]) + {rs[|rs| - 1].code}
  }

  lemma CodesSnoc(rs: seq<Record>, r: Record)
    ensures Codes(rs + [r]) == Codes(rs) + {r.code}
  {
    assert (rs + [r])[..|rs|] == rs;
  }

  lemma {:induction false} CodesAreCodes(rs: seq<Record>, c: string)
    ensures c in Codes(rs) <==> exists i :: 0 <= i < |rs| && rs[i].code == c
  {
    if rs != [] {
      var init := rs[..|rs| - 1];
      CodesAreCodes(init, c);
      if c in Codes(init) {
        var i :| 0 <= i < |init| && init[i].code == c;
        assert rs[i] == init[i];
      }
      if i :| 0 <= i < |rs| - 1 && rs[i].code == c {
        assert init[i] == rs[i];
      }
    }
  }

  /** Every entry of the table is stored under its own code. */
  predicate KeyedByCode(table: map<string, Record>)
  {
    forall c | c in table :: table[c].code == c
  }

  /** One step of the inner loop: merge into the held record, or insert a copy. */
  function Absorb(table: map<string, Record>, stock: Record): (t: map<string, Record>)
    ensures t.Keys == table.Keys + {stock.code}
    ensures forall c | c in table && c != stock.code :: t[c] == table[c]
  {
    if stock.code in table then table[stock.code := Merged(table[stock.code], stock)] else table[stock.code := stock]
  }

  /** `table` after every record of `rs` has been absorbed, first to last. */
  function Fold(table: map<string, Record>, rs: seq<Record>): (t: map<string, Record>)
    ensures t.Keys == table.Keys + Codes(rs)
    ensures KeyedByCode(table) ==> KeyedByCode(t)
  {
    if rs == [] then table
    else
      Absorb(Fold(table, rs[..|rs| - 1]), rs[|rs| - 1])
  }

  /** The table built from `rs` alone. */
  function MergeAll(rs: seq<Record>): (table: map<string, Record>)
    ensures table.Keys == Codes(rs)
    ensures KeyedByCode(table)
  {
    Fold(map[], rs)
  }

  lemma FoldSnoc(table: map<string, Record>, rs: seq<Record>, r: Record)
    ensures Fold(table, rs + [r]) == Absorb(Fold(table, rs), r)
  {
    assert (rs + [r])[..|rs|] == rs;
  }

  lemma {:induction false} FoldAppend(table: map<string, Record>, a: seq<Record>, b: seq<Record>)
    ensures Fold(table, a + b) == Fold(Fold(table, a), b)
    decreases |b|
  {
    if b == [] {
      assert a + b == a;
    } else {
      var init, last := b[..|b| - 1], b[|b| - 1];
      assert b == init + [last];
      assert a + b == (a + init) + [last];
      FoldAppend(table, a, init);
      FoldSnoc(table, a + init, last);
      FoldSnoc(Fold(table, a), init, last);
    }
  }

  /** The reference rule: the first value that is not the default, or the default when there is none. */
  function FirstNonDefault(vs: seq<Value>, k: Kind): (v: Value)
    requires forall i :: 0 <= i < |vs| ==> ValueKind(vs[i]) == k
    ensures ValueKind(v) == k
    ensures IsDefault(v) <==> forall i :: 0 <= i < |vs| ==> IsDefault(vs[i])
  {
    if vs == [] then DefaultFor(k) else if !IsDefault(vs[0]) then vs[0] else FirstNonDefault(vs[1..], k)
  }

  /** The values of field `f` in the records of `rs` with code `c`, in order. */
  function FieldValues(rs: seq<Record>, c: string, f: Field): (vs: seq<Value>)
    ensures forall i :: 0 <= i < |vs| ==> ValueKind(vs[i]) == KindOf(f)
  {
    if rs == [] then []
    else
      var last := rs[|rs| - 1];
      FieldValues(rs[..|rs| - 1], c, f) + (if last.code == c then [Get(last, f)] else [])
  }

  lemma {:induction false} FirstNonDefaultSnoc(vs: seq<Value>, v: Value, k: Kind)
    requires forall i :: 0 <= i < |vs| ==> ValueKind(vs[i]) == k
    requires ValueKind(v) == k
    ensures FirstNonDefault(vs + [v], k) == MergeField(FirstNonDefault(vs, k), v)
  {
    if vs != [] {
      assert (vs + [v])[1..] == vs[1..] + [v];
      FirstNonDefaultSnoc(vs[1..], v, k);
    }
  }

  lemma {:induction false} FirstNonDefaultAppend(vs: seq<Value>, ws: seq<Value>, k: Kind)
    requires forall i :: 0 <= i < |vs| ==> ValueKind(vs[i]) == k
    requires forall i :: 0 <= i < |ws| ==> ValueKind(ws[i]) == k
    ensures FirstNonDefault(vs + ws, k) == if IsDefault(FirstNonDefault(vs, k)) then FirstNonDefault(ws, k) else FirstNonDefault(vs, k)
  {
    if vs == [] {
      assert vs + ws == ws;
    } else {
      assert (vs + ws)[1..] == vs[1..] + ws;
      FirstNonDefaultAppend(vs[1..], ws, k);
    }
  }

  lemma {:induction false} FieldValuesAbsent(rs: seq<Record>, c: string, f: Field)
    requires c !in Codes(rs)
    ensures FieldValues(rs, c, f) == []
  {
    if rs != [] {
      FieldValuesAbsent(rs[..|rs| - 1], c, f);
    }
  }

  lemma {:induction false} FieldValuesAppend(a: seq<Record>, b: seq<Record>, c: string, f: Field)
    ensures FieldValues(a + b, c, f) == FieldValues(a, c, f) + FieldValues(b, c, f)
    decreases |b|
  {
    if b == [] {
      assert a + b == a;
    } else {
      var init := b[..|b| - 1];
      FieldValuesAppend(a, init, c, f);
      assert (a + b)[..|a + b| - 1] == a + init;
      assert (a + b)[|a + b| - 1] == b[|b| - 1];
    }
  }

  lemma {:induction false} CodesAppend(a: seq<Record>, b: seq<Record>)
    ensures Codes(a + b) == Codes(a) + Codes(b)
    decreases |b|
  {
    if b == [] {
      assert a + b == a;
    } else {
      var init := b[..|b| - 1];
      CodesAppend(a, init);
      assert (a + b)[..|a + b| - 1] == a + init;
      assert (a + b)[|a + b| - 1] == b[|b| - 1];
    }
  }

  /**
   * The merged record for code `c` holds, in every field, the first
   * non-default value among the records with that code, in source order.
   */
  lemma {:induction false} MergeAllFirstNonDefault(rs: seq<Record>, c: string, f: Field)
    requires c in MergeAll(rs)
    ensures MergeAll(rs)[c].code == c
    ensures Get(MergeAll(rs)[c], f) == FirstNonDefault(FieldValues(rs, c, f), KindOf(f))
  {
    var init := rs[..|rs| - 1];
    var r := rs[|rs| - 1];
    assert MergeAll(rs) == Absorb(MergeAll(init), r);
    if r.code != c {
      assert FieldValues(rs, c, f) == FieldValues(init, c, f) + [] == FieldValues(init, c, f);
      MergeAllFirstNonDefault(init, c, f);
    } else if c in MergeAll(init) {
      MergeAllFirstNonDefault(init, c, f);
      FirstNonDefaultSnoc(FieldValues(init, c, f), Get(r, f), KindOf(f));
    } else {
      FieldValuesAbsent(init, c, f);
      assert FieldValues(rs, c, f) == [Get(r, f)];
    }
  }

  /** Merging the records of `s` a second time changes nothing. */
  lemma MergeTwice(s: seq<Record>)
    ensures MergeAll(s + s) == MergeAll(s)
  {
    CodesAppend(s, s);
    forall c | c in MergeAll(s)
      ensures MergeAll(s + s)[c] == MergeAll(s)[c]
    {
      forall f
        ensures Get(MergeAll(s + s)[c], f) == Get(MergeAll(s)[c], f)
      {
        MergeAllFirstNonDefault(s + s, c, f);
        MergeAllFirstNonDefault(s, c, f);
        FieldValuesAppend(s, s, c, f);
        FirstNonDefaultAppend(FieldValues(s, c, f), FieldValues(s, c, f), KindOf(f));
      }
      MergeAllFirstNonDefault(s + s, c, Name);
      MergeAllFirstNonDefault(s, c, Name);
      RecordsEqual(MergeAll(s + s)[c], MergeAll(s)[c]);
    }
  }

  /** `merge_stock_data_sources([S, S])` and `merge_stock_data_sources([S])` hold the same records. */
  lemma SameSourceTwice(s: seq<Record>)
    ensures MergeAll(Flatten([s, s])) == MergeAll(Flatten([s]))
  {
    assert Flatten([s]) == s;
    assert [s, s][..1] == [s];
    assert Flatten([s, s]) == s + s;
    MergeTwice(s);
  }

  /**
   * Rows for one code from three tabs that fill different fields combine
   * into one record holding all of those fields.
   */
  lemma DisjointFieldsCombine(a: Record, b: Record, c: Record)
    requires a.code == b.code == c.code
    requires a.fields.Keys !! b.fields.Keys && a.fields.Keys !! c.fields.Keys && b.fields.Keys !! c.fields.Keys
    ensures MergeAll(Flatten([[a], [b], [c]])).Keys == {a.code}
    ensures MergeAll(Flatten([[a], [b], [c]]))[a.code].fields == a.fields + b.fields + c.fields
  {
    FlattenThree(a, b, c);
    MergeAllThree(a, b, c);
    var ab := Merged(a, b);
    assert ab.fields == a.fields + b.fields by {
      UnionOfDisjoint(b.fields, a.fields);
    }
    assert Merged(ab, c).fields == a.fields + b.fields + c.fields by {
      UnionOfDisjoint(c.fields, ab.fields);
    }
  }

  lemma FlattenThree(a: Record, b: Record, c: Record)
    ensures Flatten([[a], [b], [c]]) == [a, b, c]
  {
    assert Flatten([[a]]) == [a] by {
      assert [[a]][..0] == [];
    }
    assert Flatten([[a], [b]]) == [a, b] by {
      assert [[a], [b]][..1] == [[a]];
    }
    assert [[a], [b], [c]][..2] == [[a], [b]];
  }

  lemma MergeAllThree(a: Record, b: Record, c: Record)
    requires a.code == b.code == c.code
    ensures MergeAll([a, b, c]) == map[a.code := Merged(Merged(a, b), c)]
  {
    MergeAllTwo(a, b);
    FoldSnoc(map[], [a, b], c);
    assert [a, b] + [c] == [a, b, c];
    AbsorbHeld(Merged(a, b), c);
  }

  /** Absorbing a record into a table holding only its code merges it into that entry. */
  lemma AbsorbHeld(held: Record, r: Record)
    requires held.code == r.code
    ensures Absorb(map[r.code := held], r) == map[r.code := Merged(held, r)]
  {
  }

  lemma MergeAllTwo(a: Record, b: Record)
    requires a.code == b.code
    ensures MergeAll([a, b]) == map[a.code := Merged(a, b)]
  {
    FoldSnoc(map[], [], a);
    assert [] + [a] == [a];
    FoldSnoc(map[], [a], b);
    assert [a] + [b] == [a, b];
  }

  /** The union of two maps with no key in common does not depend on their order. */
  lemma UnionOfDisjoint(m: map<Field, Value>, n: map<Field, Value>)
    requires m.Keys !! n.Keys
    ensures m + n == n + m
  {
  }

  /** No sources, no records. */
  lemma NoSources()
    ensures MergeAll(Flatten([])) == map[]
  {
  }

  /**
   * `merge_stock_data_sources`: the nested loops fill the table; its values
   * are then listed in an order the model leaves open, as `HashMap` does.
   */
  method MergeStockDataSources(sources: seq<seq<Record>>) returns (merged: seq<Record>)
    ensures forall i, j :: 0 <= i < j < |merged| ==> merged[i].code != merged[j].code
    ensures Codes(merged) == Codes(Flatten(sources))
    ensures forall i :: 0 <= i < |merged| ==>
              merged[i].code in MergeAll(Flatten(sources)) && merged[i] == MergeAll(Flatten(sources))[merged[i].code]
  {
    var table: map<string, Record> := map[];
    var s := 0;
    while s < |sources|
      invariant 0 <= s <= |sources|
      invariant table == MergeAll(Flatten(sources[..s]))
    {
      table := AbsorbSource(table, sources[s]);
      FoldAppend(map[], Flatten(sources[..s]), sources[s]);
      Seqs.TakeOneMore(sources, s);
      s := s + 1;
    }
    assert sources[..s] == sources;
    merged := ListValues(table);
  }

  /** The inner loop: every record of one source absorbed in turn. */
  method AbsorbSource(table: map<string, Record>, source: seq<Record>) returns (t: map<string, Record>)
    ensures t == Fold(table, source)
  {
    t := table;
    var k := 0;
    while k < |source|
      invariant 0 <= k <= |source|
      invariant t == Fold(table, source[..k])
    {
      t := AbsorbStock(t, source[k]);
      FoldStep(table, source, k);
      k := k + 1;
    }
    assert source[..k] == source;
  }

  /** The inner loop's body: merge into the record already held for the code, or insert the record. */
  method AbsorbStock(table: map<string, Record>, stock: Record) returns (t: map<string, Record>)
    ensures t == Absorb(table, stock)
  {
    if stock.code in table {
      var combined := MergeStockData(table[stock.code], stock);
      t := table[stock.code := combined];
    } else {
      t := table[stock.code := stock];
    }
  }

  lemma FoldStep(table: map<string, Record>, source: seq<Record>, k: nat)
    requires k < |source|
    ensures Fold(table, source[..k + 1]) == Absorb(Fold(table, source[..k]), source[k])
  {
    Seqs.TakeOneMore(source, k);
    FoldSnoc(table, source[..k], source[k]);
  }

  /** `values` lists, once each, the entries of `table` whose codes are no longer `pending`. */
  ghost predicate Listed(table: map<string, Record>, values: seq<Record>, pending: set<string>)
  {
    && pending <= table.Keys
    && Codes(values) == table.Keys - pending
    && (forall i :: 0 <= i < |values| ==> values[i].code !in pending)
    && (forall i, j :: 0 <= i < j < |values| ==> values[i].code != values[j].code)
    && (forall i :: 0 <= i < |values| ==> values[i].code in table && values[i] == table[values[i].code])
  }

  /** Listing one more pending entry keeps `Listed`. */
  lemma ListStep(table: map<string, Record>, values: seq<Record>, pending: set<string>, c: string)
    requires KeyedByCode(table) && Listed(table, values, pending) && c in pending
    ensures Listed(table, values + [table[c]], pending - {c})
  {
    var next := values + [table[c]];
    CodesSnoc(values, table[c]);
    assert forall i :: 0 <= i < |values| ==> next[i] == values[i];
    assert next[|values|].code == c;
  }

  /** `into_values().collect()`: each entry of the table once, in some order. */
  method ListValues(table: map<string, Record>) returns (values: seq<Record>)
    requires KeyedByCode(table)
    ensures forall i, j :: 0 <= i < j < |values| ==> values[i].code != values[j].code
    ensures Codes(values) == table.Keys
    ensures forall i :: 0 <= i < |values| ==> values[i].code in table && values[i] == table[values[i].code]
  {
    values := [];
    var pending := table.Keys;
    while pending != {}
      invariant Listed(table, values, pending)
      decreases |pending|
    {
      var c :| c in pending;
      ListStep(table, values, pending, c);
      values := values + [table[c]];
      pending := pending - {c};
    }
  }

  /** A local clock reading, as `chrono` presents it. */
  datatype DateTime = DateTime(year: nat, month: nat, day: nat, hour: nat, minute: nat, second: nat)

  predicate ValidDateTime(t: DateTime)
  {
    t.year < 10000 && 1 <= t.month <= 12 && 1 <= t.day <= 31 && t.hour < 24 && t.minute < 60 && t.second < 61
  }

  /** `format("%Y%m%d_%H%M%S")`: the date's digits, one underscore, the time's digits. */
  function Timestamp(t: DateTime): (stamp: string)
    ensures |stamp| >= 15
    ensures var k := |ZeroPad(t.year, 4) + ZeroPad(t.month, 2) + ZeroPad(t.day, 2)|;
      k >= 8 && k < |stamp| && stamp[k] == '_'
      && forall i :: 0 <= i < |stamp| && i != k ==> '0' <= stamp[i] <= '9'
  {
    var date := ZeroPad(t.year, 4) + ZeroPad(t.month, 2) + ZeroPad(t.day, 2);
    var time := ZeroPad(t.hour, 2) + ZeroPad(t.minute, 2) + ZeroPad(t.second, 2);
    assert forall i :: 0 <= i < |date| ==> '0' <= date[i] <= '9';
    assert forall i :: 0 <= i < |time| ==> '0' <= time[i] <= '9';
    assert ZeroPad(t.year, 4) + ZeroPad(t.month, 2) + ZeroPad(t.day, 2) + "_"
      + ZeroPad(t.hour, 2) + ZeroPad(t.minute, 2) + ZeroPad(t.second, 2) == date + "_" + time;
    date + "_" + time
  }

  /** A valid reading gives eight digits, an underscore and six digits. */
  lemma TimestampLayout(t: DateTime)
    requires ValidDateTime(t)
    ensures |Timestamp(t)| == 15 && Timestamp(t)[8] == '_'
    ensures forall i :: 0 <= i < 15 && i != 8 ==> '0' <= Timestamp(t)[i] <= '9'
  {
    assert Pow10(2) == 100 && Pow10(4) == 10000;
    ZeroPadWidth(t.year, 4);
    ZeroPadWidth(t.month, 2);
    ZeroPadWidth(t.day, 2);
    ZeroPadWidth(t.hour, 2);
    ZeroPadWidth(t.minute, 2);
    ZeroPadWidth(t.second, 2);
  }

  /**
   * The extension with a leading dot: one is prepended when the caller gave
   * none, and an extension that already starts with '.' is kept as given.
   */
  function Dotted(extension: string): (e: string)
    ensures StartsWith(e, ".")
    ensures StartsWith(extension, ".") ==> e == extension
    ensures !StartsWith(extension, ".") ==> e == "." + extension
  {
    if StartsWith(extension, ".") then extension else "." + extension
  }

  /** `get_timestamped_filename(dir, prefix, extension)` at clock reading `now`. */
  function TimestampedFilename(dir: string, prefix: string, extension: string, now: DateTime): (name: string)
    ensures var stem := dir + "/" + prefix + "_";
      && StartsWith(name, stem)
      && |name| == |stem| + |Timestamp(now)| + |Dotted(extension)|
      && name[|stem|..|stem| + |Timestamp(now)|] == Timestamp(now)
      && name[|stem| + |Timestamp(now)|..] == Dotted(extension)
  {
    dir + "/" + prefix + "_" + Timestamp(now) + Dotted(extension)
  }

  /** An extension given with or without its leading dot names the same file. */
  lemma ExtensionDotOptional(dir: string, prefix: string, extension: string, now: DateTime)
    requires !StartsWith(extension, ".")
    ensures TimestampedFilename(dir, prefix, extension, now) == TimestampedFilename(dir, prefix, "." + extension, now)
  {
    assert StartsWith("." + extension, ".");
  }

  /** The name is `dir/prefix_` then a 15-character stamp, then the dotted extension. */
  lemma FilenameLayout(dir: string, prefix: string, extension: string, now: DateTime)
    requires ValidDateTime(now)
    ensures var name := TimestampedFilename(dir, prefix, extension, now);
            var stem := |dir| + 1 + |prefix| + 1;
            && |name| == stem + 15 + |Dotted(extension)|
            && name[..|dir| + 1] == dir + "/"
            && name[stem - 1] == '_'
            && name[stem + 15..] == Dotted(extension)
  {
    TimestampLayout(now);
  }
}
